/** The connection state value (Models/ConnectionState.cs): the four-way state tag, the
    state-plus-message record with its factories, structural `Equals`, the hash, and the
    null-aware `==` / `!=` operators. */
module ConnectionModel {
  import opened Primitives

  datatype ConnectionState = Disconnected | Connecting | Connected | Error

  /** What `Equals(object? obj)` can be handed: null, a `ConnectionStateInfo`, or some
      other object. */
  datatype AnyObject = NullObject | StateObject(info: ConnectionStateInfo) | OtherObject

  /** `ConnectionStateInfo`: a state tag and an optional (nullable) error message. */
  datatype ConnectionStateInfo = ConnectionStateInfo(State: ConnectionState, ErrorMessage: Option<string>)
  {
    static function Disconnected(): (r: ConnectionStateInfo)
      ensures r.State == ConnectionState.Disconnected && r.ErrorMessage.None?
    {
      ConnectionStateInfo(ConnectionState.Disconnected, None)
    }

    static function Connecting(): (r: ConnectionStateInfo)
      ensures r.State == ConnectionState.Connecting && r.ErrorMessage.None?
    {
      ConnectionStateInfo(ConnectionState.Connecting, None)
    }

    static function Connected(): (r: ConnectionStateInfo)
      ensures r.State == ConnectionState.Connected && r.ErrorMessage.None?
    {
      ConnectionStateInfo(ConnectionState.Connected, None)
    }

    static function Error(message: string): (r: ConnectionStateInfo)
      ensures r.State == ConnectionState.Error && r.ErrorMessage == Some(message)
    {
      ConnectionStateInfo(ConnectionState.Error, Some(message))
    }

    /** `Equals(object? obj)`: false for null and for objects of other types (the pattern
        `obj is ConnectionStateInfo other` fails), otherwise field-wise comparison. */
    function Equals(obj: AnyObject): (r: bool)
      ensures obj.NullObject? || obj.OtherObject? ==> !r
      ensures obj.StateObject? ==> (r <==> obj.info == this)
    {
      match obj
      case StateObject(other) => State == other.State && ErrorMessage == other.ErrorMessage
      case _ => false
    }

    /** `GetHashCode()`: `HashCode.Combine(State, ErrorMessage)`; the combiner is a parameter
        because only its inputs matter here. */
    function GetHashCode(combine: (ConnectionState, Option<string>) -> int): int
    {
      combine(State, ErrorMessage)
    }
  }

  /** A non-null C# reference to a `ConnectionStateInfo` object: its identity and the object. */
  datatype StateRef = StateRef(identity: nat, target: ConnectionStateInfo)

  function ReferenceEquals(left: Option<StateRef>, right: Option<StateRef>): bool
  {
    match (left, right)
    case (None, None) => true
    case (Some(l), Some(r)) => l.identity == r.identity
    case _ => false
  }

  /** Two references that share an identity point at the same object. */
  predicate Coherent(left: Option<StateRef>, right: Option<StateRef>) {
    left.Some? && right.Some? && left.value.identity == right.value.identity ==>
      left.value.target == right.value.target
  }

  /** `operator ==`: reference equality first, then null checks, then `Equals`. */
  function OpEquals(left: Option<StateRef>, right: Option<StateRef>): (r: bool)
    ensures left.None? && right.None? ==> r
    ensures left.None? != right.None? ==> !r
    ensures left.Some? && right.Some? && left.value.identity == right.value.identity ==> r
    ensures left.Some? && right.Some? && left.value.identity != right.value.identity ==>
      (r <==> left.value.target.State == right.value.target.State &&
              left.value.target.ErrorMessage == right.value.target.ErrorMessage)
  {
    if ReferenceEquals(left, right) then true
    else if left.None? || right.None? then false
    else left.value.target.Equals(StateObject(right.value.target))
  }

  /** `operator !=`. */
  function OpNotEquals(left: Option<StateRef>, right: Option<StateRef>): (r: bool)
    ensures r <==> !OpEquals(left, right)
  {
    !OpEquals(left, right)
  }

  /** On a coherent heap `==` is null-aware structural equality of the referenced values. */
  lemma OpEqualsIsValueEquality(left: Option<StateRef>, right: Option<StateRef>)
    requires Coherent(left, right)
    ensures OpEquals(left, right) <==>
      (left.None? && right.None?) ||
      (left.Some? && right.Some? && left.value.target == right.value.target)
  {
  }

  /** `Equals` is an equivalence relation. */
  lemma EqualsIsEquivalence(a: ConnectionStateInfo, b: ConnectionStateInfo, c: ConnectionStateInfo)
    ensures a.Equals(StateObject(a))
    ensures a.Equals(StateObject(b)) ==> b.Equals(StateObject(a))
    ensures a.Equals(StateObject(b)) && b.Equals(StateObject(c)) ==> a.Equals(StateObject(c))
  {
  }

  /** Equal values hash alike, whatever the combiner. */
  lemma EqualsAgreesWithHash(a: ConnectionStateInfo, b: ConnectionStateInfo,
                             combine: (ConnectionState, Option<string>) -> int)
    requires a.Equals(StateObject(b))
    ensures a.GetHashCode(combine) == b.GetHashCode(combine)
  {
  }

  /** Error values compare by message, and never equal a plain state. */
  lemma ErrorValuesCompareByMessage(a: string, b: string)
    ensures ConnectionStateInfo.Error(a).Equals(StateObject(ConnectionStateInfo.Error(b))) <==> a == b
    ensures !ConnectionStateInfo.Error(a).Equals(StateObject(ConnectionStateInfo.Disconnected()))
    ensures !ConnectionStateInfo.Error(a).Equals(StateObject(ConnectionStateInfo.Connecting()))
    ensures !ConnectionStateInfo.Error(a).Equals(StateObject(ConnectionStateInfo.Connected()))
  {
  }
}
