/** One discovered servo (Models/ServoInfo.cs): bus ID, model code and presence flag,
    with its equality, hash and derived model name. */
module ServoModel {
  import opened Primitives
  import ModelNameLookup

  /** `Id` is a byte and `ModelNumber` a ushort, so their ranges hold by type. */
  datatype ServoInfo = ServoInfo(Id: byte, ModelNumber: ushort, IsConnected: bool)

  /** What `Equals(object? obj)` can be handed: null, a `ServoInfo`, or some other object. */
  datatype Obj = NullObj | ServoObj(servo: ServoInfo) | OtherObj

  /** `ModelName`: the looked-up name of the model code. */
  function ModelName(s: ServoInfo): (name: string)
    ensures name == ModelNameLookup.GetName(s.ModelNumber)
    ensures name != []
  {
    ModelNameLookup.GetName(s.ModelNumber)
  }

  /** `Equals(ServoInfo? other)`: non-null and all three properties equal. */
  function Equals(s: ServoInfo, other: Option<ServoInfo>): (r: bool)
    ensures r <==> other == Some(s)
  {
    other.Some? && s.Id == other.value.Id && s.ModelNumber == other.value.ModelNumber &&
    s.IsConnected == other.value.IsConnected
  }

  /** `Equals(object? obj)`: `obj as ServoInfo`, which is null for null and for other types. */
  function EqualsObject(s: ServoInfo, obj: Obj): (r: bool)
    ensures obj.NullObj? || obj.OtherObj? ==> !r
    ensures obj.ServoObj? ==> (r <==> obj.servo == s)
  {
    Equals(s, if obj.ServoObj? then Some(obj.servo) else None)
  }

  /** `GetHashCode()`: `HashCode.Combine(Id)`; the combiner is a parameter. */
  function GetHashCode(s: ServoInfo, combine: byte -> int): int
  {
    combine(s.Id)
  }

  /** Equal servos hash alike; same-ID servos with different models collide without being equal. */
  lemma HashConsistentWithEquals(a: ServoInfo, b: ServoInfo, combine: byte -> int)
    ensures Equals(a, Some(b)) ==> GetHashCode(a, combine) == GetHashCode(b, combine)
    ensures a.Id == b.Id ==> GetHashCode(a, combine) == GetHashCode(b, combine)
    ensures a.Id == b.Id && a.ModelNumber != b.ModelNumber ==> !Equals(a, Some(b))
  {
  }
}
