/** The Change-ID dialog's view model (ViewModels/ChangeIdViewModel.cs): the typed new ID,
    its validation, the enable rules of the Confirm and Cancel commands, and the sequence
    Confirm runs against the servo manager. */
module ViewModels {
  import opened Primitives
  import opened ServoModel
  import opened Bus
  import opened ServoManagerSpec
  import opened Services

  const StartingMessage: string := "Starting..."

  /** What the dialog does that the rest of the application sees, in the order it happens:
      `IsChanging` being set, `ProgressMessage` being set, the call of the manager's
      `ChangeServoIdAsync`, and the two events. */
  datatype Effect =
    | ChangingSet(value: bool)
    | ProgressShown(message: string)
    | ServiceCalled(oldId: byte, newId: byte)
    | SuccessfulChangeRaised
    | CloseRequestedRaised

  /** `IsValid` for the text `input` in a dialog opened on the servo with ID `currentId`:
      the text parses as a byte that is a usable ID other than the current one. */
  function IsValidInput(input: string, currentId: byte): (r: bool)
    ensures r ==> input != [] && AllDigits(input) && input != Decimal(currentId)
    ensures r <==> exists v: byte :: TryParseByte(input) == Some(v) && 1 <= v <= TotalIds && v != currentId
  {
    ParseFormattedByte(currentId);
    match TryParseByte(input)
    case None => false
    case Some(v) => 1 <= v <= TotalIds && v != currentId
  }

  /** The text the dialog opens with, the current ID in decimal, reads back as that ID,
      so a fresh dialog is never valid. */
  lemma FreshInputIsInvalid(currentId: byte)
    ensures TryParseByte(Decimal(currentId)) == Some(currentId)
    ensures !IsValidInput(Decimal(currentId), currentId)
  {
    ParseFormattedByte(currentId);
  }

  /** An input the dialog accepts gets past the manager's range check and does not ask for
      the servo's own ID: whatever the manager then reports, it is not the invalid-ID message. */
  lemma ValidInputPassesRangeCheck(input: string, currentId: byte, m: Manager, w: World,
                                   cancel: IdChangeCancel, rescanCancel: int -> bool)
    requires IsValidInput(input, currentId)
    ensures TryParseByte(input).Some?
    ensures var v := TryParseByte(input).value;
      1 <= v <= TotalIds && v != currentId &&
      ChangeIdOf(m, w, currentId, v, cancel, rescanCancel).messages[0] != InvalidIdMessage
  {
    var v := TryParseByte(input).value;
    var r := ChangeIdOf(m, w, currentId, v, cancel, rescanCancel);
    assert InvalidIdMessage[1] == 'n';
    assert InUseMessage(v)[1] == 'D';
    assert |WritingMessage| != |InvalidIdMessage|;
    assert r.messages[0] in {NotConnectedMessage, LostMessage, InUseMessage(v), CancelledMessage, WritingMessage};
  }

  /** The progress callback's effect for each message, in order. */
  function Shown(messages: seq<string>): (e: seq<Effect>)
    ensures |e| == |messages|
    ensures forall i :: 0 <= i < |e| ==> e[i] == ProgressShown(messages[i])
  {
    if messages == [] then [] else Shown(messages[..|messages| - 1]) + [ProgressShown(messages[|messages| - 1])]
  }

  /** The effects of one confirmed change with parsed ID `newId`, given the manager's result:
      the dialog shows it is busy, calls the manager, shows each progress message, raises the
      two events on success, and is no longer busy. */
  function ChangeEffects(oldId: byte, newId: byte, r: IdChange): (e: seq<Effect>)
    ensures |e| == 4 + |r.messages| + (if r.ok then 2 else 0)
    ensures e[0] == ChangingSet(true) && e[1] == ProgressShown(StartingMessage)
    ensures e[2] == ServiceCalled(oldId, newId) && e[|e| - 1] == ChangingSet(false)
    ensures forall i :: 0 <= i < |r.messages| ==> e[3 + i] == ProgressShown(r.messages[i])
    ensures r.ok ==> e[|e| - 3] == SuccessfulChangeRaised && e[|e| - 2] == CloseRequestedRaised
    ensures SuccessfulChangeRaised in e <==> r.ok
    ensures CloseRequestedRaised in e <==> r.ok
  {
    [ChangingSet(true), ProgressShown(StartingMessage), ServiceCalled(oldId, newId)]
    + Shown(r.messages)
    + (if r.ok then [SuccessfulChangeRaised, CloseRequestedRaised] else [])
    + [ChangingSet(false)]
  }

  /** The manager always reports at least one progress message, so after a confirmed change
      the dialog shows the manager's last message, and the busy flag is set exactly once and
      cleared exactly once, in that order. */
  lemma ChangeEffectsOrder(m: Manager, w: World, oldId: byte, newId: byte, cancel: IdChangeCancel,
                           rescanCancel: int -> bool)
    ensures var r := ChangeIdOf(m, w, oldId, newId, cancel, rescanCancel);
      var e := ChangeEffects(oldId, newId, r);
      && r.messages != []
      && (forall i :: 0 < i < |e| - 1 ==> !e[i].ChangingSet?)
      && (forall i :: 0 <= i < |e| && e[i].ServiceCalled? ==> i == 2)
  {
  }

  lemma ConcatAssociates<T>(a: seq<T>, b: seq<T>, c: seq<T>, d: seq<T>, e: seq<T>)
    ensures a + b + c + d + e == a + (b + c + d + e)
  {
  }

  class ChangeIdViewModel {
    const servo: ServoInfo
    const servoManager: ServoManager
    var newIdInput: string
    var isChanging: bool
    var progressMessage: string
    /** Everything the dialog has done so far, oldest first. */
    var effects: seq<Effect>

    /** `CurrentId`: the ID of the servo the dialog was opened on. */
    function CurrentId(): byte {
      servo.Id
    }

    /** `IsValid`: the typed text names a usable ID other than the servo's own. */
    function IsValid(): (r: bool)
      reads this
      ensures r ==> TryParseByte(newIdInput).Some? && 1 <= TryParseByte(newIdInput).value <= TotalIds
      ensures r ==> TryParseByte(newIdInput).value != CurrentId() && newIdInput != Decimal(CurrentId())
      ensures TryParseByte(newIdInput).None? ==> !r
    {
      IsValidInput(newIdInput, CurrentId())
    }

    /** Whether the Confirm command can execute: only for a valid input and never while a
        change is running. */
    function CanConfirm(): (r: bool)
      reads this
      ensures r ==> IsValid()
      ensures isChanging ==> !r
      ensures IsValid() && !isChanging ==> r
    {
      IsValid() && !isChanging
    }

    /** Whether the Cancel command can execute: whenever no change is running, so in
        particular whenever Confirm can. */
    function CanCancel(): (r: bool)
      reads this
      ensures r <==> !isChanging
      ensures CanConfirm() ==> r
    {
      !isChanging
    }

    /** The dialog opens on `servo` with its current ID typed in, so Confirm starts disabled
        and Cancel enabled. */
    constructor (servo: ServoInfo, servoManager: ServoManager)
      ensures this.servo == servo && this.servoManager == servoManager
      ensures newIdInput == Decimal(servo.Id) && !isChanging && progressMessage == "" && effects == []
      ensures !IsValid() && !CanConfirm() && CanCancel()
    {
      this.servo := servo;
      this.servoManager := servoManager;
      newIdInput := Decimal(servo.Id);
      isChanging := false;
      progressMessage := "";
      effects := [];
      new;
      FreshInputIsInvalid(servo.Id);
    }

    /** The `NewIdInput` setter. */
    method SetNewIdInput(value: string)
      modifies this
      ensures newIdInput == value
      ensures isChanging == old(isChanging) && progressMessage == old(progressMessage) && effects == old(effects)
    {
      newIdInput := value;
    }

    /** The Cancel command: asks the dialog to close. */
    method Cancel()
      modifies this
      ensures effects == old(effects) + [CloseRequestedRaised]
      ensures newIdInput == old(newIdInput) && isChanging == old(isChanging) && progressMessage == old(progressMessage)
    {
      effects := effects + [CloseRequestedRaised];
    }

    /** The progress callback, run for each message the manager reports, in order. */
    method ShowProgress(messages: seq<string>)
      modifies this
      ensures effects == old(effects) + Shown(messages)
      ensures messages != [] ==> progressMessage == messages[|messages| - 1]
      ensures messages == [] ==> progressMessage == old(progressMessage)
      ensures newIdInput == old(newIdInput) && isChanging == old(isChanging)
    {
      for i := 0 to |messages|
        invariant effects == old(effects) + Shown(messages[..i])
        invariant progressMessage == if i == 0 then old(progressMessage) else messages[i - 1]
        invariant newIdInput == old(newIdInput) && isChanging == old(isChanging)
      {
        assert messages[..i + 1][..i] == messages[..i];
        progressMessage := messages[i];
        effects := effects + [ProgressShown(messages[i])];
      }
      assert messages[..|messages|] == messages;
    }

    /** `ChangeIdAsync`, the Confirm command. Input that does not parse as a byte changes
        nothing; otherwise the dialog is busy while the manager changes the ID, each progress
        message the manager reports is shown in turn, and on success the two events follow. */
    method ChangeId(w: World, cancel: IdChangeCancel, rescanCancel: int -> bool)
      modifies this, servoManager
      ensures TryParseByte(old(newIdInput)).None? ==>
        effects == old(effects) && isChanging == old(isChanging) &&
        progressMessage == old(progressMessage) && servoManager.Snap() == old(servoManager.Snap())
      ensures TryParseByte(old(newIdInput)).Some? ==>
        var r := ChangeIdOf(old(servoManager.Snap()), w, CurrentId(), TryParseByte(old(newIdInput)).value,
                            cancel, rescanCancel);
        && effects == old(effects) + ChangeEffects(CurrentId(), TryParseByte(old(newIdInput)).value, r)
        && servoManager.Snap() == r.m
        && !isChanging && CanCancel() && (CanConfirm() <==> IsValid())
        && progressMessage == r.messages[|r.messages| - 1]
      ensures newIdInput == old(newIdInput)
    {
      var parsed := TryParseByte(newIdInput);
      if parsed.None? {
        return;
      }
      var newId := parsed.value;
      assert TryParseByte(old(newIdInput)).value == newId;
      ghost var before := servoManager.Snap();
      ghost var prior := effects;
      isChanging := true;
      progressMessage := StartingMessage;
      effects := effects + [ChangingSet(true), ProgressShown(StartingMessage), ServiceCalled(CurrentId(), newId)];
      var success, messages := servoManager.ChangeServoId(CurrentId(), newId, w, cancel, rescanCancel);
      ghost var r := ChangeIdOf(before, w, CurrentId(), newId, cancel, rescanCancel);
      assert IdChange(success, messages, servoManager.Snap()) == r;
      ChangeEffectsOrder(before, w, CurrentId(), newId, cancel, rescanCancel);
      ShowProgress(messages);
      if success {
        effects := effects + [SuccessfulChangeRaised, CloseRequestedRaised];
      }
      isChanging := false;
      effects := effects + [ChangingSet(false)];
      ghost var head := [ChangingSet(true), ProgressShown(StartingMessage), ServiceCalled(CurrentId(), newId)];
      ghost var events: seq<Effect> := if success then [SuccessfulChangeRaised, CloseRequestedRaised] else [];
      assert effects == prior + head + Shown(messages) + events + [ChangingSet(false)];
      assert ChangeEffects(CurrentId(), newId, r) == head + Shown(messages) + events + [ChangingSet(false)];
      ConcatAssociates(prior, head, Shown(messages), events, [ChangingSet(false)]);
    }
  }
}
