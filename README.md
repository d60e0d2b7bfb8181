# Programmer for Feetech Servos — servo manager and ID-change dialog, in Dafny

This project models the decision logic of the Windows programmer for Feetech serial-bus
servos. That logic lives in five places:

- The servo manager (`ServoManager`). It owns the serial session and its connection state
  (Disconnected, Connecting, Connected or Error). It keeps the roster of discovered servos,
  scans bus IDs 1..252 and changes a servo's ID.
- The Change-ID dialog's view model (`ChangeIdViewModel`). It validates the typed ID,
  enables or disables Confirm and Cancel, and drives the ID change.
- The connection-state value (`ConnectionStateInfo`).
- The servo record (`ServoInfo`).
- The model-name table (`ModelNameLookup`).

Files:

- `primitives.dfy` has the `byte` and `ushort` ranges, `Option`, and decimal formatting and
  parsing: `byte.ToString()` and `byte.TryParse` on plain digits.
- `connection_state.dfy`, `servo_info.dfy` and `model_name_lookup.dfy` hold the value types.
  They are pure.
- `bus.dfy` stands in for the Feetech SDK. Each request the manager sends is recorded in a
  bus log: a ping of an ID, or a one-byte write to a register. The reply, whether the port is
  still open, and the system's port list all come from an oracle, `World`. The oracle is a
  function of the bus log so far, so a servo can answer at its new ID after an ID write.
- `manager_spec.dfy` has three parts:
  - the manager's fields as one value, `Manager`;
  - one function per operation, giving the state that operation leaves;
  - the lemmas stating what the operations promise.
- `servo_manager.dfy` has the `ServoManager` class. Its methods update its fields in place,
  like the C#, with the same loop and the same early returns. Each method is proved to leave
  its fields exactly as the matching function says.
- `change_id_view_model.dfy` has the dialog's class. It records everything the outside can
  observe as a sequence of effects: `IsChanging` set, `ProgressMessage` set, the manager
  called, an event raised.

Cancellation tokens are modelled as flags. Each flag is observed where the C# observes its
token:

- The scan reads `cancel(k)` at the top of the iteration for ID `k`.
- An ID change reads its token before the write, after the write, during the 500 ms settle
  delay and after that delay.

Scan progress is an integer numerator over 252.

## Model

| member | source | states |
|---|---|---|
| Primitives.Decimal | ProgrammerForFeetechServos/ViewModels/ChangeIdViewModel.cs:22 | `ToString()` of a number is a non-empty digit string with no leading zero |
| Primitives.TryParseByte | ProgrammerForFeetechServos/ViewModels/ChangeIdViewModel.cs:73 | parsing succeeds exactly on a non-empty digit string whose value is below 256, and yields that value |
| Primitives.DecimalValue | ProgrammerForFeetechServos/ViewModels/ChangeIdViewModel.cs:22 | reading back the decimal text of n gives n |
| Primitives.ParseFormattedByte | ProgrammerForFeetechServos/ViewModels/ChangeIdViewModel.cs:22 | `byte.TryParse(b.ToString())` succeeds with b |
| Primitives.DecimalInjective | ProgrammerForFeetechServos/Models/ModelNameLookup.cs:18 | different numbers have different decimal texts |
| ConnectionModel.ConnectionStateInfo.Disconnected | ProgrammerForFeetechServos/Models/ConnectionState.cs:18 | state Disconnected with a null message |
| ConnectionModel.ConnectionStateInfo.Connecting | ProgrammerForFeetechServos/Models/ConnectionState.cs:19 | state Connecting with a null message |
| ConnectionModel.ConnectionStateInfo.Connected | ProgrammerForFeetechServos/Models/ConnectionState.cs:20 | state Connected with a null message |
| ConnectionModel.ConnectionStateInfo.Error | ProgrammerForFeetechServos/Models/ConnectionState.cs:21 | state Error carrying exactly the given message |
| ConnectionModel.ConnectionStateInfo.Equals | ProgrammerForFeetechServos/Models/ConnectionState.cs:23-30 | false for null and for objects of other types; for a `ConnectionStateInfo`, true exactly when state and message are the same |
| ConnectionModel.OpEquals | ProgrammerForFeetechServos/Models/ConnectionState.cs:37-42 | true for two nulls and for the same reference; false when exactly one side is null; otherwise field-wise equality |
| ConnectionModel.OpNotEquals | ProgrammerForFeetechServos/Models/ConnectionState.cs:44-47 | the exact negation of `==` |
| ConnectionModel.OpEqualsIsValueEquality | ProgrammerForFeetechServos/Models/ConnectionState.cs:37-42 | when references with the same identity point at the same object, `==` is null-aware value equality |
| ConnectionModel.EqualsIsEquivalence | ProgrammerForFeetechServos/Models/ConnectionState.cs:23-30 | `Equals` is reflexive, symmetric and transitive |
| ConnectionModel.EqualsAgreesWithHash | ProgrammerForFeetechServos/Models/ConnectionState.cs:32-35 | equal values have equal hash codes, whatever the combiner |
| ConnectionModel.ConnectionStateInfo.GetHashCode | ProgrammerForFeetechServos/Models/ConnectionState.cs:32-35 | the hash is the combiner applied to the state and the message only; `EqualsAgreesWithHash` is its partner |
| ConnectionModel.ErrorValuesCompareByMessage | ProgrammerForFeetechServos/Models/ConnectionState.cs:21-27 | `Error(a)` equals `Error(b)` iff a = b, and never equals a plain state |
| ModelNameLookup.GetName | ProgrammerForFeetechServos/Models/ModelNameLookup.cs:7-19 | 777 gives "STS 3215", 2825 gives "STS 3250", any other code gives "Unknown Model " and its decimal digits; never empty |
| ModelNameLookup.GetNameInjective | ProgrammerForFeetechServos/Models/ModelNameLookup.cs:14-19 | the name determines the model code |
| ServoModel.ModelName | ProgrammerForFeetechServos/Models/ServoInfo.cs:11 | the looked-up name of the model code, never empty |
| ServoModel.Equals | ProgrammerForFeetechServos/Models/ServoInfo.cs:18-24 | true exactly when the other servo is non-null with the same ID, model and presence flag |
| ServoModel.EqualsObject | ProgrammerForFeetechServos/Models/ServoInfo.cs:13-16 | false for null and for non-`ServoInfo` objects; otherwise value equality |
| ServoModel.HashConsistentWithEquals | ProgrammerForFeetechServos/Models/ServoInfo.cs:26-29 | equal servos hash alike; same-ID servos with different models share a hash and are not equal |
| ServoModel.GetHashCode | ProgrammerForFeetechServos/Models/ServoInfo.cs:26-29 | the hash is the combiner applied to the ID only; `HashConsistentWithEquals` is its partner |
| ServoManagerSpec.Manager.StatusText | ProgrammerForFeetechServos/Services/ServoManager.cs:92-105 | one fixed text per state, "Error: " followed by the message for Error |
| ServoManagerSpec.ConnectedExcludesDisconnected | ProgrammerForFeetechServos/Services/ServoManager.cs:50-51 | `IsConnected` and `IsDisconnected` are never both true |
| ServoManagerSpec.Manager.IsConnected | ProgrammerForFeetechServos/Services/ServoManager.cs:50 | the state tag is Connected |
| ServoManagerSpec.Manager.IsDisconnected | ProgrammerForFeetechServos/Services/ServoManager.cs:51 | the state tag is Disconnected |
| ServoManagerSpec.Manager.Ready | ProgrammerForFeetechServos/Services/ServoManager.cs:322 | the guard of the scan and of the ID change (also at line 457): a port handle, a packet handler and the Connected state; `ScanEnds` and `ChangeIdRejections` state what failing it does |
| ServoManagerSpec.Initial | ProgrammerForFeetechServos/Services/ServoManager.cs:24-28 | the field initialisers: Disconnected, not ready, no servos, not scanning, progress 0, empty status, no port selected or listed, nothing sent |
| ServoManagerSpec.AfterRefreshPorts | ProgrammerForFeetechServos/Services/ServoManager.cs:128-146 | the port list becomes the system's list; the first port is selected only when none was selected |
| ServoManagerSpec.TearDown | ProgrammerForFeetechServos/Services/ServoManager.cs:192-239 | the shared reset: no servos, not scanning, progress 0, no port or packet handler |
| ServoManagerSpec.AfterDisconnect | ProgrammerForFeetechServos/Services/ServoManager.cs:216-239 | reset state, Disconnected with a null message, status "Disconnected" |
| ServoManagerSpec.AfterConnectionLoss | ProgrammerForFeetechServos/Services/ServoManager.cs:291-318 | reset state, Disconnected, status "Connection lost - device disconnected", port list refreshed |
| ServoManagerSpec.AfterConnectFailure | ProgrammerForFeetechServos/Services/ServoManager.cs:192-212 | reset state, Error(message), status "Error: " and the message |
| ServoManagerSpec.DisconnectIdempotent | ProgrammerForFeetechServos/Services/ServoManager.cs:216-239 | disconnecting twice is disconnecting once |
| ServoManagerSpec.TeardownsAgree | ProgrammerForFeetechServos/Services/ServoManager.cs:192-239 | the three teardowns differ only in connection state, status text and the port refresh |
| ServoManagerSpec.AfterCheck | ProgrammerForFeetechServos/Services/ServoManager.cs:268-289 | a passing check or a missing handle changes nothing; a failing check with a handle runs the connection-loss teardown |
| ServoManagerSpec.Alive | ProgrammerForFeetechServos/Services/ServoManager.cs:268-289 | the three conditions under which `CheckConnection` passes: a port handle, the port open, the selected port listed |
| ServoManagerSpec.SummaryMessage | ProgrammerForFeetechServos/Services/ServoManager.cs:418-431 | the no-servos text exactly when the count is 0, otherwise "Found N servo(s)" |
| ServoManagerSpec.ScanStep | ProgrammerForFeetechServos/Services/ServoManager.cs:349-410 | one pass of the loop for ID k: stop on cancellation, stop on a failed check at a multiple of 50, otherwise ping k; its properties are in `ScanStepRules`, `StepContinues` and `StepStops` |
| ServoManagerSpec.AfterProbe | ProgrammerForFeetechServos/Services/ServoManager.cs:372-410 | what follows the ping of k: add a found servo, count transport failures, re-check at the 20th, move progress to k |
| ServoManagerSpec.ScanOf | ProgrammerForFeetechServos/Services/ServoManager.cs:320-453 | the whole scan: refused unless ready and alive, otherwise the loop from ID 1; its properties are in `ScanCompleted` and `ScanEnds` |
| ServoManagerSpec.BeginScan | ProgrammerForFeetechServos/Services/ServoManager.cs:333-339 | the set-up before the loop: scanning, progress 0, the scanning text, the roster emptied; the session, the handle and the bus log kept, so readiness is kept |
| ServoManagerSpec.ScanFrom | ProgrammerForFeetechServos/Services/ServoManager.cs:349-416 | the loop from ID k to the end; `ScanFromEnds` states how every run of it ends and what it has swept, and the `ScanServos` loop invariant is stated with it |
| ServoManagerSpec.Finish | ProgrammerForFeetechServos/Services/ServoManager.cs:418-431 | after the last ID: not scanning, full progress, the roster kept, and the no-servos text exactly when nothing was found |
| ServoManagerSpec.StrictlyAscendingIsUnique | ProgrammerForFeetechServos/Services/ServoManager.cs:349-390 | a strictly ascending roster holds no ID twice |
| ServoManagerSpec.FoundIsAscending | ProgrammerForFeetechServos/Services/ServoManager.cs:349-390 | the servos a sweep finds are in the swept range, marked connected, in strictly ascending ID order |
| ServoManagerSpec.FoundExactly | ProgrammerForFeetechServos/Services/ServoManager.cs:372-390 | a servo is found iff its ID was swept and its ping returned success without error with that model |
| ServoManagerSpec.StepContinues | ProgrammerForFeetechServos/Services/ServoManager.cs:349-410 | a loop pass that goes on has pinged exactly ID k and moved progress to k |
| ServoManagerSpec.StepStops | ProgrammerForFeetechServos/Services/ServoManager.cs:352-403 | a loop pass stops only on cancellation before the ping, or on a failed liveness check before or after it |
| ServoManagerSpec.EndedFromStep | ProgrammerForFeetechServos/Services/ServoManager.cs:349-431 | an ending of the loop after a pass that swept ID k is an ending of the loop from k |
| ServoManagerSpec.ScanFromEnds | ProgrammerForFeetechServos/Services/ServoManager.cs:349-431 | the loop from any ID completes, is cancelled or loses the connection, having swept exactly the IDs before where it stopped |
| ServoManagerSpec.ScanCompleted | ProgrammerForFeetechServos/Services/ServoManager.cs:322-431 | a completed scan holds exactly the servos whose ping succeeded, strictly ascending and marked connected, with every ID pinged once in order, progress 252/252, not scanning and the summary status |
| ServoManagerSpec.ScanEnds | ProgrammerForFeetechServos/Services/ServoManager.cs:320-453 | a scan is refused iff the manager is not ready or the liveness check fails; a manager that is not ready is left unchanged; a cancelled scan keeps the servos found so far; a lost connection leaves the reset state; progress is complete iff the scan ran to the end |
| ServoManagerSpec.ScanStepRules | ProgrammerForFeetechServos/Services/ServoManager.cs:362-410 | a check runs at multiples of 50 and at the 20th consecutive transport failure; a found servo or a passing check resets the counter; a protocol error leaves it alone; progress becomes k |
| ServoManagerSpec.ConnectOutcomes | ProgrammerForFeetechServos/Services/ServoManager.cs:148-214 | no port selected gives Error("No serial port selected") and opens nothing; a failed open leaves the reset state with the error; a good open connects and scans |
| ServoManagerSpec.ConnectOf | ProgrammerForFeetechServos/Services/ServoManager.cs:148-214 | connecting: the no-port error, the failure teardown, or the opened session followed by a scan; its properties are in `ConnectOutcomes` |
| ServoManagerSpec.Opened | ProgrammerForFeetechServos/Services/ServoManager.cs:164-184 | the success path of opening: Connected with a null message, ready to scan on a handle for the selected port, the connected-at text, roster and bus log untouched |
| ServoManagerSpec.ChangeIdRejections | ProgrammerForFeetechServos/Services/ServoManager.cs:457-481 | the four checks in order, each returning false with its one message and sending nothing |
| ServoManagerSpec.ChangeIdSuccess | ProgrammerForFeetechServos/Services/ServoManager.cs:488-545 | success means every check passed, the register-5 write and the verify ping were sent next and succeeded, and a rescan followed |
| ServoManagerSpec.ChangeIdFailures | ProgrammerForFeetechServos/Services/ServoManager.cs:500-550 | a transport failure re-checks the connection; a protocol error stops before the verify ping; a failed ping reports the change as unverified; success iff write and ping both succeed |
| ServoManagerSpec.ChangeIdCancelled | ProgrammerForFeetechServos/Services/ServoManager.cs:488-557 | cancelled before the write: "Operation cancelled", nothing sent; after the write: the writing message then "Operation cancelled", only the write sent; during the settle delay: "Operation cancelled - device disconnected"; after it: "Operation cancelled"; no verify ping in either settle case |
| ServoManagerSpec.ChangeIdOf | ProgrammerForFeetechServos/Services/ServoManager.cs:455-558 | the ID change: the four checks in order, then the background task; its properties are in the `ChangeId…` lemmas |
| ServoManagerSpec.InUse | ProgrammerForFeetechServos/Services/ServoManager.cs:477 | `Servos.Any(s => s.Id == newId)`: some servo of the roster has the ID; never for an empty roster |
| ServoManagerSpec.IdChangeTask | ProgrammerForFeetechServos/Services/ServoManager.cs:488-557 | the background task: the cancellation points, the write to register 5, the settle, the verify ping and the rescan |
| Services.ServoManager.constructor | ProgrammerForFeetechServos/Services/ServoManager.cs:123-126 | a fresh manager with the system's ports listed |
| Services.ServoManager.RefreshPorts | ProgrammerForFeetechServos/Services/ServoManager.cs:128-146 | leaves the fields as `AfterRefreshPorts` says |
| Services.ServoManager.Connect | ProgrammerForFeetechServos/Services/ServoManager.cs:148-214 | leaves the fields as `ConnectOf` says |
| Services.ServoManager.Disconnect | ProgrammerForFeetechServos/Services/ServoManager.cs:216-239 | leaves the fields as `AfterDisconnect` says |
| Services.ServoManager.CheckConnection | ProgrammerForFeetechServos/Services/ServoManager.cs:268-289 | true iff a handle exists, the port is open and the selected port is listed; the state afterwards is `AfterCheck` |
| Services.ServoManager.HandleDisconnection | ProgrammerForFeetechServos/Services/ServoManager.cs:291-318 | leaves the fields as `AfterConnectionLoss` says |
| Services.ServoManager.MonitorTick | ProgrammerForFeetechServos/Services/ServoManager.cs:241-266 | one monitor pass: it keeps running iff Connected and alive; the state is checked only when Connected |
| Services.ServoManager.ScanServos | ProgrammerForFeetechServos/Services/ServoManager.cs:320-453 | the loop leaves the fields as `ScanOf` says |
| Services.ServoManager.ScanId | ProgrammerForFeetechServos/Services/ServoManager.cs:349-410 | one loop pass: it stops exactly when the scan's step function stops, otherwise it yields that step's state and counter |
| Services.ServoManager.Probe | ProgrammerForFeetechServos/Services/ServoManager.cs:372-410 | the ping and its bookkeeping leave the fields and the counter as the loop body's probe step says |
| Services.ServoManager.RunIdChange | ProgrammerForFeetechServos/Services/ServoManager.cs:488-557 | the background task's result, messages and fields are those of `IdChangeTask` |
| Services.ServoManager.ChangeServoId | ProgrammerForFeetechServos/Services/ServoManager.cs:455-558 | the result, the progress messages and the fields are those of `ChangeIdOf` |
| ViewModels.IsValidInput | ProgrammerForFeetechServos/ViewModels/ChangeIdViewModel.cs:69-78 | valid iff the text parses as a byte in 1..252 other than the current ID; a valid text is digits only and not the current ID's own text |
| ViewModels.FreshInputIsInvalid | ProgrammerForFeetechServos/ViewModels/ChangeIdViewModel.cs:22 | the initial text parses back to the current ID, so a fresh dialog is invalid |
| ViewModels.ValidInputPassesRangeCheck | ProgrammerForFeetechServos/ViewModels/ChangeIdViewModel.cs:69-78 | for a valid input, the manager never answers with the invalid-ID message |
| ViewModels.ChangeEffects | ProgrammerForFeetechServos/ViewModels/ChangeIdViewModel.cs:86-115 | busy first, then "Starting...", then the call, each progress message in turn, the two events on success only and in that order, and not busy last |
| ViewModels.ChangeEffectsOrder | ProgrammerForFeetechServos/ViewModels/ChangeIdViewModel.cs:91-114 | the manager always reports a message; the busy flag is set only first and cleared only last; the manager is called once |
| ViewModels.ChangeIdViewModel.constructor | ProgrammerForFeetechServos/ViewModels/ChangeIdViewModel.cs:18-33 | the input is the current ID's text; Confirm starts disabled and Cancel enabled |
| ViewModels.ChangeIdViewModel.CurrentId | ProgrammerForFeetechServos/ViewModels/ChangeIdViewModel.cs:35 | the ID of the servo the dialog was opened on; `IsValid` and `ChangeId` compare against it |
| ViewModels.ChangeIdViewModel.IsValid | ProgrammerForFeetechServos/ViewModels/ChangeIdViewModel.cs:69-78 | a valid input parses to a byte in 1..252 other than the current ID and is not the current ID's text; unparseable input is invalid |
| ViewModels.ChangeIdViewModel.CanConfirm | ProgrammerForFeetechServos/ViewModels/ChangeIdViewModel.cs:24-27 | Confirm is enabled iff the input is valid and no change is running |
| ViewModels.ChangeIdViewModel.CanCancel | ProgrammerForFeetechServos/ViewModels/ChangeIdViewModel.cs:29-32 | Cancel is enabled iff no change is running, hence whenever Confirm is |
| ViewModels.ChangeIdViewModel.SetNewIdInput | ProgrammerForFeetechServos/ViewModels/ChangeIdViewModel.cs:37-48 | replaces the input and nothing else |
| ViewModels.ChangeIdViewModel.Cancel | ProgrammerForFeetechServos/ViewModels/ChangeIdViewModel.cs:29-32 | raises `CloseRequested` and changes nothing else |
| ViewModels.ChangeIdViewModel.ShowProgress | ProgrammerForFeetechServos/ViewModels/ChangeIdViewModel.cs:97-103 | shows each message in turn; the last one stays shown |
| ViewModels.ChangeIdViewModel.ChangeId | ProgrammerForFeetechServos/ViewModels/ChangeIdViewModel.cs:86-115 | unparseable input changes nothing and calls nothing; otherwise the effects are `ChangeEffects` of the manager's result, the manager's state is `ChangeIdOf`, the last progress message stays shown, and Cancel is enabled again |

## Left out

- Threads, `Task.Run`, `Dispatcher.Invoke` and races are not modelled. Each operation runs
  to completion, in order. Races between a superseded scan and a new one are not modelled.
- A `Task.Run` whose token is already cancelled before it starts is not modelled. In C# the
  awaiting caller then gets an exception.
- The background monitor is modelled as a single tick, `MonitorTick`. Its loop, the
  1-second delay and its cancellation token are not modelled.
- Delays (10, 50, 500 and 1000 ms) are not modelled. The scan's `Task.Delay(10, token)` can
  be cancelled after ID k, where k is a multiple of 10. That gives the same state as the
  cancellation check at the top of iteration k + 1, so `cancel(k + 1)` covers it.
- Exceptions from the SDK other than open or configure failures are not modelled. That
  includes the scan's "Scan error" catch path. The oracle has only three replies: success,
  protocol error and transport failure.
- The wire format, the baud-rate setup and `ClearPort` are not modelled. Nor is the
  packet-handler factory or the `GetDescription()` texts, which enter only as opaque
  strings.
- The intermediate status texts during connect ("Port opened successfully", "Baud rate set
  to …") are not modelled. A later text always overwrites them.
- Starting the connection monitor from `ConnectAsync` is not modelled.
- The floating-point `ScanProgress` and its 0.001 change filter are not modelled. Progress
  is the numerator over 252.
- `PropertyChanged` and `CanExecuteChanged` notifications are not modelled.
- `HashCode.Combine` is a parameter of the hash functions. Only its inputs matter.
- `Primitives.TryParseByte`: does not model the culture rules of .NET's `byte.TryParse`.
  Leading or trailing white space and a sign are rejected here, but .NET may accept them.
- The C# `==` on `ConnectionStateInfo` short-cuts on reference identity before comparing
  values. References are modelled as an identity plus the object they point at.
  `ConnectionModel.OpEqualsIsValueEquality` needs references with the same identity to
  point at the same object.
- `MainViewModel`, the views and the help window are not part of this model.
- A failed liveness check during a scan (ServoManager.cs:365 and 396) runs
  `HandleDisconnection`, which clears `Servos` (ServoManager.cs:307). The model follows that
  code, so a scan that loses the connection ends with an empty roster, not with the servos
  found so far.
