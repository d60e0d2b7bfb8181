/** `ServoManager` (Services/ServoManager.cs): the serial session, the servo roster, scanning
    and ID changes. Each method updates the fields in place, as the C# does, and is proved to
    leave them as the matching function of ServoManagerSpec says. */
module Services {
  import opened Primitives
  import opened ConnectionModel
  import opened ServoModel
  import opened Bus
  import opened ServoManagerSpec

  class ServoManager {
    var connectionState: ConnectionStateInfo
    var servos: seq<ServoInfo>
    var isScanning: bool
    /** `ScanProgress` as a numerator over 252. */
    var scanProgress: nat
    var statusMessage: string
    var selectedPort: string
    var availablePorts: seq<string>
    var portHandle: Option<PortHandle>
    /** `_packetHandler != null`. */
    var hasPacketHandler: bool
    /** The requests sent on the bus so far. */
    var busLog: seq<Request>

    /** The fields as one value. */
    function Snap(): Manager
      reads this
    {
      Manager(connectionState, servos, isScanning, scanProgress, statusMessage, selectedPort,
              availablePorts, portHandle, hasPacketHandler, busLog)
    }

    /** The constructor lists the ports. */
    constructor (w: World)
      ensures Snap() == AfterRefreshPorts(Initial(), w.systemPorts([]))
    {
      connectionState := ConnectionStateInfo.Disconnected();
      servos := [];
      isScanning := false;
      scanProgress := 0;
      statusMessage := "";
      selectedPort := "";
      availablePorts := [];
      portHandle := None;
      hasPacketHandler := false;
      busLog := [];
      new;
      RefreshPorts(w);
    }

    method RefreshPorts(w: World)
      modifies this
      ensures Snap() == AfterRefreshPorts(old(Snap()), w.systemPorts(old(busLog)))
    {
      var ports := w.systemPorts(busLog);
      availablePorts := ports;
      if selectedPort == "" && |availablePorts| > 0 {
        selectedPort := availablePorts[0];
      }
    }

    /** `ConnectAsync`: `fault` is the failure of opening or configuring the port, if any;
        `cancel` cancels the scan that follows a successful connect. */
    method Connect(w: World, fault: Option<string>, cancel: int -> bool)
      modifies this
      ensures Snap() == ConnectOf(old(Snap()), w, fault, cancel)
    {
      if selectedPort == "" {
        connectionState := ConnectionStateInfo.Error(NoPortMessage);
        return;
      }
      connectionState := ConnectionStateInfo.Connecting();
      statusMessage := "Connecting to " + selectedPort + "...";
      portHandle := Some(PortHandle(selectedPort));
      hasPacketHandler := true;
      match fault {
        case Some(message) =>
          connectionState := ConnectionStateInfo.Error(message);
          statusMessage := "Error: " + message;
          isScanning := false;
          scanProgress := 0;
          servos := [];
          portHandle := None;
          hasPacketHandler := false;
          assert Snap() == AfterConnectFailure(old(Snap()), message);
        case None =>
          connectionState := ConnectionStateInfo.Connected();
          statusMessage := ConnectedAtMessage();
          assert Snap() == Opened(old(Snap()));
          ScanServos(w, cancel);
      }
    }

    method Disconnect()
      modifies this
      ensures Snap() == AfterDisconnect(old(Snap()))
    {
      portHandle := None;
      hasPacketHandler := false;
      connectionState := ConnectionStateInfo.Disconnected();
      statusMessage := DisconnectedMessage;
      servos := [];
      isScanning := false;
      scanProgress := 0;
    }

    /** `CheckConnection`: passes exactly when a port handle exists, the port is open and
        the selected port is still listed; a failure with a handle present tears down. */
    method CheckConnection(w: World) returns (alive: bool)
      modifies this
      ensures alive <==> old(portHandle).Some? && w.portOpen(old(busLog)) && old(selectedPort) in w.systemPorts(old(busLog))
      ensures Snap() == AfterCheck(old(Snap()), w)
    {
      if portHandle.None? {
        return false;
      }
      if !w.portOpen(busLog) {
        HandleDisconnection(w);
        return false;
      }
      var currentPorts := w.systemPorts(busLog);
      if selectedPort !in currentPorts {
        HandleDisconnection(w);
        return false;
      }
      return true;
    }

    method HandleDisconnection(w: World)
      modifies this
      ensures Snap() == AfterConnectionLoss(old(Snap()), w)
    {
      connectionState := ConnectionStateInfo.Disconnected();
      statusMessage := ConnectionLostMessage;
      servos := [];
      isScanning := false;
      scanProgress := 0;
      portHandle := None;
      hasPacketHandler := false;
      RefreshPorts(w);
    }

    /** One tick of the background monitor: while Connected, re-check the connection;
        the monitor keeps running only while the check passes. */
    method MonitorTick(w: World) returns (keepRunning: bool)
      modifies this
      ensures keepRunning <==> old(Snap()).IsConnected() && Alive(old(Snap()), w)
      ensures Snap() == if old(Snap()).IsConnected() then AfterCheck(old(Snap()), w) else old(Snap())
    {
      if connectionState.State == ConnectionState.Connected {
        keepRunning := CheckConnection(w);
      } else {
        keepRunning := false;
      }
    }

    /** `ScanServosAsync`: `cancel(k)` is the scan token's state when the loop reaches ID `k`. */
    method ScanServos(w: World, cancel: int -> bool)
      modifies this
      ensures Snap() == ScanOf(old(Snap()), w, cancel).m
    {
      if portHandle.None? || !hasPacketHandler || connectionState.State != ConnectionState.Connected {
        return;
      }
      var alive := CheckConnection(w);
      if !alive {
        return;
      }
      isScanning := true;
      scanProgress := 0;
      statusMessage := ScanningMessage;
      servos := [];
      assert Snap() == BeginScan(old(Snap()));
      ghost var target := ScanFrom(Snap(), w, cancel, 1, 0);
      assert target == ScanOf(old(Snap()), w, cancel);
      var consecutiveErrors: nat := 0;
      var servoId := 1;
      while servoId <= TotalIds
        invariant 1 <= servoId <= TotalIds + 1
        invariant ScanFrom(Snap(), w, cancel, servoId, consecutiveErrors) == target
        decreases TotalIds + 1 - servoId
      {
        var stopped;
        stopped, consecutiveErrors := ScanId(w, cancel, servoId, consecutiveErrors);
        if stopped {
          return;
        }
        servoId := servoId + 1;
      }
      assert target == Scan(Finish(Snap()), Completed);
      isScanning := false;
      scanProgress := TotalIds;
      statusMessage := SummaryMessage(|servos|);
    }

    /** One pass of the scan loop, for `servoId`: the cancellation check, the periodic
        connection check, the ping and the bookkeeping of the consecutive-failure counter.
        `stopped` says the scan must return. */
    method ScanId(w: World, cancel: int -> bool, servoId: int, errors: nat) returns (stopped: bool, errorsAfter: nat)
      requires 1 <= servoId <= TotalIds
      modifies this
      ensures var step := ScanStep(old(Snap()), w, cancel, servoId, errors);
        if stopped then step.Stop? && step.scan.m == Snap() else step == Continue(Snap(), errorsAfter)
    {
      if cancel(servoId) {
        isScanning := false;
        statusMessage := ScanCancelledMessage;
        return true, errors;
      }
      if servoId % CheckInterval == 0 {
        var alive := CheckConnection(w);
        if !alive {
          isScanning := false;
          return true, errors;
        }
      }
      stopped, errorsAfter := Probe(w, servoId, errors);
    }

    /** The ping of `servoId` and what follows it in the loop body: a found servo is added
        and resets the counter, a transport failure counts, and the 20th in a row re-checks
        the connection; progress then moves to `servoId`. */
    method Probe(w: World, servoId: int, errors: nat) returns (stopped: bool, errorsAfter: nat)
      requires 1 <= servoId <= TotalIds
      modifies this
      ensures var step := AfterProbe(old(Snap()).(busLog := old(busLog) + [Ping(servoId)]), w, servoId, errors,
                                     w.reply(old(busLog), Ping(servoId)));
        if stopped then step.Stop? && step.scan.m == Snap() else step == Continue(Snap(), errorsAfter)
    {
      var reply := w.reply(busLog, Ping(servoId));
      busLog := busLog + [Ping(servoId)];
      errorsAfter := errors;
      match reply {
        case Success(model) =>
          servos := servos + [ServoInfo(servoId, model, true)];
          statusMessage := FoundServoMessage(servoId, model);
          errorsAfter := 0;
        case ProtocolError(_) =>
        case TransportFailure(_) =>
          errorsAfter := errorsAfter + 1;
          if errorsAfter >= MaxConsecutiveErrors {
            var alive := CheckConnection(w);
            if !alive {
              isScanning := false;
              return true, errorsAfter;
            }
            errorsAfter := 0;
          }
      }
      scanProgress := servoId;
      stopped := false;
    }

    /** `ChangeServoIdAsync`: returns the result and the messages handed to the progress
        callback, in order. */
    method ChangeServoId(oldId: byte, newId: byte, w: World, cancel: IdChangeCancel, rescanCancel: int -> bool)
      returns (ok: bool, messages: seq<string>)
      modifies this
      ensures IdChange(ok, messages, Snap()) == ChangeIdOf(old(Snap()), w, oldId, newId, cancel, rescanCancel)
    {
      if portHandle.None? || !hasPacketHandler || connectionState.State != ConnectionState.Connected {
        return false, [NotConnectedMessage];
      }
      var alive := CheckConnection(w);
      if !alive {
        return false, [LostMessage];
      }
      if newId < 1 || newId > TotalIds {
        return false, [InvalidIdMessage];
      }
      if exists i :: 0 <= i < |servos| && servos[i].Id == newId {
        return false, [InUseMessage(newId)];
      }
      ok, messages := RunIdChange(oldId, newId, w, cancel, rescanCancel);
    }

    /** The background task of `ChangeServoIdAsync`: write, settle, verify, rescan. */
    method RunIdChange(oldId: byte, newId: byte, w: World, cancel: IdChangeCancel, rescanCancel: int -> bool)
      returns (ok: bool, messages: seq<string>)
      modifies this
      ensures IdChange(ok, messages, Snap()) == IdChangeTask(old(Snap()), w, oldId, newId, cancel, rescanCancel)
    {
      if cancel.beforeWrite {
        return false, [CancelledMessage];
      }
      messages := [WritingMessage];
      var write := Write(oldId, ServoIdAddress, newId);
      var result := w.reply(busLog, write);
      busLog := busLog + [write];
      if cancel.afterWrite {
        return false, messages + [CancelledMessage];
      }
      match result {
        case TransportFailure(description) =>
          messages := messages + ["Failed to change ID: " + description];
          var alive := CheckConnection(w);
          return false, messages;
        case ProtocolError(description) =>
          return false, messages + ["Protocol error: " + description];
        case Success(_) =>
      }
      messages := messages + [VerifyingMessage];
      if cancel.duringSettle {
        return false, messages + [CancelledDisconnectMessage];
      }
      if cancel.afterSettle {
        return false, messages + [CancelledMessage];
      }
      var verify := w.reply(busLog, Ping(newId));
      busLog := busLog + [Ping(newId)];
      if verify.Success? {
        messages := messages + [ChangedMessage, RescanningMessage];
        ScanServos(w, rescanCancel);
        return true, messages + [ScanCompleteMessage];
      } else {
        return false, messages + [UnverifiedMessage];
      }
    }
  }
}
