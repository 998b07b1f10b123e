/**
 * The haptic device session (src/buttplug_connector.rs, `run_buttplug_service_loop`). The loop's
 * `select!` becomes two sequential entry points: HandleCommand for a command from the coordinator
 * and HandleEvent for what the backend's event stream yields. The SDK is abstracted: its answers
 * are inputs (Backend), and the calls made on it are recorded, in order, in `calls`.
 */
module Session {
  import opened Wrappers
  import opened Messages
  import opened DeviceRegistry

  datatype Outcome = Succeeded | Failed(reason: string)

  /** What the SDK and the update channel answer during one step. */
  datatype Backend = Backend(
    clientConnected: bool,  // what the client's `connected()` reports during this step
    connectOutcome: Outcome,  // connecting a new in-process client
    scanOutcome: Outcome,  // `start_scanning`
    guiReceiving: bool)  // whether the coordinator's end of the update channel still exists

  datatype Subcommand = Subcommand(featureIndex: nat, speed: real, actuator: ActuatorType)

  /** Calls made on the SDK. Vibrate and stop run detached; only their issue is recorded. */
  datatype BackendCall =
    | ConnectCall
    | StartScanningCall
    | ScalarCall(deviceIndex: nat, subcommands: seq<Subcommand>)
    | StopCall(stoppedIndex: nat)
    | DisconnectCall

  datatype ClientEvent =
    | DeviceAdded(added: Device)
    | DeviceRemoved(removed: Device)
    | ServerDisconnect
    | PingTimeout
    | OtherEvent  // scanning finished, device list received, ...: ignored

  datatype StreamError = ConnectorError(detail: string) | OtherClientError(detail: string)

  /**
   * What the event branch observes: an event, a stream error, or nothing ready (no client, or a
   * client that is not connected, or no event pending).
   */
  datatype StreamPoll = Received(event: ClientEvent) | StreamFailed(error: StreamError) | NothingReady

  /** The scalar subcommands that make a device vibrate: one per vibrate feature, in feature order. */
  function VibrateSubcommands(features: seq<Feature>, speed: real): (r: seq<Subcommand>)
    ensures |r| <= |features|
    ensures forall c :: c in r ==> c.actuator == Vibrate && c.speed == speed
    ensures forall f :: f in features && f.actuator == Vibrate ==> Subcommand(f.featureIndex, speed, Vibrate) in r
    ensures forall c :: c in r ==> exists f :: f in features && f.actuator == Vibrate && f.featureIndex == c.featureIndex
    ensures r == [] <==> forall f :: f in features ==> f.actuator != Vibrate
  {
    if features == [] then []
    else
      var init := features[..|features| - 1];
      var last := features[|features| - 1];
      assert features == init + [last];
      VibrateSubcommands(init, speed)
        + (if last.actuator == Vibrate then [Subcommand(last.featureIndex, speed, Vibrate)] else [])
  }

  /**
   * Subcommands follow feature order: those of a joined feature list are those of its halves,
   * joined. With `VibrateSubcommandsSingle` this fixes the result subcommand by subcommand.
   */
  lemma {:induction false} VibrateSubcommandsAppend(first: seq<Feature>, second: seq<Feature>, speed: real)
    ensures VibrateSubcommands(first + second, speed) == VibrateSubcommands(first, speed) + VibrateSubcommands(second, speed)
    decreases |second|
  {
    if second == [] {
      assert first + second == first;
    } else {
      var init := second[..|second| - 1];
      var last := second[|second| - 1];
      var tail := if last.actuator == Vibrate then [Subcommand(last.featureIndex, speed, Vibrate)] else [];
      assert (first + second)[..|first + second| - 1] == first + init;
      assert (first + second)[|first + second| - 1] == last;
      assert VibrateSubcommands(first + second, speed) == VibrateSubcommands(first + init, speed) + tail;
      assert VibrateSubcommands(second, speed) == VibrateSubcommands(init, speed) + tail;
      VibrateSubcommandsAppend(first, init, speed);
      JoinedTail(VibrateSubcommands(first + second, speed), VibrateSubcommands(first, speed), VibrateSubcommands(init, speed), VibrateSubcommands(second, speed), tail);
    }
  }

  /** A single feature gives one subcommand, at the requested speed, exactly when it vibrates. */
  lemma VibrateSubcommandsSingle(feature: Feature, speed: real)
    ensures VibrateSubcommands([feature], speed) ==
              if feature.actuator == Vibrate then [Subcommand(feature.featureIndex, speed, Vibrate)] else []
  {
    assert [feature][..0] == [];
  }

  /** The loop over the device's scalar features that assembles the vibrate command. */
  method BuildVibrateSubcommands(features: seq<Feature>, speed: real) returns (subcommands: seq<Subcommand>)
    ensures subcommands == VibrateSubcommands(features, speed)
  {
    subcommands := [];
    var i := 0;
    while i < |features|
      invariant 0 <= i <= |features|
      invariant subcommands == VibrateSubcommands(features[..i], speed)
    {
      assert features[..i + 1][..i] == features[..i];
      if features[i].actuator == Vibrate {
        subcommands := subcommands + [Subcommand(features[i].featureIndex, speed, Vibrate)];
      }
      i := i + 1;
    }
    assert features[..i] == features;
  }

  /** The update sent after a scan request reached a connected client. */
  function ScanReport(outcome: Outcome): Update {
    match outcome
    case Succeeded => LogMessage(ScanningStarted)
    case Failed(reason) => ButtplugError(reason)
  }

  /**
   * A scan that meets a present but disconnected client, as buttplug_connector.rs:57-60 is
   * written: the client is dropped and "disconnected" is sent, but the registry is kept.
   */
  function StaleScanAsWritten(registry: seq<Device>): (r: (seq<Device>, seq<Update>))
    ensures registry != [] ==> r.0 != Replay(registry, r.1)
  {
    ReplayStep(registry, [], ButtplugDisconnected);
    (registry, [ButtplugDisconnected])
  }

  /**
   * As written, the stale scan breaks the session's invariant whenever it meets a non-empty
   * registry: the registry kept is no longer the replay of what the session has sent.
   */
  lemma StaleScanBreaksInvariant(outbox: seq<Update>)
    requires Replay([], outbox) != []
    ensures var (registry, sent) := StaleScanAsWritten(Replay([], outbox));
            registry != Replay([], outbox + sent)
  {
    ReplayStep([], outbox, ButtplugDisconnected);
  }

  /**
   * As written, the stale scan desynchronises the two device lists: the coordinator empties its
   * mirror, the session keeps its entry. When a new client then rediscovers that device (a
   * duplicate: nothing is sent) and a second one, position 0 names different devices on the
   * two sides, so the coordinator's commands reach the wrong device.
   */
  lemma StaleScanMisroutes()
    ensures
      var first, second := Device(1, "first", []), Device(2, "second", []);
      var registry := StaleScanAsWritten([first]).0;
      var mirror := Replay([first], StaleScanAsWritten([first]).1);
      var registryAfter := ApplyToRegistry(ApplyToRegistry(registry, ButtplugDeviceFound(first)), ButtplugDeviceFound(second));
      var mirrorAfter := ApplyToRegistry(mirror, ButtplugDeviceFound(second));
      registry != mirror && registryAfter[0] == first && mirrorAfter[0] == second
  {
    var first, second := Device(1, "first", []), Device(2, "second", []);
    ReplayStep([first], [], ButtplugDisconnected);
    assert [] + [ButtplugDisconnected] == [ButtplugDisconnected];
    assert StaleScanAsWritten([first]) == ([first], [ButtplugDisconnected]);
    assert Replay([first], [ButtplugDisconnected]) == [];
    assert [first][0].backendIndex == 1;
    assert ApplyToRegistry([first], ButtplugDeviceFound(first)) == [first];
    assert !HasBackendIndex([first], 2);
    assert ApplyToRegistry([first], ButtplugDeviceFound(second)) == [first, second];
  }

  class ButtplugSession {
    var hasClient: bool  // `optional_client` is Some
    var devices: seq<Device>  // `connected_devices`, the registry
    var outbox: seq<Update>  // every update sent to the coordinator, in order
    var calls: seq<BackendCall>  // every call made on the SDK, in order
    var stopped: bool  // the loop has ended

    /**
     * The registry has one entry per backend index, is empty without a client, and is exactly
     * what replaying the sent updates from an empty list gives: the coordinator's mirror.
     */
    ghost predicate Valid()
      reads this
    {
      && DistinctIndices(devices)
      && (!hasClient ==> devices == [])
      && devices == Replay([], outbox)
    }

    constructor ()
      ensures Valid() && !stopped
      ensures !hasClient && devices == [] && outbox == [] && calls == []
    {
      hasClient, devices, outbox, calls, stopped := false, [], [], [], false;
    }

    /** `to_gui_sender.send(u)`, once the registry already reflects `u`. */
    method Send(u: Update)
      requires devices == ApplyToRegistry(Replay([], outbox), u)
      modifies this`outbox
      ensures outbox == old(outbox) + [u]
      ensures devices == Replay([], outbox)
    {
      ReplayStep([], outbox, u);
      outbox := outbox + [u];
    }

    /**
     * ScanForButtplugDevices: connect a client if there is none (on failure report and stop
     * here), then scan if the client is connected; drop a client that is not.
     */
    method Scan(b: Backend)
      requires Valid() && !stopped
      modifies this
      ensures Valid() && !stopped
      ensures !old(hasClient) && b.connectOutcome.Failed? ==>
                && !hasClient
                && calls == old(calls) + [ConnectCall]
                && outbox == old(outbox) + [ButtplugError(b.connectOutcome.reason), ButtplugDisconnected]
      ensures old(hasClient) || b.connectOutcome.Succeeded? ==>
                var connecting := if old(hasClient) then [] else [ConnectCall];
                var greeting := if old(hasClient) then [] else [ButtplugConnected, LogMessage(InProcessConnected)];
                if b.clientConnected then
                  && hasClient && devices == old(devices)
                  && calls == old(calls) + connecting + [StartScanningCall]
                  && outbox == old(outbox) + greeting + [ScanReport(b.scanOutcome)]
                else
                  && !hasClient && devices == []
                  && calls == old(calls) + connecting
                  && outbox == old(outbox) + greeting + [ButtplugDisconnected]
    {
      if !hasClient {
        var connected := Connect(b);
        if !connected {
          return;
        }
      } else {
        assert calls == old(calls) + [] && outbox == old(outbox) + [];
      }
      ScanWithClient(b);
    }

    /** Connecting a new in-process client: on success it is announced, on failure reported. */
    method Connect(b: Backend) returns (connected: bool)
      requires Valid() && !hasClient
      modifies this`hasClient, this`calls, this`outbox
      ensures Valid()
      ensures connected <==> b.connectOutcome.Succeeded?
      ensures hasClient == connected
      ensures calls == old(calls) + [ConnectCall]
      ensures outbox == old(outbox) + match b.connectOutcome
                                      case Succeeded => [ButtplugConnected, LogMessage(InProcessConnected)]
                                      case Failed(reason) => [ButtplugError(reason), ButtplugDisconnected]
    {
      calls := calls + [ConnectCall];
      match b.connectOutcome {
        case Failed(reason) =>
          Send(ButtplugError(reason));
          Send(ButtplugDisconnected);
          connected := false;
        case Succeeded =>
          hasClient := true;
          Send(ButtplugConnected);
          Send(LogMessage(InProcessConnected));
          connected := true;
      }
    }

    /** With a client present: scan if it is connected, otherwise drop it and empty the registry. */
    method ScanWithClient(b: Backend)
      requires Valid() && hasClient
      modifies this`hasClient, this`devices, this`calls, this`outbox
      ensures Valid()
      ensures b.clientConnected ==>
                && hasClient && devices == old(devices)
                && calls == old(calls) + [StartScanningCall]
                && outbox == old(outbox) + [ScanReport(b.scanOutcome)]
      ensures !b.clientConnected ==>
                && !hasClient && devices == []
                && calls == old(calls)
                && outbox == old(outbox) + [ButtplugDisconnected]
    {
      if b.clientConnected {
        calls := calls + [StartScanningCall];
        Send(ScanReport(b.scanOutcome));
      } else {
        hasClient := false;
        devices := [];  // the source keeps the registry here; see Findings in README.md
        Send(ButtplugDisconnected);
      }
    }

    /**
     * VibrateDevice: with a connected client and a device at that position of the registry,
     * one scalar command to the device's backend index, made of its vibrate subcommands at
     * `speed`; no call at all when any of those is missing.
     */
    method Vibrate(position: nat, speed: real, b: Backend)
      modifies this`calls
      ensures calls == old(calls) +
                if hasClient && b.clientConnected && position < |devices|
                   && VibrateSubcommands(devices[position].features, speed) != []
                then [ScalarCall(devices[position].backendIndex, VibrateSubcommands(devices[position].features, speed))]
                else []
    {
      if hasClient && b.clientConnected && position < |devices| {
        var device := devices[position];
        var subcommands := BuildVibrateSubcommands(device.features, speed);
        if subcommands != [] {
          calls := calls + [ScalarCall(device.backendIndex, subcommands)];
        }
      }
    }

    /** StopDevice: with a connected client and a device at that position, stop that device. */
    method StopAt(position: nat, b: Backend)
      modifies this`calls
      ensures calls == old(calls) +
                if hasClient && b.clientConnected && position < |devices|
                then [StopCall(devices[position].backendIndex)]
                else []
    {
      if hasClient && b.clientConnected && position < |devices| {
        calls := calls + [StopCall(devices[position].backendIndex)];
      }
    }

    /**
     * DisconnectButtplug: disconnect a connected client, drop any client, empty the registry and
     * always report "disconnected"; the loop ends if that report cannot be delivered.
     */
    method Disconnect(b: Backend)
      requires Valid() && !stopped
      modifies this
      ensures Valid()
      ensures !hasClient && devices == []
      ensures calls == old(calls) + if old(hasClient) && b.clientConnected then [DisconnectCall] else []
      ensures outbox == old(outbox) + [ButtplugDisconnected]
                        + if b.guiReceiving then [LogMessage(DisconnectedOnCommand)] else []
      ensures stopped <==> !b.guiReceiving
    {
      if hasClient {
        hasClient := false;
        if b.clientConnected {
          calls := calls + [DisconnectCall];
        }
      }
      devices := [];
      Send(ButtplugDisconnected);
      if !b.guiReceiving {
        stopped := true;
        return;
      }
      Send(LogMessage(DisconnectedOnCommand));
    }

    /** One command from the coordinator. */
    method HandleCommand(command: Command, b: Backend)
      requires Valid() && !stopped
      modifies this
      ensures Valid()
      ensures old(outbox) <= outbox && devices == Replay(old(devices), outbox[|old(outbox)|..])
      ensures stopped ==> command.DisconnectButtplug? && !b.guiReceiving
      ensures command.StartProcessing? || command.StopProcessing? || command.UpdateApplicationSettings? ==>
                unchanged(this)
      ensures command.VibrateDevice? || command.StopDevice? ==>
                && hasClient == old(hasClient) && devices == old(devices) && outbox == old(outbox)
                && |old(calls)| <= |calls| <= |old(calls)| + 1
      ensures command.VibrateDevice? || command.StopDevice? ==>
                var position := if command.VibrateDevice? then command.deviceIndex else command.position;
                !(old(hasClient) && b.clientConnected && position < |old(devices)|) ==> calls == old(calls)
      ensures command.DisconnectButtplug? ==>
                !hasClient && devices == [] && |outbox| > |old(outbox)| && outbox[|old(outbox)|] == ButtplugDisconnected
      ensures command.DisconnectButtplug? ==>
                && calls == old(calls) + (if old(hasClient) && b.clientConnected then [DisconnectCall] else [])
                && outbox == old(outbox) + [ButtplugDisconnected]
                             + (if b.guiReceiving then [LogMessage(DisconnectedOnCommand)] else [])
                && (stopped <==> !b.guiReceiving)
      ensures command.VibrateDevice? ==>
                var (position, speed) := (command.deviceIndex, command.speed);
                calls == old(calls) +
                  if old(hasClient) && b.clientConnected && position < |old(devices)|
                     && VibrateSubcommands(old(devices)[position].features, speed) != []
                  then [ScalarCall(old(devices)[position].backendIndex, VibrateSubcommands(old(devices)[position].features, speed))]
                  else []
      ensures command.StopDevice? ==>
                calls == old(calls) +
                  if old(hasClient) && b.clientConnected && command.position < |old(devices)|
                  then [StopCall(old(devices)[command.position].backendIndex)]
                  else []
      ensures command.ScanForButtplugDevices? && !old(hasClient) && b.connectOutcome.Failed? ==>
                && !hasClient
                && calls == old(calls) + [ConnectCall]
                && outbox == old(outbox) + [ButtplugError(b.connectOutcome.reason), ButtplugDisconnected]
      ensures command.ScanForButtplugDevices? && (old(hasClient) || b.connectOutcome.Succeeded?) ==>
                var connecting := if old(hasClient) then [] else [ConnectCall];
                var greeting := if old(hasClient) then [] else [ButtplugConnected, LogMessage(InProcessConnected)];
                if b.clientConnected then
                  && hasClient && devices == old(devices)
                  && calls == old(calls) + connecting + [StartScanningCall]
                  && outbox == old(outbox) + greeting + [ScanReport(b.scanOutcome)]
                else
                  && !hasClient && devices == []
                  && calls == old(calls) + connecting
                  && outbox == old(outbox) + greeting + [ButtplugDisconnected]
    {
      match command {
        case ScanForButtplugDevices => Scan(b);
        case VibrateDevice(position, speed) => Vibrate(position, speed, b);
        case StopDevice(position) => StopAt(position, b);
        case DisconnectButtplug => Disconnect(b);
        case _ =>
      }
      ReplaySuffix(old(outbox), outbox);
    }

    /**
     * One observation of the backend's event stream. Events and stream errors are only
     * observed while a connected client exists.
     */
    method HandleEvent(poll: StreamPoll, b: Backend)
      requires Valid() && !stopped
      requires !poll.NothingReady? ==> hasClient && b.clientConnected
      modifies this
      ensures Valid() && calls == old(calls)
      ensures old(outbox) <= outbox && devices == Replay(old(devices), outbox[|old(outbox)|..])
      ensures poll == Received(OtherEvent) ==> unchanged(this)
      ensures stopped <==> !b.guiReceiving && (poll == Received(ServerDisconnect) || poll == Received(PingTimeout)
                                               || (poll.StreamFailed? && poll.error.ConnectorError?))
      ensures poll.Received? && poll.event.DeviceAdded? ==>
                var d := poll.event.added;
                && hasClient
                && (HasBackendIndex(old(devices), d.backendIndex) ==> devices == old(devices) && outbox == old(outbox))
                && (!HasBackendIndex(old(devices), d.backendIndex) ==>
                      devices == old(devices) + [d] && outbox == old(outbox) + [ButtplugDeviceFound(d)])
      ensures poll.Received? && poll.event.DeviceRemoved? ==>
                var index := poll.event.removed.backendIndex;
                && hasClient
                && devices == WithoutBackendIndex(old(devices), index)
                && outbox == old(outbox) + match LastWithBackendIndex(old(devices), index)
                                           case Some(lost) => [ButtplugDeviceLost(lost)]
                                           case None => []
      ensures poll == Received(ServerDisconnect) || poll == Received(PingTimeout) ==>
                var notice := if poll == Received(ServerDisconnect) then ServerWentAway else PingTimedOut;
                && !hasClient && devices == []
                && outbox == old(outbox) + [ButtplugDisconnected] + if b.guiReceiving then [LogMessage(notice)] else []
      ensures poll.StreamFailed? && poll.error.ConnectorError? ==>
                && !hasClient && devices == []
                && outbox == old(outbox) + [ButtplugError(poll.error.detail), ButtplugDisconnected]
      ensures poll.StreamFailed? && poll.error.OtherClientError? ==>
                hasClient && devices == old(devices) && outbox == old(outbox) + [ButtplugError(poll.error.detail)]
      ensures poll.NothingReady? && old(hasClient) && !b.clientConnected ==>
                !hasClient && devices == [] && outbox == old(outbox) + [ButtplugDisconnected]
      ensures poll.NothingReady? && !(old(hasClient) && !b.clientConnected) ==> unchanged(this)
    {
      match poll {
        case Received(DeviceAdded(d)) => AddDevice(d);
        case Received(DeviceRemoved(d)) => RemoveDevice(d.backendIndex);
        case Received(ServerDisconnect) => DropConnection(b, ServerWentAway);
        case Received(PingTimeout) => DropConnection(b, PingTimedOut);
        case Received(OtherEvent) =>
        case StreamFailed(error) => StreamFailure(error, b);
        case NothingReady => CheckStale(b);
      }
      ReplaySuffix(old(outbox), outbox);
    }

    /** DeviceAdded: register and announce a device whose backend index is new; ignore a duplicate. */
    method AddDevice(d: Device)
      requires Valid() && !stopped && hasClient
      modifies this`devices, this`outbox
      ensures Valid()
      ensures HasBackendIndex(old(devices), d.backendIndex) ==> devices == old(devices) && outbox == old(outbox)
      ensures !HasBackendIndex(old(devices), d.backendIndex) ==>
                devices == old(devices) + [d] && outbox == old(outbox) + [ButtplugDeviceFound(d)]
    {
      if !HasBackendIndex(devices, d.backendIndex) {
        devices := devices + [d];
        Send(ButtplugDeviceFound(d));
      }
    }

    /**
     * DeviceRemoved: drop every entry with that backend index, and announce the loss (of the
     * last entry dropped) only if there was one.
     */
    method RemoveDevice(index: nat)
      requires Valid() && !stopped && hasClient
      modifies this`devices, this`outbox
      ensures Valid()
      ensures devices == WithoutBackendIndex(old(devices), index)
      ensures outbox == old(outbox) + match LastWithBackendIndex(old(devices), index)
                                      case Some(lost) => [ButtplugDeviceLost(lost)]
                                      case None => []
    {
      var kept, lost := RetainOthers(devices, index);
      WithoutKeepsDistinct(devices, index);
      ghost var before := devices;
      devices := kept;
      match lost {
        case None =>
          assert kept == before;
        case Some(d) =>
          assert d.backendIndex == index;
          Send(ButtplugDeviceLost(d));
      }
    }

    /**
     * A stream error is always reported; a connector error also drops the client and empties
     * the registry, and the loop ends if "disconnected" cannot be delivered.
     */
    method StreamFailure(error: StreamError, b: Backend)
      requires Valid() && !stopped && hasClient
      modifies this
      ensures Valid() && calls == old(calls)
      ensures error.ConnectorError? ==>
                && !hasClient && devices == []
                && outbox == old(outbox) + [ButtplugError(error.detail), ButtplugDisconnected]
      ensures error.OtherClientError? ==>
                hasClient && devices == old(devices) && outbox == old(outbox) + [ButtplugError(error.detail)]
      ensures stopped <==> error.ConnectorError? && !b.guiReceiving
    {
      Send(ButtplugError(error.detail));
      if error.ConnectorError? {
        hasClient := false;
        devices := [];
        Send(ButtplugDisconnected);
        if !b.guiReceiving {
          stopped := true;
        }
      }
    }

    /**
     * Nothing ready: a client that exists but is not connected is dropped with the registry, and
     * "disconnected" is offered without waiting (a full channel only warns).
     */
    method CheckStale(b: Backend)
      requires Valid() && !stopped
      modifies this
      ensures Valid() && !stopped && calls == old(calls)
      ensures old(hasClient) && !b.clientConnected ==>
                !hasClient && devices == [] && outbox == old(outbox) + [ButtplugDisconnected]
      ensures !(old(hasClient) && !b.clientConnected) ==> unchanged(this)
    {
      if hasClient && !b.clientConnected {
        hasClient := false;
        devices := [];
        Send(ButtplugDisconnected);
      }
    }

    /** ServerDisconnect and PingTimeout: drop the client, empty the registry, report it. */
    method DropConnection(b: Backend, notice: LogToken)
      requires Valid() && !stopped
      modifies this
      ensures Valid() && calls == old(calls)
      ensures !hasClient && devices == []
      ensures outbox == old(outbox) + [ButtplugDisconnected] + if b.guiReceiving then [LogMessage(notice)] else []
      ensures stopped <==> !b.guiReceiving
    {
      hasClient := false;
      devices := [];
      Send(ButtplugDisconnected);
      if !b.guiReceiving {
        stopped := true;
        return;
      }
      Send(LogMessage(notice));
    }
  }
}
