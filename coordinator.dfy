/**
 * The coordinator (src/application.rs, `WarThunderHapticsApplication`): it drains the updates the
 * workers send, keeps a mirror of the session's device list, a selected position, a bounded
 * newest-first log and the connection flags, routes triggered game actions to a device position,
 * and edits the event-action list. Commands it hands to the channel are recorded in `sent`.
 */
module Coordinator {
  import opened Wrappers
  import opened Text
  import opened Configuration
  import opened Messages
  import opened DeviceRegistry
  import opened GameEvents
  import opened Session

  /** The log keeps at most this many entries. */
  const LogCapacity: nat := 100

  /** `add_log_message` on a value: the new entry goes first and, past capacity, one oldest entry is dropped. */
  function WithLog(log: seq<LogToken>, m: LogToken): (r: seq<LogToken>)
    ensures |r| > 0 && r[0] == m
    ensures r[1..] <= log
    ensures |log| < LogCapacity ==> |r| == |log| + 1
    ensures |log| >= LogCapacity ==> |r| == |log|
    ensures |log| <= LogCapacity ==> |r| <= LogCapacity
  {
    var grown := [m] + log;
    assert grown[1..] == log;
    if |grown| > LogCapacity then grown[..|grown| - 1] else grown
  }

  /** Several `add_log_message` calls in order: the last message ends up first. */
  function PushLogs(log: seq<LogToken>, messages: seq<LogToken>): (r: seq<LogToken>)
    ensures |log| <= LogCapacity ==> |r| <= LogCapacity
    ensures messages != [] ==> |r| > 0 && r[0] == messages[|messages| - 1]
    ensures messages == [] ==> r == log
  {
    if messages == [] then log
    else WithLog(PushLogs(log, messages[..|messages| - 1]), messages[|messages| - 1])
  }

  /** The position triggered actions go to: the selection, else the first device if there is one. */
  function DispatchTarget(devices: seq<Device>, selected: Option<nat>): Option<nat> {
    if selected.Some? then selected else if devices != [] then Some(0) else None
  }

  /** The command each action becomes when routed to `position`. */
  function CommandFor(action: DeviceAction, position: nat): Command {
    match action.actionType
    case Vibrate => VibrateDevice(position, action.intensity)
    case Stop => StopDevice(position)
  }

  /** The commands a batch of actions becomes: one per action, in order, all for `position`. */
  function CommandsFor(actions: seq<DeviceAction>, position: nat): (r: seq<Command>)
    ensures |r| == |actions|
  {
    if actions == [] then []
    else CommandsFor(actions[..|actions| - 1], position) + [CommandFor(actions[|actions| - 1], position)]
  }

  /**
   * Routing keeps the actions' order and maps each to its own command: a vibrate action to a
   * vibrate command at its intensity, a stop action to a stop command, both for `position`.
   */
  lemma {:induction false} CommandsForRoutesEachAction(actions: seq<DeviceAction>, position: nat)
    ensures forall k :: 0 <= k < |actions| ==>
              if actions[k].actionType == DeviceActionType.Vibrate
              then CommandsFor(actions, position)[k] == VibrateDevice(position, actions[k].intensity)
              else CommandsFor(actions, position)[k] == StopDevice(position)
    decreases |actions|
  {
    if actions != [] {
      var init := actions[..|actions| - 1];
      CommandsForRoutesEachAction(init, position);
      assert forall k :: 0 <= k < |init| ==> actions[k] == init[k];
    }
  }

  lemma CommandsForPrefix(actions: seq<DeviceAction>, i: nat, position: nat)
    requires i < |actions|
    ensures CommandsFor(actions[..i + 1], position) == CommandsFor(actions[..i], position) + [CommandFor(actions[i], position)]
  {
    assert actions[..i + 1][..i] == actions[..i];
  }

  /** The log entries of a batch: one per vibrate action, naming the target device's backend index. */
  function VibrationLogs(actions: seq<DeviceAction>, device: Device): (r: seq<LogToken>)
    ensures |r| <= |actions|
  {
    if actions == [] then []
    else VibrationLogs(actions[..|actions| - 1], device) + VibrationLog(actions[|actions| - 1], device)
  }

  /** The log entry a single routed action produces: one for a vibrate action, none for a stop. */
  function VibrationLog(action: DeviceAction, device: Device): (r: seq<LogToken>)
    ensures |r| <= 1
  {
    match action.actionType
    case Vibrate => [GameEventVibration(device.backendIndex, action.intensity, action.durationMilliseconds)]
    case Stop => []
  }

  lemma VibrationLogsPrefix(actions: seq<DeviceAction>, i: nat, device: Device)
    requires i < |actions|
    ensures VibrationLogs(actions[..i + 1], device) == VibrationLogs(actions[..i], device) + VibrationLog(actions[i], device)
  {
    assert actions[..i + 1][..i] == actions[..i];
  }

  /**
   * Every entry a routed batch logs names the target device's backend index, and a batch logs
   * something exactly when it holds a vibrate action.
   */
  lemma {:induction false} VibrationLogsNameTarget(actions: seq<DeviceAction>, device: Device)
    ensures forall m :: m in VibrationLogs(actions, device) ==>
              m.GameEventVibration? && m.targetIndex == device.backendIndex
    ensures VibrationLogs(actions, device) == [] <==>
              forall a :: a in actions ==> a.actionType != DeviceActionType.Vibrate
    decreases |actions|
  {
    if actions != [] {
      var init := actions[..|actions| - 1];
      assert actions == init + [actions[|actions| - 1]];
      VibrationLogsNameTarget(init, device);
    }
  }

  /** Pushing two batches one after the other is pushing them joined. */
  lemma {:induction false} PushLogsAppend(log: seq<LogToken>, first: seq<LogToken>, second: seq<LogToken>)
    ensures PushLogs(log, first + second) == PushLogs(PushLogs(log, first), second)
    decreases |second|
  {
    if second == [] {
      assert first + second == first;
    } else {
      var init := second[..|second| - 1];
      assert (first + second)[..|first + second| - 1] == first + init;
      PushLogsAppend(log, first, init);
    }
  }

  /** The settings after a batch of updates: those of the last "settings loaded", if any. */
  function LatestSettings(settings: ApplicationSettings, updates: seq<Update>): (r: ApplicationSettings)
    ensures (forall u :: u in updates ==> !u.ApplicationSettingsLoaded?) ==> r == settings
    ensures r == settings || ApplicationSettingsLoaded(r) in updates
  {
    if updates == [] then settings
    else
      var init := updates[..|updates| - 1];
      var last := updates[|updates| - 1];
      assert updates == init + [last];
      if last.ApplicationSettingsLoaded? then last.loaded else LatestSettings(settings, init)
  }

  /**
   * Each "settings loaded" overwrites the settings, so the last one wins: when the update at
   * `k` loads settings and none after it does, the batch ends with the settings it carries.
   */
  lemma {:induction false} LatestSettingsIsLast(settings: ApplicationSettings, updates: seq<Update>, k: nat)
    requires k < |updates| && updates[k].ApplicationSettingsLoaded?
    requires forall j :: k < j < |updates| ==> !updates[j].ApplicationSettingsLoaded?
    ensures LatestSettings(settings, updates) == updates[k].loaded
    decreases |updates|
  {
    if k < |updates| - 1 {
      var init := updates[..|updates| - 1];
      assert forall j :: k < j < |init| ==> init[j] == updates[j];
      LatestSettingsIsLast(settings, init, k);
    }
  }

  /** `Vec::remove(index)`: the element at `index` goes, the others keep their order. */
  function RemoveAt<T>(s: seq<T>, index: nat): (r: seq<T>)
    requires index < |s|
    ensures |r| == |s| - 1
    ensures forall k :: 0 <= k < index ==> r[k] == s[k]
    ensures forall k :: index <= k < |r| ==> r[k] == s[k + 1]
  {
    s[..index] + s[index + 1..]
  }

  const NewEventName: string := "Новое событие"

  /** The action the editor adds: enabled, vibrating at the given intensity for the given time. */
  function NewVibrateAction(name: string, intensity: real, duration: nat): EventActionSetting {
    EventActionSetting(name, true, DeviceAction(DeviceActionType.Vibrate, intensity, duration))
  }

  /**
   * Everything the coordinator keeps apart from its queue, as a value: the state one update
   * changes. `lastHealth` is the game snapshot's remembered health reading.
   */
  datatype AppState = AppState(
    settings: ApplicationSettings,
    currentIndicators: Option<Indicators>,
    lastHealth: Option<real>,
    devices: seq<Device>,
    selected: Option<nat>,
    buttplugConnected: bool,
    warThunderConnected: bool,
    log: seq<LogToken>,
    processingEnabled: bool,
    editorName: string,
    editorIntensity: real,
    editorDuration: nat,
    sent: seq<Command>)

  /** The selection is a valid position, the log is bounded, and no backend index is listed twice. */
  predicate ValidState(s: AppState) {
    && (s.selected.Some? ==> s.selected.value < |s.devices|)
    && |s.log| <= LogCapacity
    && DistinctIndices(s.devices)
  }

  /** The triggered actions of a snapshot, routed to the dispatch target if a device is there. */
  function Routed(s: AppState, indicators: Indicators): AppState {
    var actions := FiringActions(s.settings.eventActions, indicators.healthPercentage, s.lastHealth);
    var target := DispatchTarget(s.devices, s.selected);
    if target.Some? && target.value < |s.devices| then
      s.(sent := s.sent + CommandsFor(actions, target.value),
         log := PushLogs(s.log, VibrationLogs(actions, s.devices[target.value])))
    else s
  }

  /** The selection after the mirror shrank to `kept`: one past the end moves to 0, or to none. */
  function Reselect(selected: Option<nat>, kept: seq<Device>): Option<nat> {
    if selected.Some? && selected.value >= |kept| then (if kept == [] then None else Some(0)) else selected
  }

  /** A snapshot arrives: it is shown, and with processing on it is evaluated and routed. */
  function Shown(s: AppState, indicators: Indicators): AppState {
    var shown := s.(currentIndicators := Some(indicators));
    if s.processingEnabled then Routed(shown, indicators).(lastHealth := indicators.healthPercentage) else shown
  }

  /** A new telemetry connection status; losing the connection forgets the snapshot. */
  function StatusChanged(s: AppState, connected: bool): AppState {
    s.(warThunderConnected := connected, currentIndicators := if connected then s.currentIndicators else None)
  }

  /** The session reports a connected client. */
  function ClientConnected(s: AppState): AppState {
    s.(buttplugConnected := true, log := WithLog(s.log, ButtplugServerConnected))
  }

  /** The session is gone: the mirror is emptied and the selection cleared. */
  function ClientDisconnected(s: AppState): AppState {
    s.(buttplugConnected := false, devices := [], selected := None, log := WithLog(s.log, ButtplugServerDisconnected))
  }

  /** A device is found: listed and logged unless its backend index is already listed. */
  function Listed(s: AppState, d: Device): AppState {
    if HasBackendIndex(s.devices, d.backendIndex) then s
    else s.(devices := s.devices + [d], selected := if s.selected.None? then Some(0) else s.selected,
            log := WithLog(s.log, DeviceListed(d.backendIndex)))
  }

  /** A device is lost: logged and unlisted, and a selection that fell off the end moves back. */
  function Unlisted(s: AppState, d: Device): AppState {
    var kept := WithoutBackendIndex(s.devices, d.backendIndex);
    s.(devices := kept, selected := Reselect(s.selected, kept), log := WithLog(s.log, DeviceDropped(d.backendIndex)))
  }

  /** Settings loaded by a worker replace the current ones. */
  function SettingsReplaced(s: AppState, loaded: ApplicationSettings): AppState {
    s.(settings := loaded, log := WithLog(s.log, SettingsApplied))
  }

  /** Reference definition of the drain's `match`, on values: one arm per kind of update. */
  function Step(s: AppState, u: Update): AppState {
    match u
    case LogMessage(m) => s.(log := WithLog(s.log, m))
    case WarThunderIndicatorsUpdate(indicators) => Shown(s, indicators)
    case WarThunderConnectionStatus(connected) => StatusChanged(s, connected)
    case ButtplugConnected => ClientConnected(s)
    case ButtplugDisconnected => ClientDisconnected(s)
    case ButtplugDeviceFound(d) => Listed(s, d)
    case ButtplugDeviceLost(d) => Unlisted(s, d)
    case ButtplugError(reason) => s.(log := WithLog(s.log, ButtplugFailure(reason)))
    case ApplicationSettingsLoaded(loaded) => SettingsReplaced(s, loaded)
  }

  /** `handle_incoming_updates` on values: every update handled in arrival order. */
  function Drain(s: AppState, updates: seq<Update>): AppState {
    if updates == [] then s
    else Step(Drain(s, updates[..|updates| - 1]), updates[|updates| - 1])
  }

  /**
   * What one update does to the state: the mirror moves as `ApplyToRegistry`, the settings
   * only on "settings loaded", commands are sent only for a snapshot with processing on and
   * are only ever appended, the processing flag and the editor are never touched, and the
   * invariant is kept.
   */
  lemma StepEffect(s: AppState, u: Update)
    ensures Step(s, u).devices == ApplyToRegistry(s.devices, u)
    ensures Step(s, u).settings == if u.ApplicationSettingsLoaded? then u.loaded else s.settings
    ensures s.sent <= Step(s, u).sent
    ensures !(u.WarThunderIndicatorsUpdate? && s.processingEnabled) ==>
              Step(s, u).sent == s.sent && Step(s, u).lastHealth == s.lastHealth
    ensures && Step(s, u).processingEnabled == s.processingEnabled
            && Step(s, u).editorName == s.editorName && Step(s, u).editorIntensity == s.editorIntensity
            && Step(s, u).editorDuration == s.editorDuration
    ensures ValidState(s) ==> ValidState(Step(s, u))
  {
    match u {
      case ButtplugDeviceLost(d) =>
        if ValidState(s) {
          WithoutKeepsDistinct(s.devices, d.backendIndex);
        }
      case WarThunderIndicatorsUpdate(indicators) =>
        var shown := s.(currentIndicators := Some(indicators));
        if s.processingEnabled {
          var actions := FiringActions(s.settings.eventActions, indicators.healthPercentage, s.lastHealth);
          var target := DispatchTarget(s.devices, s.selected);
          if target.Some? && target.value < |s.devices| {
            assert Routed(shown, indicators).sent == s.sent + CommandsFor(actions, target.value);
          }
        }
      case _ =>
    }
  }

  /** A drain ends with the step of its last update. */
  lemma DrainStep(s: AppState, updates: seq<Update>, u: Update)
    ensures Drain(s, updates + [u]) == Step(Drain(s, updates), u)
  {
    assert (updates + [u])[..|updates|] == updates;
  }

  /** Draining two batches in turn is draining them joined. */
  lemma {:induction false} DrainAppend(s: AppState, first: seq<Update>, second: seq<Update>)
    ensures Drain(s, first + second) == Drain(Drain(s, first), second)
    decreases |second|
  {
    if second == [] {
      assert first + second == first;
    } else {
      var init := second[..|second| - 1];
      assert (first + second)[..|first + second| - 1] == first + init;
      assert (first + second)[|first + second| - 1] == second[|second| - 1];
      DrainAppend(s, first, init);
    }
  }

  /**
   * After a drain: the mirror is the replay of the queue, the settings are those of its last
   * "settings loaded", commands were only appended (and none without processing, which leaves
   * the remembered health alone too), the processing flag and the editor are untouched, and
   * the invariant holds.
   */
  lemma {:induction false} DrainEffect(s: AppState, updates: seq<Update>)
    ensures Drain(s, updates).devices == Replay(s.devices, updates)
    ensures Drain(s, updates).settings == LatestSettings(s.settings, updates)
    ensures s.sent <= Drain(s, updates).sent
    ensures !s.processingEnabled ==> Drain(s, updates).sent == s.sent && Drain(s, updates).lastHealth == s.lastHealth
    ensures && Drain(s, updates).processingEnabled == s.processingEnabled
            && Drain(s, updates).editorName == s.editorName && Drain(s, updates).editorIntensity == s.editorIntensity
            && Drain(s, updates).editorDuration == s.editorDuration
    ensures ValidState(s) ==> ValidState(Drain(s, updates))
    decreases |updates|
  {
    if updates != [] {
      var init := updates[..|updates| - 1];
      var last := updates[|updates| - 1];
      DrainEffect(s, init);
      StepEffect(Drain(s, init), last);
    }
  }

  /** Without snapshots in the queue, a drain sends nothing, whatever the processing flag. */
  lemma {:induction false} DrainSendsOnlyForSnapshots(s: AppState, updates: seq<Update>)
    requires forall u :: u in updates ==> !u.WarThunderIndicatorsUpdate?
    ensures Drain(s, updates).sent == s.sent
    decreases |updates|
  {
    if updates != [] {
      var init := updates[..|updates| - 1];
      var last := updates[|updates| - 1];
      assert forall u :: u in init ==> u in updates;
      assert last in updates;
      DrainSendsOnlyForSnapshots(s, init);
      StepEffect(Drain(s, init), last);
    }
  }

  class HapticsApplication {
    var settings: ApplicationSettings
    var currentIndicators: Option<Indicators>
    const snapshot: GameStateSnapshot
    var devices: seq<Device>  // the mirror of the session's registry
    var selected: Option<nat>  // a position in `devices`
    var buttplugConnected: bool
    var warThunderConnected: bool
    var log: seq<LogToken>  // newest first
    var processingEnabled: bool
    var editorName: string
    var editorIntensity: real
    var editorDuration: nat
    var inbox: seq<Update>  // updates queued on the receiving end of the channel
    var sent: seq<Command>  // every command handed to the channel, in order

    /** The selection is a valid position, the log is bounded, and no backend index is listed twice. */
    ghost predicate Valid()
      reads this
    {
      && (selected.Some? ==> selected.value < |devices|)
      && |log| <= LogCapacity
      && DistinctIndices(devices)
    }

    /** The coordinator's fields, and the snapshot's health, as a value. */
    ghost function State(): AppState
      reads this, snapshot
    {
      AppState(settings, currentIndicators, snapshot.lastHealthPercentage, devices, selected, buttplugConnected,
               warThunderConnected, log, processingEnabled, editorName, editorIntensity, editorDuration, sent)
    }

    /**
     * Start-up with the outcome of loading the configuration: a failed load falls back to the
     * defaults. The settings are pushed to the workers once.
     */
    constructor (loaded: Result<ApplicationSettings, ConfigError>)
      ensures Valid()
      ensures settings == if loaded.Ok? then loaded.value else DefaultSettings()
      ensures sent == [UpdateApplicationSettings(settings)]
      ensures log == [ApplicationStarted]
      ensures devices == [] && selected == None && inbox == [] && currentIndicators == None
      ensures !buttplugConnected && !warThunderConnected && !processingEnabled
      ensures editorName == NewEventName && editorIntensity == 0.5 && editorDuration == 500
      ensures fresh(snapshot) && snapshot.lastHealthPercentage == None
    {
      var initial := match loaded
        case Ok(s) => s
        case Err(_) => DefaultSettings();
      settings := initial;
      sent := [UpdateApplicationSettings(initial)];
      currentIndicators := None;
      snapshot := new GameStateSnapshot();
      devices, selected := [], None;
      buttplugConnected, warThunderConnected := false, false;
      log := [ApplicationStarted];
      processingEnabled := false;
      editorName, editorIntensity, editorDuration := NewEventName, 0.5, 500;
      inbox := [];
    }

    method AddLogMessage(m: LogToken)
      modifies this`log
      ensures log == WithLog(old(log), m)
    {
      log := [m] + log;
      if |log| > LogCapacity {
        log := log[..|log| - 1];
      }
    }

    /**
     * The routing loop for triggered actions: with a device at the target position, each
     * vibrate action is logged and becomes a vibrate command at the action's intensity, each
     * stop action a stop command; with no device there, nothing happens.
     */
    method DispatchActions(actions: seq<DeviceAction>)
      requires Valid()
      modifies this`log, this`sent
      ensures Valid()
      ensures var target := DispatchTarget(devices, selected);
              if target.Some? && target.value < |devices| then
                && sent == old(sent) + CommandsFor(actions, target.value)
                && log == PushLogs(old(log), VibrationLogs(actions, devices[target.value]))
              else
                sent == old(sent) && log == old(log)
    {
      var target := DispatchTarget(devices, selected);
      if target.Some? && target.value < |devices| {
        RouteActions(actions, target.value, devices[target.value]);
      }
    }

    /** The loop over a batch of actions, all routed to `position`, which holds `device`. */
    method RouteActions(actions: seq<DeviceAction>, position: nat, device: Device)
      modifies this`log, this`sent
      ensures sent == old(sent) + CommandsFor(actions, position)
      ensures log == PushLogs(old(log), VibrationLogs(actions, device))
    {
      var i := 0;
      while i < |actions|
        invariant 0 <= i <= |actions|
        invariant sent == old(sent) + CommandsFor(actions[..i], position)
        invariant log == PushLogs(old(log), VibrationLogs(actions[..i], device))
      {
        CommandsForPrefix(actions, i, position);
        VibrationLogsPrefix(actions, i, device);
        PushLogsAppend(old(log), VibrationLogs(actions[..i], device), VibrationLog(actions[i], device));
        RouteAction(actions[i], position, device);
        i := i + 1;
      }
      assert actions[..i] == actions;
    }

    /** One pass of the routing loop: log a vibrate action, then hand its command to the channel. */
    method RouteAction(action: DeviceAction, position: nat, device: Device)
      modifies this`log, this`sent
      ensures sent == old(sent) + [CommandFor(action, position)]
      ensures log == PushLogs(old(log), VibrationLog(action, device))
    {
      match action.actionType {
        case Vibrate =>
          var m := GameEventVibration(device.backendIndex, action.intensity, action.durationMilliseconds);
          assert PushLogs(old(log), [m]) == WithLog(PushLogs(old(log), []), m);
          AddLogMessage(m);
          sent := sent + [VibrateDevice(position, action.intensity)];
        case Stop =>
          sent := sent + [StopDevice(position)];
      }
    }

    /**
     * A telemetry snapshot always replaces the current one; with processing enabled it is
     * evaluated against the rules and the triggered actions are routed. With processing
     * disabled no command is sent and the game snapshot is left alone.
     */
    method OnIndicators(indicators: Indicators)
      requires Valid()
      modifies this`currentIndicators, this`log, this`sent, snapshot
      ensures Valid()
      ensures currentIndicators == Some(indicators)
      ensures processingEnabled ==>
                && snapshot.lastHealthPercentage == indicators.healthPercentage
                && var actions := FiringActions(settings.eventActions, indicators.healthPercentage,
                                                old(snapshot.lastHealthPercentage));
                   var target := DispatchTarget(devices, selected);
                   if target.Some? && target.value < |devices| then
                     && sent == old(sent) + CommandsFor(actions, target.value)
                     && log == PushLogs(old(log), VibrationLogs(actions, devices[target.value]))
                   else
                     sent == old(sent) && log == old(log)
      ensures !processingEnabled ==>
                && sent == old(sent) && log == old(log)
                && snapshot.lastHealthPercentage == old(snapshot.lastHealthPercentage)
      ensures State() == Shown(old(State()), indicators)
    {
      currentIndicators := Some(indicators);
      if processingEnabled {
        var actions := ProcessWarThunderData(indicators, settings, snapshot);
        DispatchActions(actions);
      }
    }

    /** A new telemetry connection status; losing the connection also forgets the snapshot. */
    method OnConnectionStatus(connected: bool)
      modifies this`warThunderConnected, this`currentIndicators
      ensures warThunderConnected == connected
      ensures currentIndicators == if connected then old(currentIndicators) else None
      ensures State() == StatusChanged(old(State()), connected)
    {
      warThunderConnected := connected;
      if !connected {
        currentIndicators := None;
      }
    }

    /** The session reports a connected client. */
    method OnConnected()
      modifies this`buttplugConnected, this`log
      ensures buttplugConnected && log == WithLog(old(log), ButtplugServerConnected)
      ensures State() == ClientConnected(old(State()))
    {
      buttplugConnected := true;
      AddLogMessage(ButtplugServerConnected);
    }

    /** Settings loaded by a worker replace the coordinator's own. */
    method OnSettingsLoaded(loaded: ApplicationSettings)
      modifies this`settings, this`log
      ensures settings == loaded && log == WithLog(old(log), SettingsApplied)
      ensures State() == SettingsReplaced(old(State()), loaded)
    {
      settings := loaded;
      AddLogMessage(SettingsApplied);
    }

    /** The session is gone: the mirror is emptied and the selection cleared. */
    method OnDisconnected()
      requires Valid()
      modifies this`buttplugConnected, this`devices, this`selected, this`log
      ensures Valid()
      ensures !buttplugConnected && devices == [] && selected == None
      ensures log == WithLog(old(log), ButtplugServerDisconnected)
      ensures State() == ClientDisconnected(old(State()))
    {
      buttplugConnected := false;
      devices := [];
      selected := None;
      AddLogMessage(ButtplugServerDisconnected);
    }

    /**
     * A device was found: listed (and logged) only if no listed device has its backend index;
     * the first device listed while nothing is selected becomes the selection.
     */
    method OnDeviceFound(d: Device)
      requires Valid()
      modifies this`devices, this`selected, this`log
      ensures Valid()
      ensures HasBackendIndex(old(devices), d.backendIndex) ==>
                devices == old(devices) && selected == old(selected) && log == old(log)
      ensures !HasBackendIndex(old(devices), d.backendIndex) ==>
                && devices == old(devices) + [d]
                && selected == (if old(selected).None? then Some(0) else old(selected))
                && log == WithLog(old(log), DeviceListed(d.backendIndex))
      ensures State() == Listed(old(State()), d)
    {
      if !HasBackendIndex(devices, d.backendIndex) {
        AddLogMessage(DeviceListed(d.backendIndex));
        devices := devices + [d];
        if selected.None? && devices != [] {
          selected := Some(0);
        }
      }
    }

    /**
     * A device was lost: logged, every entry with its backend index unlisted, and a selection
     * that fell off the end moves to the first device, or to none if the list is empty.
     */
    method OnDeviceLost(d: Device)
      requires Valid()
      modifies this`devices, this`selected, this`log
      ensures Valid()
      ensures devices == WithoutBackendIndex(old(devices), d.backendIndex)
      ensures log == WithLog(old(log), DeviceDropped(d.backendIndex))
      ensures old(selected).Some? && old(selected).value >= |devices| ==>
                selected == if devices == [] then None else Some(0)
      ensures !(old(selected).Some? && old(selected).value >= |devices|) ==> selected == old(selected)
      ensures State() == Unlisted(old(State()), d)
    {
      ghost var before := State();
      AddLogMessage(DeviceDropped(d.backendIndex));
      var kept := WithoutBackendIndex(devices, d.backendIndex);
      WithoutKeepsDistinct(devices, d.backendIndex);
      devices, selected := kept, Reselect(selected, kept);
      assert State() == before.(devices := devices, selected := selected, log := log);
    }

    /** One update, as the drain loop handles it. */
    method HandleUpdate(u: Update)
      requires Valid()
      modifies this, snapshot
      ensures Valid()
      ensures devices == ApplyToRegistry(old(devices), u)
      ensures settings == if u.ApplicationSettingsLoaded? then u.loaded else old(settings)
      ensures inbox == old(inbox) && processingEnabled == old(processingEnabled)
      ensures !processingEnabled ==>
                sent == old(sent) && snapshot.lastHealthPercentage == old(snapshot.lastHealthPercentage)
      ensures State() == Step(old(State()), u)
    {
      if IsDeviceEvent(u) {
        HandleDeviceUpdate(u);
      } else {
        HandleOtherUpdate(u);
      }
    }

    /** "Found", "lost" and "disconnected": the updates that change the mirror. */
    method HandleDeviceUpdate(u: Update)
      requires Valid() && IsDeviceEvent(u)
      modifies this`buttplugConnected, this`devices, this`selected, this`log
      ensures Valid()
      ensures devices == ApplyToRegistry(old(devices), u)
      ensures State() == Step(old(State()), u)
    {
      match u {
        case ButtplugDisconnected => OnDisconnected();
        case ButtplugDeviceFound(d) => OnDeviceFound(d);
        case ButtplugDeviceLost(d) => OnDeviceLost(d);
      }
    }

    /** The updates that leave the mirror alone. */
    method HandleOtherUpdate(u: Update)
      requires Valid() && !IsDeviceEvent(u)
      modifies this`log, this`currentIndicators, this`warThunderConnected, this`buttplugConnected,
               this`settings, this`sent, snapshot
      ensures Valid()
      ensures settings == if u.ApplicationSettingsLoaded? then u.loaded else old(settings)
      ensures !processingEnabled ==>
                sent == old(sent) && snapshot.lastHealthPercentage == old(snapshot.lastHealthPercentage)
      ensures State() == Step(old(State()), u)
    {
      match u {
        case LogMessage(m) => AddLogMessage(m);
        case WarThunderIndicatorsUpdate(indicators) => OnIndicators(indicators);
        case WarThunderConnectionStatus(connected) => OnConnectionStatus(connected);
        case ButtplugConnected => OnConnected();
        case ButtplugError(reason) => AddLogMessage(ButtplugFailure(reason));
        case ApplicationSettingsLoaded(loaded) => OnSettingsLoaded(loaded);
      }
    }

    /**
     * `handle_incoming_updates`: every queued update is handled, in arrival order, within one
     * call. The mirror ends as the replay of the queue on it, the settings as those of the last
     * "settings loaded", and with processing disabled no command is sent.
     */
    method HandleIncomingUpdates()
      requires Valid()
      modifies this, snapshot
      ensures Valid() && inbox == []
      ensures devices == Replay(old(devices), old(inbox))
      ensures settings == LatestSettings(old(settings), old(inbox))
      ensures processingEnabled == old(processingEnabled)
      ensures !processingEnabled ==>
                sent == old(sent) && snapshot.lastHealthPercentage == old(snapshot.lastHealthPercentage)
      ensures State() == Drain(old(State()), old(inbox))
    {
      ghost var start := State();
      ghost var queue := inbox;
      DrainInbox();
      DrainEffect(start, queue);
    }

    /** The drain loop itself: updates are taken off the queue and handled until it is empty. */
    method DrainInbox()
      requires Valid()
      modifies this, snapshot
      ensures Valid() && inbox == []
      ensures State() == Drain(old(State()), old(inbox))
    {
      ghost var start := State();
      ghost var queue := inbox;
      ghost var handled: seq<Update> := [];
      while inbox != []
        invariant Valid()
        invariant queue == handled + inbox
        invariant State() == Drain(start, handled)
        decreases |inbox|
      {
        var u := HandleNext();
        DrainStep(start, handled, u);
        handled := handled + [u];
      }
      assert handled == queue;
    }

    /** One turn of the drain loop: the oldest queued update is taken off the queue and handled. */
    method HandleNext() returns (u: Update)
      requires Valid() && inbox != []
      modifies this, snapshot
      ensures Valid()
      ensures u == old(inbox[0]) && inbox == old(inbox[1..])
      ensures State() == Step(old(State()), u)
    {
      u := inbox[0];
      inbox := inbox[1..];
      HandleUpdate(u);
    }

    /** The processing checkbox flipped: logged, and the matching start or stop command sent. */
    method ToggleProcessing()
      requires Valid()
      modifies this`processingEnabled, this`log, this`sent
      ensures Valid()
      ensures processingEnabled == !old(processingEnabled)
      ensures processingEnabled ==> log == WithLog(old(log), ProcessingEnabled) && sent == old(sent) + [StartProcessing]
      ensures !processingEnabled ==> log == WithLog(old(log), ProcessingDisabled) && sent == old(sent) + [StopProcessing]
    {
      processingEnabled := !processingEnabled;
      if processingEnabled {
        AddLogMessage(ProcessingEnabled);
        sent := sent + [StartProcessing];
      } else {
        AddLogMessage(ProcessingDisabled);
        sent := sent + [StopProcessing];
      }
    }

    /** A device picked in the device list. */
    method Select(position: nat)
      requires Valid() && position < |devices|
      modifies this`selected
      ensures Valid() && selected == Some(position)
    {
      selected := Some(position);
    }

    /** Delete an event action: removed from the list, logged, and the new settings pushed to the workers. */
    method DeleteEventAction(index: nat)
      requires Valid() && index < |settings.eventActions|
      modifies this`settings, this`log, this`sent
      ensures Valid()
      ensures settings == old(settings).(eventActions := RemoveAt(old(settings.eventActions), index))
      ensures log == WithLog(old(log), EventActionDeleted(index))
      ensures sent == old(sent) + [UpdateApplicationSettings(settings)]
    {
      settings := settings.(eventActions := settings.eventActions[..index] + settings.eventActions[index + 1..]);
      AddLogMessage(EventActionDeleted(index));
      sent := sent + [UpdateApplicationSettings(settings)];
    }

    /**
     * Add an event action from the editor: a name that is blank after trimming is refused with
     * a log entry and nothing else; otherwise an enabled vibrate action with the trimmed name and
     * the editor's intensity and duration is appended, the settings are pushed to the workers,
     * and the editor is reset.
     */
    method AddEventAction()
      requires Valid()
      modifies this`settings, this`log, this`sent, this`editorName, this`editorIntensity, this`editorDuration
      ensures Valid()
      ensures Trim(old(editorName)) == [] ==>
                && settings == old(settings) && sent == old(sent)
                && log == WithLog(old(log), EventActionNameEmpty)
                && editorName == old(editorName) && editorIntensity == old(editorIntensity)
                && editorDuration == old(editorDuration)
      ensures Trim(old(editorName)) != [] ==>
                && settings.eventActions == old(settings.eventActions)
                     + [NewVibrateAction(Trim(old(editorName)), old(editorIntensity), old(editorDuration))]
                && settings == old(settings).(eventActions := settings.eventActions)
                && sent == old(sent) + [UpdateApplicationSettings(settings)]
                && log == WithLog(old(log), EventActionAdded)
                && editorName == NewEventName && editorIntensity == 0.5 && editorDuration == 500
    {
      var name := Trim(editorName);
      if name == [] {
        AddLogMessage(EventActionNameEmpty);
      } else {
        AppendEventAction(NewVibrateAction(name, editorIntensity, editorDuration));
        editorName, editorIntensity, editorDuration := NewEventName, 0.5, 500;
      }
    }

    /** The accepted branch of adding an event action: append, log, push the settings. */
    method AppendEventAction(added: EventActionSetting)
      modifies this`settings, this`log, this`sent
      ensures settings == old(settings).(eventActions := old(settings.eventActions) + [added])
      ensures log == WithLog(old(log), EventActionAdded)
      ensures sent == old(sent) + [UpdateApplicationSettings(settings)]
    {
      settings := settings.(eventActions := settings.eventActions + [added]);
      AddLogMessage(EventActionAdded);
      sent := sent + [UpdateApplicationSettings(settings)];
    }
  }

  /**
   * The coordinator's mirror catches up with the session's registry: if the mirror reflects the
   * first `delivered` updates the session sent, and the queue holds the rest of the session's
   * device updates in order (interleaved with anything else), draining the queue leaves the
   * mirror equal to the registry, so positions name the same devices on both sides.
   */
  method MirrorFollowsRegistry(session: ButtplugSession, app: HapticsApplication, delivered: nat)
    requires session.Valid() && app.Valid()
    requires delivered <= |session.outbox|
    requires app.devices == Replay([], session.outbox[..delivered])
    requires DeviceEvents(app.inbox) == DeviceEvents(session.outbox[delivered..])
    modifies app, app.snapshot
    ensures app.Valid() && app.inbox == []
    ensures app.devices == session.devices
  {
    MirrorCatchesUp(session.outbox, delivered, app.inbox);
    app.HandleIncomingUpdates();
  }
}
