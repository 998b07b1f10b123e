# War Thunder haptics bridge: a Dafny model of its bookkeeping

The application reads telemetry from War Thunder's local web API. It decides which configured
event actions fire, and drives haptic devices through an in-process Buttplug client. Three
actors exchange messages:

- **The telemetry poller** (`run_war_thunder_polling_loop`). Each iteration it takes at most
  one pending command without blocking, fetches one indicators snapshot, reports it together
  with the connection status, and sleeps for the polling interval.
- **The haptic session** (`run_buttplug_service_loop`). It owns the optional client and the
  device registry `connected_devices`, serves scan, vibrate, stop and disconnect commands, and
  forwards device and connection events.
- **The coordinator** (`WarThunderHapticsApplication`). It drains the updates the workers
  send, keeps a mirror of the device list, a selected position, a newest-first log bounded at
  100 entries and the connection flags, and evaluates the rules on each snapshot. It routes
  the triggered actions to a device position and edits the list of event actions.

The project models these actors, plus the rule evaluation and the persisted settings:

| file | module | what it holds |
|---|---|---|
| `wrappers.dfy` | `Wrappers` | `Option` and `Result` |
| `text.dfy` | `Text` | `str::contains` and `str::trim` over Unicode scalar values |
| `configuration.dfy` | `Configuration` | settings types, defaults, decoding with serde defaults, load and save over an abstract store |
| `messages.dfy` | `Messages` | the command and update enums, device handles, log entries as tokens |
| `device_registry.dfy` | `DeviceRegistry` | device lists keyed by backend index, and the replay of device updates |
| `game_events.dfy` | `GameEvents` | `GameStateSnapshot` and `process_war_thunder_data` |
| `telemetry.dfy` | `Telemetry` | one poll iteration as a function, the loop as a method |
| `session.dfy` | `Session` | class `ButtplugSession`, with the two entry points `HandleCommand` and `HandleEvent` |
| `coordinator.dfy` | `Coordinator` | class `HapticsApplication` and the cross-component mirror property |

The two actors that change state in place are Dafny classes:

- `ButtplugSession` keeps the client flag, the registry, the outbox of every update it sends
  and the trace of SDK calls.
- `HapticsApplication` keeps the coordinator's fields, its queue of undelivered updates and
  the commands it has handed to the channel.

Their invariants (`Valid`) say these things:

- The registry never lists a backend index twice.
- The registry is empty without a client.
- The registry is exactly the replay of the session's own outbox.
- The coordinator's selection is always a valid position.
- The coordinator's log never exceeds 100 entries.

The central cross-component result is `Coordinator.MirrorFollowsRegistry`. Once the coordinator
has received the session's device updates in order, its mirror equals the session's registry.
So the vec position the coordinator puts in a command names the same device in the session.

## Model

| member | source | states |
|---|---|---|
| `Text.ContainsIffOccurs` | src/game_event_processor.rs:39 | the recursive `Contains` used for `str::contains` holds exactly when the needle occurs at some position |
| `Text.Trim` | src/application.rs:332 | the trimmed name is no longer than the name, and when it is not empty its first and last characters are not whitespace |
| `Text.TrimEmptyIffBlank` | src/application.rs:332-340 | the trimmed name is empty iff the name is all whitespace; otherwise it is a contiguous slice with only whitespace before and after it |
| `Configuration.DefaultSettings` | src/configuration_manager.rs:42-61 | polling interval 250, address `ws://127.0.0.1:12345`, exactly one enabled Vibrate action at intensity 0.3 for 1000 ms |
| `Configuration.DecodeDeviceAction` | src/configuration_manager.rs:14-24 | decodes iff the action type is present; a missing intensity becomes 0.5, a missing duration 500, present fields are kept |
| `Configuration.DecodeEventAction` | src/configuration_manager.rs:26-31 | decodes iff name, enabled flag and a decodable device action are all present; name and flag are kept and the device action is the decoded one |
| `Configuration.DecodeEventActions` | src/configuration_manager.rs:38-39 | a list decodes iff every element does, and then element by element in order |
| `Configuration.DecodeSettings` | src/configuration_manager.rs:33-40 | decodes iff name, interval and address are present and a present `event_actions` list decodes; name, interval and address are kept, a present list becomes its decoding, and a missing list becomes the empty list rather than an error |
| `Configuration.EventActionsRoundTrip` | src/configuration_manager.rs:26-31 | decoding a fully written list of event actions gives the list back |
| `Configuration.SettingsRoundTrip` | src/configuration_manager.rs:33-40 | decoding fully written settings gives the settings back |
| `Configuration.SaveConfiguration` | src/configuration_manager.rs:93-101 | a missing directory or a failed write is an error and changes nothing; success replaces the file with the written settings |
| `Configuration.LoadConfiguration` | src/configuration_manager.rs:75-91 | an absent file leads to saving the defaults and returning them, or returning that save's error; a read or parse failure is an error, never partial settings; otherwise the decoded document |
| `Configuration.SaveThenLoad` | src/configuration_manager.rs:75-101 | whenever a save succeeds, the next load returns exactly the saved settings |
| `DeviceRegistry.WithoutBackendIndex` | src/buttplug_connector.rs:190-197 | `retain` keeps exactly the entries with another backend index; nothing changes when the index is absent, the list shrinks when it is present |
| `DeviceRegistry.WithoutBackendIndexAppend` | src/buttplug_connector.rs:190-197 | `retain` keeps order: filtering a joined list is filtering its halves and joining the results |
| `DeviceRegistry.WithoutBackendIndexSingle` | src/buttplug_connector.rs:190-197 | a single entry is kept exactly when its backend index differs; with the append lemma this fixes the result entry by entry, in the original order |
| `DeviceRegistry.LastWithBackendIndex` | src/buttplug_connector.rs:189-198 | the captured device exists iff some entry has the index, and it is such an entry |
| `DeviceRegistry.RetainOthers` | src/buttplug_connector.rs:189-197 | the `retain` loop returns the kept list and the last dropped entry |
| `DeviceRegistry.DeviceEvents` | src/message_passing.rs:29-33 | the filtered updates are exactly the found, lost and disconnected ones |
| `DeviceRegistry.DeviceEventsAppend` | src/message_passing.rs:29-33 | filtering two batches joined is joining their filtered parts, so the filter keeps the order of the updates it keeps |
| `DeviceRegistry.DeviceEventsSingle` | src/message_passing.rs:29-33 | a single update is kept exactly when it is a found, lost or disconnected update |
| `DeviceRegistry.DeviceEventsNone` | src/message_passing.rs:29-33 | a batch without device updates filters to nothing |
| `DeviceRegistry.ApplyToRegistryEffect` | src/application.rs:120-150 | "found" keeps the old list as a prefix, leaves its backend index listed, adds at most that device and nothing else, and adds nothing exactly when the index was already listed; "lost" unlists its index and keeps every entry with another index; "disconnected" empties the list; other updates change nothing |
| `DeviceRegistry.ReplayProvenance` | src/application.rs:126-140 | every device a replay lists was there at the start or was announced by a "found" update |
| `DeviceRegistry.ReplayAppend` | src/application.rs:74-75 | replaying two batches in turn is replaying them joined |
| `DeviceRegistry.ReplayOnlyDeviceEvents` | src/application.rs:120-150 | only found, lost and disconnected updates change a device list |
| `DeviceRegistry.WithoutKeepsDistinct` | src/application.rs:144 | removing a backend index keeps the indices pairwise distinct |
| `DeviceRegistry.ReplayKeepsDistinct` | src/application.rs:126-150 | no sequence of updates puts one backend index in the list twice |
| `DeviceRegistry.MirrorCatchesUp` | src/application.rs:74-160 | a mirror that has seen a prefix of the sent updates, replaying a queue holding the remaining device updates in order, ends equal to the replay of everything sent |
| `DeviceRegistry.PositionsAgree` | src/application.rs:98-104 | two lists built from the same device updates have the same length and the same backend index at every position |
| `GameEvents.GameStateSnapshot.constructor` | src/game_event_processor.rs:8-15 | `Default`: a fresh snapshot knows no previous health |
| `GameEvents.DamageActions` | src/game_event_processor.rs:28-47 | reference definition: an action is listed iff some enabled damage-keyword rule carries it, and there are no more actions than rules |
| `GameEvents.DamageActionsAppend` | src/game_event_processor.rs:28-47 | the actions follow settings order, one per rule: those of joined rule lists are those of the halves joined, and a single rule contributes its action exactly when it is an enabled damage rule |
| `GameEvents.FiringActions` | src/game_event_processor.rs:28-60 | the loop's outcome has at most one action per rule, and any action at all means both readings exist and health went down |
| `GameEvents.FiringIsAllOrNothing` | src/game_event_processor.rs:28-67 | the evaluation returns every enabled damage rule's action, in settings order, when health dropped by more than 0.01, and nothing otherwise; disabled rules, keyword-less and "Выстрел" rules, and a missing reading contribute nothing |
| `GameEvents.ProcessWarThunderData` | src/game_event_processor.rs:21-68 | the loop returns the firing rules' actions and overwrites the snapshot's last health with the current reading, absent included |
| `Telemetry.DamageObservedIsHealthDrop` | src/war_thunder_connector.rs:69-76 | the poller's damage test agrees with the rule evaluation's health-drop test |
| `Telemetry.FetchStep` | src/war_thunder_connector.rs:63-111 | emissions per fetch outcome (damage log, indicators, status true; status false; parse log then status false); last health changes only with a reading; the loop ends iff the coordinator's receiver is gone |
| `Telemetry.PollStep` | src/war_thunder_connector.rs:41-113 | a closed command channel ends the loop silently; StopProcessing logs, reports disconnected and ends before fetching; a settings update sets the interval and is acknowledged |
| `Telemetry.Run` | src/war_thunder_connector.rs:41-114 | the run consumes every iteration unless one ends the loop, and then stops right after it; every completed iteration sleeps once, so there is one sleep fewer than iterations when the loop broke |
| `Telemetry.RunSnoc` | src/war_thunder_connector.rs:41-114 | while the loop has not broken, one more iteration appends exactly that iteration's updates to what was sent and, unless it breaks, its sleep; so the updates sent are the iterations' updates joined in order |
| `Telemetry.RunUsesOnlyConsumed` | src/war_thunder_connector.rs:41-114 | nothing after the iteration that breaks the loop affects the run |
| `Telemetry.RunPrefixContinues` | src/war_thunder_connector.rs:41-114 | no run over a prefix shorter than the consumed iterations has broken the loop |
| `Telemetry.RunBreaksAtFirst` | src/war_thunder_connector.rs:41-114 | every iteration that slept started from the state the run had reached and did not ask the loop to end |
| `Telemetry.RunEndsWithBreak` | src/war_thunder_connector.rs:41-114 | a run that ended the loop did so at an iteration that asked for it, run from the state reached before it |
| `Telemetry.SleepsFollowLatestSettings` | src/war_thunder_connector.rs:45-47 | each sleep uses the interval of the latest settings update up to and including its own iteration |
| `Telemetry.RunPollingLoop` | src/war_thunder_connector.rs:33-115 | the loop sends, sleeps and ends exactly as `Run` from no known health |
| `Telemetry.PollStepSendsNoDeviceEvents` | src/war_thunder_connector.rs:41-113 | one iteration of the poller sends only log, indicator and connection-status updates, never a device update |
| `Telemetry.StepSendsNoDeviceEvents` | src/war_thunder_connector.rs:41-113 | the device-update filter of one iteration's updates is empty |
| `Telemetry.RunSendsNoDeviceEvents` | src/war_thunder_connector.rs:41-114 | no run of the poller sends a device update, so the coordinator's mirror sees only the session's |
| `Session.VibrateSubcommands` | src/buttplug_connector.rs:79-91 | exactly the vibrate features become subcommands, each at the requested speed, no more subcommands than features; empty iff the device has no vibrate feature |
| `Session.VibrateSubcommandsAppend` | src/buttplug_connector.rs:80-89 | subcommands follow feature order: those of a joined feature list are those of its halves joined |
| `Session.VibrateSubcommandsSingle` | src/buttplug_connector.rs:80-89 | a single feature gives one subcommand for its feature index at the requested speed exactly when it vibrates, and none otherwise |
| `Session.BuildVibrateSubcommands` | src/buttplug_connector.rs:80-89 | the loop builds exactly `VibrateSubcommands`, in feature order |
| `Session.StaleScanAsWritten` | src/buttplug_connector.rs:57-61 | as written, the stale-scan branch sends "disconnected" but keeps the registry, so a non-empty registry no longer equals its own replay of what was sent |
| `Session.StaleScanBreaksInvariant` | src/buttplug_connector.rs:57-61 | as written, whenever the registry before the stale scan is the non-empty replay of the session's outbox, the registry after it differs from the replay of the outbox followed by the update it sends |
| `Session.StaleScanMisroutes` | src/buttplug_connector.rs:57-61 | as written, the stale-scan branch leaves registry and mirror different, and afterwards position 0 names different devices on the two sides |
| `Session.ButtplugSession.constructor` | src/buttplug_connector.rs:20-21 | no client, empty registry, nothing sent or called |
| `Session.ButtplugSession.Send` | src/buttplug_connector.rs:35 | a send appends to the outbox and keeps the registry equal to the replay of the outbox |
| `Session.ButtplugSession.Scan` | src/buttplug_connector.rs:28-63 | a failed connect sends error then disconnected with no scan; a connected client gets exactly one `start_scanning`; a present but disconnected client is dropped, the registry is emptied and disconnected is sent (emptying the registry is the correction under Findings) |
| `Session.ButtplugSession.Connect` | src/buttplug_connector.rs:29-46 | one connect call; connected iff it succeeded; announced on success, error and disconnected on failure |
| `Session.ButtplugSession.ScanWithClient` | src/buttplug_connector.rs:48-62 | scan with a connected client; otherwise drop the client, empty the registry, send disconnected |
| `Session.ButtplugSession.Vibrate` | src/buttplug_connector.rs:65-120 | one scalar call to the device's backend index with its vibrate subcommands; no call without client, connection, device at that position, or vibrate feature |
| `Session.ButtplugSession.StopAt` | src/buttplug_connector.rs:122-145 | one stop call for the device at that position, only with a connected client and a device there |
| `Session.ButtplugSession.Disconnect` | src/buttplug_connector.rs:147-162 | always ends with no client, an empty registry and disconnected sent (so repeating it gives the same state); disconnect call only for a connected client; the loop ends iff that send fails |
| `Session.ButtplugSession.HandleCommand` | src/buttplug_connector.rs:26-164 | the registry follows the sent updates; processing and settings commands change nothing; a vibrate adds exactly one scalar call when a connected client has a device with a vibrate feature at that position, and nothing else; a stop adds exactly one stop call when a connected client has a device at that position, and nothing else; a scan makes the same calls and sends the same updates as `Scan`, with a failed connect sending error then disconnected; a disconnect calls the SDK's disconnect only for a connected client, leaves no client and an empty registry, sends disconnected and then the log notice if the GUI still listens, and ends the loop exactly when the GUI no longer listens |
| `Session.ButtplugSession.HandleEvent` | src/buttplug_connector.rs:167-250 | no SDK call; the registry follows the sent updates; an added device is listed and announced only when its backend index is new; a removed one unlists its index and announces the last entry it had, if any; a server disconnect or ping timeout drops the client, empties the registry and sends disconnected, then the log notice if the GUI still listens; a connector error sends the error then disconnected and drops the client; another client error only sends the error; a stale client found while idle is dropped with disconnected; ignored events change nothing; the loop ends iff a disconnect-type event cannot be reported |
| `Session.ButtplugSession.AddDevice` | src/buttplug_connector.rs:176-186 | a known backend index changes nothing and sends nothing; a new one is appended last with exactly one found update |
| `Session.ButtplugSession.RemoveDevice` | src/buttplug_connector.rs:187-203 | every entry with the index goes, the rest keep their order, and lost is sent only if something was removed |
| `Session.ButtplugSession.StreamFailure` | src/buttplug_connector.rs:227-238 | an error is always reported; only a connector error drops the client and the registry and sends disconnected |
| `Session.ButtplugSession.CheckStale` | src/buttplug_connector.rs:239-249 | a present but disconnected client is dropped with the registry and disconnected is sent; otherwise nothing changes |
| `Session.ButtplugSession.DropConnection` | src/buttplug_connector.rs:204-223 | server disconnect and ping timeout clear client and registry and send disconnected, then a log unless the channel is closed |
| `Coordinator.WithLog` | src/application.rs:66-72 | the new entry is at position 0, the rest is a prefix of the old log, and a log of at most 100 entries stays at most 100 |
| `Coordinator.PushLogs` | src/application.rs:66-72 | after several messages the last one is first, and the bound of 100 still holds |
| `Coordinator.CommandsForRoutesEachAction` | src/application.rs:86-106 | one command per action, in order: vibrate at the action's intensity or stop, all for the same position |
| `Coordinator.VibrationLogsNameTarget` | src/application.rs:90-97 | every routing log names the target device, and something is logged iff there is a vibrate action |
| `Coordinator.PushLogsAppend` | src/application.rs:86-97 | logging two batches in turn is logging them joined |
| `Coordinator.LatestSettings` | src/application.rs:154-157 | without a settings update the settings are kept; otherwise they come from one of the updates |
| `Coordinator.LatestSettingsIsLast` | src/application.rs:154-157 | each settings update overwrites the settings, so the last one in the batch wins |
| `Coordinator.RemoveAt` | src/application.rs:309 | `Vec::remove`: one element shorter, the others keep their order |
| `Coordinator.StepEffect` | src/application.rs:76-158 | one update moves the mirror as `ApplyToRegistry` and the settings only on a settings update; commands are only appended, and only for a snapshot with processing on; processing flag and editor untouched; the invariant is kept |
| `Coordinator.DrainStep` | src/application.rs:74-160 | a drain ends with the step of its last update |
| `Coordinator.DrainAppend` | src/application.rs:74-160 | draining two batches in turn is draining them joined |
| `Coordinator.DrainEffect` | src/application.rs:74-160 | after a drain the mirror is the replay of the queue and the settings those of its last settings update; commands only appended, none with processing off; the invariant holds |
| `Coordinator.DrainSendsOnlyForSnapshots` | src/application.rs:78-111 | a queue without indicator snapshots sends no command, whatever the processing flag |
| `Coordinator.HapticsApplication.constructor` | src/application.rs:34-64 | a failed load falls back to the defaults; the settings are pushed once; the log holds only the start-up entry; editor at "Новое событие"/0.5/500; no devices, nothing selected, no indicators, every flag off, a fresh snapshot without previous health |
| `Coordinator.HapticsApplication.AddLogMessage` | src/application.rs:66-72 | insert at the front, drop the oldest past 100 |
| `Coordinator.HapticsApplication.DispatchActions` | src/application.rs:86-109 | with a device at the selected position, or at 0 without a selection, the commands and logs of the routing; with none, nothing |
| `Coordinator.HapticsApplication.RouteActions` | src/application.rs:86-107 | the routing loop sends exactly `CommandsFor` and logs exactly `VibrationLogs` |
| `Coordinator.HapticsApplication.RouteAction` | src/application.rs:89-105 | one action: a vibrate logs the target device and sends a vibrate command at the action's intensity; a stop sends a stop command and logs nothing |
| `Coordinator.HapticsApplication.OnIndicators` | src/application.rs:78-111 | the snapshot is always replaced; with processing on the triggered actions are routed and the game snapshot updated; with processing off nothing is sent and the game snapshot is untouched; the new state is the `Shown` arm of `Step` |
| `Coordinator.HapticsApplication.OnConnectionStatus` | src/application.rs:112-115 | the flag follows the status; losing the connection clears the current indicators; nothing else changes (the `StatusChanged` arm) |
| `Coordinator.HapticsApplication.OnConnected` | src/application.rs:116-119 | connected flag set and one log entry; nothing else changes (the `ClientConnected` arm) |
| `Coordinator.HapticsApplication.OnSettingsLoaded` | src/application.rs:154-157 | the loaded settings replace the current ones, with one log entry; nothing else changes (the `SettingsReplaced` arm) |
| `Coordinator.HapticsApplication.OnDisconnected` | src/application.rs:120-125 | flag cleared, device list emptied, selection cleared, one log entry; nothing else changes (the `ClientDisconnected` arm) |
| `Coordinator.HapticsApplication.OnDeviceFound` | src/application.rs:126-140 | listed and logged only if its backend index is new; position 0 selected when nothing was; nothing else changes (the `Listed` arm) |
| `Coordinator.HapticsApplication.OnDeviceLost` | src/application.rs:141-150 | all entries with the index removed and the loss logged; an out-of-range selection moves to 0, or to none when the list is empty; the selection stays valid; nothing else changes (the `Unlisted` arm) |
| `Coordinator.HapticsApplication.HandleUpdate` | src/application.rs:76-158 | the whole new state (settings, indicators, health, mirror, selection, flags, log, editor, commands sent) is `Step` of the old one; the mirror changes as `ApplyToRegistry`, the settings only on a settings update, and nothing is sent with processing off |
| `Coordinator.HapticsApplication.HandleDeviceUpdate` | src/application.rs:120-150 | the new state is `Step` of the old one; the mirror changes exactly as `ApplyToRegistry`, keeping the selection valid and the indices distinct |
| `Coordinator.HapticsApplication.HandleOtherUpdate` | src/application.rs:77-119 | the new state is `Step` of the old one; the remaining updates keep the invariant; only a settings update changes the settings, to the loaded ones; with processing off nothing is sent and the game snapshot keeps its last health |
| `Coordinator.HapticsApplication.HandleIncomingUpdates` | src/application.rs:74-160 | the whole queue is consumed and the new state is `Drain` of the old one over it, in arrival order: the mirror is its replay, the settings those of its last settings update, and with processing off nothing is sent |
| `Coordinator.HapticsApplication.DrainInbox` | src/application.rs:74-160 | the `try_recv` loop: it ends with an empty queue, and its state is `Drain` of the start state over the queue it found |
| `Coordinator.HapticsApplication.HandleNext` | src/application.rs:75-76 | one turn of the loop takes the oldest update off the queue, and the new state is `Step` of the old one with it |
| `Coordinator.HapticsApplication.ToggleProcessing` | src/application.rs:195-204 | the flag flips, with the matching log and the start or stop command |
| `Coordinator.HapticsApplication.Select` | src/application.rs:237-243 | picking a listed device selects its position |
| `Coordinator.HapticsApplication.DeleteEventAction` | src/application.rs:291-312 | the action at that index is removed, the deletion is logged, and the new settings are pushed |
| `Coordinator.HapticsApplication.AddEventAction` | src/application.rs:330-350 | a name that is blank after trimming changes nothing but the log; otherwise an enabled vibrate action with the trimmed name is appended, the settings are pushed, and the editor is reset to "Новое событие"/0.5/500 |
| `Coordinator.HapticsApplication.AppendEventAction` | src/application.rs:341-343 | the new action is appended after the existing ones with every other setting kept, the addition is logged, and the new settings are pushed |
| `Coordinator.MirrorFollowsRegistry` | src/application.rs:98-104 | after the coordinator drains the session's remaining device updates, its mirror equals the session's registry, so a position names the same device on both sides |

## Left out

- Concurrency and the async runtime. This covers `tokio::select!` with its bias, `now_or_never`,
  the 50 ms sleep after a stale stream, and the detached `tokio::spawn` of vibrate and stop.
  The session loop is modelled as two sequential entry points; a vibrate or stop is recorded
  when it is issued, and its result is not modelled.
- The select's `else` branch (src/buttplug_connector.rs:253-264) is not modelled. The event
  branch's pattern accepts every value, so that branch cannot be taken.
- Channel capacity. `try_send` drops messages when the channel is full, and that is not modelled:
  every command is recorded as handed to the channel. An update send that fails is
  modelled only where it ends a loop (the `guiReceiving` input).
- The HTTP request, the JSON decoding of the indicators and the sleep are not modelled: the
  fetch outcome is an input, and the sleeps are returned as a list of durations.
- TOML text, the filesystem and the platform directory lookup are not modelled. The store is
  abstract and a file holds a parsed document, so the round trip is proved for the decoder
  modelled here, not for the toml crate.
- Floating point is not modelled: health, intensity and speed are reals. Rounding at the 0.01
  threshold and the `f32`/`f64` widths are not captured.
- Log and tracing texts are not modelled: a log entry is a token carrying the values it
  mentions. Only order and count are kept.
- The SDK is not modelled. `connected()`, the connect and scan outcomes and the stream's events
  are inputs. A device's scalar attributes are its feature list, and a device with no scalar
  attributes has an empty list.
- The egui rendering, the status panel, the autosave on exit and the file menu's save and load
  (src/application.rs:170-193) are not modelled. The scan, disconnect and test-vibration
  buttons only hand a command to the channel; their effect is modelled by `HandleCommand`.
- src/main.rs is not part of this model. It hands the coordinator only the poller's command
  sender, so session commands are never delivered there. The model assumes the intended
  wiring.
- The configured server address is not modelled: the session always connects in process.
- Rules named for "Выстрел" (firing) produce nothing, as in the source: that branch has no body.
- `Session.ButtplugSession.HandleEvent`: events are observed only with a connected client, as
  the source's stream filter does. That is a precondition, not a branch.

## Findings

| source | as written | input that shows it | evidently intended | confidence | as-written member | corrected member |
|---|---|---|---|---|---|---|
| src/buttplug_connector.rs:57-61 | a scan that finds a present but disconnected client drops the client and sends ButtplugDisconnected, but keeps `connected_devices` | registry [device 1]; scan with a stale client (the coordinator empties its list); a new client reports device 1 (a duplicate, so not announced) and then device 2: position 0 is device 1 in the session and device 2 in the coordinator | clear the registry as every other disconnect path does (lines 156, 207, 217, 232, 243) | not executed; high (follows from the branch as written) | `Session.StaleScanAsWritten`, `Session.StaleScanBreaksInvariant`, `Session.StaleScanMisroutes` | `Session.ButtplugSession.ScanWithClient` |
