/**
 * The persisted application settings (src/configuration_manager.rs): the data model, the
 * defaults, the field defaulting performed when a settings document is decoded, and the
 * branch structure of loading and saving over an abstract configuration store.
 */
module Configuration {
  import opened Wrappers

  datatype DeviceActionType = Vibrate | Stop

  /** Intensity is an `f64` in the source, modelled as a real; the duration is a `u64` of milliseconds. */
  datatype DeviceAction = DeviceAction(actionType: DeviceActionType, intensity: real, durationMilliseconds: nat)

  datatype EventActionSetting = EventActionSetting(name: string, enabled: bool, deviceAction: DeviceAction)

  datatype ApplicationSettings = ApplicationSettings(
    applicationName: string,
    pollingIntervalMilliseconds: nat,
    buttplugServerAddress: string,
    eventActions: seq<EventActionSetting>)

  /** Value given to a device action's intensity when the document leaves it out. */
  function DefaultIntensity(): real { 0.5 }

  /** Value given to a device action's duration when the document leaves it out. */
  function DefaultDuration(): nat { 500 }

  /** The settings written on first start: one enabled, gentle vibration. */
  function DefaultSettings(): (s: ApplicationSettings)
    ensures s.pollingIntervalMilliseconds == 250
    ensures s.buttplugServerAddress == "ws://127.0.0.1:12345"
    ensures |s.eventActions| == 1 && s.eventActions[0].enabled
    ensures s.eventActions[0].deviceAction == DeviceAction(DeviceActionType.Vibrate, 0.3, 1000)
  {
    ApplicationSettings(
      "WarThunder Haptics GUI (Default)",
      250,
      "ws://127.0.0.1:12345",
      [EventActionSetting(
        "Пример: Легкая вибрация при старте",
        true,
        DeviceAction(DeviceActionType.Vibrate, 0.3, 1000))])
  }

  // ---------------------------------------------------------------------------------------------
  // Decoding. A settings document is modelled after the serialisation format has been parsed:
  // every field is either present or absent. Fields without a serde default must be present.

  datatype RawDeviceAction = RawDeviceAction(
    actionType: Option<DeviceActionType>,
    intensity: Option<real>,
    durationMilliseconds: Option<nat>)

  datatype RawEventAction = RawEventAction(
    name: Option<string>,
    enabled: Option<bool>,
    deviceAction: Option<RawDeviceAction>)

  datatype RawSettings = RawSettings(
    applicationName: Option<string>,
    pollingIntervalMilliseconds: Option<nat>,
    buttplugServerAddress: Option<string>,
    eventActions: Option<seq<RawEventAction>>)

  datatype ConfigError =
    | DirectoryUnavailable  // no per-user configuration directory, or it could not be created
    | ReadFailed
    | ParseFailed           // not valid in the serialisation format, or a required field is missing
    | WriteFailed

  /** A device action: the kind is required; intensity and duration fall back to their defaults. */
  function DecodeDeviceAction(raw: RawDeviceAction): (r: Result<DeviceAction, ConfigError>)
    ensures r.Ok? <==> raw.actionType.Some?
    ensures r.Ok? ==> r.value.actionType == raw.actionType.value
    ensures r.Ok? && raw.intensity.None? ==> r.value.intensity == DefaultIntensity()
    ensures r.Ok? && raw.intensity.Some? ==> r.value.intensity == raw.intensity.value
    ensures r.Ok? && raw.durationMilliseconds.None? ==> r.value.durationMilliseconds == DefaultDuration()
    ensures r.Ok? && raw.durationMilliseconds.Some? ==> r.value.durationMilliseconds == raw.durationMilliseconds.value
  {
    match raw.actionType
    case None => Err(ParseFailed)
    case Some(kind) =>
      var intensity := match raw.intensity case Some(x) => x case None => DefaultIntensity();
      var duration := match raw.durationMilliseconds case Some(d) => d case None => DefaultDuration();
      Ok(DeviceAction(kind, intensity, duration))
  }

  /** An event action: every field is required. */
  function DecodeEventAction(raw: RawEventAction): (r: Result<EventActionSetting, ConfigError>)
    ensures r.Ok? <==> raw.name.Some? && raw.enabled.Some? && raw.deviceAction.Some?
                       && DecodeDeviceAction(raw.deviceAction.value).Ok?
    ensures r.Ok? ==> r.value.name == raw.name.value && r.value.enabled == raw.enabled.value
                      && r.value.deviceAction == DecodeDeviceAction(raw.deviceAction.value).value
  {
    if raw.name.None? || raw.enabled.None? || raw.deviceAction.None? then Err(ParseFailed)
    else
      match DecodeDeviceAction(raw.deviceAction.value)
      case Err(e) => Err(e)
      case Ok(action) => Ok(EventActionSetting(raw.name.value, raw.enabled.value, action))
  }

  /** A list of event actions decodes only if every element does; the order is kept. */
  function DecodeEventActions(raws: seq<RawEventAction>): (r: Result<seq<EventActionSetting>, ConfigError>)
    ensures r.Ok? <==> forall i :: 0 <= i < |raws| ==> DecodeEventAction(raws[i]).Ok?
    ensures r.Ok? ==> |r.value| == |raws|
                      && forall i :: 0 <= i < |raws| ==> r.value[i] == DecodeEventAction(raws[i]).value
  {
    if raws == [] then Ok([])
    else
      match DecodeEventAction(raws[0])
      case Err(e) => Err(e)
      case Ok(first) =>
        match DecodeEventActions(raws[1..])
        case Err(e) => Err(e)
        case Ok(rest) => Ok([first] + rest)
  }

  /** Settings: the three scalar fields are required; a missing event-action list decodes as empty. */
  function DecodeSettings(raw: RawSettings): (r: Result<ApplicationSettings, ConfigError>)
    ensures r.Ok? <==> && raw.applicationName.Some? && raw.pollingIntervalMilliseconds.Some?
                       && raw.buttplugServerAddress.Some?
                       && (raw.eventActions.Some? ==> DecodeEventActions(raw.eventActions.value).Ok?)
    ensures r.Ok? ==> && r.value.applicationName == raw.applicationName.value
                      && r.value.pollingIntervalMilliseconds == raw.pollingIntervalMilliseconds.value
                      && r.value.buttplugServerAddress == raw.buttplugServerAddress.value
    ensures r.Ok? && raw.eventActions.Some? ==> r.value.eventActions == DecodeEventActions(raw.eventActions.value).value
    ensures raw.applicationName.Some? && raw.pollingIntervalMilliseconds.Some?
            && raw.buttplugServerAddress.Some? && raw.eventActions.None?
            ==> r.Ok? && r.value.eventActions == []
  {
    if raw.applicationName.None? || raw.pollingIntervalMilliseconds.None? || raw.buttplugServerAddress.None? then
      Err(ParseFailed)
    else
      var actions := match raw.eventActions case Some(list) => DecodeEventActions(list) case None => Ok([]);
      match actions
      case Err(e) => Err(e)
      case Ok(list) =>
        Ok(ApplicationSettings(
          raw.applicationName.value, raw.pollingIntervalMilliseconds.value, raw.buttplugServerAddress.value, list))
  }

  /** Serialisation writes every field. */
  function EncodeEventAction(e: EventActionSetting): RawEventAction {
    RawEventAction(Some(e.name), Some(e.enabled), Some(RawDeviceAction(
      Some(e.deviceAction.actionType), Some(e.deviceAction.intensity), Some(e.deviceAction.durationMilliseconds))))
  }

  function EncodeEventActions(es: seq<EventActionSetting>): (r: seq<RawEventAction>)
    ensures |r| == |es|
  {
    if es == [] then [] else [EncodeEventAction(es[0])] + EncodeEventActions(es[1..])
  }

  function EncodeSettings(s: ApplicationSettings): RawSettings {
    RawSettings(Some(s.applicationName), Some(s.pollingIntervalMilliseconds), Some(s.buttplugServerAddress),
                Some(EncodeEventActions(s.eventActions)))
  }

  lemma {:induction false} EventActionsRoundTrip(es: seq<EventActionSetting>)
    ensures DecodeEventActions(EncodeEventActions(es)) == Ok(es)
  {
    if es != [] {
      var raws := EncodeEventActions(es);
      EventActionsRoundTrip(es[1..]);
      assert raws[0] == EncodeEventAction(es[0]) && raws[1..] == EncodeEventActions(es[1..]);
      assert DecodeEventAction(raws[0]) == Ok(es[0]);
      assert [es[0]] + es[1..] == es;
    }
  }

  /** Whatever is written decodes back field for field, the list of event actions included. */
  lemma SettingsRoundTrip(s: ApplicationSettings)
    ensures DecodeSettings(EncodeSettings(s)) == Ok(s)
  {
    EventActionsRoundTrip(s.eventActions);
  }

  // ---------------------------------------------------------------------------------------------
  // Loading and saving. The store abstracts the platform configuration directory and the one
  // settings file in it; the serialised text is represented by the document it parses to.

  /** A settings file that exists: whether it can be read, and the document it parses to, if any. */
  datatype ConfigFile = ConfigFile(readable: bool, document: Option<RawSettings>)

  datatype ConfigStore = ConfigStore(directoryAvailable: bool, writable: bool, file: Option<ConfigFile>)

  /** `save_configuration`: resolve the directory, then write the whole settings file. */
  method SaveConfiguration(store: ConfigStore, settings: ApplicationSettings)
    returns (r: Result<(), ConfigError>, after: ConfigStore)
    ensures !store.directoryAvailable ==> r == Err(DirectoryUnavailable) && after == store
    ensures store.directoryAvailable && !store.writable ==> r == Err(WriteFailed) && after == store
    ensures r.Ok? <==> store.directoryAvailable && store.writable
    ensures r.Ok? ==> after == store.(file := Some(ConfigFile(true, Some(EncodeSettings(settings)))))
  {
    after := store;
    if !store.directoryAvailable {
      return Err(DirectoryUnavailable), after;
    }
    if !store.writable {
      return Err(WriteFailed), after;
    }
    after := store.(file := Some(ConfigFile(true, Some(EncodeSettings(settings)))));
    r := Ok(());
  }

  /**
   * `load_configuration`: with no file, write the defaults and return them (or the error of that
   * write); otherwise read and decode the file, returning an error rather than partial settings.
   */
  method LoadConfiguration(store: ConfigStore) returns (r: Result<ApplicationSettings, ConfigError>, after: ConfigStore)
    ensures !store.directoryAvailable ==> r == Err(DirectoryUnavailable) && after == store
    ensures store.directoryAvailable && store.file.None? && store.writable ==>
              r == Ok(DefaultSettings())
              && after == store.(file := Some(ConfigFile(true, Some(EncodeSettings(DefaultSettings())))))
    ensures store.directoryAvailable && store.file.None? && !store.writable ==> r == Err(WriteFailed) && after == store
    ensures store.file.Some? ==> after == store
    ensures store.directoryAvailable && store.file.Some? && !store.file.value.readable ==> r == Err(ReadFailed)
    ensures store.directoryAvailable && store.file.Some? && store.file.value.readable ==>
              r == match store.file.value.document
                   case None => Err(ParseFailed)
                   case Some(raw) => DecodeSettings(raw)
  {
    after := store;
    if !store.directoryAvailable {
      return Err(DirectoryUnavailable), after;
    }
    if store.file.None? {
      var defaults := DefaultSettings();
      var saved;
      saved, after := SaveConfiguration(store, defaults);
      if saved.Err? {
        return Err(saved.error), after;
      }
      return Ok(defaults), after;
    }
    var file := store.file.value;
    if !file.readable {
      return Err(ReadFailed), after;
    }
    match file.document {
      case None => r := Err(ParseFailed);
      case Some(raw) => r := DecodeSettings(raw);
    }
  }

  /** Saving then loading gives back the saved settings whenever the save succeeds. */
  method SaveThenLoad(store: ConfigStore, settings: ApplicationSettings)
    returns (saved: Result<(), ConfigError>, loaded: Result<ApplicationSettings, ConfigError>)
    ensures saved.Ok? <==> store.directoryAvailable && store.writable
    ensures saved.Ok? ==> loaded == Ok(settings)
  {
    var afterSave, afterLoad;
    saved, afterSave := SaveConfiguration(store, settings);
    loaded, afterLoad := LoadConfiguration(afterSave);
    if saved.Ok? {
      SettingsRoundTrip(settings);
    }
  }
}
