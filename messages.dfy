/**
 * The values that travel between the three units of the application
 * (src/message_passing.rs): commands from the coordinator to the workers, updates from the
 * workers to the coordinator, and the payloads they carry.
 */
module Messages {
  import opened Wrappers
  import opened Configuration

  /** The actuator kinds of the haptic protocol's scalar command. */
  datatype ActuatorType = Unknown | Vibrate | Rotate | Oscillate | Constrict | Inflate | Position

  /** One scalar-command feature of a device: its actuator kind and the feature's own index. */
  datatype Feature = Feature(actuator: ActuatorType, featureIndex: nat)

  /**
   * A device handle as the backend hands it out. Its identity is the backend-assigned index;
   * a device that exposes no scalar-command attributes has no features.
   */
  datatype Device = Device(backendIndex: nat, name: string, features: seq<Feature>)

  /** One telemetry snapshot; every field may be missing. `f32` values are modelled as reals. */
  datatype Indicators = Indicators(
    vehicleType: Option<string>,
    speed: Option<real>,
    altitude10k: Option<real>,
    rpmThrottle: Option<real>,
    healthPercentage: Option<real>)

  /** Log lines, kept as tokens: only which event is logged, in which order, matters here. */
  datatype LogToken =
    | ApplicationStarted
    | InProcessConnected
    | ScanningStarted
    | DisconnectedOnCommand
    | ServerWentAway
    | PingTimedOut
    | PollingIntervalChanged(milliseconds: nat)
    | PollingStopped
    | DamageDetected(health: real)
    | TelemetryParseFailed(detail: string)
    | ButtplugServerConnected
    | ButtplugServerDisconnected
    | DeviceListed(listedIndex: nat)
    | DeviceDropped(droppedIndex: nat)
    | ButtplugFailure(detail: string)
    | SettingsApplied
    | GameEventVibration(targetIndex: nat, intensity: real, durationMilliseconds: nat)
    | ProcessingEnabled
    | ProcessingDisabled
    | EventActionDeleted(position: nat)
    | EventActionAdded
    | EventActionNameEmpty

  /** Coordinator to worker. Device positions are offsets into the receiver's device list. */
  datatype Command =
    | StartProcessing
    | StopProcessing
    | UpdateApplicationSettings(settings: ApplicationSettings)
    | VibrateDevice(deviceIndex: nat, speed: real)
    | StopDevice(position: nat)
    | ScanForButtplugDevices
    | DisconnectButtplug

  /** Worker to coordinator. */
  datatype Update =
    | LogMessage(message: LogToken)
    | WarThunderIndicatorsUpdate(indicators: Indicators)
    | WarThunderConnectionStatus(connected: bool)
    | ButtplugConnected
    | ButtplugDisconnected
    | ButtplugDeviceFound(found: Device)
    | ButtplugDeviceLost(lost: Device)
    | ButtplugError(reason: string)
    | ApplicationSettingsLoaded(loaded: ApplicationSettings)
}
