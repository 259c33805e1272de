/** Record types shared by the input hook, the command merge and the display
    components: the wide controls record the merge reads, the sparse UI
    override record, and the telemetry frame the display components read. */
module Schema {
  import opened Optional
  import opened LightBits

  /** `speed_mode`: 'turtle' | 'rabbit'. */
  datatype SpeedMode = Turtle | Rabbit

  /** The controls record as the command merge reads it. The input hook of
      this revision fills only the six excavator axes; the other fields are
      taken here as inputs. */
  datatype DeviceControls = DeviceControls(
    leftTrack: real,
    rightTrack: real,
    swing: real,
    boom: real,
    stick: real,
    bucket: real,
    steering: real,
    throttle: real,
    brake: real,
    gear: string,
    emergencyStop: bool,
    parkingBrake: bool,
    horn: bool,
    speedMode: SpeedMode,
    lightCode: LightCode,
    hydraulicLock: bool,
    powerEnable: bool)

  /** A partial controls record supplied by the UI: an absent field is
      "no opinion". */
  datatype Overrides = Overrides(
    leftTrack: Option<real>,
    rightTrack: Option<real>,
    swing: Option<real>,
    boom: Option<real>,
    stick: Option<real>,
    bucket: Option<real>,
    steering: Option<real>,
    throttle: Option<real>,
    brake: Option<real>,
    gear: Option<string>,
    emergencyStop: Option<bool>,
    parkingBrake: Option<bool>,
    horn: Option<bool>,
    speedMode: Option<SpeedMode>,
    lightCode: Option<LightCode>,
    hydraulicLock: Option<bool>,
    powerEnable: Option<bool>)

  /** Overrides with no opinion on any field. */
  const NoOverrides: Overrides :=
    Overrides(None, None, None, None, None, None, None, None, None,
              None, None, None, None, None, None, None, None)

  /** The parts of a telemetry frame the display components read. */
  datatype SafetyBlock = SafetyBlock(hydraulicLock: bool, parkingBrake: bool)
  datatype MotionBlock = MotionBlock(speedMode: SpeedMode)
  datatype AuxBlock = AuxBlock(lightCode: LightCode, hornStatus: bool)
  /** `drive.gear` is the numeric gear code, `drive.spd_mode` a one-letter mode. */
  datatype DriveBlock = DriveBlock(gear: int, speed: real, spdMode: string)

  datatype Telemetry = Telemetry(
    safety: SafetyBlock,
    motion: MotionBlock,
    aux: AuxBlock,
    drive: DriveBlock)
}
