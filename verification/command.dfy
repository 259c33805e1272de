/** The command loop: whenever the controls, the channel or the UI
    overrides change, merge the device controls with the overrides field by
    field and send the result on the data channel if it is open. */
module Command {
  import opened Optional
  import opened Schema
  import opened LightBits

  /** `RTCDataChannel.readyState`. */
  datatype ChannelState = ChanConnecting | ChanOpen | ChanClosing | ChanClosed

  datatype DeviceType = ExcavatorDevice | WheelLoaderDevice

  /** The message sent to the machine. `timestamp` is the wall-clock time of
      the run, supplied by the caller. */
  datatype Message = Message(
    deviceType: DeviceType,
    timestamp: int,
    leftTrack: real,
    rightTrack: real,
    swing: real,
    boom: real,
    stick: real,
    bucket: real,
    rotation: real,
    steering: real,
    throttle: real,
    brake: real,
    gear: string,
    emergencyStop: bool,
    parkingBrake: bool,
    horn: bool,
    speedMode: SpeedMode,
    lightCode: LightCode,
    hydraulicLock: bool,
    powerEnable: bool)

  /** `overrides?.gear || controls.gear`: a present, non-empty UI gear wins. */
  function MergeGear(device: string, ui: Option<string>): (r: string)
    ensures ui.Some? && ui.value != "" ==> r == ui.value
    ensures ui.None? || ui.value == "" ==> r == device
  {
    if ui.Some? && ui.value != "" then ui.value else device
  }

  /** Rabbit when either side says rabbit, else turtle. */
  function MergeSpeedMode(device: SpeedMode, ui: Option<SpeedMode>): (r: SpeedMode)
    ensures r == Rabbit <==> device == Rabbit || ui == Some(Rabbit)
  {
    if ui == Some(Rabbit) || device == Rabbit then Rabbit else Turtle
  }

  /** `controls.light_code | (overrides?.light_code || 0)`: an absent UI code
      contributes no bits, a present one is OR-ed in. */
  function MergeLight(device: LightCode, ui: Option<LightCode>): (r: LightCode)
    ensures ui.None? ==> r == device
    ensures ui.Some? ==> r == BitUnion(device, ui.value)
  {
    match ui
    case None => device
    case Some(u) => BitUnion(device, u)
  }

  /** The per-field merge policy. */
  function Merge(d: DeviceControls, o: Overrides, now: int): (m: Message)
    ensures m.deviceType == ExcavatorDevice && m.timestamp == now && m.rotation == 0.0
    ensures m.emergencyStop <==> d.emergencyStop || Truthy(o.emergencyStop)
    ensures m.parkingBrake <==> d.parkingBrake || Truthy(o.parkingBrake)
    ensures m.horn <==> d.horn || Truthy(o.horn)
    ensures m.gear == MergeGear(d.gear, o.gear)
    ensures m.speedMode == MergeSpeedMode(d.speedMode, o.speedMode)
    ensures m.lightCode == MergeLight(d.lightCode, o.lightCode)
    ensures m.hydraulicLock == d.hydraulicLock && m.powerEnable == d.powerEnable
  {
    Message(
      deviceType := ExcavatorDevice,
      timestamp := now,
      leftTrack := d.leftTrack,
      rightTrack := d.rightTrack,
      swing := d.swing,
      boom := d.boom,
      stick := d.stick,
      bucket := d.bucket,
      rotation := 0.0,
      steering := d.steering,
      throttle := d.throttle,
      brake := d.brake,
      gear := MergeGear(d.gear, o.gear),
      emergencyStop := d.emergencyStop || Truthy(o.emergencyStop),
      parkingBrake := d.parkingBrake || Truthy(o.parkingBrake),
      horn := d.horn || Truthy(o.horn),
      speedMode := MergeSpeedMode(d.speedMode, o.speedMode),
      lightCode := MergeLight(d.lightCode, o.lightCode),
      hydraulicLock := d.hydraulicLock,
      powerEnable := d.powerEnable)
  }

  /** One run of the effect: the messages sent on the channel. */
  function Dispatch(channel: Option<ChannelState>, d: DeviceControls, o: Overrides, now: int): (sent: seq<Message>)
    ensures channel != Some(ChanOpen) ==> sent == []
    ensures channel == Some(ChanOpen) ==> |sent| == 1
    ensures forall m | m in sent :: m == Merge(d, o, now)
  {
    if channel == Some(ChanOpen) then [Merge(d, o, now)] else []
  }
}
