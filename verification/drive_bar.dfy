/** The drive control bar: which of its three buttons are lit, resolving
    each state from telemetry first and from the UI overrides otherwise. */
module DriveBar {
  import opened Optional
  import opened Schema
  import opened LightBits

  /** `telemetry?.aux.light_code ?? uiOverrides.light_code`. */
  function ResolvedLightCode(tel: Option<Telemetry>, ui: Overrides): (r: Option<LightCode>)
    ensures tel.Some? ==> r == Some(tel.value.aux.lightCode)
    ensures tel.None? ==> r == ui.lightCode
  {
    match tel
    case Some(t) => Some(t.aux.lightCode)
    case None => ui.lightCode
  }

  /** `telemetry?.motion.speed_mode ?? uiOverrides.speed_mode`. */
  function ResolvedSpeedMode(tel: Option<Telemetry>, ui: Overrides): (r: Option<SpeedMode>)
    ensures tel.Some? ==> r == Some(tel.value.motion.speedMode)
    ensures tel.None? ==> r == ui.speedMode
  {
    match tel
    case Some(t) => Some(t.motion.speedMode)
    case None => ui.speedMode
  }

  /** The horn is lit when the machine reports it sounding, the UI holds it,
      or the gamepad holds it. */
  function HornActive(tel: Option<Telemetry>, ui: Overrides, pad: DeviceControls): (r: bool)
    ensures r <==> (tel.Some? && tel.value.aux.hornStatus) || ui.horn == Some(true) || pad.horn
  {
    (tel.Some? && tel.value.aux.hornStatus) || Truthy(ui.horn) || pad.horn
  }

  /** `(code || 0) !== 0`. */
  function LightButtonActive(code: Option<LightCode>): (r: bool)
    ensures r <==> code.Some? && code.value != 0
  {
    Coalesce(code, 0) != 0
  }

  /** `mode === "rabbit"`. */
  function SpeedButtonActive(mode: Option<SpeedMode>): (r: bool)
    ensures r <==> mode == Some(Rabbit)
  {
    mode == Some(Rabbit)
  }

  /** The three lit states of the bar. */
  datatype BarView = BarView(light: bool, speed: bool, horn: bool)

  function View(tel: Option<Telemetry>, ui: Overrides, pad: DeviceControls): (v: BarView)
    ensures v.light == LightButtonActive(ResolvedLightCode(tel, ui))
    ensures v.speed == SpeedButtonActive(ResolvedSpeedMode(tel, ui))
    ensures v.horn == HornActive(tel, ui, pad)
  {
    BarView(LightButtonActive(ResolvedLightCode(tel, ui)),
            SpeedButtonActive(ResolvedSpeedMode(tel, ui)),
            HornActive(tel, ui, pad))
  }

  /** While telemetry is present, the UI's light and speed choices do not
      show: the light and speed buttons follow the machine alone. */
  lemma TelemetryOverridesUi(t: Telemetry, ui1: Overrides, ui2: Overrides, pad: DeviceControls)
    ensures View(Some(t), ui1, pad).light == View(Some(t), ui2, pad).light == (t.aux.lightCode != 0)
    ensures View(Some(t), ui1, pad).speed == View(Some(t), ui2, pad).speed == (t.motion.speedMode == Rabbit)
  {
  }

  /** Without telemetry the light and speed buttons show the UI's choices. */
  lemma NoTelemetryShowsUi(ui: Overrides, pad: DeviceControls)
    ensures View(None, ui, pad).light <==> ui.lightCode.Some? && ui.lightCode.value != 0
    ensures View(None, ui, pad).speed <==> ui.speedMode == Some(Rabbit)
  {
  }

  /** Any one source holding the horn lights it; none holding it leaves it dark. */
  lemma HornIsAnySource(tel: Option<Telemetry>, ui: Overrides, pad: DeviceControls)
    ensures pad.horn ==> View(tel, ui, pad).horn
    ensures ui.horn == Some(true) ==> View(tel, ui, pad).horn
    ensures (tel.None? || !tel.value.aux.hornStatus) && ui.horn != Some(true) && !pad.horn
            ==> !View(tel, ui, pad).horn
  {
  }
}
