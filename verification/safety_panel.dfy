/** The safety indicators: hydraulic lock and parking brake, shown as
    engaged unless telemetry says otherwise. */
module SafetyPanel {
  import opened Optional
  import opened Schema

  /** `telemetry?.safety.hydraulic_lock ?? true`. */
  function HydraulicLocked(tel: Option<Telemetry>): (r: bool)
    ensures tel.None? ==> r
    ensures tel.Some? ==> r == tel.value.safety.hydraulicLock
  {
    tel.None? || tel.value.safety.hydraulicLock
  }

  /** `telemetry?.safety.parking_brake ?? true`. */
  function ParkingBrakeApplied(tel: Option<Telemetry>): (r: bool)
    ensures tel.None? ==> r
    ensures tel.Some? ==> r == tel.value.safety.parkingBrake
  {
    tel.None? || tel.value.safety.parkingBrake
  }

  /** The icons the panel shows. */
  datatype Panel = Panel(lockIcon: bool, brakeIcon: bool)

  /** The rendered panel, or None when the component renders nothing. */
  function Render(tel: Option<Telemetry>): (p: Option<Panel>)
    ensures p.None? <==> !HydraulicLocked(tel) && !ParkingBrakeApplied(tel)
    ensures p.Some? ==> p.value.lockIcon == HydraulicLocked(tel)
    ensures p.Some? ==> p.value.brakeIcon == ParkingBrakeApplied(tel)
  {
    var locked := HydraulicLocked(tel);
    var brake := ParkingBrakeApplied(tel);
    if !locked && !brake then None else Some(Panel(locked, brake))
  }

  /** Fail-safe: with no telemetry both the lock and the brake are shown. */
  lemma NoTelemetryShowsBoth()
    ensures Render(None) == Some(Panel(true, true))
  {
  }

  /** A rendered panel always shows at least one icon, and an icon shows
      exactly when telemetry reports it engaged (or there is no telemetry). */
  lemma IconsMatchTelemetry(t: Telemetry)
    ensures Render(Some(t)).Some? ==> Render(Some(t)).value.lockIcon || Render(Some(t)).value.brakeIcon
    ensures Render(Some(t)).Some? <==> t.safety.hydraulicLock || t.safety.parkingBrake
    ensures Render(Some(t)).Some? ==>
      Render(Some(t)).value == Panel(t.safety.hydraulicLock, t.safety.parkingBrake)
  {
  }
}
