/** Properties of the per-field merge policy and of the send guard. */
module CommandFacts {
  import opened Optional
  import opened Schema
  import opened Command
  import opened LightBits

  /** The continuous axes are the device's, whatever the overrides say. */
  predicate AxesFromDevice(d: DeviceControls, m: Message) {
    && m.leftTrack == d.leftTrack && m.rightTrack == d.rightTrack
    && m.swing == d.swing && m.boom == d.boom && m.stick == d.stick && m.bucket == d.bucket
    && m.steering == d.steering && m.throttle == d.throttle && m.brake == d.brake
  }

  /** Overrides never affect a continuous axis. */
  lemma OverridesNeverMoveAxes(d: DeviceControls, o1: Overrides, o2: Overrides, now: int)
    ensures AxesFromDevice(d, Merge(d, o1, now))
    ensures AxesFromDevice(d, Merge(d, o2, now))
    ensures Merge(d, o1, now).swing == Merge(d, o2, now).swing
  {
  }

  /** Overrides never affect the hydraulic lock or power enable. */
  lemma OverridesNeverTouchLockOrPower(d: DeviceControls, o1: Overrides, o2: Overrides, now: int)
    ensures Merge(d, o1, now).hydraulicLock == Merge(d, o2, now).hydraulicLock == d.hydraulicLock
    ensures Merge(d, o1, now).powerEnable == Merge(d, o2, now).powerEnable == d.powerEnable
  {
  }

  /** An asserted safety condition is never dropped: each of emergency stop,
      parking brake and horn is on in the message whenever either source
      asserts it, and off only when neither does. */
  lemma SafetyFlagsAreOred(d: DeviceControls, o: Overrides, now: int)
    ensures Merge(d, o, now).emergencyStop == (d.emergencyStop || o.emergencyStop == Some(true))
    ensures Merge(d, o, now).parkingBrake == (d.parkingBrake || o.parkingBrake == Some(true))
    ensures Merge(d, o, now).horn == (d.horn || o.horn == Some(true))
  {
  }

  /** A UI emergency stop reaches the machine even when the device says no. */
  lemma UiEmergencyStopWins(d: DeviceControls, o: Overrides, now: int)
    requires !d.emergencyStop && o.emergencyStop == Some(true)
    ensures Merge(d, o, now).emergencyStop
  {
  }

  /** The merged light code is the union of the device code and the UI
      code, an absent UI code counting as 0; with `LightBits.UnionBitIff`,
      neither source can clear a bit set by the other and no bit appears
      that neither set. */
  lemma LightIsUnionOfSources(d: DeviceControls, o: Overrides, now: int)
    ensures Merge(d, o, now).lightCode == BitUnion(d.lightCode, Coalesce(o.lightCode, 0))
  {
    match o.lightCode
    case None => UnionWithNone(d.lightCode);
    case Some(u) =>
  }

  /** The work light bit 0x10 from the UI survives any device light code. */
  lemma UiWorkLightSurvives(d: DeviceControls, o: Overrides, now: int)
    requires o.lightCode == Some(0x10)
    ensures Merge(d, o, now).lightCode & 0x10 == 0x10
  {
    assert Merge(d, o, now).lightCode == BitUnion(d.lightCode, 0x10);
  }

  /** The UI gear wins whenever it is present and non-empty, `N` included;
      otherwise the device gear is sent. */
  lemma GearPolicy(d: DeviceControls, o: Overrides, now: int)
    ensures o.gear == Some("N") ==> Merge(d, o, now).gear == "N"
    ensures Merge(d, o, now).gear == d.gear || (o.gear.Some? && Merge(d, o, now).gear == o.gear.value)
    ensures o.gear.None? ==> Merge(d, o, now).gear == d.gear
  {
  }

  /** With no overrides at all, the message is the device record verbatim
      (plus the fixed tags). */
  lemma NoOverridesSendsDevice(d: DeviceControls, now: int)
    ensures var m := Merge(d, NoOverrides, now);
      && AxesFromDevice(d, m)
      && m.gear == d.gear && m.speedMode == d.speedMode && m.lightCode == d.lightCode
      && m.emergencyStop == d.emergencyStop && m.parkingBrake == d.parkingBrake
      && m.horn == d.horn
  {
  }

  /** Nothing is sent without a channel or while it is not open; when it is
      open exactly the merged command is sent, once. */
  lemma SendGuard(channel: Option<ChannelState>, d: DeviceControls, o: Overrides, now: int)
    ensures Dispatch(channel, d, o, now) == [] <==> channel != Some(ChanOpen)
    ensures channel == Some(ChanOpen) ==> Dispatch(channel, d, o, now) == [Merge(d, o, now)]
  {
  }
}
