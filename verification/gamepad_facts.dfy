/** Properties of the dead-zone filter and of the dual-joystick mapping. */
module GamepadFacts {
  import opened Optional
  import opened Gamepad

  /** Filtering twice is filtering once. */
  lemma NormalizeIdempotent(v: real)
    ensures Normalize(Normalize(v)) == Normalize(v)
  {
  }

  /** The threshold itself is inside the dead-zone, on both sides. */
  lemma NormalizeBoundary()
    ensures Normalize(0.1) == 0.0 && Normalize(-0.1) == 0.0
    ensures Normalize(0.11) == 0.11 && Normalize(-0.11) == -0.11
  {
  }

  /** The filter never flips a reading's sign. */
  lemma NormalizePreservesSign(v: real)
    ensures v >= 0.0 ==> Normalize(v) >= 0.0
    ensures v <= 0.0 ==> Normalize(v) <= 0.0
  {
  }

  /** A stick reading of 0.03 is sent as exactly 0. */
  lemma SmallSwingIsZero(pads: seq<Option<Pad>>)
    requires |pads| > LeftPadIndex && pads[LeftPadIndex].Some?
    requires |pads[LeftPadIndex].value.axes| > SwingAxis
    requires pads[LeftPadIndex].value.axes[SwingAxis] == 0.03
    ensures Poll(pads).swing == 0.0
  {
  }

  /** Without the left gamepad, swing, stick and left track are 0. */
  lemma LeftPadAbsent(pads: seq<Option<Pad>>)
    requires PadAt(pads, LeftPadIndex).None?
    ensures Poll(pads).swing == 0.0 && Poll(pads).stick == 0.0 && Poll(pads).leftTrack == 0.0
  {
  }

  /** Without the right gamepad, bucket, boom and right track are 0. */
  lemma RightPadAbsent(pads: seq<Option<Pad>>)
    requires PadAt(pads, RightPadIndex).None?
    ensures Poll(pads).bucket == 0.0 && Poll(pads).boom == 0.0 && Poll(pads).rightTrack == 0.0
  {
  }

  /** With two gamepads of at least seven axes: swing, stick and left track
      are left axes 0, 1 and 6; bucket, boom and right track are right axes
      0, 1 and 6, each filtered. */
  lemma AxisMapping(left: seq<real>, right: seq<real>, rest: seq<Option<Pad>>)
    requires |left| >= 7 && |right| >= 7
    ensures var c := Poll([Some(Pad(left)), Some(Pad(right))] + rest);
      && c.swing == Normalize(left[0]) && c.stick == Normalize(left[1])
      && c.leftTrack == Normalize(left[6])
      && c.bucket == Normalize(right[0]) && c.boom == Normalize(right[1])
      && c.rightTrack == Normalize(right[6])
  {
    var pads := [Some(Pad(left)), Some(Pad(right))] + rest;
    assert PadAt(pads, 0) == Some(Pad(left)) && PadAt(pads, 1) == Some(Pad(right));
  }

  /** A gamepad reporting fewer than seven axes leaves its track at 0. */
  lemma ShortPadGivesStillTrack(pads: seq<Option<Pad>>)
    requires PadAt(pads, LeftPadIndex).Some?
    requires |PadAt(pads, LeftPadIndex).value.axes| <= LeftTrackAxis
    ensures Poll(pads).leftTrack == 0.0
  {
  }

  predicate InUnitRange(x: real) {
    -1.0 <= x <= 1.0
  }

  predicate PadInRange(p: Option<Pad>) {
    p.Some? ==> forall i | 0 <= i < |p.value.axes| :: InUnitRange(p.value.axes[i])
  }

  predicate ControlsInRange(c: Controls) {
    && InUnitRange(c.leftTrack) && InUnitRange(c.rightTrack) && InUnitRange(c.swing)
    && InUnitRange(c.boom) && InUnitRange(c.stick) && InUnitRange(c.bucket)
  }

  /** Readings in [-1, 1] give controls in [-1, 1]. */
  lemma PollStaysInRange(pads: seq<Option<Pad>>)
    requires forall i | 0 <= i < |pads| :: PadInRange(pads[i])
    ensures ControlsInRange(Poll(pads))
  {
    assert PadInRange(PadAt(pads, LeftPadIndex));
    assert PadInRange(PadAt(pads, RightPadIndex));
  }

  /** Frames in which neither gamepad is connected keep the hook at its
      all-zero starting state. */
  lemma AbsentPadsKeepNeutral(frames: seq<seq<Option<Pad>>>)
    requires forall i | 0 <= i < |frames| ::
      PadAt(frames[i], LeftPadIndex).None? && PadAt(frames[i], RightPadIndex).None?
    ensures Run(Neutral, frames) == Neutral
  {
    if frames != [] {
      var last := frames[|frames| - 1];
      assert PadAt(last, LeftPadIndex).None? && PadAt(last, RightPadIndex).None?;
    }
  }
}
