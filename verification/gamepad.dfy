/** The dual-joystick input hook: on every animation frame it reads two
    gamepads and builds a fresh six-axis controls record, each axis passed
    through a dead-zone filter. */
module Gamepad {
  import opened Optional

  /** Magnitudes at or below this are treated as a centred stick. */
  const Deadzone: real := 0.1

  /** Which gamepad and which axis feeds each field. */
  const LeftPadIndex: nat := 0
  const SwingAxis: nat := 0
  const StickAxis: nat := 1
  const LeftTrackAxis: nat := 6
  const RightPadIndex: nat := 1
  const BucketAxis: nat := 0
  const BoomAxis: nat := 1
  const RightTrackAxis: nat := 6

  /** A connected gamepad, reduced to its axis readings. */
  datatype Pad = Pad(axes: seq<real>)

  /** The six excavator axes the hook produces. */
  datatype Controls = Controls(
    leftTrack: real,
    rightTrack: real,
    swing: real,
    boom: real,
    stick: real,
    bucket: real)

  /** The hook's initial state. */
  const Neutral: Controls := Controls(0.0, 0.0, 0.0, 0.0, 0.0, 0.0)

  function Abs(x: real): (r: real)
    ensures r >= 0.0 && (r == x || r == -x)
  {
    if x < 0.0 then -x else x
  }

  /** The dead-zone filter: a reading passes unchanged when its magnitude
      exceeds the dead-zone, and becomes exactly 0 otherwise. */
  function Normalize(v: real): (r: real)
    ensures r == v || r == 0.0
    ensures r != 0.0 <==> Abs(v) > Deadzone
    ensures Abs(r) <= Abs(v)
  {
    if Abs(v) > Deadzone then v else 0.0
  }

  /** Reading axis `i`: past the end of the array the reading is
      `undefined`, whose magnitude compares false against the dead-zone, so
      the filtered value is 0. */
  function AxisValue(axes: seq<real>, i: nat): (r: real)
    ensures i < |axes| ==> r == Normalize(axes[i])
    ensures i >= |axes| ==> r == 0.0
  {
    if i < |axes| then Normalize(axes[i]) else 0.0
  }

  /** Slot `i` of `navigator.getGamepads()`: an empty slot or an index past
      the end both read as no gamepad. */
  function PadAt(pads: seq<Option<Pad>>, i: nat): (r: Option<Pad>)
    ensures i < |pads| ==> r == pads[i]
    ensures i >= |pads| ==> r == None
  {
    if i < |pads| then pads[i] else None
  }

  /** One axis of one gamepad, 0 when the gamepad is absent. */
  function Read(pad: Option<Pad>, axis: nat): real {
    if pad.Some? then AxisValue(pad.value.axes, axis) else 0.0
  }

  /** One frame: the whole controls record built from the current gamepads. */
  function Poll(pads: seq<Option<Pad>>): (c: Controls)
    ensures var left := PadAt(pads, LeftPadIndex);
      && c.swing == Read(left, SwingAxis)
      && c.stick == Read(left, StickAxis)
      && c.leftTrack == Read(left, LeftTrackAxis)
    ensures var right := PadAt(pads, RightPadIndex);
      && c.bucket == Read(right, BucketAxis)
      && c.boom == Read(right, BoomAxis)
      && c.rightTrack == Read(right, RightTrackAxis)
  {
    var left := PadAt(pads, LeftPadIndex);
    var right := PadAt(pads, RightPadIndex);
    Controls(
      leftTrack := Read(left, LeftTrackAxis),
      rightTrack := Read(right, RightTrackAxis),
      swing := Read(left, SwingAxis),
      boom := Read(right, BoomAxis),
      stick := Read(left, StickAxis),
      bucket := Read(right, BucketAxis))
  }

  /** The hook's state after a sequence of frames, starting from `c`. Each
      frame replaces the whole record, so after at least one frame the state
      is what the last frame alone gives: nothing carries over from an
      earlier frame or from the starting state. */
  function Run(c: Controls, frames: seq<seq<Option<Pad>>>): (r: Controls)
    ensures frames == [] ==> r == c
    ensures frames != [] ==> r == Poll(frames[|frames| - 1])
    decreases |frames|
  {
    if frames == [] then c else Run(Poll(frames[0]), frames[1..])
  }
}
