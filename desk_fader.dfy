/**
 * The value mapping of the vertical fader in src/components/DeskFader.jsx:
 * a 320-pixel track with an 88-pixel handle, so the handle's top edge moves
 * over 232 pixels; offset 0 (top) is value 100 and offset 232 (bottom) is value 0.
 */
module DeskFader {
  import opened Wrappers
  import StrengthUtils

  const Height: real := 320.0
  const HandleHeight: real := 88.0
  /** The distance the handle's top edge can travel. */
  const Range: real := Height - HandleHeight

  /** `Math.min(100, Math.max(0, v))`: the same clamp as `clamp(v, 0, 100)`. */
  function ClampVal(v: real): (r: real)
    ensures 0.0 <= r <= 100.0
    ensures 0.0 <= v <= 100.0 ==> r == v
    ensures v < 0.0 ==> r == 0.0
    ensures 100.0 < v ==> r == 100.0
  {
    StrengthUtils.Clamp(v, 0.0, 100.0)
  }

  /** The handle's top offset for a value. */
  function PosFromVal(v: real): (y: real)
    ensures 0.0 <= v <= 100.0 ==> 0.0 <= y <= Range
  {
    Range - (v / 100.0) * Range
  }

  /** The value for a handle offset, clamped into [0, 100]. */
  function ValFromPos(y: real): (v: real)
    ensures 0.0 <= v <= 100.0
  {
    ClampVal(100.0 - (y / Range) * 100.0)
  }

  /** Value 100 sits at the top, value 0 at the bottom of the track. */
  lemma PosFromValEnds()
    ensures Range == 232.0
    ensures PosFromVal(100.0) == 0.0 && PosFromVal(0.0) == Range
  {
  }

  /** A louder value puts the handle strictly higher. */
  lemma PosFromValDecreasing(v: real, w: real)
    requires v < w
    ensures PosFromVal(w) < PosFromVal(v)
  {
    assert (w / 100.0) * Range - (v / 100.0) * Range == ((w - v) / 100.0) * Range;
  }

  /** Converting a value to an offset and back gives the value again. */
  lemma ValuePositionRoundTrip(v: real)
    requires 0.0 <= v <= 100.0
    ensures ValFromPos(PosFromVal(v)) == v
  {
    var y := PosFromVal(v);
    assert y / Range == 1.0 - v / 100.0;
  }

  /** Converting an on-track offset to a value and back gives the offset again. */
  lemma PositionValueRoundTrip(y: real)
    requires 0.0 <= y <= Range
    ensures PosFromVal(ValFromPos(y)) == y
  {
    var v := 100.0 - (y / Range) * 100.0;
    assert 0.0 <= v <= 100.0;
    assert (v / 100.0) * Range == Range - y;
  }

  /** The self-check run when the fader mounts: the round trip is exact at 0, 25, 50, 75 and 100. */
  lemma SamplePointsRoundTrip()
    ensures forall v :: v in [0.0, 25.0, 50.0, 75.0, 100.0] ==> ValFromPos(PosFromVal(v)) == v
  {
    forall v | v in [0.0, 25.0, 50.0, 75.0, 100.0] ensures ValFromPos(PosFromVal(v)) == v {
      ValuePositionRoundTrip(v);
    }
  }

  /**
   * A press or drag at `clientY`: the offset is the mouse's distance below the
   * track's top minus half the handle, clamped onto the track, then converted.
   * `trackTop` is None while the track element is not mounted (nothing is reported).
   */
  function SetFromEvent(trackTop: Option<real>, clientY: real): (r: Option<real>)
    ensures r.Some? <==> trackTop.Some?
    ensures r.Some? ==> 0.0 <= r.value <= 100.0
    ensures r.Some? && 0.0 <= clientY - trackTop.value - HandleHeight / 2.0 <= Range ==>
              PosFromVal(r.value) == clientY - trackTop.value - HandleHeight / 2.0
    ensures r.Some? && clientY - trackTop.value - HandleHeight / 2.0 < 0.0 ==> r.value == 100.0
    ensures r.Some? && Range < clientY - trackTop.value - HandleHeight / 2.0 ==> r.value == 0.0
  {
    match trackTop
    case None => None
    case Some(top) =>
      var raw := clientY - top - HandleHeight / 2.0;
      var y := if raw < 0.0 then 0.0 else if Range < raw then Range else raw;
      PositionValueRoundTrip(y);
      Some(ValFromPos(y))
  }

  /**
   * Keyboard control: ArrowUp / ArrowDown step by 2 (clamped), Home gives 0,
   * End gives 100; None stands for "no change reported" on any other key.
   */
  function OnKeyDown(key: string, value: real): (r: Option<real>)
    ensures r.Some? <==> key in {"ArrowUp", "ArrowDown", "Home", "End"}
    ensures r.Some? ==> 0.0 <= r.value <= 100.0
    ensures key == "ArrowUp" && -2.0 <= value <= 98.0 ==> r == Some(value + 2.0)
    ensures key == "ArrowUp" && 98.0 < value ==> r == Some(100.0)
    ensures key == "ArrowDown" && 2.0 <= value <= 102.0 ==> r == Some(value - 2.0)
    ensures key == "ArrowDown" && value < 2.0 ==> r == Some(0.0)
    ensures key == "ArrowDown" && 102.0 < value ==> r == Some(100.0)
    ensures key == "ArrowUp" && value < -2.0 ==> r == Some(0.0)
    ensures key == "Home" ==> r == Some(0.0)
    ensures key == "End" ==> r == Some(100.0)
  {
    if key == "ArrowUp" then Some(ClampVal(value + 2.0))
    else if key == "ArrowDown" then Some(ClampVal(value - 2.0))
    else if key == "Home" then Some(0.0)
    else if key == "End" then Some(100.0)
    else None
  }

  /** Away from the ends, one step up followed by one step down returns to the same value. */
  lemma StepUpThenDown(value: real)
    requires 0.0 <= value <= 98.0
    ensures OnKeyDown("ArrowUp", value).Some?
    ensures OnKeyDown("ArrowDown", OnKeyDown("ArrowUp", value).value) == Some(value)
  {
  }

  /**
   * The "blind spot" warning shows from value 95 upwards: for a value on the
   * scale, that is when the handle sits in the top 11.6 pixels of its travel.
   */
  predicate TooLoud(value: real): (loud: bool)
    ensures 0.0 <= value <= 100.0 ==> (loud <==> PosFromVal(value) <= 11.6)
    ensures 100.0 < value ==> loud
    ensures value < 0.0 ==> !loud
  {
    value >= 95.0
  }

  /** The warning shows exactly when the handle is within the top 5% of its travel (11.6 px). */
  lemma TooLoudNearTop(y: real)
    requires 0.0 <= y <= Range
    ensures PosFromVal(95.0) == 11.6
    ensures TooLoud(ValFromPos(y)) <==> y <= PosFromVal(95.0)
  {
    assert 100.0 - (y / Range) * 100.0 >= 95.0 <==> y / Range <= 0.05;
    assert y / Range <= 0.05 <==> y <= 0.05 * Range;
  }
}
