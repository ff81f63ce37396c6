/**
 * The timing and distance rules of the controller: pitch clamping, the
 * double-press window of the fly and run toggles, the wheel rate limit and
 * the classification of a touch into tap, long press and drag.
 */
module Gestures {
  import opened Wrappers

  /** `Math.PI / 2`, as the double the source compares against. */
  const HalfPi: real := 1.5707963267948966

  /** The distance between two reals. */
  function Dist(a: real, b: real): real {
    if a < b then b - a else a - b
  }

  /** The pitch clamp of `mousemove`. */
  function ClampPitch(p: real): (r: real)
    ensures -HalfPi <= r <= HalfPi
    ensures forall q :: -HalfPi <= q <= HalfPi ==> Dist(r, p) <= Dist(q, p)
  {
    if p > HalfPi then HalfPi else if p < -HalfPi then -HalfPi else p
  }

  /** The window, in milliseconds, a second press must fall in to toggle. */
  const DoublePressMin: int := 90
  const DoublePressMax: int := 250

  /** The double-press test of `keydown`. A timestamp that was never set is
      `undefined` in the source, and every comparison with it is false. */
  predicate IsDoublePress(prevDown: Option<int>, prevUp: Option<int>, now: int) {
    && prevDown.Some? && prevUp.Some?
    && prevDown.value - prevUp.value < 0
    && now - prevDown.value > DoublePressMin
    && now - prevDown.value < DoublePressMax
  }

  /** The rule in words: the previous press was let go, and the new press
      comes strictly between 90 ms and 250 ms after it. */
  lemma DoublePressMeaning(prevDown: Option<int>, prevUp: Option<int>, now: int)
    ensures prevDown.None? ==> !IsDoublePress(prevDown, prevUp, now)
    ensures prevDown.Some? && prevUp.Some? ==>
      (IsDoublePress(prevDown, prevUp, now) <==>
        prevDown.value < prevUp.value && prevDown.value + 90 < now < prevDown.value + 250)
    ensures prevDown.Some? && prevUp.Some? && prevUp.value <= prevDown.value ==> !IsDoublePress(prevDown, prevUp, now)
  {
  }

  /** Gaps of 80 ms and 260 ms do not toggle, 150 ms does, and 150 ms with
      no release in between does not. */
  lemma DoublePressExamples()
    ensures !IsDoublePress(Some(1000), Some(1040), 1080)
    ensures !IsDoublePress(Some(1000), Some(1040), 1260)
    ensures IsDoublePress(Some(1000), Some(1040), 1150)
    ensures !IsDoublePress(Some(1000), Some(900), 1150)
  {
  }

  /** Wheel events closer than this many milliseconds to the last one that
      was acted on are ignored. */
  const WheelInterval: int := 100

  predicate WheelRateLimited(lastWheel: Option<int>, now: int) {
    lastWheel.Some? && now - lastWheel.value < WheelInterval
  }

  /** A touch shorter than this many milliseconds is a tap. */
  const TapDuration: real := 150.0

  /** Accumulated movement, in pixels, from which a touch is a drag. */
  const DragDistance: real := 10.0

  /** The mouse events the touch emulation synthesizes. Moves are applied
      directly and not listed here. */
  datatype MouseEvt = ButtonDown(button: int) | ButtonUp(button: int)

  /** What `touchend` synthesizes: a secondary click for a tap, else the
      primary release that ends a long press, if one fired. */
  function TouchEndEvents(duration: real, destroying: bool): (es: seq<MouseEvt>)
    ensures duration < TapDuration <==> es == [ButtonDown(2), ButtonUp(2)]
    ensures es == [ButtonUp(0)] <==> !(duration < TapDuration) && destroying
    ensures es == [] <==> !(duration < TapDuration) && !destroying
  {
    if duration < TapDuration then [ButtonDown(2), ButtonUp(2)]
    else if destroying then [ButtonUp(0)]
    else []
  }

  /** What the long-press timer synthesizes when it fires. */
  function LongPressEvents(moveLen: real): (es: seq<MouseEvt>)
    ensures es != [] <==> moveLen < DragDistance
    ensures es != [] ==> es == [ButtonDown(0)]
  {
    if moveLen < DragDistance then [ButtonDown(0)] else []
  }
}
