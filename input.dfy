/**
 * Input fusion in js/bg.js: pointer moves and device-orientation samples both
 * steer one 2D vector, `mouse`, that the shader reads every frame.
 * `motion` is the orientation baseline the next sample is compared with.
 */
module Input {
  datatype Vec2 = Vec2(x: real, y: real)

  /** The two arrays `mouse` and `motion`, as values. */
  datatype Pointer = Pointer(mouse: Vec2, motion: Vec2)

  /** `mouse = [0.5, 0.5]`, `motion = [0, 0]`. */
  const InitialPointer: Pointer := Pointer(Vec2(0.5, 0.5), Vec2(0.0, 0.0))

  /** A sample whose deltas are both below this is sensor noise. */
  const NoiseFloor: real := 0.2
  /** The dead zone subtracted from each delta. */
  const DeadZone: real := 0.15
  /** The share of an adjusted delta that reaches `mouse`. */
  const Gain: real := 0.05

  function Abs(r: real): (a: real)
    ensures a >= 0.0 && (a == r || a == -r)
  {
    if r < 0.0 then -r else r
  }

  /** JavaScript's `Math.sign`. */
  function Sign(r: real): (s: real)
    ensures s * r == Abs(r)
    ensures s == 0.0 <==> r == 0.0
    ensures s == 1.0 || s == -1.0 || s == 0.0
  {
    if r > 0.0 then 1.0 else if r < 0.0 then -1.0 else 0.0
  }

  /**
   * The `mousemove` handler: page coordinates divided by the client height,
   * y flipped. No clamping. The ensures gives the inverse: the event's
   * coordinates are recovered from the vector.
   */
  function PointerMove(pageX: real, pageY: real, clientHeight: nat): (m: Vec2)
    requires clientHeight > 0
    ensures m.x * clientHeight as real == pageX
    ensures (1.0 - m.y) * clientHeight as real == pageY
  {
    Vec2(pageX / clientHeight as real, 1.0 - pageY / clientHeight as real)
  }

  /** Both axis deltas of the reading (x, y) against the baseline are below the noise floor. */
  predicate IsNoise(motion: Vec2, x: real, y: real)
  {
    Abs(x - motion.x) < NoiseFloor && Abs(y - motion.y) < NoiseFloor
  }

  /** `delta -= Math.sign(delta) * 0.15` on one axis. */
  function DeadZoned(delta: real): real
  {
    delta - Sign(delta) * DeadZone
  }

  /**
   * The `deviceorientation` handler with `x = gamma`, `y = -beta`: a noisy
   * sample changes nothing; any other sample becomes the new baseline and
   * nudges `mouse` by 5% of the dead-zoned deltas.
   */
  function Orientation(p: Pointer, gamma: real, beta: real): (q: Pointer)
    ensures IsNoise(p.motion, gamma, -beta) ==> q == p
    ensures !IsNoise(p.motion, gamma, -beta) ==> q.motion == Vec2(gamma, -beta)
    ensures q.motion == p.motion <==> IsNoise(p.motion, gamma, -beta)
  {
    var x := gamma;
    var y := -beta;
    var dx := x - p.motion.x;
    var dy := y - p.motion.y;
    if Abs(dx) < NoiseFloor && Abs(dy) < NoiseFloor then p
    else Pointer(Vec2(p.mouse.x + DeadZoned(dx) * Gain, p.mouse.y + DeadZoned(dy) * Gain), Vec2(x, y))
  }

  /**
   * What an accepted sample does to one axis of `mouse`, by the size of that
   * axis' delta d: no change when d is 0; a shift of 5% of |d| - 0.15 in the
   * direction of d when |d| > 0.15; and, since the dead zone is subtracted
   * rather than clamped, a small shift AGAINST d when 0 < |d| < 0.15.
   */
  lemma DeadZoneShift(d: real)
    ensures d == 0.0 ==> DeadZoned(d) * Gain == 0.0
    ensures d != 0.0 ==> Abs(DeadZoned(d) * Gain) == Gain * Abs(Abs(d) - DeadZone)
    ensures Abs(d) > DeadZone ==> Sign(DeadZoned(d)) == Sign(d)
    ensures 0.0 < Abs(d) < DeadZone ==> Sign(DeadZoned(d)) == -Sign(d)
    ensures Abs(d) == DeadZone ==> DeadZoned(d) == 0.0
  {
  }

  /** An accepted sample shifts each axis of `mouse` by exactly 5% of its dead-zoned delta. */
  lemma OrientationShift(p: Pointer, gamma: real, beta: real)
    requires !IsNoise(p.motion, gamma, -beta)
    ensures Orientation(p, gamma, beta).mouse.x - p.mouse.x == DeadZoned(gamma - p.motion.x) * Gain
    ensures Orientation(p, gamma, beta).mouse.y - p.mouse.y == DeadZoned(-beta - p.motion.y) * Gain
    ensures gamma == p.motion.x ==> Orientation(p, gamma, beta).mouse.x == p.mouse.x
    ensures -beta == p.motion.y ==> Orientation(p, gamma, beta).mouse.y == p.mouse.y
  {
  }

  /** Delivering the same reading twice is the same as delivering it once. */
  lemma OrientationRepeat(p: Pointer, gamma: real, beta: real)
    ensures Orientation(Orientation(p, gamma, beta), gamma, beta) == Orientation(p, gamma, beta)
  {
  }

  /** A tilt of (0.5, 0.5) from a zero baseline moves `mouse` by (0.0175, 0.0175) and becomes the baseline. */
  lemma OrientationExample(m: Vec2)
    ensures Orientation(Pointer(m, Vec2(0.0, 0.0)), 0.5, -0.5)
      == Pointer(Vec2(m.x + 0.0175, m.y + 0.0175), Vec2(0.5, 0.5))
  {
  }
}
