/**
 * The state js/bg.js keeps in its module-level variables, and the code that
 * updates it in place: the two input handlers and the per-frame `render`.
 * Each method is proved against the pure definitions of Timing, Input and
 * Uniforms. WebGL calls, matrices and the `time` uniform are not modelled.
 */
module Bg {
  import opened Wrappers
  import opened Timing
  import opened Input
  import opened Uniforms

  /** What one frame hands to the shader: the resize-path uniforms, when the guard fired, and `uMouse`. */
  datatype Upload = Upload(resize: Option<ResizeUniforms>, mouse: Vec2)

  class Background {
    var dropped: int
    var perfscale: real
    var lastNow: Option<real>
    const mouse: array<real>
    const motion: array<real>
    /** The drawing buffer size, `canvas.width` and `canvas.height`. */
    var canvasWidth: real
    var canvasHeight: real

    ghost predicate Valid()
      reads this
    {
      mouse.Length == 2 && motion.Length == 2 && mouse != motion &&
      Inv(Perf(dropped, perfscale, lastNow))
    }

    function PerfState(): Perf
      reads this
    {
      Perf(dropped, perfscale, lastNow)
    }

    function InputState(): Pointer
      reads this, mouse, motion
      requires Valid()
    {
      Pointer(Vec2(mouse[0], mouse[1]), Vec2(motion[0], motion[1]))
    }

    /** Page load: the initial controller and input state, and the canvas at its given size. */
    constructor (canvasWidth0: real, canvasHeight0: real)
      ensures Valid() && fresh(mouse) && fresh(motion)
      ensures PerfState() == InitialPerf && InputState() == InitialPointer
      ensures canvasWidth == canvasWidth0 && canvasHeight == canvasHeight0
    {
      dropped, perfscale, lastNow := 1, 1.0, None;
      mouse := new real[2] [0.5, 0.5];
      motion := new real[2] [0.0, 0.0];
      canvasWidth, canvasHeight := canvasWidth0, canvasHeight0;
    }

    /** The `mousemove` handler. */
    method OnMouseMove(pageX: real, pageY: real, clientHeight: nat)
      requires Valid() && clientHeight > 0
      modifies mouse
      ensures Valid()
      ensures InputState() == Pointer(PointerMove(pageX, pageY, clientHeight), old(InputState()).motion)
    {
      mouse[0] := pageX / clientHeight as real;
      mouse[1] := 1.0 - pageY / clientHeight as real;
    }

    /** The `deviceorientation` handler. */
    method OnOrientation(gamma: real, beta: real)
      requires Valid()
      modifies mouse, motion
      ensures Valid()
      ensures InputState() == Orientation(old(InputState()), gamma, beta)
    {
      var x := gamma;
      var y := -beta;
      var dx, dy := x - motion[0], y - motion[1];
      if Abs(dx) < NoiseFloor && Abs(dy) < NoiseFloor {
        return;
      }
      dx := dx - Sign(dx) * DeadZone;
      dy := dy - Sign(dy) * DeadZone;
      motion[0] := x;
      motion[1] := y;
      mouse[0] := mouse[0] + dx * Gain;
      mouse[1] := mouse[1] + dy * Gain;
    }

    /** The timing step at the top of `render(now)`. */
    method Step(now: real)
      requires Valid()
      modifies this`dropped, this`perfscale, this`lastNow
      ensures Valid()
      ensures PerfState() == Frame(old(PerfState()), now)
    {
      ghost var p := PerfState();
      if Unset(lastNow) {
        lastNow := Some(now - NominalFrame);
      }
      var elapsed := now - lastNow.value;
      if elapsed > SlowFrame {
        dropped := dropped + 1;
      } else if elapsed < FastFrame {
        dropped := dropped - 1;
      }
      if dropped > Threshold {
        perfscale := perfscale + GrowStep;
        dropped := 0;
      } else if dropped < -Threshold {
        perfscale := Max(MinScale, perfscale * ShrinkFactor);
        dropped := 0;
      }
      lastNow := Some(now);
      FramePreservesInv(p, now);
    }

    /**
     * One call of `render(now)` given the client size and the host pixel ratio
     * (`devicePixelRatio` over the backing-store ratio): the timing step, then
     * the resize guard against the new density, then the per-frame upload.
     */
    method Render(now: real, clientWidth: nat, clientHeight: nat, pixelRatio: real) returns (upload: Upload)
      requires Valid()
      modifies this`dropped, this`perfscale, this`lastNow, this`canvasWidth, this`canvasHeight
      ensures Valid()
      ensures PerfState() == Frame(old(PerfState()), now)
      ensures var density := Density(pixelRatio, perfscale);
        if NeedsResize(old(canvasWidth), old(canvasHeight), clientWidth, clientHeight, density) then
          && canvasWidth == clientWidth as real * density
          && canvasHeight == clientHeight as real * density
          && upload.resize == Some(ResizeValues(perfscale, clientWidth, clientHeight))
        else
          && canvasWidth == old(canvasWidth) && canvasHeight == old(canvasHeight)
          && upload.resize == None
      ensures upload.mouse == InputState().mouse
    {
      Step(now);
      var aspect := Aspect(clientWidth, clientHeight);
      var density := pixelRatio / perfscale;
      var width, height := clientWidth, clientHeight;
      var resize: Option<ResizeUniforms> := None;
      if canvasWidth != width as real * density || canvasHeight != height as real * density {
        canvasWidth := width as real * density;
        canvasHeight := height as real * density;
        var bounds: Option<Box> := None;
        if aspect.Some? {
          bounds := Some(OrthoBounds(aspect.value));
        }
        resize := Some(ResizeUniforms(
          bounds,
          EdgeScale(perfscale),
          EdgeWidth(width, height),
          EdgeCount(width, height)));
      }
      upload := Upload(resize, Vec2(mouse[0], mouse[1]));
    }

    /**
     * Two frames at the same client size and pixel ratio, the second of which
     * does not adjust the scale: the second uploads no resize uniforms, so they
     * are sent once and not on every frame.
     */
    method RenderSameSize(now1: real, now2: real, clientWidth: nat, clientHeight: nat, pixelRatio: real)
      returns (first: Upload, second: Upload)
      requires Valid()
      requires !Adjusts(Frame(PerfState(), now1), now2)
      modifies this`dropped, this`perfscale, this`lastNow, this`canvasWidth, this`canvasHeight
      ensures Valid()
      ensures PerfState() == Run(old(PerfState()), [now1, now2])
      ensures first.resize.Some? <==> NeedsResize(old(canvasWidth), old(canvasHeight), clientWidth, clientHeight,
        Density(pixelRatio, Frame(old(PerfState()), now1).scale))
      ensures second.resize == None
    {
      ghost var p0 := PerfState();
      first := Render(now1, clientWidth, clientHeight, pixelRatio);
      ghost var p1 := PerfState();
      ghost var d := Density(pixelRatio, perfscale);
      assert canvasWidth == clientWidth as real * d && canvasHeight == clientHeight as real * d;
      second := Render(now2, clientWidth, clientHeight, pixelRatio);
      assert perfscale == p1.scale;
      assert p1 == Frame(p0, now1);
      assert [now1, now2][1..] == [now2] && [now2][1..] == [];
      assert Run(p0, [now1, now2]) == Run(p1, [now2]);
      assert Run(p1, [now2]) == Run(Frame(p1, now2), []);
    }
  }
}
