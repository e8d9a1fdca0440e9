/**
 * `BoomAnimation`: the single reusable explosion.  `Start` makes it visible
 * with a fresh clock and an optional completion callback; updates add the
 * frame time, and once 1000 ms have accumulated it hides itself and runs
 * the callback once, clearing it.  What it draws depends on the phase of
 * the clock.
 */
module Explosion {
  import opened Wrappers
  import opened Geometry
  import opened Display
  import opened Objects

  const DurationMs: real := 1000.0

  /** The animation's state: visibility, elapsed time and the stored callback. */
  datatype Anim = Anim(visible: bool, timeMs: real, onDone: Option<Action>)

  /** True when the update of `a` by `dt` ms ends the animation. */
  predicate Completes(a: Anim, dt: real)
  {
    a.visible && a.timeMs + dt >= DurationMs
  }

  /**
   * One `update`: an invisible animation is left alone; a visible one adds
   * `dt` to its clock and, on reaching 1000 ms, hides and drops its callback.
   */
  function Tick(a: Anim, dt: real): (b: Anim)
    ensures !a.visible ==> b == a
    ensures a.visible ==> b.timeMs == a.timeMs + dt
    ensures b.visible == (a.visible && !Completes(a, dt))
    ensures b.onDone == if Completes(a, dt) then None else a.onDone
  {
    if !a.visible then a
    else
      var t := a.timeMs + dt;
      if t >= DurationMs then Anim(false, t, None) else a.(timeMs := t)
  }

  /** Final state after a sequence of updates, and how many callbacks ran. */
  function Run(a: Anim, dts: seq<real>): (Anim, nat)
    decreases |dts|
  {
    if dts == [] then (a, 0)
    else
      var rest := Run(Tick(a, dts[0]), dts[1..]);
      (rest.0, rest.1 + if Completes(a, dts[0]) && a.onDone.Some? then 1 else 0)
  }

  /** Once finished, later updates change nothing and run nothing. */
  lemma {:induction false} RunInvisible(a: Anim, dts: seq<real>)
    requires !a.visible
    ensures Run(a, dts) == (a, 0)
    decreases |dts|
  {
    if dts != [] {
      RunInvisible(a, dts[1..]);
    }
  }

  /**
   * A running animation fed non-negative frame times completes exactly when
   * its clock reaches 1000 ms, and its callback then runs exactly once.
   */
  lemma {:induction false} CompletionRunsOnce(a: Anim, dts: seq<real>)
    requires a.visible && a.timeMs < DurationMs
    requires NonNegative(dts)
    ensures var done := a.timeMs + TotalTime(dts) >= DurationMs;
            Run(a, dts).1 == (if done && a.onDone.Some? then 1 else 0) &&
            Run(a, dts).0.visible == !done
    decreases |dts|
  {
    if dts != [] {
      var d, rest := dts[0], dts[1..];
      assert NonNegative(rest);
      TotalTimeAtLeast(rest, 0.0);
      if Completes(a, d) {
        RunInvisible(Tick(a, d), rest);
      } else {
        CompletionRunsOnce(Tick(a, d), rest);
      }
    }
  }

  /** After `start(callback)`, frames adding up to 1000 ms run the callback exactly once. */
  lemma StartedAnimationCompletesOnce(callback: Action, dts: seq<real>)
    requires NonNegative(dts)
    ensures Run(Anim(true, 0.0, Some(callback)), dts).1 == if TotalTime(dts) >= DurationMs then 1 else 0
  {
    CompletionRunsOnce(Anim(true, 0.0, Some(callback)), dts);
  }

  /** `_draw_T`: the four orthogonal neighbours. */
  const Plus: seq<(real, real)> := [(-1.0, 0.0), (1.0, 0.0), (0.0, -1.0), (0.0, 1.0)]

  /** `_draw_X`: the four diagonal neighbours. */
  const Cross: seq<(real, real)> := [(-1.0, -1.0), (1.0, 1.0), (-1.0, 1.0), (1.0, -1.0)]

  function Shape(x: real, y: real, offsets: seq<(real, real)>, v: PixelValue): (s: seq<Stroke>)
    ensures |s| == |offsets|
    ensures forall k :: 0 <= k < |s| ==> s[k] == Stroke(x + offsets[k].0, y + offsets[k].1, v)
  {
    seq(|offsets|, k requires 0 <= k < |offsets| => Stroke(x + offsets[k].0, y + offsets[k].1, v))
  }

  /**
   * What `draw` paints at elapsed time `t`: up to 100 ms the centre at 9,
   * up to 400 ms the plus at 9, up to 700 ms the plus at 5 and then the X
   * at 9, up to 1000 ms the X at 4.  Every stroke lies within one pixel of
   * the centre in both directions, at brightness 4, 5 or 9.
   */
  function Phase(t: real, x: real, y: real): (s: seq<Stroke>)
    ensures t <= 100.0 ==> s == [Stroke(x, y, 9)]
    ensures 100.0 < t <= 400.0 ==> s == Shape(x, y, Plus, 9)
    ensures 400.0 < t <= 700.0 ==> s == Shape(x, y, Plus, 5) + Shape(x, y, Cross, 9)
    ensures 700.0 < t <= DurationMs ==> s == Shape(x, y, Cross, 4)
    ensures DurationMs < t ==> s == []
    ensures forall k :: 0 <= k < |s| ==>
              Abs(s[k].x - x) <= 1.0 && Abs(s[k].y - y) <= 1.0 && s[k].v in {4, 5, 9}
  {
    if t <= 100.0 then [Stroke(x, y, 9)]
    else if t <= 400.0 then Shape(x, y, Plus, 9)
    else if t <= 700.0 then Shape(x, y, Plus, 5) + Shape(x, y, Cross, 9)
    else if t <= DurationMs then Shape(x, y, Cross, 4)
    else []
  }

  class BoomAnimation {
    const body: GameObject
    var animationTimeMs: real
    var onDone: Option<Action>
    /** How many times a stored completion callback has been invoked. */
    ghost var doneCalls: nat

    /** A visible animation has not reached its end yet. */
    ghost predicate Valid()
      reads this, body
    {
      body.isVisible ==> animationTimeMs < DurationMs
    }

    function State(): Anim
      reads this, body
    {
      Anim(body.isVisible, animationTimeMs, onDone)
    }

    constructor ()
      ensures Valid() && fresh(body)
      ensures State() == Anim(false, 0.0, None) && doneCalls == 0
    {
      body := new GameObject();
      animationTimeMs := 0.0;
      onDone := None;
      doneCalls := 0;
    }

    /** `start`: visible, clock at zero, the given callback stored. */
    method Start(callback: Option<Action>)
      modifies this, body
      ensures Valid()
      ensures State() == Anim(true, 0.0, callback)
      ensures body.posX == old(body.posX) && body.posY == old(body.posY)
      ensures doneCalls == old(doneCalls)
    {
      body.isVisible := true;
      animationTimeMs := 0.0;
      onDone := callback;
    }

    /**
     * `update`, following `Tick`; on completion the stored callback, if
     * any, is returned for the caller to run, and counted.
     */
    method Update(dt: real) returns (invoked: Option<Action>)
      requires Valid()
      modifies this, body
      ensures Valid()
      ensures State() == Tick(old(State()), dt)
      ensures invoked == if Completes(old(State()), dt) then old(onDone) else None
      ensures doneCalls == old(doneCalls) + if invoked.Some? then 1 else 0
      ensures body.posX == old(body.posX) && body.posY == old(body.posY)
    {
      invoked := None;
      if body.isVisible {
        animationTimeMs := animationTimeMs + dt;
        if animationTimeMs >= DurationMs {
          body.isVisible := false;
          if onDone.Some? {
            invoked := onDone;
            doneCalls := doneCalls + 1;
            onDone := None;
          }
        }
      }
    }

    /** `_draw_T` / `_draw_X`: one `set_pixel` per offset around the centre, in order. */
    method DrawShape(display: DoubleBuffered5x5Display, offsets: seq<(real, real)>, v: PixelValue)
      requires display.Valid()
      modifies display.pixels
      ensures display.pixels[..] == Paint(old(display.pixels[..]), Shape(body.posX, body.posY, offsets, v))
    {
      var i := 0;
      while i < |offsets|
        invariant 0 <= i <= |offsets|
        invariant display.pixels[..] == Paint(old(display.pixels[..]), Shape(body.posX, body.posY, offsets[..i], v))
      {
        var s := Stroke(body.posX + offsets[i].0, body.posY + offsets[i].1, v);
        display.SetPixel(s.x, s.y, s.v);
        PaintSnoc(old(display.pixels[..]), Shape(body.posX, body.posY, offsets[..i], v), s);
        assert Shape(body.posX, body.posY, offsets[..i + 1], v) == Shape(body.posX, body.posY, offsets[..i], v) + [s];
        i := i + 1;
      }
      assert offsets[..i] == offsets;
    }

    function Strokes(): seq<Stroke>
      reads this, body
    {
      if body.isVisible then Phase(animationTimeMs, body.posX, body.posY) else []
    }

    method Draw(display: DoubleBuffered5x5Display)
      requires display.Valid()
      modifies display.pixels
      ensures display.pixels[..] == Paint(old(display.pixels[..]), Strokes())
    {
      if body.isVisible {
        if animationTimeMs <= 100.0 {
          display.SetPixel(body.posX, body.posY, 9);
        } else if animationTimeMs <= 400.0 {
          DrawShape(display, Plus, 9);
        } else if animationTimeMs <= 700.0 {
          ghost var before := display.pixels[..];
          DrawShape(display, Plus, 5);
          DrawShape(display, Cross, 9);
          PaintAppend(before, Shape(body.posX, body.posY, Plus, 5), Shape(body.posX, body.posY, Cross, 9));
        } else if animationTimeMs <= DurationMs {
          DrawShape(display, Cross, 4);
        }
      }
    }
  }
}
