/**
 * `Projectile`: the single reusable shot.  It is invisible until fired,
 * then flies without clipping; when it leaves the grid widened by one
 * pixel on every side it becomes invisible and its stored miss callback is
 * taken, cleared and invoked exactly once.
 */
module Projectiles {
  import opened Wrappers
  import opened Geometry
  import opened Display
  import opened Objects

  /** The projectile's state: its body's fields and the stored callback. */
  datatype Flight = Flight(x: real, y: real, vx: real, vy: real, visible: bool, onMiss: Option<Action>)

  /** The miss test of `update`: more than one pixel outside the grid on some side. */
  predicate OutOfRange(x: real, y: real)
  {
    x > (MaxX + 1) as real || x < (MinX - 1) as real || y < (MinY - 1) as real || y > (MaxY + 1) as real
  }

  /** True when the update of `f` by `dt` ms runs `on_miss`. */
  predicate Misses(f: Flight, dt: real)
  {
    f.visible && OutOfRange(f.x + f.vx * dt, f.y + f.vy * dt)
  }

  /**
   * One `update`: nothing happens while invisible; otherwise the position
   * advances without clipping, and a miss hides the projectile and clears
   * its callback.  Speeds never change.
   */
  function Tick(f: Flight, dt: real): (g: Flight)
    ensures !f.visible ==> g == f
    ensures f.visible ==> g.x == f.x + f.vx * dt && g.y == f.y + f.vy * dt
    ensures g.vx == f.vx && g.vy == f.vy
    ensures g.visible == (f.visible && !Misses(f, dt))
    ensures g.onMiss == if Misses(f, dt) then None else f.onMiss
  {
    if !f.visible then f
    else
      var x, y := f.x + f.vx * dt, f.y + f.vy * dt;
      if OutOfRange(x, y) then Flight(x, y, f.vx, f.vy, false, None)
      else f.(x := x, y := y)
  }

  /** Final state after a sequence of updates, and how many callbacks ran. */
  function Run(f: Flight, dts: seq<real>): (Flight, nat)
    decreases |dts|
  {
    if dts == [] then (f, 0)
    else
      var rest := Run(Tick(f, dts[0]), dts[1..]);
      (rest.0, rest.1 + if Misses(f, dts[0]) && f.onMiss.Some? then 1 else 0)
  }

  /** Updates of an invisible projectile change nothing and invoke nothing. */
  lemma {:induction false} RunInvisible(f: Flight, dts: seq<real>)
    requires !f.visible
    ensures Run(f, dts) == (f, 0)
    decreases |dts|
  {
    if dts != [] {
      RunInvisible(f, dts[1..]);
    }
  }

  /**
   * A projectile flying right along a row of the grid misses exactly when
   * the total time carries it past `x = 5`; its callback then runs exactly
   * once, and never otherwise.
   */
  lemma {:induction false} MissCallbackRunsOnce(f: Flight, dts: seq<real>)
    requires f.visible && f.onMiss.Some?
    requires f.vx > 0.0 && f.vy == 0.0
    requires (MinX - 1) as real <= f.x <= (MaxX + 1) as real
    requires (MinY - 1) as real <= f.y <= (MaxY + 1) as real
    requires NonNegative(dts)
    ensures var missed := f.x + f.vx * TotalTime(dts) > (MaxX + 1) as real;
            Run(f, dts).1 == (if missed then 1 else 0) && Run(f, dts).0.visible == !missed
    decreases |dts|
  {
    if dts != [] {
      var d, rest := dts[0], dts[1..];
      var g := Tick(f, d);
      assert TotalTime(dts) == d + TotalTime(rest);
      assert f.vx * TotalTime(dts) == f.vx * d + f.vx * TotalTime(rest);
      assert f.vx * d >= 0.0;
      if Misses(f, d) {
        RunInvisible(g, rest);
        assert f.vx * TotalTime(rest) >= 0.0 by {
          assert NonNegative(rest);
          TotalTimeAtLeast(rest, 0.0);
        }
      } else {
        assert NonNegative(rest);
        MissCallbackRunsOnce(g, rest);
      }
    }
  }

  /** The speed `ship_fires` gives a shot: 6 px/s. */
  const ShotSpeed: real := ToSpeed(6.0)

  /**
   * A shot fired from inside the grid, updated by frames of at least
   * `dMin` ms, has missed (and notified exactly once) after any `n` frames
   * with `n * dMin >= 1000`.
   */
  lemma ShotMissesWithinBoundedFrames(f: Flight, dts: seq<real>, dMin: real)
    requires f.visible && f.onMiss.Some? && f.vx == ShotSpeed && f.vy == 0.0
    requires InGrid(f.x, f.y)
    requires dMin > 0.0 && forall k :: 0 <= k < |dts| ==> dts[k] >= dMin
    requires |dts| as real * dMin >= 1000.0
    ensures Run(f, dts).1 == 1 && !Run(f, dts).0.visible
  {
    TotalTimeAtLeast(dts, dMin);
    MissCallbackRunsOnce(f, dts);
  }

  class Projectile {
    const body: GameObject
    var onMiss: Option<Action>
    /** How many times a stored callback has been invoked. */
    ghost var missCalls: nat

    /** A visible projectile always has its miss callback stored. */
    ghost predicate Valid()
      reads this, body
    {
      body.isVisible ==> onMiss.Some?
    }

    function State(): Flight
      reads this, body
    {
      Flight(body.posX, body.posY, body.speedX, body.speedY, body.isVisible, onMiss)
    }

    constructor ()
      ensures Valid() && fresh(body)
      ensures State() == Flight(0.0, 0.0, 0.0, 0.0, false, None) && missCalls == 0
    {
      body := new GameObject();
      onMiss := None;
      missCalls := 0;
    }

    /** `fire`: snap to the origin's position, become visible, store the callback. */
    method Fire(origin: GameObject, speedX: real, callback: Action)
      requires origin != body
      modifies this, body
      ensures Valid()
      ensures State() == Flight(origin.posX, origin.posY, speedX, old(body.speedY), true, Some(callback))
      ensures missCalls == old(missCalls)
    {
      body.MoveToObject(origin);
      body.isVisible := true;
      body.speedX := speedX;
      onMiss := Some(callback);
    }

    /**
     * `update`, following `Tick`; a miss returns the callback it took and
     * cleared, which the caller then runs.
     */
    method Update(dt: real) returns (invoked: Option<Action>)
      requires Valid()
      modifies this, body
      ensures Valid()
      ensures State() == Tick(old(State()), dt)
      ensures invoked == if Misses(old(State()), dt) then old(onMiss) else None
      ensures missCalls == old(missCalls) + if invoked.Some? then 1 else 0
    {
      invoked := None;
      if body.isVisible {
        body.Update(dt, false);
        if OutOfRange(body.posX, body.posY) {
          var callback := OnMiss();
          invoked := Some(callback);
        }
      }
    }

    /** `on_miss`: hide, take and clear the stored callback, and invoke it. */
    method OnMiss() returns (callback: Action)
      requires onMiss.Some?
      modifies this, body
      ensures Valid()
      ensures !body.isVisible && onMiss == None && callback == old(onMiss).value
      ensures body.posX == old(body.posX) && body.posY == old(body.posY)
      ensures body.speedX == old(body.speedX) && body.speedY == old(body.speedY)
      ensures missCalls == old(missCalls) + 1
    {
      body.isVisible := false;
      callback := onMiss.value;
      onMiss := None;
      missCalls := missCalls + 1;
    }

    /** What `draw` asks of the display: the head at 9 and a tail pixel to its left at 4. */
    function Strokes(): seq<Stroke>
      reads this, body
    {
      if body.isVisible then [Stroke(body.posX, body.posY, 9), Stroke(body.posX - 1.0, body.posY, 4)] else []
    }

    method Draw(display: DoubleBuffered5x5Display)
      requires display.Valid()
      modifies display.pixels
      ensures display.pixels[..] == Paint(old(display.pixels[..]), Strokes())
    {
      if body.isVisible {
        var head, tail := Stroke(body.posX, body.posY, 9), Stroke(body.posX - 1.0, body.posY, 4);
        display.SetPixel(head.x, head.y, head.v);
        display.SetPixel(tail.x, tail.y, tail.v);
        PaintSnoc(old(display.pixels[..]), [head], tail);
        assert [head] + [tail] == Strokes();
      }
    }
  }
}
