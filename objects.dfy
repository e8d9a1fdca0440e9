/**
 * `GameObject`, the position/velocity/visibility record every entity has,
 * and `Ship`, the player's entity.  Each entity class holds its own
 * `GameObject` as `body`; the one-shot callbacks the game stores are the
 * values of `Action`.
 */
module Objects {
  import opened Geometry
  import opened Display

  /**
   * The callbacks the game hands to its entities: the projectile's miss
   * notification (`SpacePyew.on_miss_callback`) and the explosion's
   * completion hook (`SpacePyew.on_boom_done`).
   */
  datatype Action = NotifyMiss | BoomDone

  /** Total of a sequence of frame durations, in milliseconds. */
  function TotalTime(dts: seq<real>): real
    decreases |dts|
  {
    if dts == [] then 0.0 else dts[0] + TotalTime(dts[1..])
  }

  predicate NonNegative(dts: seq<real>)
  {
    forall k :: 0 <= k < |dts| ==> dts[k] >= 0.0
  }

  /** `n` frames of at least `dMin` ms each last at least `n * dMin` ms. */
  lemma {:induction false} TotalTimeAtLeast(dts: seq<real>, dMin: real)
    requires forall k :: 0 <= k < |dts| ==> dts[k] >= dMin
    ensures TotalTime(dts) >= |dts| as real * dMin
    decreases |dts|
  {
    if dts != [] {
      TotalTimeAtLeast(dts[1..], dMin);
    }
  }

  /** A coordinate after `dt` ms at `speed` px/ms. */
  function Advance(pos: real, speed: real, dt: real): real
  {
    pos + speed * dt
  }

  class GameObject {
    var posX: real
    var posY: real
    /** Speeds are in pixels per millisecond. */
    var speedX: real
    var speedY: real
    var isVisible: bool

    constructor ()
      ensures posX == 0.0 && posY == 0.0 && speedX == 0.0 && speedY == 0.0 && !isVisible
    {
      posX, posY := 0.0, 0.0;
      speedX, speedY := 0.0, 0.0;
      isVisible := false;
    }

    /** What `draw` asks of the display: brightness 5 at the rounded position, if visible. */
    function Strokes(): seq<Stroke>
      reads this
    {
      if isVisible then [Stroke(ToPixel(posX) as real, ToPixel(posY) as real, 5)] else []
    }

    method Draw(display: DoubleBuffered5x5Display)
      requires display.Valid()
      modifies display.pixels
      ensures display.pixels[..] == Paint(old(display.pixels[..]), Strokes())
    {
      if isVisible {
        display.SetPixel(ToPixel(posX) as real, ToPixel(posY) as real, 5);
      }
    }

    /**
     * `update`: one Euler step of `dt` ms (see `Advance`); with clipping both coordinates
     * are clamped into the grid, so the object ends up inside it.
     */
    method Update(dt: real, clipping: bool)
      modifies this
      ensures posX == if clipping then ClipX(Advance(old(posX), speedX, dt)) else Advance(old(posX), speedX, dt)
      ensures posY == if clipping then ClipY(Advance(old(posY), speedY, dt)) else Advance(old(posY), speedY, dt)
      ensures clipping ==> InGrid(posX, posY)
      ensures speedX == old(speedX) && speedY == old(speedY) && isVisible == old(isVisible)
    {
      posX := posX + speedX * dt;
      posY := posY + speedY * dt;
      if clipping {
        posX := ClipX(posX);
        posY := ClipY(posY);
      }
    }

    /** `move_to(x, y)`. */
    method MoveTo(x: real, y: real)
      modifies this
      ensures posX == x && posY == y
      ensures speedX == old(speedX) && speedY == old(speedY) && isVisible == old(isVisible)
    {
      posX := x;
      posY := y;
    }

    /** `move_to(other)`: take over another object's position. */
    method MoveToObject(other: GameObject)
      modifies this
      ensures posX == old(other.posX) && posY == old(other.posY)
      ensures speedX == old(speedX) && speedY == old(speedY) && isVisible == old(isVisible)
    {
      posX := other.posX;
      posY := other.posY;
    }
  }

  /** Downward acceleration of the ship: 0.02 px/s, per millisecond of fall. */
  const GravityAcc: real := ToSpeed(0.02)

  class Ship {
    const body: GameObject

    /** The ship starts visible at the left edge, vertically centred, at rest. */
    constructor ()
      ensures fresh(body)
      ensures body.posX == MinX as real && body.posY == CenterY as real
      ensures body.speedX == 0.0 && body.speedY == 0.0 && body.isVisible
    {
      body := new GameObject();
      new;
      body.posX := MinX as real;
      body.posY := CenterY as real;
      body.isVisible := true;
    }

    /**
     * `update`: gravity adds `dt * GravityAcc` to the vertical speed, the
     * body moves with clipping, and reaching the bottom row stops the fall.
     */
    method Update(dt: real)
      modifies body
      ensures InGrid(body.posX, body.posY)
      ensures body.posX == ClipX(Advance(old(body.posX), body.speedX, dt))
      ensures body.posY == ClipY(Advance(old(body.posY), old(body.speedY) + dt * GravityAcc, dt))
      ensures body.speedY == if body.posY >= MaxY as real then 0.0 else old(body.speedY) + dt * GravityAcc
      ensures body.speedX == old(body.speedX) && body.isVisible == old(body.isVisible)
    {
      body.speedY := body.speedY + dt * GravityAcc;
      body.Update(dt, true);
      if body.posY >= MaxY as real {
        body.speedY := 0.0;
      }
    }

    method Draw(display: DoubleBuffered5x5Display)
      requires display.Valid()
      modifies display.pixels
      ensures display.pixels[..] == Paint(old(display.pixels[..]), body.Strokes())
    {
      body.Draw(display);
    }
  }
}
