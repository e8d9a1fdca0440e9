/**
 * `Enemy`: the patrolling target.  Each update rescales its vertical speed
 * from the difficulty, runs down an evasion countdown and, when it expires,
 * draws a new countdown and an action (evade, evasive jump or reversal),
 * then moves with clipping and bounces off the top and bottom rows.
 * Random draws are parameters.
 */
module EnemyAI {
  import opened Geometry
  import opened Display
  import opened Objects
  import opened Projectiles

  const BaseSpeedPxPerS: real := 1.0
  const EvadeDistance: real := 2.0
  const MaxDifficulty: int := 50

  /** The enemy's speed at a difficulty: ten per cent faster per level, in px/s. */
  function SpeedPxPerS(difficulty: int): (v: real)
    ensures v * 10.0 == 10.0 + difficulty as real
  {
    BaseSpeedPxPerS * (1.0 + difficulty as real / 10.0)
  }

  /** Magnitude of the vertical speed at a difficulty: `0.001 * (1 + difficulty / 10)` px/ms. */
  function SpeedMagnitude(difficulty: int): (m: real)
    ensures m * 10000.0 == 10.0 + difficulty as real
  {
    ToSpeed(SpeedPxPerS(difficulty))
  }

  /** `math.copysign(m, s)` for a non-zero or positive-zero `s`: `|m|` with the sign of `s`. */
  function CopySign(m: real, s: real): (r: real)
    ensures Abs(r) == Abs(m)
    ensures s < 0.0 ==> r <= 0.0
    ensures s >= 0.0 ==> r >= 0.0
  {
    if s < 0.0 then -Abs(m) else Abs(m)
  }

  /** Upper end of the countdown draw, `max(2, 50 - difficulty)`. */
  function DrawBound(difficulty: int): int
  {
    if MaxDifficulty - difficulty > 2 then MaxDifficulty - difficulty else 2
  }

  /**
   * The countdown chosen when the old one expires,
   * `clamp(draw, 1, 50) * 20 + 50` ms: always within 70..1050 ms, and for
   * a draw of the game's range never above `DrawBound(difficulty) * 20 + 50`.
   */
  function NextCountdown(draw: int): (ms: int)
    ensures 70 <= ms <= 1050
    ensures ms - 50 == 20 * ClampInt(draw, 1, MaxDifficulty)
  {
    ClampInt(draw, 1, MaxDifficulty) * 20 + 50
  }

  /**
   * The evasion countdown after a step of `dt` ms: it runs down, and once
   * it would go negative it is replaced by a fresh draw, so it is never left
   * negative and an expiry always leaves at least 70 ms.
   */
  function CountdownAfter(countdownMs: real, dt: real, draw: int): (r: real)
    ensures r >= 0.0
    ensures countdownMs - dt >= 0.0 ==> r == countdownMs - dt
    ensures countdownMs - dt < 0.0 ==> 70.0 <= r <= 1050.0 && r == NextCountdown(draw) as real
  {
    if countdownMs - dt < 0.0 then NextCountdown(draw) as real else countdownMs - dt
  }

  /** The countdown drawn at a higher difficulty can only be shorter. */
  lemma CountdownBoundByDifficulty(draw: int, difficulty: nat)
    requires 1 <= draw <= DrawBound(difficulty)
    ensures NextCountdown(draw) == draw * 20 + 50
    ensures NextCountdown(draw) <= DrawBound(difficulty) * 20 + 50
  {
  }

  /**
   * `_evade_y`: the enemy reverses when the target is visible, at most two
   * rows away, and the enemy is moving toward it.
   */
  function EvadeReverses(selfY: real, speedY: real, targetVisible: bool, targetY: real): (reverse: bool)
    ensures reverse <==>
              targetVisible && Abs(selfY - targetY) <= EvadeDistance && (targetY - selfY) * speedY > 0.0
  {
    var toward := (selfY < targetY && speedY > 0.0) || (selfY > targetY && speedY < 0.0);
    assert toward <==> (targetY - selfY) * speedY > 0.0 by {
      if selfY < targetY {
        assert speedY > 0.0 <==> (targetY - selfY) * speedY > 0.0;
      } else if selfY > targetY {
        assert speedY < 0.0 <==> (targetY - selfY) * speedY > 0.0;
      }
    }
    targetVisible && Abs(selfY - targetY) <= EvadeDistance && toward
  }

  /**
   * The guard of `_evasive_jump`: it requires the new row to be both below
   * the bottom row and above the top row, so no jump is ever accepted.
   */
  function JumpAccepted(newRow: int, projectileRow: int): (accepted: bool)
    ensures !accepted
  {
    newRow != projectileRow && newRow > MaxY && newRow < MinY
  }

  /**
   * The speed after the AI action: actions 1-3 evade, 4-5 (the jump) keep
   * the speed, 6 reverses.  The magnitude never changes.
   */
  function AiSpeed(action: int, speedY: real, selfY: real, targetVisible: bool, targetY: real): (r: real)
    requires 1 <= action <= 6
    ensures Abs(r) == Abs(speedY)
    ensures r == speedY || r == -speedY
    ensures action == 6 ==> r == -speedY
    ensures 4 <= action <= 5 ==> r == speedY
    ensures action <= 3 ==> (EvadeReverses(selfY, speedY, targetVisible, targetY) <==> r == -speedY && speedY != 0.0)
  {
    if action <= 3 then (if EvadeReverses(selfY, speedY, targetVisible, targetY) then -speedY else speedY)
    else if action <= 5 then speedY
    else -speedY
  }

  /** After moving, a position on (or past) a vertical bound reverses the speed. */
  function Bounced(posY: real, speedY: real): (r: real)
    ensures Abs(r) == Abs(speedY)
  {
    if posY >= MaxY as real || posY <= MinY as real then -speedY else speedY
  }

  /**
   * The vertical speed after `_difficulty_updates`: the difficulty's
   * magnitude with the old sign, then, if the countdown expired, the AI
   * action against the projectile when it is visible and the ship otherwise.
   */
  function SteeredSpeed(expired: bool, action: int, difficulty: nat, speedY: real, selfY: real,
                        projectileVisible: bool, projectileY: real, shipVisible: bool, shipY: real): (r: real)
    requires 1 <= action <= 6
    ensures Abs(r) == SpeedMagnitude(difficulty)
    ensures !expired ==> (r < 0.0 <==> speedY < 0.0)
  {
    var s0 := CopySign(SpeedMagnitude(difficulty), speedY);
    if !expired then s0
    else if projectileVisible then AiSpeed(action, s0, selfY, projectileVisible, projectileY)
    else AiSpeed(action, s0, selfY, shipVisible, shipY)
  }

  class Enemy {
    const body: GameObject
    var speedPxPerS: real
    var evadeCountdownMs: real

    /**
     * A new enemy is visible at the right edge on row `startY`, moving down
     * at the base speed, with the first evasion `countdownMs` away.
     */
    constructor (startY: int, countdownMs: int)
      requires MinY <= startY <= MaxY && 5000 <= countdownMs <= 10000
      ensures fresh(body)
      ensures body.posX == MaxX as real && body.posY == startY as real
      ensures body.speedX == 0.0 && body.speedY == ToSpeed(BaseSpeedPxPerS) && body.isVisible
      ensures speedPxPerS == BaseSpeedPxPerS && evadeCountdownMs == countdownMs as real
    {
      body := new GameObject();
      speedPxPerS := BaseSpeedPxPerS;
      evadeCountdownMs := countdownMs as real;
      new;
      body.speedY := ToSpeed(BaseSpeedPxPerS);
      body.posX := MaxX as real;
      body.posY := startY as real;
      body.isVisible := true;
    }

    /**
     * `update`: AI step, clipped move, then the hard bounce.  The speed
     * magnitude follows the difficulty, the countdown is never left
     * negative, and the bounce overrides whatever the AI chose.
     */
    method Update(dt: real, difficulty: nat, projectile: Projectile, ship: Ship,
                  countdownDraw: int, action: int, jumpDraw: int) returns (ghost steered: real)
      requires body != projectile.body && body != ship.body
      requires 1 <= countdownDraw <= DrawBound(difficulty) && 1 <= action <= 6 && 0 <= jumpDraw <= 1
      modifies this, body
      ensures speedPxPerS == SpeedPxPerS(difficulty)
      ensures evadeCountdownMs == CountdownAfter(old(evadeCountdownMs), dt, countdownDraw)
      ensures steered == old(SteeredSpeed(evadeCountdownMs - dt < 0.0, action, difficulty, body.speedY, body.posY,
                                          projectile.body.isVisible, projectile.body.posY,
                                          ship.body.isVisible, ship.body.posY))
      ensures body.posY == ClipY(Advance(old(body.posY), steered, dt))
      ensures body.speedY == Bounced(body.posY, steered)
      ensures body.posX == ClipX(Advance(old(body.posX), body.speedX, dt))
      ensures InGrid(body.posX, body.posY)
      ensures Abs(body.speedY) == SpeedMagnitude(difficulty)
      ensures body.speedX == old(body.speedX) && body.isVisible == old(body.isVisible)
    {
      DifficultyUpdates(dt, difficulty, projectile, ship, countdownDraw, action, jumpDraw);
      steered := body.speedY;
      Move(dt);
    }

    /** The clipped move followed by the hard bounce. */
    method Move(dt: real)
      modifies body
      ensures body.posY == ClipY(Advance(old(body.posY), old(body.speedY), dt))
      ensures body.posX == ClipX(Advance(old(body.posX), body.speedX, dt))
      ensures body.speedY == Bounced(body.posY, old(body.speedY))
      ensures body.speedX == old(body.speedX) && body.isVisible == old(body.isVisible)
    {
      body.Update(dt, true);
      Bounce();
    }

    /** The hard bounce at the end of `update`: on or past a vertical bound, reverse. */
    method Bounce()
      modifies body
      ensures body.speedY == Bounced(body.posY, old(body.speedY))
      ensures body.posX == old(body.posX) && body.posY == old(body.posY)
      ensures body.speedX == old(body.speedX) && body.isVisible == old(body.isVisible)
    {
      if body.posY >= MaxY as real {
        ReflectSpeedY();
      } else if body.posY <= MinY as real {
        ReflectSpeedY();
      }
    }

    /** `_reflect_speed_y`. */
    method ReflectSpeedY()
      modifies body
      ensures body.speedY == -old(body.speedY)
      ensures body.posX == old(body.posX) && body.posY == old(body.posY)
      ensures body.speedX == old(body.speedX) && body.isVisible == old(body.isVisible)
    {
      body.speedY := -body.speedY;
    }

    /** `_evade_y`: reverse when moving toward a visible target at most two rows away. */
    method EvadeY(target: GameObject)
      requires target != body
      modifies body
      ensures body.speedY ==
                if EvadeReverses(old(body.posY), old(body.speedY), target.isVisible, target.posY)
                then -old(body.speedY) else old(body.speedY)
      ensures body.posX == old(body.posX) && body.posY == old(body.posY)
      ensures body.speedX == old(body.speedX) && body.isVisible == old(body.isVisible)
    {
      if target.isVisible && Abs(body.posY - target.posY) <= EvadeDistance {
        if (body.posY < target.posY && body.speedY > 0.0) || (body.posY > target.posY && body.speedY < 0.0) {
          ReflectSpeedY();
        }
      }
    }

    /**
     * `_evasive_jump`: a one-row jump up or down (by the coin `jumpDraw`),
     * guarded by `JumpAccepted`; since the guard never holds, the position
     * stays where it was.
     */
    method EvasiveJump(projectile: Projectile, jumpDraw: int)
      modifies body
      ensures body.posY == old(body.posY)
      ensures body.posX == old(body.posX)
      ensures body.speedX == old(body.speedX) && body.speedY == old(body.speedY)
      ensures body.isVisible == old(body.isVisible)
    {
      var newPosY := body.posY + (if jumpDraw != 0 then 1.0 else -1.0);
      var newRow := ToPixel(newPosY);
      body.posY := if JumpAccepted(newRow, ToPixel(projectile.body.posY)) then newPosY else body.posY;
    }

    /** `_difficulty_updates`: rescale the speed, run the countdown, act on expiry. */
    method DifficultyUpdates(dt: real, difficulty: nat, projectile: Projectile, ship: Ship,
                             countdownDraw: int, action: int, jumpDraw: int)
      requires body != projectile.body && body != ship.body
      requires 1 <= countdownDraw <= DrawBound(difficulty) && 1 <= action <= 6
      modifies this, body
      ensures speedPxPerS == SpeedPxPerS(difficulty)
      ensures evadeCountdownMs == CountdownAfter(old(evadeCountdownMs), dt, countdownDraw)
      ensures body.speedY == old(SteeredSpeed(evadeCountdownMs - dt < 0.0, action, difficulty,
                                 body.speedY, body.posY, projectile.body.isVisible, projectile.body.posY,
                                 ship.body.isVisible, ship.body.posY))
      ensures body.posX == old(body.posX) && body.posY == old(body.posY)
      ensures body.speedX == old(body.speedX) && body.isVisible == old(body.isVisible)
    {
      speedPxPerS := SpeedPxPerS(difficulty);
      body.speedY := CopySign(ToSpeed(speedPxPerS), body.speedY);
      evadeCountdownMs := evadeCountdownMs - dt;
      if evadeCountdownMs < 0.0 {
        evadeCountdownMs := (ClampInt(countdownDraw, 1, MaxDifficulty) * 20 + 50) as real;
        if action == 1 || action == 2 || action == 3 {
          EvadeY(if projectile.body.isVisible then projectile.body else ship.body);
        } else if action == 4 || action == 5 {
          EvasiveJump(projectile, jumpDraw);
        } else if action == 6 {
          ReflectSpeedY();
        }
      }
    }

    method Draw(display: DoubleBuffered5x5Display)
      requires display.Valid()
      modifies display.pixels
      ensures display.pixels[..] == Paint(old(display.pixels[..]), body.Strokes())
    {
      body.Draw(display);
    }
  }
}
