/**
 * `SpacePyew`: the game object tying the entities together.  It owns the
 * display, the enemy, the ship, the projectile and the explosion, keeps the
 * difficulty, and implements the game events: the hit test, the explosion
 * with its completion (difficulty up, enemy respawned), the single-flight
 * firing gate, the per-frame update and the frame drawing.
 *
 * The game keeps one invariant throughout: the enemy is visible exactly when
 * the explosion is not, a projectile only flies while the enemy is there,
 * and the stored callbacks are the game's own (`NotifyMiss` on the
 * projectile, `BoomDone` on the explosion).
 */
module Game {
  import opened Wrappers
  import opened Geometry
  import opened Display
  import opened Objects
  import opened Projectiles
  import opened Explosion
  import opened EnemyAI

  /**
   * The hit test of `check_projectile_hits_enemy` on positions: the shot's
   * column has reached or passed the enemy's, and both are on the same row.
   * A hit is never more than one column short nor more than one row off,
   * and a shot on or past the enemy on its exact row always hits.
   */
  predicate Hits(px: real, py: real, ex: real, ey: real): (h: bool)
    ensures h ==> px >= ex - 1.0 && Abs(py - ey) <= 1.0
    ensures ex <= px && py == ey ==> h
  {
    ToPixel(px) >= ToPixel(ex) && ToPixel(py) == ToPixel(ey)
  }

  /** The horizontal test is one-sided: a shot further right than a hitting one also hits. */
  lemma {:induction false} HitsFurtherRight(px: real, px2: real, py: real, ex: real, ey: real)
    requires Hits(px, py, ex, ey) && px <= px2
    ensures Hits(px2, py, ex, ey)
  {
    RoundMonotone(px, px2);
  }

  /**
   * The hit test on the three documented shapes: the shot on the enemy's
   * cell hits; one column short misses; one row off misses.
   */
  lemma HitScenarios()
    ensures Hits(4.0, 2.0, 4.0, 2.0)
    ensures !Hits(3.0, 2.0, 4.0, 2.0)
    ensures !Hits(4.0, 1.0, 4.0, 2.0)
  {
    RoundOfInteger(4);
    RoundOfInteger(3);
    RoundOfInteger(2);
    RoundOfInteger(1);
  }

  /**
   * The explosion's state once the hit test has run: a hit starts it afresh
   * with `on_boom_done` stored; otherwise it is as it was.
   */
  function AfterHitTest(hit: bool, b: Anim): (a: Anim)
    ensures hit ==> a.visible && a.timeMs == 0.0 && a.onDone == Some(BoomDone)
    ensures !hit ==> a == b
  {
    if hit then Anim(true, 0.0, Some(BoomDone)) else b
  }

  /** The upward and downward speed a button press gives the ship, 2 px/s. */
  const ButtonPressSpeed: real := 2.0

  /** Joystick deflections of at most this much are ignored. */
  const JoystickDeadZone: real := 3.0

  class SpacePyew {
    const display: DoubleBuffered5x5Display
    const enemy: Enemy
    const ship: Ship
    const projectile: Projectile
    const boom: BoomAnimation
    var difficulty: nat

    /** The four entities move four different position records. */
    ghost predicate Distinct()
    {
      enemy.body != ship.body && enemy.body != projectile.body && enemy.body != boom.body &&
      ship.body != projectile.body && ship.body != boom.body && projectile.body != boom.body
    }

    ghost predicate Valid()
      reads this, display, projectile, projectile.body, boom, boom.body, enemy.body
    {
      display.Valid() && projectile.Valid() && boom.Valid() && Distinct() &&
      (enemy.body.isVisible <==> !boom.body.isVisible) &&
      (projectile.body.isVisible ==> enemy.body.isVisible) &&
      (projectile.body.isVisible ==> projectile.onMiss == Some(NotifyMiss)) &&
      (boom.body.isVisible ==> boom.onDone == Some(BoomDone))
    }

    /**
     * A new game: the enemy on row `enemyStartY` with its first evasion
     * `enemyCountdownMs` away (both random draws), nothing flying, nothing
     * exploding, difficulty 0.
     */
    constructor (enemyStartY: int, enemyCountdownMs: int)
      requires MinY <= enemyStartY <= MaxY && 5000 <= enemyCountdownMs <= 10000
      ensures Valid() && difficulty == 0
      ensures enemy.body.isVisible && !projectile.body.isVisible && !boom.body.isVisible
      ensures enemy.body.posX == MaxX as real && enemy.body.posY == enemyStartY as real
      ensures enemy.body.speedX == 0.0 && enemy.body.speedY == ToSpeed(BaseSpeedPxPerS)
      ensures enemy.speedPxPerS == BaseSpeedPxPerS && enemy.evadeCountdownMs == enemyCountdownMs as real
      ensures ship.body.posX == MinX as real && ship.body.posY == CenterY as real
      ensures ship.body.speedX == 0.0 && ship.body.speedY == 0.0 && ship.body.isVisible
      ensures projectile.State() == Flight(0.0, 0.0, 0.0, 0.0, false, None) && projectile.missCalls == 0
      ensures boom.State() == Anim(false, 0.0, None) && boom.doneCalls == 0
      ensures display.pixels[..] == Ramp() && display.oldPixels[..] == Ramp()
    {
      display := new DoubleBuffered5x5Display();
      enemy := new Enemy(enemyStartY, enemyCountdownMs);
      ship := new Ship();
      projectile := new Projectile();
      boom := new BoomAnimation();
      difficulty := 0;
    }

    /** `increase_difficulty`, without the score scroll. */
    method IncreaseDifficulty()
      modifies this
      ensures difficulty == old(difficulty) + 1
    {
      difficulty := difficulty + 1;
    }

    /** `respawn_enemy`: back at the right edge on the drawn row, visible. */
    method RespawnEnemy(row: int)
      requires MinY <= row <= MaxY
      modifies enemy.body
      ensures enemy.body.posX == MaxX as real && enemy.body.posY == row as real && enemy.body.isVisible
      ensures enemy.body.speedX == old(enemy.body.speedX) && enemy.body.speedY == old(enemy.body.speedY)
    {
      enemy.body.MoveTo(MaxX as real, row as real);
      enemy.body.isVisible := true;
    }

    /** `on_boom_done`: one level harder, and a new enemy on row `respawnRow`. */
    method OnBoomDone(respawnRow: int)
      requires MinY <= respawnRow <= MaxY
      modifies this, enemy.body
      ensures difficulty == old(difficulty) + 1
      ensures enemy.body.posX == MaxX as real && enemy.body.posY == respawnRow as real && enemy.body.isVisible
      ensures enemy.body.speedX == old(enemy.body.speedX) && enemy.body.speedY == old(enemy.body.speedY)
    {
      IncreaseDifficulty();
      RespawnEnemy(respawnRow);
    }

    /**
     * `on_hit_enemy`: enemy and projectile disappear, and the explosion
     * starts at the enemy's position with `on_boom_done` as its callback.
     */
    method OnHitEnemy()
      requires Valid() && enemy.body.isVisible
      modifies enemy.body, projectile.body, boom, boom.body
      ensures Valid()
      ensures !enemy.body.isVisible && !projectile.body.isVisible
      ensures boom.State() == Anim(true, 0.0, Some(BoomDone))
      ensures boom.body.posX == old(enemy.body.posX) && boom.body.posY == old(enemy.body.posY)
      ensures enemy.body.posX == old(enemy.body.posX) && enemy.body.posY == old(enemy.body.posY)
      ensures enemy.body.speedX == old(enemy.body.speedX) && enemy.body.speedY == old(enemy.body.speedY)
      ensures projectile.State() == old(projectile.State()).(visible := false)
    {
      enemy.body.isVisible := false;
      projectile.body.isVisible := false;
      boom.body.MoveToObject(enemy.body);
      boom.Start(Some(BoomDone));
    }

    /** `check_projectile_hits_enemy`: with both on screen, a hit sets off the explosion. */
    method CheckProjectileHitsEnemy() returns (hit: bool)
      requires Valid()
      modifies enemy.body, projectile.body, boom, boom.body
      ensures Valid()
      ensures hit <==> old(projectile.body.isVisible && enemy.body.isVisible &&
                           Hits(projectile.body.posX, projectile.body.posY, enemy.body.posX, enemy.body.posY))
      ensures hit ==> !enemy.body.isVisible && !projectile.body.isVisible && boom.State() == Anim(true, 0.0, Some(BoomDone))
      ensures hit ==> boom.body.posX == old(enemy.body.posX) && boom.body.posY == old(enemy.body.posY)
      ensures enemy.body.posX == old(enemy.body.posX) && enemy.body.posY == old(enemy.body.posY)
      ensures enemy.body.speedX == old(enemy.body.speedX) && enemy.body.speedY == old(enemy.body.speedY)
      ensures hit ==> projectile.State() == old(projectile.State()).(visible := false)
      ensures !hit ==> unchanged(enemy.body, projectile.body, boom, boom.body)
    {
      hit := false;
      if projectile.body.isVisible && enemy.body.isVisible {
        if ToPixel(projectile.body.posX) >= ToPixel(enemy.body.posX) &&
           ToPixel(projectile.body.posY) == ToPixel(enemy.body.posY) {
          OnHitEnemy();
          hit := true;
        }
      }
    }

    /**
     * `ship_fires`: a new shot leaves the ship at 6 px/s only when none is
     * flying and there is an enemy to shoot at.
     */
    method ShipFires() returns (fired: bool)
      requires Valid()
      modifies projectile, projectile.body
      ensures Valid()
      ensures fired <==> !old(projectile.body.isVisible) && enemy.body.isVisible
      ensures fired ==> projectile.State() ==
                          Flight(ship.body.posX, ship.body.posY, ShotSpeed, old(projectile.body.speedY), true, Some(NotifyMiss))
      ensures !fired ==> unchanged(projectile, projectile.body)
    {
      fired := false;
      if !projectile.body.isVisible && enemy.body.isVisible {
        projectile.Fire(ship.body, ShotSpeed, NotifyMiss);
        fired := true;
      }
    }

    /**
     * Run a callback an update handed back: the miss only plays a sound; the
     * explosion's completion is `on_boom_done`.
     */
    method Perform(action: Action, respawnRow: int)
      requires MinY <= respawnRow <= MaxY
      modifies this, enemy.body
      ensures action == NotifyMiss ==> difficulty == old(difficulty) && unchanged(enemy.body)
      ensures action == BoomDone ==> difficulty == old(difficulty) + 1 && enemy.body.isVisible
      ensures action == BoomDone ==> enemy.body.posX == MaxX as real && enemy.body.posY == respawnRow as real
      ensures enemy.body.speedX == old(enemy.body.speedX) && enemy.body.speedY == old(enemy.body.speedY)
    {
      match action
      case NotifyMiss =>
      case BoomDone => OnBoomDone(respawnRow);
    }

    /**
     * The moving half of `update_game_state`: the ship, the projectile (a
     * miss hands back the stored callback) and the enemy's AI step, which
     * sees the ship and the projectile where they have just moved.  The
     * random draws of the AI are parameters; `steered` is the enemy's speed
     * after its AI step, before the bounce.
     */
    method MoveEntities(dt: real, countdownDraw: int, action: int, jumpDraw: int)
      returns (missed: Option<Action>, ghost steered: real)
      requires Valid()
      requires 1 <= countdownDraw <= DrawBound(difficulty) && 1 <= action <= 6 && 0 <= jumpDraw <= 1
      modifies enemy, enemy.body, ship.body, projectile, projectile.body
      ensures Valid()
      ensures InGrid(ship.body.posX, ship.body.posY) && InGrid(enemy.body.posX, enemy.body.posY)
      ensures ship.body.posX == ClipX(Advance(old(ship.body.posX), ship.body.speedX, dt))
      ensures ship.body.posY == ClipY(Advance(old(ship.body.posY), old(ship.body.speedY) + dt * GravityAcc, dt))
      ensures ship.body.speedY == if ship.body.posY >= MaxY as real then 0.0 else old(ship.body.speedY) + dt * GravityAcc
      ensures ship.body.speedX == old(ship.body.speedX) && ship.body.isVisible == old(ship.body.isVisible)
      ensures projectile.State() == Projectiles.Tick(old(projectile.State()), dt)
      ensures missed == if Misses(old(projectile.State()), dt) then Some(NotifyMiss) else None
      ensures steered == SteeredSpeed(old(enemy.evadeCountdownMs) - dt < 0.0, action, difficulty,
                                      old(enemy.body.speedY), old(enemy.body.posY),
                                      projectile.body.isVisible, projectile.body.posY,
                                      ship.body.isVisible, ship.body.posY)
      ensures enemy.body.posX == ClipX(Advance(old(enemy.body.posX), enemy.body.speedX, dt))
      ensures enemy.body.posY == ClipY(Advance(old(enemy.body.posY), steered, dt))
      ensures enemy.body.speedY == Bounced(enemy.body.posY, steered)
      ensures enemy.body.speedX == old(enemy.body.speedX) && enemy.body.isVisible == old(enemy.body.isVisible)
      ensures enemy.speedPxPerS == SpeedPxPerS(difficulty)
      ensures enemy.evadeCountdownMs == CountdownAfter(old(enemy.evadeCountdownMs), dt, countdownDraw)
    {
      ship.Update(dt);
      missed := projectile.Update(dt);
      steered := enemy.Update(dt, difficulty, projectile, ship, countdownDraw, action, jumpDraw);
    }

    /**
     * The event half of `update_game_state`: the hit test, then the
     * explosion's clock, starting from `AfterHitTest`; its completion hands
     * back `on_boom_done`, which runs here with the respawn row drawn
     * beforehand.
     */
    method ResolveEvents(dt: real, respawnRow: int) returns (hit: bool, done: Option<Action>)
      requires Valid() && InGrid(enemy.body.posX, enemy.body.posY)
      requires MinY <= respawnRow <= MaxY
      modifies this, enemy.body, projectile.body, boom, boom.body
      ensures Valid()
      ensures InGrid(enemy.body.posX, enemy.body.posY)
      ensures hit <==> old(projectile.body.isVisible && enemy.body.isVisible &&
                           Hits(projectile.body.posX, projectile.body.posY, enemy.body.posX, enemy.body.posY))
      ensures projectile.State() == if hit then old(projectile.State()).(visible := false) else old(projectile.State())
      ensures boom.State() == Explosion.Tick(AfterHitTest(hit, old(boom.State())), dt)
      ensures hit ==> boom.body.posX == old(enemy.body.posX) && boom.body.posY == old(enemy.body.posY)
      ensures !hit ==> boom.body.posX == old(boom.body.posX) && boom.body.posY == old(boom.body.posY)
      ensures done == if Completes(AfterHitTest(hit, old(boom.State())), dt) then Some(BoomDone) else None
      ensures done.Some? ==> difficulty == old(difficulty) + 1 && enemy.body.isVisible &&
                             enemy.body.posX == MaxX as real && enemy.body.posY == respawnRow as real
      ensures done.None? ==> difficulty == old(difficulty) && enemy.body.isVisible == (old(enemy.body.isVisible) && !hit) &&
                             enemy.body.posX == old(enemy.body.posX) && enemy.body.posY == old(enemy.body.posY)
      ensures enemy.body.speedX == old(enemy.body.speedX) && enemy.body.speedY == old(enemy.body.speedY)
    {
      hit := CheckProjectileHitsEnemy();
      done := boom.Update(dt);
      if done.Some? {
        Perform(done.value, respawnRow);
      }
    }

    /**
     * `update_game_state` for a frame of `dt` ms: ship, projectile (with its
     * miss callback), enemy, hit test, explosion (with its completion
     * callback), in that order.  The random draws of the enemy's AI and of
     * the respawn row are parameters.  Returns the callbacks that ran, and,
     * as ghosts, whether the hit test fired and the enemy's steered speed.
     */
    method UpdateGameState(dt: real, countdownDraw: int, action: int, jumpDraw: int, respawnRow: int)
      returns (invoked: seq<Action>, ghost hit: bool, ghost steered: real)
      requires Valid()
      requires 1 <= countdownDraw <= DrawBound(difficulty) && 1 <= action <= 6 && 0 <= jumpDraw <= 1
      requires MinY <= respawnRow <= MaxY
      modifies this, enemy, enemy.body, ship.body, projectile, projectile.body, boom, boom.body
      ensures Valid()
      ensures InGrid(ship.body.posX, ship.body.posY) && InGrid(enemy.body.posX, enemy.body.posY)
      ensures ship.body.posX == ClipX(Advance(old(ship.body.posX), ship.body.speedX, dt))
      ensures ship.body.posY == ClipY(Advance(old(ship.body.posY), old(ship.body.speedY) + dt * GravityAcc, dt))
      ensures ship.body.speedY == if ship.body.posY >= MaxY as real then 0.0 else old(ship.body.speedY) + dt * GravityAcc
      ensures var moved := Projectiles.Tick(old(projectile.State()), dt);
              steered == SteeredSpeed(old(enemy.evadeCountdownMs) - dt < 0.0, action, old(difficulty),
                                      old(enemy.body.speedY), old(enemy.body.posY),
                                      moved.visible, moved.y, ship.body.isVisible, ship.body.posY)
      ensures var moved := Projectiles.Tick(old(projectile.State()), dt);
              hit <==> moved.visible && old(enemy.body.isVisible) &&
                       Hits(moved.x, moved.y, ClipX(Advance(old(enemy.body.posX), old(enemy.body.speedX), dt)),
                            ClipY(Advance(old(enemy.body.posY), steered, dt)))
      ensures var moved := Projectiles.Tick(old(projectile.State()), dt);
              projectile.State() == if hit then moved.(visible := false) else moved
      ensures boom.State() == Explosion.Tick(AfterHitTest(hit, old(boom.State())), dt)
      ensures hit ==> boom.body.posX == ClipX(Advance(old(enemy.body.posX), old(enemy.body.speedX), dt)) &&
                      boom.body.posY == ClipY(Advance(old(enemy.body.posY), steered, dt))
      ensures !hit ==> boom.body.posX == old(boom.body.posX) && boom.body.posY == old(boom.body.posY)
      ensures enemy.body.speedY == Bounced(ClipY(Advance(old(enemy.body.posY), steered, dt)), steered)
      ensures enemy.body.speedX == old(enemy.body.speedX)
      ensures enemy.speedPxPerS == SpeedPxPerS(old(difficulty))
      ensures enemy.evadeCountdownMs == CountdownAfter(old(enemy.evadeCountdownMs), dt, countdownDraw)
      ensures NotifyMiss in invoked <==> Misses(old(projectile.State()), dt)
      ensures BoomDone in invoked <==> Completes(AfterHitTest(hit, old(boom.State())), dt)
      ensures BoomDone in invoked <==> difficulty == old(difficulty) + 1
      ensures BoomDone !in invoked <==> difficulty == old(difficulty)
      ensures BoomDone in invoked ==> enemy.body.isVisible && enemy.body.posX == MaxX as real &&
                                      enemy.body.posY == respawnRow as real
      ensures BoomDone !in invoked ==>
                enemy.body.isVisible == (old(enemy.body.isVisible) && !hit) &&
                enemy.body.posX == ClipX(Advance(old(enemy.body.posX), old(enemy.body.speedX), dt)) &&
                enemy.body.posY == ClipY(Advance(old(enemy.body.posY), steered, dt))
      ensures |invoked| <= 2
    {
      invoked := [];
      var missed;
      missed, steered := MoveEntities(dt, countdownDraw, action, jumpDraw);
      if missed.Some? {
        Perform(missed.value, respawnRow);
        invoked := [missed.value];
      }
      var done;
      hit, done := ResolveEvents(dt, respawnRow);
      if done.Some? {
        invoked := invoked + [done.value];
      }
    }

    /**
     * The ship-steering part of `process_input`, on samples already read:
     * `deflection` is the joystick reading minus the calibrated centre, and
     * each flag says whether that button's press was pending.  A deflection
     * beyond the dead zone sets the ship's speed against it; a press moves
     * the ship a row and gives it a 2 px/s push, the later one winning.
     */
    method SteerShip(deflection: real, down: bool, up: bool)
      modifies ship.body
      ensures ship.body.posY == old(ship.body.posY) + (if down then 1.0 else 0.0) - (if up then 1.0 else 0.0)
      ensures ship.body.speedY ==
                if up then ToSpeed(-ButtonPressSpeed)
                else if down then ToSpeed(ButtonPressSpeed)
                else if Abs(deflection) > JoystickDeadZone then -ToSpeed(deflection / 32.0)
                else old(ship.body.speedY)
      ensures ship.body.posX == old(ship.body.posX) && ship.body.speedX == old(ship.body.speedX)
      ensures ship.body.isVisible == old(ship.body.isVisible)
    {
      if Abs(deflection) > JoystickDeadZone {
        ship.body.speedY := -ToSpeed(deflection / 32.0);
      }
      if down {
        ship.body.posY := ship.body.posY + 1.0;
        ship.body.speedY := ToSpeed(ButtonPressSpeed);
      }
      if up {
        ship.body.posY := ship.body.posY - 1.0;
        ship.body.speedY := ToSpeed(-ButtonPressSpeed);
      }
    }

    /**
     * `process_input` on samples already read: steer the ship, send a fire
     * press through the firing gate, and let the left button raise the
     * difficulty.
     */
    method ProcessInput(deflection: real, down: bool, up: bool, fire: bool, harder: bool) returns (fired: bool)
      requires Valid()
      modifies this, ship.body, projectile, projectile.body
      ensures Valid()
      ensures ship.body.posY == old(ship.body.posY) + (if down then 1.0 else 0.0) - (if up then 1.0 else 0.0)
      ensures ship.body.speedY ==
                if up then ToSpeed(-ButtonPressSpeed)
                else if down then ToSpeed(ButtonPressSpeed)
                else if Abs(deflection) > JoystickDeadZone then -ToSpeed(deflection / 32.0)
                else old(ship.body.speedY)
      ensures ship.body.posX == old(ship.body.posX) && ship.body.speedX == old(ship.body.speedX)
      ensures ship.body.isVisible == old(ship.body.isVisible)
      ensures fired <==> fire && !old(projectile.body.isVisible) && enemy.body.isVisible
      ensures fired ==> projectile.State() ==
                          Flight(ship.body.posX, ship.body.posY, ShotSpeed, old(projectile.body.speedY), true, Some(NotifyMiss))
      ensures !fired ==> unchanged(projectile, projectile.body)
      ensures difficulty == old(difficulty) + if harder then 1 else 0
    {
      SteerShip(deflection, down, up);
      fired := false;
      if fire {
        fired := ShipFires();
      }
      if harder {
        IncreaseDifficulty();
      }
    }

    /** Everything `draw` asks of the display, in drawing order. */
    function SceneStrokes(): seq<Stroke>
      reads this, projectile, projectile.body, boom, boom.body, enemy.body, ship.body
    {
      projectile.Strokes() + boom.Strokes() + enemy.body.Strokes() + ship.body.Strokes()
    }

    /** The drawing half of `draw`: clear the back buffer and paint the scene into it. */
    method DrawScene()
      requires Valid()
      modifies display.pixels
      ensures display.pixels[..] == Paint(Blank(), SceneStrokes())
      ensures ValuesWithin(display.pixels[..], 0, 9)
    {
      display.Clear();
      projectile.Draw(display);
      boom.Draw(display);
      enemy.Draw(display);
      ship.Draw(display);
      SceneIsPainted(projectile.Strokes(), boom.Strokes(), enemy.body.Strokes(), ship.body.Strokes());
      EntityStrokesWithin(projectile, boom, enemy.body, ship.body);
      SceneWithin(projectile.Strokes(), boom.Strokes(), enemy.body.Strokes(), ship.body.Strokes());
    }

    /**
     * `draw`: clear, draw projectile, explosion, enemy and ship, then commit.
     * The committed frame is the scene painted on a blank frame, the writes
     * are exactly the differential update from the previously committed
     * frame, replaying them on that frame gives the new one, and every
     * written value is a brightness 0..9.
     */
    method Draw() returns (writes: seq<PixelWrite>)
      requires Valid()
      modifies display, display.pixels
      ensures Valid()
      ensures display.oldPixels[..] == Paint(Blank(), SceneStrokes())
      ensures writes == DiffWrites(old(display.oldPixels[..]), display.oldPixels[..])
      ensures Apply(old(display.oldPixels[..]), writes) == display.oldPixels[..]
      ensures forall k :: 0 <= k < |writes| ==> 0 <= writes[k].v <= 9
    {
      DrawScene();
      ghost var frame := display.pixels[..];
      ghost var committed := display.oldPixels[..];
      writes := display.Update();
      ApplyDiffWrites(committed, frame);
      DiffWritesWithin(committed, frame, 0, 9);
    }
  }

  /** Painting four stroke lists one after another paints their concatenation. */
  lemma SceneIsPainted(a: seq<Stroke>, b: seq<Stroke>, c: seq<Stroke>, d: seq<Stroke>)
    ensures Paint(Paint(Paint(Paint(Blank(), a), b), c), d) == Paint(Blank(), a + b + c + d)
  {
    PaintAppend(Blank(), a, b);
    PaintAppend(Blank(), a + b, c);
    PaintAppend(Blank(), a + b + c, d);
  }

  /** Every entity draws with brightnesses 0..9. */
  lemma EntityStrokesWithin(p: Projectile, b: BoomAnimation, e: GameObject, s: GameObject)
    ensures StrokesWithin(p.Strokes(), 0, 9) && StrokesWithin(b.Strokes(), 0, 9)
    ensures StrokesWithin(e.Strokes(), 0, 9) && StrokesWithin(s.Strokes(), 0, 9)
  {
  }

  /** A scene whose strokes are brightnesses 0..9 paints a frame of brightnesses 0..9. */
  lemma SceneWithin(a: seq<Stroke>, b: seq<Stroke>, c: seq<Stroke>, d: seq<Stroke>)
    requires StrokesWithin(a, 0, 9) && StrokesWithin(b, 0, 9) && StrokesWithin(c, 0, 9) && StrokesWithin(d, 0, 9)
    ensures ValuesWithin(Paint(Blank(), a + b + c + d), 0, 9)
  {
    assert StrokesWithin(a + b + c + d, 0, 9);
    PaintWithin(Blank(), a + b + c + d, 0, 9);
  }
}
