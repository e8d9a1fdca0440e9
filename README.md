# SpacePyew in Dafny

A model of the micro:bit game SpacePyew (`main.py`). The player's ship sits in
the left column of a 5x5 LED grid. It falls under gravity and can be steered
with a joystick and buttons. It fires single shots at an enemy that patrols
the right edge and evades. A hit sets off a one-second explosion. When the
explosion ends, the difficulty goes up by one and a new enemy appears.

The model covers:

- **Geometry**: the coordinate system. `clamp`, Python's half-to-even
  `round`, truncation by `int(...)`, clipping into the grid, and the
  px/s to px/ms speed conversion.
- **Display**: the double-buffered display, with two 25-cell arrays.
  - Entities draw into `pixels` through `set_pixel`.
  - `clear` zeroes `pixels`.
  - `update` sends the hardware only the cells that changed since the last
    committed frame, then swaps the arrays.
  - The hardware is represented by the list of `(x, y, v)` writes that
    `update` returns.
  - Pure functions specify each step: `Plot`, `Paint`, `Diff`/`DiffWrites`
    and `Apply`.
- **Objects, Projectiles, Explosion, EnemyAI**: the entities. Each entity
  class holds its `GameObject` position/velocity/visibility record as
  `body`. `Ship` adds gravity. `Projectile` and `BoomAnimation` have a
  one-shot callback each.
- **Game**: `SpacePyew`. It covers the hit test, the explosion and its
  completion, the single-shot firing gate, the per-frame update, input
  handling on samples already read, and drawing.
  - A class invariant `Valid()` ties the entities together. The enemy is
    visible exactly when the explosion is not. A shot flies only while the
    enemy is there. The stored callbacks are the game's own.
- **Peripherals**: the joystick auto-calibration window, the latched button
  press, and the rumble motor's PWM conversions.

How the model represents the program:

- **Callbacks.** A callback is stored as an optional `Action`. The update
  that takes and clears it returns it, and `SpacePyew` runs it. Ghost
  counters (`missCalls`, `doneCalls`) count the invocations.
- **Randomness.** Every `random.randint` draw is a bounded parameter.
- **Time.** The frame time `dt` (ms) is a parameter.
- **Positions.** Positions are exact reals.
- **Several frames.** `Projectiles.Tick`/`Run` and `Explosion.Tick`/`Run`
  are pure descriptions of one update and of a sequence of updates. The
  class methods are proved to follow `Tick`.

## Model

| member | source | states |
|---|---|---|
| `Geometry.Clamp` | main.py:8-9 | with `lo <= hi` the result lies in `[lo, hi]`; an `x` already inside is returned unchanged; below `lo` gives `lo`, above `hi` gives `hi`; with `hi < lo` the lower bound wins |
| `Geometry.ClampInt` | main.py:8-9 | `clamp` on integers agrees with `Clamp` on reals |
| `Geometry.ClampIdempotent` | main.py:8-9 | clamping twice equals clamping once |
| `Geometry.Round` | main.py:256-262 | `round` is within 0.5 of its argument, and ties go to the even integer |
| `Geometry.RoundIsNearest` | main.py:256-262 | no integer is strictly closer to `x` than `round(x)` |
| `Geometry.RoundOfInteger` | main.py:256-262 | an integral coordinate rounds to itself |
| `Geometry.RoundMonotone` | main.py:256-262 | rounding is monotone |
| `Geometry.Trunc` | main.py:522-524 | `int(x)` truncates toward zero: it is the floor for `x >= 0`, within 1 of `x`, and never larger than `x` in magnitude |
| `Geometry.ToPixel` | main.py:256-262 | `to_x`/`to_y` give the integer nearest the coordinate, within 0.5 of it |
| `Geometry.ClipX` | main.py:264-266 | the clipped x lies in 0..4 |
| `Geometry.ClipY` | main.py:268-270 | the clipped y lies in 0..4 |
| `Geometry.InGridRoundsOnGrid` | main.py:256-270 | a position inside the grid bounds rounds to one of the 25 pixels |
| `Geometry.ToSpeed` | main.py:272-274 | a px/ms speed times 1000 is the px/s speed |
| `Display.Blank` | main.py:22-25 | the cleared frame has 25 cells, all 0 |
| `Display.Ramp` | main.py:12-14 | the initial buffers hold `range(0, 25)` |
| `Display.CellCoordinates` | main.py:16-20 | cell `y * 5 + x` of an on-grid pixel is in 0..24 and gives back `x` and `y` |
| `Display.CellIndexInjective` | main.py:29-34 | two on-grid writes to the same cell index are to the same pixel |
| `Display.Plot` | main.py:16-20 | `set_pixel` writes `v` to cell `y * 5 + x` of the rounded position when both coordinates are in 0..4, and changes no other cell; off-grid it changes nothing |
| `Display.Paint` | main.py:16-20 | a run of `set_pixel` calls, in order, leaves a 25-cell frame (its effects are stated by `PaintAppend`, `PaintWithin` and the `Draw` contracts) |
| `Display.PaintAppend` | main.py:451-457 | painting two batches of strokes one after the other is painting their concatenation |
| `Display.PaintWithin` | main.py:16-20 | painting keeps every cell within a range that holds the frame and all stroke values |
| `Display.WriteAt` | main.py:29-34 | the write for cell `i` is on the grid, addresses cell `i` and carries the frame's value |
| `Display.Diff` | main.py:29-34 | each write of the scan is on the grid, targets a scanned cell whose value changed, and carries the new value |
| `Display.DiffWritesWithin` | main.py:27-34 | every written value is a value of the new frame |
| `Display.DiffOrdered` | main.py:29-34 | the writes come in strictly increasing row-major order, so no cell is written twice |
| `Display.DiffComplete` | main.py:29-34 | every changed cell is written, with its new value |
| `Display.ApplyDiffPrefix` | main.py:29-34 | after the writes for the first `n` cells the display shows the new frame there and the old one elsewhere |
| `Display.ApplyDiffWrites` | main.py:27-39 | a display showing the previous frame shows exactly the new frame once `update`'s writes are applied |
| `Display.SingleChangeSingleWrite` | main.py:27-34 | frames differing in one cell produce exactly one write, to that cell |
| `Display.DoubleBuffered5x5Display.constructor` | main.py:12-14 | both buffers hold `range(0, 25)` and are distinct arrays |
| `Display.DoubleBuffered5x5Display.SetPixel` | main.py:16-20 | the front buffer becomes `Plot` of the old one |
| `Display.DoubleBuffered5x5Display.Clear` | main.py:22-25 | the front buffer becomes all zero |
| `Display.DoubleBuffered5x5Display.Update` | main.py:27-39 | the writes are `DiffWrites` from the committed frame to the front buffer; the two arrays are swapped |
| `Objects.TotalTimeAtLeast` | main.py:183-192 | `n` frames of at least `dMin` ms last at least `n * dMin` ms |
| `Objects.GameObject.constructor` | main.py:50-60 | at the origin, at rest, invisible |
| `Objects.GameObject.Draw` | main.py:62-64 | a visible object paints its rounded position at brightness 5; an invisible one paints nothing |
| `Objects.GameObject.Update` | main.py:66-71 | one Euler step of `dt` ms, clamped into the grid when clipping, so a clipped object ends up inside it; speeds and visibility unchanged |
| `Objects.GameObject.MoveTo` | main.py:73-80 | the position becomes `(x, y)`, nothing else changes |
| `Objects.GameObject.MoveToObject` | main.py:73-77 | the position becomes the other object's position, nothing else changes |
| `Objects.Ship.constructor` | main.py:158-163 | visible at the left edge on the centre row, at rest |
| `Objects.Ship.Update` | main.py:165-169 | gravity is added, the body moves with clipping and stays in the grid, and reaching the bottom row zeroes the vertical speed |
| `Objects.Ship.Draw` | main.py:62-64 | paints the ship's body |
| `Projectiles.Tick` | main.py:183-198 | an invisible projectile is unchanged; a visible one moves without clipping, and leaving the grid widened by one hides it and clears its callback; speeds never change |
| `Projectiles.RunInvisible` | main.py:183-184 | updates of an invisible projectile change nothing and invoke nothing |
| `Projectiles.MissCallbackRunsOnce` | main.py:183-198 | a shot flying right along the grid misses exactly when the total time carries it past `x = 5`, and its callback then runs exactly once |
| `Projectiles.ShotMissesWithinBoundedFrames` | main.py:183-198 | a 6 px/s shot from inside the grid has missed, with exactly one notification, after any `n` frames of at least `dMin` ms with `n * dMin >= 1000` |
| `Projectiles.Projectile.constructor` | main.py:173-175 | invisible, at rest, no callback |
| `Projectiles.Projectile.Fire` | main.py:177-181 | at the origin's position, visible, with the given horizontal speed and callback |
| `Projectiles.Projectile.Update` | main.py:183-192 | the new state is `Tick` of the old one; the callback is returned, and counted, exactly when the update misses |
| `Projectiles.Projectile.OnMiss` | main.py:194-198 | invisible, the callback taken and cleared, one more invocation counted, the position kept |
| `Projectiles.Projectile.Draw` | main.py:200-203 | a visible shot paints its head at 9 and the pixel to its left at 4 |
| `Explosion.Tick` | main.py:217-224 | an invisible animation is unchanged; a visible one adds `dt`, and reaching 1000 ms hides it and clears its callback |
| `Explosion.RunInvisible` | main.py:217-218 | once finished, later updates change nothing and run nothing |
| `Explosion.CompletionRunsOnce` | main.py:217-224 | a running animation completes exactly when its clock reaches 1000 ms, and its callback then runs exactly once |
| `Explosion.StartedAnimationCompletesOnce` | main.py:212-224 | after `start(callback)`, the callback has run once when the frames add up to 1000 ms, and not before |
| `Explosion.Shape` | main.py:226-232 | one stroke per offset around the centre, in order, at the given brightness |
| `Explosion.Phase` | main.py:234-244 | the centre at 9 up to 100 ms, the plus at 9 up to 400 ms, the plus at 5 then the X at 9 up to 700 ms, the X at 4 up to 1000 ms; every stroke is within one pixel of the centre at brightness 4, 5 or 9 |
| `Explosion.BoomAnimation.constructor` | main.py:207-210 | invisible, clock at zero, no callback |
| `Explosion.BoomAnimation.Start` | main.py:212-215 | visible, clock at zero, the callback stored, position kept |
| `Explosion.BoomAnimation.Update` | main.py:217-224 | the new state is `Tick` of the old one; the stored callback is returned, and counted, exactly when the update completes the animation |
| `Explosion.BoomAnimation.DrawShape` | main.py:226-232 | the buffer becomes the old one painted with `Shape` |
| `Explosion.BoomAnimation.Draw` | main.py:234-244 | a visible animation paints `Phase` of its clock; an invisible one paints nothing |
| `EnemyAI.SpeedPxPerS` | main.py:129 | the speed is ten per cent faster per difficulty level: `10 v = 10 + difficulty` |
| `EnemyAI.SpeedMagnitude` | main.py:129-132 | the vertical speed magnitude is `0.001 * (1 + difficulty / 10)` px/ms |
| `EnemyAI.CopySign` | main.py:130-132 | the magnitude of `m` with the sign of `s` |
| `EnemyAI.NextCountdown` | main.py:136-146 | a new countdown is `clamp(draw, 1, 50) * 20 + 50`, always within 70..1050 ms |
| `EnemyAI.CountdownAfter` | main.py:134-146 | the countdown runs down by `dt`; once it would be negative it is replaced by a fresh draw, so it is never left negative |
| `EnemyAI.CountdownBoundByDifficulty` | main.py:136-146 | for a draw of the game's range the clamp does nothing, and the countdown is at most `max(2, 50 - difficulty) * 20 + 50` |
| `EnemyAI.EvadeReverses` | main.py:107-116 | `_evade_y` reverses exactly when the target is visible, at most two rows away, and approached |
| `EnemyAI.JumpAccepted` | main.py:118-126 | the jump guard never holds |
| `EnemyAI.AiSpeed` | main.py:148-154 | actions 1-3 reverse the speed exactly when `EvadeReverses` holds and keep it otherwise; 4-5 keep the speed; 6 reverses; the magnitude never changes |
| `EnemyAI.Bounced` | main.py:98-102 | the bounce keeps the speed's magnitude |
| `EnemyAI.SteeredSpeed` | main.py:128-154 | after the AI step the magnitude is the difficulty's; while the countdown has not expired the sign is kept |
| `EnemyAI.Enemy.constructor` | main.py:84-92 | visible at the right edge on the drawn row, moving down at the base speed, with the drawn countdown |
| `EnemyAI.Enemy.Update` | main.py:94-102 | speed and countdown follow the difficulty step; the body moves with clipping at the steered speed and stays in the grid; the bounce decides the final sign; the speed magnitude is the difficulty's |
| `EnemyAI.Enemy.Move` | main.py:96-102 | a clipped move at the current speed, then the bounce |
| `EnemyAI.Enemy.Bounce` | main.py:98-102 | on or past the top or bottom row the vertical speed reverses; the position is kept |
| `EnemyAI.Enemy.ReflectSpeedY` | main.py:104-105 | the vertical speed is negated, nothing else changes |
| `EnemyAI.Enemy.EvadeY` | main.py:107-116 | the speed reverses exactly when `EvadeReverses` holds |
| `EnemyAI.Enemy.EvasiveJump` | main.py:118-126 | the position, speeds and visibility are all unchanged |
| `EnemyAI.Enemy.DifficultyUpdates` | main.py:128-154 | the speed is rescaled to the difficulty's with its sign kept, the countdown follows `CountdownAfter`, on expiry the drawn action is applied, and the position is kept |
| `EnemyAI.Enemy.Draw` | main.py:62-64 | paints the enemy's body |
| `Game.Hits` | main.py:444-449 | the hit test: rounded shot column at or past the enemy's and the same rounded row; a hit is at most one column short and one row off, and a shot on or past the enemy on its exact row always hits |
| `Game.HitsFurtherRight` | main.py:444-449 | the horizontal test is one-sided: a shot further right than a hitting one also hits |
| `Game.HitScenarios` | main.py:444-449 | the shot on the enemy's cell hits; one column short or one row off does not |
| `Game.AfterHitTest` | main.py:420-428 | after a hit the explosion is visible at time 0 with `on_boom_done` stored; without one it is unchanged |
| `Game.SpacePyew.constructor` | main.py:346-363 | difficulty 0; the enemy visible at the right edge on the drawn row, at the base speed moving down, with the drawn countdown; the ship visible at (0, 2) at rest; projectile and explosion invisible at rest with no callback; both display buffers `range(0, 25)`; the invariant established |
| `Game.SpacePyew.IncreaseDifficulty` | main.py:434-438 | the difficulty goes up by one |
| `Game.SpacePyew.RespawnEnemy` | main.py:440-442 | the enemy is visible at `x = 4` on the drawn row |
| `Game.SpacePyew.OnBoomDone` | main.py:430-432 | difficulty up by one, the enemy respawned visible on the drawn row with its speeds kept |
| `Game.SpacePyew.OnHitEnemy` | main.py:420-428 | enemy and shot disappear, the enemy keeping its position and speeds and the shot its position and speeds; the explosion starts at the enemy's position with `on_boom_done` stored; the invariant is kept |
| `Game.SpacePyew.CheckProjectileHitsEnemy` | main.py:444-449 | a hit happens exactly when both are visible and `Hits` holds, and then has the effects of `on_hit_enemy`; the enemy's position and speeds are kept either way; without a hit nothing changes |
| `Game.SpacePyew.ShipFires` | main.py:461-472 | a shot is fired exactly when none is flying and the enemy is visible; it leaves the ship at 6 px/s with the miss notification stored; otherwise the projectile is unchanged |
| `Game.SpacePyew.Perform` | main.py:430-432 | the miss callback changes no game state; the explosion's completion raises the difficulty and respawns the enemy; the enemy's speeds are kept |
| `Game.SpacePyew.MoveEntities` | main.py:411-414 | the ship's new state as `Ship.Update` gives it; the projectile's state is `Tick` of the old one, and the miss notification is handed back exactly when the update misses; the enemy's new state as `Enemy.Update` gives it, its AI seeing the ship and projectile where they have just moved; the invariant is kept |
| `Game.SpacePyew.ResolveEvents` | main.py:416-418 | the hit test fires exactly when both are visible and `Hits` holds; the explosion's state is `Tick` of its state after the hit test, and `on_boom_done` runs exactly when that update completes it, raising the difficulty by one and respawning the enemy; otherwise difficulty and enemy position are kept; a hit places the explosion on the enemy, and without a hit the explosion stays where it was; the enemy's speeds are kept |
| `Game.SpacePyew.UpdateGameState` | main.py:411-418 | a whole frame: the ship moves as `Ship.Update` says; the miss notification runs exactly when the shot leaves the grid widened by one; the hit test fires exactly when the moved shot and the moved enemy are both visible and `Hits` holds; the explosion follows `Tick` from its state after the hit test, and `on_boom_done` runs exactly when that completes it, which is exactly when the difficulty rises by one and the enemy is respawned; otherwise the enemy ends where it moved; the enemy's vertical speed is `Bounced` at its moved row, its speed scale follows the difficulty at the start of the frame and its countdown is `CountdownAfter`; a hit places the explosion on the moved enemy, and without a hit the explosion stays where it was; at most two callbacks run; the invariant is kept |
| `Game.SpacePyew.SteerShip` | main.py:389-404 | a deflection beyond 3 sets the ship's speed against it; a down or up press moves the ship a row with a 2 px/s push, and up wins; the ship's x, horizontal speed and visibility are kept |
| `Game.SpacePyew.ProcessInput` | main.py:380-409 | the ship is steered as `SteerShip` states; a shot is fired exactly when fire is pressed and the gate opens, leaving from the steered ship; the left button raises the difficulty by one |
| `Game.SpacePyew.DrawScene` | main.py:451-457 | the front buffer is the scene (projectile, explosion, enemy, ship) painted on a blank frame, every cell at brightness 0..9 |
| `Game.SpacePyew.Draw` | main.py:451-459 | the committed frame is the painted scene; the writes are exactly the differential update from the previous frame, and replaying them on it gives the new frame; every written value is 0..9 |
| `Game.SceneIsPainted` | main.py:451-457 | painting the four entities one after another paints their concatenated strokes |
| `Game.EntityStrokesWithin` | main.py:451-457 | every entity draws with brightnesses 0..9 |
| `Game.SceneWithin` | main.py:451-457 | a scene of brightnesses 0..9 on a blank frame paints only 0..9 |
| `Peripherals.Window` | main.py:282-285 | `add` appends the sample and drops the oldest from a full window, so the window holds 1..32 samples and ends with the new one |
| `Peripherals.Recentred` | main.py:287-306 | `analyze`'s rule: the centre either stays or becomes the mean of the window, and it changes only for a stable window of at least 16 samples whose mean is less than 5 away; conversely every such window moves the centre to its mean |
| `Peripherals.SumBounds` | main.py:293-299 | samples bounded on both sides bound their sum |
| `Peripherals.AverageOfStable` | main.py:293-303 | the mean of a stable window is within one of its first sample |
| `Peripherals.RecentredIsCautious` | main.py:287-306 | the centre moves by less than 5, and only to the mean of a stable window of at least 16 samples; every such window whose mean is less than 5 away moves it there |
| `Peripherals.JoystickAxisAutoCalibration.constructor` | main.py:277-280 | the centre is the initial reading, which is also the only sample |
| `Peripherals.JoystickAxisAutoCalibration.Add` | main.py:282-285 | the window becomes `Window` of the old one; the centre is kept |
| `Peripherals.JoystickAxisAutoCalibration.Analyze` | main.py:287-306 | the centre becomes `Recentred` of the window and the old centre; the window is kept |
| `Peripherals.MyButton.constructor` | main.py:563-571 | no press is latched |
| `Peripherals.MyButton.WasPressed` | main.py:600-603 | returns the latched press and clears it |
| `Peripherals.StrengthToPwmDuty` | main.py:522-524 | the duty is 0..1023: 1023 for strength 0 or less, 0 for 100 or more, and otherwise the truncation of `(100 - s) * 1023 / 100` |
| `Peripherals.StrengthToPwmDutyAntitone` | main.py:522-524 | more strength never means more duty |
| `Peripherals.FreqToPwmPeriod` | main.py:527-532 | the period is 256..1000000 us and within 0.5 us of one second over the clamped frequency |
| `Peripherals.QuotientAntitone` | main.py:529 | one second over a larger frequency is a shorter period |
| `Peripherals.PeriodWithinBounds` | main.py:527-532 | for every frequency in 1..3906 Hz the rounded period lies in 256..1000000 us, so the floor of 256 never applies |
| `Peripherals.FreqToPwmPeriodAntitone` | main.py:527-532 | a higher frequency never gives a longer period |

## Left out

- **Hardware and other devices.** Every `microbit` call is outside the model:
  `display.set_pixel`, `display.scroll`, `audio`, `pin.read_analog`,
  `read_digital`, the PWM output calls and `microbit.scale`. Display output is
  the list of writes returned by `DoubleBuffered5x5Display.Update`.
- **Sound and haptics.** `SoundSystem` and the `RumbleEffect` constants are
  only playback data. The sound and rumble calls inside `on_hit_enemy`,
  `ship_fires` and `on_miss_callback` are left out. `on_miss_callback`
  therefore changes no game state.
- **Wall-clock loops.** These poll the clock, so they are left out:
  `JoystickRumbleSystem.update`, `play`, `stop` and `_apply_pwm`;
  `MyButton.update` (debouncing); `idle`; `SpacePyew.measure_delta_t`; the
  infinite loop `SpacePyew.run`; and `main`. The frame time `dt` is a
  parameter.
- **Scrolling.** `DoubleBuffered5x5Display.scroll` is left out, and so are
  the score scroll and the two `measure_delta_t` calls inside
  `increase_difficulty`. Besides the blocking text output, the scroll runs
  `clear` and `update` twice, which leaves both buffers blank. In the source,
  the `update` after a difficulty increase therefore diffs against a blank
  frame. The model diffs against the last committed scene, so its write list
  for that one frame differs from the source's.
- **Randomness.** The `random` module is not modelled. Each draw is a
  parameter with its range as a precondition:
  - the enemy's starting row (0..4) and first countdown (5000..10000);
  - the countdown draw (`1..max(2, 50 - difficulty)`);
  - the action (1..6);
  - the jump coin (0..1);
  - the respawn row.
- **Floating point.** Positions, speeds and times are exact reals. Bit-exact
  IEEE behaviour is not modelled. `math.copysign` of a negative zero is not
  modelled either: `CopySign` treats zero as positive.
- Game.SpacePyew.ProcessInput: works on samples already read, and reads no
  pins. `deflection` stands for the joystick reading minus the calibrated
  centre, and four booleans stand for the pending button presses (down; A or
  D for up; B or F for fire; C for harder). The calibration object is
  therefore not part of `SpacePyew`. The source tests `A or D` and `B or F`
  with a short-circuiting `or`. When both buttons of a pair are latched, only
  the first is read and cleared, so the second acts again on the next frame.
  One boolean per pair and frame cannot show that carry-over.
- **Callbacks.** They are not invoked inside the entity's update. The update
  hands back the callback it took and cleared, and `SpacePyew` runs it. The
  explosion's `on_boom_done` runs at once, as in the source. The miss
  notification runs after the enemy's update rather than inside the
  projectile's. It changes no game state (its sound is left out), so the
  order cannot be observed.
- **Identity fields.** The `name` and `cs` fields of every entity are left
  out, since they never change.
- **BoomAnimation's clock.** The unused `time_ms` field of `BoomAnimation` is
  left out. The source sets `animation_time_ms` only in `start`. The model
  starts it at 0, which no visible animation can observe.
- EnemyAI.Enemy.EvasiveJump: models the guard as written. It requires the new
  row to be both below row 0 and beyond row 4, so the jump never happens.
  Action 4 or 5 therefore leaves the enemy where it was.
- **Inheritance.** Inheritance from `GameObject` is modelled by composition:
  each entity holds its record as `body`. `Enemy`, `Ship` and `Projectile`
  reach `GameObject.update` through it; `Enemy`, `Projectile` and
  `BoomAnimation` reach `move_to` through it.
