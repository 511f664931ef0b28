# Artillery game: a verified model of the per-tick game state

The game is a single-file pygame program (`maingun.py`) with these parts:

- **The gun** sits at (30, 500). It charges while the mouse button is held. When the button is released it fires a projectile whose speed is its charge.
- **Projectiles** fly under a two-step gravity rule with quadratic air drag. Each has a lifetime that runs down by 0.1 per frame.
- **Two circular targets** drift across the arena and bounce off its walls. A target that is hit respawns at random.

This project models the state of that game and its per-frame update in Dafny. One module covers each concern:

| module | file | what it models |
|---|---|---|
| `Constants` | `constants.dfy` | frame rate, arena size, drag coefficient K = 0.07, the colour palette |
| `Targets` | `targets.dfy` | target state, the random respawn, the wall bounce; class `Target` |
| `Projectile` | `projectile.dfy` | projectile state, its move (lifetime, position, gravity, drag), the hit test; class `Ball` and the projectile list `BallList` |
| `Launcher` | `launcher.dfy` | the gun's charge state machine and firing; class `Gun` |
| `Game` | `game.dfy` | the projectile loop of one frame, the event dispatch, the frame update; class `World` |

Objects whose fields the game updates in place are classes:

- `Target`, `Ball`, `Gun` and `BallList`;
- `World`, which holds the program's globals.

`Target`, `Ball` and `Gun` each also have a value-level state datatype: `TargetState`, `BallState`, `GunState`. `BallList` and `World` have none; their state is the list of projectiles and the objects they hold. The methods are proved against functions on these states (`Moved`, `Advance`, `PoweredUp`). The lemmas state the game's properties about those functions:

- the charge stays between 10 and 100 and reaches 100 after exactly 90 charging frames;
- a projectile's lifetime after n moves is exactly 30 - n/10, so it expires after exactly 300 moves;
- gravity changes vy by exactly -0.4, or negates it at the top and bottom walls;
- drag scales both velocity components by the same factor 1 - K*v/(mass*FPS); it keeps their direction while K*v < mass*FPS (v < about 2143 at mass 5), and never speeds the projectile up while K*v <= 2*mass*FPS (v <= about 4286);
- a target's bounce only flips signs, and a target never gets more than one step past a wall (-1 < x < 801, -2.8 < y < 602.8), and once past one it is already heading back;
- the hit test is symmetric and strict.

The projectile loop is modelled as written:

- projectiles are moved and tested one at a time in list order;
- on the first projectile whose lifetime is used up, that projectile is deleted and the loop stops;
- so at most one projectile leaves the list per frame, and projectiles after it are not moved that frame.

Two operations of the program divide by zero on some inputs, and the model makes both failures explicit:

- **Drag at speed 0.** The drag step divides by zero when a projectile's speed is 0. `Ball.Move` returns `ok = false` in that case. Its state is then exactly what the program holds when the exception is raised: lifetime, position and the gravity update done, drag not applied. The loop stops there.
- **Aiming at pointer x = 20.** The aiming code divides by zero when the pointer's x coordinate is 20. `Gun.Targetting` then returns `ok = false` and leaves the gun unchanged.

Parameters stand in for everything the model does not compute itself:

- **Square root.** The speed is computed by a function `sqrt` passed in as a parameter. The drag lemmas take the speed `v` with `v * v == vx * vx + vy * vy`.
- **Trigonometry.** A release event carries the aiming angle with its cosine and sine. A motion event carries the pointer position and the arctangent the aiming code computes from it.
- **Random draws.** `random.choice` becomes a nondeterministic choice within the same range.

Arithmetic is exact: integers are unbounded and floats are modelled as exact reals.

Rule for the target's vertical speed: the code draws `choice(range(5, 15)) / 5`, so the largest value is 14/5 = 2.8.

## Model

| member | source | states |
|---|---|---|
| Targets.Spawn | maingun.py:161-169 | a respawn from draws in range(600,780), range(200,550), range(4,50), range(1,5)/4, range(5,15)/5 is a spawned state: whole x in [600,780), whole y in [200,550), radius in [4,50), vx in {1/4..4/4}, vy in {5/5..14/5}, alive, red |
| Targets.SpawnedIsReachable | maingun.py:161-169 | every spawned state comes from one choice of draws in those ranges, so the ranges are exactly the respawn's reach |
| Targets.Moved | maingun.py:172-183 | a target's move adds vx to x, flips vy exactly when the old y is <= 0 or >= 600, flips vx exactly when the new x is <= 0 or >= 800, subtracts the new vy from y, and changes nothing else |
| Targets.SpawnedInArena | maingun.py:161-169 | a freshly spawned target is inside the arena with its speeds in range |
| Targets.MovedInArena | maingun.py:178-183 | one move keeps a target in the arena: past a wall it is already heading back, with unchanged speed magnitudes |
| Targets.MovedNInArena | maingun.py:178-183 | after any number of moves a target stays in the arena (-1 < x < 801, -2.8 < y < 602.8), with unchanged radius, life and speed magnitudes |
| Targets.Target.constructor | maingun.py:156-159 | a new target ignores its live argument and starts spawned, alive and in the arena |
| Targets.Target.NewTarget | maingun.py:161-169 | respawning yields a spawned state, alive and in the arena |
| Targets.Target.Move | maingun.py:172-183 | the target's new state is `Moved` of its old state, and the arena invariant is kept |
| Projectile.Gravity | maingun.py:55-58 | strictly inside the arena vy drops by exactly 0.4; at or beyond the top or bottom wall vy is exactly negated |
| Projectile.Drag | maingun.py:61-63 | the drag step on a component is the component times the factor 1 - K*v/(mass*FPS) |
| Projectile.Advance | maingun.py:44-63 | one move lowers the lifetime by exactly 0.1, moves the position by (vx, -vy), keeps radius, mass and colour; a zero speed or mass stops it before drag |
| Projectile.AdvanceVelocity | maingun.py:54-63 | the new velocity is gravity followed by drag on both components, or gravity alone when the move divides by zero |
| Projectile.FlightLifetime | maingun.py:49 | after n moves the lifetime is exactly the old one minus n/10, and radius, mass and colour are unchanged |
| Projectile.ExpiresAfter300 | maingun.py:42-49 | a projectile fired with lifetime 30 has expired after n moves exactly when n >= 300 |
| Projectile.DragKeepsDirection | maingun.py:62-63 | drag keeps the velocity parallel, and while the factor is positive each component keeps its sign |
| Projectile.DragSpeed | maingun.py:61-63 | with v the true speed, the squared speed after drag is the factor squared times v squared |
| Projectile.DragSlows | maingun.py:61-63 | as long as K*v <= 2*mass*FPS, drag never increases the speed |
| Projectile.Kinematic | maingun.py:49-58 | the lifetime drops by 0.1, the position moves by (vx, -vy), and vy drops by 0.4 strictly inside the arena and is negated at or past the top or bottom wall; vx, radius, mass and colour are kept |
| Projectile.HitsTarget | maingun.py:73-79 | a projectile hits a target exactly when the target's strict-overlap test against the projectile holds, so it does not matter which of the two asks |
| Projectile.OverlapSymmetric | maingun.py:73-79 | the hit test gives the same answer with the two circles exchanged |
| Projectile.OverlapIffCloser | maingun.py:77-79 | the hit test holds exactly when the centres are closer than the sum of the radii; circles that only touch do not hit |
| Projectile.Ball.constructor | maingun.py:26-42 | a new projectile is at the given position with radius 10, zero velocity, mass 5, lifetime 30 and a colour from the game palette |
| Projectile.Ball.Move | maingun.py:44-63 | the projectile's new state is `Advance` of its old state; `ok` is false exactly when the drag step divides by zero |
| Projectile.Ball.Hit | maingun.py:73-79 | the object's hit test is the strict overlap of the two circles, with the same answer whichever of them asks |
| Projectile.BallList.constructor | maingun.py:196 | the projectile list starts empty |
| Projectile.BallList.Delete | maingun.py:234 | deleting entry k removes exactly that entry, keeps the others in order and keeps them distinct |
| Launcher.PoweredUp | maingun.py:138-151 | while charging: width is 30 plus the charge before the step, the charge rises by 1 up to 100, colour red; otherwise width 30, colour black, charge unchanged; the bounds 10..100 and 30..130 are kept |
| Launcher.ChargingClosedForm | maingun.py:144-148 | after n charging frames the charge is min(p + n, 100), and the width is 30 plus min(p + n - 1, 100) |
| Launcher.FullChargeAfter90 | maingun.py:144-147 | from the initial charge 10 the charge is 99 after 89 frames and 100 from 90 frames on |
| Launcher.IdleKeepsCharge | maingun.py:149-151 | frames without charging keep the charge, with width 30 and colour black |
| Launcher.LaunchSpeed | maingun.py:107-108 | the fired projectile's speed is exactly the gun's charge |
| Launcher.Gun.constructor | maingun.py:83-92 | the gun starts at (30, 500), width 30, height 30, charge 10, not charging, angle 1, black |
| Launcher.Gun.FireStart | maingun.py:94-95 | pressing the button sets the charging flag and changes nothing else |
| Launcher.Gun.FireEnd | maingun.py:97-111 | releasing appends exactly one fresh projectile at (30, 500) with radius 15, mass 5, lifetime 30 and velocity (p cos an, -p sin an), keeps the rest of the list, then stops charging and resets the charge to 10 |
| Launcher.Gun.Targetting | maingun.py:127-135 | aiming takes the new angle and shows red while charging, black otherwise; at pointer x = 20 it fails and changes nothing |
| Launcher.Gun.PowerUp | maingun.py:138-151 | the gun's new state is `PoweredUp` of its old state, and the charge bounds are kept |
| Game.Stops | maingun.py:225-235 | a projectile stops the loop exactly when its move divides by zero (`Crashes`) or it had at most 0.1 of lifetime left before the move |
| Game.Tested | maingun.py:225-232 | the loop hit-tests every projectile before the stop index, and the one at it too unless its move divided by zero |
| Game.TickCrashesIff | maingun.py:224-235 | the frame fails exactly when some projectile's move divides by zero and no earlier projectile stopped the loop |
| Game.StopIndex | maingun.py:224-235 | the loop stops at the first projectile whose move divides by zero or whose lifetime is used up after its move, and at the end of the list if there is none |
| Game.StopAt | maingun.py:233-235 | the first projectile that stops the loop is the loop's stop index |
| Game.NoStop | maingun.py:224-235 | when no projectile stops the loop it runs to the end of the list without failure |
| Game.HitAmongNext | maingun.py:227-232 | a hit among the first m+1 moved projectiles is a hit among the first m or by projectile m |
| Game.Survivors | maingun.py:233-235 | the list after the loop has lost at most one projectile; when the loop stops on an expired one, exactly that one is gone and the others keep their order |
| Game.Strike | maingun.py:227-232 | a target hit while alive is respawned; otherwise it is untouched |
| Game.Visit | maingun.py:225-232 | one turn of the loop moves the projectile and, unless the move fails, tests it against both targets |
| Game.Sweep | maingun.py:224-235 | the loop moves projectiles up to and including its stop index and no further, deletes the expired one, and each target is respawned exactly when some tested projectile hit it while alive |
| Game.MoveBalls | maingun.py:224-235 | the projectile loop in terms of the projectiles' states before it: failure, surviving list, every projectile's new state, the hits and the respawned targets |
| Game.Releases | maingun.py:219-220 | the number of release events, zero exactly when there is none |
| Game.World.constructor | maingun.py:196-202 | the game starts with an empty projectile list, a fresh gun, two spawned targets and the loop not finished |
| Game.World.Dispatch | maingun.py:214-222 | quit sets the finished flag, a press starts charging, a release appends one projectile at (30, 500) with radius 15, mass 5, lifetime 30, a palette colour and velocity (p cos an, -p sin an), a motion aims and fails exactly at x = 20 (`Faults`); the game invariant is kept |
| Game.World.HandleEvents | maingun.py:214-222 | the frame's events succeed exactly when none aims at x = 20; the loop finishes when one of them is a quit; one projectile is appended per release |
| Game.World.Update | maingun.py:224-239 | the projectile loop: it fails exactly when `TickCrashes`, the list becomes `Survivors`, every projectile up to the stop index has made its `Advance` step and the rest are untouched; then, unless it failed, each target not hit makes one `Moved` step and the gun one `PoweredUp` step; the game invariant is kept, so both targets are alive afterwards |
| Game.World.MoveRest | maingun.py:237-239 | both targets make one `Moved` step and the gun one `PoweredUp` step |
| Game.World.Frame | maingun.py:214-239 | one pass of the main loop keeps the game invariant; a quit ends the loop only after the update has run |

## Left out

- Drawing, the display, the clock and the event queue (`draw` methods, `screen.fill`, `display.update`, `clock.tick`, `pg.event.get`) are I/O. Events enter the model as a sequence of `Event` values.
- The `screen` field of every object is used only for drawing and is not modelled.
- The square root (computed as `** 0.5`), `math.atan2`, `math.atan`, `math.cos` and `math.sin` are foreign numeric routines. The model takes their results as parameters, and does not check that they are consistent with each other.
- Float rounding is not modelled. All arithmetic is exact, so the lifetime reaches 0 after exactly 300 moves; with floats repeated `-= 0.1` need not.
- Colour values are an enumeration; their RGB codes and the uniform distribution of `choice` are not modelled.
- The gun's `f2_on` integer is a boolean, because the program only stores 0 and 1 in it.
- The unused local list `dead_balls` in the projectile loop has no effect and is not modelled.
- The exceptions that stop the program (drag at speed 0, aiming at x = 20) become `ok = false` results; the model does not carry on past them.
- Game.World.Update: for a target that was hit, the contract states only that it is alive and in the arena after its move, not its position.
- Game.World.HandleEvents: the gun's state after a whole sequence of events, and the state of each appended projectile, are not stated; `Dispatch` states each event's effect on the gun and the fired projectile's state.
- Game.World.Frame: it states the game invariant and the quit flag; the effects of its two steps are stated by `HandleEvents` and `Update`.
- Game.MoveBalls: the hit flags are ghost results, describing which target was respawned; the program has no such variables.
