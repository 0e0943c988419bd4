# bevy_playground kinematics in Dafny

This project models the small amount of 2D kinematics in a Bevy game. The game has three parts:

- **`Movable`** (src/movable.rs). An entity's velocity, with four per-tick steps:
  - accelerate along a normalised direction;
  - damp each axis the input does not drive, snapping to zero below a speed of 1;
  - clamp to a maximum speed;
  - move a transform by the velocity.
- **The character in its walled arena** (src/main.rs). Four walls are placed and sized from constants. The WASD keys move the character, and each coordinate of its position is then clamped so that it stays inside the walls.
- **The player and its sightline** (src/player.rs). The player moves like the character but is not clamped. A sightline mesh reaches from the player towards the cursor, capped at a fixed length.

The engine's `f32` vectors become vectors over `real`. Its square root becomes a parameter `sqrt` of every member that needs a length. `IsSqrt(sqrt)` states what is assumed of that parameter: it returns the non-negative root of every non-negative real. `LengthIndependent` shows that no length depends on which such function is passed.

Modules:

| file | module | content |
|---|---|---|
| geometry.dfy | `Geometry` | vectors, lengths, `normalize_or_zero` and the step `direction.normalize_or_zero() * rate * dt` |
| scene.dfy | `Scene` | the engine's `Transform` (a class, because systems update it in place) and `Window` |
| movable.dfy | `Movement` | the `Movable` class, and the functions that specify its methods |
| input.dfy | `Input` | the WASD direction, which main.rs and player.rs build the same way |
| arena.dfy | `Arena` | walls, bounds and `move_character` from main.rs |
| player.dfy | `Player` | `move_player` and `move_sightline` from player.rs |

Each method that changes state is specified by a function of the old state (`SpeedClamped`, `Damped`, `DirectedStep`, `KeyStep`, `Clamp`, `SightlineReach`). The lemmas prove what the game relies on about those functions.

## Model

| member | source | states |
|---|---|---|
| Geometry.NormalizeOrZeroSpec | src/main.rs:144 | `normalize_or_zero` maps zero to zero. It maps any other vector to a unit-length vector on the same line, pointing the same way (positive dot product). |
| Geometry.NormalizeScaleInvariant | src/movable.rs:16 | Normalising `k * v` for any `k > 0` gives the same result as normalising `v`. |
| Geometry.DirectedStepSpec | src/movable.rs:16-17 | A step along the zero direction is zero. Any other step lies on the direction's line, and points the same way when `rate * dt > 0`. |
| Geometry.DirectedStepLength | src/movable.rs:16-17 | A step along a direction other than zero has length exactly `abs(rate * dt)`. |
| Geometry.DirectedStepScaleInvariant | src/movable.rs:16-17 | Stretching the direction by any positive factor does not change the step. |
| Geometry.DirectedStepComponents | src/main.rs:146-149 | The step equals the engine's per-component form `direction.x * rate * dt`, `direction.y * rate * dt`. |
| Geometry.LengthIndependent | src/movable.rs:37 | Any two square-root functions meeting `IsSqrt` give the same `length()` for every vector. |
| Geometry.LengthOfScaled | src/movable.rs:39 | Scaling a vector by `k` scales its length by `abs(k)`. |
| Movement.DampingFactor | src/movable.rs:21 | `(1 - damping * dt).max(0)` is never negative, never below `1 - damping * dt`, and equal to one of the two. It is at most 1 when `damping * dt >= 0`. |
| Movement.DampAxis | src/movable.rs:23-26 | One undriven axis is multiplied by the factor. The result is exactly 0 when that damped speed is below 1 in magnitude, and exactly the damped speed `v * factor` otherwise. So it is either 0 or at least 1 in magnitude. |
| Movement.DampAxisNeverGrows | src/movable.rs:21-26 | With a factor in [0, 1], damping never increases an axis's magnitude. |
| Movement.DampAxisShrinks | src/movable.rs:21-26 | With a factor below 1, a tick stops an axis exactly when its damped speed is below 1. A tick that does not stop it removes at least `1 - factor` from its magnitude. |
| Movement.DampingReachesRest | src/movable.rs:22-26 | After `n` ticks, any speed of at most `n * (1 - factor)` has come to exactly 0. |
| Movement.DampedSpec | src/movable.rs:22-33 | For every factor, each axis moves as `AxisDamped` says. A driven axis (input component not 0) is left exactly as it was. An undriven axis becomes exactly `v * factor` when that is at least 1 in magnitude, and exactly 0 when it is below 1. |
| Movement.DampedNeverGrows | src/movable.rs:21-33 | With a factor in [0, 1], no axis of the velocity grows in magnitude through `apply_axis_damping`. |
| Movement.ClampRescales | src/movable.rs:38-39 | For `max >= 0`: when the speed exceeds the maximum, the result is `v * (max / speed)` and has length exactly `max`. |
| Movement.ClampSpec | src/movable.rs:36-41 | For `max >= 0`: after the clamp the length is at most `max`. A velocity already within `max` is unchanged. The result stays on the velocity's line, and points the same way when `max > 0`. |
| Movement.ClampIdempotent | src/movable.rs:36-41 | For `max >= 0`: clamping twice to the same maximum equals clamping once. |
| Movement.ClampNegativeMaximum | src/movable.rs:36-41 | For `max < 0` and a non-zero velocity, the clamp always rescales. The result points against the velocity, on its line, and has length `-max`. |
| Movement.AccelerationWithoutDirection | src/movable.rs:15-18 | Accelerating along the zero direction leaves the velocity unchanged. |
| Movement.RestIsStable | src/movable.rs:15-41 | From zero velocity with zero input, the sequence accelerate, damp, clamp leaves the velocity at (0, 0). |
| Movement.Movable.constructor | src/movable.rs:9-13 | A new `Movable` is at rest. |
| Movement.Movable.ApplyAcceleration | src/movable.rs:15-18 | The new velocity is the old one plus `DirectedStep(direction, acceleration, dt)`. |
| Movement.Movable.ApplyAxisDamping | src/movable.rs:20-34 | The new velocity is `Damped(old velocity, input, DampingFactor(damping, dt))`. |
| Movement.Movable.ClampMaxSpeed | src/movable.rs:36-41 | The new velocity is `SpeedClamped(old velocity, max)`. |
| Movement.Movable.IntegratePosition | src/movable.rs:43-46 | The translation's x and y grow by `velocity * dt`. Translation z, the scale and the velocity are unchanged. |
| Input.Axis | src/main.rs:131-142 | One direction component is in {-1, 0, 1}. It is 0 exactly when both opposing keys or neither are held, and ±1 exactly when only the positive or only the negative key is held. |
| Input.KeyDirection | src/main.rs:124-142 | The direction built up key by key has x from A/D and y from W/S, as given by `Axis`. |
| Input.RawDirectionZero | src/main.rs:131-144 | The raw direction is zero exactly when W and S agree and A and D agree. |
| Input.KeyStepSpec | src/main.rs:144-149 | With cancelling or no keys the displacement is zero. Otherwise it has length exactly `abs(speed * dt)`, diagonals included. |
| Input.KeyStepBound | src/main.rs:146-149 | The displacement before the clamp is never longer than `abs(speed * dt)`. |
| Arena.ArenaHeight | src/main.rs:58-61 | The arena height `TOP_WALL - BOTTOM_WALL` is positive. |
| Arena.ArenaWidth | src/main.rs:59-62 | The arena width `RIGHT_WALL - LEFT_WALL` is positive. |
| Arena.WallLocation.Position | src/main.rs:48-55 | The left and right walls sit on the x axis (y = 0). The bottom and top walls sit on the y axis (x = 0). |
| Arena.PositionInjective | src/main.rs:48-55 | Two wall locations have the same position exactly when they are the same wall. |
| Arena.WallLocation.Size | src/main.rs:57-72 | Every wall has positive extent. The side walls are taller than wide, the others wider than tall. |
| Arena.WallsMeetAtCorners | src/main.rs:48-72 | The side walls reach exactly to the outer faces of the bottom and top walls, and vice versa, so the four walls close the arena. |
| Arena.NewWall | src/main.rs:76-91 | `Wall::new` gives a fresh transform at the wall's position with z = 0, scaled by the wall's size, with z scale 1. |
| Arena.BoundsClearWalls | src/main.rs:151-154 | `left_bound < right_bound` and `bottom_bound < top_bound`. A character centred anywhere within the bounds lies inside the walls' inner faces. |
| Arena.StartInBounds | src/main.rs:4 | The starting position lies within the bounds. |
| Arena.Clamp | src/main.rs:156-157 | `x.clamp(lo, hi)` lies in [lo, hi]. It is x when x is inside, lo below and hi above. |
| Arena.ClampNearest | src/main.rs:156-157 | The clamped value is the point of [lo, hi] nearest to x. |
| Arena.MoveCharacter | src/main.rs:119-157 | x and y become the old position plus `KeyStep(keys, CHARACTER_SPEED, dt)`, each coordinate clamped into the bounds. The result lies within the bounds. Translation z and the scale are unchanged. |
| Arena.StepAndClamp | src/main.rs:144-157 | The same move for any raw direction: normalise, displace by `CHARACTER_SPEED * dt`, then clamp each coordinate. |
| Player.MovePlayer | src/player.rs:77-106 | x and y grow by exactly `KeyStep(keys, PLAYER_SPEED, dt)`, with no bound. Translation z and the scale are unchanged. |
| Player.Displace | src/player.rs:102-105 | The same move for any raw direction: normalise and add the step to x and y only. |
| Player.IdleKeysKeepPosition | src/player.rs:89-105 | With no keys or fully cancelling keys, a position moved by the step is unchanged. |
| Player.CentringRoundTrip | src/player.rs:116-117 | `CentredCursor` models these lines. Centring the cursor (`px - width/2`, `height/2 - py`) is inverted by `WindowPosition`, both ways round. |
| Player.CentringOrientation | src/player.rs:116-117 | The window's centre becomes the origin. x keeps its direction and y is flipped. |
| Player.SightlineReachSpec | src/player.rs:116-123 | `SightlineReach` models lines 119-123, for a mouse position already centred by `CentredCursor`. The capped length lies in [0, `SIGHTLINE_LENGTH`]. It equals the distance from the player to the mouse when that distance is within `SIGHTLINE_LENGTH`, and `SIGHTLINE_LENGTH` beyond it. |
| Player.MoveSightline | src/player.rs:108-138 | `SightlineTarget` models lines 114-115, giving the reach only when there is one window and it holds the cursor. With one window holding the cursor, one pivot and one mesh, the mesh's x scale becomes the capped length and its x translation half of it, so the line runs from the pivot to the capped length. Otherwise no mesh changes. |

## Left out

- `f32` arithmetic: rounding, NaN, infinities and overflow. Every quantity is a `real`.
- The square root is a parameter, not computed. `IsSqrt` states the only property used of it.
- Movement.SpeedClamped: requires `max_speed >= 0` or a non-zero velocity. With a negative maximum and a zero velocity, the source divides 0 by a speed of 0 and produces NaN, which reals cannot represent.
- Movement.Movable.ClampMaxSpeed: requires `max_speed >= 0` or a non-zero velocity, for the same reason. With a negative maximum and a zero velocity, the source computes 0/0 and stores NaN in the velocity. The model does not cover that case.
- Movement.ClampRescales, Movement.ClampSpec, Movement.ClampIdempotent: cover only `max_speed >= 0`. The source accepts a negative maximum: a moving velocity is then reversed to length `-max_speed`, so its length exceeds the maximum and a second clamp reverses it back. Movement.ClampNegativeMaximum states that case.
- Arena.Clamp: requires `lo <= hi`. The engine's `clamp` panics otherwise. The bounds in `move_character` are constants that satisfy it (Arena.BoundsClearWalls).
- Geometry.DirectedStep: written with the single factor `rate * dt`. The engine multiplies by the rate and then by dt. Over the reals the two agree (Geometry.ScaleTwice, Geometry.DirectedStepComponents). Rounding, which could make them differ, is not modelled.
- Arena.StepAndClamp: uses the bound constants `LeftBound` … `TopBound`. `move_character` computes the same four expressions as locals.
- `atan2` and the pivot's rotation in `move_sightline` (src/player.rs:125, 131). These are trigonometric float functions, so the pivot transforms appear only as the count the query requires.
- The remaining engine plumbing, replaced by parameters:
  - ECS queries, `Single`/`Res` access and `Time`;
  - keyboard polling, passed in as a `Keys` value;
  - the time step, passed in as `dt`;
  - the window list and cursor, passed in as a sequence of `Window` values;
  - the player's `GlobalTransform`, passed in as its translation.
- App wiring, plugins and scheduling (src/main.rs:21-28, src/player.rs:27-32). These have no logic.
- The spawn functions `setup` and `spawn_player` (meshes, materials, sprites, colours, camera, child hierarchy). They are foreign engine calls. Wall::new is modelled as Arena.NewWall without its sprite and colour.
- src/enemy.rs is not part of this model. It only spawns an entity with `Movable::new()`.
- Aliasing between the pivot and mesh queries. The engine's `With`/`Without` filters make them disjoint, and the model writes no pivot.
