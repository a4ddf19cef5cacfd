# Pong paddle controller — a Dafny model

This project models the part of the Pong game (a Bevy application in Rust)
that actually runs every frame: `paddle_movement_system`. It is the only
system the app registers. For every paddle it does three things:

1. It reads a direction in {-1, 0, +1} from two keys. Paddle 1 reads Down/Up.
   Every other paddle number reads LControl/LShift.
2. It adds `delta * direction * speed` to the paddle's y coordinate.
3. It clamps y to [-240, 240].

The model also covers the match state that startup builds. That state is two
paddles, numbered 0 (left) and 1 (right), with speed 500 at y = 0, plus a
scoreboard at 0-0 and a ball at (0, -50). From these the model proves an
invariant that holds at startup and that every frame keeps.

Modules:

- `Numeric` (numeric.dfy) holds `i32`, `Vec3`, the `min`/`max` of the clamp,
  and `NearestIn`. `NearestIn` is the reference meaning of clamping: the point
  of an interval nearest to a target.
- `Keyboard` (keyboard.dfy) holds the keys, each paddle's key bindings and `Direction`.
- `Paddles` (paddles.dfy) holds the `Paddle` component, the per-paddle `Step`
  and the whole-system `MoveAll`.
- `Game` (game.dfy) holds the startup constants, the `World`, `Tick`, `Run` and the invariant `Inv`.

Inputs that come from outside the game are parameters. These are the frame
time (`Time::delta_seconds`) and the set of held keys (`Input<KeyCode>`).

The code carries out far less than a full Pong game. No system moves the ball,
tests a collider, updates the score or re-serves. `Ball.velocity` is set once.
`Collider` is never queried. `Scoreboard` is never written. The model follows
the code, so a tick leaves the ball and the scoreboard unchanged. It has no
ball physics, collision, scoring, speed ramp or serve timer, because there is
no code to model them against. The code also gives Down/Up to paddle number 1
and LControl/LShift to every other number, and the model follows that.

## Model

| member | source | states |
|---|---|---|
| Numeric.Min | src/main.rs:159 | `f32::min` on non-NaN values returns one of its arguments and is no larger than either |
| Numeric.Max | src/main.rs:159 | `f32::max` on non-NaN values returns one of its arguments and is no smaller than either |
| Keyboard.Bindings | src/main.rs:138-155 | paddle 1 reads exactly {Down, Up}; every other paddle number reads exactly {LControl, LShift} |
| Keyboard.Direction | src/main.rs:137-155 | the direction is -1, 0 or +1; it is +1 iff only the paddle's up key is held, -1 iff only its down key is held, 0 iff both or neither are held |
| Keyboard.DirectionReadsOnlyBindings | src/main.rs:138-155 | two key states that agree on a paddle's two keys give that paddle the same direction |
| Keyboard.ForeignKeyIgnored | src/main.rs:138-155 | pressing or releasing any key outside a paddle's bindings leaves its direction unchanged |
| Keyboard.BindingsDisjoint | src/main.rs:138-155 | paddle 1's keys and any other paddle's keys have no key in common |
| Keyboard.BothKeysCancel | src/main.rs:137-155 | with both of its keys held a paddle's direction is 0 |
| Paddles.ClampY | src/main.rs:159 | the clamped y lies in [-240, 240]; it equals y when y is already inside, 240 above the range and -240 below it |
| Paddles.ClampYIsNearest | src/main.rs:159 | the clamp returns the point of [-240, 240] nearest to its input |
| Paddles.NearestIsClampY | src/main.rs:159 | any point of [-240, 240] nearest to y is the clamp of y, so the clamp is exactly the nearest-point map |
| Paddles.ClampYIdempotent | src/main.rs:159 | clamping twice is the same as clamping once |
| Paddles.Step | src/main.rs:157-159 | one frame for one paddle leaves the Paddle component, x and z unchanged; the new y is in [-240, 240] and is the point of that range nearest to `y + delta * direction * speed` |
| Paddles.StepUnclampedMovesBySpeed | src/main.rs:158-159 | when the integrated position is inside the range, the paddle moves by exactly `delta * direction * speed` |
| Paddles.BothKeysOnlyClamp | src/main.rs:137-159 | with both keys held the step only clamps y; a paddle already inside the range does not change at all |
| Paddles.StepReadsOnlyBindings | src/main.rs:136-159 | a paddle's step is the same under any two key states that agree on that paddle's two keys |
| Paddles.StepAtLimitStays | src/main.rs:158-159 | a paddle at the top or bottom limit, pushed further outward, stays where it is |
| Paddles.MoveAll | src/main.rs:136-160 | the system maps every queried paddle through the same one-paddle step with the same keys and frame time, and keeps the number and order of paddles |
| Game.Initial | src/main.rs:40-57 | startup gives paddle 0 on the left at x = -405 and paddle 1 on the right at x = 405, both at speed 500 and y = 0, with a 0-0 scoreboard; this state satisfies the invariant |
| Game.Tick | src/main.rs:131-161 | a frame changes only paddle y coordinates, each into [-240, 240]; the ball, the scoreboard, each paddle's component, x and z are unchanged |
| Game.Run | src/main.rs:5-10 | over any number of frames the ball and the scoreboard stay unchanged and no paddle is added or removed |
| Game.TickPreservesInv | src/main.rs:131-161 | every frame keeps the invariant, whatever its keys, frame time or sign of the frame time |
| Game.RunPreservesInv | src/main.rs:131-161 | any sequence of frames keeps the invariant |
| Game.ReachableInv | src/main.rs:7-9 | every world reachable from startup satisfies the invariant: y in [-240, 240], speeds 500, numbers 0 and 1, scores 0-0 |
| Game.TravelLimitFitsField | src/main.rs:159 | the clamp bound 240 equals half the field height (600, line 37) less half the paddle height (120, line 44) |
| Game.ReachablePaddlesWithinWalls | src/main.rs:86-103 | on every reachable frame each paddle's edges stay between the centre lines of the top and bottom walls; at full travel an edge lies exactly on one of them |
| Game.PlayersIndependent | src/main.rs:138-155 | in a reachable world one player's keys never affect the other player's paddle |
| Game.AllKeysHeldNothingMoves | src/main.rs:136-160 | with both keys of both players held, a reachable world does not change |
| Game.OneSecondUpReachesTop | src/main.rs:148-159 | from startup, one second with each player's up key held brings both paddles to y = 240, where the paddle edge touches the top wall's centre line |

## Left out

- Floating point: positions, speed and frame time are `real`, not `f32`. Rounding is not modelled. Neither is the NaN behaviour of `min`/`max`, which return the non-NaN argument. This is the one place where the model departs from the code.
- Keyboard polling: the held keys are given as a `set<Key>` for each frame. Keys the controller never reads are all modelled as `Other`.
- Bevy app construction, plugins, cameras, materials, sprites, text and font loading (src/main.rs:4-11, 32-128): these are rendering and platform plumbing over a library that is not part of this model. Only the positions and components they set up are kept.
- Transform rotation and scale: the controller never reads or writes them, so a paddle entity holds only its translation.
- Ball velocity: it is `400 * normalize(0.5, -0.5, 0)`, whose components are irrational, and no code reads it, so it is not represented. The ball's position is kept, and it never changes.
- Walls and colliders: no code queries them. Only the top and bottom walls' centre lines appear, as `TopWallY`, in the bound lemma.
- Scoreboard text: the text sprite shows the literal "0 - 0". No code updates it, so it is not modelled.
- Ball motion, collision, goals, scoring, the speed ramp and re-serving: no code implements them, so there is nothing to model.
