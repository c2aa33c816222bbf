# Basketball game rules, modelled in Dafny

The repository holds three small arcade basketball games. The model covers the game
rules inside them and leaves out rendering and wiring:

- **app.py** has a Flask endpoint, `POST /update_ball`. It takes the 2D ball
  (`x`, `y`, `dx`, `dy`) and applies one physics step: gravity 0.5, Euler integration,
  a floor at y = 600 and walls at x = 0 and x = 800. On contact the ball is put on
  the surface and that velocity component is multiplied by -0.6. The ball dictionary
  is changed in place and echoed back. Module `Server` (server.dfy) has the step as a
  function on a `Ball` value and the handler as a method that updates a
  `map<string, real>` field one member at a time.
- **static/game.js** is the 2D canvas client. The arrow keys move the player. Space
  shoots a held ball. While the ball is loose, each frame posts it to the server and
  takes the answer. A ball at or below the canvas floor goes back to the player. The
  opponent follows the ball along x. Module `Client2D` (client2d.dfy) models this as
  class `Client`. The fetch is a function `server` from the ball sent to the ball
  received.
- **game.js** is the 3D full-court game. It models who holds the ball
  (`'player' | 'opponent' | null`), movement clamped to ±88 by ±48, the opponent's
  chase-or-guard rule and its pickup, the drag-and-release shot, the ball's flight with
  floor and rim bounces, scoring at the two nets, the Space key, reset, and the frame
  step. Module `Game3D` (game3d.dfy) models this as class `Game`. Pure functions on
  values (`Fly`, `RimBounceAll`, `ScoreAll`, …) carry the properties. Square roots,
  `normalize` and `reflect` are function parameters (`Distance`, `Normalization`,
  `Reflection`).
- Module `Common` (common.dfy) holds `Option` and the JavaScript `Math` helpers:
  `Math.sign`, and the clamp written as `Math.max(lo, Math.min(hi, v))`, which is
  also `THREE.MathUtils.clamp`.

Coordinates and velocities are `real`.

Two places where the code behaves differently from what it appears to say:

- In static/game.js, `moveOpponent` runs two `if` tests in sequence. If the ball is
  less than 4 to the right of the opponent, the opponent steps right, then steps back,
  and does not move. If the ball is to the left, the opponent always takes a full step
  left, even past the ball. `ChaseX` states exactly this. It does not state "one step
  toward the ball".
- In game.js, `checkScoring` compares with `ballState.lastY`, but nothing assigns
  `lastY`. Under the code as written, no basket is ever scored (see Findings).

## Model

| member | source | states |
|---|---|---|
| `Common.Clamp` | static/game.js:49-50 | When the range is non-empty, the result lies in `[lo, hi]`. A value already inside is kept; one below goes to `lo`, one above to `hi`. For an empty range the result is `lo`. |
| `Common.Sign` | game.js:183-184 | `Math.sign`: the result is -1, 0 or 1. It is 0 exactly for 0, and `sign(v) * v == abs(v)`. |
| `Common.AxisDelta` | static/game.js:44-47 | The per-axis displacement of a key pair: opposite keys cancel, and one key alone gives ±speed. |
| `Server.Step` | app.py:19-35 | After the step, `0 <= x <= 800` and `y <= 600`. The new `dy` is the increased `dy`, or that value times -0.6. The new `dx` is the old `dx`, or that value times -0.6. |
| `Server.StepWithoutContact` | app.py:20-22 | With no contact, the result is `x + dx`, `y + dy + 0.5`, `dx` and `dy + 0.5`. |
| `Server.FloorBounce` | app.py:25-27 | On floor contact, `y` becomes exactly 600 and `dy` becomes `(dy + 0.5) * -0.6`. For a ball that started at or above the floor, the new `dy` points up and is smaller in magnitude. |
| `Server.LeftWallBounce` | app.py:30-32 | On left-wall contact, `x` becomes 0 and `dx` is multiplied by -0.6. The right-wall test that follows does not undo this. |
| `Server.RightWallBounce` | app.py:33-35 | On right-wall contact, `x` becomes 800 and `dx` is multiplied by -0.6. |
| `Server.ReachesFloor` | app.py:24-27 | The answered `y` is at least 600 exactly when `y + dy + 0.5 >= 600`, and then it equals 600. This is the case where a 600-high client takes the ball back. |
| `Server.UpdateBall` | app.py:14-37 | The request must carry `ball` with `x`, `y`, `dx` and `dy`. The same object is returned with the same keys. Its motion is `Step` of the old motion, and every other member is unchanged. |
| `Client2D.ChaseX` | static/game.js:94-95 | If the ball is at least 4 to the right, the opponent moves right by exactly 4. If the ball is less than 4 to the right, or level, it stays. If the ball is to the left, it moves left by exactly 4. |
| `Client2D.ChaseXStaysNear` | static/game.js:93-96 | The opponent never moves away from a ball on its right or past it. After the step, its distance to the ball is at most the larger of (the old distance - 4) and 4. |
| `Client2D.Client.constructor` | static/game.js:5-9 | Player at (100, 500) holding the ball, opponent at (700, 500), and the ball on the player at rest. |
| `Client2D.Client.MovePlayer` | static/game.js:43-56 | The player moves by the arrow keys and is clamped to `[0, width - 30] × [0, height - 50]`. A held ball ends at `(player.x + 15, player.y)`, and a loose ball is untouched. |
| `Client2D.Client.ShootBall` | static/game.js:59-65 | Only a held ball with Space pressed changes anything. Then `hasBall` becomes false, `dx` becomes 8 and `dy` becomes -10. |
| `Client2D.Client.UpdateBallPhysics` | static/game.js:68-90 | While the player holds the ball, nothing changes. Otherwise the ball becomes the server's answer, unless the answered `y >= height`. In that case possession returns to the player and the ball is placed on the player at rest. |
| `Client2D.Client.MoveOpponent` | static/game.js:93-97 | `opponent.x` becomes `ChaseX` clamped to `[0, width - 30]`. `opponent.y` and everything else are unchanged. |
| `Client2D.Client.Draw` | static/game.js:100-112 | The frame gives the whole new state: the player's clamped arrow-key move; a held ball kept if Space is not pressed; otherwise the ball sent to the server (a fresh shot from the moved player, or the loose ball) replaced by the server's answer, or returned to the player when that answer is at or below the floor; and the opponent's clamped `ChaseX` toward where the ball ended. It keeps the held-ball invariant and both figures on the canvas. Against the `Server.Step` server on an 800 × 600 canvas, the ball is on the court after every frame. |
| `Game3D.ClampToCourt` | game.js:154-158 | The result is inside ±88 by ±48 with the same height. A point already on the court is unchanged, and clamping never moves a point outward. |
| `Game3D.Steer` | game.js:181-191 | On each horizontal axis, the opponent moves exactly `speed` toward the target, or not at all when level with it. Its height is unchanged. |
| `Game3D.FrameDt` | game.js:429 | `dt` is at most `60 / 16.666`. Below the cap, `dt * 16.666` is the elapsed time. |
| `Game3D.NearestSide` | game.js:311-315 | The stopped ball goes to the nearer side, and a tie goes to the opponent. |
| `Game3D.Fly` | game.js:293-318 | After gravity, integration and the floor rule, the ball centre is never below `radius + 0.1`. |
| `Game3D.FlyWithoutContact` | game.js:294-295 | Away from the floor, flight is the integration step alone. |
| `Game3D.FloorContact` | game.js:298-308 | On contact, the centre goes to `radius + 0.1`, `vy` becomes `-vy * 0.6`, and `vx` and `vz` are multiplied by 0.92. The ball stops exactly when the new vertical speed is below 1, because the height test always passes. A falling ball leaves the floor rising or at rest. |
| `Game3D.RimBounce` | game.js:324-342 | When the ball touches a rim, `vy` becomes at least 2.5 and does not decrease. Otherwise the velocity is unchanged. |
| `Game3D.RimBounceAll` | game.js:323-343 | Over both rims, `vy` never decreases. Touching any rim leaves `vy >= 2.5`, and touching none leaves the velocity as it was. |
| `Game3D.ShotStrength` | game.js:256-258 | The strength is at most `40 / 1.2` and is non-negative for a non-negative drag. Below the cap, it is proportional to the drag length. |
| `Game3D.ShotVelocity` | game.js:258-263 | The release `vy` lies between 6 and `20 / 1.2`, and the horizontal velocity is parallel to the aim direction. |
| `Game3D.Scorer` | game.js:367-379 | The three-branch attribution reduces to the sign of x: the player if `x < 0`, otherwise the opponent. |
| `Game3D.ScoreAt` | game.js:351-389 | Without a net crossing nothing changes. On a crossing, exactly one score goes up, chosen by the sign of x. The ball then goes to the opponent if and only if `scorePlayer > scoreOpponent`, pinned and at rest. |
| `Game3D.ScoreAll` | game.js:350-391 | Across the hoops, scores never go down and each hoop adds at most one point. A pinned ball stays pinned, and `lastY` is untouched. |
| `Game3D.NoScoreWithoutLastY` | game.js:364 | When `lastY` is undefined (`None`), the scoring pass changes nothing. |
| `Game3D.CrossingScores` | game.js:359-364 | When the previous height is known, a ball crossing any net raises the total score. |
| `Game3D.DropThroughRightNet` | game.js:111-116 | Take a ball falling from 27 to 26 through the centre of the right net. As written it does not score; with `lastY = 27` it does. |
| `Game3D.Game.constructor` | game.js:95-120 | The start-up state after `resetGame()`: player at (-40, 0, 0), opponent at (40, 0, 0), the ball pinned to the player, scores 0, and `lastY` undefined. |
| `Game3D.Game.UpdatePlayer` | game.js:146-172 | WASD and the arrow keys move the player by 1.8, clamped to ±88 by ±48. A ball the player holds is placed at the player plus (0, 12, -8) with zero velocity. |
| `Game3D.Game.UpdateOpponent` | game.js:175-209 | The opponent chases a loose ball that is more than 6 away, and otherwise guards the player; the move is clamped to the court. It picks up only a loose ball within 8, never takes the ball from the player, and carries the ball it holds at rest. |
| `Game3D.Game.PointerDown` | game.js:226-231 | An aim starts only when the player holds the ball. |
| `Game3D.Game.PointerUp` | game.js:247-268 | Releasing always ends the aim. When there is a start point and a ground hit, the ball becomes loose with `ShotVelocity` (so `vy >= 6`) and the start point is cleared. Otherwise the ball is untouched. |
| `Game3D.Game.PhysicsUpdate` | game.js:290-347 | A held ball is untouched. A loose ball gets `Fly` and then the rims in turn, and ends at least `radius + 0.1` above the floor. |
| `Game3D.Game.ScoreHoop` | game.js:351-389 | The per-hoop callback is `ScoreAt` on the game state. |
| `Game3D.Game.CheckScoring` | game.js:350-391 | The scoring pass is `ScoreAll` over the two hoops, and it keeps held balls pinned. |
| `Game3D.Game.ResetGame` | game.js:416-424 | Both scores are 0, and the ball is in the player's hands at rest. |
| `Game3D.Game.OnKeyDown` | game.js:401-414 | Both branches of the Space handler leave the ball held by the player, pinned, at rest. Other keys change nothing. |
| `Game3D.Game.Animate` | game.js:428-437 | The frame chains its steps: `lastTime = t`; the player becomes `PlayerStep` of the old player; the opponent becomes `OpponentStep` of the old state; possession after the pickup is `PickUp`. The state after physics (`mid`) is `Flight` of the old ball with `dt = FrameDt(t, old lastTime)` when the ball is loose, and pinned to its holder otherwise. The final scoring state is `ScoreAll` from `mid`. Held balls stay pinned, the figures stay on the court, and with `lastY` undefined the scores never change. |
| `Game3D.Game.AnimateRecordingLastY` | game.js:428-437 | The corrected frame is the same chain of steps, with the same `mid` and `ScoreAll` result, and then it records the end-of-frame height in `lastY`. A ball that ended the previous frame above a net's top, and is inside that net below its top after this frame's physics, raises the total score. Scores never go down, and each frame adds at most one point per hoop. |

## Findings

| source | as written | input that shows it | evidently intended | confidence | as-written member | corrected member |
|---|---|---|---|---|---|---|
| game.js:364 | Scoring requires `ballState.lastY > netTop`, but `lastY` is never assigned (the object at game.js:111-116 has no `lastY`). `undefined > netTop` is false, so no basket ever scores. | A loose ball at (80, 26, -56), inside the right net, that was at height 27 in the previous frame: no score. | `lastY` holds the ball's height from the previous frame, so a ball passing down through the net scores. | high (reasoned from the code; not executed) | `Game3D.NoScoreWithoutLastY` | `Game3D.Game.AnimateRecordingLastY` |

For this finding:

- `Game3D.Game.Animate` models the frame as written: `lastY` stays undefined and the
  scores never change.
- `Game3D.Game.AnimateRecordingLastY` stores `lastY` at the end of each frame. Its
  contract states the intended behaviour for the frame: a ball that was above a net's
  top at the end of the previous frame, and is inside that net below its top after
  this frame's physics, scores. `Game3D.CrossingScores` proves this for the scoring
  pass `ScoreAll` that the frame runs.
- `Game3D.DropThroughRightNet` puts the two readings side by side.

## Left out

- Rendering is presentation through a library. This covers the Three.js scene,
  lights, meshes and court lines built at the top of game.js. It also covers resize
  handling and camera follow (game.js:129-143), OrbitControls and rendering
  (game.js:439-443), and the canvas drawing (static/game.js:17-40).
- Input wiring: the `keydown`/`keyup` listeners that fill `keys`, and pointer
  raycasting to the ground plane (game.js:125-127, 270-282; static/game.js:12-14).
  The set of pressed keys, the pointer's ground hit (`Option<Vec3>`) and the key
  `code` are parameters.
- The aim line: `pointermove`, `dragEnd` and `addAimLine` (game.js:212-245) only
  draw the line.
- The score text (`updateScoreUI`, game.js:394-396) is output to the DOM.
- The `setTimeout` award of a stopped ball (game.js:310-316) is deferred asynchronous
  code. Only its decision is modelled, as `NearestSide`. In the model, a stopped ball
  stays loose until the opponent picks it up or Space is pressed.
- The fetch round trip (static/game.js:70-75) is the function `server`, applied
  to the ball sent. Network failure is not modelled. Frames never overlap, because
  `draw` awaits the physics update before it schedules the next frame
  (static/game.js:108-111).
- The Flask app: routing, `render_template`, `jsonify` and `app.run`
  (app.py:1-3, 10-12, 37-40). Ball members other than x, y, dx and dy are modelled
  as numbers. They pass through unchanged either way.
- Floating point: numbers are `real`, so rounding, NaN and `-0` are not modelled.
  Square roots (`Math.sqrt`, `distanceTo`, `length`), `normalize` and `reflect`
  (game.js:178, 200, 258-260, 312-313, 328, 335-337, 362) are caller-supplied
  functions. Only bounds and assignments are proved about their results.
- `Game3D.Game.OnKeyDown`: `vel.length() === 0` is modelled as `vel == Zero`. That
  is exact over the reals. It misses a float velocity so small that its squared
  length underflows to 0.
- Timing: `performance.now()` and `requestAnimationFrame` are out. The frame time
  `t` and the start time are parameters, and the `dt` argument that `updatePlayer`
  and `updateOpponent` ignore is left out.
- The 2D canvas size comes from the page's HTML, which is not part of this model. It
  is a constructor parameter, required to fit one player (at least 30 × 50).
