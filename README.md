# rusty_pong match simulator in Dafny

This project models the game logic of a two-player Pong game, written in Rust on the ggez
framework, and proves properties of that model. The logic lives in `GameState` in `src/main.rs`.
The state has six fields: the top edge of each paddle, the ball's position and velocity, and
the two scores. Each frame the game runs one tick, in this order: paddle collision, then scoring
with a re-serve, then paddle movement from the four keys, then ball integration and the bounce
off the top and bottom walls.

The model has three modules:

- `Pong` (`pong_rules.dfy`) holds the constants, the `State` value and one function per rule.
  These are `Initial`, `Serve`, `ScoreAndReset`, `Collide` (built from `HitsLeft`, `HitsRight`,
  `ImpactOffset` and `Deflect`), `MovePaddle`, `MoveBall` and the whole tick `Step`. Their
  contracts state what the game promises: clamping bounds, exact score increments, the serve
  position and speed, a sign reversal that keeps the speed's magnitude, and the bound on the
  angled return. The module also has lemmas relating several calls: collision is idempotent,
  the two paddle windows are disjoint, and the serve goes towards the scorer.
- `PongGame` (`game_state.dfy`) holds the class `GameState`. Its fields match the Rust struct,
  and its methods change them in place with the same sequence of conditional assignments as the
  Rust code. Each method is proved to leave `View()` equal to the matching `Pong` function
  applied to the old state. For example, `CheckPaddleCollision` runs the two paddle tests one
  after the other, exactly as the game does, and is proved equal to `Collide`. `Collide` is a
  single choice between the two paddles. The two agree because the first test's reversal cannot
  enable the second test.
- `PongMatch` (`match_run.dfy`) plays any sequence of frames. The invariant is: paddles in range,
  scores non-negative, and horizontal ball speed exactly 300. `PongMatch` proves that every
  reachable state satisfies it. It also proves that scores never decrease from one frame to any
  later frame, and that they rise by at most one point per frame. It ends with the opening-serve
  scenario, proved both on values and by driving a `GameState` object.

Things the model has to replace:

- **Key presses** (`keyboard::is_key_pressed`) become the four booleans of `Intents`.
- **Frame time** (`ggez::timer::delta`) becomes one `dt: Seconds`. `Seconds` is the
  non-negative reals, because a duration is never negative. `update` asks for the delta up to
  six times per tick, and it returns the same frame delta every time.
- **The random draw** (`rng.gen_range(-1.0..1.0)`) becomes `angle: Angle`. `Angle` is the
  half-open range [-1, 1). `Update` and `UpdateScoreAndReset` take the draw as a parameter. It
  is used only when a point is scored.

Three behaviours of the code worth knowing, which the model follows:

- **Serve direction.** After the ball leaves past the left edge, player 2 scores and
  `reset_ball(true)` serves to the right, towards player 2. So the serve goes towards the player
  who just scored, away from the one who conceded. `Pong.ServeTowardsScorer` states this
  convention.
- **Paddle range.** The range [0, 500] is kept only as an invariant. A paddle outside it is not
  pulled back unless a key moves it past the clamped edge. `Pong.PaddleRangeIsNotRestored`
  shows this. What holds for any `dt` and any key combination, both keys of one paddle
  included, is: a paddle that starts in range stays in range (`Pong.MovePaddle`).
- **Right paddle window.** The collision test for the right paddle uses the x-window
  [750, 760] (src/main.rs:62, 76-77), while `draw` places that paddle at [760, 770]
  (src/main.rs:146). So a ball moving right bounces back while its right edge is still short of
  the paddle's drawn face. The left paddle's window and drawing agree at [30, 40]. The model keeps
  the code's window; `Pong.RightPaddleReturnsShortOfDrawnFace` states the consequence.

## Model

| member | source | states |
|---|---|---|
| `Pong.ServePosition` | src/main.rs:55 | the serve position is (395, 295), so the ball's centre is the screen's centre |
| `Pong.Initial` | src/main.rs:29-39 | the opening state has both paddles at 250, the ball at (395, 295) with velocity (-300, 0), both scores 0, and it satisfies the match invariant |
| `Pong.Serve` | src/main.rs:51-58 | a re-serve puts the ball at the serve position and sets horizontal speed to exactly 300 in magnitude, positive iff `to_right`; vertical speed is `300 * angle`, so it lies in [-300, 300); paddles and scores are unchanged |
| `Pong.ScoreAndReset` | src/main.rs:41-49 | exactly one outcome: a ball left of 0 gives player 2 exactly one point (player 1 none) and a serve at +300; a ball right of 800 gives player 1 one point and a serve at -300; otherwise the state is unchanged; paddles are never touched, scores never decrease and rise by at most one in total |
| `Pong.ImpactOffset` | src/main.rs:71 | when ball and paddle overlap vertically, the offset between their centres, divided by the paddle height, lies in [-0.55, 0.55]; it is positive iff the ball's centre is below the paddle's centre |
| `Pong.Deflect` | src/main.rs:70-72 | a return keeps the size of the horizontal speed and turns a leftward ball into a rightward one and back; when the ball overlaps the paddle vertically, the vertical speed changes by at most 165; nothing moves |
| `Pong.Collide` | src/main.rs:60-85 | positions and scores never change; at most one paddle is hit; a left hit turns negative horizontal speed into its positive negation, a right hit turns positive into negative, and the magnitude is kept; the vertical speed of a hit rises by exactly `300 * offset` for the paddle that was hit, so by at most 165; with no hit nothing changes |
| `Pong.MovePaddle` | src/main.rs:96-107 | for any `dt` >= 0 and any keys, both included, a paddle starting in [0, 500] ends in [0, 500]; no key means no move; one key gives the move clamped at that key's edge; holding down (alone or with up) never raises a paddle that starts in range |
| `Pong.MoveBall` | src/main.rs:124-129 | the ball moves by velocity times `dt`; vertical speed is negated exactly when the moved ball touches the top or bottom wall, otherwise kept; its magnitude is always kept; horizontal speed, paddles and scores are untouched |
| `Pong.Step` | src/main.rs:91-132 | one tick keeps the match invariant; neither score decreases; they rise by at most one point in total; player 2 (player 1) gains a point iff the ball is past the left (right) edge after the collision test |
| `Pong.CollideIdempotent` | src/main.rs:60-85 | running the collision test twice equals running it once: the direction-of-travel guards block a second reversal |
| `Pong.PaddleWindowsDisjoint` | src/main.rs:61-77 | no horizontal ball position is in both the left paddle's x-window (x <= 40) and the right paddle's (x + 10 >= 750) |
| `Pong.ServeTowardsScorer` | src/main.rs:42-47 | after a left exit the new serve moves right; after a right exit it moves left |
| `Pong.PaddleRangeIsNotRestored` | src/main.rs:96-121 | for every frame time, a paddle outside [0, 500] stays outside when no key is held, so the range is an invariant, not a guarantee for arbitrary positions |
| `Pong.RightPaddleReturnsShortOfDrawnFace` | src/main.rs:62-80 | a ball moving right whose left edge is in [740, 750) and which overlaps the right paddle vertically is returned, although its right edge is still left of 760, where the paddle is drawn |
| `PongGame.GameState.constructor` | src/main.rs:29-39 | the new object's fields are the opening state, which satisfies the invariant |
| `PongGame.GameState.ResetBall` | src/main.rs:51-58 | sets the ball to (395, 295) and horizontal speed to +300 or -300 by `to_right`; vertical speed ends in [-300, 300); paddles and scores are unchanged; the new state is `Serve` of the old |
| `PongGame.GameState.UpdateScoreAndReset` | src/main.rs:41-49 | the new state is `ScoreAndReset` of the old: one point to the correct player and a re-serve when the ball is out, otherwise nothing changes; the invariant is kept |
| `PongGame.GameState.CheckPaddleCollision` | src/main.rs:60-85 | the two sequential paddle tests give `Collide` of the old state; position, paddles and scores are unchanged; horizontal speed keeps its magnitude; the invariant is kept |
| `PongGame.GameState.MovePaddles` | src/main.rs:95-121 | each paddle ends at `MovePaddle` of its old position and that paddle's two keys, and stays in range if it started in range; ball and scores are unchanged |
| `PongGame.GameState.MoveBallAndBounce` | src/main.rs:123-129 | the new state is `MoveBall` of the old: vertical speed is negated iff the moved ball touches a wall; horizontal speed, paddles and scores are unchanged |
| `PongGame.GameState.Update` | src/main.rs:91-132 | one tick leaves the object in `Step` of the old state, so it keeps the invariant and never lowers a score |
| `PongMatch.Run` | src/main.rs:91-132 | over any sequence of frames, scores never decrease, rise by at most the number of frames, and the invariant is kept |
| `PongMatch.RunAppend` | src/main.rs:91-132 | playing two sequences of frames in turn is the same as playing their concatenation |
| `PongMatch.ScoresMonotoneAlongMatch` | src/main.rs:41-49 | in any match from the opening state, every intermediate state satisfies the invariant, and neither score at a later frame is below its value at an earlier frame |
| `PongMatch.FirstPointToPlayer2` | src/main.rs:91-129 | from the opening state, a frame long enough for the ball to cross the left edge scores nothing yet; the next frame gives player 2 the point (player 1 stays at 0) and serves at +300 from (395, 295) |
| `PongMatch.PlayFirstPoint` | src/main.rs:91-132 | the same scenario played through two `Update` calls on a new `GameState` ends with scores 0 and 1 and horizontal speed +300 |

## Left out

- Rendering (`draw`, src/main.rs:134-168): meshes, text and presentation through ggez are output only.
  They never change the state.
- `main` and the ggez event loop (src/main.rs:171-176): creating the window and the context is
  framework plumbing. The frame loop itself belongs to ggez; `PongMatch.Run` gives it meaning as
  a sequence of ticks.
- The `GameResult` wrapper of `new` and `update`: both always return `Ok`, so the model drops it.
- Keyboard polling, the frame timer and the random number generator are foreign calls. Their
  values come in as parameters (`Intents`, `Seconds`, `Angle`). The model does not claim that
  draws are uniform.
- IEEE-754 `f32` arithmetic: every quantity is a mathematical real. The model makes no claim
  about rounding. It does not correct a ball that passes through a paddle or a wall at large
  `dt`, just as the game does not.
- `i32` scores are unbounded integers in the model. Overflow after 2^31 - 1 points, a panic in
  debug builds and wrap-around in release builds, is not modelled.
