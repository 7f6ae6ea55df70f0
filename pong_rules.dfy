/** The rules of the Pong match as functions on values.
    Each function here is the specification of one `&mut self` operation of
    `GameState`: the class in module PongGame is proved to change its fields
    exactly as these functions say. Coordinates are screen pixels with the
    origin at the top-left corner and y growing downwards; every position is
    the top-left corner of a bounding box. */
module Pong {

  // Gameplay constants (all f32 in the game, reals here).
  const SCREEN_WIDTH: real := 800.0
  const SCREEN_HEIGHT: real := 600.0
  const PADDLE_WIDTH: real := 10.0
  const PADDLE_HEIGHT: real := 100.0
  const BALL_SIZE: real := 10.0
  const PADDLE_SPEED: real := 425.0
  const BALL_SPEED: real := 300.0

  /** Horizontal extents of the two paddles as the collision test uses them. */
  const PADDLE1_LEFT_EDGE: real := 30.0
  const PADDLE1_RIGHT_EDGE: real := PADDLE1_LEFT_EDGE + PADDLE_WIDTH
  const PADDLE2_LEFT_EDGE: real := SCREEN_WIDTH - 40.0 - PADDLE_WIDTH
  const PADDLE2_RIGHT_LIMIT: real := SCREEN_WIDTH - 40.0

  /** Lowest top edge a paddle may have. */
  const PADDLE_MAX_POS: real := SCREEN_HEIGHT - PADDLE_HEIGHT

  /** Elapsed frame time in seconds: a duration is never negative. */
  type Seconds = t: real | t >= 0.0

  /** The random serve factor, drawn from the half-open range [-1, 1). */
  type Angle = a: real | -1.0 <= a < 1.0

  datatype Vec2 = Vec2(x: real, y: real)

  /** The whole match: two paddle top edges, the ball and the two scores. */
  datatype State = State(
    player1Pos: real,
    player2Pos: real,
    ballPos: Vec2,
    ballVel: Vec2,
    player1Score: int,
    player2Score: int)

  /** The four movement keys held during one frame. */
  datatype Intents = Intents(p1Up: bool, p1Down: bool, p2Up: bool, p2Down: bool)

  /** Everything the host supplies for one tick. */
  datatype Frame = Frame(keys: Intents, dt: Seconds, angle: Angle)

  function Abs(r: real): real { if r < 0.0 then -r else r }

  /** Where the ball is placed at the start and after every point. */
  function ServePosition(): (p: Vec2)
    ensures p == Vec2(395.0, 295.0)
    ensures p.x + BALL_SIZE / 2.0 == SCREEN_WIDTH / 2.0
    ensures p.y + BALL_SIZE / 2.0 == SCREEN_HEIGHT / 2.0
  {
    Vec2(SCREEN_WIDTH / 2.0 - BALL_SIZE / 2.0, SCREEN_HEIGHT / 2.0 - BALL_SIZE / 2.0)
  }

  predicate PaddleInRange(pos: real) { 0.0 <= pos <= PADDLE_MAX_POS }

  /** What holds of every state the game can reach (module PongMatch proves it). */
  predicate Invariant(s: State)
  {
    && PaddleInRange(s.player1Pos)
    && PaddleInRange(s.player2Pos)
    && s.player1Score >= 0
    && s.player2Score >= 0
    && Abs(s.ballVel.x) == BALL_SPEED
  }

  /** Paddles and scores of `r` are those of `s`: only the ball differs. */
  predicate SameSides(s: State, r: State)
  {
    && r.player1Pos == s.player1Pos
    && r.player2Pos == s.player2Pos
    && r.player1Score == s.player1Score
    && r.player2Score == s.player2Score
  }

  // ---------------------------------------------------------------------
  // Construction

  /** The opening state: both paddles centred, ball centred moving left. */
  function Initial(): (s: State)
    ensures s.player1Pos == 250.0 && s.player2Pos == 250.0
    ensures s.ballPos == Vec2(395.0, 295.0)
    ensures s.ballVel == Vec2(-300.0, 0.0)
    ensures s.player1Score == 0 && s.player2Score == 0
    ensures Invariant(s)
  {
    State(
      SCREEN_HEIGHT / 2.0 - PADDLE_HEIGHT / 2.0,
      SCREEN_HEIGHT / 2.0 - PADDLE_HEIGHT / 2.0,
      ServePosition(),
      Vec2(-BALL_SPEED, 0.0),
      0, 0)
  }

  // ---------------------------------------------------------------------
  // Serving and scoring

  /** The ball re-served from the centre, horizontally towards the right
      side when `toRight`, with vertical speed `BALL_SPEED * angle`. */
  function Serve(s: State, toRight: bool, angle: Angle): (r: State)
    ensures SameSides(s, r)
    ensures r.ballPos == ServePosition()
    ensures Abs(r.ballVel.x) == BALL_SPEED
    ensures r.ballVel.x > 0.0 <==> toRight
    ensures -BALL_SPEED <= r.ballVel.y < BALL_SPEED
    ensures r.ballVel.y == BALL_SPEED * angle
  {
    s.(ballPos := ServePosition(),
       ballVel := Vec2(if toRight then BALL_SPEED else -BALL_SPEED, BALL_SPEED * angle))
  }

  /** The ball has left the field past the left edge: player 2 scores. */
  predicate OutLeft(s: State) { s.ballPos.x < 0.0 }

  /** The ball has left the field past the right edge: player 1 scores. */
  predicate OutRight(s: State) { s.ballPos.x > SCREEN_WIDTH }

  /** Awards a point when the ball is out and re-serves it towards the
      scorer's side; a ball inside the field changes nothing. */
  function ScoreAndReset(s: State, angle: Angle): (r: State)
    ensures r.player1Pos == s.player1Pos && r.player2Pos == s.player2Pos
    ensures OutLeft(s) ==>
      && r.player2Score == s.player2Score + 1
      && r.player1Score == s.player1Score
      && r.ballPos == ServePosition()
      && r.ballVel.x == BALL_SPEED
      && r.ballVel.y == BALL_SPEED * angle
    ensures OutRight(s) ==>
      && r.player1Score == s.player1Score + 1
      && r.player2Score == s.player2Score
      && r.ballPos == ServePosition()
      && r.ballVel.x == -BALL_SPEED
      && r.ballVel.y == BALL_SPEED * angle
    ensures !OutLeft(s) && !OutRight(s) ==> r == s
    ensures s.player1Score <= r.player1Score && s.player2Score <= r.player2Score
    ensures r.player1Score + r.player2Score <= s.player1Score + s.player2Score + 1
  {
    if OutLeft(s) then
      Serve(s.(player2Score := s.player2Score + 1), true, angle)
    else if OutRight(s) then
      Serve(s.(player1Score := s.player1Score + 1), false, angle)
    else
      s
  }

  // ---------------------------------------------------------------------
  // Paddle collision

  /** The ball's box and a paddle's box overlap vertically. */
  predicate VerticalOverlap(ballY: real, paddleY: real)
  {
    ballY + BALL_SIZE >= paddleY && ballY <= paddleY + PADDLE_HEIGHT
  }

  /** The ball overlaps the left paddle while moving towards it. */
  predicate HitsLeft(s: State)
  {
    && s.ballPos.x <= PADDLE1_RIGHT_EDGE
    && s.ballPos.x + BALL_SIZE >= PADDLE1_LEFT_EDGE
    && VerticalOverlap(s.ballPos.y, s.player1Pos)
    && s.ballVel.x < 0.0
  }

  /** The ball overlaps the right paddle while moving towards it. */
  predicate HitsRight(s: State)
  {
    && s.ballPos.x + BALL_SIZE >= PADDLE2_LEFT_EDGE
    && s.ballPos.x <= PADDLE2_RIGHT_LIMIT
    && VerticalOverlap(s.ballPos.y, s.player2Pos)
    && s.ballVel.x > 0.0
  }

  /** Where along the paddle the ball struck, as a fraction of the paddle's
      height: the distance from the paddle's centre to the ball's centre. */
  function ImpactOffset(ballY: real, paddleY: real): (o: real)
    ensures VerticalOverlap(ballY, paddleY) ==> -0.55 <= o <= 0.55
    ensures o * PADDLE_HEIGHT == (ballY + BALL_SIZE / 2.0) - (paddleY + PADDLE_HEIGHT / 2.0)
    ensures o > 0.0 <==> ballY + BALL_SIZE / 2.0 > paddleY + PADDLE_HEIGHT / 2.0
  {
    (ballY + BALL_SIZE / 2.0 - (paddleY + PADDLE_HEIGHT / 2.0)) / PADDLE_HEIGHT
  }

  /** The return off a paddle whose top edge is `paddleY`: horizontal speed
      reversed, vertical speed bent by where the ball struck. */
  function Deflect(s: State, paddleY: real): (r: State)
    ensures SameSides(s, r) && r.ballPos == s.ballPos
    ensures Abs(r.ballVel.x) == Abs(s.ballVel.x)
    ensures s.ballVel.x < 0.0 <==> r.ballVel.x > 0.0
    ensures VerticalOverlap(s.ballPos.y, paddleY) ==> -165.0 <= r.ballVel.y - s.ballVel.y <= 165.0
  {
    s.(ballVel := Vec2(-s.ballVel.x, s.ballVel.y + ImpactOffset(s.ballPos.y, paddleY) * BALL_SPEED))
  }

  /** The paddle-collision rule. At most one paddle can be hit (their
      x-windows are disjoint), so the two tests of the game read as one
      choice here; PongGame.GameState.CheckPaddleCollision runs them in
      sequence and is proved equal to this. */
  function Collide(s: State): (r: State)
    ensures SameSides(s, r) && r.ballPos == s.ballPos
    ensures !(HitsLeft(s) && HitsRight(s))
    ensures HitsLeft(s) ==> r.ballVel.x == -s.ballVel.x && r.ballVel.x > 0.0
    ensures HitsRight(s) ==> r.ballVel.x == -s.ballVel.x && r.ballVel.x < 0.0
    ensures HitsLeft(s) ==> r.ballVel.y - s.ballVel.y == BALL_SPEED * ImpactOffset(s.ballPos.y, s.player1Pos)
    ensures HitsRight(s) ==> r.ballVel.y - s.ballVel.y == BALL_SPEED * ImpactOffset(s.ballPos.y, s.player2Pos)
    ensures !HitsLeft(s) && !HitsRight(s) ==> r == s
    ensures Abs(r.ballVel.x) == Abs(s.ballVel.x)
    ensures -165.0 <= r.ballVel.y - s.ballVel.y <= 165.0
  {
    if HitsLeft(s) then Deflect(s, s.player1Pos)
    else if HitsRight(s) then Deflect(s, s.player2Pos)
    else s
  }

  // ---------------------------------------------------------------------
  // Movement

  /** One paddle's move for a frame: up by `PADDLE_SPEED * dt` then clamped
      at the top edge, followed by down by the same amount then clamped at
      the bottom edge, each only while its key is held. */
  function MovePaddle(pos: real, up: bool, down: bool, dt: Seconds): (r: real)
    ensures PaddleInRange(pos) ==> PaddleInRange(r)
    ensures !up && !down ==> r == pos
    ensures up && !down ==> r == (if pos - PADDLE_SPEED * dt < 0.0 then 0.0 else pos - PADDLE_SPEED * dt)
    ensures !up && down ==> r == (if pos + PADDLE_SPEED * dt > PADDLE_MAX_POS then PADDLE_MAX_POS else pos + PADDLE_SPEED * dt)
    ensures down && PaddleInRange(pos) ==> pos <= r
  {
    var afterUp :=
      if up then
        (if pos - PADDLE_SPEED * dt < 0.0 then 0.0 else pos - PADDLE_SPEED * dt)
      else pos;
    if down then
      (if afterUp + PADDLE_SPEED * dt > PADDLE_MAX_POS then PADDLE_MAX_POS else afterUp + PADDLE_SPEED * dt)
    else afterUp
  }

  /** The ball's box touches or crosses the top or bottom wall. */
  predicate TouchesWall(y: real) { y <= 0.0 || y + BALL_SIZE >= SCREEN_HEIGHT }

  /** Ball integration over `dt` followed by the wall bounce, which tests the
      moved position. */
  function MoveBall(s: State, dt: Seconds): (r: State)
    ensures SameSides(s, r)
    ensures r.ballPos.x - s.ballPos.x == s.ballVel.x * dt
    ensures r.ballPos.y - s.ballPos.y == s.ballVel.y * dt
    ensures r.ballVel.x == s.ballVel.x
    ensures TouchesWall(r.ballPos.y) ==> r.ballVel.y == -s.ballVel.y
    ensures !TouchesWall(r.ballPos.y) ==> r.ballVel.y == s.ballVel.y
    ensures Abs(r.ballVel.y) == Abs(s.ballVel.y)
  {
    var pos := Vec2(s.ballPos.x + s.ballVel.x * dt, s.ballPos.y + s.ballVel.y * dt);
    s.(ballPos := pos,
       ballVel := s.ballVel.(y := if TouchesWall(pos.y) then -s.ballVel.y else s.ballVel.y))
  }

  // ---------------------------------------------------------------------
  // One tick

  /** One tick in the game's order: collision, then scoring, then the
      paddles, then the ball. */
  function Step(s: State, f: Frame): (r: State)
    ensures Invariant(s) ==> Invariant(r)
    ensures s.player1Score <= r.player1Score && s.player2Score <= r.player2Score
    ensures r.player1Score + r.player2Score <= s.player1Score + s.player2Score + 1
    ensures r.player2Score == s.player2Score + 1 <==> OutLeft(Collide(s))
    ensures r.player1Score == s.player1Score + 1 <==> OutRight(Collide(s))
  {
    var scored := ScoreAndReset(Collide(s), f.angle);
    var moved := scored.(
      player1Pos := MovePaddle(scored.player1Pos, f.keys.p1Up, f.keys.p1Down, f.dt),
      player2Pos := MovePaddle(scored.player2Pos, f.keys.p2Up, f.keys.p2Down, f.dt));
    MoveBall(moved, f.dt)
  }

  // ---------------------------------------------------------------------
  // Properties that relate several calls

  /** Colliding twice in a row is colliding once: the reversed horizontal
      speed fails the direction-of-travel test of the same paddle, and the
      other paddle's x-window does not contain the ball. */
  lemma CollideIdempotent(s: State)
    ensures Collide(Collide(s)) == Collide(s)
  {
  }

  /** The left and right x-windows of the collision test are disjoint.
      Collide's `!(HitsLeft(s) && HitsRight(s))` already follows from this;
      the lemma states the geometric fact on its own. */
  lemma PaddleWindowsDisjoint(x: real)
    ensures !(x <= PADDLE1_RIGHT_EDGE && x + BALL_SIZE >= PADDLE2_LEFT_EDGE)
  {
  }

  /** Serving goes to the side of the player who just scored: after a left
      exit (player 2 scores) the ball heads right, after a right exit
      (player 1 scores) it heads left. */
  lemma ServeTowardsScorer(s: State, angle: Angle)
    ensures OutLeft(s) ==> ScoreAndReset(s, angle).ballVel.x > 0.0
    ensures OutRight(s) ==> ScoreAndReset(s, angle).ballVel.x < 0.0
  {
  }

  /** The range of a paddle is kept as an invariant only: a paddle outside
      it is not pulled back when no key is held. */
  lemma PaddleRangeIsNotRestored(pos: real, dt: Seconds)
    requires !PaddleInRange(pos)
    ensures !PaddleInRange(MovePaddle(pos, false, false, dt))
  {
  }

  /** The right paddle's collision window is x + 10 >= 750 and x <= 760,
      while the paddle itself is drawn from x = 760 to 770 (the drawing is
      not part of this model). So a ball moving right is returned while its
      right edge is still short of the paddle's drawn face at 760. The left
      paddle's window, x <= 40 and x + 10 >= 30, matches its drawn box
      [30, 40]. */
  lemma RightPaddleReturnsShortOfDrawnFace(s: State)
    requires PADDLE2_LEFT_EDGE - BALL_SIZE <= s.ballPos.x < PADDLE2_RIGHT_LIMIT - BALL_SIZE
    requires VerticalOverlap(s.ballPos.y, s.player2Pos) && s.ballVel.x > 0.0
    ensures HitsRight(s)
    ensures s.ballPos.x + BALL_SIZE < PADDLE2_RIGHT_LIMIT
    ensures Collide(s).ballVel.x < 0.0
  {
  }
}
