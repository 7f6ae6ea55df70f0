/** The game's mutable state as the event loop holds it: one object whose
    methods update its six fields in place, in the order the game does.
    Every method is proved to leave the object in the state the matching
    rule of module Pong computes from the state before the call. */
module PongGame {
  import opened Pong

  class GameState {
    var player1Pos: real
    var player2Pos: real
    var ballPos: Vec2
    var ballVel: Vec2
    var player1Score: int
    var player2Score: int

    /** The fields as one value. */
    function View(): State
      reads this
    {
      State(player1Pos, player2Pos, ballPos, ballVel, player1Score, player2Score)
    }

    ghost predicate Valid()
      reads this
    {
      Invariant(View())
    }

    /** Paddles centred, ball centred and moving left, no points. */
    constructor ()
      ensures View() == Initial()
      ensures player1Pos == 250.0 && player2Pos == 250.0
      ensures ballPos == Vec2(395.0, 295.0) && ballVel == Vec2(-300.0, 0.0)
      ensures player1Score == 0 && player2Score == 0
      ensures Valid()
    {
      player1Pos := SCREEN_HEIGHT / 2.0 - PADDLE_HEIGHT / 2.0;
      player2Pos := SCREEN_HEIGHT / 2.0 - PADDLE_HEIGHT / 2.0;
      ballPos := Vec2(SCREEN_WIDTH / 2.0 - BALL_SIZE / 2.0, SCREEN_HEIGHT / 2.0 - BALL_SIZE / 2.0);
      ballVel := Vec2(-BALL_SPEED, 0.0);
      player1Score := 0;
      player2Score := 0;
    }

    /** Awards the point for a ball that has left the field and re-serves. */
    method UpdateScoreAndReset(angle: Angle)
      modifies this
      ensures View() == ScoreAndReset(old(View()), angle)
      ensures old(ballPos.x) < 0.0 ==> player2Score == old(player2Score) + 1 && player1Score == old(player1Score)
      ensures old(ballPos.x) > SCREEN_WIDTH ==> player1Score == old(player1Score) + 1 && player2Score == old(player2Score)
      ensures 0.0 <= old(ballPos.x) <= SCREEN_WIDTH ==> View() == old(View())
      ensures old(Valid()) ==> Valid()
    {
      if ballPos.x < 0.0 {
        player2Score := player2Score + 1;
        ResetBall(true, angle);
      } else if ballPos.x > SCREEN_WIDTH {
        player1Score := player1Score + 1;
        ResetBall(false, angle);
      }
    }

    /** Puts the ball back in the centre; `angle` is the random draw. */
    method ResetBall(toRight: bool, angle: Angle)
      modifies this
      ensures View() == Serve(old(View()), toRight, angle)
      ensures ballPos == Vec2(395.0, 295.0)
      ensures ballVel.x == (if toRight then 300.0 else -300.0)
      ensures -300.0 <= ballVel.y < 300.0
      ensures player1Pos == old(player1Pos) && player2Pos == old(player2Pos)
      ensures player1Score == old(player1Score) && player2Score == old(player2Score)
    {
      ballPos := Vec2(SCREEN_WIDTH / 2.0 - BALL_SIZE / 2.0, SCREEN_HEIGHT / 2.0 - BALL_SIZE / 2.0);
      ballVel := ballVel.(x := if toRight then BALL_SPEED else -BALL_SPEED);
      ballVel := ballVel.(y := BALL_SPEED * angle);
    }

    /** Tests the left paddle, then the right paddle, against the ball. */
    method CheckPaddleCollision()
      modifies this
      ensures View() == Collide(old(View()))
      ensures ballPos == old(ballPos)
      ensures player1Pos == old(player1Pos) && player2Pos == old(player2Pos)
      ensures player1Score == old(player1Score) && player2Score == old(player2Score)
      ensures Abs(ballVel.x) == Abs(old(ballVel.x))
      ensures old(Valid()) ==> Valid()
    {
      ghost var before := View();
      var paddle1RightEdge := 30.0 + PADDLE_WIDTH;
      var paddle2LeftEdge := SCREEN_WIDTH - 40.0 - PADDLE_WIDTH;

      if ballPos.x <= paddle1RightEdge
         && ballPos.x + BALL_SIZE >= 30.0
         && ballPos.y + BALL_SIZE >= player1Pos
         && ballPos.y <= player1Pos + PADDLE_HEIGHT
         && ballVel.x < 0.0
      {
        ballVel := ballVel.(x := -ballVel.x);
        var impactOffset := (ballPos.y + BALL_SIZE / 2.0 - (player1Pos + PADDLE_HEIGHT / 2.0)) / PADDLE_HEIGHT;
        ballVel := ballVel.(y := ballVel.y + impactOffset * BALL_SPEED);
      }
      assert View() == (if HitsLeft(before) then Deflect(before, before.player1Pos) else before);

      if ballPos.x + BALL_SIZE >= paddle2LeftEdge
         && ballPos.x <= SCREEN_WIDTH - 40.0
         && ballPos.y + BALL_SIZE >= player2Pos
         && ballPos.y <= player2Pos + PADDLE_HEIGHT
         && ballVel.x > 0.0
      {
        ballVel := ballVel.(x := -ballVel.x);
        var impactOffset := (ballPos.y + BALL_SIZE / 2.0 - (player2Pos + PADDLE_HEIGHT / 2.0)) / PADDLE_HEIGHT;
        ballVel := ballVel.(y := ballVel.y + impactOffset * BALL_SPEED);
      }
    }

    /** One tick: collision, scoring, the four keys, then the ball and the
        walls. `keys` are the keys held this frame, `dt` the frame's
        duration and `angle` the random draw a serve would use. */
    method Update(keys: Intents, dt: Seconds, angle: Angle)
      modifies this
      ensures View() == Step(old(View()), Frame(keys, dt, angle))
      ensures old(Valid()) ==> Valid()
      ensures player1Score >= old(player1Score) && player2Score >= old(player2Score)
    {
      CheckPaddleCollision();
      UpdateScoreAndReset(angle);
      MovePaddles(keys, dt);
      MoveBallAndBounce(dt);
    }

    /** The movement part of a tick: each key moves its paddle by
        `PADDLE_SPEED * dt`, clamped after each move. */
    method MovePaddles(keys: Intents, dt: Seconds)
      modifies this
      ensures player1Pos == MovePaddle(old(player1Pos), keys.p1Up, keys.p1Down, dt)
      ensures player2Pos == MovePaddle(old(player2Pos), keys.p2Up, keys.p2Down, dt)
      ensures PaddleInRange(old(player1Pos)) ==> PaddleInRange(player1Pos)
      ensures PaddleInRange(old(player2Pos)) ==> PaddleInRange(player2Pos)
      ensures ballPos == old(ballPos) && ballVel == old(ballVel)
      ensures player1Score == old(player1Score) && player2Score == old(player2Score)
    {
      // Player 1
      if keys.p1Up {
        player1Pos := player1Pos - PADDLE_SPEED * dt;
        if player1Pos < 0.0 {
          player1Pos := 0.0;
        }
      }
      if keys.p1Down {
        player1Pos := player1Pos + PADDLE_SPEED * dt;
        if player1Pos > SCREEN_HEIGHT - PADDLE_HEIGHT {
          player1Pos := SCREEN_HEIGHT - PADDLE_HEIGHT;
        }
      }

      // Player 2
      if keys.p2Up {
        player2Pos := player2Pos - PADDLE_SPEED * dt;
        if player2Pos < 0.0 {
          player2Pos := 0.0;
        }
      }
      if keys.p2Down {
        player2Pos := player2Pos + PADDLE_SPEED * dt;
        if player2Pos > SCREEN_HEIGHT - PADDLE_HEIGHT {
          player2Pos := SCREEN_HEIGHT - PADDLE_HEIGHT;
        }
      }
    }

    /** The ball part of a tick: integrate over `dt`, then reverse the
        vertical speed if the moved ball touches the top or bottom wall. */
    method MoveBallAndBounce(dt: Seconds)
      modifies this
      ensures View() == MoveBall(old(View()), dt)
      ensures ballVel.x == old(ballVel.x)
      ensures TouchesWall(ballPos.y) ==> ballVel.y == -old(ballVel.y)
      ensures !TouchesWall(ballPos.y) ==> ballVel.y == old(ballVel.y)
      ensures player1Pos == old(player1Pos) && player2Pos == old(player2Pos)
      ensures player1Score == old(player1Score) && player2Score == old(player2Score)
    {
      ballPos := ballPos.(x := ballPos.x + ballVel.x * dt);
      ballPos := ballPos.(y := ballPos.y + ballVel.y * dt);
      if ballPos.y <= 0.0 || ballPos.y + BALL_SIZE >= SCREEN_HEIGHT {
        ballVel := ballVel.(y := -ballVel.y);
      }
    }
  }
}
