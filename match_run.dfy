/** A whole match as the event loop drives it: one tick per frame, starting
    from the opening state. The properties here hold over any number of
    frames, whatever keys are held, however long each frame lasts and
    whatever the random serve draws are. */
module PongMatch {
  import opened Pong
  import PongGame

  /** The state after playing `frames` in order from `s`. Scores never go
      down, rise by at most one point per frame, and the invariant (paddles
      in range, non-negative scores, horizontal speed `BALL_SPEED`) is kept. */
  function Run(s: State, frames: seq<Frame>): (r: State)
    ensures s.player1Score <= r.player1Score && s.player2Score <= r.player2Score
    ensures r.player1Score + r.player2Score <= s.player1Score + s.player2Score + |frames|
    ensures Invariant(s) ==> Invariant(r)
    decreases |frames|
  {
    if frames == [] then s else Run(Step(s, frames[0]), frames[1..])
  }

  /** Playing two runs of frames one after the other is playing their
      concatenation. */
  lemma {:induction false} RunAppend(s: State, a: seq<Frame>, b: seq<Frame>)
    ensures Run(s, a + b) == Run(Run(s, a), b)
    decreases |a|
  {
    if a == [] {
      assert a + b == b;
    } else {
      assert (a + b)[0] == a[0];
      assert (a + b)[1..] == a[1..] + b;
      RunAppend(Step(s, a[0]), a[1..], b);
    }
  }

  /** Every state reachable from the opening state satisfies the invariant,
      and at frame `j` neither score is below its value at an earlier frame `i`. */
  lemma ScoresMonotoneAlongMatch(frames: seq<Frame>, i: nat, j: nat)
    requires i <= j <= |frames|
    ensures Invariant(Run(Initial(), frames[..i]))
    ensures Run(Initial(), frames[..i]).player1Score <= Run(Initial(), frames[..j]).player1Score
    ensures Run(Initial(), frames[..i]).player2Score <= Run(Initial(), frames[..j]).player2Score
  {
    assert frames[..j] == frames[..i] + frames[i..j];
    RunAppend(Initial(), frames[..i], frames[i..j]);
  }

  /** The opening serve left untouched: after a first frame long enough for
      the ball to cross the left edge (395 pixels at 300 pixels per second)
      nobody has scored yet, because scoring comes before movement in a
      tick; the next frame awards player 2 the point and serves towards
      player 2 from the centre. */
  lemma FirstPointToPlayer2(f1: Frame, f2: Frame)
    requires f1.dt > 395.0 / 300.0
    ensures Step(Initial(), f1).player1Score == 0 && Step(Initial(), f1).player2Score == 0
    ensures OutLeft(Step(Initial(), f1))
    ensures Run(Initial(), [f1, f2]).player2Score == 1
    ensures Run(Initial(), [f1, f2]).player1Score == 0
    ensures Run(Initial(), [f1, f2]).ballVel.x == BALL_SPEED
    ensures Run(Initial(), [f1, f2]).ballPos.x == ServePosition().x + BALL_SPEED * f2.dt
    ensures f2.dt == 0.0 ==> Run(Initial(), [f1, f2]).ballPos == ServePosition()
  {
    var s1 := Step(Initial(), f1);
    assert s1.ballPos.x == 395.0 - 300.0 * f1.dt;
    assert Collide(s1) == s1;
    var served := ScoreAndReset(s1, f2.angle);
    assert served.ballVel.x == BALL_SPEED && served.ballPos == ServePosition();
    var s2 := Step(s1, f2);
    assert s2 == MoveBall(served.(
      player1Pos := MovePaddle(served.player1Pos, f2.keys.p1Up, f2.keys.p1Down, f2.dt),
      player2Pos := MovePaddle(served.player2Pos, f2.keys.p2Up, f2.keys.p2Down, f2.dt)), f2.dt);
    assert [f1, f2][1..] == [f2];
    assert [f2][1..] == [];
    assert Run(Initial(), [f1, f2]) == Run(s1, [f2]);
    assert Run(s1, [f2]) == Run(s2, []) == s2;
  }

  /** The same scenario played on a `GameState` object: two calls of
      `Update` return the scores and the ball's horizontal speed. */
  method PlayFirstPoint(keys1: Intents, dt1: Seconds, keys2: Intents, dt2: Seconds, angle: Angle)
    returns (player1Score: int, player2Score: int, ballVelX: real)
    requires dt1 > 395.0 / 300.0
    ensures player1Score == 0 && player2Score == 1
    ensures ballVelX == BALL_SPEED
  {
    var game := new PongGame.GameState();
    game.Update(keys1, dt1, angle);
    game.Update(keys2, dt2, angle);
    FirstPointToPlayer2(Frame(keys1, dt1, angle), Frame(keys2, dt2, angle));
    assert [Frame(keys1, dt1, angle), Frame(keys2, dt2, angle)][1..] == [Frame(keys2, dt2, angle)];
    player1Score, player2Score, ballVelX := game.player1Score, game.player2Score, game.ballVel.x;
  }
}
