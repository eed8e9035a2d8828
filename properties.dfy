/**
 * What the rules of a tick guarantee: the paddles stay inside the field,
 * the ball keeps a unit velocity and stays on the field, scores only grow
 * and never pass the limit, each mode scores as it should, and the session
 * stops after the first tick that quits or reaches the limit.
 */
module Properties {
  import opened Entities
  import opened Rules

  /**
   * The ball is between the walls and not moving into one, and it is on the
   * field horizontally.  Column 0 is reached only in the wall mode, where
   * the ball has already been turned back to the right.
   */
  predicate BallInField(cfg: Config, mode: Mode, b: BallState)
  {
    && 1 <= b.y <= cfg.fieldHeight - 2
    && (b.y == 1 ==> b.dy == 1)
    && (b.y == cfg.fieldHeight - 2 ==> b.dy == -1)
    && 0 <= b.x <= cfg.fieldWidth - 2
    && (b.x == 0 ==> mode == PlayerVsWall && b.dx == 1)
  }

  /** What holds between any two ticks of a session. */
  predicate Invariant(cfg: Config, mode: Mode, w: World)
  {
    && w.player1 == PaddleState(1, w.player1.y, cfg.paddleHeight)
    && w.player2 == PaddleState(cfg.fieldWidth - 2, w.player2.y, cfg.paddleHeight)
    && w.player1.InField(cfg.fieldHeight)
    && w.player2.InField(cfg.fieldHeight)
    && w.ball.UnitVelocity()
    && BallInField(cfg, mode, w.ball)
    && 0 <= w.player1Score <= cfg.maxScore
    && 0 <= w.player2Score <= cfg.maxScore
    && (mode == PlayerVsWall ==> w.player2Score == 0)
    && (w.isRunning ==> w.player1Score < cfg.maxScore && w.player2Score < cfg.maxScore)
  }

  /** The initial placement satisfies the invariant: both centred paddles fit between the walls. */
  lemma InitialSatisfiesInvariant(cfg: Config, mode: Mode)
    requires cfg.Valid()
    ensures Invariant(cfg, mode, Initial(cfg))
  {
    var h, p := cfg.fieldHeight, cfg.paddleHeight;
    assert HalfTowardZero(p) <= HalfTowardZero(h) - 1;
    assert HalfTowardZero(h) + (p - HalfTowardZero(p)) <= h - 1;
  }

  /** Every tick keeps both velocity components in {-1, 1}, whatever the settings. */
  lemma TickKeepsUnitVelocity(cfg: Config, mode: Mode, key: Key, w: World)
    requires w.ball.UnitVelocity()
    ensures Tick(cfg, mode, key, w).ball.UnitVelocity()
  {
  }

  /** The ball after step 1, on a field where the invariant held. */
  lemma AdvanceInField(cfg: Config, mode: Mode, b: BallState)
    requires cfg.Valid()
    requires b.UnitVelocity() && BallInField(cfg, mode, b)
    ensures var a := Advance(cfg, b);
      && a.UnitVelocity() && a.dx == b.dx && a.x == b.x + b.dx
      && 1 <= a.y <= cfg.fieldHeight - 2
      && (a.y == 1 ==> a.dy == 1)
      && (a.y == cfg.fieldHeight - 2 ==> a.dy == -1)
      && 0 <= a.x <= cfg.fieldWidth - 1
      && (a.x == 0 ==> a.dx == -1)
      && (a.x == cfg.fieldWidth - 1 ==> a.dx == 1)
  {
  }

  /** The paddles stay in their columns, keep their height and stay inside the field. */
  lemma TickKeepsPaddles(cfg: Config, mode: Mode, key: Key, w: World)
    requires w.player1 == PaddleState(1, w.player1.y, cfg.paddleHeight)
    requires w.player2 == PaddleState(cfg.fieldWidth - 2, w.player2.y, cfg.paddleHeight)
    requires w.player1.InField(cfg.fieldHeight) && w.player2.InField(cfg.fieldHeight)
    ensures var r := Tick(cfg, mode, key, w);
      && r.player1 == PaddleState(1, r.player1.y, cfg.paddleHeight)
      && r.player2 == PaddleState(cfg.fieldWidth - 2, r.player2.y, cfg.paddleHeight)
      && r.player1.InField(cfg.fieldHeight) && r.player2.InField(cfg.fieldHeight)
  {
    var fh := cfg.fieldHeight;
    PaddlesFollowKeys(cfg, mode, key, w);
    var q := ApplyKey(cfg, key, w).player2;
    MoveUpKeepsInField(w.player1, fh);
    MoveDownKeepsInField(w.player1, fh);
    MoveUpKeepsInField(w.player2, fh);
    MoveDownKeepsInField(w.player2, fh);
    assert q.InField(fh);
    if mode == PlayerVsComputer {
      MoveUpKeepsInField(q, fh);
      MoveDownKeepsInField(q, fh);
      MoveDownKeepsInField(q.MovedUp(), fh);
    }
  }

  /**
   * Between ticks of a running session the invariant is kept: paddles in
   * their columns and inside the field, a unit velocity, the ball on the
   * field, scores within the limit, and no point for the right player in
   * the wall mode.
   */
  lemma TickPreservesInvariant(cfg: Config, mode: Mode, key: Key, w: World)
    requires cfg.Valid()
    requires Invariant(cfg, mode, w) && w.isRunning
    ensures Invariant(cfg, mode, Tick(cfg, mode, key, w))
  {
    AdvanceInField(cfg, mode, w.ball);
    TickKeepsPaddles(cfg, mode, key, w);
    TickKeepsUnitVelocity(cfg, mode, key, w);
    TickScores(cfg, mode, key, w);
    TickRunningIff(cfg, mode, key, w);
    assert 2 <= HalfTowardZero(cfg.fieldWidth) <= cfg.fieldWidth - 3;
    assert 2 <= HalfTowardZero(cfg.fieldHeight) <= cfg.fieldHeight - 3;
    if mode == PlayerVsWall {
      WallNeverScoresPlayer2(cfg, key, w);
      WallTick(cfg, key, w);
    } else {
      TwoPlayerGoals(cfg, mode, key, w);
    }
  }

  /**
   * Scores never go down and each rises by at most one per tick; with a
   * field wider than one cell, at most one of them rises.
   */
  lemma TickScores(cfg: Config, mode: Mode, key: Key, w: World)
    ensures var r := Tick(cfg, mode, key, w);
      && w.player1Score <= r.player1Score <= w.player1Score + 1
      && w.player2Score <= r.player2Score <= w.player2Score + 1
      && (cfg.fieldWidth > 1 ==> r.player1Score + r.player2Score <= w.player1Score + w.player2Score + 1)
  {
  }

  /**
   * After a tick the game runs on exactly when it was running, the key was
   * not `q`, and both scores are below the limit.
   */
  lemma TickRunningIff(cfg: Config, mode: Mode, key: Key, w: World)
    ensures var r := Tick(cfg, mode, key, w);
      r.isRunning <==> w.isRunning && key != Q && r.player1Score < cfg.maxScore && r.player2Score < cfg.maxScore
  {
  }

  /** Quitting does not cut a tick short: the tick with `q` is the tick with no key, except that the game stops. */
  lemma QuitTickStillAppliesRules(cfg: Config, mode: Mode, w: World)
    ensures Tick(cfg, mode, Q, w) == Tick(cfg, mode, Other, w).(isRunning := false)
  {
  }

  /**
   * Only keys move the paddles: `w` moves the left paddle up and `s` down;
   * outside the computer mode the up and down arrows move the right paddle
   * and nothing else does.  In the computer mode the arrow's move is made
   * first and the computer moves from there (ComputerTracksBall).
   */
  lemma PaddlesFollowKeys(cfg: Config, mode: Mode, key: Key, w: World)
    ensures Tick(cfg, mode, key, w).player1 ==
      if key == W then w.player1.MovedUp()
      else if key == S then w.player1.MovedDown(cfg.fieldHeight)
      else w.player1
    ensures mode != PlayerVsComputer ==>
      Tick(cfg, mode, key, w).player2 ==
        if key == Up then w.player2.MovedUp()
        else if key == Down then w.player2.MovedDown(cfg.fieldHeight)
        else w.player2
  {
  }

  /**
   * The computer reacts to the ball's row after the ball moved: one row up
   * when the ball is above the paddle, one row down when it is below row
   * y + height, otherwise it holds.  The two tests of the source never both
   * fire, so the computer moves at most once per tick.
   */
  lemma ComputerTracksBall(cfg: Config, key: Key, w: World)
    requires w.player2.height >= 0
    ensures var b := Advance(cfg, w.ball);
      var q := ApplyKey(cfg, key, w).player2;
      Tick(cfg, PlayerVsComputer, key, w).player2 ==
        if b.y < q.y then q.MovedUp()
        else if b.y > q.y + q.height then q.MovedDown(cfg.fieldHeight)
        else q
  {
  }

  /**
   * A tick in which the ball, after moving, is on a paddle scores nothing
   * and leaves the ball where it moved to: a paddle hit and a goal never
   * happen in the same tick.  Outside the wall mode the hit turns the ball
   * back horizontally, once.
   */
  lemma PaddleHitTickScoresNothing(cfg: Config, mode: Mode, key: Key, w: World)
    requires cfg.fieldWidth > 2
    requires w.player1.x == 1 && w.player2.x == cfg.fieldWidth - 2
    requires var b := Advance(cfg, w.ball);
      var r := Tick(cfg, mode, key, w);
      b.CheckPaddleCollision(r.player1) || b.CheckPaddleCollision(r.player2)
    ensures var b := Advance(cfg, w.ball);
      var r := Tick(cfg, mode, key, w);
      && r.player1Score == w.player1Score && r.player2Score == w.player2Score
      && r.ball.x == b.x && r.ball.y == b.y
      && (mode != PlayerVsWall ==> r.ball == b.Reflected())
  {
    PaddlesFollowKeys(cfg, mode, key, w);
  }

  /**
   * Goals in the two-player modes: the left edge is a point for the right
   * player, the right edge a point for the left player, and the ball is
   * re-centred and served the other way; a tick without a goal changes no
   * score and leaves the ball where it moved to.
   */
  lemma TwoPlayerGoals(cfg: Config, mode: Mode, key: Key, w: World)
    requires mode != PlayerVsWall
    requires cfg.fieldWidth > 2
    requires w.player1.x == 1 && w.player2.x == cfg.fieldWidth - 2
    ensures var b := Advance(cfg, w.ball);
      var r := Tick(cfg, mode, key, w);
      var served := b.Reset(HalfTowardZero(cfg.fieldWidth), HalfTowardZero(cfg.fieldHeight));
      && (b.x <= 0 ==>
            r.player2Score == w.player2Score + 1 && r.player1Score == w.player1Score && r.ball == served)
      && (b.x >= cfg.fieldWidth - 1 ==>
            r.player1Score == w.player1Score + 1 && r.player2Score == w.player2Score && r.ball == served)
      && (!b.OutOfBounds(cfg.fieldWidth) ==>
            && r.player1Score == w.player1Score && r.player2Score == w.player2Score
            && r.ball.x == b.x && r.ball.y == b.y && r.ball.dy == b.dy)
  {
    PaddlesFollowKeys(cfg, mode, key, w);
  }

  /** In the wall mode the right player's score never changes. */
  lemma WallNeverScoresPlayer2(cfg: Config, key: Key, w: World)
    ensures Tick(cfg, PlayerVsWall, key, w).player2Score == w.player2Score
  {
  }

  /**
   * The wall mode as written.  On the right edge the player scores and the
   * ball is re-centred with the direction it arrived with (the reset and
   * the statement after it both turn it).  A ball on the left paddle keeps
   * its direction (the wall rule and the shared paddle check both turn it).
   * On the left edge the ball turns back and nobody scores.
   */
  lemma WallTick(cfg: Config, key: Key, w: World)
    requires cfg.fieldWidth > 4
    requires w.player1.x == 1 && w.player2.x == cfg.fieldWidth - 2
    ensures var b := Advance(cfg, w.ball);
      var r := Tick(cfg, PlayerVsWall, key, w);
      && (b.x >= cfg.fieldWidth - 1 ==>
            r.player1Score == w.player1Score + 1
            && r.ball == BallState(HalfTowardZero(cfg.fieldWidth), HalfTowardZero(cfg.fieldHeight), b.dx, b.dy))
      && (b.CheckPaddleCollision(r.player1) ==> r.player1Score == w.player1Score && r.ball == b)
      && (b.x <= 0 ==> r.player1Score == w.player1Score && r.ball == b.Reflected())
      && (b.x < cfg.fieldWidth - 1 ==>
            r.player1Score == w.player1Score && r.ball.x == b.x && r.ball.y == b.y && r.ball.dy == b.dy)
  {
    PaddlesFollowKeys(cfg, PlayerVsWall, key, w);
    assert 2 <= HalfTowardZero(cfg.fieldWidth) <= cfg.fieldWidth - 3;
  }

  /** Running keys one after another is running them all. */
  lemma {:induction false} RunAppend(cfg: Config, mode: Mode, keys: seq<Key>, more: seq<Key>, w: World)
    ensures Run(cfg, mode, keys + more, w) == Run(cfg, mode, more, Run(cfg, mode, keys, w))
    decreases |keys|
  {
    if !w.isRunning {
      assert Run(cfg, mode, keys + more, w) == w;
      assert Run(cfg, mode, keys, w) == w;
      assert Run(cfg, mode, more, w) == w;
    } else if keys == [] {
      assert keys + more == more;
    } else {
      assert (keys + more)[1..] == keys[1..] + more;
      RunAppend(cfg, mode, keys[1..], more, Tick(cfg, mode, keys[0], w));
    }
  }

  /** One more key is one more tick, if the game is still running. */
  lemma RunSnoc(cfg: Config, mode: Mode, keys: seq<Key>, key: Key, w: World)
    ensures var v := Run(cfg, mode, keys, w);
      Run(cfg, mode, keys + [key], w) == if v.isRunning then Tick(cfg, mode, key, v) else v
  {
    RunAppend(cfg, mode, keys, [key], w);
    var v := Run(cfg, mode, keys, w);
    if v.isRunning {
      assert Run(cfg, mode, [key], v) == Run(cfg, mode, [], Tick(cfg, mode, key, v));
    }
  }

  /** The key at index i is read by one more tick when the game still runs after the first i keys. */
  lemma RunPrefixStep(cfg: Config, mode: Mode, keys: seq<Key>, i: nat, w: World)
    requires i < |keys|
    requires Run(cfg, mode, keys[..i], w).isRunning
    ensures Run(cfg, mode, keys[..i + 1], w) == Tick(cfg, mode, keys[i], Run(cfg, mode, keys[..i], w))
  {
    RunSnoc(cfg, mode, keys[..i], keys[i], w);
    assert keys[..i + 1] == keys[..i] + [keys[i]];
  }

  /** A run that has stopped after the first i keys, or has read them all, is the run over all keys. */
  lemma RunPrefixDone(cfg: Config, mode: Mode, keys: seq<Key>, i: nat, w: World)
    requires i <= |keys|
    requires i == |keys| || !Run(cfg, mode, keys[..i], w).isRunning
    ensures Run(cfg, mode, keys, w) == Run(cfg, mode, keys[..i], w)
  {
    if i < |keys| {
      RunStoppedIgnoresRest(cfg, mode, keys[..i], keys[i..], w);
      assert keys[..i] + keys[i..] == keys;
    } else {
      assert keys[..i] == keys;
    }
  }

  /** Once the game has stopped, later keys are never read. */
  lemma RunStoppedIgnoresRest(cfg: Config, mode: Mode, keys: seq<Key>, more: seq<Key>, w: World)
    requires !Run(cfg, mode, keys, w).isRunning
    ensures Run(cfg, mode, keys + more, w) == Run(cfg, mode, keys, w)
  {
    RunAppend(cfg, mode, keys, more, w);
  }

  /** The session ends with the tick that reads `q`: nothing after it is read. */
  lemma RunIgnoresKeysAfterQuit(cfg: Config, mode: Mode, keys: seq<Key>, more: seq<Key>, w: World)
    ensures Run(cfg, mode, keys + [Q] + more, w) == Run(cfg, mode, keys + [Q], w)
  {
    RunSnoc(cfg, mode, keys, Q, w);
    var v := Run(cfg, mode, keys, w);
    if v.isRunning {
      TickRunningIff(cfg, mode, Q, v);
    }
    RunStoppedIgnoresRest(cfg, mode, keys + [Q], more, w);
  }

  /** Any number of ticks from a state satisfying the invariant keeps it. */
  lemma {:induction false} RunPreservesInvariant(cfg: Config, mode: Mode, keys: seq<Key>, w: World)
    requires cfg.Valid() && Invariant(cfg, mode, w)
    ensures Invariant(cfg, mode, Run(cfg, mode, keys, w))
    decreases |keys|
  {
    if w.isRunning && keys != [] {
      TickPreservesInvariant(cfg, mode, keys[0], w);
      RunPreservesInvariant(cfg, mode, keys[1..], Tick(cfg, mode, keys[0], w));
    }
  }

  /**
   * The session ends with the first tick that brings a score to the limit:
   * from a state satisfying the invariant, keys after it are never read.
   */
  lemma RunStopsAtScoreLimit(cfg: Config, mode: Mode, keys: seq<Key>, more: seq<Key>, w: World)
    requires cfg.Valid() && Invariant(cfg, mode, w)
    requires var v := Run(cfg, mode, keys, w);
      v.player1Score >= cfg.maxScore || v.player2Score >= cfg.maxScore
    ensures Run(cfg, mode, keys + more, w) == Run(cfg, mode, keys, w)
  {
    RunPreservesInvariant(cfg, mode, keys, w);
    RunStoppedIgnoresRest(cfg, mode, keys, more, w);
  }

  /**
   * A whole session from the initial placement, with valid settings, ends
   * with both scores between zero and the limit, and with no point for the
   * right player in the wall mode.
   */
  lemma SessionScoresWithinLimit(cfg: Config, mode: Mode, keys: seq<Key>)
    requires cfg.Valid()
    ensures var r := Run(cfg, mode, keys, Initial(cfg));
      && 0 <= r.player1Score <= cfg.maxScore
      && 0 <= r.player2Score <= cfg.maxScore
      && (mode == PlayerVsWall ==> r.player2Score == 0)
  {
    InitialSatisfiesInvariant(cfg, mode);
    RunPreservesInvariant(cfg, mode, keys, Initial(cfg));
  }

  /** Over any number of ticks, neither score goes down. */
  lemma {:induction false} RunScoresMonotone(cfg: Config, mode: Mode, keys: seq<Key>, w: World)
    ensures var r := Run(cfg, mode, keys, w);
      w.player1Score <= r.player1Score && w.player2Score <= r.player2Score
    decreases |keys|
  {
    if w.isRunning && keys != [] {
      TickScores(cfg, mode, keys[0], w);
      RunScoresMonotone(cfg, mode, keys[1..], Tick(cfg, mode, keys[0], w));
    }
  }
}
