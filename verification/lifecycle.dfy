/**
  One ball from release to removal, with a scoring system in the scene: any
  interleaving of collisions, frames and the ball leaving the field. The three
  resolving paths (a wicket contact, lifetime expiry, the exit handler) share
  the ball's `scored` flag.
*/
module Lifecycle {
  import opened Seqs
  import opened Events
  import opened Delivery
  import opened Scoreboard

  datatype Signal = Collided(c: Contact) | Ticked(dt: nat) | LeftField

  /** Where a ball and the board end up, how many signals resolved the ball, and what was invoked. */
  datatype Trace = Trace(ball: Ball, board: Board, verdicts: nat, events: seq<ScoreEvent>)

  /** One signal delivered to the ball (collision, frame) or to the scoring system (exit). */
  function Feed(ball: Ball, board: Board, s: Signal): (r: Trace)
    ensures Below(ball.flags, r.ball.flags)
    ensures r.verdicts <= 1
    ensures r.verdicts == 1 <==> !ball.flags.scored && r.ball.flags.scored
    ensures Dominated(board, r.board) && (Consistent(board) ==> Consistent(r.board))
    ensures r.board.isGameOver == board.isGameOver
  {
    match s
    case Collided(c) =>
      var t := Touch(ball.flags, c, true);
      Trace(Ball(t.flags, ball.life), board, if t.registered then 1 else 0,
            if t.registered then [WicketRegistered] else [])
    case Ticked(dt) =>
      var e := Elapse(ball, dt);
      Trace(e.ball, board, if e.expired then 1 else 0, if e.expired then [BoundaryHit(0)] else [])
    case LeftField =>
      var x := Exit(board, ball.flags);
      Trace(Ball(x.flags, ball.life), x.board, if x.events != [] then 1 else 0, x.events)
  }

  function FeedAll(ball: Ball, board: Board, signals: seq<Signal>): Trace
    decreases |signals|
  {
    if signals == [] then Trace(ball, board, 0, [])
    else
      var h := Feed(ball, board, signals[0]);
      var t := FeedAll(h.ball, h.board, signals[1..]);
      Trace(t.ball, t.board, h.verdicts + t.verdicts, h.events + t.events)
  }

  /** However the signals interleave, a ball is resolved at most once, and never once it is scored. */
  lemma {:induction false} AtMostOneVerdict(ball: Ball, board: Board, signals: seq<Signal>)
    decreases |signals|
    ensures var r := FeedAll(ball, board, signals);
      && r.verdicts <= (if ball.flags.scored then 0 else 1)
      && (r.verdicts == 1 <==> !ball.flags.scored && r.ball.flags.scored)
  {
    if signals != [] {
      var h := Feed(ball, board, signals[0]);
      AtMostOneVerdict(h.ball, h.board, signals[1..]);
      FlagsNeverLowered(h.ball, h.board, signals[1..]);
    }
  }

  /** No signal lowers a flag. */
  lemma {:induction false} FlagsNeverLowered(ball: Ball, board: Board, signals: seq<Signal>)
    decreases |signals|
    ensures Below(ball.flags, FeedAll(ball, board, signals).ball.flags)
  {
    if signals != [] {
      var h := Feed(ball, board, signals[0]);
      FlagsNeverLowered(h.ball, h.board, signals[1..]);
    }
  }

  /** The boundary counters stay in agreement and no counter goes down. */
  lemma {:induction false} BoardStaysConsistent(ball: Ball, board: Board, signals: seq<Signal>)
    requires Consistent(board)
    decreases |signals|
    ensures var r := FeedAll(ball, board, signals);
      Consistent(r.board) && Dominated(board, r.board) && r.board.isGameOver == board.isGameOver
  {
    if signals != [] {
      var h := Feed(ball, board, signals[0]);
      BoardStaysConsistent(h.ball, h.board, signals[1..]);
    }
  }

  /** Once the latch is set, the counters are frozen whatever the ball does. */
  lemma {:induction false} FrozenBoardIgnoresBall(ball: Ball, board: Board, signals: seq<Signal>)
    requires board.isGameOver
    decreases |signals|
    ensures FeedAll(ball, board, signals).board == board
    ensures Count(FeedAll(ball, board, signals).events, WicketHit) == 0
  {
    if signals != [] {
      var h := Feed(ball, board, signals[0]);
      FrozenBoardIgnoresBall(h.ball, h.board, signals[1..]);
      CountAppend(h.events, FeedAll(h.ball, h.board, signals[1..]).events, WicketHit);
    }
  }

  /** A ball that hit the wicket is already scored, once a scoring system is present. */
  predicate WicketSettled(f: Outcome)
  {
    f.hitWicket ==> f.scored
  }

  /**
    With a scoring system present, a wicket contact marks the ball scored at
    once, so the exit handler never sees an unscored ball that hit the wicket:
    collisions never raise `wicketsTaken` or fire OnWicketHit.
  */
  lemma {:induction false} WicketNeverReachesBoard(ball: Ball, board: Board, signals: seq<Signal>)
    requires WicketSettled(ball.flags)
    decreases |signals|
    ensures var r := FeedAll(ball, board, signals);
      && WicketSettled(r.ball.flags)
      && r.board.wicketsTaken == board.wicketsTaken
      && Count(r.events, WicketHit) == 0
  {
    if signals != [] {
      var h := Feed(ball, board, signals[0]);
      assert WicketSettled(h.ball.flags) && h.board.wicketsTaken == board.wicketsTaken;
      assert WicketHit !in h.events;
      CountAbsent(h.events, WicketHit);
      WicketNeverReachesBoard(h.ball, h.board, signals[1..]);
      CountAppend(h.events, FeedAll(h.ball, h.board, signals[1..]).events, WicketHit);
    }
  }

  /**
    A ball already marked scored fires nothing more, whatever happens to it:
    after a wicket contact has registered, no OnBoundaryHit or OnWicketHit
    follows from that ball, by exit or by expiry.
  */
  lemma {:induction false} ScoredBallIsSilent(ball: Ball, board: Board, signals: seq<Signal>)
    requires ball.flags.scored
    decreases |signals|
    ensures var r := FeedAll(ball, board, signals);
      r.events == [] && r.board == board && r.verdicts == 0
  {
    if signals != [] {
      var h := Feed(ball, board, signals[0]);
      ScoredBallIsSilent(h.ball, h.board, signals[1..]);
    }
  }

  /** A new ball that times out untouched is a dot ball: one zero-run boundary event and no score change. */
  lemma ExpiredBallIsDot(life: int, board: Board, dt: nat)
    requires dt >= life
    ensures var r := Feed(Ball(Unscored, life), board, Ticked(dt));
      r.board == board && r.verdicts == 1 && r.events == [BoundaryHit(0)]
  {
  }
}
