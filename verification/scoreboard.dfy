/**
  The scoreboard (Assets/Scripts/ScoringSystem.cs): six counters, a game-over
  latch, and the exit handler that turns a ball's flags into one verdict.
*/
module Scoreboard {
  import opened Events
  import opened Delivery
  import opened Seqs

  /** What a ball that left the field is worth. */
  datatype Verdict = Wicket | Dot | Four | Six

  function Runs(v: Verdict): int
  {
    match v
    case Four => 4
    case Six => 6
    case _ => 0
  }

  /**
    The order of the exit handler's tests: a wicket first, whatever else
    happened; then a ball the bat never touched; then the bounce decides.
  */
  function Classify(f: Outcome): (v: Verdict)
    ensures v == Wicket <==> f.hitWicket
    ensures v == Dot <==> !f.hitWicket && !f.hitByBat
    ensures v == Four <==> !f.hitWicket && f.hitByBat && f.bounced
    ensures v == Six <==> !f.hitWicket && f.hitByBat && !f.bounced
  {
    if f.hitWicket then Wicket
    else if !f.hitByBat then Dot
    else if f.bounced then Four
    else Six
  }

  datatype Board = Board(
    score: int,
    boundaryRuns: int,
    totalBoundaries: int,
    totalSixes: int,
    totalFours: int,
    wicketsTaken: int,
    isGameOver: bool)

  /** The boundary counters agree with each other. */
  predicate Consistent(b: Board)
  {
    && b.totalFours >= 0 && b.totalSixes >= 0 && b.wicketsTaken >= 0
    && b.totalBoundaries == b.totalFours + b.totalSixes
    && b.boundaryRuns == 4 * b.totalFours + 6 * b.totalSixes
  }

  /** No counter of `b` is below the matching counter of `a`. */
  predicate Dominated(a: Board, b: Board)
  {
    && a.score <= b.score
    && a.boundaryRuns <= b.boundaryRuns
    && a.totalBoundaries <= b.totalBoundaries
    && a.totalSixes <= b.totalSixes
    && a.totalFours <= b.totalFours
    && a.wicketsTaken <= b.wicketsTaken
  }

  /** Every counter at zero and the latch open: the board after `ResetScore`. */
  predicate Cleared(b: Board)
  {
    && b.score == 0 && b.boundaryRuns == 0 && b.totalBoundaries == 0
    && b.totalSixes == 0 && b.totalFours == 0 && b.wicketsTaken == 0
    && !b.isGameOver
  }

  /** The board after `AddRuns(runs)`: only the score moves. */
  function AddedRuns(b: Board, runs: int): (r: Board)
    ensures r.score == b.score + runs
    ensures r.(score := b.score) == b
    ensures Consistent(b) ==> Consistent(r)
  {
    b.(score := b.score + runs)
  }

  /** The counters after a verdict is applied to a live board. */
  function Award(b: Board, v: Verdict): (r: Board)
    ensures Consistent(b) ==> Consistent(r)
    ensures Dominated(b, r)
    ensures r.score == b.score + Runs(v) && r.boundaryRuns == b.boundaryRuns + Runs(v)
    ensures r.wicketsTaken == b.wicketsTaken + (if v == Wicket then 1 else 0)
    ensures r.totalFours == b.totalFours + (if v == Four then 1 else 0)
    ensures r.totalSixes == b.totalSixes + (if v == Six then 1 else 0)
    ensures r.totalBoundaries == b.totalBoundaries + (if v == Four || v == Six then 1 else 0)
    ensures r.isGameOver == b.isGameOver
  {
    match v
    case Wicket => b.(wicketsTaken := b.wicketsTaken + 1)
    case Dot => b
    case Four =>
      AddedRuns(b, 4).(boundaryRuns := b.boundaryRuns + 4, totalBoundaries := b.totalBoundaries + 1,
                       totalFours := b.totalFours + 1)
    case Six =>
      AddedRuns(b, 6).(boundaryRuns := b.boundaryRuns + 6, totalBoundaries := b.totalBoundaries + 1,
                       totalSixes := b.totalSixes + 1)
  }

  /** The events a verdict fires, `score` being the score after it. */
  function Announce(v: Verdict, score: int): (r: seq<ScoreEvent>)
    ensures v == Wicket ==> r == [WicketHit]
    ensures v != Wicket ==> |r| >= 1 && r[|r| - 1] == BoundaryHit(Runs(v))
    ensures v != Wicket ==> |r| == (if Runs(v) > 0 then 2 else 1)
    ensures |r| == 2 ==> r[0] == ScoreChanged(score)
  {
    match v
    case Wicket => [WicketHit]
    case Dot => [BoundaryHit(0)]
    case Four => [ScoreChanged(score), BoundaryHit(4)]
    case Six => [ScoreChanged(score), BoundaryHit(6)]
  }

  datatype Exited = Exited(board: Board, flags: Outcome, events: seq<ScoreEvent>)

  /** What the exit handler does with a ball whose flags are `f`. */
  function Exit(b: Board, f: Outcome): (r: Exited)
    // a frozen board or an already scored ball: nothing at all
    ensures b.isGameOver || f.scored ==> r == Exited(b, f, [])
    // otherwise the ball is marked scored and nothing else about it changes
    ensures !b.isGameOver && !f.scored ==> r.flags == f.(scored := true)
    ensures Below(f, r.flags) && (Consistent(b) ==> Consistent(r.board)) && Dominated(b, r.board)
    ensures r.board.isGameOver == b.isGameOver
    // a wicket: one more wicket, the score stays
    ensures !b.isGameOver && !f.scored && f.hitWicket ==>
      r.board == b.(wicketsTaken := b.wicketsTaken + 1) && r.events == [WicketHit]
    // never touched by the bat: only a zero-run boundary event
    ensures !b.isGameOver && !f.scored && !f.hitWicket && !f.hitByBat ==>
      r.board == b && r.events == [BoundaryHit(0)]
    // a four or a six, score first, then the boundary
    ensures !b.isGameOver && !f.scored && !f.hitWicket && f.hitByBat ==>
      var runs := if f.bounced then 4 else 6;
      && r.board.score == b.score + runs
      && r.board.boundaryRuns == b.boundaryRuns + runs
      && r.board.totalBoundaries == b.totalBoundaries + 1
      && r.board.totalFours == b.totalFours + (if f.bounced then 1 else 0)
      && r.board.totalSixes == b.totalSixes + (if f.bounced then 0 else 1)
      && r.board.wicketsTaken == b.wicketsTaken
      && r.events == [ScoreChanged(b.score + runs), BoundaryHit(runs)]
  {
    if b.isGameOver || f.scored then Exited(b, f, [])
    else
      var v := Classify(f);
      var after := Award(b, v);
      Exited(after, f.(scored := true), Announce(v, after.score))
  }

  /** The counters after a sequence of verdicts, one per ball that left the field. */
  function AwardAll(b: Board, vs: seq<Verdict>): Board
    decreases vs
  {
    if vs == [] then b else AwardAll(Award(b, vs[0]), vs[1..])
  }

  /**
    Over any sequence of verdicts, each counter rises by the number of
    verdicts of its kind, and the score only by the runs of fours and sixes.
  */
  lemma {:induction false} AwardAllCounts(b: Board, vs: seq<Verdict>)
    requires Consistent(b)
    decreases vs
    ensures var r := AwardAll(b, vs);
      && Consistent(r) && Dominated(b, r)
      && r.totalFours == b.totalFours + Count(vs, Four)
      && r.totalSixes == b.totalSixes + Count(vs, Six)
      && r.wicketsTaken == b.wicketsTaken + Count(vs, Wicket)
      && r.score == b.score + 4 * Count(vs, Four) + 6 * Count(vs, Six)
      && r.isGameOver == b.isGameOver
  {
    if vs != [] {
      AwardAllCounts(Award(b, vs[0]), vs[1..]);
    }
  }

  class ScoringSystem {
    var score: int
    var isGameOver: bool
    var boundaryRuns: int
    var totalBoundaries: int
    var totalSixes: int
    var totalFours: int
    var wicketsTaken: int
    /** OnScoreChanged, OnBoundaryHit and OnWicketHit, in invocation order. */
    const log: EventLog

    function Counters(): Board
      reads this
    {
      Board(score, boundaryRuns, totalBoundaries, totalSixes, totalFours, wicketsTaken, isGameOver)
    }

    ghost predicate Valid()
      reads this
    {
      Consistent(Counters())
    }

    /** Serialized fields start at their defaults. */
    constructor ()
      ensures Valid() && Cleared(Counters())
      ensures fresh(log) && log.entries == []
    {
      score, isGameOver := 0, false;
      boundaryRuns, totalBoundaries, totalSixes, totalFours, wicketsTaken := 0, 0, 0, 0, 0;
      log := new EventLog();
    }

    method ResetScore()
      modifies this, log
      ensures Valid() && Cleared(Counters())
      ensures log.entries == old(log.entries) + [ScoreChanged(0)]
    {
      score := 0;
      boundaryRuns := 0;
      totalBoundaries := 0;
      totalSixes := 0;
      totalFours := 0;
      wicketsTaken := 0;
      isGameOver := false;
      log.Invoke(ScoreChanged(score));
    }

    method AddRuns(runs: int)
      requires Valid()
      modifies this, log
      ensures Valid() && Counters() == AddedRuns(old(Counters()), runs)
      ensures log.entries == old(log.entries) + [ScoreChanged(score)]
    {
      score := score + runs;
      log.Invoke(ScoreChanged(score));
    }

    function GetScore(): int
      reads this
    {
      score
    }

    function GetWickets(): int
      reads this
    {
      wicketsTaken
    }

    method EndGame()
      requires Valid()
      modifies this
      ensures Valid() && Counters() == old(Counters()).(isGameOver := true)
    {
      isGameOver := true;
    }

    /** `ball` is the CricketBall of the collider that left the trigger, or null. */
    method OnTriggerExit(ball: CricketBall?)
      requires Valid()
      modifies this, log, ball
      ensures Valid()
      ensures ball == null ==> Counters() == old(Counters()) && log.entries == old(log.entries)
      ensures ball != null ==>
        var r := Exit(old(Counters()), old(ball.Flags()));
        && Counters() == r.board && ball.Flags() == r.flags
        && log.entries == old(log.entries) + r.events
        && ball.lifeTime == old(ball.lifeTime) && ball.destroyed == old(ball.destroyed)
    {
      if isGameOver {
        return;
      }
      if ball != null && !ball.HasBeenScored() {
        ball.MarkAsScored();
        if ball.HasHitWicket() {
          wicketsTaken := wicketsTaken + 1;
          log.Invoke(WicketHit);
        } else if ball.HasBeenHitByBat() {
          if ball.HasBouncedOnGround() {
            AddRuns(4);
            boundaryRuns := boundaryRuns + 4;
            totalBoundaries := totalBoundaries + 1;
            totalFours := totalFours + 1;
            log.Invoke(BoundaryHit(4));
          } else {
            AddRuns(6);
            boundaryRuns := boundaryRuns + 6;
            totalBoundaries := totalBoundaries + 1;
            totalSixes := totalSixes + 1;
            log.Invoke(BoundaryHit(6));
          }
        } else {
          log.Invoke(BoundaryHit(0));
        }
      }
    }
  }
}
