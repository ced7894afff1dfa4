/**
  The outbound events of the scoring system. `ScoringSystem` exposes three
  UnityEvents (`OnScoreChanged`, `OnBoundaryHit`, `OnWicketHit`); other
  objects (the ball, the game manager's subscription) invoke or observe them.
  They are modelled as one shared object holding the ordered log of every
  invocation, so that the order between the three channels can be stated.
*/
module Events {

  datatype ScoreEvent =
    | ScoreChanged(score: int)   // OnScoreChanged.Invoke(score)
    | BoundaryHit(runs: int)     // OnBoundaryHit.Invoke(runs)
    | WicketHit                  // OnWicketHit.Invoke()
    | WicketRegistered           // the ball's RegisterWicketHit(this) call, whose target is not part of this model

  class EventLog {
    var entries: seq<ScoreEvent>

    constructor ()
      ensures entries == []
    {
      entries := [];
    }

    method Invoke(e: ScoreEvent)
      modifies this
      ensures entries == old(entries) + [e]
    {
      entries := entries + [e];
    }
  }
}
