/**
  One bowled ball (Assets/Scripts/CricketBall.cs): four outcome flags that are
  only ever raised, the immediate-wicket path of a collision, and the
  lifetime countdown that turns an unresolved ball into a "no runs" outcome.
  The float lifetime is counted in whole ticks.
*/
module Delivery {
  import opened Events

  /** The tag of the object the ball collided with. */
  datatype Contact = Ground | Wickets | Bat | Untagged

  /** The four flags of a ball. */
  datatype Outcome = Outcome(bounced: bool, hitWicket: bool, hitByBat: bool, scored: bool)

  const Unscored := Outcome(false, false, false, false)

  /** Every flag raised in `f` is raised in `g`. */
  predicate Below(f: Outcome, g: Outcome)
  {
    && (f.bounced ==> g.bounced)
    && (f.hitWicket ==> g.hitWicket)
    && (f.hitByBat ==> g.hitByBat)
    && (f.scored ==> g.scored)
  }

  /** The flags of a ball together with its remaining lifetime, in ticks. */
  datatype Ball = Ball(flags: Outcome, life: int)

  datatype Touched = Touched(flags: Outcome, registered: bool)

  /**
    The flags after one collision, and whether the ball notified the scoring
    system of a wicket. `found` says whether a scoring system exists.
  */
  function Touch(f: Outcome, c: Contact, found: bool): (r: Touched)
    ensures Below(f, r.flags)
    ensures r.flags.bounced <==> f.bounced || c == Ground
    ensures r.flags.hitWicket <==> f.hitWicket || c == Wickets
    ensures r.flags.hitByBat <==> f.hitByBat || c == Bat
    ensures r.registered <==> c == Wickets && found && !f.scored
    ensures r.flags.scored <==> f.scored || r.registered
  {
    match c
    case Ground => Touched(f.(bounced := true), false)
    case Wickets =>
      if found && !f.scored then Touched(f.(hitWicket := true, scored := true), true)
      else Touched(f.(hitWicket := true), false)
    case Bat => Touched(f.(hitByBat := true), false)
    case Untagged => Touched(f, false)
  }

  datatype Elapsed = Elapsed(ball: Ball, expired: bool)

  /** One frame of `Update`: `dt` ticks pass; an unscored ball whose lifetime is used up expires. */
  function Elapse(b: Ball, dt: nat): (r: Elapsed)
    ensures r.ball.life == b.life - dt
    ensures r.expired <==> r.ball.life <= 0 && !b.flags.scored
    ensures Below(b.flags, r.ball.flags)
    ensures r.ball.flags.scored <==> b.flags.scored || r.expired
    ensures r.ball.flags.(scored := b.flags.scored) == b.flags
  {
    var life := b.life - dt;
    if life <= 0 && !b.flags.scored then Elapsed(Ball(b.flags.(scored := true), life), true)
    else Elapsed(Ball(b.flags, life), false)
  }

  class CricketBall {
    var hasBounced: bool
    var hasHitWicket: bool
    var hasBeenScored: bool
    var hasBeenHitByBat: bool
    var lifeTime: int
    /** Destroy(gameObject) has been requested for this ball. */
    var destroyed: bool

    function Flags(): Outcome
      reads this
    {
      Outcome(hasBounced, hasHitWicket, hasBeenHitByBat, hasBeenScored)
    }

    function Snapshot(): Ball
      reads this
    {
      Ball(Flags(), lifeTime)
    }

    /** A new ball: nothing has happened to it yet. `lifetime` is the inspector value of `_lifeTime` (10 unless changed). */
    constructor (lifetime: int)
      ensures Flags() == Unscored && lifeTime == lifetime && !destroyed
    {
      hasBounced, hasHitWicket, hasBeenScored, hasBeenHitByBat := false, false, false, false;
      lifeTime := lifetime;
      destroyed := false;
    }

    /**
      A collision with an object tagged `c`. `scoring` is the event log of the
      scoring system the ball looks up, or null when there is none.
    */
    method OnCollisionEnter(c: Contact, scoring: EventLog?)
      modifies this, scoring
      ensures Flags() == Touch(old(Flags()), c, scoring != null).flags
      ensures lifeTime == old(lifeTime) && destroyed == old(destroyed)
      ensures scoring != null ==>
        scoring.entries == old(scoring.entries) +
          (if Touch(old(Flags()), c, true).registered then [WicketRegistered] else [])
    {
      if c == Ground {
        hasBounced := true;
      }
      if c == Wickets {
        hasHitWicket := true;
        if scoring != null && !hasBeenScored {
          hasBeenScored := true;
          scoring.Invoke(WicketRegistered);
        }
      }
      if c == Bat {
        hasBeenHitByBat := true;
      }
    }

    function HasBouncedOnGround(): bool
      reads this
    {
      hasBounced
    }

    function HasHitWicket(): bool
      reads this
    {
      hasHitWicket
    }

    function HasBeenHitByBat(): bool
      reads this
    {
      hasBeenHitByBat
    }

    function HasBeenScored(): bool
      reads this
    {
      hasBeenScored
    }

    /** Raises `scored` and nothing else; calling it again changes nothing. */
    method MarkAsScored()
      modifies this
      ensures Flags() == old(Flags()).(scored := true)
      ensures lifeTime == old(lifeTime) && destroyed == old(destroyed)
    {
      hasBeenScored := true;
    }

    /** One frame: `elapsed` ticks pass. */
    method Update(elapsed: nat, scoring: EventLog?)
      modifies this, scoring
      ensures Snapshot() == Elapse(old(Snapshot()), elapsed).ball
      ensures destroyed == (old(destroyed) || Elapse(old(Snapshot()), elapsed).expired)
      ensures scoring != null ==>
        scoring.entries == old(scoring.entries) +
          (if Elapse(old(Snapshot()), elapsed).expired then [BoundaryHit(0)] else [])
    {
      lifeTime := lifeTime - elapsed;
      if lifeTime <= 0 && !hasBeenScored {
        MarkAsScored();
        if scoring != null {
          scoring.Invoke(BoundaryHit(0));
        }
        destroyed := true;
      }
    }
  }
}
