/**
  The match controller (Assets/Scripts/GameManager.cs): a guarded state
  machine over `gameActive` and `playInProgress`, coroutines that wait and
  then bowl, and three result banners of which at most one is shown.

  A coroutine suspended in `WaitForSeconds` is a pending continuation; the
  engine decides which wait ends first, so any pending continuation may be
  resumed next. `StopAllCoroutines` discards all of them.
*/
module Match {
  import opened Seqs
  import opened Events
  import opened Delivery
  import opened Scoreboard

  datatype Banner = FourUI | SixUI | OutUI

  datatype GameEvent = GameStarted | BallThrown | PlayCompleted

  /** What a suspended coroutine does when its wait ends. */
  datatype Continuation =
    | ThrowAfterDelay        // StartNextBowl, after initialDelay
    | NextBowlAfterDisplay   // PrepareForNextBowl, after playResultDisplayTime

  /** The controller's own state. */
  datatype Control = Control(gameActive: bool, playInProgress: bool, pending: seq<Continuation>, shown: set<Banner>)

  /** Which inspector references are attached. */
  datatype Rig = Rig(hasAnimator: bool, hasScoring: bool, attached: set<Banner>)

  /** A new controller state and the events fired on the way. */
  datatype Effect = Effect(ctl: Control, events: seq<GameEvent>)

  /** What the scene can ask of the controller. */
  datatype Op =
    | Start                   // StartGame()
    | End                     // EndGame()
    | Throw                   // ThrowBall()
    | Notify(e: ScoreEvent)   // a scoring event reaching the listeners added in Start()
    | Resume(k: nat)          // the wait of the k-th pending coroutine ends

  predicate AtMostOne(s: set<Banner>)
  {
    forall a, b :: a in s && b in s ==> a == b
  }

  /** Only assigned banners can be active, and at most one of them is. */
  predicate BannersOk(c: Control, rig: Rig)
  {
    c.shown <= rig.attached && AtMostOne(c.shown)
  }

  /** Every throw announced is either completed or still in progress. */
  predicate ThrowsBalanced(events: seq<GameEvent>, playInProgress: bool)
  {
    Count(events, BallThrown) == Count(events, PlayCompleted) + (if playInProgress then 1 else 0)
  }

  /** HideAllUI: every assigned banner is switched off. */
  function HideAll(c: Control, rig: Rig): (r: Control)
    ensures BannersOk(c, rig) ==> r.shown == {}
    ensures r.shown <= c.shown
    ensures r.(shown := c.shown) == c
  {
    c.(shown := c.shown - rig.attached)
  }

  /** ShowUI: everything hidden first, then `b` alone switched on when it is assigned. */
  function Show(c: Control, rig: Rig, b: Banner): (r: Control)
    ensures BannersOk(c, rig) ==> BannersOk(r, rig) && r.shown == (if b in rig.attached then {b} else {})
    ensures r.(shown := c.shown) == c
  {
    var h := HideAll(c, rig);
    if b in rig.attached then h.(shown := h.shown + {b}) else h
  }

  /** StartCoroutine(StartNextBowl()): the coroutine returns at once unless the game is active. */
  function ScheduleBowl(c: Control): (r: Control)
    ensures r.pending == c.pending + (if c.gameActive then [ThrowAfterDelay] else [])
    ensures r.(pending := c.pending) == c
  {
    if !c.gameActive then c else c.(pending := c.pending + [ThrowAfterDelay])
  }

  function Started(c: Control): (r: Effect)
    ensures c.gameActive ==> r == Effect(c, [])
    ensures !c.gameActive ==>
      && r.ctl == c.(gameActive := true, pending := c.pending + [ThrowAfterDelay])
      && r.events == [GameStarted]
  {
    if c.gameActive then Effect(c, [])
    else Effect(ScheduleBowl(c.(gameActive := true)), [GameStarted])
  }

  function Ended(c: Control, rig: Rig): (r: Effect)
    ensures !c.gameActive ==> r == Effect(c, [])
    ensures c.gameActive ==> !r.ctl.gameActive && r.ctl.pending == [] && r.events == []
    ensures c.gameActive && BannersOk(c, rig) ==> r.ctl.shown == {}
    ensures r.ctl.playInProgress == c.playInProgress && r.ctl.shown <= c.shown
  {
    if !c.gameActive then Effect(c, [])
    else Effect(HideAll(c.(gameActive := false), rig).(pending := []), [])
  }

  function Thrown(c: Control, rig: Rig): (r: Effect)
    ensures r.ctl.(playInProgress := c.playInProgress) == c
    ensures r.events == (if c.gameActive && !c.playInProgress && rig.hasAnimator then [BallThrown] else [])
    ensures r.ctl.playInProgress <==> c.playInProgress || r.events != []
  {
    if !c.gameActive || c.playInProgress then Effect(c, [])
    else if rig.hasAnimator then Effect(c.(playInProgress := true), [BallThrown])
    else Effect(c, [])
  }

  function Completed(c: Control): (r: Effect)
    ensures !c.playInProgress ==> r == Effect(c, [])
    ensures c.playInProgress ==>
      && r.ctl == c.(playInProgress := false, pending := c.pending + [NextBowlAfterDisplay])
      && r.events == [PlayCompleted]
  {
    if !c.playInProgress then Effect(c, [])
    else Effect(c.(playInProgress := false, pending := c.pending + [NextBowlAfterDisplay]), [PlayCompleted])
  }

  /** The banner, if any, for a boundary value. */
  function BannerFor(runs: int): (r: set<Banner>)
    ensures FourUI in r <==> runs == 4
    ensures SixUI in r <==> runs == 6
    ensures OutUI !in r
    ensures AtMostOne(r)
  {
    if runs == 4 then {FourUI} else if runs == 6 then {SixUI} else {}
  }

  function BoundaryHandled(c: Control, rig: Rig, runs: int): (r: Effect)
    ensures BannersOk(c, rig) ==> BannersOk(r.ctl, rig) && r.ctl.shown == (if runs == 4 || runs == 6 then BannerFor(runs) * rig.attached else c.shown)
    ensures r.events == (if c.playInProgress then [PlayCompleted] else []) && !r.ctl.playInProgress
    ensures r.ctl.gameActive == c.gameActive
    ensures r.ctl.pending == c.pending + (if c.playInProgress then [NextBowlAfterDisplay] else [])
  {
    Completed(if runs == 4 then Show(c, rig, FourUI) else if runs == 6 then Show(c, rig, SixUI) else c)
  }

  function WicketHandled(c: Control, rig: Rig): (r: Effect)
    ensures BannersOk(c, rig) ==> BannersOk(r.ctl, rig) && r.ctl.shown == {OutUI} * rig.attached
    ensures r.events == (if c.playInProgress then [PlayCompleted] else []) && !r.ctl.playInProgress
    ensures r.ctl.gameActive == c.gameActive
    ensures r.ctl.pending == c.pending + (if c.playInProgress then [NextBowlAfterDisplay] else [])
  {
    Completed(Show(c, rig, OutUI))
  }

  /** The k-th pending coroutine wakes up: it leaves the pending list and runs its step. */
  function Resumed(c: Control, rig: Rig, k: nat): (r: Effect)
    requires k < |c.pending|
    ensures r.ctl.gameActive == c.gameActive
    ensures c.pending[k] == ThrowAfterDelay ==>
      r.ctl.pending == c.pending[..k] + c.pending[k + 1..] && r.ctl.shown == c.shown
      && r.events == (if rig.hasAnimator && c.gameActive && !c.playInProgress then [BallThrown] else [])
      && r.ctl.playInProgress == (c.playInProgress || r.events != [])
    ensures c.pending[k] == NextBowlAfterDisplay ==>
      r.ctl.pending == c.pending[..k] + c.pending[k + 1..] + (if c.gameActive then [ThrowAfterDelay] else [])
      && r.events == [] && r.ctl.playInProgress == c.playInProgress
      && (BannersOk(c, rig) ==> r.ctl.shown == {})
  {
    var rest := c.(pending := c.pending[..k] + c.pending[k + 1..]);
    match c.pending[k]
    case ThrowAfterDelay => if rig.hasAnimator then Thrown(rest, rig) else Effect(rest, [])
    case NextBowlAfterDisplay => Effect(ScheduleBowl(HideAll(rest, rig)), [])
  }

  /** One request from the scene. */
  function Step(c: Control, rig: Rig, op: Op): (r: Effect)
    ensures BannersOk(c, rig) ==> BannersOk(r.ctl, rig)
    ensures Count(r.events, BallThrown) + (if c.playInProgress then 1 else 0)
         == Count(r.events, PlayCompleted) + (if r.ctl.playInProgress then 1 else 0)
    ensures op != Start && !c.gameActive ==> !r.ctl.gameActive && BallThrown !in r.events
  {
    match op
    case Start => Started(c)
    case End => Ended(c, rig)
    case Throw => Thrown(c, rig)
    case Notify(e) =>
      if !rig.hasScoring then Effect(c, [])
      else if e.BoundaryHit? then BoundaryHandled(c, rig, e.runs)
      else if e == WicketHit then WicketHandled(c, rig)
      else Effect(c, [])
    case Resume(k) => if k < |c.pending| then Resumed(c, rig, k) else Effect(c, [])
  }

  function Run(c: Control, rig: Rig, ops: seq<Op>): Effect
    decreases |ops|
  {
    if ops == [] then Effect(c, [])
    else
      var h := Step(c, rig, ops[0]);
      var t := Run(h.ctl, rig, ops[1..]);
      Effect(t.ctl, h.events + t.events)
  }

  /** Whatever the scene asks, at most one banner is ever active. */
  lemma {:induction false} RunKeepsOneBanner(c: Control, rig: Rig, ops: seq<Op>)
    requires BannersOk(c, rig)
    decreases |ops|
    ensures BannersOk(Run(c, rig, ops).ctl, rig)
  {
    if ops != [] {
      RunKeepsOneBanner(Step(c, rig, ops[0]).ctl, rig, ops[1..]);
    }
  }

  /**
    Throws and completions pair up: every throw announced is completed at most
    once, and a completion only ever follows a throw.
  */
  lemma {:induction false} RunBalancesThrows(c: Control, rig: Rig, ops: seq<Op>)
    decreases |ops|
    ensures var r := Run(c, rig, ops);
      Count(r.events, BallThrown) + (if c.playInProgress then 1 else 0)
      == Count(r.events, PlayCompleted) + (if r.ctl.playInProgress then 1 else 0)
  {
    if ops != [] {
      var h := Step(c, rig, ops[0]);
      var t := Run(h.ctl, rig, ops[1..]);
      RunBalancesThrows(h.ctl, rig, ops[1..]);
      CountAppend(h.events, t.events, BallThrown);
      CountAppend(h.events, t.events, PlayCompleted);
    }
  }

  /** After the game ends, nothing is bowled until it is started again. */
  lemma {:induction false} NoThrowUntilRestart(c: Control, rig: Rig, ops: seq<Op>)
    requires !c.gameActive && Start !in ops
    decreases |ops|
    ensures var r := Run(c, rig, ops);
      !r.ctl.gameActive && BallThrown !in r.events
  {
    if ops != [] {
      assert ops[0] in ops;
      assert forall o :: o in ops[1..] ==> o in ops;
      var h := Step(c, rig, ops[0]);
      NoThrowUntilRestart(h.ctl, rig, ops[1..]);
    }
  }

  class GameManager {
    /** bowlerAnimator != null */
    const hasAnimator: bool
    const scoringSystem: ScoringSystem?
    /** The result banners whose UI object is assigned in the inspector. */
    const attached: set<Banner>

    var gameActive: bool
    var playInProgress: bool
    var pending: seq<Continuation>
    var activeBanners: set<Banner>
    /** OnGameStarted, OnBallThrown and OnPlayCompleted, in invocation order. */
    var events: seq<GameEvent>

    function State(): Control
      reads this
    {
      Control(gameActive, playInProgress, pending, activeBanners)
    }

    function Setup(): Rig
    {
      Rig(hasAnimator, scoringSystem != null, attached)
    }

    ghost function ScoringFrame(): set<object>
    {
      if scoringSystem == null then {} else {scoringSystem, scoringSystem.log}
    }

    ghost predicate Valid()
      reads this, scoringSystem
    {
      && BannersOk(State(), Setup())
      && ThrowsBalanced(events, playInProgress)
      && (scoringSystem != null ==> scoringSystem.Valid())
    }

    /**
      The object as the scene loads it, after Start(): banners hidden, the
      game idle. Start() also subscribes the result handlers to the scoring
      system's events when there is one; `Notify` models that subscription.
    */
    constructor (animator: bool, scoring: ScoringSystem?, ui: set<Banner>)
      requires scoring != null ==> scoring.Valid()
      ensures Valid() && State() == Control(false, false, [], {}) && events == []
      ensures hasAnimator == animator && scoringSystem == scoring && attached == ui
    {
      hasAnimator, scoringSystem, attached := animator, scoring, ui;
      gameActive, playInProgress, pending, events := false, false, [], [];
      activeBanners := {};
    }

    method StartGame()
      requires Valid()
      modifies this, ScoringFrame()
      ensures Valid()
      ensures State() == Started(old(State())).ctl
      ensures events == old(events) + Started(old(State())).events
      ensures scoringSystem != null && !old(gameActive) ==>
        Cleared(scoringSystem.Counters()) &&
        scoringSystem.log.entries == old(scoringSystem.log.entries) + [ScoreChanged(0)]
      ensures scoringSystem != null && old(gameActive) ==>
        scoringSystem.Counters() == old(scoringSystem.Counters()) &&
        scoringSystem.log.entries == old(scoringSystem.log.entries)
    {
      if gameActive {
        return;
      }
      gameActive := true;
      if scoringSystem != null {
        scoringSystem.ResetScore();
      }
      CountAppend(events, [GameStarted], BallThrown);
      CountAppend(events, [GameStarted], PlayCompleted);
      events := events + [GameStarted];
      StartNextBowl();
    }

    method EndGame()
      requires Valid()
      modifies this, ScoringFrame()
      ensures Valid()
      ensures State() == Ended(old(State()), Setup()).ctl && events == old(events)
      ensures scoringSystem != null ==>
        scoringSystem.Counters() ==
          (if old(gameActive) then old(scoringSystem.Counters()).(isGameOver := true) else old(scoringSystem.Counters()))
        && scoringSystem.log.entries == old(scoringSystem.log.entries)
    {
      if !gameActive {
        return;
      }
      gameActive := false;
      if scoringSystem != null {
        scoringSystem.EndGame();
      }
      HideAllUI();
      pending := [];
    }

    /** The part of StartNextBowl that runs when it is started. */
    method StartNextBowl()
      modifies this`pending
      ensures State() == ScheduleBowl(old(State()))
    {
      if !gameActive {
        return;
      }
      pending := pending + [ThrowAfterDelay];
    }

    method ThrowBall()
      requires Valid()
      modifies this`playInProgress, this`events
      ensures Valid()
      ensures State() == Thrown(old(State()), Setup()).ctl
      ensures events == old(events) + Thrown(old(State()), Setup()).events
    {
      if !gameActive || playInProgress {
        return;
      }
      playInProgress := true;
      if hasAnimator {
        CountAppend(events, [BallThrown], BallThrown);
        CountAppend(events, [BallThrown], PlayCompleted);
        events := events + [BallThrown];
      } else {
        playInProgress := false;
      }
    }

    /** `scene` is the list of balls FindObjectsOfType finds; each is destroyed. */
    method CompletePlay(scene: seq<CricketBall>)
      requires Valid()
      modifies this`playInProgress, this`events, this`pending, scene
      ensures Valid()
      ensures State() == Completed(old(State())).ctl
      ensures events == old(events) + Completed(old(State())).events
      ensures forall b :: b in scene ==> b.destroyed == (old(b.destroyed) || old(playInProgress))
      ensures forall b :: b in scene ==> b.Snapshot() == old(b.Snapshot())
    {
      if !playInProgress {
        return;
      }
      for i := 0 to |scene|
        modifies scene
        invariant forall j :: 0 <= j < i ==> scene[j].destroyed
        invariant forall b :: b in scene ==> b.Snapshot() == old(b.Snapshot())
        invariant forall b :: b in scene && b !in scene[..i] ==> b.destroyed == old(b.destroyed)
      {
        scene[i].destroyed := true;
      }
      playInProgress := false;
      CountAppend(events, [PlayCompleted], BallThrown);
      CountAppend(events, [PlayCompleted], PlayCompleted);
      events := events + [PlayCompleted];
      PrepareForNextBowl();
    }

    /** The part of PrepareForNextBowl that runs when it is started: it waits. */
    method PrepareForNextBowl()
      modifies this`pending
      ensures pending == old(pending) + [NextBowlAfterDisplay]
    {
      pending := pending + [NextBowlAfterDisplay];
    }

    method HandleBoundaryHit(runs: int, scene: seq<CricketBall>)
      requires Valid()
      modifies this`playInProgress, this`events, this`pending, this`activeBanners, scene
      ensures Valid()
      ensures State() == BoundaryHandled(old(State()), Setup(), runs).ctl
      ensures events == old(events) + BoundaryHandled(old(State()), Setup(), runs).events
      ensures forall b :: b in scene ==> b.destroyed == (old(b.destroyed) || old(playInProgress))
      ensures forall b :: b in scene ==> b.Snapshot() == old(b.Snapshot())
    {
      if runs == 4 {
        ShowUI(FourUI);
      } else if runs == 6 {
        ShowUI(SixUI);
      }
      CompletePlay(scene);
    }

    method HandleWicketHit(scene: seq<CricketBall>)
      requires Valid()
      modifies this`playInProgress, this`events, this`pending, this`activeBanners, scene
      ensures Valid()
      ensures State() == WicketHandled(old(State()), Setup()).ctl
      ensures events == old(events) + WicketHandled(old(State()), Setup()).events
      ensures forall b :: b in scene ==> b.destroyed == (old(b.destroyed) || old(playInProgress))
      ensures forall b :: b in scene ==> b.Snapshot() == old(b.Snapshot())
    {
      ShowUI(OutUI);
      CompletePlay(scene);
    }

    /** A scoring event reaching the listeners Start() added, if it added any. */
    method Notify(e: ScoreEvent, scene: seq<CricketBall>)
      requires Valid()
      modifies this`playInProgress, this`events, this`pending, this`activeBanners, scene
      ensures Valid()
      ensures State() == Step(old(State()), Setup(), Op.Notify(e)).ctl
      ensures events == old(events) + Step(old(State()), Setup(), Op.Notify(e)).events
      ensures forall b :: b in scene ==> b.Snapshot() == old(b.Snapshot())
      ensures forall b :: b in scene ==>
        b.destroyed == (old(b.destroyed) || (old(playInProgress) && Setup().hasScoring && (e.BoundaryHit? || e == WicketHit)))
    {
      if scoringSystem == null {
        return;
      }
      if e.BoundaryHit? {
        HandleBoundaryHit(e.runs, scene);
      } else if e == WicketHit {
        HandleWicketHit(scene);
      }
    }

    /** The wait of the k-th pending coroutine ends and the coroutine continues. */
    method Resume(k: nat)
      requires Valid() && k < |pending|
      modifies this`playInProgress, this`events, this`pending, this`activeBanners
      ensures Valid()
      ensures State() == Resumed(old(State()), Setup(), k).ctl
      ensures events == old(events) + Resumed(old(State()), Setup(), k).events
    {
      var next := pending[k];
      pending := pending[..k] + pending[k + 1..];
      match next
      case ThrowAfterDelay =>
        if hasAnimator {
          ThrowBall();
        }
      case NextBowlAfterDisplay =>
        HideAllUI();
        StartNextBowl();
    }

    method ShowUI(b: Banner)
      requires Valid()
      modifies this`activeBanners
      ensures Valid()
      ensures State() == Show(old(State()), Setup(), b)
    {
      HideAllUI();
      if b in attached {
        activeBanners := activeBanners + {b};
      }
    }

    method HideAllUI()
      requires Valid()
      modifies this`activeBanners
      ensures Valid()
      ensures State() == HideAll(old(State()), Setup())
    {
      if FourUI in attached {
        activeBanners := activeBanners - {FourUI};
      }
      if SixUI in attached {
        activeBanners := activeBanners - {SixUI};
      }
      if OutUI in attached {
        activeBanners := activeBanners - {OutUI};
      }
    }
  }
}
