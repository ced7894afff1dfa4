# Delivery scoring and match flow of a VR cricket mini-game

This project models, in Dafny, the scoring and match-flow core of a Unity
cricket game: a bowled ball (`CricketBall`), the scoreboard that judges it
when it leaves the field (`ScoringSystem`), and the match controller that
starts and ends a game, bowls, and shows a result banner (`GameManager`).

Each of the three source classes is a Dafny class with corresponding
fields, updated in place by methods of the same names. The three banner
objects of the game manager become a set of active banners. Its `Start()`
becomes the constructor plus `Notify`, which delivers the events it
subscribes to. Each class method is tied by its postcondition to a function
on plain values. Those functions and the
lemmas about them carry the properties:

- `delivery.dfy` (module `Delivery`): the ball's four outcome flags, the
  collision handler with its immediate-wicket path, `MarkAsScored`, and the
  lifetime countdown. The float lifetime is a whole number of ticks.
- `scoreboard.dfy` (module `Scoreboard`): the six counters, the game-over
  latch, and the exit handler. Its verdict tests a wicket first, then "not
  hit by the bat" (0 runs), then the bounce (4 runs) and otherwise 6 runs.
- `lifecycle.dfy` (module `Lifecycle`): one ball under any interleaving of
  collisions, frames and leaving the field, with a scoring system present.
  The lemmas here show that the three resolving paths share the `scored`
  flag, so a ball is resolved at most once.
- `match.dfy` (module `Match`): the guarded state machine over `gameActive`
  and `playInProgress`. A coroutine waiting in `WaitForSeconds` becomes a
  pending continuation; any pending one may resume next, and
  `StopAllCoroutines` drops them all. The three banners are a set of which
  at most one is active.
- `events.dfy` (module `Events`): the scoring system's three UnityEvents as
  one ordered log, so that the order of invocations can be stated.
- `seqs.dfy` (module `Seqs`): counting occurrences in a log.

Engine lookups are parameters. `FindObjectOfType<ScoringSystem>()` becomes
the found scoring system's event log, or null. `FindObjectsOfType<CricketBall>()`
becomes the list of balls passed to `CompletePlay`. `Destroy` sets the ball's
`destroyed` flag.

What the lemmas show about the code as written:

- A wicket contact with a scoring system present marks the ball scored on
  the spot and only calls `RegisterWicketHit`. ScoringSystem.cs defines no
  such method, so the model logs that call as an opaque `WicketRegistered`
  event. The exit handler then ignores that ball, so its wicket branch never
  runs and `wicketsTaken` never rises (`WicketNeverReachesBoard`). A scored
  ball also never expires into `OnBoundaryHit(0)` (`ScoredBallIsSilent`).
- `AddRuns` invokes `OnScoreChanged` before the handler invokes
  `OnBoundaryHit`, so a listener sees the new total before the boundary
  (`Exit`, `Announce`).
- Collisions after scoring still raise flags, because the code does not
  check `scored` there. After `EndGame` the counters are frozen, but an
  expiring ball still fires `OnBoundaryHit(0)` (`FrozenBoardIgnoresBall`
  states only what is frozen).

Together with the source, the two lemmas `WicketNeverReachesBoard` and
`ScoredBallIsSilent` imply that nothing in these three files completes the
play after a wicket. The only callers of `CompletePlay` are the two
handlers, and they run only on `OnBoundaryHit` or `OnWicketHit`; such a
ball fires neither. No lemma states this chain across the ball and the game
manager.

## Model

| member | source | states |
|---|---|---|
| `Delivery.Touch` | Assets/Scripts/CricketBall.cs:11-38 | a contact only raises its own flag and never lowers one; the ball notifies the scoring system of a wicket exactly when the contact is a wicket, a scoring system exists and the ball was unscored, and `scored` rises exactly then |
| `Delivery.Elapse` | Assets/Scripts/CricketBall.cs:65-79 | the lifetime drops by the elapsed ticks; the ball expires exactly when the lifetime is used up and it was unscored; expiry raises `scored` and no other flag changes |
| `Delivery.CricketBall.constructor` | Assets/Scripts/CricketBall.cs:5-9 | a new ball has all four flags false and the configured lifetime |
| `Delivery.CricketBall.OnCollisionEnter` | Assets/Scripts/CricketBall.cs:11-38 | the flags become those of `Touch`; the lifetime is unchanged; `WicketRegistered` is logged exactly when `Touch` registers |
| `Delivery.CricketBall.MarkAsScored` | Assets/Scripts/CricketBall.cs:55-58 | only `scored` is raised, so a second call changes nothing |
| `Delivery.CricketBall.Update` | Assets/Scripts/CricketBall.cs:65-79 | lifetime and flags become those of `Elapse`; on expiry `OnBoundaryHit(0)` is logged once and the ball is destroyed; a scored ball logs nothing |
| `Scoreboard.Classify` | Assets/Scripts/ScoringSystem.cs:66-101 | every flag combination gets exactly one verdict: a wicket whatever the bat and bounce flags, otherwise 0 runs without a bat hit, 4 with a bounce, 6 without one |
| `Scoreboard.AddedRuns` | Assets/Scripts/ScoringSystem.cs:35-39 | the score rises by the runs, and no other counter or the latch changes |
| `Scoreboard.Award` | Assets/Scripts/ScoringSystem.cs:66-96 | a verdict raises the wickets by 1 (wicket), or the score, boundary runs, boundaries and fours or sixes by the verdict's amount; the boundary invariant is kept and no counter decreases |
| `Scoreboard.Announce` | Assets/Scripts/ScoringSystem.cs:66-101 | a wicket fires only `OnWicketHit`; a dot ball fires only `OnBoundaryHit(0)`; a four or six fires exactly two events, `OnScoreChanged` with the new score and then `OnBoundaryHit` with the runs |
| `Scoreboard.Exit` | Assets/Scripts/ScoringSystem.cs:56-103 | a latched board or an already scored ball changes nothing and fires nothing; otherwise the ball is marked scored, a wicket adds one wicket and keeps the score, a ball not hit by the bat only fires `OnBoundaryHit(0)`, and a bat hit adds 4 (bounced) or 6 with `OnScoreChanged` before `OnBoundaryHit` |
| `Scoreboard.AwardAllCounts` | Assets/Scripts/ScoringSystem.cs:76-94 | after any sequence of verdicts the fours, sixes and wickets rise by the number of such verdicts and the score by 4 per four and 6 per six; the boundary invariant holds and no counter decreases |
| `Scoreboard.ScoringSystem.constructor` | Assets/Scripts/ScoringSystem.cs:6-20 | every counter starts at 0, the latch open, the event log empty |
| `Scoreboard.ScoringSystem.ResetScore` | Assets/Scripts/ScoringSystem.cs:22-33 | all six counters are 0, the latch is open, and `OnScoreChanged(0)` is logged |
| `Scoreboard.ScoringSystem.AddRuns` | Assets/Scripts/ScoringSystem.cs:35-39 | the counters become `AddedRuns` of the old ones and `OnScoreChanged` is logged with the new score |
| `Scoreboard.ScoringSystem.EndGame` | Assets/Scripts/ScoringSystem.cs:51-54 | only the game-over latch changes, and it is set |
| `Scoreboard.ScoringSystem.OnTriggerExit` | Assets/Scripts/ScoringSystem.cs:56-103 | a collider without a ball changes nothing; otherwise the counters, the ball's flags and the logged events are those of `Exit`, and the boundary invariant is kept |
| `Lifecycle.Feed` | Assets/Scripts/CricketBall.cs:11-79 | one collision, frame or exit never lowers a flag or a counter, keeps the boundary invariant, and resolves the ball exactly when it turns its `scored` flag from false to true |
| `Lifecycle.AtMostOneVerdict` | Assets/Scripts/ScoringSystem.cs:61-63 | whatever the order of collisions, frames and exits, a ball is resolved at most once, never if it starts scored, and once exactly when it ends scored |
| `Lifecycle.FlagsNeverLowered` | Assets/Scripts/CricketBall.cs:11-38 | no sequence of events lowers any of the four flags |
| `Lifecycle.BoardStaysConsistent` | Assets/Scripts/ScoringSystem.cs:76-94 | the board keeps `totalBoundaries == totalFours + totalSixes` and `boundaryRuns == 4*totalFours + 6*totalSixes`, and no counter decreases |
| `Lifecycle.FrozenBoardIgnoresBall` | Assets/Scripts/ScoringSystem.cs:51-58 | once the latch is set, no sequence of events changes the board or fires `OnWicketHit` |
| `Lifecycle.WicketNeverReachesBoard` | Assets/Scripts/CricketBall.cs:20-31 | with a scoring system present, a ball that hit the wicket is already scored, so `wicketsTaken` never rises and `OnWicketHit` never fires |
| `Lifecycle.ScoredBallIsSilent` | Assets/Scripts/CricketBall.cs:26-31 | a scored ball fires no event and changes no counter, whatever happens to it next |
| `Lifecycle.ExpiredBallIsDot` | Assets/Scripts/CricketBall.cs:65-79 | a new ball whose lifetime runs out untouched fires only `OnBoundaryHit(0)` and leaves the board unchanged |
| `Match.HideAll` | Assets/Scripts/GameManager.cs:170-175 | every assigned banner is switched off and nothing else changes |
| `Match.Show` | Assets/Scripts/GameManager.cs:161-168 | afterwards exactly the requested banner is active, or none if it is unassigned |
| `Match.ScheduleBowl` | Assets/Scripts/GameManager.cs:70-79 | a bowl wait is queued exactly when the game is active; nothing else changes |
| `Match.Started` | Assets/Scripts/GameManager.cs:46-56 | a no-op while active; otherwise the game becomes active, `OnGameStarted` fires, and one bowl wait is queued |
| `Match.Ended` | Assets/Scripts/GameManager.cs:58-68 | a no-op while inactive; otherwise the game becomes inactive, every pending wait is cancelled and all banners are hidden; `playInProgress` is left as it was |
| `Match.Thrown` | Assets/Scripts/GameManager.cs:92-109 | `OnBallThrown` fires and the play starts exactly when the game is active, no play is in progress and the animator is assigned; nothing else changes |
| `Match.Completed` | Assets/Scripts/GameManager.cs:134-148 | a no-op without a play in progress; otherwise the play ends, `OnPlayCompleted` fires and one result-display wait is queued |
| `Match.BannerFor` | Assets/Scripts/GameManager.cs:111-126 | 4 selects the four banner, 6 the six banner, any other value none; never the out banner |
| `Match.BoundaryHandled` | Assets/Scripts/GameManager.cs:111-126 | a 4 or 6 shows only its banner, another value leaves the banners alone; then the play is completed: it ends, `OnPlayCompleted` fires and one result-display wait is queued exactly when a play was in progress, and `gameActive` is unchanged |
| `Match.WicketHandled` | Assets/Scripts/GameManager.cs:128-132 | only the out banner is shown, then the play is completed: it ends, `OnPlayCompleted` fires and one result-display wait is queued exactly when a play was in progress, and `gameActive` is unchanged |
| `Match.Resumed` | Assets/Scripts/GameManager.cs:79-90 | the woken wait leaves the queue; a bowl wait throws (firing `OnBallThrown` and starting the play) exactly when the animator is assigned, the game is active and no play is in progress; a result-display wait hides the banners and queues a bowl wait if the game is active |
| `Match.Step` | Assets/Scripts/GameManager.cs:30-44 | every request keeps at most one assigned banner active and keeps throws and completions paired; while inactive, nothing but a start activates the game or throws |
| `Match.RunKeepsOneBanner` | Assets/Scripts/GameManager.cs:161-175 | under any sequence of requests at most one banner is active, and only an assigned one |
| `Match.RunBalancesThrows` | Assets/Scripts/GameManager.cs:134-148 | over any sequence of requests, throws announced equal plays completed plus the play still in progress: each throw completes at most once |
| `Match.NoThrowUntilRestart` | Assets/Scripts/GameManager.cs:58-68 | after the game ends, no sequence of requests without a new start throws a ball or reactivates the game |
| `Match.GameManager.constructor` | Assets/Scripts/GameManager.cs:30-44 | the loaded controller is idle with no banner shown, no pending wait and no events |
| `Match.GameManager.StartGame` | Assets/Scripts/GameManager.cs:46-56 | the state becomes `Started`; the scoreboard is reset with `OnScoreChanged(0)` only when the game was inactive |
| `Match.GameManager.EndGame` | Assets/Scripts/GameManager.cs:58-68 | the state becomes `Ended`; the scoreboard's latch is set only when the game was active |
| `Match.GameManager.StartNextBowl` | Assets/Scripts/GameManager.cs:70-79 | the state becomes `ScheduleBowl` of the old one |
| `Match.GameManager.ThrowBall` | Assets/Scripts/GameManager.cs:92-109 | the state and events become those of `Thrown`; the controller invariant is kept |
| `Match.GameManager.CompletePlay` | Assets/Scripts/GameManager.cs:134-148 | the state and events become those of `Completed`; with a play in progress every listed ball is destroyed, and no ball's flags change |
| `Match.GameManager.PrepareForNextBowl` | Assets/Scripts/GameManager.cs:150-159 | one result-display wait is queued |
| `Match.GameManager.HandleBoundaryHit` | Assets/Scripts/GameManager.cs:111-126 | the state and events become those of `BoundaryHandled` |
| `Match.GameManager.HandleWicketHit` | Assets/Scripts/GameManager.cs:128-132 | the state and events become those of `WicketHandled` |
| `Match.GameManager.Notify` | Assets/Scripts/GameManager.cs:30-44 | with a scoring system, `OnBoundaryHit` and `OnWicketHit` reach the two handlers, which destroy the listed balls when a play is in progress; other events and a missing scoring system change nothing |
| `Match.GameManager.Resume` | Assets/Scripts/GameManager.cs:79-90 | the state and events become those of `Resumed` |
| `Match.GameManager.ShowUI` | Assets/Scripts/GameManager.cs:161-168 | the banners become those of `Show`, and at most one is active |
| `Match.GameManager.HideAllUI` | Assets/Scripts/GameManager.cs:170-175 | the banners become those of `HideAll` |

The accessors `HasBouncedOnGround`, `HasHitWicket`, `HasBeenHitByBat`,
`HasBeenScored`, `GetScore` and `GetWickets` are functions that read one
field each, so they change no state.

## Left out

- Assets/Scripts/AnimationsController.cs, CricketBallThrower.cs, BatController.cs and PlayOnCollide.cs are not part of this model: they hold animator triggers, audio, vector maths, random aim, physics impulses and keyboard input.
- The animator trigger `isRunning` set by `ThrowBall` is not modelled; only whether an animator is assigned matters.
- `Debug.Log` output is not modelled.
- Real-time waits are not modelled: `initialDelay` and `playResultDisplayTime` only order the waits, and the model lets any pending wait end first.
- `ballStoppedThreshold`, `maxPlayTime` and `currentBall` are declared but never used in GameManager.cs, so they are not modelled.
- `gameManager` is declared but never used in ScoringSystem.cs, so it is not modelled.
- Float time is counted in whole ticks; `Time.deltaTime` becomes a natural number of ticks per frame.
- Collider tags: each collision has exactly one tag (ground, wickets, bat or another).
- The body of `RegisterWicketHit` is not part of this model, because ScoringSystem.cs does not define it; the call is logged as an event with no effect on the counters.
- The scene's other listeners of the scoring and game events are not modelled. The model has only the game manager's subscription, through `Notify`.
- In Unity a handler runs inside the `Invoke` call. The model runs it through `Notify` after the exit handler returns. The results are the same, because the invoke is the last thing each branch does to the scoreboard.
- Overs, a target score, a wicket limit, a win or loss result and configuration errors appear in no source file, so they are not modelled.
- The balls that `FindObjectsOfType` finds are a parameter. Which balls exist in the scene, and whether a destroyed ball still gets callbacks, is engine behaviour and is not modelled.
- Integers are unbounded; the C# `int` counters cannot realistically overflow within a game, and wrap-around is not modelled.
