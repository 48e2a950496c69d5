# promptworld, verified

promptworld is a deterministic, event-sourced village simulation: one loop owns the state, every change is
an event that a reducer applies and a store appends, clients follow the log over a streaming protocol, and
language-model minds act on the world through doors that validate what they ask for. This project models
its hardest parts in Dafny and proves what they promise over every input, every run and every interleaving.

`dafny verify dfyconfig.toml` checks everything. One module stands for one component:

| file | component |
|---|---|
| `GridPath.dfy` | breadth-first search, `nearest`, `nextStep`: specified by a total order on paths |
| `EventStream.dfy` | the subscription protocol: live buffer, store replay, pusher, cancellation |
| `Estimator.dfy` | the seconds-per-point estimate: running average, ring of samples, median adoption |
| `Clock.dfy`, `Governor.dfy`, `SpeedControl.dfy` | the speed ladder, cognition debt and hysteresis, the clock commands, and the loop the two form |
| `Hail.dfy`, `Landing.dfy` | the hail protocol as a wait graph, the landing ladder, and both over runs |
| `Orders.dfy`, `TriggerPipeline.dfy` | standing orders and charges in the reducer, and the concurrent pipeline that fires orders |
| `Piles.dfy`, `Goods.dfy`, `Transfers.dfy`, `Executor.dfy`, `Migration.dfy` | goods: food batches in place, inventories, every transfer, what the executor records, the bulk-cap migration |
| `TimeSnap.dfy` | the time snap and everyone who measures a duration |
| `Governance.dfy`, `Meetings.dfy` | votes, relations and law; the meeting lifecycle and emergent conventions |
| `WorkingMemory.dfy` | the working-memory window |

Code that changes things step by step is a class or a method with loops, proved against a function; the
properties are then proved of that function. Protocols with several parties (the stream, the hail waits,
the trigger pipeline, the clock under player and governor) are state machines whose steps are the atomic
moves of each party, and their theorems quantify over all sequences of steps. Floating point is modelled by
real numbers; ticks and counts are unbounded integers.

Where the code does less than its comments say, the code is modelled and the exact condition is proved:

- A player's `set_speed` that names the speed the governor is already holding records nothing, so the older,
  higher ceiling stands and the clock may climb past the speed just asked for
  (`CeilingIsTheLastAskIff`, `IgnoredAskIsOvertaken`).
- Two plan steps of one tick are both judged on the state before it, so they can hail each other and freeze
  both agents. A tick freezes agents if and only if its own hails close a group, each member hailed last by
  another (`TickFreezesIff`), and a run stays free of mutual freezes throughout if and only if none of its
  ticks does that (`RunFreezesIff`, `CrossedPlanHailsFreeze`). The plans that minds lay today name no target
  (internal/mind/handlers.go:372-379), so their steps hail nobody.
- An order id is unique among retained orders only: once a consumed order is pruned its id is accepted again
  (`PrunedIdIsFreeAgain`).
- A time snap moves deadlines and anchors, but four observers in the state's own code measure from history
  that it keeps, and can tell: the exile watch's one-hour latch, the three-day look back for the gru, the gap
  between two consolidations, and the age a memory is scored by. Each answers as before if and only if its
  answer had nothing left to lose or outlasts the snap (`LatchNoticesSnapIff`, `FodderNoticesSnapIff`,
  `GapNoticesSnapIff`, `ScoreNoticesSnapIff`), which together decides when a snap goes unnoticed
  (`UnnoticedIff`). What reads the calendar (day, night, curfew) follows the new clock by design. Anchors the
  drivers hold outside the state (a planner's debounce, an encounter's cooldown, the confirm cadence of an
  order, the tick a thought in flight was taken at) are not moved either.
- The migration has no field to move axes to: the cap holds for a living villager if and only if it carries no
  more axes than the cap (`CapAfterTransform`).
- A subscription from a negative cursor ends if its first read still finds the log empty; nothing else
  but a failure or a cancellation stops a pusher (`PusherStopsIff`).
- A working-memory window of one or two takes nothing by score: the best memory can only be drawn, and only
  if it lies in the older half. From three places on it is always there; the callers ask for five and ten
  (internal/mind/convo.go:177, internal/sim/memory.go:279) (`BestIsKept`, `BestCanBeSeenIff`,
  `WindowOfTwoMissesTheBest`).

## Model

| member | source | states |
|---|---|---|
| GridPath.Bfs | internal/sim/path.go:15-36 | terminates; found exactly when some passable path reaches a matching tile; the tile and its back-pointers are those of the first such path in shortest-then-N,E,S,W order; `cameFrom` is a tree of walkable routes |
| GridPath.Nearest | internal/sim/path.go:75-78 | not-found exactly when no reachable tile matches; else the end of the first shortest path |
| GridPath.NearestAdjacentTo | internal/sim/path.go:83-101 | the closest standing tile with a matching neighbour, and the first matching neighbour in order; never falls through after a hit |
| GridPath.NextStep | internal/sim/path.go:42-72 | the walk back from the target ends at the first step of the route; from blocked ground the first passable, else first in-bounds, neighbour |
| GridPath.FirstIsShortest | internal/sim/path.go:15-36 | the found tile is at minimum walking distance among all reachable matching tiles |
| GridPath.FirstIsUnique | internal/sim/path.go:15-36 | the search order leaves exactly one answer, so every replay finds the same tile |
| GridPath.RankByLength | internal/sim/path.go:15-36 | the order the search is specified by puts every shorter path first |
| GridPath.RankByFirstDifference | internal/sim/path.go:15-36 | and among paths of one length the first differing direction decides, in N,E,S,W order |
| GridPath.StepIsOneCloser | internal/sim/path.go:42-72 | from passable ground the step is onto a passable neighbour, and the rest of the route is the route from there: exactly one closer |
| GridPath.StepStaysIff | internal/sim/path.go:42-72 | the walker stays put exactly when it is there or no path exists |
| GridPath.WalkerTracesRoute | internal/sim/path.go:42-72 | repeating the step on a fixed map traces the shortest route tile by tile, arrives after exactly its length, and stays |
| GridPath.StepIsOrthogonal | internal/sim/path.go:10-72 | in coordinates: a step changes one coordinate by one |
| GridPath.PathCoversDistance | internal/sim/path.go:15-36 | no walkable path is shorter than the grid distance, and it stays on open tiles inside the map |
| GridPath.OpenGroundStep | internal/sim/path.go:42-72 | with nothing in the way the step goes north while the target lies north, else east, else south, else west |
| GridPath.BlockedGroundStep | internal/sim/path.go:47-58 | from blocked ground the first open tile to the north, east, south, west |
| GridPath.WalledInStep | internal/sim/path.go:47-58 | and with none open the first inside the map |
| GridPath.BesideInOrder | internal/sim/path.go:83-101 | the resource tile is the first match to the north, east, south, west of the standing tile |
| EventStream.Session.Subscribe | internal/ipc/server.go:499-516 | one subscription at a time; the empty channel is open before the first replay read; cursor from `since` or the head |
| EventStream.Session.Unsubscribe | internal/ipc/server.go:520-528 | cancels the standing subscription, keeps what its channel holds |
| EventStream.Session.Offer | internal/ipc/server.go:538-558 | sends event by event without waiting, whatever the pusher receives in between; the first event that finds the buffer full cancels, is named in the dropped push, and nothing after it is enqueued |
| EventStream.OfferUndisturbed | internal/ipc/server.go:545-557 | undisturbed, an offer enqueues exactly the prefix the room admits, in order |
| EventStream.EveryOfferIsTheSessions | internal/ipc/server.go:538-558 | in every interleaving, what one offer leaves is what `offer` computes for some number of receives before each send |
| EventStream.StepKeepsInvariant | internal/ipc/server.go:538-603 | every step of loop, store, single send, buffer, pusher and client keeps cursor, replay and live buffer spliced |
| EventStream.StreamIsGapless | internal/ipc/server.go:560-603 | whatever the interleaving, overflow and failure, the client has received exactly since+1, since+2, and so on, without gap, duplicate or reordering |
| EventStream.IdleMeansCaughtUp | internal/ipc/server.go:560-603 | idle pusher, empty buffer and no offer under way mean the cursor is at the log head and everything was delivered |
| EventStream.PusherDrains | internal/ipc/server.go:562-603 | from any reachable state the pusher alone delivers the rest of the log in boundedly many steps |
| EventStream.PusherStopsIff | internal/ipc/server.go:562-603 | in every reachable state exactly four things stop the pusher: a failed read, a failed write, a cancelled subscription, or a read from a negative cursor on a log still empty |
| EventStream.PageIsFull | internal/store/store.go:133-146 | a page of the store is the log after `since`, whole or cut at the limit |
| EventStream.StandsUntilEnded | internal/ipc/server.go:520-558 | over any run a subscription stands if and only if it was not cancelled and no event was offered to a full buffer |
| EventStream.NextIsPushedAtOnce | internal/ipc/server.go:585-602 | the next event received is pushed at once without the store; one replayed already is not pushed again; past a gap the store is read first |
| Estimator.LiveEstimator.constructor | internal/cognition/estimate.go:59-61 | starts at the seed with nothing in view |
| Estimator.LiveEstimator.Rate | internal/cognition/estimate.go:78-90 | the share of spikes among the samples in the ring |
| Estimator.LiveEstimator.WindowMedian | internal/cognition/estimate.go:144-155 | the median of the values in the ring |
| Estimator.LiveEstimator.Push | internal/cognition/estimate.go:117-121 | the slot written is the oldest: what the ring holds is the newest at most twenty, in order |
| Estimator.LiveEstimator.Sample | internal/cognition/estimate.go:107-141 | one sample refines the abstract step: spikes leave the estimate, normal samples move it, a breach adopts the median and empties the view |
| Estimator.RingHoldsNewest | internal/cognition/estimate.go:107-141 | over any run the ring is the last up to 20 samples since the last adoption |
| Estimator.AdoptionsAreSpaced | internal/cognition/estimate.go:107-141 | two adoptions are at least 20 samples apart |
| Estimator.BreachIsSevenSpikes | internal/cognition/estimate.go:122-126 | the rate threshold is crossed exactly by seven spikes in a full window |
| Estimator.MedianIsInTheMiddle | internal/cognition/estimate.go:144-155 | at least half of the window lies on each side of the adopted value |
| Estimator.MedianOfSameValues | internal/cognition/estimate.go:144-155 | the adopted value does not depend on where the ring has wrapped |
| Estimator.MedianIsUnbiased | internal/cognition/estimate.go:144-155 | turning all values around a point turns the adopted value with them: of an even window it is the mean of the two middle values |
| Estimator.AdoptionReports | internal/cognition/estimate.go:126-139 | an adoption reports the estimate it found, the one it leaves and the share of spikes |
| Estimator.IsolatedSpikesLeaveNoTrace | internal/cognition/estimate.go:107-121 | until spikes persist the estimate is the average of the normal samples alone |
| Estimator.ConstantLoadIsFollowed | internal/cognition/estimate.go:107-141 | from any state a constant value causes at most two adoptions, is never a spike after 40 samples, and from then on the error shrinks by a fifth a sample |
| Governor.Debt | internal/cognition/governor.go:78-98 | debt is the load times the tick rate; exactly the positive contributors are counted; uncapped speed has none |
| Governor.Fraction | internal/cognition/governor.go:87-95 | one thought's share: remaining work within its prediction, full drift beyond it |
| Governor.WaitingCostsLess | internal/cognition/governor.go:87-95 | within its prediction a thought's share falls by its working time over the budget |
| Governor.OverdueCostsMore | internal/cognition/governor.go:87-95 | from the deadline on the share is all the time taken: it jumps back to where it began and grows |
| Governor.LoadsAdd | internal/cognition/governor.go:78-98 | the shares of thoughts add up, and so do the contributors |
| Governor.Controller.Sample | internal/cognition/governor.go:175-245 | one sample refines the abstract decision and windows |
| Governor.Controller.Reset | internal/cognition/governor.go:249-253 | both windows emptied, the speed watch re-anchored |
| Governor.WindowsAreTheHysteresis | internal/cognition/governor.go:147-245 | over any history a sample sheds if and only if it completes five consecutive overloaded samples at one speed with no decision among them, and recovers if and only if it completes twenty roomy ones |
| SpeedControl.Loop.Handle | internal/sim/loop.go:425-487 | what each clock command records; the state is the fold of the log |
| SpeedControl.Loop.Commit | internal/sim/state.go:325-372 | the clock arms of the reducer, one event at a time |
| SpeedControl.Loop.RequestedCeiling | internal/sim/loop.go:568-573 | the recorded ceiling while governed, the effective speed otherwise |
| SpeedControl.PausedIff | internal/sim/loop.go:436-445 | over any run the clock is paused if and only if some pause was not followed by a resume, or it was paused and never resumed |
| SpeedControl.RecordedIffItChanges | internal/sim/loop.go:436-487 | a command is recorded if and only if it changes the clock |
| SpeedControl.SetSpeedTakesEffect | internal/sim/loop.go:446-451 | a known speed is the speed from then on and lifts the hold when new; an unknown one changes nothing |
| SpeedControl.GovernTakesEffectIff | internal/sim/loop.go:452-487 | a decision takes effect if and only if the clock runs on the ladder and it names the notch below, or the one above and under the ceiling |
| SpeedControl.GovernMovesOneNotch | internal/sim/loop.go:452-486 | a governor decision, stale or not, moves exactly one notch under the ceiling, unpaused and on the ladder, or changes nothing |
| SpeedControl.CeilingIsTheLastAskIff | internal/sim/loop.go:446-487 | over any interleaving the speed never exceeds the recorded ceiling, and that ceiling is the player's last request if and only if it did not name the governed speed |
| SpeedControl.IgnoredAskIsOvertaken | internal/sim/loop.go:446-451 | a concrete run in which the clock climbs past the speed last asked for |
| SpeedControl.CadenceApproaches | internal/daemon/governor.go:92-140 | under a constant load every sampled decision is accepted by the loop and heads for the settled notch |
| SpeedControl.ProjectionIsExact | internal/cognition/governor.go:226-228 | the debt projected one notch up is the debt that notch will have |
| SpeedControl.Settles | internal/cognition/governor.go:175-245 | where a constant load ends: the highest notch at or below the start with debt at most 1 (or 1x), or the last notch of the climb that keeps the headroom |
| Clock.NotchRates | internal/clock/clock.go:85-86 | the first notch is four times as fast as 1x, each further one twice the last |
| SpeedControl.ConstantLoadSettles | internal/cognition/governor.go:147-245 | no flapping: all sheds or all recoveries, one per notch and so at most four; the settled notch is reached after an exactly known number of samples and never left |
| HailProtocol.HailStep | internal/sim/hail.go:79-102 | the sweep's events in agent order |
| HailProtocol.SweepEndsExactly | internal/sim/hail.go:79-102 | a pause ends if and only if its hailer stands beside it or its window has closed, as a meeting when both |
| HailProtocol.HailFreezesNobody | internal/sim/hail.go:37-70 | hailing a hailable agent never closes a group of agents waiting for one another |
| HailProtocol.ShrinkingFreezesNobody | internal/sim/state.go:1325-1348 | meetings, expiries, sleep and death never freeze anyone |
| HailProtocol.PauseEndsWith | internal/sim/state.go:1325-1348 | sleep, death, the meeting and the expiry lift a pause; other events of the agent do not |
| HailProtocol.MeetsBeside | internal/sim/hail.go:79-102 | in coordinates: a pause is met by a hailer, alive and awake, on the same tile or one step away |
| HailProtocol.ConditionAfter | internal/sim/state.go:1229-1348 | over any events, from the events alone: who is dead, asleep, bound for a meeting, exiled and paused, and whether a meeting is on |
| HailProtocol.GenerationCounts | internal/sim/state.go:403-410 | the generation counts what bumped it |
| HailProtocol.StandsWhereItMoved | internal/sim/state.go:544-556 | an agent stands where it last moved |
| HailProtocol.EveryWaitEnds | internal/sim/hail.go:37-70 | without a frozen group every chain of waits ends at an agent free to move |
| HailProtocol.TickFreezesIff | internal/sim/plan.go:62-106 | a tick creates a mutual freeze if and only if its own hails close a group: each member hailed last, with no later lift, by another member |
| HailProtocol.DisjointPlanHailsAreSafe | internal/sim/plan.go:98-104 | hails whose hailers are none of the targets close no group |
| HailProtocol.CrossedPlanHailsFreeze | internal/sim/plan.go:98-104 | two plan steps of one tick that hail each other do |
| Landing.WalkGuards | internal/sim/landing.go:201-224 | the first block that nothing relaxes ends the walk with its reason; otherwise adapted exactly when a guard was repaired, and the last mark is the hail |
| Landing.CheckPlan | internal/sim/landing.go:94-102 | the first step with an unknown goal, or all steps with their deadlines |
| Landing.Lay | internal/sim/landing.go:85-152 | the plan path and the goal path, with their refusals |
| Landing.Reject | internal/sim/landing.go:47-65 | a metered refusal records the rejection and the outcome; an unmetered one nothing; both fail |
| Landing.LandIntent | internal/sim/landing.go:35-162 | the ladder's events and error in the frozen order |
| Landing.OneOutcomeAndLast | internal/sim/landing.go:35-162 | a metered landing records exactly one outcome, last; it fails if and only if that is a rejection, and then the rejection and the outcome are the whole batch; adapted if and only if a guard was relaxed or a held target moved |
| Landing.LadderOutcome | internal/sim/landing.go:70-162 | refusals are exactly the rejecting outcomes |
| Landing.LandsIff | internal/sim/landing.go:35-162 | from the situation: a landing succeeds if and only if the actor lives and is awake, the thought is of its generation and young enough and no guard blocks it (unmetered callers are not asked), and the door accepts |
| Landing.OutcomeOfSituation | internal/sim/landing.go:70-162 | which outcome the last record has in which situation: unavailable, superseded, stale, guard, landed or adapted |
| Landing.AdaptedIff | internal/sim/landing.go:201-224 | a landing that succeeds is adapted if and only if a guarded target moved off its tile, or is out of sight and can still be reached |
| Landing.RefusalSaysWhy | internal/sim/landing.go:47-65 | the reason named, dead before asleep; the staleness; and a prediction miss exactly past three times the promise |
| Landing.FirstBlockIsNamed | internal/sim/landing.go:201-224 | a blocked landing names the first guard that blocks it |
| Landing.GuardHoldsIff | internal/sim/guard.go:50-95 | when each guard holds, on the map and the clock |
| Landing.AcceptedLandingLays | internal/sim/landing.go:85-152 | what a success lays: the plan with its deadlines, or the meal or the intent, the thought first when voiced |
| Landing.UnmeteredIsSilent | internal/sim/landing.go:30-34 | an unmetered caller leaves no telemetry and lays no hail |
| Landing.LandingHailsIff | internal/sim/landing.go:144-151 | a landing hails if and only if it is an accepted, metered, planless talk_to with a marking guard; the target is hailable and paused for exactly one window |
| Landing.TalkHailsIff | internal/sim/hail.go:37-70 | a current talk_to guarded by its target's presence hails it for 480 ticks if and only if the target can be stopped: alive, awake, unpaused, waited for by nobody, not bound for a meeting, within 64 tiles |
| Landing.LastTargetIsHailed | internal/sim/landing.go:201-224 | of several guarded targets the last that can be stopped is hailed |
| Landing.PlanFiresIff | internal/sim/plan.go:62-106 | a plan step hails if and only if its agent lives, is awake and out of its pause, and the target can be stopped |
| Landing.NobodyEverFreezesTogether | internal/sim/hail.go:43-58 | over every sequence of landings, ticks whose own hails close no group, and snaps: no set of agents is mutually frozen, every chain of waits ends, and no pause outlives its window |
| Landing.RunFreezesIff | internal/sim/hail.go:43-58 | any run is free of mutual freezes throughout if and only if no tick of it closes a group with its own hails |
| Landing.StepNeverExtends | internal/sim/hail.go:45-49 | an open pause is never extended or replaced |
| Landing.PauseIsOverByItsDeadline | internal/sim/hail.go:72-102 | once the clock reaches a pause's deadline the pause has been lifted |
| Orders.Book.Apply | internal/sim/metatron.go:106-234 | each event is accepted or rejected as the arms say, and a rejected one changes nothing |
| Orders.Book.Place | internal/sim/metatron.go:163-214 | an order lands, always active, exactly when every condition holds |
| Orders.PlacedIff | internal/sim/metatron.go:163-214 | a placement is accepted if and only if the order is well formed, its id is new among the retained ones, and a player has fewer than three active |
| Orders.TerminalLandsIff | internal/sim/metatron.go:242-254 | a terminal event lands if and only if an active order has the id |
| Orders.TerminalIsRecorded | internal/sim/metatron.go:242-254 | and its status is what that one order then records |
| Orders.Book.TransitionOrder | internal/sim/metatron.go:242-254 | exactly one terminal status, only on an active order |
| Orders.Book.PruneOrders | internal/sim/metatron.go:260-281 | what retention leaves |
| Orders.Book.ActivePlayerCount | internal/sim/metatron.go:198-206 | the active player orders counted against the cap |
| Orders.StepEvents | internal/sim/executor.go:45-61 | the charge and expiry events a tick emits |
| Orders.PruneKeepsTheNewest | internal/sim/metatron.go:256-281 | pruning keeps every active order and exactly the newest 32 consumed ones, in order |
| Orders.EveryOrderEndsOnce | internal/sim/metatron.go:106-254 | over every accepted history: ids distinct, at most three active player orders, charges within the bank, and every placement ended by exactly one terminal event unless still active |
| Orders.NudgeLandsIff | internal/sim/metatron.go:111-162 | a nudge lands if and only if a charge is banked, its text fits, all its targets live and its form allows them |
| Orders.BankBalances | internal/sim/metatron.go:106-163 | over every accepted history the bank is what it was plus the regenerations below the cap minus nudges and miracles |
| Orders.TicksRegenerate | internal/sim/executor.go:45-56 | left alone, the bank gains one charge at every sixth hour passed, up to three |
| Orders.RecordedChargeIsBanked | internal/sim/executor.go:45-56 | a charge is recorded if and only if the sixth hour comes and the bank has room, and each recorded one is banked |
| Orders.ConsumedStaysConsumed | internal/sim/metatron.go:236-254 | a consumed order is never written again, only pruned |
| Orders.TickAlwaysApplies | internal/sim/executor.go:45-61 | a tick's events always apply without error, and expire exactly the active orders that have reached their deadline |
| Orders.RunsNeverStop | internal/sim/loop.go:403-414 | over every interleaving of injected batches and ticks the next tick applies and the clock advances |
| Orders.OneInjected | internal/sim/loop.go:488-526 | what one injected event does |
| Orders.WholeOrNothing | internal/sim/loop.go:488-526 | a batch does what its events do one after another when none is refused, and nothing when one is |
| Orders.PrunedIdIsFreeAgain | internal/sim/metatron.go:171-177 | the id of a consumed order is refused while retained and accepted again from the 34th order on |
| TriggerPipeline.Watch.MatchOrders | internal/metatron/orders.go:302-359 | one pass over the mirror queues at most one job per order and batch, rate-capped, and undoes a failed send |
| TriggerPipeline.JobIsQueuedIff | internal/metatron/orders.go:302-359 | with room, a pass queues a job if and only if an active, unmarked order of the mirror is matched by an event, first by the one whose tick the job carries, and not within half an hour of its last confirm when it is a confirm order |
| TriggerPipeline.PassQueuesTheDue | internal/metatron/orders.go:302-359 | in general: those jobs in mirror order as far as there is room; queued ones are marked, dropped ones unmarked and their confirm tick forgotten; nothing else changes |
| TriggerPipeline.MarkedIffOneJob | internal/metatron/orders.go:302-407 | over every interleaving an order is marked exactly while one job for it is in hand, queued or at work; the queue never holds two |
| TriggerPipeline.OneTurnPerOrder | internal/metatron/orders.go:538-575 | a system turn runs at most once per placement, never for an order cancelled or expired first, never beside a console turn, and each landed trigger ends in exactly one moment, stale mirror or not |
| TriggerPipeline.HeadFires | internal/metatron/orders.go:538-575 | with the slot free the head of the queue, of an order still active, fires it, runs one turn, reports one moment and clears the mark |
| TriggerPipeline.HeadEnds | internal/metatron/orders.go:394-560 | a no, or an order ended meanwhile, only clears the mark; an empty bank ends in a moment without a turn |
| TriggerPipeline.WatchNarrows | internal/metatron/orders.go:212-244 | what an order watches for: each villager and each keyword list narrows it, each further keyword widens the list |
| TriggerPipeline.SlotIsPassedOn | internal/metatron/orders.go:598-616 | the console gets the free slot, is refused a taken one and gives it back; the worker waits, and out of time reports one moment without a turn |
| TriggerPipeline.PlacedUntilEnded | internal/sim/metatron.go:163-254 | placing makes an order active once, ending it ends it once |
| TriggerPipeline.ConfirmsAreSpaced | internal/metatron/orders.go:325-356 | two confirms of one order are at least 1800 ticks apart, a full queue notwithstanding |
| TriggerPipeline.StepKeepsSingleFlight | internal/metatron/orders.go:598-616 | the turn slot is held by exactly one of worker and console |
| TriggerPipeline.MatchOrderIsARun | internal/metatron/orders.go:307-356 | the pass over one order is a run of the interleaved machine |
| TriggerPipeline.MatchAllIsARun | internal/metatron/orders.go:302-359 | so is the whole pass over the mirror |
| Piles.GroundPile.Add | internal/sim/agents.go:257-268 | the batch with the same kind and deadline absorbs the count, else one is appended |
| Piles.GroundPile.Append | internal/sim/agents.go:267 | the batch slice grows by one, in place while there is room |
| Piles.GroundPile.Available | internal/sim/agents.go:305-331 | the units of a kind on the pile |
| Piles.Compact | internal/sim/agents.go:386-400 | one pass in place, write position never ahead of the read position, leaves what the removal leaves |
| Piles.GroundPile.TakeBatches | internal/sim/agents.go:381-439 | takeFood and takeSpoiled on the pile; nothing else of it changes |
| Piles.GroundPile.TakeMaterial | internal/sim/agents.go:356-376 | the clamped amount leaves its count |
| Piles.GroundPile.TakeSpears | internal/sim/agents.go:445-460 | the most worn spears leave |
| Piles.RemovalIsOldestFirst | internal/sim/agents.go:378-439 | a removal takes exactly min(n, eligible) units, the oldest eligible ones, every batch decided by its own position |
| Piles.OldestGoFirst | internal/sim/agents.go:378-439 | while anything of an eligible batch is left no later batch has lost anything, and only eligible batches lose |
| Piles.ShortOnlyWhenNoneIsLeft | internal/sim/agents.go:378-439 | a removal that takes less than asked leaves nothing it could have taken |
| Piles.RemainingInOrder | internal/sim/agents.go:386-400 | the batches left are in the order they were in |
| Piles.RemainingFoodOk | internal/sim/agents.go:378-439 | no empty batch is left and no two batches share a kind and deadline |
| Piles.RemainingOfKind | internal/sim/agents.go:378-439 | exactly the reported units are lost, of the selected kind only |
| Piles.OthersUntouched | internal/sim/agents.go:407-439 | other kinds, and fresh food when only spoiled food goes, lose nothing |
| Piles.AddFoodAmounts | internal/sim/agents.go:253-268 | adding raises its own key by exactly the count and nothing else |
| Piles.AddFoodOk | internal/sim/agents.go:253-268 | adding keeps one batch per kind and deadline |
| Piles.AddFoodInPlace | internal/sim/agents.go:257-268 | every batch keeps its place and key; a new key goes last |
| Transfers.Ground.PileFor | internal/sim/state.go:277-283 | find-or-create of the tile's pile |
| Transfers.Ground.RemovePileAt | internal/sim/miracles.go:506-517 | the tile's pile goes, the others keep their order |
| Transfers.Ground.Move | internal/sim/miracles.go:524-549 | the pile is relocated, merged onto the pile already there |
| Transfers.MovePileConserves | internal/sim/miracles.go:519-549 | moving a pile, also onto itself, keeps all goods down to each deadline and each tool's uses |
| Transfers.MergePileCount | internal/sim/miracles.go:531-548 | merging two piles adds their contents, item by item |
| Transfers.SpillCount | internal/sim/miracles.go:555-577 | a spilled inventory is all on the ground, nothing more |
| Transfers.TransferConserves | internal/sim/state.go:945-1182 | drop, pick up, deposit, withdraw, death, pile move and chest removal keep the units of every kind and the tools of every remaining use |
| Transfers.RotLosesSpoiled | internal/sim/state.go:1183-1199 | rotting loses exactly min(recorded, spoiled) units of its kind |
| Transfers.DropHappens | internal/sim/state.go:945-1009 | a drop moves the smaller of asked and carried to the tile's pile, food due two days on, and nothing else changes |
| Transfers.DeathHappens | internal/sim/state.go:1270-1300 | a death leaves the villager with nothing and all of it on the pile where it fell |
| Transfers.SpillHappens | internal/sim/miracles.go:555-577 | a spill lies on its tile, food due two days on; no other tile changes |
| Transfers.ChestRemovalHappens | internal/sim/miracles.go:414-425 | a removed chest is gone and what it held is on its tile |
| Transfers.PileMoveHappens | internal/sim/miracles.go:519-549 | a moved pile has left its tile and lies on what the other held; no third tile changes |
| Transfers.RotStaysOnTile | internal/sim/state.go:1183-1199 | rot changes its own tile only |
| Transfers.GoodsAreConserved | internal/sim/state.go:945-1199 | over every sequence of transfers: one pile to a tile, none empty, caps kept, tools sorted, and the world holds what it held until something rots |
| Executor.PlanPickUp | internal/sim/executor.go:519-557 | what a pick_up records, of every kind or of one kind and quantity |
| Executor.PlanWithdraw | internal/sim/executor.go:582-618 | what a withdraw records |
| Executor.PlanDeposit | internal/sim/executor.go:558-581 | the count a deposit records |
| Executor.SweepFills | internal/sim/executor.go:531-553 | as much is recorded as is asked, as is there and as fits |
| Executor.NamedTakes | internal/sim/executor.go:536-545 | a request for one kind takes the smallest of what is there, what fits and the quantity named; nothing of another kind |
| Executor.EarlierKindsFillFirst | internal/sim/executor.go:529-553 | a request for everything takes nothing of a later kind while any of an earlier one is left behind |
| Executor.TakingHappensAsRecorded | internal/sim/state.go:1010-1182 | the reducer's clamps never bite on what the executor recorded: the events of a pick_up or a withdraw, applied one after another, move exactly their counts from pile or chest to villager |
| Executor.DepositHappensAsRecorded | internal/sim/state.go:1050-1119 | nor on a recorded deposit: exactly its count goes into the chest |
| Executor.PickUpHappens | internal/sim/state.go:1010-1049 | whatever count is recorded, the smallest of it, the room under 24 and what lies there passes to the villager; no other kind, pile, chest or villager changes |
| Executor.WithdrawalHappens | internal/sim/state.go:1120-1182 | the same from a chest |
| Executor.DepositHappens | internal/sim/state.go:1050-1119 | into a chest: the smallest of the count, the room under 48 and what is carried |
| Executor.EatOutcome | internal/sim/executor.go:983-1010 | best food first, to satiety or the last unit, the last unit still needed, and the need's ceiling never cuts a unit short |
| Migration.SpillToPile | internal/sim/migrate.go:279-316 | the spill, kind by kind until enough has gone |
| Migration.TransformV2State | internal/sim/migrate.go:238-268 | the clock at its nominal rate, then the transform agent by agent |
| Migration.TransformConserves | internal/sim/migrate.go:230-267 | units of every kind and tools of every remaining use are conserved, and food on the ground keeps its deadline |
| Migration.CapAfterTransform | internal/sim/migrate.go:249-265 | without axes the living end with exactly min(bulk, 24) and the dead with nothing; in general exactly as their axes allow |
| Migration.EarlierKindsGoFirst | internal/sim/migrate.go:270-278 | the spill follows the canonical order, so the best goods stay carried |
| Goods.CanonicalOrder | internal/sim/agents.go:270-276 | the canonical order of kinds, by name |
| Migration.BestGoodsStay | internal/sim/migrate.go:270-278 | no food goes while material is left, no cooked while raw, no meal while other food, no spear while anything else |
| Migration.SpillLandsAtFeet | internal/sim/migrate.go:279-316 | what a villager loses lies on its own tile; no other tile changes |
| Migration.SpearsLeaveMostWornFirst | internal/sim/migrate.go:296-306 | the most worn spears are spilled, the others keep their order |
| Migration.TransformKeepsGround | internal/sim/migrate.go:238-268 | the ground stays one pile per tile, none empty, no two batches alike |
| TimeSnap.World.RebaseTicks | internal/sim/miracles.go:206-263 | every deadline and anchor moves, sentinels and history stay |
| TimeSnap.World.ApplyTimeSnapped | internal/sim/miracles.go:119-133 | forward only, two charges, and a rejected snap changes nothing |
| TimeSnap.World.SpendSnap | internal/sim/miracles.go:78-91 | the charge is spent exactly when it is banked or waived |
| TimeSnap.SnapsIff | internal/sim/miracles.go:119-133 | a snap is accepted if and only if it names a later tick and is waived or two charges are banked; the clock goes exactly there |
| TimeSnap.ClockReachesTheLatest | internal/sim/miracles.go:119-133 | whatever snaps are asked for, the clock ends at the latest tick among them or where it was |
| TimeSnap.NobodyCanTell | internal/sim/miracles.go:135-205 | every observer that measures from a moved deadline or anchor answers on the re-labelled state at the re-labelled tick as before: cooldowns, pauses, plan windows, timed guards, work, beliefs, fire, regrowth, dens, rot, debts, orders, the gru, meetings |
| TimeSnap.AgentAnswersTurn | internal/sim/executor.go:445-455 | the tick at which each answer about an agent turns: talk, gift, reflex, pause, work, plan step, guard, belief |
| TimeSnap.WorldAnswersTurn | internal/sim/executor.go:76-90 | and about the village: fires, debts, orders, the gru |
| TimeSnap.LooksBack | internal/sim/governance.go:855-866 | who looks back at history, and how far |
| TimeSnap.SentinelsStay | internal/sim/miracles.go:146-196 | "never" stays never, set ticks stay set, history does not move |
| TimeSnap.SnapsCompose | internal/sim/miracles.go:206-263 | two snaps are one snap over the whole distance |
| TimeSnap.LatchNoticesSnapIff | internal/sim/governance.go:855-866 | the exile latch answers as before if and only if it had run out or still has the whole snap to run |
| TimeSnap.FodderNoticesSnapIff | internal/sim/governance.go:743-754 | the look back for the gru answers as before if and only if its newest memory had left the window or stays in it for the whole snap |
| TimeSnap.GapNoticesSnapIff | internal/sim/consolidate.go:154-158 | the consolidation gap answers as before if and only if it was over or is still not over after the snap |
| TimeSnap.ScoreNoticesSnapIff | internal/sim/memory.go:305-316 | a memory scores as before if and only if it has no salience or turns no whole day older within the snap |
| TimeSnap.UnnoticedIff | internal/sim/miracles.go:135-205 | a snap goes unnoticed by all observers together if and only if each of those four answers had nothing left to lose or outlasts it |
| TimeSnap.LatchForgets | internal/sim/governance.go:902-915 | a concrete snap that reopens the latch |
| TimeSnap.MemoryFades | internal/sim/memory.go:305-316 | a snap of one tick that halves a score |
| TimeSnap.GruForgotten | internal/sim/governance.go:743-754 | a snap after which the gru is no fodder |
| TimeSnap.GapOpens | internal/sim/consolidate.go:154-158 | a snap that opens the gap for a second consolidation |
| Governance.ResolveVotes | internal/sim/governance.go:807-822 | the two sides, in attendance order |
| Governance.VotesPartitionTheEligible | internal/sim/governance.go:803-822 | every living attendee but the subject of an exile votes, on exactly one side and once; nobody else does; the proposer never votes nay |
| Governance.SideInOrder | internal/sim/governance.go:807-822 | the voters of a side stand in the order they attended in |
| Governance.ExileVotes | internal/sim/governance.go:824-838 | who is for an exile: whoever dislikes the subject and not the proposer; who is against: whoever likes the subject more than a quarter of its backing of the proposer |
| Governance.LikingNeverExiles | internal/sim/governance.go:824-838 | liking the subject more never makes a vote for exile |
| Governance.RuleVotes | internal/sim/governance.go:824-838 | on a rule the vote goes by the regard for the proposer; whoever has broken it forgives 400 |
| Governance.VoteOnProposal | internal/sim/governance.go:684-690 | a proposal passes by a strict majority; ties fail |
| Governance.VoteMovesEachPairOnce | internal/sim/governance.go:431-453 | each ordered pair of voters moves once: +8 affection on one side, -10 trust across, clamped, and no other edge |
| Governance.VoteInNumbers | internal/sim/governance.go:431-453 | affection up 8 to at most 1000, trust down 10 to at least -1000, the other half unchanged |
| Governance.ResolvedVoteMovesVoters | internal/sim/governance.go:393-453 | from vote to square: two voters warm exactly if they voted alike |
| Governance.StrangersBeginWith | internal/sim/governance.go:431-453 | two voters without a relation begin one: affection 8 when they voted alike, trust -10 when not |
| Governance.Village.ResolveProposal | internal/sim/governance.go:397-453 | law and relations after a resolved proposal |
| Governance.Village.EnactProposal | internal/sim/governance.go:398-429 | a passed proposal becomes law unless it would double one in force or judge the dead |
| Governance.NewLawIsInForce | internal/sim/governance.go:398-429 | a passed curfew, repay rule or exile of the living is in force, and new exactly if it was not |
| Governance.NewNormIs | internal/sim/governance.go:398-429 | the one norm added: at the end, in force, unamended, of the proposer and as proposed |
| Governance.LawIsNumbered | internal/sim/governance.go:455-460 | the law is numbered from one without gaps, whatever was resolved |
| Governance.ChangedLaw | internal/sim/governance.go:413-423 | a repeal ends its norm, an amendment sets an unamended one once; no other norm changes |
| Governance.LawOnlyChangesByPassing | internal/sim/governance.go:397-429 | a proposal that did not pass leaves the law alone |
| Governance.Village.AppendNorm | internal/sim/governance.go:455-460 | the next id, in force |
| Governance.Village.MoveSide | internal/sim/governance.go:433-450 | one side's edges, member by member |
| Governance.LawStaysConsistent | internal/sim/governance.go:397-460 | over all runs norm ids are distinct and increasing, at most one curfew, one repay rule and one exile per villager are in force, and a repealed norm never returns |
| Meetings.GovernanceEvents | internal/sim/governance.go:474-534 | the meeting events of one tick |
| Meetings.Hall.RunTick | internal/sim/loop.go:403-410 | events computed on the state before the tick, then applied in order |
| Meetings.OneMeetingADay | internal/sim/governance.go:489-512 | the days on which meetings open are strictly increasing |
| Meetings.ConvenesIff | internal/sim/governance.go:489-501 | a quiet village convenes if and only if it is the second of the day, none has opened that day and two live |
| Meetings.OpensIff | internal/sim/governance.go:503-516 | a convened meeting opens exactly at the opening second, with those who are there |
| Meetings.MeetingOpensOnTime | internal/sim/governance.go:489-516 | it waits for that second, whatever happens meanwhile |
| Meetings.SettledForGood | internal/sim/governance.go:283-314 | a place and a convention that stand are never replaced |
| Meetings.AttendsIff | internal/sim/governance.go:503-516 | those alive, awake and not exiled within three tiles attend |
| Meetings.MeetingRunsItsCourse | internal/sim/governance.go:514-531 | whatever happens meanwhile a meeting of n closes exactly min(360 n + 1, 4500) ticks after opening; the k-th turn is the k-th attendee's, 360 k ticks in |
| Meetings.ConventionIsEarned | internal/sim/governance.go:579-606 | an emergent convention means a gathering at its place at every minute sample of at least the 1800 ticks before |
| Meetings.WatchFollows | internal/sim/governance.go:579-606 | how a gathering starts, keeps, restarts and ends the watch, and the half hours the convention names |
| Meetings.ConventionEmergesIff | internal/sim/governance.go:579-606 | a village that keeps gathering has its convention exactly once a sample falls 1800 ticks after the watch began |
| WorkingMemory.ScoreOf | internal/sim/memory.go:305-316 | salience halved for every whole day of age |
| WorkingMemory.DayHalves | internal/sim/memory.go:305-316 | the salience for the first day, exactly half a day later |
| WorkingMemory.PickTail | internal/sim/memory.go:338-345 | a tail pick is the first draw of eight not picked yet, and fails only when all eight are |
| WorkingMemory.AddTail | internal/sim/memory.go:332-348 | at most two picks, of the older half, none twice |
| WorkingMemory.SelectMemories | internal/sim/memory.go:288-354 | for any draws: at most k, no position twice, newest first; all when they fit; for k of 2 or more the best k-2 and at most two others of the older half |
| WorkingMemory.BestAreBest | internal/sim/memory.go:317-330 | whatever is left out ranks behind each of the best k-2 |
| WorkingMemory.BestIsKept | internal/sim/memory.go:324-353 | for any memories more than the window holds: with three places or more the best memory is in it for any draws; with fewer everything in it is of the older half |
| WorkingMemory.BestCanBeSeenIff | internal/sim/memory.go:324-353 | some draws show the best memory if and only if the window has three places or the best memory lies in the older half |
| WorkingMemory.WindowOfTwoMissesTheBest | internal/sim/memory.go:324-353 | a window of two that never shows it |

## Left out

- EventStream.Session.Offer: a subscription that resumes from the seq a dropped push names is a new subscription; nothing is claimed across the two, since that event was never enqueued.
- Estimator.LiveEstimator.Sample: rounding of floating point is not modelled, values are reals; the lock is not modelled.
- Governor.Debt: rounding of floating point is not modelled, values are reals; the class table is a function of the call kind.
- SpeedControl.Loop.Handle: the degraded flag, the measured rate and the debt figures recorded on governor events are left out.
- Landing.LandIntent: goal resolution, the tool registry and eating are parameters; names and texts of the records are left out.
- Landing.NobodyEverFreezesTogether: assumes that the plan hails of one tick close no group; `RunFreezesIff` says that exactly the other runs freeze somebody.
- Orders.Book.Apply: texts are modelled by their lengths, event types by their number; miracles only by their cost.
- TriggerPipeline.Watch.MatchOrders: the mirror is taken in id order already; keyword search in the payload is a set of contained keywords; logging, timeouts and the model calls are left out.
- Piles.GroundPile.TakeSpears: its twin for axes is not written twice.
- Transfers.TransferConserves: tools carry their kind and uses; intents and theft records are left out.
- Executor.PlanWithdraw: the records of a theft and its witnesses are left out.
- Migration.TransformV2State: works on values; that the carried piles share their food slices with the input state is not modelled.
- TimeSnap.World.RebaseTicks: nested pointers are nested values; fields that are not ticks are reduced to what the observers read.
- TimeSnap.UnnoticedIff: the anchors that drivers hold outside the state are not part of it.
- Meetings.GovernanceEvents: the scene (people, the derived place, the structure with a quorum) is an input; what a speaker proposes, the memories and the violation detectors are left out.
- WorkingMemory.SelectMemories: the seeded random source is an arbitrary stream of draws.
- Pile pointers into the list of piles: piles are values in a list, only their food slice is an array.
- Miracle grants, removal of entities other than chests, crafting, building, hunting and the drain of needs are not modelled.
- Circuit breaking, providers, prompts, configuration, calendar text, chronicle and journals: outside this model.
- Sockets, JSON, the database, wall-clock pacing and the terminal interface: input and output.
