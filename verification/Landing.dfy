/** The landing ladder (internal/sim/landing.go, guards in internal/sim/guard.go): what happens when a
    thought lands on the world as it is now, and which hails it lays.

    Goal resolution, the tool registry and eating are not modelled: their answers are parameters.
  */
module Landing {
  import opened HailProtocol

  const PRESENT_RADIUS := 16
  const PLAN_STEP_CAP := 3
  const PLAN_DEFAULT_WINDOW_TICKS := 7200
  const PREDICTION_MISS_FACTOR := 3

  datatype Class =
    | Unmetered
    | Planner | Conversation | Meeting | Consolidation | Chronicle | Metatron
    | Unregistered(name: nat)

  function BudgetTicks(c: Class): Option<int> {
    match c
    case Planner => Some(1200)
    case Conversation => Some(7200)
    case Meeting => Some(3600)
    case Consolidation => Some(28800)
    case Chronicle => Some(86400)
    case Metatron => Some(86400)
    case _ => None
  }

  datatype Goal = TalkTo | OtherGoal(name: nat)

  datatype Guard =
    | TargetAlive(target: int)
    | TargetPresent(target: int, x: int, y: int)
    | NotSuperseded(generation: int)
    | AfterTick(tick: int)
    | BeforeTick(tick: int)
    | UnknownGuard(name: nat)

  datatype PlanStep = PlanStep(goal: Goal, until: int)

  datatype InjectArgs = InjectArgs(
    agent: int, goal: Goal, voiced: bool, cls: Class,
    snapshotTick: int, generation: int, predictedWallMs: int, actualWallMs: int,
    guards: seq<Guard>, plan: seq<PlanStep>)

  /** What the unmodelled parts answer: the accepted goals, the resolved intent, and whether it eats. */
  datatype Answers = Answers(
    planStepGoals: set<Goal>, rosterGoals: set<Goal>,
    resolved: bool, eatsNow: bool, canEat: bool, hasIntent: bool)

  datatype Why =
    | NoSuchAgent(agent: int)
    | ActorDead | ActorAsleep
    | GenerationMoved(now: int, thought: int)
    | TooStale(staleness: int, budget: int)
    | OutOfRange(target: int) | TargetDead(target: int) | TargetGone(target: int, distance: int)
    | TooEarly(tick: int) | TooLate(tick: int) | GuardUnknown(name: nat)
    | PlanTooLong(steps: nat) | StepUnknown(index: nat) | GoalUnknown | NotResolvable

  datatype Outcome = Landed | Adapted | RejectedStale | RejectedGuard | RejectedUnavailable | Superseded {
    predicate Accepted() { Landed? || Adapted? }
  }

  datatype Record =
    | IntentRejected(agent: int, why: Why, staleness: int)
    | CogOutcome(agent: int, outcome: Outcome, refusal: Option<Why>, staleness: int, predictionMiss: bool)
    | Thought(agent: int)
    | PlanSet(agent: int, steps: seq<PlanStep>)
    | Ate(agent: int)
    | IntentLaid(agent: int)
    | HailLaid(from: int, to: int, until: int)

  // ---- guards ----

  /** Why the guard fails now; None when it holds. */
  function Fails(s: State, agent: int, g: Guard): Option<Why>
    requires s.Has(agent)
  {
    match g
    case TargetAlive(t) =>
      if !s.Has(t) then Some(OutOfRange(t)) else if s.agents[t].dead then Some(TargetDead(t)) else None
    case TargetPresent(t, _, _) =>
      if !s.Has(t) then Some(OutOfRange(t))
      else if s.agents[t].dead then Some(TargetDead(t))
      else if Distance(s.agents[agent], s.agents[t]) > PRESENT_RADIUS then
        Some(TargetGone(t, Distance(s.agents[agent], s.agents[t])))
      else None
    case NotSuperseded(gen) =>
      if s.agents[agent].generation != gen then Some(GenerationMoved(s.agents[agent].generation, gen)) else None
    case AfterTick(t) => if s.tick >= t then None else Some(TooEarly(t))
    case BeforeTick(t) => if s.tick < t then None else Some(TooLate(t))
    case UnknownGuard(n) => Some(GuardUnknown(n))
  }

  predicate Holds(s: State, agent: int, g: Guard)
    requires s.Has(agent)
  {
    Fails(s, agent, g) == None
  }

  /** A talk_to whose target has left can still land: the pair is already converging, or the target
      can be flagged down. */
  predicate Relaxed(s: State, args: InjectArgs, g: Guard)
    requires s.Has(args.agent)
  {
    && g.TargetPresent? && args.goal == TalkTo
    && s.Has(g.target) && !s.agents[g.target].dead
    && (s.WaitsOn(args.agent, g.target) || Hailable(s, args.agent, g.target))
  }

  predicate Blocks(s: State, args: InjectArgs, g: Guard)
    requires s.Has(args.agent)
  {
    !Holds(s, args.agent, g) && !Relaxed(s, args, g)
  }

  /** The guard was repaired: relaxed, or held by a target that moved since the snapshot. */
  predicate Repaired(s: State, args: InjectArgs, g: Guard)
    requires s.Has(args.agent)
  {
    if Holds(s, args.agent, g) then
      g.TargetPresent? && (g.x != 0 || g.y != 0) && (s.agents[g.target].x != g.x || s.agents[g.target].y != g.y)
    else Relaxed(s, args, g)
  }

  /** The guard marks its target for a hail. */
  predicate Marks(s: State, args: InjectArgs, g: Guard)
    requires s.Has(args.agent)
  {
    && g.TargetPresent? && args.goal == TalkTo && Hailable(s, args.agent, g.target)
    && (Holds(s, args.agent, g) || (Relaxed(s, args, g) && !s.WaitsOn(args.agent, g.target)))
  }

  function LastMarked(s: State, args: InjectArgs, guards: seq<Guard>): (t: int)
    requires s.Has(args.agent)
    ensures t == -1 || exists g :: g in guards && Marks(s, args, g) && g.target == t
    ensures t == -1 ==> forall g :: g in guards ==> !Marks(s, args, g)
  {
    if guards == [] then -1
    else
      var last := guards[|guards| - 1];
      var earlier := LastMarked(s, args, guards[..|guards| - 1]);
      assert guards == guards[..|guards| - 1] + [last];
      if Marks(s, args, last) then last.target else earlier
  }

  function FirstBlock(s: State, args: InjectArgs, guards: seq<Guard>): (w: Option<Why>)
    requires s.Has(args.agent)
    ensures w == None <==> forall g :: g in guards ==> !Blocks(s, args, g)
  {
    if guards == [] then None
    else
      var last := guards[|guards| - 1];
      var earlier := FirstBlock(s, args, guards[..|guards| - 1]);
      assert guards == guards[..|guards| - 1] + [last];
      if earlier != None then earlier
      else if Blocks(s, args, last) then Fails(s, args.agent, last)
      else None
  }

  predicate AnyRepaired(s: State, args: InjectArgs, guards: seq<Guard>)
    requires s.Has(args.agent)
  {
    exists g :: g in guards && Repaired(s, args, g)
  }

  // ---- the verdict ----

  /** Where the ladder ends: an accepting outcome with the agent to hail (-1 for none), or a refusal. */
  datatype Verdict = Verdict(outcome: Outcome, why: Option<Why>, hailTarget: int)

  function Refuse(outcome: Outcome, why: Why): Verdict {
    Verdict(outcome, Some(why), -1)
  }

  function Walk(s: State, args: InjectArgs, guards: seq<Guard>): Verdict
    requires s.Has(args.agent)
  {
    var block := FirstBlock(s, args, guards);
    if block != None then Verdict(RejectedGuard, block, -1)
    else Verdict(if AnyRepaired(s, args, guards) then Adapted else Landed, None, LastMarked(s, args, guards))
  }

  function Staleness(s: State, args: InjectArgs): nat {
    if s.tick < args.snapshotTick then 0 else s.tick - args.snapshotTick
  }

  function UnknownStep(plan: seq<PlanStep>, known: set<Goal>): (i: nat)
    ensures i <= |plan| && (i < |plan| ==> plan[i].goal !in known)
    ensures forall j :: 0 <= j < i ==> plan[j].goal in known
  {
    if plan == [] then 0
    else
      var i := UnknownStep(plan[..|plan| - 1], known);
      if i < |plan| - 1 then i else if plan[i].goal in known then i + 1 else i
  }

  /** The last rung: why the plan, or the goal when there is no plan, is not accepted. */
  function DoorRefusal(args: InjectArgs, ans: Answers): Option<Why> {
    if args.plan != [] then
      if |args.plan| > PLAN_STEP_CAP then Some(PlanTooLong(|args.plan|))
      else if UnknownStep(args.plan, ans.planStepGoals) < |args.plan| then
        Some(StepUnknown(UnknownStep(args.plan, ans.planStepGoals)))
      else None
    else if args.goal !in ans.rosterGoals then Some(GoalUnknown)
    else if !ans.resolved then Some(NotResolvable)
    else None
  }

  /** The ladder in its frozen order. */
  function Ladder(s: State, args: InjectArgs, ans: Answers): Verdict
    requires s.Has(args.agent)
  {
    var a := s.agents[args.agent];
    var budget := BudgetTicks(args.cls);
    var metered := !args.cls.Unmetered?;
    if a.dead then Refuse(RejectedUnavailable, ActorDead)
    else if a.asleep then Refuse(RejectedUnavailable, ActorAsleep)
    else if metered && args.generation != a.generation then
      Refuse(Superseded, GenerationMoved(a.generation, args.generation))
    else if metered && budget.Some? && Staleness(s, args) > budget.value then
      Refuse(RejectedStale, TooStale(Staleness(s, args), budget.value))
    else
      var walked := if metered then Walk(s, args, args.guards) else Verdict(Landed, None, -1);
      var door := DoorRefusal(args, ans);
      if walked.why != None then walked
      else if door != None then Refuse(RejectedGuard, door.value)
      else if args.plan != [] then walked.(hailTarget := -1)
      else walked
  }

  function Defaulted(plan: seq<PlanStep>, tick: int): seq<PlanStep> {
    if plan == [] then []
    else
      var last := plan[|plan| - 1];
      Defaulted(plan[..|plan| - 1], tick) +
      [if last.until == 0 then last.(until := tick + PLAN_DEFAULT_WINDOW_TICKS) else last]
  }

  /** What an accepted landing lays on the world. */
  function Laid(s: State, args: InjectArgs, ans: Answers, hailTarget: int): seq<Record> {
    (if args.voiced then [Thought(args.agent)] else []) +
    if args.plan != [] then [PlanSet(args.agent, Defaulted(args.plan, s.tick))]
    else
      (if ans.eatsNow then (if ans.canEat then [Ate(args.agent)] else [])
       else if ans.hasIntent then [IntentLaid(args.agent)] else []) +
      (if hailTarget >= 0 then [HailLaid(args.agent, hailTarget, s.tick + HAIL_WINDOW_TICKS)] else [])
  }

  function OutcomeRecord(s: State, args: InjectArgs, v: Verdict): Record {
    CogOutcome(args.agent, v.outcome, v.why, Staleness(s, args),
      v.why != None && args.predictedWallMs > 0 &&
      args.actualWallMs > PREDICTION_MISS_FACTOR * args.predictedWallMs)
  }

  function Emitted(s: State, args: InjectArgs, ans: Answers): seq<Record> {
    if !s.Has(args.agent) then []
    else
      var v := Ladder(s, args, ans);
      var metered := !args.cls.Unmetered?;
      match v.why
      case Some(why) =>
        if metered then [IntentRejected(args.agent, why, Staleness(s, args)), OutcomeRecord(s, args, v)] else []
      case None =>
        Laid(s, args, ans, v.hailTarget) + (if metered then [OutcomeRecord(s, args, v)] else [])
  }

  function Error(s: State, args: InjectArgs, ans: Answers): Option<Why> {
    if s.Has(args.agent) then Ladder(s, args, ans).why else Some(NoSuchAgent(args.agent))
  }

  // ---- the methods ----

  /** walkGuards: repair sticks, the last mark wins, the first block ends the walk. */
  method WalkGuards(s: State, args: InjectArgs) returns (d: Verdict)
    requires s.Has(args.agent)
    ensures d == Walk(s, args, args.guards)
  {
    d := Verdict(Landed, None, -1);
    for i := 0 to |args.guards|
      invariant d == Walk(s, args, args.guards[..i])
      invariant d.why == None
    {
      WalkOneMore(s, args, i);
      var g := args.guards[i];
      var why := Fails(s, args.agent, g);
      if why != None {
        if !Relaxed(s, args, g) {
          BlockStays(s, args, i + 1);
          return Verdict(RejectedGuard, why, -1);
        }
        d := d.(outcome := Adapted);
        if !s.WaitsOn(args.agent, g.target) {
          d := d.(hailTarget := g.target);
        }
      } else {
        if g.TargetPresent? && (g.x != 0 || g.y != 0) &&
           (s.agents[g.target].x != g.x || s.agents[g.target].y != g.y) {
          d := d.(outcome := Adapted);
        }
        if g.TargetPresent? && args.goal == TalkTo && Hailable(s, args.agent, g.target) {
          d := d.(hailTarget := g.target);
        }
      }
    }
    assert args.guards[..|args.guards|] == args.guards;
  }

  lemma WalkOneMore(s: State, args: InjectArgs, i: nat)
    requires s.Has(args.agent) && i < |args.guards|
    ensures var w, w', g := Walk(s, args, args.guards[..i]), Walk(s, args, args.guards[..i + 1]), args.guards[i];
            w.why == None ==>
              if Blocks(s, args, g) then w' == Verdict(RejectedGuard, Fails(s, args.agent, g), -1)
              else w' == Verdict(if Repaired(s, args, g) then Adapted else w.outcome, None,
                                 if Marks(s, args, g) then g.target else w.hailTarget)
  {
    assert args.guards[..i + 1][..i] == args.guards[..i];
    assert args.guards[..i + 1] == args.guards[..i] + [args.guards[i]];
    if Repaired(s, args, args.guards[i]) {
      assert args.guards[i] in args.guards[..i + 1];
    }
  }

  lemma {:induction false} BlockStays(s: State, args: InjectArgs, i: nat)
    requires s.Has(args.agent) && i <= |args.guards| && FirstBlock(s, args, args.guards[..i]) != None
    ensures FirstBlock(s, args, args.guards) == FirstBlock(s, args, args.guards[..i])
    decreases |args.guards| - i
  {
    if i < |args.guards| {
      assert args.guards[..i + 1][..i] == args.guards[..i];
      BlockStays(s, args, i + 1);
    } else {
      assert args.guards[..i] == args.guards;
    }
  }

  method Reject(s: State, args: InjectArgs, outcome: Outcome, why: Why)
    returns (events: seq<Record>, err: Option<Why>)
    ensures err == Some(why)
    ensures events == if args.cls.Unmetered? then []
                      else [IntentRejected(args.agent, why, Staleness(s, args)),
                            OutcomeRecord(s, args, Refuse(outcome, why))]
  {
    events := [];
    if !args.cls.Unmetered? {
      var staleness := s.tick - args.snapshotTick;
      if staleness < 0 {
        staleness := 0;
      }
      var miss := args.predictedWallMs > 0 && args.actualWallMs > PREDICTION_MISS_FACTOR * args.predictedWallMs;
      events := [IntentRejected(args.agent, why, staleness), CogOutcome(args.agent, outcome, Some(why), staleness, miss)];
    }
    err := Some(why);
  }

  /** The plan path's door check: every step's goal is accepted and every step gets a deadline. */
  method CheckPlan(plan: seq<PlanStep>, tick: int, known: set<Goal>) returns (steps: seq<PlanStep>, bad: nat)
    ensures bad == UnknownStep(plan, known)
    ensures bad == |plan| ==> steps == Defaulted(plan, tick)
  {
    steps := [];
    for i := 0 to |plan|
      invariant UnknownStep(plan[..i], known) == i
      invariant steps == Defaulted(plan[..i], tick)
    {
      assert plan[..i + 1][..i] == plan[..i];
      if plan[i].goal !in known {
        return steps, i;
      }
      var step := plan[i];
      if step.until == 0 {
        step := step.(until := tick + PLAN_DEFAULT_WINDOW_TICKS);
      }
      steps := steps + [step];
    }
    assert plan[..|plan|] == plan;
    return steps, |plan|;
  }

  /** The plan path, or the goal path with the hail the guards asked for. */
  method Lay(s: State, args: InjectArgs, ans: Answers, hailTarget: int)
    returns (laid: seq<Record>, refusal: Option<Why>)
    ensures refusal == DoorRefusal(args, ans)
    ensures refusal == None ==> laid == Laid(s, args, ans, hailTarget)
  {
    laid := [];
    if args.plan != [] {
      if |args.plan| > PLAN_STEP_CAP {
        return [], Some(PlanTooLong(|args.plan|));
      }
      var steps, bad := CheckPlan(args.plan, s.tick, ans.planStepGoals);
      if bad < |args.plan| {
        return [], Some(StepUnknown(bad));
      }
      if args.voiced {
        laid := laid + [Thought(args.agent)];
      }
      laid := laid + [PlanSet(args.agent, steps)];
    } else {
      if args.goal !in ans.rosterGoals {
        return [], Some(GoalUnknown);
      }
      if !ans.resolved {
        return [], Some(NotResolvable);
      }
      if args.voiced {
        laid := laid + [Thought(args.agent)];
      }
      if ans.eatsNow {
        if ans.canEat {
          laid := laid + [Ate(args.agent)];
        }
      } else if ans.hasIntent {
        laid := laid + [IntentLaid(args.agent)];
      }
      if hailTarget >= 0 {
        laid := laid + [HailLaid(args.agent, hailTarget, s.tick + HAIL_WINDOW_TICKS)];
      }
    }
    refusal := None;
  }

  method LandIntent(s: State, args: InjectArgs, ans: Answers) returns (events: seq<Record>, err: Option<Why>)
    ensures events == Emitted(s, args, ans) && err == Error(s, args, ans)
  {
    events := [];
    if args.agent < 0 || args.agent >= |s.agents| {
      return [], Some(NoSuchAgent(args.agent));
    }
    var a := s.agents[args.agent];
    if a.dead {
      events, err := Reject(s, args, RejectedUnavailable, ActorDead);
      return;
    }
    if a.asleep {
      events, err := Reject(s, args, RejectedUnavailable, ActorAsleep);
      return;
    }
    var staleness := if s.tick < args.snapshotTick then 0 else s.tick - args.snapshotTick;
    var decision := Verdict(Landed, None, -1);
    if !args.cls.Unmetered? {
      if args.generation != a.generation {
        events, err := Reject(s, args, Superseded, GenerationMoved(a.generation, args.generation));
        return;
      }
      var budget := BudgetTicks(args.cls);
      if budget.Some? && staleness > budget.value {
        events, err := Reject(s, args, RejectedStale, TooStale(staleness, budget.value));
        return;
      }
      decision := WalkGuards(s, args);
      if decision.why.Some? {
        events, err := Reject(s, args, RejectedGuard, decision.why.value);
        return;
      }
    }
    var laid, refusal := Lay(s, args, ans, decision.hailTarget);
    if refusal.Some? {
      events, err := Reject(s, args, RejectedGuard, refusal.value);
      return;
    }
    events := laid;
    if !args.cls.Unmetered? {
      events := events + [CogOutcome(args.agent, decision.outcome, None, staleness, false)];
    }
    err := None;
  }

  // ---- what every landing guarantees ----

  /** The ladder refuses exactly with a rejecting outcome, and adapts exactly when a guard was repaired. */
  lemma LadderOutcome(s: State, args: InjectArgs, ans: Answers)
    requires s.Has(args.agent)
    ensures var v := Ladder(s, args, ans);
            (v.why == None <==> v.outcome.Accepted()) &&
            (v.why == None ==>
               (v.outcome == Adapted <==> !args.cls.Unmetered? && AnyRepaired(s, args, args.guards)))
  {
  }

  /** A metered landing of a valid agent records exactly one outcome, last; it fails if and only if that
      outcome is a rejection, and then the rejection record and the outcome are the whole batch. */
  lemma OneOutcomeAndLast(s: State, args: InjectArgs, ans: Answers)
    requires s.Has(args.agent) && !args.cls.Unmetered?
    ensures var es := Emitted(s, args, ans);
            && es != [] && es[|es| - 1].CogOutcome?
            && (forall i :: 0 <= i < |es| - 1 ==> !es[i].CogOutcome?)
            && (Error(s, args, ans) == None <==> es[|es| - 1].outcome.Accepted())
            && (Error(s, args, ans) != None ==> |es| == 2 && es[0].IntentRejected? && es[1].refusal == Some(es[0].why))
            && (Error(s, args, ans) == None ==>
                  (es[|es| - 1].outcome == Adapted <==> AnyRepaired(s, args, args.guards)) &&
                  forall i :: 0 <= i < |es| ==> !es[i].IntentRejected?)
  {
    LadderOutcome(s, args, ans);
  }

  /** An unmetered caller's landing leaves no telemetry and lays no hail. */
  lemma UnmeteredIsSilent(s: State, args: InjectArgs, ans: Answers)
    requires args.cls.Unmetered?
    ensures forall e :: e in Emitted(s, args, ans) ==> !e.CogOutcome? && !e.IntentRejected? && !e.HailLaid?
  {
  }

  /** A landing hails if and only if it is an accepted, metered, planless talk_to one of whose
      target-present guards marks its target; the hail goes to the last target marked, which is hailable
      at that moment, for exactly one window. */
  lemma LandingHailsIff(s: State, args: InjectArgs, ans: Answers, e: Record)
    requires s.Has(args.agent) && e.HailLaid?
    ensures e in Emitted(s, args, ans) <==>
              && Error(s, args, ans) == None && !args.cls.Unmetered? && args.plan == []
              && LastMarked(s, args, args.guards) >= 0
              && e == HailLaid(args.agent, LastMarked(s, args, args.guards), s.tick + HAIL_WINDOW_TICKS)
    ensures e in Emitted(s, args, ans) ==> args.goal == TalkTo && Hailable(s, args.agent, e.to)
  {
  }

  // ---- from the situation to the outcome ----

  /** The thought is older than its class allows; unregistered classes have no limit. */
  predicate TooOld(cls: Class, age: int) {
    match cls
    case Planner => age > 1200
    case Conversation => age > 7200
    case Meeting => age > 3600
    case Consolidation => age > 28800
    case Chronicle | Metatron => age > 86400
    case Unmetered | Unregistered(_) => false
  }

  predicate DoorAccepts(args: InjectArgs, ans: Answers) {
    if args.plan != [] then |args.plan| <= 3 && forall i :: 0 <= i < |args.plan| ==> args.plan[i].goal in ans.planStepGoals
    else args.goal in ans.rosterGoals && ans.resolved
  }

  predicate Awake(a: Agent) {
    !a.dead && !a.asleep
  }

  /** The thought belongs to the actor's present generation and is young enough. */
  predicate Current(s: State, args: InjectArgs)
    requires s.Has(args.agent)
  {
    args.generation == s.agents[args.agent].generation && !TooOld(args.cls, s.tick - args.snapshotTick)
  }

  lemma DoorAcceptsIff(args: InjectArgs, ans: Answers)
    ensures DoorRefusal(args, ans) == None <==> DoorAccepts(args, ans)
  {
  }

  lemma StaleIff(s: State, args: InjectArgs)
    ensures var budget := BudgetTicks(args.cls);
            budget.Some? && Staleness(s, args) > budget.value <==> TooOld(args.cls, s.tick - args.snapshotTick)
  {
  }

  /** A landing succeeds if and only if the actor exists, lives and is awake, the thought is current and no guard
      blocks it (an unmetered caller is not asked), and the door accepts. */
  lemma LandsIff(s: State, args: InjectArgs, ans: Answers)
    ensures Error(s, args, ans) == None <==>
              && s.Has(args.agent) && Awake(s.agents[args.agent])
              && (args.cls.Unmetered? ||
                  (Current(s, args) && forall g :: g in args.guards ==> !Blocks(s, args, g)))
              && DoorAccepts(args, ans)
  {
    hide DoorRefusal, DoorAccepts, TooOld, Staleness, BudgetTicks, Blocks;
    DoorAcceptsIff(args, ans);
    StaleIff(s, args);
  }

  /** Which situation a metered landing's last record names: unavailable for a dead or sleeping actor, superseded
      for one whose generation has moved, stale for a thought past its budget, guard for one that is blocked or
      not accepted, in this order; only then does it land. */
  lemma OutcomeOfSituation(s: State, args: InjectArgs, ans: Answers)
    requires s.Has(args.agent) && !args.cls.Unmetered?
    ensures var es, a := Emitted(s, args, ans), s.agents[args.agent];
            var late := TooOld(args.cls, s.tick - args.snapshotTick);
            var free := (forall g :: g in args.guards ==> !Blocks(s, args, g)) && DoorAccepts(args, ans);
            && es != [] && es[|es| - 1].CogOutcome? && es[|es| - 1].agent == args.agent
            && (es[|es| - 1].outcome == RejectedUnavailable <==> a.dead || a.asleep)
            && (es[|es| - 1].outcome == Superseded <==> Awake(a) && args.generation != a.generation)
            && (es[|es| - 1].outcome == RejectedStale <==> Awake(a) && args.generation == a.generation && late)
            && (es[|es| - 1].outcome == RejectedGuard <==> Awake(a) && args.generation == a.generation && !late && !free)
            && (es[|es| - 1].outcome.Accepted() <==> Awake(a) && args.generation == a.generation && !late && free)
            && (es[|es| - 1].outcome == Adapted ==> AnyRepaired(s, args, args.guards))
            && (es[|es| - 1].outcome == Landed ==> !AnyRepaired(s, args, args.guards))
  {
    hide DoorRefusal, DoorAccepts, TooOld, Staleness, BudgetTicks, Blocks, AnyRepaired, LastMarked;
    DoorAcceptsIff(args, ans);
    StaleIff(s, args);
  }

  /** What the record says: why, how old the thought was, and whether it took three times as long as promised. */
  lemma RefusalSaysWhy(s: State, args: InjectArgs, ans: Answers)
    requires s.Has(args.agent) && !args.cls.Unmetered?
    ensures var es, a := Emitted(s, args, ans), s.agents[args.agent];
            var last := es[|es| - 1];
            && (a.dead ==> last.refusal == Some(ActorDead))
            && (!a.dead && a.asleep ==> last.refusal == Some(ActorAsleep))
            && (last.outcome == Superseded ==> last.refusal == Some(GenerationMoved(a.generation, args.generation)))
            && (last.outcome.Accepted() ==> last.refusal == None)
            && last.staleness == (if args.snapshotTick < s.tick then s.tick - args.snapshotTick else 0)
            && (last.predictionMiss <==>
                  !last.outcome.Accepted() && args.predictedWallMs > 0 && args.actualWallMs > 3 * args.predictedWallMs)
  {
    hide DoorRefusal, LastMarked, AnyRepaired, FirstBlock;
  }

  lemma {:induction false} FirstBlockIsFirst(s: State, args: InjectArgs, guards: seq<Guard>, i: nat)
    requires s.Has(args.agent) && i < |guards| && Blocks(s, args, guards[i])
    requires forall j :: 0 <= j < i ==> !Blocks(s, args, guards[j])
    ensures FirstBlock(s, args, guards) == Fails(s, args.agent, guards[i])
  {
    hide Fails, Relaxed;
    var front := guards[..|guards| - 1];
    if i < |guards| - 1 {
      FirstBlockIsFirst(s, args, front, i);
      assert FirstBlock(s, args, front) != None;
    } else {
      assert forall g :: g in front ==> !Blocks(s, args, g);
    }
  }

  /** A blocked landing names the first guard that blocks it. */
  lemma FirstBlockIsNamed(s: State, args: InjectArgs, ans: Answers, i: nat)
    requires s.Has(args.agent) && !args.cls.Unmetered? && Awake(s.agents[args.agent]) && Current(s, args)
    requires i < |args.guards| && Blocks(s, args, args.guards[i]) && forall j :: 0 <= j < i ==> !Blocks(s, args, args.guards[j])
    ensures Error(s, args, ans) == Fails(s, args.agent, args.guards[i])
  {
    hide Fails, Blocks, TooOld, Staleness, BudgetTicks;
    FirstBlockIsFirst(s, args, args.guards, i);
    StaleIff(s, args);
    BlockFails(s, args, args.guards[i]);
  }

  lemma BlockFails(s: State, args: InjectArgs, g: Guard)
    requires s.Has(args.agent) && Blocks(s, args, g)
    ensures Fails(s, args.agent, g).Some?
  {
  }

  /** When a guard holds, in the terms of the map and the clock. */
  lemma GuardHoldsIff(s: State, agent: int, g: Guard)
    requires s.Has(agent)
    ensures Holds(s, agent, g) <==>
              || (g.TargetAlive? && 0 <= g.target < |s.agents| && !s.agents[g.target].dead)
              || (g.TargetPresent? && 0 <= g.target < |s.agents| && !s.agents[g.target].dead &&
                  Abs(s.agents[agent].x - s.agents[g.target].x) + Abs(s.agents[agent].y - s.agents[g.target].y) <= 16)
              || (g.NotSuperseded? && s.agents[agent].generation == g.generation)
              || (g.AfterTick? && g.tick <= s.tick)
              || (g.BeforeTick? && s.tick < g.tick)
  {
  }

  /** The steps of the plan, those without a deadline given one two hours from now. */
  predicate HasDeadlines(plan: seq<PlanStep>, tick: int, steps: seq<PlanStep>) {
    |steps| == |plan| &&
    forall i :: 0 <= i < |steps| ==>
      steps[i].goal == plan[i].goal && steps[i].until == if plan[i].until == 0 then tick + 7200 else plan[i].until
  }

  lemma LaidWhat(s: State, args: InjectArgs, ans: Answers, hailTarget: int)
    ensures var es := Laid(s, args, ans, hailTarget);
            && (Thought(args.agent) in es <==> args.voiced) && (args.voiced ==> es[0] == Thought(args.agent))
            && (IntentLaid(args.agent) in es <==> args.plan == [] && !ans.eatsNow && ans.hasIntent)
            && (Ate(args.agent) in es <==> args.plan == [] && ans.eatsNow && ans.canEat)
            && (forall steps :: PlanSet(args.agent, steps) in es <==>
                  args.plan != [] && steps == Defaulted(args.plan, s.tick))
  {
  }

  /** What a successful landing lays: with a plan, the plan, every step with a deadline and nothing else of it
      changed; without, the meal or the intent; with a voice, the thought first. */
  lemma AcceptedLandingLays(s: State, args: InjectArgs, ans: Answers)
    requires Error(s, args, ans) == None
    ensures var es := Emitted(s, args, ans);
            && (Thought(args.agent) in es <==> args.voiced) && (args.voiced ==> es[0] == Thought(args.agent))
            && (IntentLaid(args.agent) in es <==> args.plan == [] && !ans.eatsNow && ans.hasIntent)
            && (Ate(args.agent) in es <==> args.plan == [] && ans.eatsNow && ans.canEat)
            && (forall steps :: PlanSet(args.agent, steps) in es <==> args.plan != [] && HasDeadlines(args.plan, s.tick, steps))
  {
    hide Ladder, Defaulted, Laid, Staleness;
    LaidWhat(s, args, ans, Ladder(s, args, ans).hailTarget);
    DefaultedSteps(args.plan, s.tick);
    forall steps | HasDeadlines(args.plan, s.tick, steps)
      ensures steps == Defaulted(args.plan, s.tick)
    {
      assert forall i :: 0 <= i < |steps| ==> steps[i] == Defaulted(args.plan, s.tick)[i];
    }
  }

  lemma {:induction false} DefaultedSteps(plan: seq<PlanStep>, tick: int)
    ensures HasDeadlines(plan, tick, Defaulted(plan, tick))
  {
    if plan != [] {
      DefaultedSteps(plan[..|plan| - 1], tick);
    }
  }

  /** Someone a hail can stop: alive, awake, not paused and waited for by nobody, not on the way to a meeting or
      called to one, and within 64 tiles. */
  predicate CanBeStopped(s: State, caller: int, t: int)
    requires s.Has(caller) && s.Has(t)
  {
    var a, b := s.agents[caller], s.agents[t];
    && !b.dead && !b.asleep && b.hail == None && !b.attending
    && (forall k :: 0 <= k < |s.agents| && s.agents[k].hail.Some? ==> s.agents[k].hail.value.hailer != t)
    && (s.meeting ==> b.exiled)
    && Abs(a.x - b.x) + Abs(a.y - b.y) <= 64
  }

  /** A current thought of talking to someone, guarded by their presence, hails them for 480 ticks if and only if
      they can be stopped. */
  lemma TalkHailsIff(s: State, args: InjectArgs, ans: Answers, t: int, x: int, y: int)
    requires s.Has(args.agent) && s.Has(t) && t != args.agent && !args.cls.Unmetered?
    requires Awake(s.agents[args.agent]) && Current(s, args) && DoorAccepts(args, ans)
    requires args.goal == TalkTo && args.plan == [] && args.guards == [TargetPresent(t, x, y)]
    ensures HailLaid(args.agent, t, s.tick + 480) in Emitted(s, args, ans) <==> CanBeStopped(s, args.agent, t)
  {
    var g := TargetPresent(t, x, y);
    LandsIff(s, args, ans);
    LandingHailsIff(s, args, ans, HailLaid(args.agent, t, s.tick + 480));
    StoppableIff(s, args.agent, t);
    assert args.guards[..0] == [] && LastMarked(s, args, []) == -1;
    hide Hailable, DoorAccepts, Emitted, TooOld, CanBeStopped;
    assert LastMarked(s, args, args.guards) == if Marks(s, args, g) then t else -1;
    MarksIfHailable(s, args, g);
  }

  lemma MarksIfHailable(s: State, args: InjectArgs, g: Guard)
    requires s.Has(args.agent) && args.goal == TalkTo && g.TargetPresent? && s.Has(g.target)
    ensures Marks(s, args, g) <==> Hailable(s, args.agent, g.target)
    ensures Hailable(s, args.agent, g.target) ==> !Blocks(s, args, g)
  {
  }

  lemma StoppableIff(s: State, caller: int, t: int)
    requires s.Has(caller) && s.Has(t) && t != caller
    ensures Hailable(s, caller, t) <==> CanBeStopped(s, caller, t)
  {
    assert forall k :: 0 <= k < |s.agents| ==>
      (s.WaitsOn(k, t) <==> s.agents[k].hail.Some? && s.agents[k].hail.value.hailer == t);
  }

  /** What makes a guard adapt a landing: a present target that has moved off the tile the thought saw it on, or one
      out of sight that a talk can still reach, because it already waits for it or can be stopped. */
  predicate Shifted(s: State, args: InjectArgs, g: Guard)
    requires s.Has(args.agent)
  {
    g.TargetPresent? && 0 <= g.target < |s.agents| && !s.agents[g.target].dead &&
    var a, b := s.agents[args.agent], s.agents[g.target];
    if Abs(a.x - b.x) + Abs(a.y - b.y) <= 16 then (g.x, g.y) != (0, 0) && (b.x, b.y) != (g.x, g.y)
    else
      args.goal == TalkTo &&
      ((a.hail.Some? && a.hail.value.hailer == g.target) || CanBeStopped(s, args.agent, g.target))
  }

  lemma RepairedIff(s: State, args: InjectArgs, g: Guard)
    requires s.Has(args.agent)
    ensures Repaired(s, args, g) <==> Shifted(s, args, g)
  {
    hide Hailable, CanBeStopped;
    if g.TargetPresent? && s.Has(g.target) && g.target != args.agent {
      StoppableIff(s, args.agent, g.target);
    }
  }

  /** A landing that succeeds is adapted if and only if one of its guards shifted. */
  lemma AdaptedIff(s: State, args: InjectArgs, ans: Answers)
    requires !args.cls.Unmetered? && Error(s, args, ans) == None
    ensures var es := Emitted(s, args, ans);
            es[|es| - 1].outcome == Adapted <==> exists g :: g in args.guards && Shifted(s, args, g)
  {
    OutcomeOfSituation(s, args, ans);
    LandsIff(s, args, ans);
    hide Emitted, Repaired, Shifted, Blocks, TooOld, DoorAccepts;
    forall g
      ensures Repaired(s, args, g) <==> Shifted(s, args, g)
    {
      RepairedIff(s, args, g);
    }
  }

  lemma {:induction false} LastMarkWins(s: State, args: InjectArgs, guards: seq<Guard>, i: nat)
    requires s.Has(args.agent) && i < |guards| && Marks(s, args, guards[i])
    requires forall j :: i < j < |guards| ==> !Marks(s, args, guards[j])
    ensures LastMarked(s, args, guards) == guards[i].target
  {
    hide Marks;
    if i < |guards| - 1 {
      LastMarkWins(s, args, guards[..|guards| - 1], i);
    }
  }

  predicate Stoppable(s: State, args: InjectArgs, g: Guard)
    requires s.Has(args.agent)
  {
    g.TargetPresent? && s.Has(g.target) && g.target != args.agent && CanBeStopped(s, args.agent, g.target)
  }

  lemma TalkMarksIff(s: State, args: InjectArgs, g: Guard)
    requires s.Has(args.agent) && args.goal == TalkTo
    ensures Marks(s, args, g) <==> Stoppable(s, args, g)
  {
    if g.TargetPresent? && s.Has(g.target) && g.target != args.agent {
      StoppableIff(s, args.agent, g.target);
      MarksIfHailable(s, args, g);
    }
  }

  /** Of several guarded targets a talk hails the last that can be stopped. */
  lemma LastTargetIsHailed(s: State, args: InjectArgs, ans: Answers, i: nat)
    requires !args.cls.Unmetered? && Error(s, args, ans) == None && args.goal == TalkTo && args.plan == []
    requires i < |args.guards| && Stoppable(s, args, args.guards[i])
    requires forall j :: i < j < |args.guards| ==> !Stoppable(s, args, args.guards[j])
    ensures HailLaid(args.agent, args.guards[i].target, s.tick + 480) in Emitted(s, args, ans)
  {
    hide Marks, CanBeStopped;
    forall j | i <= j < |args.guards|
      ensures Marks(s, args, args.guards[j]) <==> Stoppable(s, args, args.guards[j])
    {
      TalkMarksIff(s, args, args.guards[j]);
    }
    LastMarkWins(s, args, args.guards, i);
    LandingHailsIff(s, args, ans, HailLaid(args.agent, args.guards[i].target, s.tick + 480));
  }

  /** A plan step of `from` flags `to` down at the tick to `next` if and only if `from` lives, is awake, is in no
      pause that lasts beyond that tick, and `to` is someone else who can be stopped. */
  lemma PlanFiresIff(s: State, from: int, to: int, next: int)
    requires s.Has(from) && s.Has(to)
    ensures PlanFires(s, from, to, next) <==>
              && Awake(s.agents[from]) && (s.agents[from].hail.Some? ==> s.agents[from].hail.value.until <= next)
              && to != from && CanBeStopped(s, from, to)
  {
    if to != from {
      StoppableIff(s, from, to);
    }
    hide Hailable, CanBeStopped;
    assert to == from ==> !Hailable(s, from, to) by {
      SelfIsNotHailable(s, from);
    }
  }

  lemma SelfIsNotHailable(s: State, i: int)
    requires s.Has(i)
    ensures !Hailable(s, i, i)
  {
  }

  // ---- the protocol over runs ----

  /** The part of a record the hail protocol sees: intents laid and hails. */
  function Effect(r: Record): seq<Event> {
    match r
    case IntentLaid(agent) => [IntentSet(agent, false)]
    case HailLaid(from, to, until) => [Hailed(from, to, until)]
    case _ => []
  }

  function Land(s: State, records: seq<Record>): (s': State)
    ensures s'.tick == s.tick && |s'.agents| == |s.agents|
  {
    if records == [] then s
    else
      var effect := Effect(records[|records| - 1]);
      var before := Land(s, records[..|records| - 1]);
      if effect == [] then before else Apply(before, effect[0])
  }

  /** Whoever lands an intent is no longer bound for a meeting. */
  lemma IntentUnbinds(s: State, agent: int)
    requires s.Has(agent)
    ensures !Land(s, [IntentLaid(agent)]).agents[agent].attending
  {
    assert Land(s, [IntentLaid(agent)][..0]) == s;
  }

  /** A time snap moves the clock and every open window by the same amount. */
  function Snapped(s: State, delta: nat): State {
    s.(tick := s.tick + delta, agents := seq(|s.agents|, i requires 0 <= i < |s.agents| =>
      s.agents[i].(hail := match s.agents[i].hail
                           case None => None
                           case Some(h) => Some(h.(until := h.until + delta)))))
  }

  datatype Step =
    | Command(args: InjectArgs, ans: Answers)
    | Ticks(pre: seq<Event>, post: seq<Event>)
    | Snap(delta: nat)

  /** The tick's own events are what the executor can emit. */
  predicate Emittable(s: State, step: Step) {
    step.Ticks? ==> AllPlain(step.pre) && AllFromTick(s, step.post, s.tick + 1)
  }

  /** The plan hails of a tick close no group among themselves. */
  ghost predicate Closes(step: Step) {
    step.Ticks? && !Harmless(step.post)
  }

  ghost predicate Proper(s: State, step: Step) {
    Emittable(s, step) && !Closes(step)
  }

  function Do(s: State, step: Step): State {
    match step
    case Command(args, ans) => Land(s, Emitted(s, args, ans))
    case Ticks(pre, post) => Tick(s, pre, post)
    case Snap(delta) => Snapped(s, delta)
  }

  /** Every open pause ends in the future, at most one window away. */
  ghost predicate OnClock(s: State) {
    forall i :: s.Hailed(i) ==> s.tick < s.agents[i].hail.value.until <= s.tick + HAIL_WINDOW_TICKS
  }

  ghost predicate Inv(s: State) {
    NoMutualFreeze(s) && OnClock(s)
  }

  /** The hail state of a landing: unchanged, or one hailable agent hailed. */
  ghost predicate LandsLike(s: State, s': State, to: int, from: int) {
    && |s'.agents| == |s.agents| && s'.tick == s.tick
    && forall i :: 0 <= i < |s.agents| ==>
         s'.agents[i].hail == if i == to then Some(Hail(from, s.tick + HAIL_WINDOW_TICKS)) else s.agents[i].hail
  }

  lemma EffectOnHails(s: State, r: Record, i: int)
    requires s.Has(i)
    ensures var s' := if Effect(r) == [] then s else Apply(s, Effect(r)[0]);
            s'.agents[i].hail == if r.HailLaid? && r.to == i then Some(Hail(r.from, r.until)) else s.agents[i].hail
  {
    hide Apply;
    if Effect(r) != [] {
      HailAfterEvent(s, Effect(r)[0], i);
    }
  }

  lemma {:induction false} LandHails(s: State, records: seq<Record>, to: int, from: int)
    requires forall r :: r in records && r.HailLaid? ==> r == HailLaid(from, to, s.tick + HAIL_WINDOW_TICKS)
    ensures LandsLike(s, Land(s, records), if exists r :: r in records && r.HailLaid? then to else -1, from)
  {
    hide Apply, Effect;
    if records != [] {
      var earlier, last := records[..|records| - 1], records[|records| - 1];
      assert records == earlier + [last];
      LandHails(s, earlier, to, from);
      forall i | 0 <= i < |s.agents|
        ensures Land(s, records).agents[i].hail
             == if last.HailLaid? && last.to == i then Some(Hail(last.from, last.until)) else Land(s, earlier).agents[i].hail
      {
        EffectOnHails(Land(s, earlier), last, i);
      }
    }
  }

  lemma UnknownActorIsSilent(s: State, args: InjectArgs, ans: Answers)
    ensures !s.Has(args.agent) ==> Emitted(s, args, ans) == [] && Land(s, []) == s
  {
  }

  lemma CommandKeepsInv(s: State, args: InjectArgs, ans: Answers)
    requires Inv(s)
    ensures Inv(Land(s, Emitted(s, args, ans)))
  {
    hide Emitted, Error, LastMarked, NoMutualFreeze;
    UnknownActorIsSilent(s, args, ans);
    var es := Emitted(s, args, ans);
    var s' := Land(s, es);
    if s.Has(args.agent) {
      var to := LastMarked(s, args, args.guards);
      forall r | r in es && r.HailLaid?
        ensures r == HailLaid(args.agent, to, s.tick + HAIL_WINDOW_TICKS)
      {
        LandingHailsIff(s, args, ans, r);
      }
      LandHails(s, es, to, args.agent);
      if r :| r in es && r.HailLaid? {
        LandingHailsIff(s, args, ans, r);
        HailFreezesNobody(s, args.agent, to, s.tick + HAIL_WINDOW_TICKS);
        ShrinkingFreezesNobody(Apply(s, Hailed(args.agent, to, s.tick + HAIL_WINDOW_TICKS)), s');
      } else {
        ShrinkingFreezesNobody(s, s');
      }
    }
  }

  lemma SnapKeepsInv(s: State, delta: nat)
    requires Inv(s)
    ensures Inv(Snapped(s, delta))
  {
    forall group | Frozen(Snapped(s, delta), group)
      ensures group == {}
    {
      assert Frozen(s, group);
    }
  }

  lemma StepKeepsInv(s: State, step: Step)
    requires Inv(s) && Proper(s, step)
    ensures Inv(Do(s, step))
  {
    match step
    case Command(args, ans) => CommandKeepsInv(s, args, ans);
    case Ticks(pre, post) =>
      TickFreezesIff(s, pre, post);
      TickTicks(s, pre, post);
      var s' := Tick(s, pre, post);
      forall i | s'.Hailed(i)
        ensures s'.tick < s'.agents[i].hail.value.until <= s'.tick + HAIL_WINDOW_TICKS
      {
        assert TickedHail(s, i, s'.agents[i].hail, s.tick + 1);
      }
    case Snap(delta) => SnapKeepsInv(s, delta);
  }

  function Run(s: State, steps: seq<Step>): State {
    if steps == [] then s else Do(Run(s, steps[..|steps| - 1]), steps[|steps| - 1])
  }

  ghost predicate ProperRun(s: State, steps: seq<Step>) {
    steps == [] ||
    (ProperRun(s, steps[..|steps| - 1]) && Proper(Run(s, steps[..|steps| - 1]), steps[|steps| - 1]))
  }

  /** Over every sequence of landings, ticks whose plan hails close no group, and time snaps: no group of agents is ever frozen waiting
      for one another, every chain of waits ends at a free agent, and no pause outlives its window. */
  lemma {:induction false} NobodyEverFreezesTogether(s: State, steps: seq<Step>)
    requires (forall i :: !s.Hailed(i)) && ProperRun(s, steps)
    ensures Inv(Run(s, steps))
    ensures forall i :: !WaitsForever(Run(s, steps), i)
  {
    if steps == [] {
      NobodyHailed(s);
    } else {
      NobodyEverFreezesTogether(s, steps[..|steps| - 1]);
      StepKeepsInv(Run(s, steps[..|steps| - 1]), steps[|steps| - 1]);
    }
    forall i
      ensures !WaitsForever(Run(s, steps), i)
    {
      EveryWaitEnds(Run(s, steps), i);
    }
  }

  ghost predicate EmittableRun(s: State, steps: seq<Step>) {
    steps == [] ||
    (EmittableRun(s, steps[..|steps| - 1]) && Emittable(Run(s, steps[..|steps| - 1]), steps[|steps| - 1]))
  }

  /** Landings, expiries, meetings and snaps never freeze a group, and neither does a tick whose plan hails
      close none: a run is free of mutual freezes throughout if and only if none of its ticks closes a group
      with its own plan hails. */
  lemma {:induction false} RunFreezesIff(s: State, steps: seq<Step>)
    requires (forall i :: !s.Hailed(i)) && EmittableRun(s, steps)
    ensures (forall k :: 0 <= k <= |steps| ==> NoMutualFreeze(Run(s, steps[..k]))) <==>
              forall k :: 0 <= k < |steps| ==> !Closes(steps[k])
    ensures (forall k :: 0 <= k < |steps| ==> !Closes(steps[k])) ==> ProperRun(s, steps)
  {
    hide Inv, NoMutualFreeze, Do, Closes;
    if steps == [] {
      NobodyHailed(s);
      assert Run(s, steps[..0]) == s;
    } else {
      var n := |steps| - 1;
      var earlier, last := steps[..n], steps[n];
      RunFreezesIff(s, earlier);
      assert forall k :: 0 <= k <= n ==> steps[..k] == earlier[..k];
      assert steps[..|steps|] == steps && earlier[..n] == earlier;
      assert forall k :: 0 <= k < n ==> steps[k] == earlier[k];
      if forall k :: 0 <= k < n ==> !Closes(earlier[k]) {
        NobodyEverFreezesTogether(s, earlier);
        LastStepFreezesIff(Run(s, earlier), last);
      }
    }
  }

  lemma LastStepFreezesIff(s: State, step: Step)
    requires Inv(s) && Emittable(s, step)
    ensures NoMutualFreeze(Do(s, step)) <==> !Closes(step)
  {
    if step.Ticks? {
      TickFreezesIff(s, step.pre, step.post);
    } else {
      StepKeepsInv(s, step);
    }
  }

  /** A step never changes an open pause: it stays as it is (a snap shifts it with the clock) or ends. */
  lemma StepNeverExtends(s: State, step: Step, i: int)
    requires Inv(s) && Proper(s, step) && s.Hailed(i) && !step.Snap?
    ensures var s' := Do(s, step);
            s'.tick >= s.tick && s'.Has(i) &&
            (s'.agents[i].hail == s.agents[i].hail || s'.agents[i].hail == None)
  {
    match step
    case Command(args, ans) =>
      var es := Emitted(s, args, ans);
      if s.Has(args.agent) {
        var to := LastMarked(s, args, args.guards);
        forall r | r in es && r.HailLaid?
          ensures r == HailLaid(args.agent, to, s.tick + HAIL_WINDOW_TICKS) && to != i
        {
          LandingHailsIff(s, args, ans, r);
        }
        LandHails(s, es, to, args.agent);
      }
    case Ticks(pre, post) =>
      TickTicks(s, pre, post);
      assert TickedHail(s, i, Tick(s, pre, post).agents[i].hail, s.tick + 1);
    case Snap(_) =>
  }

  ghost predicate LiftedWithin(s: State, steps: seq<Step>, i: int) {
    exists k :: 0 <= k <= |steps| && !Run(s, steps[..k]).Hailed(i)
  }

  lemma {:induction false} PauseStandsUntilLifted(s: State, steps: seq<Step>, i: int)
    requires Inv(s) && ProperRun(s, steps) && s.Hailed(i)
    requires forall k :: 0 <= k < |steps| ==> !steps[k].Snap?
    ensures Inv(Run(s, steps))
    ensures LiftedWithin(s, steps, i) ||
              (Run(s, steps).Has(i) && Run(s, steps).agents[i].hail == s.agents[i].hail)
  {
    hide Inv, Proper, Do;
    if steps != [] {
      var earlier, step := steps[..|steps| - 1], steps[|steps| - 1];
      PauseStandsUntilLifted(s, earlier, i);
      StepKeepsInv(Run(s, earlier), step);
      if k :| 0 <= k <= |earlier| && !Run(s, earlier[..k]).Hailed(i) {
        assert steps[..k] == earlier[..k];
      } else {
        assert earlier[..|earlier|] == earlier;
        StepNeverExtends(Run(s, earlier), step, i);
        assert steps[..|steps|] == steps;
      }
    }
  }

  /** Once the clock has reached the end of a pause's window, the pause has been lifted. */
  lemma PauseIsOverByItsDeadline(s: State, steps: seq<Step>, i: int)
    requires Inv(s) && ProperRun(s, steps) && s.Hailed(i)
    requires forall k :: 0 <= k < |steps| ==> !steps[k].Snap?
    requires Run(s, steps).tick >= s.agents[i].hail.value.until
    ensures LiftedWithin(s, steps, i)
  {
    PauseStandsUntilLifted(s, steps, i);
  }
}
