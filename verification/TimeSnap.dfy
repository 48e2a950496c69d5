/** The time snap (applyTimeSnapped and rebaseTicks in internal/sim/miracles.go): the clock jumps forward
    and the stored deadlines and anchors are moved with it, so that whoever measures a duration from them
    cannot tell. Four observers measure from history instead, which stays where it is; for each of them
    the snaps it notices are known exactly. The state is reduced to its tick-valued fields and what reads
    them.
  */
module TimeSnap {
  import M = WorkingMemory

  const SNAP_COST := 2
  const TALK_COOLDOWN := 7200
  const GIVE_COOLDOWN := 3600
  const GIVE_KEEPS_AT_LEAST := 2
  const REFLEX_GRACE := 120
  const GRU_ATTACK_COOLDOWN := 600
  const GRU_BLAMED_WITHIN := 3600
  const REFUEL_DYING_BELOW := 3600
  const DAY := 86400
  const EXILE_SHUN_LATCH := 3600
  const GRU_FODDER_WINDOW := 3 * DAY
  const CONSOLIDATION_GAP := 43200

  datatype Option<T> = None | Some(value: T)

  datatype GuardKind = AfterTick | BeforeTick | Untimed

  datatype Guard = Guard(kind: GuardKind, tick: int)

  datatype PlanStep = PlanStep(until: int, when: Option<Guard>)

  datatype Belief = Belief(confidence: int, reinforced: int)

  datatype Intent = Intent(workStart: int, duration: int)

  /** A memory, and whether its text names the gru. */
  datatype Remembered = Remembered(memory: M.Memory, ofGru: bool)

  datatype Agent = Agent(
    idleSince: int, lastTalk: int, lastGive: int, foodRaw: int,
    beliefs: seq<Belief>, intent: Option<Intent>, hailUntil: Option<int>, plan: seq<PlanStep>,
    memories: seq<Remembered>, consolidateMark: int)

  datatype Debt = Debt(open: bool, due: int)

  datatype Order = Order(active: bool, placedTick: int, expiresTick: int)

  datatype Violation = Violation(agent: int, tick: int)

  datatype State = State(
    tick: int, charges: int, agents: seq<Agent>,
    fuelUntil: seq<int>, regrow: seq<int>, denReady: seq<int>, spoilAt: seq<seq<int>>,
    debts: seq<Debt>, orders: seq<Order>, gruLastAttack: Option<int>,
    openedTick: int, gatherStart: int,
    violations: seq<Violation>)

  // ---- the shift ----

  /** A deadline or anchor moves with the clock; the zero that stands for "never" stays. */
  function Shift(x: int, delta: int): int {
    if x != 0 then x + delta else 0
  }

  function ShiftAll(xs: seq<int>, delta: int): (r: seq<int>)
    ensures |r| == |xs| && forall i :: 0 <= i < |xs| ==> r[i] == Shift(xs[i], delta)
  {
    seq(|xs|, i requires 0 <= i < |xs| => Shift(xs[i], delta))
  }

  function ShiftBelief(b: Belief, delta: int): Belief {
    b.(reinforced := Shift(b.reinforced, delta))
  }

  function ShiftStep(s: PlanStep, delta: int): PlanStep {
    PlanStep(Shift(s.until, delta),
      match s.when case None => None case Some(g) => Some(g.(tick := Shift(g.tick, delta))))
  }

  function ShiftAgent(a: Agent, delta: int): (r: Agent)
    ensures |r.beliefs| == |a.beliefs| && |r.plan| == |a.plan|
  {
    a.(idleSince := a.idleSince + delta,
       lastTalk := Shift(a.lastTalk, delta),
       lastGive := Shift(a.lastGive, delta),
       beliefs := seq(|a.beliefs|, i requires 0 <= i < |a.beliefs| => ShiftBelief(a.beliefs[i], delta)),
       intent := (match a.intent case None => None case Some(w) => Some(w.(workStart := Shift(w.workStart, delta)))),
       hailUntil := (match a.hailUntil case None => None case Some(u) => Some(Shift(u, delta))),
       plan := seq(|a.plan|, i requires 0 <= i < |a.plan| => ShiftStep(a.plan[i], delta)))
  }

  function ShiftDebt(d: Debt, delta: int): Debt {
    d.(due := Shift(d.due, delta))
  }

  function ShiftOrder(o: Order, delta: int): Order {
    if o.active then o.(expiresTick := Shift(o.expiresTick, delta)) else o
  }

  function Rebased(s: State, delta: int): State {
    s.(agents := seq(|s.agents|, i requires 0 <= i < |s.agents| => ShiftAgent(s.agents[i], delta)),
       fuelUntil := ShiftAll(s.fuelUntil, delta),
       regrow := ShiftAll(s.regrow, delta),
       denReady := ShiftAll(s.denReady, delta),
       spoilAt := seq(|s.spoilAt|, i requires 0 <= i < |s.spoilAt| => ShiftAll(s.spoilAt[i], delta)),
       debts := seq(|s.debts|, i requires 0 <= i < |s.debts| => ShiftDebt(s.debts[i], delta)),
       orders := seq(|s.orders|, i requires 0 <= i < |s.orders| => ShiftOrder(s.orders[i], delta)),
       gruLastAttack := (match s.gruLastAttack case None => None case Some(x) => Some(Shift(x, delta))),
       openedTick := Shift(s.openedTick, delta),
       gatherStart := Shift(s.gatherStart, delta))
  }

  /** The state after a snap to `toTick`; None when it is rejected, and then nothing is spent. */
  function Snapped(s: State, toTick: int, gratis: bool): Option<State> {
    if toTick <= s.tick || (!gratis && s.charges < SNAP_COST) then None
    else
      Some(Rebased(s, toTick - s.tick).(tick := toTick, charges := if gratis then s.charges else s.charges - SNAP_COST))
  }

  /** A snap is accepted if and only if it names a later tick and is waived or two charges are banked; it takes the
      clock exactly there and costs exactly that. */
  lemma SnapsIff(s: State, toTick: int, gratis: bool)
    ensures Snapped(s, toTick, gratis).Some? <==> s.tick < toTick && (gratis || s.charges >= 2)
    ensures Snapped(s, toTick, gratis).Some? ==>
              var s' := Snapped(s, toTick, gratis).value;
              s'.tick == toTick && s'.charges == (if gratis then s.charges else s.charges - 2) &&
              s' == Rebased(s, toTick - s.tick).(tick := s'.tick, charges := s'.charges)
  {
  }

  /** The state after waived snaps to these ticks, the rejected ones passed over. */
  function AfterSnaps(s: State, ticks: seq<int>): State {
    if ticks == [] then s
    else
      var before := AfterSnaps(s, ticks[..|ticks| - 1]);
      match Snapped(before, ticks[|ticks| - 1], true) case None => before case Some(after) => after
  }

  /** Whatever snaps are asked for, the clock ends at the latest tick among them, or where it was: it never goes
      back. */
  lemma {:induction false} ClockReachesTheLatest(s: State, ticks: seq<int>)
    ensures var t := AfterSnaps(s, ticks).tick;
            t >= s.tick && (t == s.tick || t in ticks) && forall i :: 0 <= i < |ticks| ==> ticks[i] <= t
  {
    hide Rebased;
    if ticks != [] {
      var n := |ticks| - 1;
      ClockReachesTheLatest(s, ticks[..n]);
      assert ticks == ticks[..n] + [ticks[n]];
    }
  }

  // ---- the shift in place ----

  method ShiftFields(xs: seq<int>, delta: int) returns (r: seq<int>)
    ensures r == ShiftAll(xs, delta)
  {
    r := xs;
    for i := 0 to |xs|
      invariant |r| == |xs|
      invariant forall j :: 0 <= j < i ==> r[j] == Shift(xs[j], delta)
      invariant forall j :: i <= j < |xs| ==> r[j] == xs[j]
    {
      if r[i] != 0 {
        r := r[i := r[i] + delta];
      }
    }
  }

  method RebaseAgent(a: Agent, delta: int) returns (r: Agent)
    ensures r == ShiftAgent(a, delta)
  {
    r := a.(idleSince := a.idleSince + delta);
    if r.lastTalk != 0 {
      r := r.(lastTalk := r.lastTalk + delta);
    }
    if r.lastGive != 0 {
      r := r.(lastGive := r.lastGive + delta);
    }
    var beliefs := a.beliefs;
    for j := 0 to |a.beliefs|
      invariant |beliefs| == |a.beliefs|
      invariant forall k :: 0 <= k < j ==> beliefs[k] == ShiftBelief(a.beliefs[k], delta)
      invariant forall k :: j <= k < |a.beliefs| ==> beliefs[k] == a.beliefs[k]
    {
      if beliefs[j].reinforced != 0 {
        beliefs := beliefs[j := beliefs[j].(reinforced := beliefs[j].reinforced + delta)];
      }
    }
    if a.intent.Some? && a.intent.value.workStart != 0 {
      r := r.(intent := Some(a.intent.value.(workStart := a.intent.value.workStart + delta)));
    }
    if a.hailUntil.Some? && a.hailUntil.value != 0 {
      r := r.(hailUntil := Some(a.hailUntil.value + delta));
    }
    var plan := a.plan;
    for j := 0 to |a.plan|
      invariant |plan| == |a.plan|
      invariant forall k :: 0 <= k < j ==> plan[k] == ShiftStep(a.plan[k], delta)
      invariant forall k :: j <= k < |a.plan| ==> plan[k] == a.plan[k]
    {
      var step := plan[j];
      if step.until != 0 {
        step := step.(until := step.until + delta);
      }
      if step.when.Some? && step.when.value.tick != 0 {
        step := step.(when := Some(step.when.value.(tick := step.when.value.tick + delta)));
      }
      plan := plan[j := step];
    }
    r := r.(beliefs := beliefs, plan := plan);
    assert r.beliefs == ShiftAgent(a, delta).beliefs;
    assert r.plan == ShiftAgent(a, delta).plan;
  }

  method RebasePiles(spoilAt: seq<seq<int>>, delta: int) returns (r: seq<seq<int>>)
    ensures |r| == |spoilAt| && forall i :: 0 <= i < |spoilAt| ==> r[i] == ShiftAll(spoilAt[i], delta)
  {
    r := spoilAt;
    for i := 0 to |spoilAt|
      invariant |r| == |spoilAt|
      invariant forall j :: 0 <= j < i ==> r[j] == ShiftAll(spoilAt[j], delta)
      invariant forall j :: i <= j < |spoilAt| ==> r[j] == spoilAt[j]
    {
      var food := ShiftFields(r[i], delta);
      r := r[i := food];
    }
  }

  method RebaseDebts(debts: seq<Debt>, delta: int) returns (r: seq<Debt>)
    ensures |r| == |debts| && forall i :: 0 <= i < |debts| ==> r[i] == ShiftDebt(debts[i], delta)
  {
    r := debts;
    for i := 0 to |debts|
      invariant |r| == |debts|
      invariant forall j :: 0 <= j < i ==> r[j] == ShiftDebt(debts[j], delta)
      invariant forall j :: i <= j < |debts| ==> r[j] == debts[j]
    {
      if r[i].due != 0 {
        r := r[i := r[i].(due := r[i].due + delta)];
      }
    }
  }

  method RebaseOrders(orders: seq<Order>, delta: int) returns (r: seq<Order>)
    ensures |r| == |orders| && forall i :: 0 <= i < |orders| ==> r[i] == ShiftOrder(orders[i], delta)
  {
    r := orders;
    for i := 0 to |orders|
      invariant |r| == |orders|
      invariant forall j :: 0 <= j < i ==> r[j] == ShiftOrder(orders[j], delta)
      invariant forall j :: i <= j < |orders| ==> r[j] == orders[j]
    {
      if r[i].active && r[i].expiresTick != 0 {
        r := r[i := r[i].(expiresTick := r[i].expiresTick + delta)];
      }
    }
  }

  class World {
    var s: State

    constructor (start: State)
      ensures s == start
    {
      s := start;
    }

    method RebaseTicks(delta: int)
      modifies this
      ensures s == Rebased(old(s), delta)
    {
      var agents := s.agents;
      for i := 0 to |s.agents|
        invariant s == old(s) && |agents| == |s.agents|
        invariant forall j :: 0 <= j < i ==> agents[j] == ShiftAgent(s.agents[j], delta)
        invariant forall j :: i <= j < |agents| ==> agents[j] == s.agents[j]
      {
        var a := RebaseAgent(agents[i], delta);
        agents := agents[i := a];
      }
      var fuelUntil := ShiftFields(s.fuelUntil, delta);
      var regrow := ShiftFields(s.regrow, delta);
      var denReady := ShiftFields(s.denReady, delta);
      var spoilAt := RebasePiles(s.spoilAt, delta);
      var debts := RebaseDebts(s.debts, delta);
      var orders := RebaseOrders(s.orders, delta);
      var gru := s.gruLastAttack;
      if gru.Some? && gru.value != 0 {
        gru := Some(gru.value + delta);
      }
      var openTick := if s.openedTick != 0 then s.openedTick + delta else s.openedTick;
      var gather := if s.gatherStart != 0 then s.gatherStart + delta else s.gatherStart;
      ghost var r := Rebased(s, delta);
      assert agents == r.agents && spoilAt == r.spoilAt && debts == r.debts && orders == r.orders;
      s := s.(agents := agents, fuelUntil := fuelUntil, regrow := regrow, denReady := denReady,
              spoilAt := spoilAt, debts := debts, orders := orders, gruLastAttack := gru,
              openedTick := openTick, gatherStart := gather);
    }

    method SpendSnap(gratis: bool) returns (ok: bool)
      modifies this
      ensures ok <==> gratis || old(s.charges) >= SNAP_COST
      ensures s == if ok && !gratis then old(s).(charges := old(s.charges) - SNAP_COST) else old(s)
    {
      if gratis {
        return true;
      }
      if s.charges < SNAP_COST {
        return false;
      }
      s := s.(charges := s.charges - SNAP_COST);
      return true;
    }

    method ApplyTimeSnapped(toTick: int, gratis: bool) returns (ok: bool)
      modifies this
      ensures ok <==> Snapped(old(s), toTick, gratis).Some?
      ensures s == if ok then Snapped(old(s), toTick, gratis).value else old(s)
    {
      if toTick <= s.tick {
        return false;
      }
      ok := SpendSnap(gratis);
      if !ok {
        return;
      }
      RebaseTicks(toTick - s.tick);
      s := s.(tick := toTick);
    }
  }

  // ---- who measures time ----

  predicate CanTalk(a: Agent, t: int) {
    a.lastTalk == 0 || t - a.lastTalk >= TALK_COOLDOWN
  }

  predicate CanGive(a: Agent, t: int) {
    a.foodRaw >= GIVE_KEEPS_AT_LEAST && (a.lastGive == 0 || t - a.lastGive >= GIVE_COOLDOWN)
  }

  predicate HailPaused(a: Agent, t: int) {
    a.hailUntil.Some? && t < a.hailUntil.value
  }

  predicate ReflexReady(a: Agent, t: int) {
    t - a.idleSince >= REFLEX_GRACE
  }

  /** Where the work at the target stands. */
  datatype Work = NoWork | NotStarted | Working | Finished

  function WorkAt(a: Agent, t: int): Work {
    match a.intent
    case None => NoWork
    case Some(w) =>
      if w.workStart == 0 then NotStarted else if t - w.workStart < w.duration then Working else Finished
  }

  predicate StepExpired(s: PlanStep, t: int) {
    s.until > 0 && t >= s.until
  }

  predicate GuardHolds(s: PlanStep, t: int) {
    match s.when
    case None => true
    case Some(g) =>
      match g.kind
      case AfterTick => t >= g.tick
      case BeforeTick => t < g.tick
      case Untimed => true
  }

  /** The age a belief's confidence decays by; None for one that never decays. */
  function BeliefAge(b: Belief, t: int): Option<int> {
    if b.reinforced == 0 then None else Some(if t <= b.reinforced then 0 else t - b.reinforced)
  }

  predicate Lit(fuelUntil: int, t: int) {
    t < fuelUntil
  }

  predicate GoesCold(fuelUntil: int, t: int) {
    t - 1 < fuelUntil <= t
  }

  /** Cold, or about to be: what the refuel reflex looks for. */
  predicate Dying(fuelUntil: int, t: int) {
    fuelUntil - t < REFUEL_DYING_BELOW
  }

  predicate Overdue(d: Debt, t: int) {
    d.open && t > d.due
  }

  predicate Expiring(o: Order, t: int) {
    o.active && t >= o.expiresTick
  }

  /** The whole days an active order still has. */
  function DaysLeft(o: Order, t: int): int {
    if !o.active || o.expiresTick < t then 0 else (o.expiresTick - t) / DAY
  }

  /** The gru's last attack is recent enough to be blamed. Before its first attack it is abroad only after the
      first nightfall, long past the window. */
  predicate GruBlamed(last: int, t: int) {
    t - last <= GRU_BLAMED_WITHIN
  }

  predicate GruReady(last: int, t: int) {
    last == 0 || t - last >= GRU_ATTACK_COOLDOWN
  }

  /** Time since an anchor; None while there is none. */
  function Elapsed(anchor: int, t: int): Option<int> {
    if anchor == 0 then None else Some(t - anchor)
  }

  /** The tick at which each answer about an agent turns: a talk two hours after the last, a gift one hour, the
      reflex two minutes after falling idle, work done when its duration is up, a pause, a plan step and a timed
      guard at their tick. */
  lemma AgentAnswersTurn(a: Agent, t: int, s: PlanStep, b: Belief)
    ensures CanTalk(a, t) <==> a.lastTalk == 0 || a.lastTalk + 7200 <= t
    ensures CanGive(a, t) <==> a.foodRaw > 1 && (a.lastGive == 0 || a.lastGive + 3600 <= t)
    ensures ReflexReady(a, t) <==> a.idleSince + 120 <= t
    ensures a.hailUntil.Some? ==> (HailPaused(a, t) <==> !(a.hailUntil.value <= t))
    ensures a.intent.Some? && a.intent.value.workStart != 0 ==>
              WorkAt(a, t) == if a.intent.value.workStart + a.intent.value.duration <= t then Finished else Working
    ensures a.intent.Some? && a.intent.value.workStart == 0 ==> WorkAt(a, t) == NotStarted
    ensures StepExpired(s, t) <==> 0 < s.until <= t
    ensures s.when == Some(Guard(AfterTick, t)) ==> GuardHolds(s, t) && !GuardHolds(s, t - 1)
    ensures s.when == Some(Guard(BeforeTick, t)) ==> !GuardHolds(s, t) && GuardHolds(s, t - 1)
    ensures s.when == None || s.when.value.kind == Untimed ==> GuardHolds(s, t)
    ensures b.reinforced != 0 && b.reinforced <= t ==> BeliefAge(b, t) == Some(t - b.reinforced)
    ensures b.reinforced != 0 && t < b.reinforced ==> BeliefAge(b, t) == Some(0)
  {
  }

  /** And about the village: a fire goes cold once, at the tick its fuel ends, and is dying for the hour before; a
      debt is overdue after its day, an order expires at its deadline and has no day left within the last; the gru
      strikes again after ten minutes and is blamed for an hour. */
  lemma WorldAnswersTurn(t: int, until: int, d: Debt, o: Order, last: int)
    ensures Lit(until, t) <==> !(until <= t)
    ensures GoesCold(until, t) <==> until == t
    ensures Dying(until, t) <==> until - 3600 < t
    ensures d.open ==> (Overdue(d, t) <==> d.due + 1 <= t)
    ensures o.active ==> (Expiring(o, t) <==> o.expiresTick <= t)
    ensures !d.open ==> !Overdue(d, t)
    ensures !o.active ==> !Expiring(o, t) && DaysLeft(o, t) == 0
    ensures o.active && t <= o.expiresTick ==> 0 <= o.expiresTick - t - 86400 * DaysLeft(o, t) < 86400
    ensures o.active && t > o.expiresTick ==> DaysLeft(o, t) == 0
    ensures last != 0 ==> (GruReady(last, t) <==> last + 600 <= t)
    ensures GruBlamed(last, t) <==> t <= last + 3600
    ensures last != 0 ==> Elapsed(last, t) == Some(t - last)
  {
  }

  // ---- who measures from a moved tick cannot tell ----

  /** Ticks are not negative. */
  predicate AgentTicks(a: Agent) {
    && a.idleSince >= 0 && a.lastTalk >= 0 && a.lastGive >= 0
    && (forall i :: 0 <= i < |a.beliefs| ==> a.beliefs[i].reinforced >= 0)
    && (a.intent.Some? ==> a.intent.value.workStart >= 0)
    && (a.hailUntil.Some? ==> a.hailUntil.value >= 0)
    && forall i :: 0 <= i < |a.plan| ==> StepTicks(a.plan[i])
  }

  predicate StepTicks(s: PlanStep) {
    s.until >= 0 && (s.when.Some? ==> s.when.value.tick >= 0)
  }

  predicate AllTicks(xs: seq<int>) {
    forall i :: 0 <= i < |xs| ==> xs[i] >= 0
  }

  predicate StateTicks(s: State) {
    && s.tick >= 0
    && (forall i :: 0 <= i < |s.agents| ==> AgentTicks(s.agents[i]))
    && AllTicks(s.fuelUntil) && AllTicks(s.regrow) && AllTicks(s.denReady)
    && (forall i :: 0 <= i < |s.spoilAt| ==> AllTicks(s.spoilAt[i]))
    && (forall i :: 0 <= i < |s.debts| ==> s.debts[i].due >= 0)
    && (forall i :: 0 <= i < |s.orders| ==> s.orders[i].expiresTick >= 0)
    && (s.gruLastAttack.Some? ==> s.gruLastAttack.value >= 0)
    && s.openedTick >= 0 && s.gatherStart >= 0
  }

  /** Every answer about agent `a` at `t` is the answer about `a'` at `t'`. */
  ghost predicate SameAgent(a: Agent, t: int, a': Agent, t': int) {
    && CanTalk(a', t') == CanTalk(a, t)
    && CanGive(a', t') == CanGive(a, t)
    && HailPaused(a', t') == HailPaused(a, t)
    && ReflexReady(a', t') == ReflexReady(a, t)
    && WorkAt(a', t') == WorkAt(a, t)
    && |a'.beliefs| == |a.beliefs| && |a'.plan| == |a.plan|
    && (forall i :: 0 <= i < |a.beliefs| ==>
          a'.beliefs[i].confidence == a.beliefs[i].confidence &&
          BeliefAge(a'.beliefs[i], t') == BeliefAge(a.beliefs[i], t))
    && (forall i :: 0 <= i < |a.plan| ==>
          StepExpired(a'.plan[i], t') == StepExpired(a.plan[i], t) &&
          GuardHolds(a'.plan[i], t') == GuardHolds(a.plan[i], t))
  }

  /** Every answer about the rest of the state. */
  ghost predicate SameWorld(s: State, t: int, s': State, t': int) {
    && |s'.fuelUntil| == |s.fuelUntil| && |s'.regrow| == |s.regrow| && |s'.denReady| == |s.denReady|
    && |s'.spoilAt| == |s.spoilAt| && |s'.debts| == |s.debts| && |s'.orders| == |s.orders|
    && (forall i :: 0 <= i < |s.fuelUntil| ==>
          Lit(s'.fuelUntil[i], t') == Lit(s.fuelUntil[i], t) &&
          GoesCold(s'.fuelUntil[i], t') == GoesCold(s.fuelUntil[i], t) &&
          Dying(s'.fuelUntil[i], t') == Dying(s.fuelUntil[i], t))
    && (forall i :: 0 <= i < |s.regrow| ==> (s'.regrow[i] == t') == (s.regrow[i] == t))
    && (forall i :: 0 <= i < |s.denReady| ==> (t' < s'.denReady[i]) == (t < s.denReady[i]))
    && (forall i :: 0 <= i < |s.spoilAt| ==>
          |s'.spoilAt[i]| == |s.spoilAt[i]| &&
          forall j :: 0 <= j < |s.spoilAt[i]| ==> (s'.spoilAt[i][j] <= t') == (s.spoilAt[i][j] <= t))
    && (forall i :: 0 <= i < |s.debts| ==> Overdue(s'.debts[i], t') == Overdue(s.debts[i], t))
    && (forall i :: 0 <= i < |s.orders| ==>
          Expiring(s'.orders[i], t') == Expiring(s.orders[i], t) &&
          DaysLeft(s'.orders[i], t') == DaysLeft(s.orders[i], t))
    && s'.gruLastAttack.Some? == s.gruLastAttack.Some?
    && (s.gruLastAttack.Some? ==> GruReady(s'.gruLastAttack.value, t') == GruReady(s.gruLastAttack.value, t))
    && (s.gruLastAttack.Some? && (s.gruLastAttack.value != 0 || t > GRU_BLAMED_WITHIN) ==>
          GruBlamed(s'.gruLastAttack.value, t') == GruBlamed(s.gruLastAttack.value, t))
    && Elapsed(s'.openedTick, t') == Elapsed(s.openedTick, t)
    && Elapsed(s'.gatherStart, t') == Elapsed(s.gatherStart, t)
  }

  lemma AgentCannotTell(a: Agent, t: int, delta: int)
    requires AgentTicks(a) && t >= 1 && delta > 0
    ensures SameAgent(a, t, ShiftAgent(a, delta), t + delta)
  {
    var a' := ShiftAgent(a, delta);
    forall i | 0 <= i < |a.plan|
      ensures StepExpired(a'.plan[i], t + delta) == StepExpired(a.plan[i], t)
      ensures GuardHolds(a'.plan[i], t + delta) == GuardHolds(a.plan[i], t)
    {
      assert StepTicks(a.plan[i]) && a'.plan[i] == ShiftStep(a.plan[i], delta);
    }
  }

  /** To whoever measures from a deadline or an anchor the snap is invisible: each of these observers gives
      the same answer on the re-labelled state at the re-labelled tick, for every tick it may ask about. */
  lemma NobodyCanTell(s: State, t: int, delta: int)
    requires StateTicks(s) && t >= 1 && delta > 0
    ensures var s' := Rebased(s, delta);
            SameWorld(s, t, s', t + delta) && |s'.agents| == |s.agents| &&
            forall i :: 0 <= i < |s.agents| ==> SameAgent(s.agents[i], t, s'.agents[i], t + delta)
  {
    var s' := Rebased(s, delta);
    forall i | 0 <= i < |s.agents|
      ensures SameAgent(s.agents[i], t, s'.agents[i], t + delta)
    {
      AgentCannotTell(s.agents[i], t, delta);
    }
    forall i | 0 <= i < |s.spoilAt|
      ensures |s'.spoilAt[i]| == |s.spoilAt[i]|
      ensures forall j :: 0 <= j < |s.spoilAt[i]| ==> (s'.spoilAt[i][j] <= t + delta) == (s.spoilAt[i][j] <= t)
    {
      assert AllTicks(s.spoilAt[i]) && s'.spoilAt[i] == ShiftAll(s.spoilAt[i], delta);
    }
  }

  /** "Never" stays never and a set tick stays set and later; consumed orders, the day an order was
      placed, recorded violations, memories and the consolidation mark are history and do not move. */
  lemma SentinelsStay(s: State, delta: int)
    requires StateTicks(s) && delta > 0
    ensures var s' := Rebased(s, delta);
            StateTicks(s') && s'.violations == s.violations &&
            (s'.openedTick == 0 <==> s.openedTick == 0) && (s'.gatherStart == 0 <==> s.gatherStart == 0) &&
            (forall i :: 0 <= i < |s.agents| ==>
               (s'.agents[i].lastTalk == 0 <==> s.agents[i].lastTalk == 0) &&
               (s'.agents[i].lastGive == 0 <==> s.agents[i].lastGive == 0) &&
               s'.agents[i].memories == s.agents[i].memories &&
               s'.agents[i].consolidateMark == s.agents[i].consolidateMark) &&
            (forall i :: 0 <= i < |s.orders| ==>
               s'.orders[i].placedTick == s.orders[i].placedTick &&
               (!s.orders[i].active ==> s'.orders[i] == s.orders[i]))
  {
    var s' := Rebased(s, delta);
    forall i | 0 <= i < |s.agents|
      ensures AgentTicks(s'.agents[i])
    {
      AgentTicksShift(s.agents[i], delta);
    }
    forall i | 0 <= i < |s.spoilAt|
      ensures AllTicks(s'.spoilAt[i])
    {
      assert AllTicks(s.spoilAt[i]);
    }
  }

  lemma AgentTicksShift(a: Agent, delta: int)
    requires AgentTicks(a) && delta > 0
    ensures AgentTicks(ShiftAgent(a, delta))
  {
    var a' := ShiftAgent(a, delta);
    forall i | 0 <= i < |a.plan|
      ensures StepTicks(a'.plan[i])
    {
      assert StepTicks(a.plan[i]);
    }
  }

  // ---- two snaps are one ----

  lemma ShiftAllTwice(xs: seq<int>, d: int, e: int)
    requires AllTicks(xs) && d > 0 && e > 0
    ensures ShiftAll(ShiftAll(xs, d), e) == ShiftAll(xs, d + e)
  {
  }

  lemma ShiftAgentTwice(a: Agent, d: int, e: int)
    requires AgentTicks(a) && d > 0 && e > 0
    ensures ShiftAgent(ShiftAgent(a, d), e) == ShiftAgent(a, d + e)
  {
    var once, twice, whole := ShiftAgent(a, d), ShiftAgent(ShiftAgent(a, d), e), ShiftAgent(a, d + e);
    assert twice.beliefs == whole.beliefs;
    forall i | 0 <= i < |a.plan|
      ensures twice.plan[i] == whole.plan[i]
    {
      assert StepTicks(a.plan[i]);
      assert twice.plan[i] == ShiftStep(ShiftStep(a.plan[i], d), e);
    }
    assert twice.plan == whole.plan;
  }

  /** Two snaps in a row leave the state one snap over the whole distance leaves. */
  lemma SnapsCompose(s: State, d: int, e: int)
    requires StateTicks(s) && d > 0 && e > 0
    ensures Rebased(Rebased(s, d), e) == Rebased(s, d + e)
  {
    var twice, whole := Rebased(Rebased(s, d), e), Rebased(s, d + e);
    forall i | 0 <= i < |s.agents|
      ensures twice.agents[i] == whole.agents[i]
    {
      ShiftAgentTwice(s.agents[i], d, e);
    }
    forall i | 0 <= i < |s.spoilAt|
      ensures twice.spoilAt[i] == whole.spoilAt[i]
    {
      ShiftAllTwice(s.spoilAt[i], d, e);
    }
    assert twice.agents == whole.agents && twice.spoilAt == whole.spoilAt;
    ShiftAllTwice(s.fuelUntil, d, e);
    ShiftAllTwice(s.regrow, d, e);
    ShiftAllTwice(s.denReady, d, e);
    assert twice.debts == whole.debts && twice.orders == whole.orders;
  }

  // ---- who measures from history can tell ----

  /** The working-memory score of an agent's `j`-th memory. */
  function ScoreAt(a: Agent, j: nat, t: int): real
    requires j < |a.memories|
  {
    M.Score(a.memories[j].memory, t)
  }

  predicate ConsolidationGapOver(a: Agent, t: int) {
    a.consolidateMark == 0 || t - a.consolidateMark >= CONSOLIDATION_GAP
  }

  predicate Since(at: Option<int>, tick: int) {
    at.Some? && at.value >= tick
  }

  predicate AnySince<T>(history: seq<T>, at: T -> Option<int>, tick: int) {
    exists i :: 0 <= i < |history| && Since(at(history[i]), tick)
  }

  function CaughtAt(agent: int): Violation -> Option<int> {
    (v: Violation) => if v.agent == agent then Some(v.tick) else None
  }

  function GruSeenAt(): Remembered -> Option<int> {
    (r: Remembered) => if r.ofGru then Some(r.memory.tick) else None
  }

  /** violatedSince, as the exile watch asks it: caught within the last hour. */
  predicate ShunLatched(s: State, agent: int, t: int) {
    AnySince(s.violations, CaughtAt(agent), t - EXILE_SHUN_LATCH)
  }

  /** A memory of the gru no older than three days: fodder for a curfew proposal. */
  predicate GruFodder(a: Agent, t: int) {
    AnySince(a.memories, GruSeenAt(), t - GRU_FODDER_WINDOW)
  }

  /** Who looks back, and how far: the exile watch an hour, over the villager's own violations; a curfew's proposer
      three days, over its memories of the gru; the consolidation half a day. */
  lemma LooksBack(s: State, agent: int, a: Agent, t: int)
    ensures ShunLatched(s, agent, t) <==> exists v :: v in s.violations && v.agent == agent && v.tick + 3600 >= t
    ensures GruFodder(a, t) <==> exists r :: r in a.memories && r.ofGru && r.memory.tick + 259200 >= t
    ensures ConsolidationGapOver(a, t) <==> a.consolidateMark == 0 || a.consolidateMark + 43200 <= t
  {
    if i :| 0 <= i < |s.violations| && Since(CaughtAt(agent)(s.violations[i]), t - EXILE_SHUN_LATCH) {
      assert s.violations[i] in s.violations;
    }
    if v :| v in s.violations && v.agent == agent && v.tick + 3600 >= t {
      var i :| 0 <= i < |s.violations| && s.violations[i] == v;
      assert Since(CaughtAt(agent)(s.violations[i]), t - EXILE_SHUN_LATCH);
    }
    if i :| 0 <= i < |a.memories| && Since(GruSeenAt()(a.memories[i]), t - GRU_FODDER_WINDOW) {
      assert a.memories[i] in a.memories;
    }
    if r :| r in a.memories && r.ofGru && r.memory.tick + 259200 >= t {
      var i :| 0 <= i < |a.memories| && a.memories[i] == r;
      assert Since(GruSeenAt()(a.memories[i]), t - GRU_FODDER_WINDOW);
    }
  }

  // Each notices a snap that is longer than the time its answer still had.

  function Latest<T>(history: seq<T>, at: T -> Option<int>): Option<int> {
    if history == [] then None
    else
      var earlier, last := Latest(history[..|history| - 1], at), at(history[|history| - 1]);
      if last.Some? && (earlier.None? || earlier.value < last.value) then last else earlier
  }

  lemma {:induction false} AnySinceIffLatest<T>(history: seq<T>, at: T -> Option<int>, tick: int)
    ensures AnySince(history, at, tick) <==> Since(Latest(history, at), tick)
  {
    if history != [] {
      var n := |history| - 1;
      AnySinceIffLatest(history[..n], at, tick);
      if i :| 0 <= i < n && Since(at(history[..n][i]), tick) {
        assert Since(at(history[i]), tick);
      }
      assert Since(at(history[n]), tick) ==> AnySince(history, at, tick);
    }
  }

  /** How long the newest entry stays within the window; negative when it no longer is, or there is none. */
  function WindowLeft<T>(history: seq<T>, at: T -> Option<int>, window: nat, t: int): int {
    match Latest(history, at)
    case None => -1
    case Some(tick) => tick + window - t
  }

  /** A look back over a window of history answers as before a snap if and only if nothing was in the window
      any more, or its newest entry has the whole snap to spare. */
  lemma WindowNoticesIff<T>(history: seq<T>, at: T -> Option<int>, window: nat, t: int, delta: int)
    requires delta > 0
    ensures AnySince(history, at, t + delta - window) == AnySince(history, at, t - window) <==>
              WindowLeft(history, at, window, t) < 0 || delta <= WindowLeft(history, at, window, t)
  {
    AnySinceIffLatest(history, at, t + delta - window);
    AnySinceIffLatest(history, at, t - window);
  }

  function LatchLeft(s: State, agent: int, t: int): int {
    WindowLeft(s.violations, CaughtAt(agent), EXILE_SHUN_LATCH, t)
  }

  /** The exile watch's one-hour latch answers as before if and only if it had run out, or still has the whole
      snap to run. */
  lemma LatchNoticesSnapIff(s: State, agent: int, t: int, delta: int)
    requires delta > 0
    ensures ShunLatched(Rebased(s, delta), agent, t + delta) == ShunLatched(s, agent, t) <==>
              LatchLeft(s, agent, t) < 0 || delta <= LatchLeft(s, agent, t)
  {
    WindowNoticesIff(s.violations, CaughtAt(agent), EXILE_SHUN_LATCH, t, delta);
  }

  function FodderLeft(a: Agent, t: int): int {
    WindowLeft(a.memories, GruSeenAt(), GRU_FODDER_WINDOW, t)
  }

  /** The three-day look back for the gru answers as before if and only if its newest memory had left the
      window, or stays in it for the whole snap. */
  lemma FodderNoticesSnapIff(a: Agent, t: int, delta: int)
    requires delta > 0
    ensures GruFodder(ShiftAgent(a, delta), t + delta) == GruFodder(a, t) <==>
              FodderLeft(a, t) < 0 || delta <= FodderLeft(a, t)
  {
    WindowNoticesIff(a.memories, GruSeenAt(), GRU_FODDER_WINDOW, t, delta);
  }

  /** What is left of the gap between two consolidations. */
  function GapLeft(a: Agent, t: int): int {
    if a.consolidateMark == 0 then 0 else CONSOLIDATION_GAP - (t - a.consolidateMark)
  }

  /** The consolidation gap answers as before if and only if it was over, or is still not over after the
      snap. */
  lemma GapNoticesSnapIff(a: Agent, t: int, delta: int)
    requires delta > 0
    ensures ConsolidationGapOver(ShiftAgent(a, delta), t + delta) == ConsolidationGapOver(a, t) <==>
              GapLeft(a, t) <= 0 || delta < GapLeft(a, t)
  {
  }

  /** The time until a memory turns a whole day older. */
  function DayLeft(m: M.Memory, t: int): int {
    DAY - (if t < m.tick then t - m.tick else (t - m.tick) % DAY)
  }

  lemma {:induction false} HalvedTells(w: real, a: nat, b: nat)
    requires a <= b
    ensures M.Halved(w, a) == M.Halved(w, b) <==> w == 0.0 || a == b
    ensures (w > 0.0 ==> 0.0 < M.Halved(w, b) <= M.Halved(w, a)) && (w < 0.0 ==> M.Halved(w, a) <= M.Halved(w, b) < 0.0)
    ensures w == 0.0 ==> M.Halved(w, a) == M.Halved(w, b) == 0.0
  {
    if a < b {
      HalvedTells(w, a, b - 1);
    } else if a > 0 {
      HalvedTells(w, a - 1, b - 1);
    }
  }

  lemma WholeDays(m: M.Memory, t: int, delta: int)
    requires delta > 0
    ensures M.Age(m, t) / DAY <= M.Age(m, t + delta) / DAY
    ensures M.Age(m, t) / DAY == M.Age(m, t + delta) / DAY <==> delta < DayLeft(m, t)
  {
    var age := M.Age(m, t);
    var days := age / DAY;
    assert days * DAY <= age < (days + 1) * DAY;
    assert DAY * (M.Age(m, t + delta) / DAY) <= M.Age(m, t + delta) < DAY * (M.Age(m, t + delta) / DAY) + DAY;
  }

  /** The score of a memory is as before if and only if there is nothing to halve, or the memory turns no
      whole day older within the snap. */
  lemma ScoreNoticesSnapIff(a: Agent, j: nat, t: int, delta: int)
    requires j < |a.memories| && delta > 0
    ensures ScoreAt(ShiftAgent(a, delta), j, t + delta) == ScoreAt(a, j, t) <==>
              a.memories[j].memory.salience == 0 || delta < DayLeft(a.memories[j].memory, t)
  {
    var m := a.memories[j].memory;
    WholeDays(m, t, delta);
    HalvedTells(m.salience as real, M.Age(m, t) / DAY, M.Age(m, t + delta) / DAY);
  }

  // ---- everyone together ----

  /** Every answer drawn from history is as before. */
  ghost predicate SameHistory(s: State, t: int, s': State, t': int)
    requires |s'.agents| == |s.agents|
  {
    && (forall agent :: ShunLatched(s', agent, t') == ShunLatched(s, agent, t))
    && forall i :: 0 <= i < |s.agents| ==> SamePast(s.agents[i], t, s'.agents[i], t')
  }

  ghost predicate SamePast(a: Agent, t: int, a': Agent, t': int) {
    && GruFodder(a', t') == GruFodder(a, t)
    && ConsolidationGapOver(a', t') == ConsolidationGapOver(a, t)
    && |a'.memories| == |a.memories|
    && forall j :: 0 <= j < |a.memories| ==> ScoreAt(a', j, t') == ScoreAt(a, j, t)
  }

  /** The snap is shorter than what each of the agent's answers still has. */
  predicate PastOutlasts(a: Agent, t: int, delta: int) {
    && (FodderLeft(a, t) < 0 || delta <= FodderLeft(a, t))
    && (GapLeft(a, t) <= 0 || delta < GapLeft(a, t))
    && forall j :: 0 <= j < |a.memories| ==>
         a.memories[j].memory.salience == 0 || delta < DayLeft(a.memories[j].memory, t)
  }

  lemma PastNoticesIff(a: Agent, t: int, delta: int)
    requires delta > 0
    ensures SamePast(a, t, ShiftAgent(a, delta), t + delta) <==> PastOutlasts(a, t, delta)
  {
    hide GruFodder, ConsolidationGapOver, ScoreAt, FodderLeft, GapLeft, DayLeft;
    FodderNoticesSnapIff(a, t, delta);
    GapNoticesSnapIff(a, t, delta);
    forall j | 0 <= j < |a.memories|
      ensures ScoreAt(ShiftAgent(a, delta), j, t + delta) == ScoreAt(a, j, t) <==>
                a.memories[j].memory.salience == 0 || delta < DayLeft(a.memories[j].memory, t)
    {
      ScoreNoticesSnapIff(a, j, t, delta);
    }
  }

  /** A snap goes unnoticed by everyone, those who look at history included, if and only if no memory turns a
      whole day older in it, no memory of the gru leaves the three-day window, no consolidation gap runs out
      and no latch does. */
  lemma UnnoticedIff(s: State, t: int, delta: int)
    requires StateTicks(s) && t >= 1 && delta > 0
    ensures var s' := Rebased(s, delta);
            (SameWorld(s, t, s', t + delta) && |s'.agents| == |s.agents| &&
             (forall i :: 0 <= i < |s.agents| ==> SameAgent(s.agents[i], t, s'.agents[i], t + delta)) &&
             SameHistory(s, t, s', t + delta)) <==>
            (forall agent :: LatchLeft(s, agent, t) < 0 || delta <= LatchLeft(s, agent, t)) &&
                 forall i :: 0 <= i < |s.agents| ==> PastOutlasts(s.agents[i], t, delta)
  {
    hide SameWorld, SameAgent, SamePast, PastOutlasts, ShunLatched, LatchLeft;
    var s' := Rebased(s, delta);
    NobodyCanTell(s, t, delta);
    forall agent
      ensures ShunLatched(s', agent, t + delta) == ShunLatched(s, agent, t) <==>
                LatchLeft(s, agent, t) < 0 || delta <= LatchLeft(s, agent, t)
    {
      LatchNoticesSnapIff(s, agent, t, delta);
    }
    forall i | 0 <= i < |s.agents|
      ensures SamePast(s.agents[i], t, s'.agents[i], t + delta) <==> PastOutlasts(s.agents[i], t, delta)
    {
      PastNoticesIff(s.agents[i], t, delta);
    }
  }

  const SOMEBODY := Agent(0, 0, 0, 0, [], None, None, [], [], 0)
  const SOMEWHERE := State(0, 0, [], [], [], [], [], [], [], None, 0, 0, [])

  /** Caught just now, forgotten after a two-hour snap. */
  lemma LatchForgets()
    ensures var s := SOMEWHERE.(tick := 10000, violations := [Violation(0, 10000)]);
            ShunLatched(s, 0, 10001) && !ShunLatched(Rebased(s, 7200), 0, 10001 + 7200)
  {
    var s := SOMEWHERE.(tick := 10000, violations := [Violation(0, 10000)]);
    assert Since(CaughtAt(0)(s.violations[0]), 10001 - EXILE_SHUN_LATCH);
  }

  /** A snap of a single tick halves a memory that is almost a day old. */
  lemma MemoryFades()
    ensures var a := SOMEBODY.(memories := [Remembered(M.Memory(8, 0), false)]);
            ScoreAt(a, 0, 86399) == 8.0 && ScoreAt(ShiftAgent(a, 1), 0, 86399 + 1) == 4.0
  {
  }

  /** The gru of yesterday is no fodder after a snap of three days. */
  lemma GruForgotten()
    ensures var a := SOMEBODY.(memories := [Remembered(M.Memory(5, 1000), true)]);
            GruFodder(a, 1000 + DAY) && !GruFodder(ShiftAgent(a, 3 * DAY), 1000 + 4 * DAY)
  {
    var a := SOMEBODY.(memories := [Remembered(M.Memory(5, 1000), true)]);
    assert Since(GruSeenAt()(a.memories[0]), 1000 + DAY - GRU_FODDER_WINDOW);
  }

  /** A snap of twelve hours opens the gap for a second consolidation. */
  lemma GapOpens()
    ensures var a := SOMEBODY.(consolidateMark := 1000);
            !ConsolidationGapOver(a, 2000) && ConsolidationGapOver(ShiftAgent(a, 43200), 2000 + 43200)
  {
  }
}
