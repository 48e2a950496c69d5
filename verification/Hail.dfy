/** The hail protocol (internal/sim/hail.go): a talk_to landing pauses its target until the hailer
    arrives or a fixed window closes. The village is reduced to what the protocol reads.

    A paused agent waits for the agent that hailed it. The graph of these waits must stay free of
    cycles, or a group of agents would stand frozen waiting for one another.
  */
module HailProtocol {

  const HAIL_RADIUS := 64
  const HAIL_WINDOW_TICKS := 480

  datatype Option<T> = None | Some(value: T)

  datatype Hail = Hail(hailer: int, until: int)

  datatype Agent = Agent(
    x: int, y: int, dead: bool, asleep: bool, exiled: bool,
    attending: bool,             // its intent is attend_meeting
    generation: int, hail: Option<Hail>)

  datatype State = State(tick: int, meeting: bool, agents: seq<Agent>) {
    predicate Has(i: int) {
      0 <= i < |agents|
    }
    predicate Hailed(i: int) {
      Has(i) && agents[i].hail.Some?
    }
    predicate WaitsOn(i: int, hailer: int) {
      Hailed(i) && agents[i].hail.value.hailer == hailer
    }
  }

  function Abs(v: int): nat {
    if v < 0 then -v else v
  }

  function Distance(a: Agent, b: Agent): nat {
    Abs(a.x - b.x) + Abs(a.y - b.y)
  }

  predicate HailPaused(a: Agent, tick: int) {
    a.hail.Some? && tick < a.hail.value.until
  }

  predicate AttendCandidate(a: Agent) {
    !a.dead && !a.asleep && !a.exiled
  }

  /** Who a landing may flag down. */
  predicate Hailable(s: State, hailer: int, target: int)
    requires s.Has(hailer)
  {
    && s.Has(target) && target != hailer
    && !s.agents[target].dead && !s.agents[target].asleep
    && s.agents[target].hail.None?
    && (forall k :: 0 <= k < |s.agents| ==> !s.WaitsOn(k, target))
    && !s.agents[target].attending
    && !(s.meeting && AttendCandidate(s.agents[target]))
    && Distance(s.agents[hailer], s.agents[target]) <= HAIL_RADIUS
  }

  // ---- events ----

  datatype Event =
    | Hailed(from: int, to: int, until: int)
    | Met(from: int, to: int)
    | Expired(from: int, to: int)
    | Slept(agent: int)
    | Woke(agent: int)
    | Died(agent: int)
    | Moved(agent: int, x: int, y: int)
    | IntentSet(agent: int, attending: bool)
    | ExileSet(agent: int, exiled: bool)
    | GenerationBumped(agent: int)
    | MeetingSet(active: bool)

  function With(s: State, i: int, a: Agent): State
    requires s.Has(i)
  {
    s.(agents := s.agents[i := a])
  }

  function Subject(e: Event): Option<int> {
    match e
    case Hailed(_, to, _) => Some(to)
    case Met(_, to) => Some(to)
    case Expired(_, to) => Some(to)
    case MeetingSet(_) => None
    case _ => Some(e.agent)
  }

  /** What one event leaves of the agent it is about. */
  function Changed(a: Agent, e: Event): Agent {
    match e
    case Hailed(from, _, until) => a.(hail := Some(Hail(from, until)))
    case Met(_, _) => a.(hail := None)
    case Expired(_, _) => a.(hail := None)
    case Slept(_) => a.(asleep := true, attending := false, hail := None)
    case Woke(_) => a.(asleep := false)
    case Died(_) => a.(dead := true, asleep := false, attending := false, hail := None)
    case Moved(_, x, y) => a.(x := x, y := y)
    case IntentSet(_, attending) => a.(attending := attending)
    case ExileSet(_, exiled) => a.(exiled := exiled)
    case GenerationBumped(_) => a.(generation := a.generation + 1)
    case MeetingSet(_) => a
  }

  /** The reducer; an event about an agent that does not exist is refused and changes nothing. */
  function Apply(s: State, e: Event): (s': State)
    ensures s'.tick == s.tick && |s'.agents| == |s.agents|
  {
    match Subject(e)
    case None => if e.MeetingSet? then s.(meeting := e.active) else s
    case Some(i) => if s.Has(i) then With(s, i, Changed(s.agents[i], e)) else s
  }

  function Fold(s: State, es: seq<Event>): (s': State)
    ensures s'.tick == s.tick && |s'.agents| == |s.agents|
  {
    if es == [] then s else Apply(Fold(s, es[..|es| - 1]), es[|es| - 1])
  }

  // ---- the sweep ----

  predicate HailerArrived(s: State, i: int)
    requires s.Hailed(i)
  {
    var hailer := s.agents[i].hail.value.hailer;
    && s.Has(hailer) && !s.agents[hailer].dead && !s.agents[hailer].asleep
    && Distance(s.agents[hailer], s.agents[i]) <= 1
  }

  /** The one event that ends agent `i`'s pause at `next`, if any: meeting wins over expiry. */
  function Resolution(s: State, i: int, next: int): seq<Event> {
    if !s.Hailed(i) then []
    else
      var h := s.agents[i].hail.value;
      if HailerArrived(s, i) then [Met(h.hailer, i)]
      else if next >= h.until then [Expired(h.hailer, i)]
      else []
  }

  function Sweep(s: State, next: int, n: nat): seq<Event> {
    if n == 0 then [] else Sweep(s, next, n - 1) + Resolution(s, n - 1, next)
  }

  function SweepAll(s: State, next: int): seq<Event> {
    Sweep(s, next, |s.agents|)
  }

  method HailStep(s: State, nextTick: int) returns (events: seq<Event>)
    ensures events == SweepAll(s, nextTick)
  {
    events := [];
    for i := 0 to |s.agents|
      invariant events == Sweep(s, nextTick, i)
    {
      var a := s.agents[i];
      if a.hail.Some? {
        var hailer := a.hail.value.hailer;
        var met := false;
        if hailer >= 0 && hailer < |s.agents| {
          var h := s.agents[hailer];
          met := !h.dead && !h.asleep && Distance(h, a) <= 1;
        }
        if met {
          events := events + [Met(hailer, i)];
        } else if nextTick >= a.hail.value.until {
          events := events + [Expired(hailer, i)];
        }
      }
    }
  }

  predicate Lifts(e: Event) {
    e.Met? || e.Expired?
  }

  /** The sweep ends exactly the pauses whose hailer stands beside them or whose window has closed,
      and a pause that could end either way ends as a meeting. */
  lemma {:induction false} SweepEndsExactly(s: State, next: int, n: nat, e: Event)
    requires n <= |s.agents|
    ensures e in Sweep(s, next, n) <==>
              Lifts(e) && 0 <= e.to < n && s.WaitsOn(e.to, e.from) &&
              (if e.Met? then HailerArrived(s, e.to)
               else !HailerArrived(s, e.to) && next >= s.agents[e.to].hail.value.until)
  {
    if n > 0 {
      SweepEndsExactly(s, next, n - 1, e);
    }
  }

  // ---- the wait graph ----

  /** Everyone in `group` is paused, and waits for someone in `group`. */
  ghost predicate Frozen(s: State, group: set<int>) {
    forall i :: i in group ==> s.Hailed(i) && s.agents[i].hail.value.hailer in group
  }

  ghost predicate NoMutualFreeze(s: State) {
    forall group {:trigger Frozen(s, group)} :: Frozen(s, group) ==> group == {}
  }

  /** The agent reached from `i` after `k` steps along the waits. */
  function Waited(s: State, i: int, k: nat): int
    decreases k
  {
    if k == 0 || !s.Hailed(i) then i else Waited(s, s.agents[i].hail.value.hailer, k - 1)
  }

  /** However far the chain of waits from `i` is followed, it only meets paused agents. */
  ghost predicate WaitsForever(s: State, i: int) {
    forall k: nat :: s.Hailed(Waited(s, i, k))
  }

  lemma WaitIsPassedOn(s: State, i: int)
    requires WaitsForever(s, i)
    ensures s.Hailed(i) && WaitsForever(s, s.agents[i].hail.value.hailer)
  {
    assert s.Hailed(Waited(s, i, 0));
    forall k: nat
      ensures s.Hailed(Waited(s, s.agents[i].hail.value.hailer, k))
    {
      assert s.Hailed(Waited(s, i, k + 1));
    }
  }

  /** Without a frozen group, every chain of waits ends at someone who is free to move. */
  lemma EveryWaitEnds(s: State, i: int)
    requires NoMutualFreeze(s)
    ensures !WaitsForever(s, i)
  {
    if WaitsForever(s, i) {
      var group := set j | 0 <= j < |s.agents| && WaitsForever(s, j);
      forall j | j in group
        ensures s.Hailed(j) && s.agents[j].hail.value.hailer in group
      {
        WaitIsPassedOn(s, j);
        WaitIsPassedOn(s, s.agents[j].hail.value.hailer);
      }
      WaitIsPassedOn(s, i);
      assert Frozen(s, group);
    }
  }

  /** Pauses are only lifted from `s` to `s'`, never added or changed. */
  predicate Shrinks(s: State, s': State) {
    |s'.agents| == |s.agents| &&
    forall i :: 0 <= i < |s.agents| ==> s'.agents[i].hail == s.agents[i].hail || s'.agents[i].hail == None
  }

  lemma ShrinkingFreezesNobody(s: State, s': State)
    requires NoMutualFreeze(s) && Shrinks(s, s')
    ensures NoMutualFreeze(s')
  {
    forall group | Frozen(s', group)
      ensures group == {}
    {
      assert Frozen(s, group);
    }
  }

  /** One hail of a hailable target freezes nobody: the target was waited for by no one. */
  lemma HailFreezesNobody(s: State, from: int, to: int, until: int)
    requires s.Has(from) && Hailable(s, from, to) && NoMutualFreeze(s)
    ensures NoMutualFreeze(Apply(s, Hailed(from, to, until)))
  {
    var s' := Apply(s, Hailed(from, to, until));
    forall group | Frozen(s', group)
      ensures group == {}
    {
      var others := group - {to};
      forall i | i in others
        ensures s.Hailed(i) && s.agents[i].hail.value.hailer in others
      {
        assert s'.agents[i] == s.agents[i];
        assert !s.WaitsOn(i, to);
      }
      assert Frozen(s, others);
      assert to in group ==> from in others;
    }
  }

  // ---- a tick ----

  /** A plan step of `from` fires a hail at `to`, judged on the state before the tick. */
  predicate PlanFires(s: State, from: int, to: int, next: int) {
    && s.Has(from) && !s.agents[from].dead && !s.agents[from].asleep
    && !HailPaused(s.agents[from], next)
    && Hailable(s, from, to)
  }

  /** An event of the tick that is neither part of the sweep nor a hail. */
  predicate Plain(e: Event) {
    !Lifts(e) && !e.Hailed?
  }

  predicate AllPlain(es: seq<Event>) {
    forall i :: 0 <= i < |es| ==> Plain(es[i])
  }

  predicate FromTick(s: State, e: Event, next: int) {
    Plain(e) || (e.Hailed? && PlanFires(s, e.from, e.to, next) && e.until == next + HAIL_WINDOW_TICKS)
  }

  predicate AllFromTick(s: State, es: seq<Event>, next: int) {
    forall i :: 0 <= i < |es| ==> FromTick(s, es[i], next)
  }

  /** A tick applies what comes before the sweep, the sweep, then the agents' own events, all of them
      computed on the state `s` before the tick. */
  function Tick(s: State, pre: seq<Event>, post: seq<Event>): State {
    var next := s.tick + 1;
    Fold(Fold(Fold(s.(tick := next), pre), SweepAll(s, next)), post)
  }

  lemma {:induction false} QuietFoldShrinks(s: State, es: seq<Event>)
    requires forall i :: 0 <= i < |es| ==> !es[i].Hailed?
    ensures Shrinks(s, Fold(s, es))
  {
    hide Apply, Clears;
    if es != [] {
      var before, e := Fold(s, es[..|es| - 1]), es[|es| - 1];
      QuietFoldShrinks(s, es[..|es| - 1]);
      forall i | 0 <= i < |s.agents|
        ensures Apply(before, e).agents[i].hail == before.agents[i].hail || Apply(before, e).agents[i].hail == None
      {
        HailAfterEvent(before, e, i);
      }
    }
  }

  lemma {:induction false} LiftedByFold(s: State, es: seq<Event>, e: Event)
    requires (forall i :: 0 <= i < |es| ==> Lifts(es[i])) && e in es
    ensures Lifts(e) && (s.Has(e.to) ==> Fold(s, es).agents[e.to].hail == None)
  {
    var last := es[|es| - 1];
    if last != e {
      LiftedByFold(s, es[..|es| - 1], e);
    }
  }

  lemma {:induction false} SweepLifts(s: State, next: int, n: nat)
    requires n <= |s.agents|
    ensures forall i :: 0 <= i < |Sweep(s, next, n)| ==> Lifts(Sweep(s, next, n)[i])
  {
    if n > 0 {
      SweepLifts(s, next, n - 1);
    }
  }

  /** Agent `i` after the sweep of the tick to `next`: unpaused, or still in the pause it was in with
      time left, or freshly hailed by a plan step while it was in no pause. */
  predicate TickedHail(s: State, i: int, h: Option<Hail>, next: int)
    requires s.Has(i)
  {
    h == None
    || (h == s.agents[i].hail && next < h.value.until)
    || (s.agents[i].hail == None && h.value.until == next + HAIL_WINDOW_TICKS && PlanFires(s, h.value.hailer, i, next))
  }

  ghost predicate Ticked(s: State, s': State, next: int) {
    |s'.agents| == |s.agents| &&
    forall i :: 0 <= i < |s.agents| ==> TickedHail(s, i, s'.agents[i].hail, next)
  }

  lemma SweptShrinks(s: State, pre: seq<Event>)
    requires AllPlain(pre)
    ensures Shrinks(s, Fold(Fold(s.(tick := s.tick + 1), pre), SweepAll(s, s.tick + 1)))
  {
    var next := s.tick + 1;
    forall k | 0 <= k < |pre|
      ensures !pre[k].Hailed?
    {
      assert Plain(pre[k]);
    }
    QuietFoldShrinks(s.(tick := next), pre);
    SweepLifts(s, next, |s.agents|);
    QuietFoldShrinks(Fold(s.(tick := next), pre), SweepAll(s, next));
  }

  lemma SweepTicks(s: State, pre: seq<Event>)
    requires AllPlain(pre)
    ensures var next := s.tick + 1;
            Ticked(s, Fold(Fold(s.(tick := next), pre), SweepAll(s, next)), next)
  {
    var next := s.tick + 1;
    var before := Fold(s.(tick := next), pre);
    var after := Fold(before, SweepAll(s, next));
    SweptShrinks(s, pre);
    SweepLifts(s, next, |s.agents|);
    forall i | 0 <= i < |s.agents|
      ensures TickedHail(s, i, after.agents[i].hail, next)
    {
      if s.Hailed(i) && s.agents[i].hail.value.until <= next {
        var h := s.agents[i].hail.value;
        var e := if HailerArrived(s, i) then Met(h.hailer, i) else Expired(h.hailer, i);
        SweepEndsExactly(s, next, |s.agents|, e);
        LiftedByFold(before, SweepAll(s, next), e);
      }
    }
  }

  lemma {:induction false} PostTicks(s: State, s': State, post: seq<Event>, next: int)
    requires Ticked(s, s', next) && AllFromTick(s, post, next)
    ensures Ticked(s, Fold(s', post), next)
  {
    if post != [] {
      var earlier, e := post[..|post| - 1], post[|post| - 1];
      forall i | 0 <= i < |earlier|
        ensures FromTick(s, earlier[i], next)
      {
        assert FromTick(s, post[i], next);
      }
      PostTicks(s, s', earlier, next);
      assert FromTick(s, e, next);
    }
  }

  lemma TickTicks(s: State, pre: seq<Event>, post: seq<Event>)
    requires AllPlain(pre) && AllFromTick(s, post, s.tick + 1)
    ensures Ticked(s, Tick(s, pre, post), s.tick + 1)
  {
    SweepTicks(s, pre);
    PostTicks(s, Fold(Fold(s.(tick := s.tick + 1), pre), SweepAll(s, s.tick + 1)), post, s.tick + 1);
  }

  lemma OldPauseWaitsOnOldPause(s: State, s': State, i: int, next: int)
    requires Ticked(s, s', next) && s.Hailed(i) && s'.Hailed(i)
    ensures s'.agents[i].hail == s.agents[i].hail
    ensures s'.Hailed(s'.agents[i].hail.value.hailer) ==> s.Hailed(s.agents[i].hail.value.hailer)
  {
    assert TickedHail(s, i, s'.agents[i].hail, next);
    var hailer := s.agents[i].hail.value.hailer;
    assert s.WaitsOn(i, hailer);
    if s.Has(hailer) {
      assert TickedHail(s, hailer, s'.agents[hailer].hail, next);
    }
  }

  lemma OldPausesStayApart(s: State, s': State, group: set<int>, next: int)
    requires NoMutualFreeze(s) && Ticked(s, s', next) && Frozen(s', group)
    ensures forall i :: i in group ==> !s.Hailed(i)
  {
    var standing := set i | i in group && s.Hailed(i);
    forall i | i in standing
      ensures s.agents[i].hail.value.hailer in standing
    {
      OldPauseWaitsOnOldPause(s, s', i, next);
    }
    assert Frozen(s, standing);
  }

  // ---- which ticks freeze ----

  /** An event that ends agent `i`'s pause. */
  predicate Clears(e: Event, i: int) {
    ((e.Slept? || e.Died?) && e.agent == i) || (Lifts(e) && e.to == i)
  }

  /** Who hailed `i` last, with nothing after it in `es` that ends the pause. */
  function LastHail(es: seq<Event>, i: int): Option<int> {
    if es == [] then None
    else
      var e := es[|es| - 1];
      if e.Hailed? && e.to == i then Some(e.from)
      else if Clears(e, i) then None
      else LastHail(es[..|es| - 1], i)
  }

  /** Everyone in `group` is hailed last, in `es`, by someone in `group`. */
  ghost predicate HailsAmong(es: seq<Event>, group: set<int>) {
    forall i :: i in group ==> LastHail(es, i).Some? && LastHail(es, i).value in group
  }

  /** The hails of a tick close no group. */
  ghost predicate Harmless(post: seq<Event>) {
    forall group {:trigger HailsAmong(post, group)} :: HailsAmong(post, group) ==> group == {}
  }

  lemma HailAfterEvent(s: State, e: Event, i: int)
    requires s.Has(i)
    ensures Apply(s, e).agents[i].hail ==
              if e.Hailed? && e.to == i then Some(Hail(e.from, e.until))
              else if Clears(e, i) then None
              else s.agents[i].hail
  {
  }

  /** Falling asleep, dying, meeting the hailer and the window's end lift a pause; waking, walking, a new intent, a
      meeting called and a sentence do not. */
  lemma PauseEndsWith(s: State, i: int, from: int, x: int, y: int, b: bool)
    requires s.Has(i)
    ensures forall e :: e in [Slept(i), Died(i), Met(from, i), Expired(from, i)] ==> Apply(s, e).agents[i].hail == None
    ensures forall e :: e in [Woke(i), Moved(i, x, y), IntentSet(i, b), GenerationBumped(i), MeetingSet(b), ExileSet(i, b)]
              ==> Apply(s, e).agents[i].hail == s.agents[i].hail
  {
  }

  /** A pause is met exactly when its hailer, alive and awake, stands on the paused agent's tile or next to it. */
  lemma MeetsBeside(s: State, i: int)
    requires s.Hailed(i)
    ensures var h, a := s.agents[i].hail.value.hailer, s.agents[i];
            Resolution(s, i, s.tick) == [Met(h, i)] <==>
              && 0 <= h < |s.agents| && !s.agents[h].dead && !s.agents[h].asleep
              && var dx, dy := s.agents[h].x - a.x, s.agents[h].y - a.y;
                 (dx, dy) in {(0, 0), (0, -1), (1, 0), (0, 1), (-1, 0)}
  {
  }

  /** What may be said of an agent, and of the village. */
  datatype Condition = IsDead | IsAsleep | IsBound | IsExiled | IsPaused | InMeeting

  predicate Is(c: Condition, s: State, i: int)
    requires s.Has(i)
  {
    match c
    case IsDead => s.agents[i].dead
    case IsAsleep => s.agents[i].asleep
    case IsBound => s.agents[i].attending
    case IsExiled => s.agents[i].exiled
    case IsPaused => s.agents[i].hail.Some?
    case InMeeting => s.meeting
  }

  /** The events that bring a condition about. */
  predicate Begins(c: Condition, i: int, e: Event) {
    match c
    case IsDead => e == Died(i)
    case IsAsleep => e == Slept(i)
    case IsBound => e == IntentSet(i, true)
    case IsExiled => e == ExileSet(i, true)
    case IsPaused => e.Hailed? && e.to == i
    case InMeeting => e == MeetingSet(true)
  }

  /** The events that end it. */
  predicate Stops(c: Condition, i: int, e: Event) {
    match c
    case IsDead => false
    case IsAsleep => e == Woke(i) || e == Died(i)
    case IsBound => e == IntentSet(i, false) || e == Slept(i) || e == Died(i)
    case IsExiled => e == ExileSet(i, false)
    case IsPaused => e == Slept(i) || e == Died(i) || (Lifts(e) && e.to == i)
    case InMeeting => e == MeetingSet(false)
  }

  /** A condition brought about and not ended since, or there before and never ended. */
  predicate HoldsAfter(c: Condition, i: int, es: seq<Event>, before: bool) {
    || (exists k :: 0 <= k < |es| && Begins(c, i, es[k]) && forall j :: k < j < |es| ==> !Stops(c, i, es[j]))
    || (before && forall j :: 0 <= j < |es| ==> !Stops(c, i, es[j]))
  }

  lemma HoldsAfterOneMore(c: Condition, i: int, es: seq<Event>, before: bool)
    requires es != []
    ensures var n := |es| - 1;
            HoldsAfter(c, i, es, before) <==>
              Begins(c, i, es[n]) || (!Stops(c, i, es[n]) && HoldsAfter(c, i, es[..n], before))
  {
    hide Begins, Stops;
    var n := |es| - 1;
    var earlier := es[..n];
    assert forall j :: 0 <= j < n ==> earlier[j] == es[j];
    if !Stops(c, i, es[n]) {
      if k :| 0 <= k < n && Begins(c, i, earlier[k]) && forall j :: k < j < n ==> !Stops(c, i, earlier[j]) {
        assert Begins(c, i, es[k]);
      }
      if k :| 0 <= k < n && Begins(c, i, es[k]) && forall j :: k < j <= n ==> !Stops(c, i, es[j]) {
        assert Begins(c, i, earlier[k]);
      }
    }
  }

  lemma OneMoreEvent(c: Condition, s: State, i: int, e: Event)
    requires s.Has(i)
    ensures Is(c, Apply(s, e), i) <==> Begins(c, i, e) || (!Stops(c, i, e) && Is(c, s, i))
  {
  }

  /** What an agent is after any events, from the events alone: death is final, sleep lasts until it wakes or dies,
      it is bound for a meeting until a new intent, sleep or death, a pause lasts until a meeting, an expiry, sleep
      or death. */
  lemma {:induction false} ConditionAfter(c: Condition, s: State, es: seq<Event>, i: int)
    requires s.Has(i)
    ensures Is(c, Fold(s, es), i) <==> HoldsAfter(c, i, es, Is(c, s, i))
  {
    if es != [] {
      var n := |es| - 1;
      ConditionAfter(c, s, es[..n], i);
      OneMoreEvent(c, Fold(s, es[..n]), i, es[n]);
      HoldsAfterOneMore(c, i, es, Is(c, s, i));
      hide HoldsAfter, Is, Begins, Stops, Apply;
    }
  }

  predicate Moves(e: Event, i: int) {
    e.Moved? && e.agent == i
  }

  lemma OneMoreMove(s: State, i: int, e: Event)
    requires s.Has(i)
    ensures var a, b := s.agents[i], Apply(s, e).agents[i];
            && b.generation == a.generation + (if e == GenerationBumped(i) then 1 else 0)
            && (b.x, b.y) == if Moves(e, i) then (e.x, e.y) else (a.x, a.y)
  {
  }

  /** An agent's generation counts the events that bumped it. */
  lemma {:induction false} GenerationCounts(s: State, es: seq<Event>, i: int)
    requires s.Has(i)
    ensures Fold(s, es).agents[i].generation == s.agents[i].generation + multiset(es)[GenerationBumped(i)]
  {
    hide Apply;
    if es != [] {
      var n := |es| - 1;
      assert es == es[..n] + [es[n]];
      GenerationCounts(s, es[..n], i);
      OneMoreMove(Fold(s, es[..n]), i, es[n]);
    }
  }

  /** It stands where it last moved, or where it was. */
  lemma {:induction false} StandsWhereItMoved(s: State, es: seq<Event>, i: int, k: nat)
    requires s.Has(i) && k <= |es| && (k < |es| ==> Moves(es[k], i))
    requires forall j :: (if k < |es| then k + 1 else 0) <= j < |es| ==> !Moves(es[j], i)
    ensures var a, b := s.agents[i], Fold(s, es).agents[i];
            (b.x, b.y) == if k < |es| then (es[k].x, es[k].y) else (a.x, a.y)
  {
    hide Apply;
    if es != [] {
      var n := |es| - 1;
      OneMoreMove(Fold(s, es[..n]), i, es[n]);
      if k != n {
        StandsWhereItMoved(s, es[..n], i, if k < n then k else n);
      }
    }
  }

  lemma {:induction false} HailAfterFold(s: State, es: seq<Event>, i: int)
    requires s.Has(i)
    ensures var h := Fold(s, es).agents[i].hail;
            if LastHail(es, i).Some? then h.Some? && h.value.hailer == LastHail(es, i).value
            else h == None || h == s.agents[i].hail
  {
    hide Apply, Clears;
    if es != [] {
      HailAfterEvent(Fold(s, es[..|es| - 1]), es[|es| - 1], i);
      HailAfterFold(s, es[..|es| - 1], i);
    }
  }

  lemma {:induction false} LastHailIsInIt(es: seq<Event>, i: int) returns (j: nat)
    requires LastHail(es, i).Some?
    ensures j < |es| && es[j].Hailed? && es[j].to == i && es[j].from == LastHail(es, i).value
  {
    j := |es| - 1;
    if !(es[j].Hailed? && es[j].to == i) {
      j := LastHailIsInIt(es[..j], i);
    }
  }

  /** A tick creates a mutual freeze if and only if its own hails close a group: an old pause never becomes
      part of one. */
  lemma TickFreezesIff(s: State, pre: seq<Event>, post: seq<Event>)
    requires NoMutualFreeze(s) && AllPlain(pre) && AllFromTick(s, post, s.tick + 1)
    ensures NoMutualFreeze(Tick(s, pre, post)) <==> Harmless(post)
  {
    hide HailsAmong, Frozen;
    forall group | Frozen(Tick(s, pre, post), group)
      ensures HailsAmong(post, group)
    {
      FrozenByHails(s, pre, post, group);
    }
    forall group | HailsAmong(post, group)
      ensures Frozen(Tick(s, pre, post), group)
    {
      HailsFreeze(s, pre, post, group);
    }
  }

  lemma HailsFreeze(s: State, pre: seq<Event>, post: seq<Event>, group: set<int>)
    requires AllFromTick(s, post, s.tick + 1) && HailsAmong(post, group)
    ensures Frozen(Tick(s, pre, post), group)
  {
    hide Fold, LastHail;
    var swept := Fold(Fold(s.(tick := s.tick + 1), pre), SweepAll(s, s.tick + 1));
    forall i | i in group
      ensures Fold(swept, post).Hailed(i) && Fold(swept, post).agents[i].hail.value.hailer in group
    {
      var j := LastHailIsInIt(post, i);
      assert FromTick(s, post[j], s.tick + 1);
      HailAfterFold(swept, post, i);
    }
  }

  lemma FrozenByHails(s: State, pre: seq<Event>, post: seq<Event>, group: set<int>)
    requires NoMutualFreeze(s) && AllPlain(pre) && AllFromTick(s, post, s.tick + 1)
    requires Frozen(Tick(s, pre, post), group)
    ensures HailsAmong(post, group)
  {
    hide Fold, LastHail, AllFromTick, AllPlain, NoMutualFreeze, Ticked;
    var next := s.tick + 1;
    var swept := Fold(Fold(s.(tick := next), pre), SweepAll(s, next));
    TickTicks(s, pre, post);
    OldPausesStayApart(s, Tick(s, pre, post), group, next);
    SweptShrinks(s, pre);
    forall i | i in group
      ensures LastHail(post, i).Some? && LastHail(post, i).value in group
    {
      HailAfterFold(swept, post, i);
    }
  }

  /** Hails whose hailers are none of the targets close no group. */
  lemma DisjointPlanHailsAreSafe(post: seq<Event>)
    requires forall i, j :: 0 <= i < |post| && 0 <= j < |post| && post[i].Hailed? && post[j].Hailed? ==>
               post[i].from != post[j].to
    ensures Harmless(post)
  {
    forall group | HailsAmong(post, group)
      ensures group == {}
    {
      forall i
        ensures i !in group
      {
        if i in group {
          var j := LastHailIsInIt(post, i);
          var k := LastHailIsInIt(post, post[j].from);
        }
      }
    }
  }

  const IDLE := Agent(0, 0, false, false, false, false, 0, None)
  const TWO_IDLE := State(0, false, [IDLE, IDLE])
  const CROSSED: seq<Event> := [Hailed(0, 1, 481), Hailed(1, 0, 481)]

  lemma NobodyHailed(s: State)
    requires forall i :: !s.Hailed(i)
    ensures NoMutualFreeze(s)
  {
    forall group | Frozen(s, group)
      ensures group == {}
    {
      assert forall i :: i !in group;
    }
  }

  /** Two idle agents whose plan steps hail each other in the same tick freeze each other. */
  lemma CrossedPlanHailsFreeze()
    ensures AllFromTick(TWO_IDLE, CROSSED, 1) && NoMutualFreeze(TWO_IDLE)
    ensures !NoMutualFreeze(Tick(TWO_IDLE, [], CROSSED))
  {
    assert PlanFires(TWO_IDLE, 0, 1, 1) && PlanFires(TWO_IDLE, 1, 0, 1);
    NobodyHailed(TWO_IDLE);
    TickFreezesIff(TWO_IDLE, [], CROSSED);
    assert LastHail(CROSSED, 1) == LastHail(CROSSED[..1], 1) == Some(0);
    assert HailsAmong(CROSSED, {0, 1});
  }
}
