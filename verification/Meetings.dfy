/** The meeting lifecycle (governanceEvents, emergentGatheringEvents and the meeting arms of
    applyGovernance in internal/sim/governance.go). What the village looks like at each tick, and which
    structure it gathers at, are inputs; the calendar is internal/clock/clock.go.
  */
module Meetings {

  const SECONDS_PER_DAY := 86400
  const EPOCH_SECOND_OF_DAY := 21600
  const TURN_TICKS := 360
  const TIMEBOX_TICKS := 3600
  const GRACE_TICKS := 900
  const MEETING_RADIUS := 3
  const MIN_VILLAGERS := 2
  const GATHER_TICKS := 1800
  const SAMPLE_TICKS := 60
  const HALF_HOUR := 1800

  datatype Option<T> = None | Some(value: T)

  datatype Point = Point(x: int, y: int)

  datatype Villager = Villager(x: int, y: int, dead: bool, asleep: bool, exiled: bool)

  /** The village as one tick finds it: its people, the place it would derive for a meeting, and the
      structure with a daytime quorum around it, if any. */
  datatype Scene = Scene(people: seq<Villager>, derived: Point, gathering: Option<Point>)

  datatype Convention = Convention(conveneSecond: int, openSecond: int)

  datatype Phase = Quiet | Convening | Open

  datatype State = State(
    tick: nat, convention: Option<Convention>, place: Option<Point>,
    phase: Phase, openedTick: nat, attendees: seq<int>, nextSpeaker: nat, lastMeetingDay: nat,
    gatherStart: nat, gatherAt: Point)

  datatype Event =
    | ConventionEstablished(convention: Convention, at: Point)
    | GatheringObserved(at: Point, start: nat)
    | PlaceDesignated(at: Point)
    | Convened
    | Opened(attendees: seq<int>)
    | TurnTaken(agent: int)
    | Closed

  function DayIndex(tick: nat): nat {
    tick / SECONDS_PER_DAY + 1
  }

  function SecondOfDay(tick: nat): nat {
    (tick + EPOCH_SECOND_OF_DAY) % SECONDS_PER_DAY
  }

  // ---- the reducer ----

  function Apply(s: State, e: Event, tick: nat): State {
    match e
    case ConventionEstablished(c, at) =>
      s.(convention := if s.convention == None then Some(c) else s.convention,
         place := if s.place == None then Some(at) else s.place,
         gatherStart := 0, gatherAt := Point(0, 0))
    case GatheringObserved(at, start) => s.(gatherStart := start, gatherAt := at)
    case PlaceDesignated(at) => s.(place := if s.place == None then Some(at) else s.place)
    case Convened => s.(phase := Convening)
    case Opened(attendees) =>
      s.(phase := Open, openedTick := tick, attendees := attendees, nextSpeaker := 0, lastMeetingDay := DayIndex(tick))
    case TurnTaken(_) => s.(nextSpeaker := s.nextSpeaker + 1)
    case Closed => s.(phase := Quiet, openedTick := 0, attendees := [], nextSpeaker := 0)
  }

  function ApplyAll(s: State, es: seq<Event>, tick: nat): State {
    if es == [] then s else Apply(ApplyAll(s, es[..|es| - 1], tick), es[|es| - 1], tick)
  }

  // ---- one tick ----

  function Abs(v: int): nat {
    if v < 0 then -v else v
  }

  predicate Candidate(v: Villager) {
    !v.dead && !v.asleep && !v.exiled
  }

  predicate Attends(v: Villager, at: Point) {
    Candidate(v) && Abs(v.x - at.x) + Abs(v.y - at.y) <= MEETING_RADIUS
  }

  function Attendees(people: seq<Villager>, at: Point, n: nat): (r: seq<int>)
    requires n <= |people|
    ensures forall i :: 0 <= i < |r| ==> 0 <= r[i] < n
    ensures forall i, j :: 0 <= i < j < |r| ==> r[i] < r[j]
  {
    if n == 0 then [] else Attendees(people, at, n - 1) + if Attends(people[n - 1], at) then [n - 1] else []
  }

  function LivingCount(people: seq<Villager>, n: nat): nat
    requires n <= |people|
  {
    if n == 0 then 0 else LivingCount(people, n - 1) + if people[n - 1].dead then 0 else 1
  }

  function WatchEvents(s: State, sc: Scene, next: nat): seq<Event> {
    var watching := s.gatherStart > 0;
    match sc.gathering
    case Some(at) =>
      if watching && s.gatherAt == at then
        if next - s.gatherStart >= GATHER_TICKS then
          var convene := SecondOfDay(next) - SecondOfDay(next) % HALF_HOUR;
          [ConventionEstablished(Convention(convene, convene + HALF_HOUR), at)]
        else []
      else [GatheringObserved(at, next)]
    case None => if watching then [GatheringObserved(Point(0, 0), 0)] else []
  }

  predicate Convenes(s: State, c: Convention, sc: Scene, next: nat) {
    && SecondOfDay(next) == c.conveneSecond && s.phase == Quiet
    && DayIndex(next) > s.lastMeetingDay && LivingCount(sc.people, |sc.people|) >= MIN_VILLAGERS
  }

  function ConveneEvents(s: State, c: Convention, sc: Scene, next: nat): seq<Event> {
    if !Convenes(s, c, sc, next) then []
    else (if s.place == None then [PlaceDesignated(sc.derived)] else []) + [Convened]
  }

  function OpenEvents(s: State, c: Convention, sc: Scene, next: nat): seq<Event> {
    if SecondOfDay(next) == c.openSecond && s.phase == Convening && s.place.Some? then
      [Opened(Attendees(sc.people, s.place.value, |sc.people|))]
    else []
  }

  function AgendaEvents(s: State, next: nat): seq<Event> {
    if s.phase != Open then []
    else
      var elapsed := next - s.openedTick;
      if s.nextSpeaker >= |s.attendees| then [Closed]
      else if elapsed >= TIMEBOX_TICKS + GRACE_TICKS then [Closed]
      else if elapsed > 0 && elapsed % TURN_TICKS == 0 then [TurnTaken(s.attendees[s.nextSpeaker])]
      else []
  }

  function TickEvents(s: State, sc: Scene, next: nat): seq<Event> {
    match s.convention
    case None => if next % SAMPLE_TICKS == 0 then WatchEvents(s, sc, next) else []
    case Some(c) => ConveneEvents(s, c, sc, next) + OpenEvents(s, c, sc, next) + AgendaEvents(s, next)
  }

  method CountAttendees(people: seq<Villager>, at: Point) returns (attendees: seq<int>)
    ensures attendees == Attendees(people, at, |people|)
  {
    attendees := [];
    for i := 0 to |people|
      invariant attendees == Attendees(people, at, i)
    {
      if Candidate(people[i]) && Abs(people[i].x - at.x) + Abs(people[i].y - at.y) <= MEETING_RADIUS {
        attendees := attendees + [i];
      }
    }
  }

  method CountLiving(people: seq<Villager>) returns (n: nat)
    ensures n == LivingCount(people, |people|)
  {
    n := 0;
    for i := 0 to |people|
      invariant n == LivingCount(people, i)
    {
      if !people[i].dead {
        n := n + 1;
      }
    }
  }

  method GovernanceEvents(s: State, sc: Scene, nextTick: nat) returns (events: seq<Event>)
    ensures events == TickEvents(s, sc, nextTick)
  {
    events := [];
    var sod := SecondOfDay(nextTick);
    match s.convention {
      case None =>
        if nextTick % SAMPLE_TICKS == 0 {
          events := WatchEvents(s, sc, nextTick);
        }
      case Some(c) =>
        var living := CountLiving(sc.people);
        if sod == c.conveneSecond && s.phase == Quiet && DayIndex(nextTick) > s.lastMeetingDay &&
           living >= MIN_VILLAGERS {
          if s.place == None {
            events := events + [PlaceDesignated(sc.derived)];
          }
          events := events + [Convened];
        }
        if sod == c.openSecond && s.phase == Convening && s.place.Some? {
          var attendees := CountAttendees(sc.people, s.place.value);
          events := events + [Opened(attendees)];
        }
        if s.phase == Open {
          var elapsed := nextTick - s.openedTick;
          if s.nextSpeaker >= |s.attendees| {
            events := events + [Closed];
          } else if elapsed >= TIMEBOX_TICKS + GRACE_TICKS {
            events := events + [Closed];
          } else if elapsed > 0 && elapsed % TURN_TICKS == 0 {
            events := events + [TurnTaken(s.attendees[s.nextSpeaker])];
          }
        }
    }
  }

  function Step(s: State, sc: Scene): State {
    var next := s.tick + 1;
    ApplyAll(s, TickEvents(s, sc, next), next).(tick := next)
  }

  class Hall {
    var s: State

    constructor (start: State)
      ensures s == start
    {
      s := start;
    }

    /** One tick: events computed on the state before it, then applied in order. */
    method RunTick(sc: Scene)
      modifies this
      ensures s == Step(old(s), sc)
    {
      var next := s.tick + 1;
      var events := GovernanceEvents(s, sc, next);
      for i := 0 to |events|
        invariant s == ApplyAll(old(s), events[..i], next)
      {
        assert events[..i + 1][..i] == events[..i];
        s := Apply(s, events[i], next);
      }
      assert events[..|events|] == events;
      s := s.(tick := next);
    }
  }

  // ---- what one tick does ----

  lemma ApplyOne(s: State, e: Event, tick: nat)
    ensures ApplyAll(s, [e], tick) == Apply(s, e, tick)
  {
    assert [e][..0] == [];
  }

  lemma ApplyTwo(s: State, e: Event, f: Event, tick: nat)
    ensures ApplyAll(s, [e, f], tick) == Apply(Apply(s, e, tick), f, tick)
  {
    assert [e, f][..1] == [e];
    ApplyOne(s, e, tick);
  }

  lemma NoConventionStep(s: State, sc: Scene)
    requires s.convention == None
    ensures Step(s, sc).phase == s.phase && Step(s, sc).lastMeetingDay == s.lastMeetingDay
  {
    var es := TickEvents(s, sc, s.tick + 1);
    if es != [] {
      ApplyOne(s, es[0], s.tick + 1);
    }
  }

  lemma QuietStep(s: State, c: Convention, sc: Scene)
    requires s.convention == Some(c) && s.phase == Quiet
    ensures var next := s.tick + 1;
            Step(s, sc) == (if Convenes(s, c, sc, next)
                            then s.(phase := Convening, place := if s.place == None then Some(sc.derived) else s.place)
                            else s).(tick := next)
  {
    var next := s.tick + 1;
    assert TickEvents(s, sc, next) == ConveneEvents(s, c, sc, next);
    if Convenes(s, c, sc, next) {
      if s.place == None {
        assert ConveneEvents(s, c, sc, next) == [PlaceDesignated(sc.derived), Convened];
        ApplyTwo(s, PlaceDesignated(sc.derived), Convened, next);
      } else {
        assert ConveneEvents(s, c, sc, next) == [Convened];
        ApplyOne(s, Convened, next);
      }
    }
  }

  lemma ConveningStep(s: State, c: Convention, sc: Scene)
    requires s.convention == Some(c) && s.phase == Convening
    ensures var next := s.tick + 1;
            Step(s, sc) == (if OpenEvents(s, c, sc, next) == [] then s
                            else Apply(s, OpenEvents(s, c, sc, next)[0], next)).(tick := next)
  {
    var next := s.tick + 1;
    var opening := OpenEvents(s, c, sc, next);
    assert TickEvents(s, sc, next) == opening;
    if opening != [] {
      ApplyOne(s, opening[0], next);
    }
  }

  lemma OpenStep(s: State, c: Convention, sc: Scene)
    requires s.convention == Some(c) && s.phase == Open
    ensures var next := s.tick + 1;
            Step(s, sc) == (if AgendaEvents(s, next) == [] then s
                            else Apply(s, AgendaEvents(s, next)[0], next)).(tick := next)
  {
    var next := s.tick + 1;
    var agenda := AgendaEvents(s, next);
    assert TickEvents(s, sc, next) == agenda;
    if agenda != [] {
      ApplyOne(s, agenda[0], next);
    }
  }

  // ---- one meeting a day ----

  predicate DayInv(s: State) {
    && (s.phase == Convening ==> s.lastMeetingDay < DayIndex(s.tick))
    && s.lastMeetingDay <= DayIndex(s.tick)
  }

  predicate OpensAt(s: State, sc: Scene) {
    s.phase == Convening && Step(s, sc).phase == Open
  }

  lemma StepDays(s: State, sc: Scene)
    requires DayInv(s)
    ensures var s' := Step(s, sc);
            DayInv(s') &&
            (if OpensAt(s, sc) then s'.lastMeetingDay == DayIndex(s'.tick) > s.lastMeetingDay
             else s'.lastMeetingDay == s.lastMeetingDay)
  {
    hide Step;
    assert DayIndex(s.tick) <= DayIndex(s.tick + 1);
    StepTick(s, sc);
    match s.convention
    case None => NoConventionStep(s, sc);
    case Some(c) =>
      match s.phase {
        case Quiet => QuietStep(s, c, sc);
        case Convening => ConveningStep(s, c, sc);
        case Open => OpenStep(s, c, sc);
      }
  }

  function Run(s: State, scenes: seq<Scene>): State {
    if scenes == [] then s else Step(Run(s, scenes[..|scenes| - 1]), scenes[|scenes| - 1])
  }

  /** The days on which a meeting opened, in order. */
  function MeetingDays(s: State, scenes: seq<Scene>): seq<nat> {
    if scenes == [] then []
    else
      var earlier := Run(s, scenes[..|scenes| - 1]);
      MeetingDays(s, scenes[..|scenes| - 1]) +
      if OpensAt(earlier, scenes[|scenes| - 1]) then [DayIndex(earlier.tick + 1)] else []
  }

  predicate Increasing(days: seq<nat>) {
    forall i, j :: 0 <= i < j < |days| ==> days[i] < days[j]
  }

  /** No two meetings open on the same day. */
  lemma {:induction false} OneMeetingADay(s: State, scenes: seq<Scene>)
    requires DayInv(s)
    ensures DayInv(Run(s, scenes)) && Increasing(MeetingDays(s, scenes))
    ensures forall i :: 0 <= i < |MeetingDays(s, scenes)| ==>
              s.lastMeetingDay < MeetingDays(s, scenes)[i] <= Run(s, scenes).lastMeetingDay
    ensures s.lastMeetingDay <= Run(s, scenes).lastMeetingDay
  {
    hide Step, OpensAt, DayInv, DayIndex;
    if scenes != [] {
      OneMeetingADay(s, scenes[..|scenes| - 1]);
      StepDays(Run(s, scenes[..|scenes| - 1]), scenes[|scenes| - 1]);
      StepTick(Run(s, scenes[..|scenes| - 1]), scenes[|scenes| - 1]);
    }
  }

  lemma StepTick(s: State, sc: Scene)
    ensures Step(s, sc).tick == s.tick + 1
  {
  }

  // ---- one meeting's course ----

  /** How long after opening a meeting of `n` attendees closes. */
  function Length(n: nat): nat {
    if TURN_TICKS * n + 1 < TIMEBOX_TICKS + GRACE_TICKS then TURN_TICKS * n + 1 else TIMEBOX_TICKS + GRACE_TICKS
  }

  /** `k` ticks into the meeting that `s0` opened. */
  predicate InSession(s0: State, s: State, k: nat) {
    && s.convention == s0.convention && s.convention.Some? && s.phase == Open
    && s.openedTick == s0.openedTick && s.attendees == s0.attendees
    && s.tick == s0.tick + k
    && s.nextSpeaker == k / TURN_TICKS <= |s.attendees|
  }

  predicate JustOpened(s: State) {
    s.convention.Some? && s.phase == Open && s.openedTick == s.tick && s.nextSpeaker == 0
  }

  lemma SessionStep(s0: State, s: State, k: nat, sc: Scene)
    requires JustOpened(s0) && InSession(s0, s, k) && k + 1 < Length(|s0.attendees|)
    ensures InSession(s0, Step(s, sc), k + 1) && Step(s, sc).phase == Open
    ensures AgendaEvents(s, s.tick + 1) ==
            if (k + 1) % TURN_TICKS == 0 then [TurnTaken(s0.attendees[(k + 1) / TURN_TICKS - 1])] else []
  {
    hide Step;
    OpenStep(s, s.convention.value, sc);
    Cadence(k);
  }

  lemma Cadence(k: nat)
    ensures (k + 1) / TURN_TICKS == k / TURN_TICKS + if (k + 1) % TURN_TICKS == 0 then 1 else 0
  {
  }

  lemma LastStep(s0: State, s: State, k: nat, sc: Scene)
    requires JustOpened(s0) && InSession(s0, s, k) && k + 1 == Length(|s0.attendees|)
    ensures Step(s, sc).phase == Quiet && AgendaEvents(s, s.tick + 1) == [Closed]
  {
    hide Step;
    OpenStep(s, s.convention.value, sc);
  }

  lemma {:induction false} StaysInSession(s0: State, scenes: seq<Scene>)
    requires JustOpened(s0) && |scenes| < Length(|s0.attendees|)
    ensures InSession(s0, Run(s0, scenes), |scenes|)
  {
    if scenes != [] {
      hide Step, InSession, Length;
      StaysInSession(s0, scenes[..|scenes| - 1]);
      SessionStep(s0, Run(s0, scenes[..|scenes| - 1]), |scenes| - 1, scenes[|scenes| - 1]);
    }
  }

  /** Whatever the village does meanwhile, a meeting of n attendees stays in session for exactly
      min(360 n + 1, 4500) ticks and then closes; the k-th turn goes to the k-th attendee, 360 k ticks
      after opening, so nobody speaks twice or out of order. */
  lemma MeetingRunsItsCourse(s0: State, scenes: seq<Scene>, sc: Scene)
    requires JustOpened(s0) && |scenes| < Length(|s0.attendees|)
    ensures var s, k := Run(s0, scenes), |scenes| + 1;
            InSession(s0, s, |scenes|) &&
            AgendaEvents(s, s.tick + 1) ==
              (if k == Length(|s0.attendees|) then [Closed]
               else if k % TURN_TICKS == 0 then [TurnTaken(s0.attendees[k / TURN_TICKS - 1])]
               else []) &&
            (Step(s, sc).phase == Quiet <==> k == Length(|s0.attendees|))
  {
    hide Step, InSession, AgendaEvents, Run;
    var s := Run(s0, scenes);
    StaysInSession(s0, scenes);
    if |scenes| + 1 < Length(|s0.attendees|) {
      SessionStep(s0, s, |scenes|, sc);
    } else {
      LastStep(s0, s, |scenes|, sc);
    }
  }

  // ---- an emergent convention ----

  /** The village gathered at `at` at every minute sample from `from` to `to`; the scene at index i of a
      run is that of tick start + 1 + i. */
  predicate GatheredThroughout(start: nat, scenes: seq<Scene>, at: Point, from: nat, to: nat) {
    && start < from <= to <= start + |scenes|
    && forall i :: from - start - 1 <= i < to - start && (start + 1 + i) % SAMPLE_TICKS == 0 ==>
         scenes[i].gathering == Some(at)
  }

  /** A running watch stands for a gathering unbroken since it began. */
  predicate WatchInv(start: nat, scenes: seq<Scene>, s: State) {
    && s.tick == start + |scenes|
    && (s.convention == None && s.gatherStart > 0 ==>
          s.gatherStart % SAMPLE_TICKS == 0 && GatheredThroughout(start, scenes, s.gatherAt, s.gatherStart, s.tick))
  }

  lemma WatchStep(start: nat, scenes: seq<Scene>, s: State, sc: Scene)
    requires WatchInv(start, scenes, s) && s.convention == None
    ensures WatchInv(start, scenes + [sc], Step(s, sc))
    ensures Step(s, sc).convention.Some? ==>
              s.gatherStart > 0 && s.tick + 1 - s.gatherStart >= GATHER_TICKS &&
              GatheredThroughout(start, scenes + [sc], s.gatherAt, s.gatherStart, s.tick + 1)
  {
    var next := s.tick + 1;
    var es := TickEvents(s, sc, next);
    if es != [] {
      ApplyOne(s, es[0], next);
    }
    assert forall i :: 0 <= i < |scenes| ==> (scenes + [sc])[i] == scenes[i];
  }

  lemma WatchStart(s0: State)
    requires s0.convention == None && s0.gatherStart == 0
    ensures WatchInv(s0.tick, [], s0)
  {
  }

  lemma WatchNext(start: nat, scenes: seq<Scene>, s: State, sc: Scene)
    requires WatchInv(start, scenes, s)
    ensures WatchInv(start, scenes + [sc], Step(s, sc))
  {
    hide Step, WatchInv;
    if s.convention == None {
      WatchStep(start, scenes, s, sc);
    } else {
      WatchOver(start, scenes, s, sc);
    }
  }

  lemma {:induction false} WatchHolds(s0: State, scenes: seq<Scene>)
    requires s0.convention == None && s0.gatherStart == 0
    ensures WatchInv(s0.tick, scenes, Run(s0, scenes))
  {
    hide Step, WatchInv;
    if scenes == [] {
      WatchStart(s0);
    } else {
      var earlier, sc := scenes[..|scenes| - 1], scenes[|scenes| - 1];
      WatchHolds(s0, earlier);
      WatchNext(s0.tick, earlier, Run(s0, earlier), sc);
      assert scenes == earlier + [sc];
    }
  }

  lemma WatchOver(start: nat, scenes: seq<Scene>, s: State, sc: Scene)
    requires WatchInv(start, scenes, s) && s.convention.Some?
    ensures WatchInv(start, scenes + [sc], Step(s, sc))
  {
    hide Step;
    StepTick(s, sc);
    KeepsConvention(s, sc);
  }

  lemma KeepsConvention(s: State, sc: Scene)
    requires s.convention.Some?
    ensures Step(s, sc).convention == s.convention
  {
    hide Step;
    match s.phase {
      case Quiet => QuietStep(s, s.convention.value, sc);
      case Convening => ConveningStep(s, s.convention.value, sc);
      case Open => OpenStep(s, s.convention.value, sc);
    }
  }

  /** A convention that emerges at a tick has been earned: the village gathered at its place at every
      minute sample of at least the 1800 ticks before. */
  lemma ConventionIsEarned(s0: State, scenes: seq<Scene>, sc: Scene)
    requires s0.convention == None && s0.gatherStart == 0
    requires Run(s0, scenes).convention == None && Run(s0, scenes + [sc]).convention.Some?
    ensures var s := Run(s0, scenes);
            s.tick + 1 - s.gatherStart >= GATHER_TICKS &&
            GatheredThroughout(s0.tick, scenes + [sc], s.gatherAt, s.gatherStart, s.tick + 1) &&
            (s.place == None ==> Run(s0, scenes + [sc]).place == Some(s.gatherAt))
  {
    var s := Run(s0, scenes);
    WatchHolds(s0, scenes);
    assert (scenes + [sc])[..|scenes|] == scenes;
    assert Run(s0, scenes + [sc]) == Step(s, sc);
    WatchStep(s0.tick, scenes, s, sc);
    Established(s, sc);
  }

  lemma Established(s: State, sc: Scene)
    requires s.convention == None && Step(s, sc).convention.Some?
    ensures s.place == None ==> Step(s, sc).place == Some(s.gatherAt)
  {
    var es := TickEvents(s, sc, s.tick + 1);
    if es != [] {
      ApplyOne(s, es[0], s.tick + 1);
    }
  }

  // ---- when meetings happen ----

  /** Who attends: everyone alive, awake and not exiled within three tiles of the place. */
  lemma {:induction false} AttendsIff(people: seq<Villager>, at: Point, n: nat, i: int)
    requires n <= |people|
    ensures i in Attendees(people, at, n) <==>
              0 <= i < n && !people[i].dead && !people[i].asleep && !people[i].exiled &&
              Abs(people[i].x - at.x) + Abs(people[i].y - at.y) <= 3
  {
    if n > 0 {
      AttendsIff(people, at, n - 1, i);
    }
  }

  lemma {:induction false} TwoLiving(people: seq<Villager>, n: nat)
    requires n <= |people|
    ensures LivingCount(people, n) >= 1 <==> exists i :: 0 <= i < n && !people[i].dead
    ensures LivingCount(people, n) >= 2 <==> exists i, j :: 0 <= i < j < n && !people[i].dead && !people[j].dead
  {
    if n > 0 {
      TwoLiving(people, n - 1);
      if LivingCount(people, n - 1) >= 1 && !people[n - 1].dead {
        var i :| 0 <= i < n - 1 && !people[i].dead;
        assert !people[i].dead && !people[n - 1].dead;
      }
    }
  }

  /** A quiet village convenes at a tick if and only if it is the convention's second of the day, no meeting has
      opened that day, and at least two villagers live; at the place it has, or else the one derived for it. */
  lemma ConvenesIff(s: State, c: Convention, sc: Scene)
    requires s.convention == Some(c) && s.phase == Quiet
    ensures var next := s.tick + 1;
            (Step(s, sc).phase == Convening <==>
               && (next + 21600) % 86400 == c.conveneSecond && next / 86400 + 1 > s.lastMeetingDay
               && exists i, j :: 0 <= i < j < |sc.people| && !sc.people[i].dead && !sc.people[j].dead) &&
            (Step(s, sc).phase == Convening ==>
               Step(s, sc).place == if s.place.Some? then s.place else Some(sc.derived)) &&
            Step(s, sc).phase != Open
  {
    QuietStep(s, c, sc);
    TwoLiving(sc.people, |sc.people|);
  }

  /** A convened meeting opens at a tick if and only if it is the convention's opening second, with those who are
      there in the order of their numbers, and none of them has spoken. */
  lemma OpensIff(s: State, c: Convention, sc: Scene)
    requires s.convention == Some(c) && s.phase == Convening && s.place.Some?
    ensures var next, s' := s.tick + 1, Step(s, sc);
            && (s'.phase == Open <==> (next + 21600) % 86400 == c.openSecond)
            && (s'.phase != Open ==> s' == s.(tick := next))
            && (s'.phase == Open ==>
                  JustOpened(s') && s'.tick == next && s'.lastMeetingDay == next / 86400 + 1 &&
                  s'.attendees == Attendees(sc.people, s.place.value, |sc.people|))
  {
    ConveningStep(s, c, sc);
  }

  predicate IsSecond(tick: int, second: int) {
    (tick + 21600) % 86400 == second
  }

  /** A convened meeting waits for its opening second, whatever happens meanwhile, and opens then. */
  lemma {:induction false} MeetingOpensOnTime(s: State, c: Convention, scenes: seq<Scene>)
    requires s.convention == Some(c) && s.phase == Convening && s.place.Some?
    requires forall t :: s.tick < t < s.tick + |scenes| ==> !IsSecond(t, c.openSecond)
    ensures scenes != [] && IsSecond(s.tick + |scenes|, c.openSecond) ==> Run(s, scenes).phase == Open
    ensures scenes == [] || !IsSecond(s.tick + |scenes|, c.openSecond) ==>
              Run(s, scenes) == s.(tick := s.tick + |scenes|)
  {
    hide Step;
    if scenes != [] {
      var earlier := scenes[..|scenes| - 1];
      MeetingOpensOnTime(s, c, earlier);
      OpensIff(Run(s, earlier), c, scenes[|scenes| - 1]);
    }
  }

  lemma KeepsPlace(s: State, sc: Scene)
    requires s.place.Some?
    ensures Step(s, sc).place == s.place
  {
    if s.convention == None {
      NoConventionStep(s, sc);
      var es := TickEvents(s, sc, s.tick + 1);
      if es != [] {
        ApplyOne(s, es[0], s.tick + 1);
      }
    } else {
      hide Step;
      match s.phase {
        case Quiet => QuietStep(s, s.convention.value, sc);
        case Convening => ConveningStep(s, s.convention.value, sc);
        case Open => OpenStep(s, s.convention.value, sc);
      }
    }
  }

  /** Where and when the village meets is settled once: a place and a convention that stand are never replaced,
      whatever gathers elsewhere. */
  lemma {:induction false} SettledForGood(s: State, scenes: seq<Scene>)
    ensures s.place.Some? ==> Run(s, scenes).place == s.place
    ensures s.convention.Some? ==> Run(s, scenes).convention == s.convention
  {
    hide Step;
    if scenes != [] {
      var earlier, sc := scenes[..|scenes| - 1], scenes[|scenes| - 1];
      SettledForGood(s, earlier);
      var mid := Run(s, earlier);
      if mid.place.Some? {
        KeepsPlace(mid, sc);
      }
      if mid.convention.Some? {
        KeepsConvention(mid, sc);
      }
    }
  }

  // ---- when a convention emerges ----

  /** How the watch follows the village at a minute sample: a gathering at a new place starts it, none ends it, and
      one that goes on keeps it until half an hour is full; then the convention stands, convening at the half hour
      before and opening at the one after. Between samples nothing changes. */
  lemma WatchFollows(s: State, sc: Scene)
    requires s.convention == None
    ensures var next, s' := s.tick + 1, Step(s, sc);
            var goesOn := s.gatherStart > 0 && sc.gathering == Some(s.gatherAt);
            && (next % 60 != 0 ==> s' == s.(tick := next))
            && (next % 60 == 0 && sc.gathering == None ==> s'.convention == None && s'.gatherStart == 0)
            && (next % 60 == 0 && sc.gathering.Some? && !goesOn ==>
                  s'.convention == None && s'.gatherStart == next && s'.gatherAt == sc.gathering.value)
            && (next % 60 == 0 && goesOn && next - s.gatherStart < 1800 ==> s' == s.(tick := next))
            && (next % 60 == 0 && goesOn && next - s.gatherStart >= 1800 ==>
                  s'.convention.Some? &&
                  var c, second := s'.convention.value, (next + 21600) % 86400;
                  c.conveneSecond % 1800 == 0 && c.conveneSecond <= second < c.conveneSecond + 1800 &&
                  c.openSecond == c.conveneSecond + 1800)
  {
    var next := s.tick + 1;
    var es := TickEvents(s, sc, next);
    if es != [] {
      ApplyOne(s, es[0], next);
    }
  }

  /** A village that keeps gathering at one place has its convention if and only if a minute sample has fallen at
      least 1800 ticks after the watch began. */
  lemma {:induction false} ConventionEmergesIff(s: State, scenes: seq<Scene>)
    requires s.convention == None && 0 < s.gatherStart <= s.tick
    requires s.tick - s.gatherStart < 1800 || s.tick % 60 != 0
    requires forall i :: 0 <= i < |scenes| ==> scenes[i].gathering == Some(s.gatherAt)
    ensures Run(s, scenes).convention.Some? <==>
              exists t :: s.tick < t <= s.tick + |scenes| && t % 60 == 0 && t - s.gatherStart >= 1800
    ensures Run(s, scenes).convention == None ==> Run(s, scenes) == s.(tick := s.tick + |scenes|)
    ensures Run(s, scenes).tick == s.tick + |scenes|
  {
    hide Step;
    if scenes != [] {
      var earlier, sc := scenes[..|scenes| - 1], scenes[|scenes| - 1];
      ConventionEmergesIff(s, earlier);
      var mid := Run(s, earlier);
      StepTick(mid, sc);
      if mid.convention == None {
        WatchFollows(mid, sc);
      } else {
        KeepsConvention(mid, sc);
      }
    }
  }
}
