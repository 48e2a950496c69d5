/** The trigger pipeline of standing orders (matchOrders, triggerWorker, runConfirm, runTrigger and
    acquireTurnBusy in internal/metatron/orders.go).

    Three goroutines and the world interleave: the absorb side matches live events against a mirror of the
    orders that may be stale and queues jobs, the worker confirms and fires them, the console takes its
    own turns, and orders are placed, cancelled and expire underneath. `State` is all they share, `Step`
    one atomic move of any of them.
  */
module TriggerPipeline {

  const QUEUE_CAP := 64
  const CONFIRM_RATE_TICKS := 1800

  datatype Job = Job(id: int, confirm: bool, system: bool, tick: int)

  // ---- matching, one goroutine alone ----

  datatype Order = Order(
    id: int, active: bool, confirm: bool, system: bool, eventTypes: set<int>, agent: int, keywords: set<int>)

  /** An observed event: its type, the villagers it names, and the keywords its text contains. */
  datatype Event = Event(etype: int, concerns: set<int>, words: set<int>, tick: int)

  predicate OrderMatches(o: Order, e: Event) {
    && o.active && e.etype in o.eventTypes
    && (o.agent >= 0 ==> o.agent in e.concerns)
    && (o.keywords != {} ==> o.keywords * e.words != {})
  }

  /** What an order watches for: its event types; each villager it is about and each list of keywords narrows it, and
      every further keyword widens the list. */
  lemma WatchNarrows(o: Order, e: Event, villager: nat, word: int)
    ensures OrderMatches(o.(agent := -1, keywords := {}), e) <==> o.active && e.etype in o.eventTypes
    ensures OrderMatches(o.(agent := villager), e) <==> OrderMatches(o.(agent := -1), e) && villager in e.concerns
    ensures OrderMatches(o.(keywords := {word}), e) <==> OrderMatches(o.(keywords := {}), e) && word in e.words
    ensures o.keywords != {} ==>
              (OrderMatches(o.(keywords := o.keywords + {word}), e) <==>
                 OrderMatches(o, e) || OrderMatches(o.(keywords := {word}), e))
  {
    assert word in e.words <==> word in {word} * e.words;
    assert (o.keywords + {word}) * e.words == o.keywords * e.words + {word} * e.words;
  }

  datatype Marks = Marks(pending: set<int>, last: map<int, int>, queue: seq<Job>)

  function FirstHit(o: Order, batch: seq<Event>): (i: nat)
    ensures i <= |batch| && (i < |batch| ==> OrderMatches(o, batch[i]))
    ensures forall j :: 0 <= j < i ==> !OrderMatches(o, batch[j])
  {
    if batch == [] then 0
    else
      var i := FirstHit(o, batch[..|batch| - 1]);
      if i < |batch| - 1 then i else if OrderMatches(o, batch[|batch| - 1]) then i else |batch|
  }

  predicate Capped(last: map<int, int>, job: Job) {
    job.confirm && job.id in last && job.tick - last[job.id] < CONFIRM_RATE_TICKS
  }

  /** One job goes in, or nothing does; a full queue also forgets the order's confirm mark. */
  function Enqueue(m: Marks, job: Job): Marks {
    if Capped(m.last, job) then m
    else if |m.queue| < QUEUE_CAP then
      Marks(m.pending + {job.id}, if job.confirm then m.last[job.id := job.tick] else m.last, m.queue + [job])
    else m.(last := if job.confirm then m.last - {job.id} else m.last)
  }

  function MatchOrder(m: Marks, o: Order, batch: seq<Event>): Marks {
    var i := FirstHit(o, batch);
    if !o.active || o.id in m.pending || i == |batch| then m
    else Enqueue(m, Job(o.id, o.confirm, o.system, batch[i].tick))
  }

  function MatchAll(m: Marks, orders: seq<Order>, batch: seq<Event>): Marks {
    if orders == [] then m else MatchOrder(MatchAll(m, orders[..|orders| - 1], batch), orders[|orders| - 1], batch)
  }

  class Watch {
    var pending: set<int>
    var last: map<int, int>
    var queue: seq<Job>

    ghost function Abs(): Marks
      reads this
    {
      Marks(pending, last, queue)
    }

    constructor ()
      ensures Abs() == Marks({}, map[], [])
    {
      pending, last, queue := {}, map[], [];
    }

    method EnqueueHit(o: Order, e: Event)
      requires o.id !in pending
      modifies this
      ensures Abs() == Enqueue(old(Abs()), Job(o.id, o.confirm, o.system, e.tick))
    {
      if o.confirm && o.id in last && e.tick - last[o.id] < CONFIRM_RATE_TICKS {
        return;
      }
      ghost var was := pending;
      pending := pending + {o.id};
      if o.confirm {
        last := last[o.id := e.tick];
      }
      if |queue| < QUEUE_CAP {
        queue := queue + [Job(o.id, o.confirm, o.system, e.tick)];
      } else {
        pending := pending - {o.id};
        assert pending == was;
        if o.confirm {
          last := last - {o.id};
          assert last == old(last) - {o.id};
        }
      }
    }

    /** matchOrders over the mirror in id order: at most one job per order and batch. */
    method MatchOrders(orders: seq<Order>, batch: seq<Event>)
      modifies this
      ensures Abs() == MatchAll(old(Abs()), orders, batch)
    {
      for i := 0 to |orders|
        invariant Abs() == MatchAll(old(Abs()), orders[..i], batch)
      {
        assert orders[..i + 1][..i] == orders[..i];
        var o := orders[i];
        if o.active && o.id !in pending {
          ghost var before := Abs();
          var j := 0;
          while j < |batch| && !OrderMatches(o, batch[j])
            invariant j <= |batch| && forall k :: 0 <= k < j ==> !OrderMatches(o, batch[k])
          {
            j := j + 1;
          }
          assert j == FirstHit(o, batch);
          if j < |batch| {
            EnqueueHit(o, batch[j]);
          }
        }
      }
      assert orders[..|orders|] == orders;
    }
  }

  // ---- the interleaved machine ----

  /** Where the absorb side stands: it checks the mark, sets it, sends, and undoes a failed send in
      separate critical sections. */
  datatype Absorb = Idle | Cleared(job: Job) | Armed(job: Job) | Dropped(job: Job)

  datatype Worker =
    | Free
    | Confirming(job: Job)
    | Triggering(job: Job)
    | Landed(job: Job)
    | Waiting(job: Job)
    | Running(job: Job)
    | Clearing(job: Job)

  type Tally = map<int, int>

  function At(t: Tally, id: int): int {
    if id in t then t[id] else 0
  }

  function Bump(t: Tally, id: int): Tally {
    t[id := At(t, id) + 1]
  }

  /** What the absorb side owns: the marks, its own position, the tick of each order's latest match, and the
      confirm jobs ever queued. */
  datatype Feed = Feed(
    pending: set<int>, last: map<int, int>, queue: seq<Job>, absorb: Absorb, seen: map<int, int>, confirms: seq<Job>)

  /** What the world and the trail record: the orders active now, and per id how often it was placed, ended
      otherwise, triggered, given a turn, and reported in a moment. */
  datatype Ledger = Ledger(
    active: set<int>, placed: Tally, ended: Tally, landed: Tally, turns: Tally, moments: Tally)

  datatype State = State(feed: Feed, worker: Worker, turnBusy: bool, consoleTurn: bool, ledger: Ledger)

  const START :=
    State(Feed({}, map[], [], Idle, map[], []), Free, false, false, Ledger({}, map[], map[], map[], map[], map[]))

  datatype Step =
    | Place(id: int)             // order_placed lands
    | End(id: int)               // order_cancelled or order_expired lands
    | Hit(job: Job)              // a mirrored order, active or not by now, matches an event and is not marked
    | Arm | Send | Undo
    | Take | Verdict(yes: bool) | Land | Bank(empty: bool) | Acquire(inTime: bool) | Finish | Clear
    | ConsoleTurn | ConsoleDone

  // The absorb side.

  /** Ticks do not run backwards: an order's match is never older than its previous one. */
  predicate InTime(f: Feed, id: int, tick: int) {
    id in f.seen ==> f.seen[id] <= tick
  }

  function FeedHit(f: Feed, job: Job): Feed {
    if f.absorb.Idle? && InTime(f, job.id, job.tick) && job.id !in f.pending then
      f.(absorb := Cleared(job), seen := f.seen[job.id := job.tick])
    else f
  }

  function FeedArm(f: Feed): Feed {
    if !f.absorb.Cleared? then f
    else
      var job := f.absorb.job;
      if Capped(f.last, job) then f.(absorb := Idle)
      else
        f.(absorb := Armed(job), pending := f.pending + {job.id},
           last := if job.confirm then f.last[job.id := job.tick] else f.last)
  }

  function FeedSend(f: Feed): Feed {
    if !f.absorb.Armed? then f
    else
      var job := f.absorb.job;
      if |f.queue| < QUEUE_CAP then
        f.(absorb := Idle, queue := f.queue + [job], confirms := if job.confirm then f.confirms + [job] else f.confirms)
      else f.(absorb := Dropped(job))
  }

  function FeedUndo(f: Feed): Feed {
    if !f.absorb.Dropped? then f
    else
      var job := f.absorb.job;
      f.(absorb := Idle, pending := f.pending - {job.id}, last := if job.confirm then f.last - {job.id} else f.last)
  }

  // The world.

  function LedgerPlace(l: Ledger, id: int): Ledger {
    if id in l.active then l else l.(active := l.active + {id}, placed := Bump(l.placed, id))
  }

  function LedgerEnd(l: Ledger, id: int): Ledger {
    if id in l.active then l.(active := l.active - {id}, ended := Bump(l.ended, id)) else l
  }

  function LedgerLand(l: Ledger, id: int): Ledger {
    if id in l.active then l.(active := l.active - {id}, landed := Bump(l.landed, id)) else l
  }

  function LedgerMoment(l: Ledger, id: int): Ledger {
    l.(moments := Bump(l.moments, id))
  }

  function LedgerTurn(l: Ledger, id: int): Ledger {
    l.(turns := Bump(l.turns, id))
  }

  // The worker and the console.

  function DoTake(s: State): State {
    if !s.worker.Free? || s.feed.queue == [] then s
    else
      var job := s.feed.queue[0];
      s.(feed := s.feed.(queue := s.feed.queue[1..]), worker := if job.confirm then Confirming(job) else Triggering(job))
  }

  function DoVerdict(s: State, yes: bool): State {
    if !s.worker.Confirming? then s
    else s.(worker := if yes then Triggering(s.worker.job) else Clearing(s.worker.job))
  }

  /** The door accepts a trigger only for an order that is active now. */
  function DoLand(s: State): State {
    if !s.worker.Triggering? then s
    else
      var job := s.worker.job;
      s.(worker := if job.id in s.ledger.active then Landed(job) else Clearing(job),
         ledger := LedgerLand(s.ledger, job.id))
  }

  /** A deferred act on an empty bank ends in a moment at once. */
  function DoBank(s: State, empty: bool): State {
    if !s.worker.Landed? then s
    else
      var job := s.worker.job;
      if job.system && empty then s.(worker := Clearing(job), ledger := LedgerMoment(s.ledger, job.id))
      else s.(worker := Waiting(job))
  }

  /** A system turn waits for the slot; out of time it gives up with a moment. */
  function DoAcquire(s: State, inTime: bool): State {
    if !s.worker.Waiting? then s
    else
      var job := s.worker.job;
      if !s.turnBusy then s.(worker := Running(job), turnBusy := true, ledger := LedgerTurn(s.ledger, job.id))
      else if inTime then s
      else s.(worker := Clearing(job), ledger := LedgerMoment(s.ledger, job.id))
  }

  function DoFinish(s: State): State {
    if !s.worker.Running? then s
    else
      s.(worker := Clearing(s.worker.job), turnBusy := false, ledger := LedgerMoment(s.ledger, s.worker.job.id))
  }

  function DoClear(s: State): State {
    if !s.worker.Clearing? then s
    else s.(worker := Free, feed := s.feed.(pending := s.feed.pending - {s.worker.job.id}))
  }

  /** The console takes the slot or fails at once. */
  function DoConsoleTurn(s: State): State {
    if s.turnBusy then s else s.(turnBusy := true, consoleTurn := true)
  }

  function DoConsoleDone(s: State): State {
    if s.consoleTurn then s.(turnBusy := false, consoleTurn := false) else s
  }

  function Do(s: State, step: Step): State {
    match step
    case Place(id) => s.(ledger := LedgerPlace(s.ledger, id))
    case End(id) => s.(ledger := LedgerEnd(s.ledger, id))
    case Hit(job) => s.(feed := FeedHit(s.feed, job))
    case Arm => s.(feed := FeedArm(s.feed))
    case Send => s.(feed := FeedSend(s.feed))
    case Undo => s.(feed := FeedUndo(s.feed))
    case Take => DoTake(s)
    case Verdict(yes) => DoVerdict(s, yes)
    case Land => DoLand(s)
    case Bank(empty) => DoBank(s, empty)
    case Acquire(inTime) => DoAcquire(s, inTime)
    case Finish => DoFinish(s)
    case Clear => DoClear(s)
    case ConsoleTurn => DoConsoleTurn(s)
    case ConsoleDone => DoConsoleDone(s)
  }

  function Run(s: State, steps: seq<Step>): State {
    if steps == [] then s else Do(Run(s, steps[..|steps| - 1]), steps[|steps| - 1])
  }

  // ---- one job per mark ----

  function InHand(a: Absorb): set<int> {
    if a.Armed? || a.Dropped? then {a.job.id} else {}
  }

  function Queued(q: seq<Job>): set<int> {
    set i | 0 <= i < |q| :: q[i].id
  }

  function AtWork(w: Worker): set<int> {
    if w.Free? then {} else {w.job.id}
  }

  predicate DistinctJobs(q: seq<Job>) {
    forall i, j :: 0 <= i < j < |q| ==> q[i].id != q[j].id
  }

  /** The marks are exactly the orders with a job in the absorb side's hand, in the queue or at work, and no
      order has two. */
  predicate OneJobPerMark(f: Feed, w: Worker) {
    && f.pending == InHand(f.absorb) + Queued(f.queue) + AtWork(w)
    && InHand(f.absorb) !! Queued(f.queue) && InHand(f.absorb) !! AtWork(w) && Queued(f.queue) !! AtWork(w)
    && DistinctJobs(f.queue) && |f.queue| <= QUEUE_CAP
    && (f.absorb.Cleared? ==> f.absorb.job.id !in f.pending)
  }

  lemma QueuedAppend(q: seq<Job>, job: Job)
    ensures Queued(q + [job]) == Queued(q) + {job.id}
    ensures DistinctJobs(q) && job.id !in Queued(q) ==> DistinctJobs(q + [job])
  {
    forall id
      ensures id in Queued(q + [job]) <==> id in Queued(q) + {job.id}
    {
      if id in Queued(q) {
        var i :| 0 <= i < |q| && q[i].id == id;
        assert (q + [job])[i].id == id;
      }
      assert (q + [job])[|q|] == job;
    }
    if job.id !in Queued(q) {
      assert forall i :: 0 <= i < |q| ==> q[i].id in Queued(q);
    }
  }

  lemma QueuedPrepend(job: Job, q: seq<Job>)
    ensures Queued([job] + q) == {job.id} + Queued(q)
  {
    var all := [job] + q;
    forall id
      ensures id in Queued(all) <==> id in {job.id} + Queued(q)
    {
      if id in Queued(q) {
        var i :| 0 <= i < |q| && q[i].id == id;
        assert all[i + 1].id == id;
      }
      assert all[0] == job;
    }
  }

  lemma QueuedTake(q: seq<Job>)
    requires q != [] && DistinctJobs(q)
    ensures Queued(q) == {q[0].id} + Queued(q[1..]) && q[0].id !in Queued(q[1..]) && DistinctJobs(q[1..])
  {
    QueuedPrepend(q[0], q[1..]);
    assert q == [q[0]] + q[1..];
  }

  lemma HitKeepsOneJob(f: Feed, w: Worker, job: Job)
    requires OneJobPerMark(f, w)
    ensures OneJobPerMark(FeedHit(f, job), w)
  {
    hide Queued;
  }

  lemma ArmKeepsOneJob(f: Feed, w: Worker)
    requires OneJobPerMark(f, w)
    ensures OneJobPerMark(FeedArm(f), w)
  {
    hide Queued, Capped;
  }

  lemma SendKeepsOneJob(f: Feed, w: Worker)
    requires OneJobPerMark(f, w)
    ensures OneJobPerMark(FeedSend(f), w)
  {
    hide Queued, DistinctJobs;
    if f.absorb.Armed? {
      QueuedAppend(f.queue, f.absorb.job);
    }
  }

  lemma UndoKeepsOneJob(f: Feed, w: Worker)
    requires OneJobPerMark(f, w)
    ensures OneJobPerMark(FeedUndo(f), w)
  {
    hide Queued;
  }

  lemma TakeKeepsOneJob(s: State)
    requires OneJobPerMark(s.feed, s.worker)
    ensures OneJobPerMark(DoTake(s).feed, DoTake(s).worker)
  {
    hide Queued, DistinctJobs;
    if s.feed.queue != [] {
      QueuedTake(s.feed.queue);
    }
  }

  lemma ClearKeepsOneJob(s: State)
    requires OneJobPerMark(s.feed, s.worker)
    ensures OneJobPerMark(DoClear(s).feed, DoClear(s).worker)
  {
    hide Queued;
  }

  lemma MarksUnmoved(f: Feed, w: Worker, w': Worker)
    requires OneJobPerMark(f, w) && AtWork(w') == AtWork(w)
    ensures OneJobPerMark(f, w')
  {
  }

  lemma StepKeepsOneJob(s: State, step: Step)
    requires OneJobPerMark(s.feed, s.worker)
    ensures OneJobPerMark(Do(s, step).feed, Do(s, step).worker)
  {
    hide OneJobPerMark, FeedHit, FeedArm, FeedSend, FeedUndo, LedgerPlace, LedgerEnd, LedgerLand, LedgerMoment, LedgerTurn;
    match step
    case Hit(job) => HitKeepsOneJob(s.feed, s.worker, job);
    case Arm => ArmKeepsOneJob(s.feed, s.worker);
    case Send => SendKeepsOneJob(s.feed, s.worker);
    case Undo => UndoKeepsOneJob(s.feed, s.worker);
    case Take => TakeKeepsOneJob(s);
    case Clear => ClearKeepsOneJob(s);
    case _ => MarksUnmoved(s.feed, s.worker, Do(s, step).worker);
  }

  // ---- one turn at a time ----

  predicate SingleFlight(s: State) {
    && (s.turnBusy <==> s.worker.Running? || s.consoleTurn)
    && !(s.worker.Running? && s.consoleTurn)
  }

  lemma StepKeepsSingleFlight(s: State, step: Step)
    requires SingleFlight(s)
    ensures SingleFlight(Do(s, step))
  {
    hide FeedHit, FeedArm, FeedSend, FeedUndo, LedgerPlace, LedgerEnd, LedgerLand, LedgerMoment, LedgerTurn;
  }

  // ---- one turn per order ----

  function Unresolved(w: Worker, id: int): int {
    if (w.Landed? || w.Waiting? || w.Running?) && w.job.id == id then 1 else 0
  }

  function InTurn(w: Worker, id: int): int {
    if w.Running? && w.job.id == id then 1 else 0
  }

  /** What has become of an order id: each placement is active still, or was ended or triggered once; each
      trigger has its one moment or is being worked on; and a turn ran only for a trigger. */
  predicate Accounted(l: Ledger, w: Worker, id: int) {
    && At(l.placed, id) == At(l.landed, id) + At(l.ended, id) + (if id in l.active then 1 else 0)
    && At(l.landed, id) == At(l.moments, id) + Unresolved(w, id)
    && 0 <= At(l.turns, id) <= At(l.moments, id) + InTurn(w, id)
  }

  lemma BumpAt(t: Tally, x: int, id: int)
    ensures At(Bump(t, x), id) == At(t, id) + if id == x then 1 else 0
  {
  }

  lemma LedgerKeepsAccounted(l: Ledger, w: Worker, x: int, id: int)
    requires Accounted(l, w, id)
    ensures Accounted(LedgerPlace(l, x), w, id) && Accounted(LedgerEnd(l, x), w, id)
  {
    hide At, Bump;
    BumpAt(l.placed, x, id);
    BumpAt(l.ended, x, id);
  }

  lemma LandKeepsAccounted(s: State, id: int)
    requires Accounted(s.ledger, s.worker, id)
    ensures Accounted(DoLand(s).ledger, DoLand(s).worker, id)
  {
    hide At, Bump;
    if s.worker.Triggering? {
      BumpAt(s.ledger.landed, s.worker.job.id, id);
    }
  }

  lemma BankKeepsAccounted(s: State, empty: bool, id: int)
    requires Accounted(s.ledger, s.worker, id)
    ensures Accounted(DoBank(s, empty).ledger, DoBank(s, empty).worker, id)
  {
    hide At, Bump;
    if s.worker.Landed? {
      BumpAt(s.ledger.moments, s.worker.job.id, id);
    }
  }

  lemma AcquireKeepsAccounted(s: State, inTime: bool, id: int)
    requires Accounted(s.ledger, s.worker, id)
    ensures Accounted(DoAcquire(s, inTime).ledger, DoAcquire(s, inTime).worker, id)
  {
    hide At, Bump;
    if s.worker.Waiting? {
      BumpAt(s.ledger.moments, s.worker.job.id, id);
      BumpAt(s.ledger.turns, s.worker.job.id, id);
    }
  }

  lemma FinishKeepsAccounted(s: State, id: int)
    requires Accounted(s.ledger, s.worker, id)
    ensures Accounted(DoFinish(s).ledger, DoFinish(s).worker, id)
  {
    hide At, Bump;
    if s.worker.Running? {
      BumpAt(s.ledger.moments, s.worker.job.id, id);
    }
  }

  lemma StepKeepsAccounted(s: State, step: Step, id: int)
    requires Accounted(s.ledger, s.worker, id)
    ensures Accounted(Do(s, step).ledger, Do(s, step).worker, id)
  {
    hide At, FeedHit, FeedArm, FeedSend, FeedUndo, LedgerPlace, LedgerEnd, DoLand, DoBank, DoAcquire, DoFinish;
    match step
    case Place(x) => LedgerKeepsAccounted(s.ledger, s.worker, x, id);
    case End(x) => LedgerKeepsAccounted(s.ledger, s.worker, x, id);
    case Land => LandKeepsAccounted(s, id);
    case Bank(empty) => BankKeepsAccounted(s, empty, id);
    case Acquire(inTime) => AcquireKeepsAccounted(s, inTime, id);
    case Finish => FinishKeepsAccounted(s, id);
    case _ =>
  }

  // ---- confirms are rationed ----

  /** Every confirm of this order queued so far came at `bound` or before. */
  predicate ConfirmedBy(confirms: seq<Job>, id: int, bound: int) {
    forall i :: 0 <= i < |confirms| && confirms[i].id == id ==> confirms[i].tick <= bound
  }

  predicate NeverConfirmed(confirms: seq<Job>, id: int) {
    forall i :: 0 <= i < |confirms| ==> confirms[i].id != id
  }

  predicate Spaced(confirms: seq<Job>) {
    forall i, j :: 0 <= i < j < |confirms| && confirms[i].id == confirms[j].id ==>
      confirms[j].tick - confirms[i].tick >= CONFIRM_RATE_TICKS
  }

  predicate ConfirmInHand(a: Absorb, id: int) {
    (a.Armed? || a.Dropped?) && a.job.confirm && a.job.id == id
  }

  /** How the mark of the last confirm relates to the confirms actually queued. */
  predicate RateInv(f: Feed, id: int) {
    if ConfirmInHand(f.absorb, id) then
      && id in f.last && f.last[id] == f.absorb.job.tick
      && ConfirmedBy(f.confirms, id, f.absorb.job.tick - CONFIRM_RATE_TICKS)
    else if id in f.last then ConfirmedBy(f.confirms, id, f.last[id])
    else if id in f.seen then ConfirmedBy(f.confirms, id, f.seen[id] - CONFIRM_RATE_TICKS)
    else NeverConfirmed(f.confirms, id)
  }

  predicate JustSeen(f: Feed, job: Job) {
    job.id in f.seen && f.seen[job.id] == job.tick
  }

  ghost predicate Rationed(f: Feed) {
    && Spaced(f.confirms)
    && (forall id :: RateInv(f, id))
    && (!f.absorb.Idle? ==> JustSeen(f, f.absorb.job))
  }

  lemma LooserBound(confirms: seq<Job>, id: int, bound: int, looser: int)
    requires ConfirmedBy(confirms, id, bound) && bound <= looser
    ensures ConfirmedBy(confirms, id, looser)
  {
  }

  lemma HitRate(f: Feed, job: Job, id: int)
    requires RateInv(f, id)
    ensures RateInv(FeedHit(f, job), id)
  {
    if id == job.id && id !in f.last && id in f.seen && f.seen[id] <= job.tick {
      LooserBound(f.confirms, id, f.seen[id] - CONFIRM_RATE_TICKS, job.tick - CONFIRM_RATE_TICKS);
    }
  }

  lemma ArmRate(f: Feed, id: int)
    requires f.absorb.Cleared? && JustSeen(f, f.absorb.job) && RateInv(f, id)
    ensures RateInv(FeedArm(f), id)
  {
    hide ConfirmedBy;
    var job := f.absorb.job;
    if id in f.last && job.confirm && id == job.id && !Capped(f.last, job) {
      LooserBound(f.confirms, id, f.last[id], job.tick - CONFIRM_RATE_TICKS);
    }
  }

  lemma SendRate(f: Feed, id: int)
    requires f.absorb.Armed? && RateInv(f, id)
    ensures RateInv(FeedSend(f), id)
  {
    var job := f.absorb.job;
    if job.confirm && |f.queue| < QUEUE_CAP {
      assert FeedSend(f).confirms == f.confirms + [job];
    }
  }

  lemma SendSpaced(f: Feed)
    requires f.absorb.Armed? && Spaced(f.confirms) && RateInv(f, f.absorb.job.id)
    ensures Spaced(FeedSend(f).confirms)
  {
    var job := f.absorb.job;
    if job.confirm && |f.queue| < QUEUE_CAP {
      assert ConfirmInHand(f.absorb, job.id);
      assert FeedSend(f).confirms == f.confirms + [job];
    }
  }

  lemma UndoRate(f: Feed, id: int)
    requires f.absorb.Dropped? && JustSeen(f, f.absorb.job) && RateInv(f, id)
    ensures RateInv(FeedUndo(f), id)
  {
    hide ConfirmedBy;
  }

  lemma AbsorbKeepsRationed(f: Feed, step: Step)
    requires Rationed(f)
    ensures Rationed(FeedArm(f)) && Rationed(FeedSend(f)) && Rationed(FeedUndo(f))
    ensures step.Hit? ==> Rationed(FeedHit(f, step.job))
  {
    hide RateInv, Capped, Spaced;
    forall id
      ensures f.absorb.Cleared? ==> RateInv(FeedArm(f), id)
      ensures f.absorb.Armed? ==> RateInv(FeedSend(f), id)
      ensures f.absorb.Dropped? ==> RateInv(FeedUndo(f), id)
      ensures step.Hit? ==> RateInv(FeedHit(f, step.job), id)
    {
      assert RateInv(f, id);
      if f.absorb.Cleared? {
        ArmRate(f, id);
      } else if f.absorb.Armed? {
        SendRate(f, id);
      } else if f.absorb.Dropped? {
        UndoRate(f, id);
      }
      if step.Hit? {
        HitRate(f, step.job, id);
      }
    }
    if f.absorb.Armed? {
      SendSpaced(f);
    }
  }

  lemma SameRate(f: Feed, f': Feed)
    requires Rationed(f)
    requires f'.absorb == f.absorb && f'.last == f.last && f'.seen == f.seen && f'.confirms == f.confirms
    ensures Rationed(f')
  {
    forall id
      ensures RateInv(f', id)
    {
      assert RateInv(f, id);
    }
  }

  lemma StepKeepsRationed(s: State, step: Step)
    requires Rationed(s.feed)
    ensures Rationed(Do(s, step).feed)
  {
    hide Rationed, FeedHit, FeedArm, FeedSend, FeedUndo, LedgerPlace, LedgerEnd, LedgerLand, LedgerMoment, LedgerTurn;
    if step.Hit? || step.Arm? || step.Send? || step.Undo? {
      AbsorbKeepsRationed(s.feed, step);
    } else {
      SameRate(s.feed, Do(s, step).feed);
    }
  }

  // ---- every run ----

  ghost predicate Inv(s: State) {
    && OneJobPerMark(s.feed, s.worker) && SingleFlight(s) && Rationed(s.feed)
    && forall id :: Accounted(s.ledger, s.worker, id)
  }

  lemma StepKeepsInv(s: State, step: Step)
    requires Inv(s)
    ensures Inv(Do(s, step))
  {
    hide OneJobPerMark, SingleFlight, Rationed, Accounted, Do;
    StepKeepsOneJob(s, step);
    StepKeepsSingleFlight(s, step);
    StepKeepsRationed(s, step);
    forall id
      ensures Accounted(Do(s, step).ledger, Do(s, step).worker, id)
    {
      StepKeepsAccounted(s, step, id);
    }
  }

  lemma StartInv()
    ensures Inv(START)
  {
    assert Queued([]) == {};
  }

  lemma {:induction false} RunKeepsInv(steps: seq<Step>)
    ensures Inv(Run(START, steps))
  {
    hide Inv, Do;
    if steps != [] {
      RunKeepsInv(steps[..|steps| - 1]);
      StepKeepsInv(Run(START, steps[..|steps| - 1]), steps[|steps| - 1]);
    } else {
      StartInv();
    }
  }

  /** Over every interleaving, whatever the mirror believed: an order is marked exactly while one job for it
      is in hand, queued or at work, and the queue holds no order twice. */
  lemma MarkedIffOneJob(steps: seq<Step>, id: int)
    ensures var s := Run(START, steps);
            var hand, queued, work := InHand(s.feed.absorb), Queued(s.feed.queue), AtWork(s.worker);
            (id in s.feed.pending <==> id in hand || id in queued || id in work) &&
            !(id in hand && id in queued) && !(id in hand && id in work) && !(id in queued && id in work) &&
            DistinctJobs(s.feed.queue) && |s.feed.queue| <= QUEUE_CAP
  {
    RunKeepsInv(steps);
  }

  /** A system turn runs at most once for each placement of an order, never for one that was cancelled or
      expired first, never beside a console turn, and every landed trigger ends in exactly one moment. */
  lemma OneTurnPerOrder(steps: seq<Step>, id: int)
    ensures var s := Run(START, steps);
            At(s.ledger.turns, id) + At(s.ledger.ended, id) <= At(s.ledger.placed, id) &&
            !(s.worker.Running? && s.consoleTurn) &&
            (s.worker.Free? ==> At(s.ledger.moments, id) == At(s.ledger.landed, id))
  {
    RunKeepsInv(steps);
    assert Accounted(Run(START, steps).ledger, Run(START, steps).worker, id);
  }

  /** Two confirms of one order are queued at least 30 game minutes apart, a full queue notwithstanding. */
  lemma ConfirmsAreSpaced(steps: seq<Step>, i: nat, j: nat)
    requires i < j < |Run(START, steps).feed.confirms|
    requires Run(START, steps).feed.confirms[i].id == Run(START, steps).feed.confirms[j].id
    ensures var confirms := Run(START, steps).feed.confirms;
            confirms[j].tick - confirms[i].tick >= CONFIRM_RATE_TICKS
  {
    RunKeepsInv(steps);
  }

  // ---- the matcher is a run of the machine ----

  function MarksOf(f: Feed): Marks {
    Marks(f.pending, f.last, f.queue)
  }

  lemma RunOfFour(s: State, a: Step, b: Step, c: Step, d: Step)
    ensures Run(s, [a, b, c, d]) == Do(Do(Do(Do(s, a), b), c), d)
  {
    hide Do;
    assert [a, b, c, d][..3] == [a, b, c] && [a, b, c][..2] == [a, b] && [a, b][..1] == [a] && [a][..0] == [];
    assert Run(s, [a]) == Do(s, a);
    assert Run(s, [a, b]) == Do(Do(s, a), b);
    assert Run(s, [a, b, c]) == Do(Do(Do(s, a), b), c);
  }

  lemma FourMarks(f: Feed, job: Job)
    requires f.absorb == Idle && job.id !in f.pending && InTime(f, job.id, job.tick)
    ensures var f' := FeedUndo(FeedSend(FeedArm(FeedHit(f, job))));
            MarksOf(f') == Enqueue(MarksOf(f), job) && f'.absorb == Idle && f'.seen == f.seen[job.id := job.tick]
  {
    if !Capped(f.last, job) && |f.queue| >= QUEUE_CAP {
      assert (f.pending + {job.id}) - {job.id} == f.pending;
      assert job.confirm ==> f.last[job.id := job.tick] - {job.id} == f.last - {job.id};
    }
  }

  /** The steps take the machine from `s` to these marks with the absorb side idle again, and match no orders
      but these. */
  predicate Reaches(s: State, steps: seq<Step>, m: Marks, orders: seq<Order>) {
    var f := Run(s, steps).feed;
    && MarksOf(f) == m && f.absorb == Idle
    && forall id :: id in f.seen && (forall i :: 0 <= i < |orders| ==> orders[i].id != id) ==>
         id in s.feed.seen && f.seen[id] == s.feed.seen[id]
  }

  predicate BatchInTime(f: Feed, id: int, batch: seq<Event>) {
    id in f.seen ==> forall j :: 0 <= j < |batch| ==> f.seen[id] <= batch[j].tick
  }

  /** What matchOrders does for one order is the machine's check, arm, send and undo with nothing between. */
  lemma MatchOrderIsARun(s: State, o: Order, batch: seq<Event>)
    requires s.feed.absorb == Idle && BatchInTime(s.feed, o.id, batch)
    ensures exists steps :: Reaches(s, steps, MatchOrder(MarksOf(s.feed), o, batch), [o])
  {
    hide FeedHit, FeedArm, FeedSend, FeedUndo, Enqueue;
    var i := FirstHit(o, batch);
    if !o.active || o.id in s.feed.pending || i == |batch| {
      assert Reaches(s, [], MatchOrder(MarksOf(s.feed), o, batch), [o]);
    } else {
      var job := Job(o.id, o.confirm, o.system, batch[i].tick);
      RunOfFour(s, Hit(job), Arm, Send, Undo);
      FourMarks(s.feed, job);
      assert [o][0] == o;
      assert Reaches(s, [Hit(job), Arm, Send, Undo], MatchOrder(MarksOf(s.feed), o, batch), [o]);
    }
  }

  lemma {:induction false} RunConcat(s: State, a: seq<Step>, b: seq<Step>)
    ensures Run(s, a + b) == Run(Run(s, a), b)
  {
    hide Do;
    if b == [] {
      assert a + b == a;
    } else {
      assert (a + b)[..|a + b| - 1] == a + b[..|b| - 1];
      RunConcat(s, a, b[..|b| - 1]);
    }
  }

  predicate DistinctOrders(orders: seq<Order>) {
    forall i, j :: 0 <= i < j < |orders| ==> orders[i].id != orders[j].id
  }

  lemma ReachesOn(s: State, a: seq<Step>, m: Marks, orders: seq<Order>, b: seq<Step>, m': Marks, o: Order)
    requires Reaches(s, a, m, orders) && Reaches(Run(s, a), b, m', [o])
    ensures Reaches(s, a + b, m', orders + [o])
  {
    RunConcat(s, a, b);
    hide Run;
    var f := Run(s, a + b).feed;
    var all := orders + [o];
    assert all[|orders|] == o && forall i :: 0 <= i < |orders| ==> all[i] == orders[i];
    assert [o][0] == o;
  }

  /** The whole pass of matchOrders over the mirror is a run of the machine. */
  lemma {:induction false} MatchAllIsARun(s: State, orders: seq<Order>, batch: seq<Event>)
    requires s.feed.absorb == Idle && DistinctOrders(orders)
    requires forall i :: 0 <= i < |orders| ==> BatchInTime(s.feed, orders[i].id, batch)
    ensures exists steps :: Reaches(s, steps, MatchAll(MarksOf(s.feed), orders, batch), orders)
  {
    hide MatchOrder;
    if orders == [] {
      assert Reaches(s, [], MatchAll(MarksOf(s.feed), orders, batch), orders);
    } else {
      var earlier, o := orders[..|orders| - 1], orders[|orders| - 1];
      MatchAllIsARun(s, earlier, batch);
      var m := MatchAll(MarksOf(s.feed), earlier, batch);
      var a :| Reaches(s, a, m, earlier);
      assert BatchInTime(Run(s, a).feed, o.id, batch);
      MatchOrderIsARun(Run(s, a), o, batch);
      var b :| Reaches(Run(s, a), b, MatchOrder(m, o, batch), [o]);
      ReachesOn(s, a, m, earlier, b, MatchOrder(m, o, batch), o);
      assert orders == earlier + [o];
      assert Reaches(s, a + b, MatchAll(MarksOf(s.feed), orders, batch), orders);
    }
  }

  // ---- what a pass queues ----

  /** The `i`-th event of the batch is the first to match an order that is active, not marked, and, when it is a
      confirm one, not confirmed within the last half hour. */
  predicate Fires(m: Marks, o: Order, batch: seq<Event>, i: nat) {
    && o.active && o.id !in m.pending
    && i < |batch| && OrderMatches(o, batch[i]) && (forall j :: 0 <= j < i ==> !OrderMatches(o, batch[j]))
    && !(o.confirm && o.id in m.last && batch[i].tick - m.last[o.id] < 1800)
  }

  /** The jobs a batch gives rise to, in mirror order. */
  ghost function DueJobs(m: Marks, orders: seq<Order>, batch: seq<Event>): seq<Job> {
    if orders == [] then []
    else
      var o := orders[|orders| - 1];
      DueJobs(m, orders[..|orders| - 1], batch) +
      if i: nat :| Fires(m, o, batch, i) then [Job(o.id, o.confirm, o.system, batch[i].tick)] else []
  }

  function Upto(jobs: seq<Job>, n: int): seq<Job> {
    if n <= 0 then [] else if n < |jobs| then jobs[..n] else jobs
  }

  predicate SameMark(m: Marks, m': Marks, id: int) {
    (id in m'.last <==> id in m.last) && (id in m.last ==> m'.last[id] == m.last[id])
  }

  /** From `m` to `m'` the jobs went in as far as there was room: each queued one is marked and, when it is a
      confirm one, leaves its tick; one that found the queue full is unmarked and loses the tick of its last
      confirm; nothing else changes. */
  ghost predicate QueuedAs(m: Marks, m': Marks, jobs: seq<Job>) {
    var room := QUEUE_CAP - |m.queue|;
    && m'.queue == m.queue + Upto(jobs, room)
    && m'.pending == m.pending + Queued(Upto(jobs, room))
    && (forall k :: 0 <= k < |jobs| && jobs[k].confirm ==>
          if k < room then jobs[k].id in m'.last && m'.last[jobs[k].id] == jobs[k].tick
          else jobs[k].id !in m'.last)
    && (forall id :: (forall k :: 0 <= k < |jobs| && jobs[k].confirm ==> jobs[k].id != id) ==> SameMark(m, m', id))
  }

  lemma QueueOneMore(m: Marks, m1: Marks, jobs: seq<Job>, job: Job)
    requires |m.queue| <= QUEUE_CAP && QueuedAs(m, m1, jobs) && !Capped(m1.last, job)
    requires forall k :: 0 <= k < |jobs| ==> jobs[k].id != job.id
    ensures QueuedAs(m, Enqueue(m1, job), jobs + [job])
  {
    hide Queued;
    var room, m2, all := QUEUE_CAP - |m.queue|, Enqueue(m1, job), jobs + [job];
    if |jobs| < room {
      assert Upto(all, room) == Upto(jobs, room) + [job];
      QueuedAppend(Upto(jobs, room), job);
    } else {
      assert Upto(all, room) == Upto(jobs, room);
    }
    forall id | forall k :: 0 <= k < |all| && all[k].confirm ==> all[k].id != id
      ensures SameMark(m, m2, id)
    {
      assert forall k :: 0 <= k < |jobs| ==> all[k] == jobs[k];
      assert all[|jobs|] == job;
      assert SameMark(m, m1, id);
    }
    forall k | 0 <= k < |all| && all[k].confirm
      ensures if k < room then all[k].id in m2.last && m2.last[all[k].id] == all[k].tick else all[k].id !in m2.last
    {
      if k < |jobs| {
        assert all[k] == jobs[k];
      }
    }
  }

  /** The ids of the due jobs are ids of these orders. */
  lemma {:induction false} DueIds(m: Marks, orders: seq<Order>, batch: seq<Event>, job: Job)
    requires job in DueJobs(m, orders, batch)
    ensures exists o, i: nat :: o in orders && Fires(m, o, batch, i) && job == Job(o.id, o.confirm, o.system, batch[i].tick)
  {
    var earlier, o := orders[..|orders| - 1], orders[|orders| - 1];
    if job in DueJobs(m, earlier, batch) {
      DueIds(m, earlier, batch, job);
      var p, i: nat :| p in earlier && Fires(m, p, batch, i) && job == Job(p.id, p.confirm, p.system, batch[i].tick);
      assert p in orders;
    } else {
      var i: nat :| Fires(m, o, batch, i) && job == Job(o.id, o.confirm, o.system, batch[i].tick);
      assert o in orders;
    }
  }

  lemma FiresOnce(m: Marks, o: Order, batch: seq<Event>, i: nat, j: nat)
    requires Fires(m, o, batch, i) && Fires(m, o, batch, j)
    ensures i == j
  {
  }

  lemma FiringOrder(m: Marks, o: Order, batch: seq<Event>)
    ensures var i := FirstHit(o, batch);
            var job := Job(o.id, o.confirm, o.system, if i < |batch| then batch[i].tick else 0);
            if Fires(m, o, batch, i) then MatchOrder(m, o, batch) == Enqueue(m, job) && !Capped(m.last, job)
            else MatchOrder(m, o, batch) == m && forall j: nat :: !Fires(m, o, batch, j)
  {
    var i := FirstHit(o, batch);
    forall j: nat | Fires(m, o, batch, j)
      ensures j == i
    {
    }
  }

  /** What one pass over the mirror does to queue, marks and confirm ticks, from the situation it starts in. */
  lemma {:induction false} PassQueuesTheDue(m: Marks, orders: seq<Order>, batch: seq<Event>)
    requires |m.queue| <= QUEUE_CAP && DistinctOrders(orders)
    ensures QueuedAs(m, MatchAll(m, orders, batch), DueJobs(m, orders, batch))
  {
    hide MatchOrder, Enqueue, FirstHit;
    if orders == [] {
      assert Queued([]) == {} && m.queue + [] == m.queue && m.pending + {} == m.pending;
    } else {
      var earlier, o := orders[..|orders| - 1], orders[|orders| - 1];
      PassQueuesTheDue(m, earlier, batch);
      var m1, due := MatchAll(m, earlier, batch), DueJobs(m, earlier, batch);
      UntouchedByOthers(m, m1, orders, batch);
      FiringOrder(m1, o, batch);
      var i := FirstHit(o, batch);
      if Fires(m1, o, batch, i) {
        FiringAlike(m, m1, o, batch, i);
        QueueOneMore(m, m1, due, Job(o.id, o.confirm, o.system, batch[i].tick));
        DueAppends(m, orders, batch, i);
      } else {
        forall j: nat
          ensures !Fires(m, o, batch, j)
        {
          FiringAlike(m, m1, o, batch, j);
        }
        assert DueJobs(m, orders, batch) == due + [];
        assert due + [] == due;
      }
    }
  }

  lemma DueAppends(m: Marks, orders: seq<Order>, batch: seq<Event>, i: nat)
    requires orders != [] && Fires(m, orders[|orders| - 1], batch, i)
    ensures var o := orders[|orders| - 1];
            DueJobs(m, orders, batch)
              == DueJobs(m, orders[..|orders| - 1], batch) + [Job(o.id, o.confirm, o.system, batch[i].tick)]
  {
    var o := orders[|orders| - 1];
    forall j: nat | Fires(m, o, batch, j)
      ensures j == i
    {
      FiresOnce(m, o, batch, i, j);
    }
  }

  lemma FiringAlike(m: Marks, m1: Marks, o: Order, batch: seq<Event>, i: nat)
    requires (o.id in m1.pending <==> o.id in m.pending) && SameMark(m, m1, o.id)
    ensures Fires(m1, o, batch, i) <==> Fires(m, o, batch, i)
  {
  }

  lemma UntouchedByOthers(m: Marks, m1: Marks, orders: seq<Order>, batch: seq<Event>)
    requires orders != [] && DistinctOrders(orders)
    requires QueuedAs(m, m1, DueJobs(m, orders[..|orders| - 1], batch))
    ensures var o := orders[|orders| - 1];
            var due := DueJobs(m, orders[..|orders| - 1], batch);
            (forall k :: 0 <= k < |due| ==> due[k].id != o.id) &&
            (o.id in m1.pending <==> o.id in m.pending) && SameMark(m, m1, o.id)
  {
    var earlier, o := orders[..|orders| - 1], orders[|orders| - 1];
    var due := DueJobs(m, earlier, batch);
    forall k | 0 <= k < |due|
      ensures due[k].id != o.id
    {
      DueIds(m, earlier, batch, due[k]);
      var p, i: nat :| p in earlier && Fires(m, p, batch, i) && due[k] == Job(p.id, p.confirm, p.system, batch[i].tick);
      var j :| 0 <= j < |earlier| && earlier[j] == p;
      assert orders[j].id == p.id;
    }
    var taken := Upto(due, QUEUE_CAP - |m.queue|);
    assert forall k :: 0 <= k < |taken| ==> taken[k] == due[k];
  }

  lemma {:induction false} FiringIsDue(m: Marks, orders: seq<Order>, batch: seq<Event>, o: Order, i: nat)
    requires o in orders && Fires(m, o, batch, i)
    ensures Job(o.id, o.confirm, o.system, batch[i].tick) in DueJobs(m, orders, batch)
  {
    if o in orders[..|orders| - 1] {
      FiringIsDue(m, orders[..|orders| - 1], batch, o, i);
    } else {
      DueAppends(m, orders, batch, i);
    }
  }

  /** With room for all, a pass queues a job if and only if some order of the mirror is active and not marked, an
      event of the batch matches it, the first such event is not within half an hour of its last confirm when it
      is a confirm order, and the job carries that event's tick. */
  lemma JobIsQueuedIff(m: Marks, orders: seq<Order>, batch: seq<Event>, job: Job)
    requires |m.queue| + |orders| <= QUEUE_CAP && DistinctOrders(orders)
    ensures job in MatchAll(m, orders, batch).queue <==>
              job in m.queue ||
              exists o, i: nat :: o in orders && Fires(m, o, batch, i) && job == Job(o.id, o.confirm, o.system, batch[i].tick)
  {
    hide QueuedAs;
    PassQueuesTheDue(m, orders, batch);
    DueAreFew(m, orders, batch);
    AllDueQueued(m, MatchAll(m, orders, batch), DueJobs(m, orders, batch), job);
    if job in DueJobs(m, orders, batch) {
      DueIds(m, orders, batch, job);
    }
    if o, i: nat :| o in orders && Fires(m, o, batch, i) && job == Job(o.id, o.confirm, o.system, batch[i].tick) {
      FiringIsDue(m, orders, batch, o, i);
    }
  }

  lemma AllDueQueued(m: Marks, m': Marks, jobs: seq<Job>, job: Job)
    requires QueuedAs(m, m', jobs) && |m.queue| + |jobs| <= QUEUE_CAP
    ensures job in m'.queue <==> job in m.queue || job in jobs
  {
    assert Upto(jobs, QUEUE_CAP - |m.queue|) == jobs;
  }

  lemma {:induction false} DueAreFew(m: Marks, orders: seq<Order>, batch: seq<Event>)
    ensures |DueJobs(m, orders, batch)| <= |orders|
  {
    if orders != [] {
      DueAreFew(m, orders[..|orders| - 1], batch);
    }
  }

  // ---- the worker gets on ----

  /** With the slot free, the worker takes the head of the queue to its end: a structural job, or a confirm job
      answered yes, of an order that is still active fires it, runs its one turn, reports its one moment and
      clears its mark. */
  lemma HeadFires(s: State)
    requires Inv(s) && s.worker.Free? && s.feed.queue != [] && !s.turnBusy && s.feed.queue[0].id in s.ledger.active
    ensures var job := s.feed.queue[0];
            var s1 := Do(s, Take);
            var s2 := if job.confirm then Do(s1, Verdict(true)) else s1;
            var s' := Do(Do(Do(Do(Do(s2, Land), Bank(false)), Acquire(true)), Finish), Clear);
            s'.worker.Free? && !s'.turnBusy && s'.feed.queue == s.feed.queue[1..] && job.id !in s'.feed.pending &&
            job.id !in s'.ledger.active &&
            At(s'.ledger.landed, job.id) == At(s.ledger.landed, job.id) + 1 &&
            At(s'.ledger.turns, job.id) == At(s.ledger.turns, job.id) + 1 &&
            At(s'.ledger.moments, job.id) == At(s.ledger.moments, job.id) + 1
  {
    var job := s.feed.queue[0];
    BumpAt(s.ledger.landed, job.id, job.id);
    BumpAt(s.ledger.turns, job.id, job.id);
    BumpAt(s.ledger.moments, job.id, job.id);
  }

  /** A confirm job answered no, and one whose order has ended meanwhile, only clears its mark; a deferred act on
      an empty bank fires the order and ends in a moment without a turn. */
  lemma HeadEnds(s: State)
    requires Inv(s) && s.worker.Free? && s.feed.queue != []
    ensures var job := s.feed.queue[0];
            var cleared := s.(feed := s.feed.(queue := s.feed.queue[1..], pending := s.feed.pending - {job.id}));
            (job.confirm ==> Do(Do(Do(s, Take), Verdict(false)), Clear) == cleared) &&
            (!job.confirm && job.id !in s.ledger.active ==> Do(Do(Do(s, Take), Land), Clear) == cleared) &&
            (!job.confirm && job.system && job.id in s.ledger.active ==>
               var s' := Do(Do(Do(Do(s, Take), Land), Bank(true)), Clear);
               s'.worker.Free? && At(s'.ledger.turns, job.id) == At(s.ledger.turns, job.id) &&
               At(s'.ledger.moments, job.id) == At(s.ledger.moments, job.id) + 1 && job.id !in s'.ledger.active)
  {
    BumpAt(s.ledger.moments, s.feed.queue[0].id, s.feed.queue[0].id);
  }

  /** The slot passes between console and worker: the console gets it whenever it is free, is refused while it is
      taken and gives it back as it was; the worker waits while it is taken, and out of time reports one moment
      without a turn. */
  lemma SlotIsPassedOn(s: State)
    requires Inv(s)
    ensures s.turnBusy ==> Do(s, ConsoleTurn) == s
    ensures !s.turnBusy ==>
              var s1 := Do(s, ConsoleTurn);
              s1.turnBusy && s1.consoleTurn && s1.worker == s.worker && Do(s1, ConsoleDone) == s
    ensures s.worker.Waiting? && s.turnBusy ==>
              Do(s, Acquire(true)) == s &&
              var s', id := Do(Do(s, Acquire(false)), Clear), s.worker.job.id;
              s'.worker.Free? && s'.turnBusy && id !in s'.feed.pending &&
              At(s'.ledger.turns, id) == At(s.ledger.turns, id) &&
              At(s'.ledger.moments, id) == At(s.ledger.moments, id) + 1
  {
    if s.worker.Waiting? {
      BumpAt(s.ledger.moments, s.worker.job.id, s.worker.job.id);
    }
  }

  /** Placing an order makes it active, once; cancelling or expiring it ends it, once. */
  lemma PlacedUntilEnded(s: State, id: int)
    ensures var s' := Do(s, Place(id));
            id in s'.ledger.active &&
            At(s'.ledger.placed, id) == At(s.ledger.placed, id) + if id in s.ledger.active then 0 else 1
    ensures var s' := Do(s, End(id));
            id !in s'.ledger.active &&
            At(s'.ledger.ended, id) == At(s.ledger.ended, id) + if id in s.ledger.active then 1 else 0
  {
    BumpAt(s.ledger.placed, id, id);
    BumpAt(s.ledger.ended, id, id);
  }
}
