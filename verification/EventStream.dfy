/** One client's event subscription (internal/ipc/server.go).

    The simulation loop commits batches to the store and then offers them to the session event
    by event, without blocking; a pusher goroutine replays the store from the client's cursor and
    splices the live buffer onto the replay. `Conn` is the shared state of one subscription,
    `Do` one atomic step of any party, and a run is any sequence of steps: every interleaving.
  */
module EventStream {

  /** An event's type, tick and payload: the stream only carries it. */
  datatype Body = Body(record: int)

  datatype Event = Event(no: int, body: Body)

  const PUSH_BUFFER_SIZE := 1024
  const REPLAY_BATCH := 512

  // ---- the store: an append-only log; the event at position i has seq i + 1 ----

  function Max(a: int, b: int): int {
    if a < b then b else a
  }

  /** The logged events with lo < seq <= hi. */
  function Slice(log: seq<Body>, lo: int, hi: int): (events: seq<Event>)
    requires 0 <= lo && hi <= |log|
    ensures |events| == Max(0, hi - lo)
  {
    if hi <= lo then [] else seq(hi - lo, i requires 0 <= i < hi - lo => Event(lo + i + 1, log[lo + i]))
  }

  /** EventsSince: up to `limit` events with seq > since. */
  function EventsSince(log: seq<Body>, since: int, limit: nat): seq<Event> {
    var lo := Max(since, 0);
    if |log| <= lo then [] else Slice(log, lo, if lo + limit < |log| then lo + limit else |log|)
  }

  predicate Logged(log: seq<Body>, e: Event) {
    1 <= e.no <= |log| && e.body == log[e.no - 1]
  }

  /** `events` is the run of the log that starts after seq `lo`. */
  predicate Consecutive(log: seq<Body>, lo: nat, events: seq<Event>) {
    lo + |events| <= |log| &&
    forall i :: 0 <= i < |events| ==> events[i] == Event(lo + i + 1, log[lo + i])
  }

  lemma ConsecutiveIsSlice(log: seq<Body>, lo: nat, events: seq<Event>)
    requires Consecutive(log, lo, events)
    ensures events == Slice(log, lo, lo + |events|)
  {
    var slice := Slice(log, lo, lo + |events|);
    assert forall i :: 0 <= i < |events| ==> slice[i] == events[i];
  }

  lemma EventsSinceConsecutive(log: seq<Body>, since: int, limit: nat)
    ensures var lo := Max(since, 0); var events := EventsSince(log, since, limit);
            (events != [] ==> Consecutive(log, lo, events)) && (limit > 0 ==> (events == [] <==> |log| <= lo))
  {
  }

  /** A page of the store: what is left of the log after `since`, and of that no more than the limit. */
  lemma PageIsFull(log: seq<Body>, since: int, limit: nat)
    ensures var lo, page := Max(since, 0), EventsSince(log, since, limit);
            && |page| == (if |log| - lo < 0 then 0 else if |log| - lo < limit then |log| - lo else limit)
            && forall i :: 0 <= i < |page| ==> page[i] == Event(lo + i + 1, log[lo + i])
  {
  }

  // ---- the session's side: subscribe, unsubscribe, offer ----

  /** What `offer` leaves behind: the channel, whether the subscription stands, and the seq a
      "dropped" push names, if one is sent. */
  datatype Offered = Offered(channel: seq<Event>, open: bool, dropped: seq<int>)

  /** The channel after the pusher has received up to `n` more events from it. */
  function Drained(channel: seq<Event>, n: nat): seq<Event> {
    if n < |channel| then channel[n..] else []
  }

  /** One call of `offer` while the pusher drains the channel at will: before the i-th send it has received
      up to `received[i]` more events. */
  function OfferAmid(channel: seq<Event>, events: seq<Event>, received: seq<nat>): Offered
    requires |received| == |events|
    decreases |events|
  {
    if events == [] then Offered(channel, true, [])
    else
      var drained := Drained(channel, received[0]);
      if |drained| < PUSH_BUFFER_SIZE then OfferAmid(drained + [events[0]], events[1..], received[1..])
      else Offered(drained, false, [events[0].no])
  }

  lemma SendFirst(channel: seq<Event>, events: seq<Event>, received: seq<nat>)
    requires events != [] && |received| == |events| && received[0] == 0
    ensures OfferAmid(channel, events, received) ==
              if |channel| < PUSH_BUFFER_SIZE then OfferAmid(channel + [events[0]], events[1..], received[1..])
              else Offered(channel, false, [events[0].no])
  {
    assert Drained(channel, 0) == channel;
  }

  lemma MovedOver(channel: seq<Event>, events: seq<Event>, n: nat)
    requires 0 < n <= |events|
    ensures channel + [events[0]] + events[1..][..n - 1] == channel + events[..n]
  {
  }

  /** What an undisturbed offer leaves: all of the batch enqueued, or what the room admits. */
  function Undisturbed(channel: seq<Event>, events: seq<Event>): Offered
    requires |channel| <= PUSH_BUFFER_SIZE
  {
    var room := PUSH_BUFFER_SIZE - |channel|;
    if |events| <= room then Offered(channel + events, true, [])
    else Offered(channel + events[..room], false, [events[room].no])
  }

  lemma UndisturbedStep(channel: seq<Event>, events: seq<Event>)
    requires |channel| < PUSH_BUFFER_SIZE && events != []
    ensures Undisturbed(channel + [events[0]], events[1..]) == Undisturbed(channel, events)
  {
    var room := PUSH_BUFFER_SIZE - |channel|;
    MovedOver(channel, events, if |events| <= room then |events| else room);
    assert events[1..][..|events| - 1] == events[1..] && events[..|events|] == events;
  }

  /** Undisturbed, an offer enqueues a prefix: all of the batch, or what the room admits. */
  lemma {:induction false} OfferUndisturbed(channel: seq<Event>, events: seq<Event>, received: seq<nat>)
    requires |channel| <= PUSH_BUFFER_SIZE && |received| == |events| && forall i :: 0 <= i < |received| ==> received[i] == 0
    ensures OfferAmid(channel, events, received) == Undisturbed(channel, events)
    decreases |events|
  {
    if events == [] {
      assert channel + events == channel;
    } else {
      SendFirst(channel, events, received);
      if |channel| < PUSH_BUFFER_SIZE {
        hide OfferAmid, Undisturbed;
        UndisturbedStep(channel, events);
        OfferUndisturbed(channel + [events[0]], events[1..], received[1..]);
      } else {
        assert channel + events[..0] == channel;
      }
    }
  }

  class Session {
    var subscribed: bool
    var subCh: seq<Event>      // the bounded channel; kept after cancellation, the pusher still holds it
    var subQuit: bool          // subQuit is closed
    var lastSeq: int
    var dropped: seq<int>      // LastSeq of each "dropped" push sent

    predicate Valid()
      reads this
    {
      |subCh| <= PUSH_BUFFER_SIZE && (subscribed ==> !subQuit)
    }

    constructor ()
      ensures Valid() && !subscribed && dropped == []
    {
      subscribed, subCh, subQuit, lastSeq, dropped := false, [], false, 0, [];
    }

    /** subscribe: refused while a subscription stands; otherwise a fresh empty channel is open
        before the pusher first reads the store. */
    method Subscribe(head: int, since: seq<int>) returns (ok: bool, cursor: int)
      requires Valid() && |since| <= 1
      modifies this
      ensures Valid() && dropped == old(dropped) && lastSeq == old(lastSeq)
      ensures ok == !old(subscribed)
      ensures ok ==> subscribed && subCh == [] && cursor == if since == [] then head else since[0]
      ensures !ok ==> subscribed && subCh == old(subCh)
    {
      if subscribed {
        return false, 0;
      }
      cursor := head;
      if since != [] {
        cursor := since[0];
      }
      subscribed, subCh, subQuit := true, [], false;
      ok := true;
    }

    method Unsubscribe()
      requires Valid()
      modifies this
      ensures Valid() && !subscribed && subCh == old(subCh) && dropped == old(dropped)
      ensures old(subscribed) ==> subQuit
      ensures !old(subscribed) ==> subQuit == old(subQuit)
    {
      if subscribed {
        subscribed, subQuit := false, true;
      }
    }

    /** The pusher's side of the channel: it takes no lock. */
    method Receive(n: nat)
      requires Valid()
      modifies this`subCh
      ensures Valid() && subCh == Drained(old(subCh), n)
    {
      for i := 0 to n
        invariant subCh == Drained(old(subCh), i)
      {
        if subCh != [] {
          subCh := subCh[1..];
        }
      }
    }

    /** offer: enqueue without ever blocking; the first event that finds the channel full cancels
        the subscription and nothing after it is enqueued. The pusher may receive before every send. */
    method Offer(events: seq<Event>, received: seq<nat>)
      requires Valid() && |received| == |events|
      modifies this
      ensures Valid()
      ensures !old(subscribed) ==> !subscribed && subCh == old(subCh) && dropped == old(dropped)
      ensures old(subscribed) ==>
                var r := OfferAmid(old(subCh), events, received);
                subCh == r.channel && subscribed == r.open && dropped == old(dropped) + r.dropped && subQuit == !r.open
    {
      if !subscribed {
        return;
      }
      var i := 0;
      while i < |events|
        invariant 0 <= i <= |events|
        invariant subscribed && !subQuit && dropped == old(dropped) && |subCh| <= PUSH_BUFFER_SIZE
        invariant OfferAmid(subCh, events[i..], received[i..]) == OfferAmid(old(subCh), events, received)
      {
        Receive(received[i]);
        lastSeq := events[i].no;
        if |subCh| < PUSH_BUFFER_SIZE {
          subCh := subCh + [events[i]];
        } else {
          subscribed, subQuit := false, true;
          dropped := dropped + [lastSeq];
          return;
        }
        i := i + 1;
      }
    }
  }

  // ---- one subscription, all parties ----

  /** Where a fill that has caught up continues: to the select, or to the event that was ahead. */
  datatype After = ToSelect | ToDeliver(e: Event)

  /** The pusher's program counter. */
  datatype Pc =
    | Start                                                   // about to look at the log head
    | Filling(upto: int, after: After)                        // fill: about to test and read
    | Writing(batch: seq<Event>, upto: int, after: After)     // fill: a batch read, partly written
    | Select
    | InHand(e: Event)                                        // received from the buffer
    | Deliver(e: Event)                                       // next in order, about to be written
    | Stopped

  datatype Conn = Conn(
    log: seq<Body>,
    pending: nat,          // the newest `pending` events are committed but not yet sent here
    open: bool,            // the subscription stands
    buffer: seq<Event>,
    pc: Pc,
    cursor: int,
    pushed: seq<Event>)
  {
    predicate Bounded() {
      pending <= |log| && |buffer| <= PUSH_BUFFER_SIZE
    }
  }

  datatype Step =
    | Commit(bodies: seq<Body>)
    | Send
    | Unsubscribe
    | LookAtHead
    | ReadStore(ok: bool)
    | WriteFilled(ok: bool)
    | Receive
    | Quit
    | Judge
    | WriteLive(ok: bool)

  /** The state when `subscribe` returns: any log, possibly with an offer still on its way. */
  function Subscribed(log: seq<Body>, pending: nat, since: int): Conn
    requires pending <= |log|
  {
    Conn(log, pending, true, [], Start, since, [])
  }

  function Resume(s: Conn, after: After): Conn {
    match after
    case ToSelect => s.(pc := Select)
    case ToDeliver(e) => s.(pc := Deliver(e))
  }

  function DoCommit(s: Conn, bodies: seq<Body>): Conn {
    s.(log := s.log + bodies, pending := |bodies|)
  }

  /** The event `offer` is about to send. */
  function NextOffered(s: Conn): Event
    requires s.Bounded() && s.pending > 0
  {
    Event(|s.log| - s.pending + 1, s.log[|s.log| - s.pending])
  }

  /** One send of `offer`: it does not wait, and between two sends anyone else may move. */
  function DoSend(s: Conn): Conn
    requires s.Bounded()
  {
    if s.pending == 0 || !s.open then s.(pending := 0)
    else if |s.buffer| < PUSH_BUFFER_SIZE then s.(pending := s.pending - 1, buffer := s.buffer + [NextOffered(s)])
    else s.(pending := 0, open := false)
  }

  function DoRead(s: Conn, ok: bool): Conn
    requires s.pc.Filling?
  {
    if s.cursor >= s.pc.upto then Resume(s, s.pc.after)
    else
      var batch := EventsSince(s.log, s.cursor, REPLAY_BATCH);
      if !ok || batch == [] then s.(pc := Stopped) else s.(pc := Writing(batch, s.pc.upto, s.pc.after))
  }

  function DoWriteFilled(s: Conn, ok: bool): Conn
    requires s.pc.Writing?
  {
    var Writing(batch, upto, after) := s.pc;
    if batch == [] then s.(pc := Filling(upto, after))
    else if batch[0].no > upto then Resume(s, after)
    else if !ok then s.(pc := Stopped)
    else s.(pc := Writing(batch[1..], upto, after), cursor := batch[0].no, pushed := s.pushed + [batch[0]])
  }

  function DoJudge(s: Conn): Conn
    requires s.pc.InHand?
  {
    var e := s.pc.e;
    if e.no <= s.cursor then s.(pc := Select)
    else if e.no > s.cursor + 1 then s.(pc := Filling(e.no - 1, ToDeliver(e)))
    else s.(pc := Deliver(e))
  }

  function DoWriteLive(s: Conn, ok: bool): Conn
    requires s.pc.Deliver?
  {
    if !ok then s.(pc := Stopped)
    else s.(pc := Select, cursor := s.pc.e.no, pushed := s.pushed + [s.pc.e])
  }

  /** One step; a step that is not enabled changes nothing. */
  function Do(s: Conn, step: Step): (s': Conn)
    requires s.Bounded()
    ensures s'.Bounded()
  {
    match step
    // the loop is the only writer and has offered everything before it commits again
    case Commit(bodies) => if s.pending == 0 then DoCommit(s, bodies) else s
    case Send => DoSend(s)
    case Unsubscribe => s.(open := false)
    case LookAtHead => if s.pc.Start? then s.(pc := Filling(|s.log|, ToSelect)) else s
    case ReadStore(ok) => if s.pc.Filling? then DoRead(s, ok) else s
    case WriteFilled(ok) => if s.pc.Writing? then DoWriteFilled(s, ok) else s
    case Receive =>
      if s.pc.Select? && s.buffer != [] then s.(pc := InHand(s.buffer[0]), buffer := s.buffer[1..]) else s
    case Quit => if s.pc.Select? && !s.open then s.(pc := Stopped) else s
    case Judge => if s.pc.InHand? then DoJudge(s) else s
    case WriteLive(ok) => if s.pc.Deliver? then DoWriteLive(s, ok) else s
  }

  // ---- the invariant ----

  /** The pusher's local data come from the log and fit where it stands. */
  predicate PcFits(s: Conn) {
    match s.pc
    case Start => true
    case Filling(upto, after) => upto <= |s.log| && AfterFits(s, upto, after)
    case Writing(batch, upto, after) =>
      && upto <= |s.log| && AfterFits(s, upto, after)
      && (if batch == [] then s.cursor >= 0 else Consecutive(s.log, Max(s.cursor, 0), batch))
    case Select => s.cursor >= 0 || s.log != []
    case InHand(e) => Logged(s.log, e)
    case Deliver(e) => Logged(s.log, e) && e.no == Max(s.cursor, 0) + 1
    case Stopped => true
  }

  predicate AfterFits(s: Conn, upto: int, after: After) {
    match after
    case ToSelect => upto >= 0
    case ToDeliver(e) => Logged(s.log, e) && upto == e.no - 1 && s.cursor <= upto
  }

  /** The highest seq the pusher is already bound to reach. */
  function Reach(s: Conn): int {
    if s.buffer != [] then s.buffer[|s.buffer| - 1].no
    else match s.pc
      case Start => |s.log|
      case Filling(upto, after) => ReachAfter(upto, after)
      case Writing(_, upto, after) => ReachAfter(upto, after)
      case Select => s.cursor
      case InHand(e) => e.no
      case Deliver(e) => e.no
      case Stopped => s.cursor
  }

  function ReachAfter(upto: int, after: After): int {
    match after
    case ToSelect => upto
    case ToDeliver(e) => e.no
  }

  /** What has been written to the client is exactly the log after `since`, as far as the cursor. */
  predicate Gapless(since: int, s: Conn) {
    && (s.cursor == since || Max(since, 0) < s.cursor <= |s.log|)
    && if s.cursor == since then s.pushed == []
       else Consecutive(s.log, Max(since, 0), s.pushed) && |s.pushed| == s.cursor - Max(since, 0)
  }

  predicate Invariant(since: int, s: Conn) {
    && s.Bounded()
    && (forall i :: 0 <= i < |s.buffer| ==> Logged(s.log, s.buffer[i]))
    && PcFits(s)
    && Gapless(since, s)
    && (s.open && !s.pc.Stopped? ==> |s.log| - s.pending <= Max(Max(s.cursor, 0), Reach(s)))
  }

  lemma SubscribedInvariant(log: seq<Body>, pending: nat, since: int)
    requires pending <= |log|
    ensures Invariant(since, Subscribed(log, pending, since))
  {
  }

  lemma CommitKeepsInvariant(since: int, s: Conn, bodies: seq<Body>)
    requires Invariant(since, s) && s.pending == 0
    ensures Invariant(since, DoCommit(s, bodies))
  {
  }

  lemma SendKeepsInvariant(since: int, s: Conn)
    requires Invariant(since, s)
    ensures Invariant(since, DoSend(s))
  {
    hide Consecutive;
  }

  /** One more event written: it is the next one of the log, so what was pushed stays gapless. */
  lemma WriteKeepsGapless(since: int, s: Conn, e: Event)
    requires Gapless(since, s) && Logged(s.log, e) && e.no == Max(s.cursor, 0) + 1
    requires s.cursor == since || s.cursor >= 0
    ensures Gapless(since, s.(cursor := e.no, pushed := s.pushed + [e]))
  {
  }

  /** A fill that has reached its target hands over in order. */
  lemma ResumeKeepsInvariant(since: int, s: Conn, upto: int, after: After)
    requires Invariant(since, s) && (s.pc == Filling(upto, after) || (s.pc.Writing? && s.pc.upto == upto && s.pc.after == after))
    requires upto <= Max(s.cursor, 0) && (s.cursor >= 0 || s.log != [])
    ensures Invariant(since, Resume(s, after))
  {
  }

  lemma ReadKeepsInvariant(since: int, s: Conn, ok: bool)
    requires Invariant(since, s) && s.pc.Filling?
    ensures Invariant(since, DoRead(s, ok))
  {
    if s.cursor >= s.pc.upto {
      ResumeKeepsInvariant(since, s, s.pc.upto, s.pc.after);
    } else {
      EventsSinceConsecutive(s.log, s.cursor, REPLAY_BATCH);
      hide Consecutive, EventsSince;
    }
  }

  lemma WriteBatchHead(since: int, s: Conn)
    requires Invariant(since, s) && s.pc.Writing? && s.pc.batch != [] && s.pc.batch[0].no <= s.pc.upto
    ensures Invariant(since, DoWriteFilled(s, true))
  {
    var Writing(batch, upto, after) := s.pc;
    WriteKeepsGapless(since, s, batch[0]);
    assert forall i :: 0 <= i < |batch| - 1 ==> batch[1..][i] == batch[i + 1];
  }

  lemma WriteFilledKeepsInvariant(since: int, s: Conn, ok: bool)
    requires Invariant(since, s) && s.pc.Writing?
    ensures Invariant(since, DoWriteFilled(s, ok))
  {
    var Writing(batch, upto, after) := s.pc;
    if batch != [] {
      if batch[0].no > upto {
        ResumeKeepsInvariant(since, s, upto, after);
      } else if ok {
        WriteBatchHead(since, s);
      }
    }
  }

  lemma WriteLiveKeepsInvariant(since: int, s: Conn, ok: bool)
    requires Invariant(since, s) && s.pc.Deliver?
    ensures Invariant(since, DoWriteLive(s, ok))
  {
    WriteKeepsGapless(since, s, s.pc.e);
  }

  lemma ReceiveKeepsInvariant(since: int, s: Conn)
    requires Invariant(since, s)
    ensures Invariant(since, Do(s, Receive))
  {
  }

  lemma JudgeKeepsInvariant(since: int, s: Conn)
    requires Invariant(since, s) && s.pc.InHand?
    ensures Invariant(since, DoJudge(s))
  {
  }

  lemma StepKeepsInvariant(since: int, s: Conn, step: Step)
    requires Invariant(since, s)
    ensures Invariant(since, Do(s, step))
  {
    match step
    case Commit(bodies) => if s.pending == 0 { CommitKeepsInvariant(since, s, bodies); }
    case Send => SendKeepsInvariant(since, s);
    case ReadStore(ok) => if s.pc.Filling? { ReadKeepsInvariant(since, s, ok); }
    case WriteFilled(ok) => if s.pc.Writing? { WriteFilledKeepsInvariant(since, s, ok); }
    case Judge => if s.pc.InHand? { JudgeKeepsInvariant(since, s); }
    case WriteLive(ok) => if s.pc.Deliver? { WriteLiveKeepsInvariant(since, s, ok); }
    case Receive => ReceiveKeepsInvariant(since, s);
    case _ =>
  }

  function Run(s: Conn, steps: seq<Step>): (r: Conn)
    requires s.Bounded()
    ensures r.Bounded()
    decreases |steps|
  {
    if steps == [] then s else Run(Do(s, steps[0]), steps[1..])
  }

  lemma {:induction false} RunKeepsInvariant(since: int, s: Conn, steps: seq<Step>)
    requires Invariant(since, s)
    ensures Invariant(since, Run(s, steps))
    decreases |steps|
  {
    if steps != [] {
      StepKeepsInvariant(since, s, steps[0]);
      RunKeepsInvariant(since, Do(s, steps[0]), steps[1..]);
    }
  }

  // ---- the promises ----

  /** Whatever the interleaving, overflow, cancellation and write failures included, the client has
      received exactly the logged events after `since`, in order, without gap or duplicate. */
  lemma StreamIsGapless(log: seq<Body>, pending: nat, since: int, steps: seq<Step>)
    requires pending <= |log|
    ensures var s := Run(Subscribed(log, pending, since), steps);
            var base := Max(since, 0);
            |s.pushed| == 0 || (base + |s.pushed| <= |s.log| && s.pushed == Slice(s.log, base, base + |s.pushed|))
  {
    SubscribedInvariant(log, pending, since);
    RunKeepsInvariant(since, Subscribed(log, pending, since), steps);
    var s := Run(Subscribed(log, pending, since), steps);
    if s.pushed != [] {
      ConsecutiveIsSlice(s.log, Max(since, 0), s.pushed);
    }
  }

  lemma CaughtUp(since: int, s: Conn)
    requires Invariant(since, s) && s.open && s.pc.Select? && s.buffer == [] && s.pending == 0
    ensures s.cursor == Max(since, |s.log|) && s.pushed == Slice(s.log, Max(since, 0), |s.log|)
  {
    if s.pushed != [] {
      ConsecutiveIsSlice(s.log, Max(since, 0), s.pushed);
    }
  }

  /** When the pusher is idle, its buffer empty and no offer on its way, a subscription that
      still stands has delivered everything in the log after `since`. */
  lemma IdleMeansCaughtUp(log: seq<Body>, pending: nat, since: int, steps: seq<Step>)
    requires pending <= |log|
    requires var s := Run(Subscribed(log, pending, since), steps);
             s.open && s.pc.Select? && s.buffer == [] && s.pending == 0
    ensures var s := Run(Subscribed(log, pending, since), steps);
            s.cursor == Max(since, |s.log|) && s.pushed == Slice(s.log, Max(since, 0), |s.log|)
  {
    SubscribedInvariant(log, pending, since);
    RunKeepsInvariant(since, Subscribed(log, pending, since), steps);
    CaughtUp(since, Run(Subscribed(log, pending, since), steps));
  }

  /** The next thing the pusher does when nothing fails and no one else moves. */
  function PusherStep(s: Conn): Step {
    match s.pc
    case Start => LookAtHead
    case Filling(_, _) => ReadStore(true)
    case Writing(_, _, _) => WriteFilled(true)
    case Select => Receive
    case InHand(_) => Judge
    case Deliver(_) => WriteLive(true)
    case Stopped => Quit
  }

  /** Pusher steps still owed: every one does some of this work. */
  function Work(s: Conn): nat {
    var missing := if s.cursor < |s.log| then 3 * (|s.log| - s.cursor) else 0;
    8 * |s.buffer| + missing +
    match s.pc
      case Start => 9
      case Filling(_, _) => 5
      case Writing(batch, _, _) => if batch == [] then 6 else 4
      case Select => 0
      case InHand(_) => 7
      case Deliver(_) => 1
      case Stopped => 0
  }

  function RunPusher(s: Conn, fuel: nat): (r: Conn)
    requires s.Bounded()
    ensures r.Bounded()
    decreases fuel
  {
    if fuel == 0 then s else RunPusher(Do(s, PusherStep(s)), fuel - 1)
  }

  predicate Idle(s: Conn) {
    s.pc.Select? && s.buffer == []
  }

  predicate Progress(s: Conn, s': Conn) {
    && Work(s') < Work(s) && !s'.pc.Stopped?
    && s'.log == s.log && s'.open == s.open && s'.pending == s.pending
    && (s'.cursor >= 0 || s'.log != [])
  }

  lemma FillDoesWork(s: Conn)
    requires PcFits(s) && s.pc.Filling? && (s.cursor >= 0 || s.log != [])
    ensures Progress(s, DoRead(s, true))
  {
    EventsSinceConsecutive(s.log, s.cursor, REPLAY_BATCH);
  }

  lemma WriteDoesWork(s: Conn)
    requires PcFits(s) && s.pc.Writing? && (s.cursor >= 0 || s.log != [])
    ensures Progress(s, DoWriteFilled(s, true))
  {
  }

  lemma PusherStepDoesWork(s: Conn)
    requires s.Bounded() && PcFits(s) && !Idle(s) && !s.pc.Stopped? && (s.cursor >= 0 || s.log != [])
    ensures Progress(s, Do(s, PusherStep(s)))
  {
    match s.pc
    case Filling(_, _) => FillDoesWork(s);
    case Writing(_, _, _) => WriteDoesWork(s);
    case _ =>
  }

  /** From any reachable state the pusher, left to itself, becomes idle after boundedly many steps,
      unless it has already stopped: the stream never stalls with events undelivered. */
  lemma {:induction false} PusherDrains(since: int, s: Conn)
    requires Invariant(since, s) && s.open && s.pending == 0 && !s.pc.Stopped?
    requires s.cursor >= 0 || s.log != []
    ensures exists n: nat :: n <= Work(s) && Idle(RunPusher(s, n)) &&
              RunPusher(s, n).pushed == Slice(s.log, Max(since, 0), |s.log|)
    decreases Work(s)
  {
    if Idle(s) {
      CaughtUp(since, s);
      assert RunPusher(s, 0) == s;
    } else {
      var s' := Do(s, PusherStep(s));
      PusherStepDoesWork(s);
      StepKeepsInvariant(since, s, PusherStep(s));
      PusherDrains(since, s');
      var n: nat :| n <= Work(s') && Idle(RunPusher(s', n)) &&
                    RunPusher(s', n).pushed == Slice(s'.log, Max(since, 0), |s'.log|);
      assert RunPusher(s, n + 1) == RunPusher(s', n);
    }
  }

  // ---- why a pusher stops ----

  predicate Failed(s: Conn, step: Step) {
    || (step == ReadStore(false) && s.pc.Filling? && s.cursor < s.pc.upto)
    || (step == WriteFilled(false) && s.pc.Writing? && s.pc.batch != [] && s.pc.batch[0].no <= s.pc.upto)
    || (step == WriteLive(false) && s.pc.Deliver?)
  }

  /** In every reachable state, the step that stops the pusher is a failed read or write, the quit of a
      cancelled subscription, or a read from a negative cursor while the log is still empty: there the initial
      fill asks the store for seqs that do not exist. Nothing else stops it, and a commit before that read
      rescues it. */
  lemma PusherStopsIff(log: seq<Body>, pending: nat, since: int, steps: seq<Step>, step: Step)
    requires pending <= |log| && !Run(Subscribed(log, pending, since), steps).pc.Stopped?
    ensures var s := Run(Subscribed(log, pending, since), steps);
            Do(s, step).pc.Stopped? <==>
              || Failed(s, step)
              || (step == Quit && s.pc.Select? && !s.open)
              || (step == ReadStore(true) && s.pc.Filling? && since < 0 && s.log == [])
  {
    SubscribedInvariant(log, pending, since);
    RunKeepsInvariant(since, Subscribed(log, pending, since), steps);
    var s := Run(Subscribed(log, pending, since), steps);
    EventsSinceConsecutive(s.log, s.cursor, REPLAY_BATCH);
  }

  /** What ends a subscription: it is cancelled, or an event is offered to a full buffer. */
  predicate Ends(s: Conn, step: Step) {
    step == Unsubscribe || (step == Send && s.pending > 0 && |s.buffer| == PUSH_BUFFER_SIZE)
  }

  lemma StepEnds(s: Conn, step: Step)
    requires s.Bounded()
    ensures Do(s, step).open <==> s.open && !Ends(s, step)
  {
  }

  lemma {:induction false} OpenUntilEnded(s: Conn, steps: seq<Step>)
    requires s.Bounded()
    ensures Run(s, steps).open <==> s.open && forall i :: 0 <= i < |steps| ==> !Ends(Run(s, steps[..i]), steps[i])
    decreases |steps|
  {
    if steps != [] {
      var s', rest := Do(s, steps[0]), steps[1..];
      StepEnds(s, steps[0]);
      OpenUntilEnded(s', rest);
      hide Do, Ends;
      assert Run(s, steps[..0]) == s;
      forall i | 0 <= i < |rest|
        ensures Run(s, steps[..i + 1]) == Run(s', rest[..i]) && steps[i + 1] == rest[i]
      {
        assert steps[..i + 1][0] == steps[0] && steps[..i + 1][1..] == rest[..i];
      }
      forall i | 0 < i < |steps|
        ensures Ends(Run(s, steps[..i]), steps[i]) == Ends(Run(s', rest[..i - 1]), rest[i - 1])
      {
        assert rest[i - 1] == steps[(i - 1) + 1];
      }
      if i :| 0 <= i < |rest| && Ends(Run(s', rest[..i]), rest[i]) {
        assert Ends(Run(s, steps[..i + 1]), steps[i + 1]);
      }
    }
  }

  /** A subscription stands, whatever happens to it, until one of these does. */
  lemma StandsUntilEnded(log: seq<Body>, pending: nat, since: int, steps: seq<Step>)
    requires pending <= |log|
    ensures Run(Subscribed(log, pending, since), steps).open <==>
              forall i :: 0 <= i < |steps| ==> !Ends(Run(Subscribed(log, pending, since), steps[..i]), steps[i])
  {
    OpenUntilEnded(Subscribed(log, pending, since), steps);
  }

  /** An event received from the buffer is pushed at once, without the store, if it is the next one; if it has
      been replayed already it is not pushed again, and past a gap the store is asked first. */
  lemma NextIsPushedAtOnce(s: Conn)
    requires s.Bounded() && PcFits(s) && s.pc.InHand? && s.cursor >= 0
    ensures var e, then2 := s.pc.e, RunPusher(s, 2);
            && (e.no == s.cursor + 1 ==> then2.pushed == s.pushed + [e] && then2.pc == Select)
            && (e.no <= s.cursor ==> then2.pushed == s.pushed && !then2.pc.Stopped?)
            && (e.no > s.cursor + 1 ==>
                  then2.pushed == s.pushed && then2.pc.Writing? && then2.pc.after == ToDeliver(e))
  {
    var s1 := Do(s, Judge);
    assert RunPusher(s, 2) == RunPusher(s1, 1) == RunPusher(Do(s1, PusherStep(s1)), 0);
    if s1.pc.Filling? {
      EventsSinceConsecutive(s1.log, s1.cursor, REPLAY_BATCH);
    }
  }

  // ---- the session's offer, as the interleaving sees it ----

  /** The events of an offer on its way. */
  function ToSend(s: Conn): seq<Event>
    requires s.Bounded()
  {
    Slice(s.log, |s.log| - s.pending, |s.log|)
  }

  /** From the first send of an offer to its last: nobody commits, and `offer` holds the lock that cancelling
      takes. */
  predicate OneOffer(s: Conn, steps: seq<Step>)
    requires s.Bounded()
    decreases |steps|
  {
    if steps == [] then s.pending == 0
    else s.pending > 0 && !steps[0].Commit? && !steps[0].Unsubscribe? && OneOffer(Do(s, steps[0]), steps[1..])
  }

  /** From `s` to `s'` the session's `offer` has run, with these receives before its sends. */
  predicate OfferedAs(s: Conn, s': Conn, received: seq<nat>)
    requires s.Bounded()
  {
    |received| == |ToSend(s)| &&
    var r := OfferAmid(s.buffer, ToSend(s), received);
    s'.buffer == r.channel && s'.open == r.open
  }

  lemma SendFits(s: Conn, s': Conn, received: seq<nat>)
    requires s.Bounded() && s.pending > 0 && s.open && |s.buffer| < PUSH_BUFFER_SIZE
    requires OfferedAs(DoSend(s), s', received)
    ensures OfferedAs(s, s', [0] + received)
  {
    assert ToSend(s) == [NextOffered(s)] + ToSend(DoSend(s));
    assert ([0] + received)[1..] == received && ToSend(s)[1..] == ToSend(DoSend(s));
  }

  lemma SendOverflows(s: Conn)
    requires s.Bounded() && s.pending > 0 && s.open && |s.buffer| == PUSH_BUFFER_SIZE
    ensures OfferedAs(s, DoSend(s), seq(s.pending, _ => 0))
  {
    assert Drained(s.buffer, 0) == s.buffer;
  }

  lemma ReceiveFits(s: Conn, s': Conn, received: seq<nat>)
    requires s.Bounded() && s.pending > 0 && s.buffer != []
    requires OfferedAs(s.(buffer := s.buffer[1..]), s', received)
    ensures OfferedAs(s, s', received[0 := received[0] + 1])
  {
    var more := received[0 := received[0] + 1];
    assert more[1..] == received[1..] && Drained(s.buffer[1..], received[0]) == Drained(s.buffer, more[0]);
  }

  lemma OtherStep(s: Conn, step: Step)
    requires s.Bounded() && !step.Send? && !step.Commit? && !step.Unsubscribe?
    ensures var s1 := Do(s, step);
            s1.log == s.log && s1.pending == s.pending && s1.open == s.open &&
            (s1.buffer == s.buffer || (s.buffer != [] && s1.buffer == s.buffer[1..]))
  {
  }

  /** One step of an offer under way, and an offer that completes from the next state. */
  lemma StepOfOffer(s: Conn, step: Step, s': Conn, received: seq<nat>) returns (r: seq<nat>)
    requires s.Bounded() && s.open && s.pending > 0 && !step.Commit? && !step.Unsubscribe?
    requires step.Send? ==> |s.buffer| < PUSH_BUFFER_SIZE
    requires OfferedAs(Do(s, step), s', received)
    ensures OfferedAs(s, s', r)
  {
    hide OfferAmid;
    var s1 := Do(s, step);
    if step.Send? {
      SendFits(s, s', received);
      r := [0] + received;
    } else {
      OtherStep(s, step);
      hide Do;
      if s1.buffer == s.buffer {
        r := received;
      } else {
        ReceiveFits(s, s', received);
        r := received[0 := received[0] + 1];
      }
    }
  }

  lemma SendStaysOpen(s: Conn, step: Step)
    requires s.Bounded() && s.open && !step.Unsubscribe? && (step.Send? ==> |s.buffer| < PUSH_BUFFER_SIZE)
    ensures Do(s, step).open
  {
  }

  lemma FullSendEnds(s: Conn)
    requires s.Bounded() && s.open && |s.buffer| == PUSH_BUFFER_SIZE && s.pending > 0
    ensures Do(s, Send) == DoSend(s) && DoSend(s).pending == 0
  {
  }

  lemma NothingToSend(s: Conn)
    requires s.Bounded() && s.pending == 0 && s.open
    ensures OfferedAs(s, s, [])
  {
  }

  /** However the pusher moves while an offer is under way, what the offer leaves is what the session's `offer`
      computes for some number of receives before each send. */
  lemma {:induction false} EveryOfferIsTheSessions(s: Conn, steps: seq<Step>)
    requires s.Bounded() && s.open && OneOffer(s, steps)
    ensures exists received :: OfferedAs(s, Run(s, steps), received)
    decreases |steps|
  {
    hide OfferedAs, Do;
    if steps == [] {
      NothingToSend(s);
      assert OfferedAs(s, Run(s, steps), []);
    } else if steps[0].Send? && |s.buffer| == PUSH_BUFFER_SIZE {
      SendOverflows(s);
      FullSendEnds(s);
      assert OfferedAs(s, Run(s, steps), seq(s.pending, _ => 0));
    } else {
      SendStaysOpen(s, steps[0]);
      EveryOfferIsTheSessions(Do(s, steps[0]), steps[1..]);
      var later :| OfferedAs(Do(s, steps[0]), Run(s, steps), later);
      var received := StepOfOffer(s, steps[0], Run(s, steps), later);
    }
  }
}
