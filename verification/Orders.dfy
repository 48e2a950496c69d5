/** Charges and standing orders in the reducer (internal/sim/metatron.go), the per-tick events about
    them (internal/sim/executor.go) and the all-or-nothing injection door (internal/sim/loop.go).
  */
module Orders {

  const CHARGE_REGEN_TICKS := 21600
  const CHARGE_CAP := 3
  const GENESIS_CHARGES := 1
  const NUDGE_TEXT_MAX := 400
  const TICKS_PER_GAME_DAY := 86400
  const TTL_MIN_DAYS := 1
  const TTL_MAX_DAYS := 7
  const PLAYER_ORDER_CAP := 3
  const ORDER_RETAIN := 32

  datatype Option<T> = None | Some(value: T)

  datatype Id = NoId | Id(name: nat)

  datatype Status = Active | Triggered | Cancelled | Expired

  datatype Origin = Player | System | OtherOrigin(name: nat)

  /** Texts are modelled by their lengths, event types by their number. */
  datatype Order = Order(
    id: Id, origin: Origin, conditionRunes: nat, actionRunes: nat, eventTypes: nat,
    agent: int, placedTick: int, expiresTick: int, status: Status)

  datatype Form = Vision | Omen | Dream | OtherForm(name: nat)

  datatype Miracle = EntityMoved | EntityRemoved | ItemGranted | TimeSnapped

  datatype Event =
    | ChargeRegenerated
    | Nudged(form: Form, targets: seq<int>, textBytes: nat)
    | OrderPlaced(order: Order)
    | OrderTriggered(id: Id)
    | OrderCancelled(id: Id)
    | OrderExpired(id: Id)
    | MiracleSpent(miracle: Miracle, gratis: bool)

  datatype State = State(tick: int, night: bool, dead: seq<bool>, charges: int, orders: seq<Order>)

  // ---- orders ----

  predicate IsActive(o: Order) {
    o.status == Active
  }

  predicate IsActivePlayer(o: Order) {
    o.status == Active && o.origin == Player
  }

  function ActivePlayers(orders: seq<Order>): nat {
    if orders == [] then 0
    else ActivePlayers(orders[..|orders| - 1]) + if IsActivePlayer(orders[|orders| - 1]) then 1 else 0
  }

  function Consumed(orders: seq<Order>): nat {
    if orders == [] then 0 else (if IsActive(orders[0]) then 0 else 1) + Consumed(orders[1..])
  }

  /** Every active order, and each consumed one that at most ORDER_RETAIN consumed ones, itself
      included, follow. */
  function Prune(orders: seq<Order>): seq<Order> {
    if orders == [] then []
    else if IsActive(orders[0]) || Consumed(orders) <= ORDER_RETAIN then [orders[0]] + Prune(orders[1..])
    else Prune(orders[1..])
  }

  predicate Retains(orders: seq<Order>, id: Id) {
    exists i :: 0 <= i < |orders| && orders[i].id == id
  }

  /** The position of the order named `id`; the length when there is none. */
  function Find(orders: seq<Order>, id: Id): (i: nat)
    ensures i <= |orders| && (i < |orders| ==> orders[i].id == id)
    ensures forall j :: 0 <= j < i ==> orders[j].id != id
    ensures i < |orders| <==> Retains(orders, id)
  {
    if orders == [] then 0
    else if orders[0].id == id then 0
    else
      var i := Find(orders[1..], id);
      assert forall j :: 0 < j < |orders| ==> orders[j] == orders[1..][j - 1];
      i + 1
  }

  /** Everything the reducer asks of a new order. */
  predicate Placeable(s: State, o: Order) {
    var ttl := o.expiresTick - o.placedTick;
    && o.id != NoId && !Retains(s.orders, o.id)
    && (o.origin == Player || o.origin == System)
    && o.eventTypes > 0
    && TTL_MIN_DAYS * TICKS_PER_GAME_DAY <= ttl <= TTL_MAX_DAYS * TICKS_PER_GAME_DAY
    && -1 <= o.agent < |s.dead|
    && o.conditionRunes <= 300 && o.actionRunes <= 400
    && (o.origin == Player ==> ActivePlayers(s.orders) < PLAYER_ORDER_CAP)
  }

  function Transition(s: State, id: Id, to: Status): Option<State> {
    var i := Find(s.orders, id);
    if i < |s.orders| && IsActive(s.orders[i]) then
      Some(s.(orders := s.orders[i := s.orders[i].(status := to)]))
    else None
  }

  // ---- charges ----

  predicate Nudgeable(s: State, e: Event)
    requires e.Nudged?
  {
    && s.charges > 0
    && (match e.form
        case Vision => |e.targets| == 1
        case Omen => e.targets != [] && s.night
        case Dream => |e.targets| == 1
        case OtherForm(_) => false)
    && (forall i :: 0 <= i < |e.targets| ==> 0 <= e.targets[i] < |s.dead| && !s.dead[e.targets[i]])
    && 0 < e.textBytes <= NUDGE_TEXT_MAX
  }

  function Cost(m: Miracle): nat {
    if m.TimeSnapped? then 2 else 1
  }

  // ---- the reducer ----

  /** The state after one event; None when the event is rejected. */
  function Reduce(s: State, e: Event): Option<State> {
    match e
    case ChargeRegenerated => Some(if s.charges < CHARGE_CAP then s.(charges := s.charges + 1) else s)
    case Nudged(_, _, _) => if Nudgeable(s, e) then Some(s.(charges := s.charges - 1)) else None
    case OrderPlaced(o) =>
      if Placeable(s, o) then Some(s.(orders := Prune(s.orders + [o.(status := Active)]))) else None
    case OrderTriggered(id) => Transition(s, id, Triggered)
    case OrderCancelled(id) => Transition(s, id, Cancelled)
    case OrderExpired(id) => Transition(s, id, Expired)
    case MiracleSpent(m, gratis) =>
      if gratis then Some(s)
      else if s.charges < Cost(m) then None
      else Some(s.(charges := s.charges - Cost(m)))
  }

  function ReduceAll(s: State, es: seq<Event>): Option<State> {
    if es == [] then Some(s)
    else
      match ReduceAll(s, es[..|es| - 1])
      case None => None
      case Some(mid) => Reduce(mid, es[|es| - 1])
  }

  lemma FindAt(orders: seq<Order>, id: Id, i: nat)
    requires i < |orders| && orders[i].id == id && forall j :: 0 <= j < i ==> orders[j].id != id
    ensures Find(orders, id) == i
  {
  }

  class Book {
    var tick: int
    var night: bool
    var dead: seq<bool>
    var charges: int
    var orders: seq<Order>

    ghost function Abs(): State
      reads this
    {
      State(tick, night, dead, charges, orders)
    }

    constructor (agents: seq<bool>)
      ensures Abs() == State(0, false, agents, GENESIS_CHARGES, [])
    {
      tick, night, dead, charges, orders := 0, false, agents, GENESIS_CHARGES, [];
    }

    /** pruneMetatronOrders: the oldest consumed orders go first, the order of the rest stays. */
    method PruneOrders(all: seq<Order>) returns (out: seq<Order>)
      ensures out == Prune(all)
    {
      var nonActive := 0;
      for i := 0 to |all|
        invariant nonActive + Consumed(all[i..]) == Consumed(all)
      {
        assert all[i..][1..] == all[i + 1..];
        if all[i].status != Active {
          nonActive := nonActive + 1;
        }
      }
      var drop := nonActive - ORDER_RETAIN;
      if drop <= 0 {
        PruneKeepsFew(all);
        return all;
      }
      out := [];
      for i := 0 to |all|
        invariant out + Prune(all[i..]) == Prune(all)
        invariant drop == if Consumed(all[i..]) > ORDER_RETAIN then Consumed(all[i..]) - ORDER_RETAIN else 0
      {
        assert all[i..][1..] == all[i + 1..];
        if all[i].status != Active && drop > 0 {
          drop := drop - 1;
        } else {
          out := out + [all[i]];
        }
      }
    }

    /** transitionMetatronOrder: exactly one terminal status lands, and only on an active order. */
    method TransitionOrder(id: Id, to: Status) returns (ok: bool)
      modifies this`orders
      ensures ok <==> Transition(old(Abs()), id, to).Some?
      ensures Abs() == if ok then Transition(old(Abs()), id, to).value else old(Abs())
    {
      for i := 0 to |orders|
        invariant orders == old(orders)
        invariant forall j :: 0 <= j < i ==> orders[j].id != id
      {
        if orders[i].id == id {
          FindAt(orders, id, i);
          if orders[i].status != Active {
            return false;
          }
          orders := orders[i := orders[i].(status := to)];
          return true;
        }
      }
      return false;
    }

    method ActivePlayerCount() returns (active: nat)
      ensures active == ActivePlayers(orders)
    {
      active := 0;
      for i := 0 to |orders|
        invariant active == ActivePlayers(orders[..i])
      {
        assert orders[..i + 1][..i] == orders[..i];
        if orders[i].origin == Player && orders[i].status == Active {
          active := active + 1;
        }
      }
      assert orders[..|orders|] == orders;
    }

    method Place(o: Order) returns (ok: bool)
      modifies this`orders
      ensures ok <==> Placeable(old(Abs()), o)
      ensures orders == if ok then Prune(old(orders) + [o.(status := Active)]) else old(orders)
    {
      if o.id == NoId {
        return false;
      }
      for i := 0 to |orders|
        invariant forall j :: 0 <= j < i ==> orders[j].id != o.id
      {
        if orders[i].id == o.id {
          return false;
        }
      }
      if o.origin != Player && o.origin != System {
        return false;
      }
      if o.eventTypes == 0 {
        return false;
      }
      var ttl := o.expiresTick - o.placedTick;
      if ttl < TTL_MIN_DAYS * TICKS_PER_GAME_DAY || ttl > TTL_MAX_DAYS * TICKS_PER_GAME_DAY {
        return false;
      }
      if o.agent < -1 || o.agent >= |dead| {
        return false;
      }
      if o.conditionRunes > 300 || o.actionRunes > 400 {
        return false;
      }
      if o.origin == Player {
        var active := ActivePlayerCount();
        if active >= PLAYER_ORDER_CAP {
          return false;
        }
      }
      orders := PruneOrders(orders + [o.(status := Active)]);
      return true;
    }

    method Apply(e: Event) returns (ok: bool)
      modifies this
      ensures ok <==> Reduce(old(Abs()), e).Some?
      ensures Abs() == if ok then Reduce(old(Abs()), e).value else old(Abs())
    {
      ok := true;
      match e {
        case ChargeRegenerated =>
          if charges < CHARGE_CAP {
            charges := charges + 1;
          }
        case Nudged(_, _, _) =>
          ok := Nudgeable(State(tick, night, dead, charges, orders), e);
          if ok {
            charges := charges - 1;
          }
        case OrderPlaced(o) => ok := Place(o);
        case OrderTriggered(id) => ok := TransitionOrder(id, Triggered);
        case OrderCancelled(id) => ok := TransitionOrder(id, Cancelled);
        case OrderExpired(id) => ok := TransitionOrder(id, Expired);
        case MiracleSpent(m, gratis) =>
          if !gratis {
            ok := charges >= Cost(m);
            if ok {
              charges := charges - Cost(m);
            }
          }
      }
    }
  }

  // ---- pruning ----

  function ActiveOnes(orders: seq<Order>): seq<Order> {
    if orders == [] then []
    else (if IsActive(orders[0]) then [orders[0]] else []) + ActiveOnes(orders[1..])
  }

  function ConsumedOnes(orders: seq<Order>): (r: seq<Order>)
    ensures |r| == Consumed(orders)
  {
    if orders == [] then []
    else (if IsActive(orders[0]) then [] else [orders[0]]) + ConsumedOnes(orders[1..])
  }

  function Newest(orders: seq<Order>, n: nat): seq<Order> {
    if |orders| <= n then orders else orders[|orders| - n..]
  }

  lemma {:induction false} PruneKeepsFew(orders: seq<Order>)
    requires Consumed(orders) <= ORDER_RETAIN
    ensures Prune(orders) == orders
  {
    if orders != [] {
      PruneKeepsFew(orders[1..]);
    }
  }

  /** Pruning keeps every active order and exactly the newest consumed ones, both in their order. */
  lemma {:induction false} PruneKeepsTheNewest(orders: seq<Order>)
    ensures ActiveOnes(Prune(orders)) == ActiveOnes(orders)
    ensures ConsumedOnes(Prune(orders)) == Newest(ConsumedOnes(orders), ORDER_RETAIN)
  {
    if orders != [] {
      PruneKeepsTheNewest(orders[1..]);
      var rest := Prune(orders[1..]);
      assert ([orders[0]] + rest)[1..] == rest;
    }
  }

  /** Every pruned list is the original with some consumed orders left out. */
  lemma {:induction false} PruneIsSublist(orders: seq<Order>, o: Order)
    ensures o in Prune(orders) ==> o in orders
    ensures o in orders && IsActive(o) ==> o in Prune(orders)
  {
    if orders != [] {
      PruneIsSublist(orders[1..], o);
    }
  }

  predicate Distinct(orders: seq<Order>) {
    forall i, j :: 0 <= i < j < |orders| ==> orders[i].id != orders[j].id
  }

  lemma {:induction false} PruneKeepsDistinct(orders: seq<Order>)
    requires Distinct(orders)
    ensures Distinct(Prune(orders))
  {
    if orders != [] {
      PruneKeepsDistinct(orders[1..]);
      forall o | o in Prune(orders[1..])
        ensures o.id != orders[0].id
      {
        PruneIsSublist(orders[1..], o);
      }
    }
  }

  lemma {:induction false} ActivePlayersByFront(orders: seq<Order>)
    requires orders != []
    ensures ActivePlayers(orders) == (if IsActivePlayer(orders[0]) then 1 else 0) + ActivePlayers(orders[1..])
  {
    if |orders| > 1 {
      var front := orders[..|orders| - 1];
      ActivePlayersByFront(front);
      assert front[1..] == orders[1..][..|orders| - 2];
    }
  }

  lemma {:induction false} PruneKeepsActivePlayers(orders: seq<Order>)
    ensures ActivePlayers(Prune(orders)) == ActivePlayers(orders)
  {
    if orders != [] {
      PruneKeepsActivePlayers(orders[1..]);
      ActivePlayersByFront(orders);
      var rest := Prune(orders[1..]);
      if IsActive(orders[0]) || Consumed(orders) <= ORDER_RETAIN {
        ActivePlayersByFront([orders[0]] + rest);
        assert ([orders[0]] + rest)[1..] == rest;
      }
    }
  }

  lemma {:induction false} UpdateActivePlayers(orders: seq<Order>, i: nat, o: Order)
    requires i < |orders| && !IsActivePlayer(o)
    ensures ActivePlayers(orders[i := o]) <= ActivePlayers(orders)
  {
    var n := |orders| - 1;
    if i < n {
      UpdateActivePlayers(orders[..n], i, o);
      assert orders[i := o][..n] == orders[..n][i := o];
    } else {
      assert orders[i := o][..n] == orders[..n];
    }
  }

  // ---- what every event keeps ----

  ghost predicate Inv(s: State) {
    && 0 <= s.charges <= CHARGE_CAP
    && Distinct(s.orders)
    && ActivePlayers(s.orders) <= PLAYER_ORDER_CAP
  }

  lemma PlaceKeepsInv(s: State, o: Order)
    requires Inv(s) && Placeable(s, o)
    ensures Inv(s.(orders := Prune(s.orders + [o.(status := Active)])))
  {
    var all := s.orders + [o.(status := Active)];
    assert Distinct(all);
    PruneKeepsDistinct(all);
    PruneKeepsActivePlayers(all);
    assert all[..|all| - 1] == s.orders;
  }

  lemma TransitionKeepsInv(s: State, id: Id, to: Status)
    requires Inv(s) && to != Active && Transition(s, id, to).Some?
    ensures Inv(Transition(s, id, to).value)
  {
    var i := Find(s.orders, id);
    UpdateActivePlayers(s.orders, i, s.orders[i].(status := to));
  }

  lemma ReduceKeepsInv(s: State, e: Event)
    requires Inv(s) && Reduce(s, e).Some?
    ensures Inv(Reduce(s, e).value)
  {
    match e
    case OrderPlaced(o) => PlaceKeepsInv(s, o);
    case OrderTriggered(id) => TransitionKeepsInv(s, id, Triggered);
    case OrderCancelled(id) => TransitionKeepsInv(s, id, Cancelled);
    case OrderExpired(id) => TransitionKeepsInv(s, id, Expired);
    case _ =>
  }

  lemma {:induction false} ReduceAllKeepsInv(s: State, es: seq<Event>)
    requires Inv(s) && ReduceAll(s, es).Some?
    ensures Inv(ReduceAll(s, es).value)
  {
    if es != [] {
      ReduceAllKeepsInv(s, es[..|es| - 1]);
      ReduceKeepsInv(ReduceAll(s, es[..|es| - 1]).value, es[|es| - 1]);
    }
  }

  // ---- one order's life ----

  function Terminates(e: Event, id: Id): bool {
    (e.OrderTriggered? || e.OrderCancelled? || e.OrderExpired?) && e.id == id
  }

  function Placements(es: seq<Event>, id: Id): nat {
    if es == [] then 0
    else Placements(es[..|es| - 1], id) +
         if es[|es| - 1].OrderPlaced? && es[|es| - 1].order.id == id then 1 else 0
  }

  function Terminals(es: seq<Event>, id: Id): nat {
    if es == [] then 0
    else Terminals(es[..|es| - 1], id) + if Terminates(es[|es| - 1], id) then 1 else 0
  }

  /** An active order with this id is standing. */
  predicate Standing(s: State, id: Id) {
    exists i :: 0 <= i < |s.orders| && s.orders[i].id == id && IsActive(s.orders[i])
  }

  lemma PlaceStanding(s: State, o: Order, id: Id)
    requires Inv(s) && Placeable(s, o)
    ensures !Standing(s, o.id)
    ensures Standing(s.(orders := Prune(s.orders + [o.(status := Active)])), id) <==> Standing(s, id) || id == o.id
  {
    var placed := o.(status := Active);
    var all := s.orders + [placed];
    var s' := s.(orders := Prune(all));
    assert all[|s.orders|] == placed;
    PruneIsSublist(all, placed);
    if i :| 0 <= i < |s.orders| && s.orders[i].id == id && IsActive(s.orders[i]) {
      assert all[i] == s.orders[i];
      PruneIsSublist(all, s.orders[i]);
    }
    if i :| 0 <= i < |s'.orders| && s'.orders[i].id == id && IsActive(s'.orders[i]) {
      PruneIsSublist(all, s'.orders[i]);
    }
  }

  lemma TransitionStanding(s: State, i: nat, to: Status, id: Id)
    requires Inv(s) && to != Active && i < |s.orders| && IsActive(s.orders[i])
    ensures var s' := s.(orders := s.orders[i := s.orders[i].(status := to)]);
            Standing(s', id) <==> Standing(s, id) && id != s.orders[i].id
  {
    var s' := s.(orders := s.orders[i := s.orders[i].(status := to)]);
    if j :| 0 <= j < |s.orders| && s.orders[j].id == id && IsActive(s.orders[j]) && j != i {
      assert s'.orders[j] == s.orders[j];
    }
  }

  lemma ReduceStanding(s: State, e: Event, id: Id)
    requires Inv(s) && Reduce(s, e).Some?
    ensures var s' := Reduce(s, e).value;
            (e.OrderPlaced? && e.order.id == id ==> !Standing(s, id) && Standing(s', id)) &&
            (Terminates(e, id) ==> Standing(s, id) && !Standing(s', id)) &&
            (!Terminates(e, id) && !(e.OrderPlaced? && e.order.id == id) ==> Standing(s', id) == Standing(s, id))
  {
    match e
    case OrderPlaced(o) => PlaceStanding(s, o, id);
    case OrderTriggered(x) => TransitionStanding(s, Find(s.orders, x), Triggered, id);
    case OrderCancelled(x) => TransitionStanding(s, Find(s.orders, x), Cancelled, id);
    case OrderExpired(x) => TransitionStanding(s, Find(s.orders, x), Expired, id);
    case _ =>
  }

  /** Over every accepted history: retained ids are distinct, at most three player orders are active,
      the bank stays within its cap, and every placement of an id is ended by exactly one terminal
      event unless its order is still standing. */
  lemma {:induction false} EveryOrderEndsOnce(s: State, es: seq<Event>, id: Id)
    requires s.orders == [] && 0 <= s.charges <= CHARGE_CAP && ReduceAll(s, es).Some?
    ensures var s' := ReduceAll(s, es).value;
            Inv(s') &&
            Placements(es, id) == Terminals(es, id) + if Standing(s', id) then 1 else 0
  {
    if es != [] {
      var earlier, e := es[..|es| - 1], es[|es| - 1];
      EveryOrderEndsOnce(s, earlier, id);
      ReduceKeepsInv(ReduceAll(s, earlier).value, e);
      ReduceStanding(ReduceAll(s, earlier).value, e, id);
    }
  }

  /** A consumed order is never written again: after any event it is as it was, or pruned away. */
  lemma ConsumedStaysConsumed(s: State, e: Event, o: Order)
    requires Inv(s) && Reduce(s, e).Some? && o in s.orders && !IsActive(o)
    ensures var s' := Reduce(s, e).value;
            o in s'.orders || (e.OrderPlaced? && !Retains(s'.orders, o.id))
  {
    var s' := Reduce(s, e).value;
    var k :| 0 <= k < |s.orders| && s.orders[k] == o;
    match e {
      case OrderPlaced(p) =>
        var all := s.orders + [p.(status := Active)];
        assert all[k] == o;
        if i :| 0 <= i < |s'.orders| && s'.orders[i].id == o.id {
          PruneIsSublist(all, s'.orders[i]);
          assert Distinct(all);
        }
      case OrderTriggered(x) => assert s'.orders[k] == o;
      case OrderCancelled(x) => assert s'.orders[k] == o;
      case OrderExpired(x) => assert s'.orders[k] == o;
      case _ =>
    }
  }

  // ---- ticks ----

  predicate Due(o: Order, nextTick: int) {
    IsActive(o) && nextTick >= o.expiresTick
  }

  /** The expiries a tick emits for the first `n` orders. */
  function Expiries(orders: seq<Order>, nextTick: int, n: nat): seq<Event>
    requires n <= |orders|
  {
    if n == 0 then []
    else
      var o := orders[n - 1];
      Expiries(orders, nextTick, n - 1) +
      if Due(o, nextTick) then [OrderExpired(o.id)] else []
  }

  function Regeneration(s: State, nextTick: int): seq<Event> {
    if nextTick % CHARGE_REGEN_TICKS == 0 && s.charges < CHARGE_CAP then [ChargeRegenerated] else []
  }

  /** stepEvents, the part about charges and orders. */
  method StepEvents(s: State, nextTick: int) returns (events: seq<Event>)
    ensures events == Regeneration(s, nextTick) + Expiries(s.orders, nextTick, |s.orders|)
  {
    events := [];
    if nextTick % CHARGE_REGEN_TICKS == 0 && s.charges < CHARGE_CAP {
      events := [ChargeRegenerated];
    }
    for i := 0 to |s.orders|
      invariant events == Regeneration(s, nextTick) + Expiries(s.orders, nextTick, i)
    {
      if s.orders[i].status == Active && nextTick >= s.orders[i].expiresTick {
        events := events + [OrderExpired(s.orders[i].id)];
      }
    }
  }

  /** `orders` with every active order among the first `n` that is due marked expired. */
  function Swept(orders: seq<Order>, nextTick: int, n: nat): (r: seq<Order>)
    requires n <= |orders|
    ensures |r| == |orders|
    ensures forall i :: 0 <= i < |orders| ==>
      r[i] == if i < n && Due(orders[i], nextTick) then orders[i].(status := Expired) else orders[i]
  {
    if n == 0 then orders
    else
      var o := orders[n - 1];
      var r := Swept(orders, nextTick, n - 1);
      if Due(o, nextTick) then r[n - 1 := o.(status := Expired)] else r
  }

  lemma ExpireNext(s: State, nextTick: int, n: nat)
    requires Distinct(s.orders) && n < |s.orders|
    requires Due(s.orders[n], nextTick)
    ensures Transition(s.(orders := Swept(s.orders, nextTick, n)), s.orders[n].id, Expired)
         == Some(s.(orders := Swept(s.orders, nextTick, n + 1)))
  {
    FindAt(Swept(s.orders, nextTick, n), s.orders[n].id, n);
  }

  lemma ExpiriesUnfold(orders: seq<Order>, nextTick: int, n: nat)
    requires n < |orders|
    ensures Expiries(orders, nextTick, n + 1) ==
            if Due(orders[n], nextTick) then Expiries(orders, nextTick, n) + [OrderExpired(orders[n].id)]
            else Expiries(orders, nextTick, n)
  {
  }

  lemma ExpiriesStep(s: State, nextTick: int, n: nat)
    requires Distinct(s.orders) && n < |s.orders|
    requires ReduceAll(s, Expiries(s.orders, nextTick, n)) == Some(s.(orders := Swept(s.orders, nextTick, n)))
    ensures ReduceAll(s, Expiries(s.orders, nextTick, n + 1))
         == Some(s.(orders := Swept(s.orders, nextTick, n + 1)))
  {
    var earlier := Expiries(s.orders, nextTick, n);
    ExpiriesUnfold(s.orders, nextTick, n);
    if Due(s.orders[n], nextTick) {
      ExpireNext(s, nextTick, n);
      AppendOne(s, earlier, s.(orders := Swept(s.orders, nextTick, n)), OrderExpired(s.orders[n].id));
    } else {
      assert Swept(s.orders, nextTick, n + 1) == Swept(s.orders, nextTick, n);
    }
  }

  lemma {:induction false} ExpiriesApply(s: State, nextTick: int, n: nat)
    requires Distinct(s.orders) && n <= |s.orders|
    ensures ReduceAll(s, Expiries(s.orders, nextTick, n)) == Some(s.(orders := Swept(s.orders, nextTick, n)))
  {
    if n > 0 {
      ExpiriesApply(s, nextTick, n - 1);
      ExpiriesStep(s, nextTick, n - 1);
    }
  }

  lemma AppendEvent(s: State, es: seq<Event>, e: Event)
    requires ReduceAll(s, es).Some?
    ensures ReduceAll(s, es + [e]) == Reduce(ReduceAll(s, es).value, e)
  {
    assert (es + [e])[..|es|] == es;
  }

  lemma {:induction false} ReduceAllConcat(s: State, a: seq<Event>, b: seq<Event>)
    requires ReduceAll(s, a).Some?
    ensures ReduceAll(s, a + b) == ReduceAll(ReduceAll(s, a).value, b)
  {
    if b == [] {
      assert a + b == a;
    } else {
      assert (a + b)[..|a + b| - 1] == a + b[..|b| - 1];
      ReduceAllConcat(s, a, b[..|b| - 1]);
    }
  }

  lemma OneEvent(s: State, e: Event)
    ensures ReduceAll(s, [e]) == Reduce(s, e)
  {
    assert [e][..0] == [];
  }

  /** No tick can fail on its own expiries: in every state of a run all events a tick emits about
      charges and orders are accepted, and they expire exactly the active orders that have reached their
      deadline. */
  lemma TickAlwaysApplies(s: State, nextTick: int)
    requires Inv(s)
    ensures var r := ReduceAll(s, Regeneration(s, nextTick) + Expiries(s.orders, nextTick, |s.orders|));
            r.Some? && Inv(r.value) &&
            |r.value.orders| == |s.orders| &&
            forall i :: 0 <= i < |s.orders| ==>
              r.value.orders[i] == if s.orders[i].status == Active && s.orders[i].expiresTick <= nextTick
                                   then s.orders[i].(status := Expired) else s.orders[i]
  {
    var regen := Regeneration(s, nextTick);
    OneEvent(s, ChargeRegenerated);
    var s1 := ReduceAll(s, regen).value;
    assert s1.orders == s.orders;
    ReduceAllConcat(s, regen, Expiries(s.orders, nextTick, |s.orders|));
    ExpiriesApply(s1, nextTick, |s.orders|);
    ReduceAllKeepsInv(s, regen + Expiries(s.orders, nextTick, |s.orders|));
  }

  // ---- the loop ----

  predicate Injectable(e: Event) {
    !e.ChargeRegenerated? && !e.OrderExpired?
  }

  datatype Step = Inject(batch: seq<Event>) | Tick(night: bool, died: seq<bool>)

  /** A step of the loop: a batch lands whole or not at all; a tick applies its own events. */
  function Do(s: State, step: Step): State {
    match step
    case Inject(batch) =>
      if batch == [] || exists i :: 0 <= i < |batch| && !Injectable(batch[i]) then s
      else (match ReduceAll(s, batch) case None => s case Some(s') => s')
    case Tick(night, died) =>
      var next := s.tick + 1;
      var events := Regeneration(s, next) + Expiries(s.orders, next, |s.orders|);
      match ReduceAll(s.(tick := next), events)
      case None => s
      case Some(s') => s'.(night := night, dead := if |died| == |s.dead| then died else s.dead)
  }

  function Run(s: State, steps: seq<Step>): State {
    if steps == [] then s else Do(Run(s, steps[..|steps| - 1]), steps[|steps| - 1])
  }

  lemma {:induction false} ReduceAllKeepsTick(s: State, es: seq<Event>)
    requires ReduceAll(s, es).Some?
    ensures var s' := ReduceAll(s, es).value; s'.tick == s.tick && s'.dead == s.dead
  {
    if es != [] {
      ReduceAllKeepsTick(s, es[..|es| - 1]);
    }
  }

  lemma TickAdvances(s: State, night: bool, died: seq<bool>)
    requires Inv(s)
    ensures var s' := Do(s, Tick(night, died));
            && Inv(s') && s'.tick == s.tick + 1 && s'.night == night
            && s'.dead == if |died| == |s.dead| then died else s.dead
  {
    var next := s.tick + 1;
    TickAlwaysApplies(s.(tick := next), next);
    ReduceAllKeepsTick(s.(tick := next), Regeneration(s, next) + Expiries(s.orders, next, |s.orders|));
  }

  lemma InjectKeepsInv(s: State, batch: seq<Event>)
    requires Inv(s)
    ensures Inv(Do(s, Inject(batch)))
  {
    if ReduceAll(s, batch).Some? {
      ReduceAllKeepsInv(s, batch);
    }
  }

  /** Over every interleaving of injected batches and ticks the invariant holds, so the tick after any
      of them applies without error and advances the clock. */
  lemma {:induction false} RunsNeverStop(s: State, steps: seq<Step>, night: bool, died: seq<bool>)
    requires Inv(s)
    ensures Inv(Run(s, steps))
    ensures Do(Run(s, steps), Tick(night, died)).tick == Run(s, steps).tick + 1
  {
    if steps != [] {
      var before := Run(s, steps[..|steps| - 1]);
      RunsNeverStop(s, steps[..|steps| - 1], night, died);
      match steps[|steps| - 1] {
        case Inject(batch) => InjectKeepsInv(before, batch);
        case Tick(n, d) => TickAdvances(before, n, d);
      }
    }
    TickAdvances(Run(s, steps), night, died);
  }

  lemma {:induction false} ExpiriesExpire(orders: seq<Order>, nextTick: int, n: nat)
    requires n <= |orders|
    ensures ChargeRegenerated !in Expiries(orders, nextTick, n)
  {
    if n > 0 {
      ExpiriesExpire(orders, nextTick, n - 1);
    }
  }

  /** A tick records a charge if and only if it is the sixth hour and the bank has room, so every charge recorded
      is one more in the bank. */
  lemma RecordedChargeIsBanked(s: State, nextTick: int)
    ensures var es := Regeneration(s, nextTick) + Expiries(s.orders, nextTick, |s.orders|);
            && (ChargeRegenerated in es <==> nextTick % 21600 == 0 && s.charges < 3)
            && (ChargeRegenerated in es ==>
                  es[0] == ChargeRegenerated && ReduceAll(s, es[..1]) == Some(s.(charges := s.charges + 1)))
  {
    ExpiriesExpire(s.orders, nextTick, |s.orders|);
    var es := Regeneration(s, nextTick) + Expiries(s.orders, nextTick, |s.orders|);
    if ChargeRegenerated in es {
      assert es[..1] == [ChargeRegenerated];
      OneEvent(s, ChargeRegenerated);
    }
  }

  predicate AllInjectable(batch: seq<Event>) {
    forall e :: e in batch ==> e != ChargeRegenerated && !e.OrderExpired?
  }

  /** What one injected event does: what the reducer says, unless it is the loop's own to record. */
  lemma OneInjected(s: State, e: Event)
    ensures Do(s, Inject([e])) ==
              if e != ChargeRegenerated && !e.OrderExpired? && Reduce(s, e).Some? then Reduce(s, e).value else s
  {
    OneEvent(s, e);
    assert e == [e][0];
  }

  lemma InjectableAll(batch: seq<Event>)
    ensures AllInjectable(batch) <==> forall i :: 0 <= i < |batch| ==> Injectable(batch[i])
  {
    if AllInjectable(batch) {
      assert forall i :: 0 <= i < |batch| ==> batch[i] in batch;
    }
  }

  /** A batch lands whole or not at all: it does what its events do injected one after another when none of them
      is refused, and nothing when one is. */
  lemma WholeOrNothing(s: State, batch: seq<Event>, e: Event)
    ensures var landed := batch == [] || (AllInjectable(batch) && ReduceAll(s, batch).Some?);
            var s1 := Do(s, Inject(batch));
            Do(s, Inject(batch + [e])) ==
              if landed && AllInjectable([e]) && Reduce(s1, e).Some? then Do(s1, Inject([e])) else s
  {
    hide Reduce;
    InjectableAll(batch);
    InjectableAll(batch + [e]);
    OneInjected(Do(s, Inject(batch)), e);
    var all := batch + [e];
    assert all[..|all| - 1] == batch && all[|all| - 1] == e;
    assert AllInjectable(all) <==> AllInjectable(batch) && AllInjectable([e]);
  }

  // ---- what an order is worth ----

  /** What the reducer asks of an order by itself. */
  predicate WellFormed(o: Order, people: nat) {
    && o.id != NoId && (o.origin == Player || o.origin == System) && o.eventTypes > 0
    && 86400 <= o.expiresTick - o.placedTick <= 604800
    && -1 <= o.agent < people
    && o.conditionRunes <= 300 && o.actionRunes <= 400
  }

  /** The positions of the player's active orders. */
  function PlayerActives(orders: seq<Order>): set<int> {
    set i | 0 <= i < |orders| && orders[i].status == Active && orders[i].origin == Player
  }

  lemma {:induction false} ActivePlayersAreCounted(orders: seq<Order>)
    ensures ActivePlayers(orders) == |PlayerActives(orders)|
  {
    if orders != [] {
      var n := |orders| - 1;
      ActivePlayersAreCounted(orders[..n]);
      assert PlayerActives(orders) ==
             PlayerActives(orders[..n]) + if IsActivePlayer(orders[n]) then {n} else {};
    }
  }

  /** A well-formed order is accepted if and only if its id is new among the retained ones and, for a player's,
      fewer than three of the player's are active; nothing else is accepted. */
  lemma PlacedIff(s: State, o: Order)
    ensures Reduce(s, OrderPlaced(o)).Some? <==>
              WellFormed(o, |s.dead|) && (forall p :: p in s.orders ==> p.id != o.id) &&
              (o.origin == Player ==> |PlayerActives(s.orders)| < 3)
    ensures Reduce(s, OrderPlaced(o)).Some? ==> o.(status := Active) in Reduce(s, OrderPlaced(o)).value.orders
  {
    if i :| 0 <= i < |s.orders| && s.orders[i].id == o.id {
      assert s.orders[i] in s.orders;
    }
    if p :| p in s.orders && p.id == o.id {
      var i :| 0 <= i < |s.orders| && s.orders[i] == p;
    }
    ActivePlayersAreCounted(s.orders);
    var all := s.orders + [o.(status := Active)];
    assert all[|s.orders|] in all;
    PruneIsSublist(all, o.(status := Active));
  }

  /** An accepted terminal event is what the order's record says from then on. */
  lemma TerminalIsRecorded(s: State, id: Id, to: Status)
    requires Inv(s) && Transition(s, id, to).Some?
    ensures exists i :: 0 <= i < |s.orders| && s.orders[i].id == id && s.orders[i].status == Active &&
              Transition(s, id, to).value == s.(orders := s.orders[i := s.orders[i].(status := to)])
    ensures Reduce(s, OrderTriggered(id)) == Transition(s, id, Triggered)
    ensures Reduce(s, OrderCancelled(id)) == Transition(s, id, Cancelled)
    ensures Reduce(s, OrderExpired(id)) == Transition(s, id, Expired)
  {
    assert Find(s.orders, id) < |s.orders|;
  }

  /** A terminal event lands if and only if an active order has the id. */
  lemma TerminalLandsIff(s: State, id: Id, to: Status)
    requires Inv(s)
    ensures Transition(s, id, to).Some? <==> exists o :: o in s.orders && o.id == id && o.status == Active
  {
    var i := Find(s.orders, id);
    if o :| o in s.orders && o.id == id && o.status == Active {
      var j :| 0 <= j < |s.orders| && s.orders[j] == o;
      assert i == j;
    }
    if i < |s.orders| {
      assert s.orders[i] in s.orders;
    }
  }

  // ---- the bank ----

  /** A nudge lands if and only if a charge is banked, its text has 1 to 400 bytes, everyone it is for lives, and it
      is a vision or a dream for one or an omen, by night, for some; it costs exactly the charge. */
  lemma NudgeLandsIff(s: State, form: Form, targets: seq<int>, textBytes: nat)
    ensures Reduce(s, Nudged(form, targets, textBytes)).Some? <==>
              && s.charges > 0 && 1 <= textBytes <= 400
              && (forall t :: t in targets ==> 0 <= t < |s.dead| && !s.dead[t])
              && (((form == Vision || form == Dream) && |targets| == 1) || (form == Omen && |targets| > 0 && s.night))
    ensures Reduce(s, Nudged(form, targets, textBytes)) in [None, Some(s.(charges := s.charges - 1))]
  {
    var e := Nudged(form, targets, textBytes);
    assert forall i :: 0 <= i < |targets| ==> targets[i] in targets;
    if Nudgeable(s, e) {
      forall t | t in targets
        ensures 0 <= t < |s.dead| && !s.dead[t]
      {
        var i :| 0 <= i < |targets| && targets[i] == t;
      }
    }
  }

  /** What the events of a history cost: one charge for a nudge, two for a time snap, one for any other miracle,
      nothing for a gratis one. */
  function Spent(es: seq<Event>): nat {
    if es == [] then 0
    else
      Spent(es[..|es| - 1]) +
      match es[|es| - 1]
      case Nudged(_, _, _) => 1
      case MiracleSpent(TimeSnapped, gratis) => if gratis then 0 else 2
      case MiracleSpent(_, gratis) => if gratis then 0 else 1
      case _ => 0
  }

  /** The regenerations that found the bank below its cap of three. */
  function Banked(s: State, es: seq<Event>): nat {
    if es == [] then 0
    else
      var earlier := es[..|es| - 1];
      Banked(s, earlier) +
      if es[|es| - 1].ChargeRegenerated? && ReduceAll(s, earlier).Some? && ReduceAll(s, earlier).value.charges < 3
      then 1 else 0
  }

  /** The bank balances over every accepted history. */
  lemma {:induction false} BankBalances(s: State, es: seq<Event>)
    requires ReduceAll(s, es).Some?
    ensures ReduceAll(s, es).value.charges + Spent(es) == s.charges + Banked(s, es)
  {
    hide Placeable, Prune, Nudgeable, Transition;
    if es != [] {
      BankBalances(s, es[..|es| - 1]);
      var e := es[|es| - 1];
      if e.OrderTriggered? || e.OrderCancelled? || e.OrderExpired? || e.OrderPlaced? {
        OrdersKeepCharges(ReduceAll(s, es[..|es| - 1]).value, e);
      }
    }
  }

  lemma OrdersKeepCharges(s: State, e: Event)
    requires Reduce(s, e).Some? && (e.OrderTriggered? || e.OrderCancelled? || e.OrderExpired? || e.OrderPlaced?)
    ensures Reduce(s, e).value.charges == s.charges
  {
  }

  /** Left alone for `n` ticks, the bank gains one charge at every sixth hour passed, up to three. */
  lemma {:induction false} TicksRegenerate(s: State, steps: seq<Step>)
    requires Inv(s) && forall i :: 0 <= i < |steps| ==> steps[i].Tick?
    ensures Inv(Run(s, steps)) && Run(s, steps).tick == s.tick + |steps|
    ensures var passed := (s.tick + |steps|) / 21600 - s.tick / 21600;
            Run(s, steps).charges == if s.charges + passed < 3 then s.charges + passed else 3
  {
    hide Do, Inv;
    BankWithinCap(s);
    if steps != [] {
      var earlier, last := steps[..|steps| - 1], steps[|steps| - 1];
      TicksRegenerate(s, earlier);
      TickCharges(Run(s, earlier), last.night, last.died);
      TickAdvances(Run(s, earlier), last.night, last.died);
      NextSixth(s.tick + |earlier|);
    }
  }

  lemma BankWithinCap(s: State)
    requires Inv(s)
    ensures 0 <= s.charges <= 3
  {
  }

  lemma NextSixth(t: int)
    ensures (t + 1) / 21600 == t / 21600 + if (t + 1) % 21600 == 0 then 1 else 0
  {
  }

  lemma TickCharges(s: State, night: bool, died: seq<bool>)
    requires Inv(s)
    ensures Do(s, Tick(night, died)).charges ==
              if (s.tick + 1) % 21600 == 0 && s.charges < 3 then s.charges + 1 else s.charges
  {
    var next := s.tick + 1;
    var s0 := s.(tick := next);
    var regen := Regeneration(s, next);
    OneEvent(s0, ChargeRegenerated);
    TickAlwaysApplies(s0, next);
    ReduceAllConcat(s0, regen, Expiries(s.orders, next, |s.orders|));
    ExpiriesApply(ReduceAll(s0, regen).value, next, |s.orders|);
  }

  // ---- a pruned id ----

  function SystemOrder(name: nat): Order {
    Order(Id(name), System, 1, 1, 1, -1, 0, TICKS_PER_GAME_DAY, Active)
  }

  /** System orders named 0, 1, ... each placed and cancelled. */
  function PlacedAndCancelled(n: nat): seq<Event> {
    if n == 0 then []
    else PlacedAndCancelled(n - 1) + [OrderPlaced(SystemOrder(n - 1))] + [OrderCancelled(Id(n - 1))]
  }

  /** The cancelled orders named `lo` to `hi`. */
  function Trail(lo: nat, hi: nat): (r: seq<Order>)
    requires lo <= hi
    ensures |r| == hi - lo
    ensures forall i :: 0 <= i < hi - lo ==> r[i] == SystemOrder(lo + i).(status := Cancelled)
    decreases hi - lo
  {
    if lo == hi then [] else [SystemOrder(lo).(status := Cancelled)] + Trail(lo + 1, hi)
  }

  lemma {:induction false} TrailConsumed(lo: nat, hi: nat, o: Order)
    requires lo <= hi && IsActive(o)
    ensures Consumed(Trail(lo, hi) + [o]) == hi - lo
    decreases hi - lo
  {
    if lo < hi {
      TrailConsumed(lo + 1, hi, o);
      assert (Trail(lo, hi) + [o])[1..] == Trail(lo + 1, hi) + [o];
    } else {
      assert Trail(lo, hi) + [o] == [o];
    }
  }

  function Oldest(n: nat): nat {
    if n <= ORDER_RETAIN + 1 then 0 else n - ORDER_RETAIN - 1
  }

  lemma TrailPlace(s: State, n: nat)
    requires s.orders == Trail(Oldest(n), n)
    ensures Reduce(s, OrderPlaced(SystemOrder(n)))
         == Some(s.(orders := Trail(Oldest(n + 1), n) + [SystemOrder(n)]))
  {
    var lo := Oldest(n);
    var all := Trail(lo, n) + [SystemOrder(n)];
    TrailConsumed(lo, n, SystemOrder(n));
    if n - lo <= ORDER_RETAIN {
      PruneKeepsFew(all);
    } else {
      assert all[1..] == Trail(lo + 1, n) + [SystemOrder(n)];
      TrailConsumed(lo + 1, n, SystemOrder(n));
      PruneKeepsFew(all[1..]);
    }
  }

  lemma TrailCancel(s: State, lo: nat, n: nat)
    requires lo <= n && s.orders == Trail(lo, n) + [SystemOrder(n)]
    ensures Reduce(s, OrderCancelled(Id(n))) == Some(s.(orders := Trail(lo, n + 1)))
  {
    FindAt(s.orders, Id(n), n - lo);
    assert s.orders[n - lo := SystemOrder(n).(status := Cancelled)] == Trail(lo, n + 1);
  }

  lemma AppendOne(s: State, es: seq<Event>, s1: State, e: Event)
    requires ReduceAll(s, es) == Some(s1)
    ensures ReduceAll(s, es + [e]) == Reduce(s1, e)
  {
    AppendEvent(s, es, e);
  }

  lemma AppendTwo(s: State, es: seq<Event>, s1: State, e: Event, s2: State, f: Event)
    requires ReduceAll(s, es) == Some(s1) && Reduce(s1, e) == Some(s2)
    ensures ReduceAll(s, es + [e] + [f]) == Reduce(s2, f)
  {
    AppendEvent(s, es, e);
    AppendEvent(s, es + [e], f);
  }

  function TrailState(s: State, n: nat): State {
    s.(orders := Trail(Oldest(n), n))
  }

  lemma TrailStep(s: State, n: nat) returns (mid: State)
    ensures Reduce(TrailState(s, n), OrderPlaced(SystemOrder(n))) == Some(mid)
    ensures Reduce(mid, OrderCancelled(Id(n))) == Some(TrailState(s, n + 1))
  {
    TrailPlace(TrailState(s, n), n);
    mid := s.(orders := Trail(Oldest(n + 1), n) + [SystemOrder(n)]);
    TrailCancel(mid, Oldest(n + 1), n);
  }

  lemma {:induction false} TrailAfter(s: State, n: nat)
    requires s.orders == []
    ensures ReduceAll(s, PlacedAndCancelled(n)) == Some(TrailState(s, n))
  {
    if n > 0 {
      TrailAfter(s, n - 1);
      var mid := TrailStep(s, n - 1);
      AppendTwo(s, PlacedAndCancelled(n - 1), TrailState(s, n - 1),
        OrderPlaced(SystemOrder(n - 1)), mid, OrderCancelled(Id(n - 1)));
    }
  }

  /** Ids are unique among retained orders only: the id of a consumed order is refused while the order
      is retained and accepted again once it is pruned, here from the 34th order on. */
  lemma PrunedIdIsFreeAgain(s: State, n: nat)
    requires s.orders == [] && n > 0
    ensures ReduceAll(s, PlacedAndCancelled(n)).Some?
    ensures Placeable(ReduceAll(s, PlacedAndCancelled(n)).value, SystemOrder(0)) <==> n > ORDER_RETAIN + 1
  {
    TrailAfter(s, n);
    var s' := TrailState(s, n);
    if n <= ORDER_RETAIN + 1 {
      assert s'.orders[0].id == Id(0);
    }
  }
}
