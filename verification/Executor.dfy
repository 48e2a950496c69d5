/** What the executor computes ahead of the reducer (internal/sim/executor.go): which goods a pick_up, a
    withdraw or a deposit moves, and what a meal consumes.
  */
module Executor {
  import opened Piles
  import opened Goods
  import opened Transfers

  // ---- picking up and withdrawing ----

  /** What an intent asks for: every kind, or one kind and, when positive, at most so much of it. */
  datatype Request = Everything | Named(kind: Kind, qty: int)

  function Limit(ask: Request, k: Kind, have: nat): nat {
    match ask
    case Everything => have
    case Named(kind, qty) => if k != kind then 0 else if 0 < qty < have then qty else have
  }

  /** What lies on a pile, or in an inventory, by kind. */
  function AvailOf(p: Pile): Kind -> nat {
    (k: Kind) => Avail(p, k)
  }

  function CarriedOf(inv: Inventory): Kind -> nat {
    (k: Kind) => Carried(inv, k)
  }

  datatype Pick = Pick(kind: Kind, n: nat)

  /** What is recorded of one kind. */
  function Recorded(picks: seq<Pick>, k: Kind): nat {
    if picks == [] then 0
    else Recorded(picks[..|picks| - 1], k) + if picks[|picks| - 1].kind == k then picks[|picks| - 1].n else 0
  }

  function RecordedAll(picks: seq<Pick>): nat {
    if picks == [] then 0 else RecordedAll(picks[..|picks| - 1]) + picks[|picks| - 1].n
  }

  function AddPick(picks: seq<Pick>, k: Kind, n: nat): seq<Pick> {
    if n == 0 then picks else picks + [Pick(k, n)]
  }

  lemma AddPickTotals(picks: seq<Pick>, k: Kind, n: nat, q: Kind)
    ensures RecordedAll(AddPick(picks, k, n)) == RecordedAll(picks) + n
    ensures Recorded(AddPick(picks, k, n), q) == Recorded(picks, q) + if q == k then n else 0
  {
    assert (picks + [Pick(k, n)])[..|picks|] == picks;
  }

  /** What is taken of the kind at position `j` after the earlier kinds. */
  function Take(have: Kind -> nat, ask: Request, free: nat, earlier: seq<Pick>, j: nat): nat
    requires j < KINDS
  {
    Clamp(free - RecordedAll(earlier), Limit(ask, KindAt(j), have(KindAt(j))))
  }

  /** The sweep over the first `j` kinds: each gives what is asked of it and the free bulk still admits. */
  function Sweep(have: Kind -> nat, ask: Request, free: nat, j: nat): seq<Pick>
    requires j <= KINDS
  {
    if j == 0 then []
    else
      var earlier := Sweep(have, ask, free, j - 1);
      AddPick(earlier, KindAt(j - 1), Take(have, ask, free, earlier, j - 1))
  }

  lemma SweepStart(have: Kind -> nat, ask: Request, free: nat)
    ensures Sweep(have, ask, free, 0) == [] && RecordedAll([]) == 0
  {
  }

  lemma SweepNext(have: Kind -> nat, ask: Request, free: nat, j: nat)
    requires j < KINDS
    ensures var earlier := Sweep(have, ask, free, j);
            var n := Take(have, ask, free, earlier, j);
            Sweep(have, ask, free, j + 1) == AddPick(earlier, KindAt(j), n) &&
            RecordedAll(Sweep(have, ask, free, j + 1)) == RecordedAll(earlier) + n
  {
    hide KindAt, AddPick, Take, RecordedAll;
    var earlier := Sweep(have, ask, free, j);
    AddPickTotals(earlier, KindAt(j), Take(have, ask, free, earlier, j), Wood);
  }

  /** A request for one kind is a sweep in which the other kinds give nothing. */
  lemma {:induction false} NamedSweep(have: Kind -> nat, kind: Kind, qty: int, free: nat, j: nat)
    requires j <= KINDS
    ensures Sweep(have, Named(kind, qty), free, j) ==
              if IndexOf(kind) < j then AddPick([], kind, Clamp(free, Limit(Named(kind, qty), kind, have(kind)))) else []
  {
    hide KindAt;
    if j > 0 {
      NamedSweep(have, kind, qty, free, j - 1);
      if IndexOf(kind) == j - 1 {
        SameIndex(kind, KindAt(j - 1));
      }
    }
  }

  lemma WholeNamedSweep(have: Kind -> nat, kind: Kind, qty: int, free: nat)
    requires kind.OtherKind? ==> have(kind) == 0
    ensures Sweep(have, Named(kind, qty), free, KINDS) ==
              AddPick([], kind, Clamp(free, Limit(Named(kind, qty), kind, have(kind))))
  {
    hide Sweep;
    NamedSweep(have, kind, qty, free, KINDS);
  }

  /** One pass of the executor's loop. */
  method PlanOne(have: nat, ask: Request, k: Kind, free: int) returns (take: int)
    requires free >= 0 && (ask.Named? ==> ask.kind == k)
    ensures take == Clamp(free, Limit(ask, k, have))
  {
    take := have;
    if ask.Named? && ask.qty > 0 && ask.qty < take {
      take := ask.qty;
    }
    if take > free {
      take := free;
    }
  }

  /** The executor's loop, over the canonical kinds or over the one named; it stops when nothing more fits. */
  method Plan(have: Kind -> nat, ask: Request, inv: Inventory) returns (picks: seq<Pick>)
    requires forall k: Kind :: k.OtherKind? ==> have(k) == 0
    ensures picks == Sweep(have, ask, FreeBulk(inv), KINDS)
  {
    hide FreeBulk, KindAt, Sweep, Limit, RecordedAll;
    var free: int := FreeBulk(inv);
    picks := [];
    if ask.Named? {
      WholeNamedSweep(have, ask.kind, ask.qty, FreeBulk(inv));
      var take := PlanOne(have(ask.kind), ask, ask.kind, free);
      if take > 0 {
        picks := picks + [Pick(ask.kind, take)];
      }
      return;
    }
    SweepStart(have, ask, FreeBulk(inv));
    var j := 0;
    while j < KINDS && free > 0
      invariant j <= KINDS && picks == Sweep(have, ask, FreeBulk(inv), j)
      invariant 0 <= free == FreeBulk(inv) - RecordedAll(picks)
    {
      var take := PlanOne(have(KindAt(j)), ask, KindAt(j), free);
      SweepNext(have, ask, FreeBulk(inv), j);
      if take > 0 {
        picks := picks + [Pick(KindAt(j), take)];
        free := free - take;
      }
      j := j + 1;
    }
    SweepIsFull(have, ask, FreeBulk(inv), j);
  }

  method PlanPickUp(p: Pile, inv: Inventory, ask: Request) returns (picks: seq<Pick>)
    ensures picks == Sweep(AvailOf(p), ask, FreeBulk(inv), KINDS)
  {
    picks := Plan(AvailOf(p), ask, inv);
  }

  method PlanWithdraw(store: Inventory, inv: Inventory, ask: Request) returns (picks: seq<Pick>)
    ensures picks == Sweep(CarriedOf(store), ask, FreeBulk(inv), KINDS)
  {
    picks := Plan(CarriedOf(store), ask, inv);
  }

  lemma {:induction false} SweepIsFull(have: Kind -> nat, ask: Request, free: nat, j: nat)
    requires j <= KINDS && (j < KINDS ==> RecordedAll(Sweep(have, ask, free, j)) >= free)
    ensures Sweep(have, ask, free, KINDS) == Sweep(have, ask, free, j)
    decreases KINDS - j
  {
    hide KindAt, RecordedAll;
    if j < KINDS {
      assert Take(have, ask, free, Sweep(have, ask, free, j), j) == 0;
      SweepIsFull(have, ask, free, j + 1);
    }
  }

  /** What is asked of the first `j` kinds and there. */
  function AskedUpTo(have: Kind -> nat, ask: Request, j: nat): nat
    requires j <= KINDS
  {
    if j == 0 then 0 else AskedUpTo(have, ask, j - 1) + Limit(ask, KindAt(j - 1), have(KindAt(j - 1)))
  }

  /** The sweep takes as much as is asked, as there is and as fits. */
  lemma {:induction false} SweepFills(have: Kind -> nat, ask: Request, free: nat, j: nat)
    requires j <= KINDS
    ensures RecordedAll(Sweep(have, ask, free, j)) == Min(free, AskedUpTo(have, ask, j))
  {
    hide KindAt, AddPick;
    if j > 0 {
      SweepFills(have, ask, free, j - 1);
      var earlier := Sweep(have, ask, free, j - 1);
      AddPickTotals(earlier, KindAt(j - 1), Take(have, ask, free, earlier, j - 1), Wood);
    }
  }

  lemma {:induction false} SweepOnlyEarlierKinds(have: Kind -> nat, ask: Request, free: nat, j: nat, k: Kind)
    requires j <= KINDS && IndexOf(k) >= j
    ensures Recorded(Sweep(have, ask, free, j), k) == 0
  {
    hide AddPick, Take;
    if j > 0 {
      SweepOnlyEarlierKinds(have, ask, free, j - 1, k);
      var earlier := Sweep(have, ask, free, j - 1);
      AddPickTotals(earlier, KindAt(j - 1), Take(have, ask, free, earlier, j - 1), k);
    }
  }

  lemma {:induction false} RecordedAt(have: Kind -> nat, ask: Request, free: nat, i: nat, j: nat)
    requires i < j <= KINDS
    ensures Recorded(Sweep(have, ask, free, j), KindAt(i)) == Take(have, ask, free, Sweep(have, ask, free, i), i)
  {
    hide AddPick, Take;
    var earlier := Sweep(have, ask, free, j - 1);
    AddPickTotals(earlier, KindAt(j - 1), Take(have, ask, free, earlier, j - 1), KindAt(i));
    if i < j - 1 {
      RecordedAt(have, ask, free, i, j - 1);
    } else {
      SweepOnlyEarlierKinds(have, ask, free, i, KindAt(i));
    }
  }

  /** A request for one kind takes the smallest of what is there, what fits and, when it names one, the quantity;
      nothing of any other kind. */
  lemma NamedTakes(have: Kind -> nat, kind: Kind, qty: int, free: nat, k: Kind)
    requires !kind.OtherKind?
    ensures Recorded(Sweep(have, Named(kind, qty), free, KINDS), k) ==
              if k != kind then 0
              else if qty > 0 then Min(qty, Min(have(kind), free)) else Min(have(kind), free)
  {
    hide Sweep;
    NamedSweep(have, kind, qty, free, KINDS);
    var n := Clamp(free, Limit(Named(kind, qty), kind, have(kind)));
    AddPickTotals([], kind, n, k);
  }

  lemma {:induction false} RecordedGrows(have: Kind -> nat, ask: Request, free: nat, i: nat, j: nat)
    requires i <= j <= KINDS
    ensures RecordedAll(Sweep(have, ask, free, i)) <= RecordedAll(Sweep(have, ask, free, j))
  {
    hide RecordedAll, Take, AddPick;
    if i < j {
      RecordedGrows(have, ask, free, i, j - 1);
      SweepNext(have, ask, free, j - 1);
    }
  }

  /** A request for everything fills up in canonical order: while anything of a kind is left behind, nothing of a
      later kind is taken. */
  lemma EarlierKindsFillFirst(have: Kind -> nat, free: nat, i: nat, j: nat)
    requires i < j < KINDS
    ensures var picks := Sweep(have, Everything, free, KINDS);
            Recorded(picks, KindAt(i)) < have(KindAt(i)) ==> Recorded(picks, KindAt(j)) == 0
  {
    RecordedAt(have, Everything, free, i, KINDS);
    RecordedAt(have, Everything, free, j, KINDS);
    hide RecordedAll, Recorded, KindAt, AddPick;
    SweepNext(have, Everything, free, i);
    RecordedGrows(have, Everything, free, i + 1, j);
  }

  /** Where goods are taken from. */
  datatype Source = PileAt(x: int, y: int) | ChestAt(x: int, y: int)

  function Stock(w: World, src: Source): Kind -> nat {
    match src
    case PileAt(x, y) => AvailOf(PileOf(w.piles, x, y))
    case ChestAt(x, y) =>
      var c := ChestIndex(w.chests, x, y);
      CarriedOf(if c == |w.chests| then NOTHING else w.chests[c].store)
  }

  /** The reducer's arm for one recorded event. */
  function TakeFrom(w: World, i: int, src: Source, k: Kind, n: int): (w': World)
    requires Known(w, i)
    ensures |w'.agents| == |w.agents|
  {
    match src
    case PileAt(x, y) => PickUp(w, i, x, y, k, n)
    case ChestAt(x, y) => Withdraw(w, i, x, y, k, n)
  }

  /** The recorded events applied one after another. */
  function ApplyPicks(w: World, i: int, src: Source, picks: seq<Pick>): (w': World)
    requires Known(w, i)
    ensures |w'.agents| == |w.agents|
  {
    if picks == [] then w
    else TakeFrom(ApplyPicks(w, i, src, picks[..|picks| - 1]), i, src, picks[|picks| - 1].kind, picks[|picks| - 1].n)
  }

  /** `w'` is `w` with exactly the recorded units moved from the source to villager `i`. */
  ghost predicate MovedExactly(w: World, w': World, i: int, src: Source, picks: seq<Pick>)
    requires Known(w, i) && Known(w', i)
  {
    var inv, inv' := w.agents[i].inv, w'.agents[i].inv;
    && Bulk(inv') == Bulk(inv) + RecordedAll(picks)
    && (forall k :: Carried(inv', k) == Carried(inv, k) + Recorded(picks, k))
    && (forall k :: Stock(w', src)(k) == Stock(w, src)(k) - Recorded(picks, k))
  }

  lemma PutInCarried(inv: Inventory, k: Kind, n: nat, tools: seq<int>, j: Kind)
    requires !k.OtherKind? && (k.Spears? || k.Axes? ==> |tools| == n)
    ensures Carried(PutIn(inv, k, n, tools), j) == Carried(inv, j) + if j == k then n else 0
  {
  }

  lemma PutInBulk(inv: Inventory, k: Kind, n: nat, tools: seq<int>)
    requires !k.OtherKind? && (k.Spears? || k.Axes? ==> |tools| == n)
    ensures Bulk(PutIn(inv, k, n, tools)) == Bulk(inv) + n
  {
    if IsFlat(k) {
      AddItemsBulk(inv, k, n);
    }
  }

  lemma TakeFoodAvail(food: seq<Batch>, k: Kind, n: nat, j: Kind)
    requires n <= FoodOf(food, k)
    ensures FoodOf(Remaining(food, n, OfKind(k)), j) == FoodOf(food, j) - if j == k then n else 0
  {
    RemainingOfKind(food, n, OfKind(k), j);
    RemovalIsOldestFirst(food, n, OfKind(k));
    TakenAll(food, k);
  }

  lemma TakeOffAvail(p: Pile, k: Kind, n: nat, j: Kind)
    requires n <= Avail(p, k)
    ensures Avail(TakeOff(p, k, n), j) == Avail(p, j) - if j == k then n else 0
  {
    hide FoodOf, Remaining;
    if IsFood(k) {
      TakeFoodAvail(p.food, k, n, j);
    }
  }

  lemma SettledPile(piles: seq<Pile>, p: Pile, k: Kind)
    requires OnePerTile(piles)
    ensures Avail(PileOf(Settle(piles, p), p.x, p.y), k) == Avail(p, k)
  {
    if IsEmpty(p) {
      RemovePileShape(piles, p.x, p.y);
    } else {
      var i := PileIndex(piles, p.x, p.y);
      if i == |piles| {
        AppendedIndex(piles, p);
      } else {
        assert forall j :: 0 <= j < i ==> piles[i := p][j] == piles[j];
        IndexIs(piles[i := p], p.x, p.y, i);
      }
    }
  }

  lemma BareHasNothing(x: int, y: int, k: Kind)
    ensures Avail(Bare(x, y), k) == 0 && (k.OtherKind? ==> forall p :: Avail(p, k) == 0)
  {
  }

  /** The pick, when the clamps do not bite. */
  lemma PickUpUnclamped(w: World, i: int, x: int, y: int, k: Kind, n: nat)
    requires Known(w, i) && 0 < n <= FreeBulk(w.agents[i].inv) && n <= Avail(PileOf(w.piles, x, y), k)
    ensures var p := PileOf(w.piles, x, y);
            PickUp(w, i, x, y, k, n) ==
              WithInv(w, i, PutIn(w.agents[i].inv, k, n, ToolsOff(p, k, n))).(piles := Settle(w.piles, TakeOff(p, k, n)))
  {
    hide Avail, FreeBulk, PutIn, TakeOff, Settle, ToolsOff;
    BareHasNothing(x, y, k);
  }

  /** A pick within the free bulk and the pile is carried out as recorded. */
  lemma PickIsExact(w: World, i: int, x: int, y: int, k: Kind, n: nat, j: Kind)
    requires Known(w, i) && OnePerTile(w.piles) && 0 < n <= FreeBulk(w.agents[i].inv)
    requires n <= Avail(PileOf(w.piles, x, y), k)
    ensures var w' := PickUp(w, i, x, y, k, n);
            var inv, inv' := w.agents[i].inv, w'.agents[i].inv;
            Bulk(inv') == Bulk(inv) + n &&
            Carried(inv', j) == Carried(inv, j) + (if j == k then n else 0) &&
            Avail(PileOf(w'.piles, x, y), j) == Avail(PileOf(w.piles, x, y), j) - if j == k then n else 0
  {
    var inv, p := w.agents[i].inv, PileOf(w.piles, x, y);
    BareHasNothing(x, y, k);
    ToolsOffLength(p, k, n);
    PickUpUnclamped(w, i, x, y, k, n);
    hide Bulk, Carried, PutIn, TakeOff, Settle, Avail, FreeBulk, PickUp, ToolsOff;
    PutInBulk(inv, k, n, ToolsOff(p, k, n));
    PutInCarried(inv, k, n, ToolsOff(p, k, n), j);
    TakeOffAvail(p, k, n, j);
    SettledPile(w.piles, TakeOff(p, k, n), j);
  }

  lemma ToolsOffLength(p: Pile, k: Kind, n: nat)
    requires n <= Avail(p, k)
    ensures k.Spears? || k.Axes? ==> |ToolsOff(p, k, n)| == n
  {
  }

  lemma GroundOf(w: World)
    requires WorldOk(w)
    ensures OnePerTile(w.piles)
  {
  }

  lemma FreeAfter(inv: Inventory, inv': Inventory, moved: nat)
    requires Bulk(inv') == Bulk(inv) + moved && moved <= FreeBulk(inv)
    ensures FreeBulk(inv') == FreeBulk(inv) - moved
  {
  }

  lemma ChestIndexIs(chests: seq<Chest>, x: int, y: int, c: nat)
    requires c <= |chests| && (c < |chests| ==> chests[c].x == x && chests[c].y == y)
    requires forall d :: 0 <= d < c ==> !(chests[d].x == x && chests[d].y == y)
    ensures ChestIndex(chests, x, y) == c
  {
  }

  lemma SameChestIndex(chests: seq<Chest>, x: int, y: int, c: nat, store: Inventory)
    requires c < |chests|
    ensures ChestIndex(chests[c := chests[c].(store := store)], x, y) == ChestIndex(chests, x, y)
  {
    hide ChestIndex;
    ChestIndexIs(chests[c := chests[c].(store := store)], x, y, ChestIndex(chests, x, y));
  }

  lemma WithdrawUnclamped(w: World, i: int, x: int, y: int, k: Kind, n: int)
    requires Known(w, i) && 0 < n <= FreeBulk(w.agents[i].inv) && n <= Stock(w, ChestAt(x, y))(k)
    ensures var c := ChestIndex(w.chests, x, y);
            c < |w.chests| && n <= Carried(w.chests[c].store, k) && !k.OtherKind? &&
            var inv, store := w.agents[i].inv, w.chests[c].store;
            Withdraw(w, i, x, y, k, n) ==
              WithStore(WithInv(w, i, PutIn(inv, k, n, ToolsOut(store, k, n))), c, TakeOut(store, k, n))
  {
    hide PutIn, TakeOut, ToolsOut, FreeBulk, ChestIndex;
    NothingToCarry(k);
  }

  /** A withdrawal within the free bulk and the chest is carried out as recorded. */
  lemma WithdrawIsExact(w: World, i: int, x: int, y: int, k: Kind, n: int, j: Kind)
    requires Known(w, i) && 0 < n <= FreeBulk(w.agents[i].inv) && n <= Stock(w, ChestAt(x, y))(k)
    ensures var w' := Withdraw(w, i, x, y, k, n);
            var inv, inv' := w.agents[i].inv, w'.agents[i].inv;
            Bulk(inv') == Bulk(inv) + n &&
            Carried(inv', j) == Carried(inv, j) + (if j == k then n else 0) &&
            Stock(w', ChestAt(x, y))(j) == Stock(w, ChestAt(x, y))(j) - if j == k then n else 0
  {
    WithdrawUnclamped(w, i, x, y, k, n);
    var c := ChestIndex(w.chests, x, y);
    var inv, store := w.agents[i].inv, w.chests[c].store;
    ToolsOutLength(store, k, n);
    hide Bulk, Carried, PutIn, TakeOut, FreeBulk, ToolsOut, Withdraw, ChestIndex;
    PutInBulk(inv, k, n, ToolsOut(store, k, n));
    PutInCarried(inv, k, n, ToolsOut(store, k, n), j);
    TakeOutCarried(store, k, n, j);
    SameChestIndex(w.chests, x, y, c, TakeOut(store, k, n));
  }

  lemma NothingToCarry(k: Kind)
    ensures Carried(NOTHING, k) == 0 && (k.OtherKind? ==> forall inv :: Carried(inv, k) == 0)
  {
  }

  lemma ToolsOutLength(inv: Inventory, k: Kind, n: nat)
    requires n <= Carried(inv, k)
    ensures k.Spears? || k.Axes? ==> |ToolsOut(inv, k, n)| == n
  {
  }

  lemma TakeFromIsExact(w: World, i: int, src: Source, k: Kind, n: nat, j: Kind)
    requires Known(w, i) && WorldOk(w) && 0 < n <= FreeBulk(w.agents[i].inv) && n <= Stock(w, src)(k)
    ensures var w' := TakeFrom(w, i, src, k, n);
            var inv, inv' := w.agents[i].inv, w'.agents[i].inv;
            WorldOk(w') && Bulk(inv') == Bulk(inv) + n &&
            Carried(inv', j) == Carried(inv, j) + (if j == k then n else 0) &&
            Stock(w', src)(j) == Stock(w, src)(j) - if j == k then n else 0
  {
    hide WorldOk, Bulk, Carried, Avail, PickUp, Withdraw, FreeBulk, PileOf, ChestIndex;
    match src {
      case PileAt(x, y) =>
        GroundOf(w);
        PickIsExact(w, i, x, y, k, n, j);
        PickUpOk(w, i, x, y, k, n);
      case ChestAt(x, y) =>
        WithdrawIsExact(w, i, x, y, k, n, j);
        WithdrawOk(w, i, x, y, k, n);
    }
  }

  lemma PickExtends(w: World, w1: World, i: int, src: Source, picks: seq<Pick>, k: Kind, n: nat)
    requires Known(w, i) && Known(w1, i) && WorldOk(w1) && MovedExactly(w, w1, i, src, picks)
    requires 0 < n <= FreeBulk(w1.agents[i].inv) && n <= Stock(w1, src)(k)
    ensures var w' := TakeFrom(w1, i, src, k, n);
            WorldOk(w') && MovedExactly(w, w', i, src, AddPick(picks, k, n))
  {
    hide WorldOk, Bulk, Carried, Stock, TakeFrom, FreeBulk, AddPick;
    var w' := TakeFrom(w1, i, src, k, n);
    TakeFromIsExact(w1, i, src, k, n, k);
    AddPickTotals(picks, k, n, k);
    forall q
      ensures Carried(w'.agents[i].inv, q) == Carried(w.agents[i].inv, q) + Recorded(AddPick(picks, k, n), q)
      ensures Stock(w', src)(q) == Stock(w, src)(q) - Recorded(AddPick(picks, k, n), q)
    {
      TakeFromIsExact(w1, i, src, k, n, q);
      AddPickTotals(picks, k, n, q);
    }
  }

  /** The sweep's first `j` kinds, applied. */
  ghost predicate SweepMoved(w: World, i: int, src: Source, ask: Request, j: nat)
    requires Known(w, i) && j <= KINDS
  {
    var picks := Sweep(Stock(w, src), ask, FreeBulk(w.agents[i].inv), j);
    var w' := ApplyPicks(w, i, src, picks);
    WorldOk(w') && MovedExactly(w, w', i, src, picks)
  }

  lemma LimitIsBound(ask: Request, k: Kind, have: nat)
    ensures Limit(ask, k, have) <= have
  {
  }

  lemma TakeFits(have: Kind -> nat, ask: Request, free: nat, earlier: seq<Pick>, j: nat)
    requires j < KINDS && Take(have, ask, free, earlier, j) > 0
    ensures RecordedAll(earlier) + Take(have, ask, free, earlier, j) <= free
    ensures Take(have, ask, free, earlier, j) <= have(KindAt(j))
  {
    hide KindAt, RecordedAll, Limit;
    LimitIsBound(ask, KindAt(j), have(KindAt(j)));
  }

  lemma ApplyOneMore(w: World, i: int, src: Source, earlier: seq<Pick>, k: Kind, n: nat)
    requires Known(w, i)
    ensures ApplyPicks(w, i, src, AddPick(earlier, k, n)) ==
              if n == 0 then ApplyPicks(w, i, src, earlier) else TakeFrom(ApplyPicks(w, i, src, earlier), i, src, k, n)
  {
    hide TakeFrom;
    assert (earlier + [Pick(k, n)])[..|earlier|] == earlier;
  }

  lemma NothingAdded(earlier: seq<Pick>, k: Kind)
    ensures AddPick(earlier, k, 0) == earlier
  {
  }

  lemma SweepMovesOne(w: World, i: int, src: Source, ask: Request, j: nat)
    requires Known(w, i) && j < KINDS && SweepMoved(w, i, src, ask, j)
    ensures SweepMoved(w, i, src, ask, j + 1)
  {
    hide WorldOk, Bulk, Carried, Stock, TakeFrom, FreeBulk, KindAt, Take, ApplyPicks, AddPick, Recorded, RecordedAll;
    var have, free := Stock(w, src), FreeBulk(w.agents[i].inv);
    var earlier := Sweep(have, ask, free, j);
    var w1 := ApplyPicks(w, i, src, earlier);
    var k, n := KindAt(j), Take(have, ask, free, earlier, j);
    ApplyOneMore(w, i, src, earlier, k, n);
    if n > 0 {
      TakeFits(have, ask, free, earlier, j);
      SweepOnlyEarlierKinds(have, ask, free, j, k);
      FreeAfter(w.agents[i].inv, w1.agents[i].inv, RecordedAll(earlier));
      PickExtends(w, w1, i, src, earlier, k, n);
    } else {
      NothingAdded(earlier, k);
    }
  }

  lemma NothingSwept(w: World, i: int, src: Source, ask: Request)
    requires WorldOk(w) && Known(w, i)
    ensures SweepMoved(w, i, src, ask, 0)
  {
    hide WorldOk, Bulk, Carried, Stock, FreeBulk;
    assert Sweep(Stock(w, src), ask, FreeBulk(w.agents[i].inv), 0) == [];
    assert ApplyPicks(w, i, src, []) == w;
  }

  lemma {:induction false} SweepMovesUpTo(w: World, i: int, src: Source, ask: Request, j: nat)
    requires WorldOk(w) && Known(w, i) && j <= KINDS
    ensures SweepMoved(w, i, src, ask, j)
  {
    hide SweepMoved;
    if j > 0 {
      SweepMovesUpTo(w, i, src, ask, j - 1);
      SweepMovesOne(w, i, src, ask, j - 1);
    } else {
      NothingSwept(w, i, src, ask);
    }
  }

  /** The clamps of the reducer never bite on what the executor records: applied one after another, the events
      of a pick_up or a withdraw, of every kind or of one, move exactly their counts, as much as is asked, as
      is there and as fits. */
  lemma TakingHappensAsRecorded(w: World, i: int, src: Source, ask: Request)
    requires WorldOk(w) && Known(w, i)
    ensures var have, free := Stock(w, src), FreeBulk(w.agents[i].inv);
            var picks := Sweep(have, ask, free, KINDS);
            MovedExactly(w, ApplyPicks(w, i, src, picks), i, src, picks) &&
            RecordedAll(picks) == Min(free, AskedUpTo(have, ask, KINDS))
  {
    SweepMovesUpTo(w, i, src, ask, KINDS);
    SweepFills(Stock(w, src), ask, FreeBulk(w.agents[i].inv), KINDS);
  }

  // ---- depositing ----

  /** The count a deposit records: what is asked and carried, as far as the chest has room. */
  method PlanDeposit(inv: Inventory, store: Inventory, kind: Kind, qty: int) returns (n: int)
    ensures n == Min(Limit(Named(kind, qty), kind, Carried(inv, kind)), CHEST_CAP - Bulk(store))
  {
    n := Carried(inv, kind);
    if qty > 0 && qty < n {
      n := qty;
    }
    var free := CHEST_CAP - Bulk(store);
    if n > free {
      n := free;
    }
  }

  lemma DepositUnclamped(w: World, i: int, x: int, y: int, k: Kind, n: int)
    requires Known(w, i) && ChestIndex(w.chests, x, y) < |w.chests| && 0 < n <= Carried(w.agents[i].inv, k)
    requires n <= CHEST_CAP - Bulk(w.chests[ChestIndex(w.chests, x, y)].store)
    ensures var c := ChestIndex(w.chests, x, y);
            var inv, store := w.agents[i].inv, w.chests[c].store;
            !k.OtherKind? &&
            Deposit(w, i, x, y, k, n) ==
              WithStore(WithInv(w, i, TakeOut(inv, k, n)), c, PutIn(store, k, n, ToolsOut(inv, k, n)))
  {
    hide PutIn, TakeOut, ToolsOut, Bulk, ChestIndex;
    NothingToCarry(k);
  }

  lemma StoredInFirst(w: World, i: int, x: int, y: int, inv: Inventory, store: Inventory, j: Kind)
    requires Known(w, i) && ChestIndex(w.chests, x, y) < |w.chests|
    ensures var w' := WithStore(WithInv(w, i, inv), ChestIndex(w.chests, x, y), store);
            |w'.agents| == |w.agents| && w'.agents[i].inv == inv && Stock(w', ChestAt(x, y))(j) == Carried(store, j)
  {
    hide Carried, ChestIndex;
    SameChestIndex(w.chests, x, y, ChestIndex(w.chests, x, y), store);
  }

  /** The reducer's clamps do not bite on a recorded deposit either: it moves exactly its count. */
  lemma DepositHappensAsRecorded(w: World, i: int, x: int, y: int, k: Kind, qty: int, j: Kind)
    requires Known(w, i) && ChestIndex(w.chests, x, y) < |w.chests|
    ensures var c := ChestIndex(w.chests, x, y);
            var inv, store := w.agents[i].inv, w.chests[c].store;
            var n := Min(Limit(Named(k, qty), k, Carried(inv, k)), CHEST_CAP - Bulk(store));
            n > 0 ==>
              var w' := Deposit(w, i, x, y, k, n);
              Carried(w'.agents[i].inv, j) == Carried(inv, j) - (if j == k then n else 0) &&
              Stock(w', ChestAt(x, y))(j) == Carried(store, j) + if j == k then n else 0
  {
    var c := ChestIndex(w.chests, x, y);
    var inv, store := w.agents[i].inv, w.chests[c].store;
    var n := Min(Limit(Named(k, qty), k, Carried(inv, k)), CHEST_CAP - Bulk(store));
    if n > 0 {
      hide Carried, PutIn, TakeOut, ToolsOut, Limit, Bulk, Deposit, ChestIndex, WithInv, WithStore, Stock;
      LimitIsBound(Named(k, qty), k, Carried(inv, k));
      DepositUnclamped(w, i, x, y, k, n);
      ToolsOutLength(inv, k, n);
      PutInCarried(store, k, n, ToolsOut(inv, k, n), j);
      TakeOutCarried(inv, k, n, j);
      StoredInFirst(w, i, x, y, TakeOut(inv, k, n), PutIn(store, k, n, ToolsOut(inv, k, n)), j);
    }
  }

  // ---- what the reducer makes of any count ----

  /** The smallest of what is asked, what fits and what is there; nothing of a count that is not positive. */
  function Moving(n: int, room: int, have: nat): (m: int)
    ensures 0 <= m <= have
  {
    if n <= 0 || room <= 0 then 0 else Min(Min(n, room), have)
  }

  lemma PickUpClamps(w: World, i: int, x: int, y: int, k: Kind, n: int)
    requires Known(w, i)
    ensures var m := Moving(n, BULK_CAP - Bulk(w.agents[i].inv), Avail(PileOf(w.piles, x, y), k));
            PickUp(w, i, x, y, k, n) ==
              if m > 0 then PickUp(w, i, x, y, k, m)
              else if HasPile(w.piles, x, y) then w.(piles := Settle(w.piles, PileOf(w.piles, x, y))) else w
  {
    hide Avail, PutIn, TakeOff, Settle, ToolsOff, Bulk;
    BareHasNothing(x, y, k);
  }

  lemma PickUpFrame(w: World, i: int, x: int, y: int, k: Kind, n: int)
    requires Known(w, i)
    ensures var w' := PickUp(w, i, x, y, k, n);
            && w'.chests == w.chests
            && (forall a :: 0 <= a < |w.agents| && a != i ==> w'.agents[a] == w.agents[a])
            && (w' == w || exists p: Pile :: p.x == x && p.y == y && w'.piles == Settle(w.piles, p))
  {
    hide Avail, PutIn, Settle, ToolsOff, FreeBulk;
  }

  /** Picking up, whatever count was recorded: the villager gains and the tile's pile loses the smallest of the
      count, the room under 24 and what lies there; no other kind, pile, chest or villager changes. */
  lemma PickUpHappens(w: World, i: int, x: int, y: int, k: Kind, n: int, j: Kind, u: int, v: int)
    requires WorldOk(w) && 0 <= i < |w.agents|
    ensures var w', p := Reduce(w, PickedUp(i, x, y, k, n)), PileOf(w.piles, x, y);
            var m := Moving(n, 24 - Bulk(w.agents[i].inv), Avail(p, k));
            && w'.chests == w.chests && |w'.agents| == |w.agents|
            && (forall a :: 0 <= a < |w.agents| && a != i ==> w'.agents[a] == w.agents[a])
            && Carried(w'.agents[i].inv, j) == Carried(w.agents[i].inv, j) + (if j == k then m else 0)
            && Avail(PileOf(w'.piles, x, y), j) == Avail(p, j) - (if j == k then m else 0)
            && ((u, v) != (x, y) ==> PileOf(w'.piles, u, v) == PileOf(w.piles, u, v))
  {
    var m := Moving(n, BULK_CAP - Bulk(w.agents[i].inv), Avail(PileOf(w.piles, x, y), k));
    GroundOf(w);
    assert Reduce(w, PickedUp(i, x, y, k, n)) == PickUp(w, i, x, y, k, n);
    PickUpClamps(w, i, x, y, k, n);
    PickUpFrame(w, i, x, y, k, n);
    hide WorldOk, Avail, Carried, PickUp, Settle, Bulk, Reduce;
    if m > 0 {
      PickIsExact(w, i, x, y, k, m, j);
    } else if HasPile(w.piles, x, y) {
      SettledPile(w.piles, PileOf(w.piles, x, y), j);
    }
    var w' := PickUp(w, i, x, y, k, n);
    if w' != w && (u, v) != (x, y) {
      var p: Pile :| p.x == x && p.y == y && w'.piles == Settle(w.piles, p);
      SettleAt(w.piles, p, u, v);
    }
  }

  predicate FirstChest(w: World, c: nat, x: int, y: int) {
    && c < |w.chests| && w.chests[c].x == x && w.chests[c].y == y
    && forall d :: 0 <= d < c ==> !(w.chests[d].x == x && w.chests[d].y == y)
  }

  /** Between villager `i` and chest `c`, `m` units of kind `k` pass to the villager (from it when negative);
      nothing else changes, as far as kind `j` shows. */
  predicate Passes(w: World, w': World, i: int, c: nat, k: Kind, m: int, j: Kind)
    requires 0 <= i < |w.agents| && c < |w.chests|
  {
    && w'.piles == w.piles && |w'.agents| == |w.agents| && |w'.chests| == |w.chests|
    && (forall a :: 0 <= a < |w.agents| && a != i ==> w'.agents[a] == w.agents[a])
    && (forall d :: 0 <= d < |w.chests| && d != c ==> w'.chests[d] == w.chests[d])
    && Carried(w'.agents[i].inv, j) == Carried(w.agents[i].inv, j) + (if j == k then m else 0)
    && Carried(w'.chests[c].store, j) == Carried(w.chests[c].store, j) - (if j == k then m else 0)
  }

  lemma GoodsPass(giver: Inventory, taker: Inventory, k: Kind, m: nat, j: Kind)
    requires 0 < m <= Carried(giver, k)
    ensures Carried(TakeOut(giver, k, m), j) == Carried(giver, j) - (if j == k then m else 0)
    ensures Carried(PutIn(taker, k, m, ToolsOut(giver, k, m)), j) == Carried(taker, j) + (if j == k then m else 0)
  {
    NothingToCarry(k);
    ToolsOutLength(giver, k, m);
    hide Carried, PutIn, TakeOut, ToolsOut;
    PutInCarried(taker, k, m, ToolsOut(giver, k, m), j);
    TakeOutCarried(giver, k, m, j);
  }

  lemma BothReplaced(w: World, i: int, c: nat, inv: Inventory, store: Inventory, k: Kind, m: int, j: Kind)
    requires 0 <= i < |w.agents| && c < |w.chests|
    requires Carried(inv, j) == Carried(w.agents[i].inv, j) + (if j == k then m else 0)
    requires Carried(store, j) == Carried(w.chests[c].store, j) - (if j == k then m else 0)
    ensures Passes(w, WithStore(WithInv(w, i, inv), c, store), i, c, k, m, j)
  {
    hide Carried;
  }

  lemma NothingPasses(w: World, i: int, c: nat, k: Kind, j: Kind)
    requires 0 <= i < |w.agents| && c < |w.chests|
    ensures Passes(w, w, i, c, k, 0, j)
  {
  }

  lemma WithdrawClamps(w: World, i: int, c: nat, x: int, y: int, k: Kind, n: int)
    requires 0 <= i < |w.agents| && FirstChest(w, c, x, y)
    ensures var inv, store := w.agents[i].inv, w.chests[c].store;
            var m := Moving(n, 24 - Bulk(inv), Carried(store, k));
            Reduce(w, Withdrew(i, x, y, k, n)) ==
              if m > 0 then WithStore(WithInv(w, i, PutIn(inv, k, m, ToolsOut(store, k, m))), c, TakeOut(store, k, m))
              else w
  {
    hide Carried, Bulk, PutIn, TakeOut, ToolsOut;
    assert ChestIndex(w.chests, x, y) == c;
    hide ChestIndex;
  }

  lemma DepositClamps(w: World, i: int, c: nat, x: int, y: int, k: Kind, n: int)
    requires 0 <= i < |w.agents| && FirstChest(w, c, x, y)
    ensures var inv, store := w.agents[i].inv, w.chests[c].store;
            var m := Moving(n, 48 - Bulk(store), Carried(inv, k));
            Reduce(w, Deposited(i, x, y, k, n)) ==
              if m > 0 then WithStore(WithInv(w, i, TakeOut(inv, k, m)), c, PutIn(store, k, m, ToolsOut(inv, k, m)))
              else w
  {
    hide Carried, Bulk, PutIn, TakeOut, ToolsOut;
    assert ChestIndex(w.chests, x, y) == c;
    hide ChestIndex;
  }

  /** Withdrawing, whatever count was recorded: what passes to the villager is the smallest of the count, the room
      under 24 and what the chest holds. */
  lemma WithdrawalHappens(w: World, i: int, c: nat, x: int, y: int, k: Kind, n: int, j: Kind)
    requires 0 <= i < |w.agents| && c < |w.chests| && FirstChest(w, c, x, y)
    ensures Passes(w, Reduce(w, Withdrew(i, x, y, k, n)), i, c, k,
              Moving(n, 24 - Bulk(w.agents[i].inv), Carried(w.chests[c].store, k)), j)
  {
    hide *;
    var inv, store := w.agents[i].inv, w.chests[c].store;
    var m := Moving(n, 24 - Bulk(inv), Carried(store, k));
    WithdrawClamps(w, i, c, x, y, k, n);
    NothingPasses(w, i, c, k, j);
    if m > 0 {
      GoodsPass(store, inv, k, m, j);
      BothReplaced(w, i, c, PutIn(inv, k, m, ToolsOut(store, k, m)), TakeOut(store, k, m), k, m, j);
    }
  }

  /** Depositing: what passes to the chest is the smallest of the count, the room under 48 and what is carried. */
  lemma DepositHappens(w: World, i: int, c: nat, x: int, y: int, k: Kind, n: int, j: Kind)
    requires 0 <= i < |w.agents| && c < |w.chests| && FirstChest(w, c, x, y)
    ensures Passes(w, Reduce(w, Deposited(i, x, y, k, n)), i, c, k,
              -Moving(n, 48 - Bulk(w.chests[c].store), Carried(w.agents[i].inv, k)), j)
  {
    hide *;
    var inv, store := w.agents[i].inv, w.chests[c].store;
    var m := Moving(n, 48 - Bulk(store), Carried(inv, k));
    DepositClamps(w, i, c, x, y, k, n);
    NothingPasses(w, i, c, k, j);
    if m > 0 {
      GoodsPass(inv, store, k, m, j);
      BothReplaced(w, i, c, TakeOut(inv, k, m), PutIn(store, k, m, ToolsOut(inv, k, m)), k, -m, j);
    }
  }

  // ---- eating ----

  const SATIETY_AT := 900
  const MEAL_RESTORE := 100
  const COOKED_RESTORE := 80
  const RAW_RESTORE := 40
  const NEED_MAX := 1000

  datatype Meal = Meal(meals: nat, cooked: nat, raw: nat, foodAfter: int)

  function Nourishment(m: Meal): nat {
    MEAL_RESTORE * m.meals + COOKED_RESTORE * m.cooked + RAW_RESTORE * m.raw
  }

  /** eatOutcome: the best food first, one unit at a time, to satiety or to the last unit. Nothing of a
      worse form is eaten while a better one is left, the last unit eaten was still needed, and the need's
      ceiling never cuts a unit short. */
  method EatOutcome(food: int, inv: Inventory) returns (m: Meal, eaten: bool)
    ensures eaten <==> food < SATIETY_AT && Get(inv.flat, Meals) + Get(inv.flat, FoodCooked) + Get(inv.flat, FoodRaw) > 0
    ensures eaten ==>
              && m.meals <= Get(inv.flat, Meals) && m.cooked <= Get(inv.flat, FoodCooked) && m.raw <= Get(inv.flat, FoodRaw)
              && (m.cooked > 0 ==> m.meals == Get(inv.flat, Meals))
              && (m.raw > 0 ==> m.meals == Get(inv.flat, Meals) && m.cooked == Get(inv.flat, FoodCooked))
              && m.foodAfter == food + Nourishment(m)
              && (m.foodAfter >= SATIETY_AT ||
                  (m.meals == Get(inv.flat, Meals) && m.cooked == Get(inv.flat, FoodCooked) && m.raw == Get(inv.flat, FoodRaw)))
              && m.foodAfter - (if m.raw > 0 then RAW_RESTORE else if m.cooked > 0 then COOKED_RESTORE else MEAL_RESTORE) < SATIETY_AT
  {
    m := Meal(0, 0, 0, food);
    eaten := false;
    if food >= SATIETY_AT {
      return;
    }
    var f := food;
    var availM, availC, availR := Get(inv.flat, Meals), Get(inv.flat, FoodCooked), Get(inv.flat, FoodRaw);
    var meals, cooked, raw := 0, 0, 0;
    while f < SATIETY_AT && (availM > 0 || availC > 0 || availR > 0)
      invariant availM >= 0 && availC >= 0 && availR >= 0 && meals >= 0 && cooked >= 0 && raw >= 0
      invariant availM + meals == Get(inv.flat, Meals)
      invariant availC + cooked == Get(inv.flat, FoodCooked)
      invariant availR + raw == Get(inv.flat, FoodRaw)
      invariant f == food + MEAL_RESTORE * meals + COOKED_RESTORE * cooked + RAW_RESTORE * raw
      invariant cooked > 0 ==> availM == 0
      invariant raw > 0 ==> availM == 0 && availC == 0
      invariant meals + cooked + raw > 0 ==>
        f - (if raw > 0 then RAW_RESTORE else if cooked > 0 then COOKED_RESTORE else MEAL_RESTORE) < SATIETY_AT
      decreases availM + availC + availR
    {
      if availM > 0 {
        availM, meals := availM - 1, meals + 1;
        f := Min(NEED_MAX, f + MEAL_RESTORE);
      } else if availC > 0 {
        availC, cooked := availC - 1, cooked + 1;
        f := Min(NEED_MAX, f + COOKED_RESTORE);
      } else {
        availR, raw := availR - 1, raw + 1;
        f := Min(NEED_MAX, f + RAW_RESTORE);
      }
    }
    if meals == 0 && cooked == 0 && raw == 0 {
      return;
    }
    return Meal(meals, cooked, raw, f), true;
  }
}
