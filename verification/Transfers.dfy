/** Every way goods change hands in a running world: the storage arms of the reducer (internal/sim/state.go)
    and the pile moves and spills of internal/sim/miracles.go. Nothing is made or lost on the way.
  */
module Transfers {
  import opened Piles
  import opened Goods

  datatype Villager = Villager(x: int, y: int, inv: Inventory)

  datatype Chest = Chest(x: int, y: int, store: Inventory)

  datatype World = World(agents: seq<Villager>, chests: seq<Chest>, piles: seq<Pile>)

  datatype Event =
    | Dropped(agent: int, x: int, y: int, kind: Kind, n: int, tick: int)
    | PickedUp(agent: int, x: int, y: int, kind: Kind, n: int)
    | Deposited(agent: int, x: int, y: int, kind: Kind, n: int)
    | Withdrew(agent: int, x: int, y: int, kind: Kind, n: int)
    | FoodRotted(x: int, y: int, kind: Kind, n: int, tick: int)
    | Died(agent: int, tick: int)
    | PileMoved(x: int, y: int, toX: int, toY: int)
    | ChestRemoved(x: int, y: int, tick: int)

  // ---- pouring and merging ----

  function PourKind(p: Pile, inv: Inventory, k: Kind, spoilAt: int): Pile {
    var n := Carried(inv, k);
    if n == 0 then p else PutOn(p, k, n, ToolsOut(inv, k, n), spoilAt)
  }

  /** The first `j` kinds of an inventory poured onto a pile. */
  function Pour(p: Pile, inv: Inventory, spoilAt: int, j: nat): (q: Pile)
    requires j <= KINDS
    ensures q.x == p.x && q.y == p.y
  {
    if j == 0 then p else PourKind(Pour(p, inv, spoilAt, j - 1), inv, KindAt(j - 1), spoilAt)
  }

  lemma AllOut(inv: Inventory, k: Kind, it: Item)
    requires !it.Dated?
    ensures Moved(k, Carried(inv, k), ToolsOut(inv, k, Carried(inv, k)), it)
         == if it.kind == k then InvCount(inv, it) else 0
  {
    assert inv.spears[..|inv.spears|] == inv.spears && inv.axes[..|inv.axes|] == inv.axes;
  }

  lemma {:induction false} PourCount(p: Pile, inv: Inventory, spoilAt: int, j: nat, it: Item)
    requires j <= KINDS && !it.Dated?
    ensures PileCount(Pour(p, inv, spoilAt, j), it)
         == PileCount(p, it) + if IndexOf(it.kind) < j then InvCount(inv, it) else 0
  {
    if j > 0 {
      var k := KindAt(j - 1);
      var n := Carried(inv, k);
      PourCount(p, inv, spoilAt, j - 1, it);
      if IndexOf(it.kind) == j - 1 {
        SameIndex(it.kind, k);
      }
      AllOut(inv, k, it);
      if n > 0 {
        PutOnCount(Pour(p, inv, spoilAt, j - 1), k, n, ToolsOut(inv, k, n), spoilAt, it);
      }
    }
  }

  function MergeMaterials(c: Counts, more: Counts, j: nat): Counts
    requires j <= 5
  {
    if j == 0 then c else AddNonFood(MergeMaterials(c, more, j - 1), KindAt(j - 1), Get(more, KindAt(j - 1)))
  }

  function MergeFood(food: seq<Batch>, more: seq<Batch>): seq<Batch> {
    if more == [] then food
    else
      var b := Last(more);
      AddFood(MergeFood(food, Front(more)), b.kind, b.n, b.spoilAt)
  }

  function MergeTools(s: seq<int>, more: seq<int>): seq<int> {
    if more == [] then s else SortInts(s + more)
  }

  /** One pile poured onto another: deadlines and uses are kept. */
  function MergePile(dest: Pile, moved: Pile): Pile {
    Pile(dest.x, dest.y, MergeMaterials(dest.materials, moved.materials, 5),
      MergeTools(dest.spears, moved.spears), MergeTools(dest.axes, moved.axes), MergeFood(dest.food, moved.food))
  }

  lemma {:induction false} MergeFoodAmounts(food: seq<Batch>, more: seq<Batch>, k: Kind, spoilAt: int)
    ensures FoodOf(MergeFood(food, more), k) == FoodOf(food, k) + FoodOf(more, k)
    ensures Amount(MergeFood(food, more), k, spoilAt) == Amount(food, k, spoilAt) + Amount(more, k, spoilAt)
  {
    if more != [] {
      var b := Last(more);
      MergeFoodAmounts(food, Front(more), k, spoilAt);
      AddFoodAmounts(MergeFood(food, Front(more)), b.kind, b.n, b.spoilAt, k, spoilAt);
    }
  }

  lemma {:induction false} MergeFoodOk(food: seq<Batch>, more: seq<Batch>)
    requires FoodOk(food)
    ensures FoodOk(MergeFood(food, more))
    ensures |MergeFood(food, more)| >= |food|
    ensures NoneEmpty(more) && more != [] ==> MergeFood(food, more) != []
  {
    if more != [] {
      MergeFoodOk(food, Front(more));
      AddFoodOk(MergeFood(food, Front(more)), Last(more).kind, Last(more).n, Last(more).spoilAt);
    }
  }

  lemma MergeToolsOccurs(s: seq<int>, more: seq<int>, v: int)
    ensures Occurs(MergeTools(s, more), v) == Occurs(s, v) + Occurs(more, v)
  {
    if more != [] {
      SortOccurs(s + more, v);
      ConcatOccurs(s, more, v);
    }
  }

  lemma MergeMaterialsCount(c: Counts, more: Counts, k: Kind)
    requires IsMaterial(k)
    ensures Get(MergeMaterials(c, more, 5), k) == Get(c, k) + Get(more, k)
  {
    MaterialsUpTo(c, more, k, 5);
  }

  lemma {:induction false} MaterialsUpTo(c: Counts, more: Counts, k: Kind, j: nat)
    requires IsMaterial(k) && j <= 5
    ensures Get(MergeMaterials(c, more, j), k) == Get(c, k) + if IndexOf(k) < j then Get(more, k) else 0
  {
    if j > 0 {
      MaterialsUpTo(c, more, k, j - 1);
      if IndexOf(k) == j - 1 {
        SameIndex(k, KindAt(j - 1));
      }
    }
  }

  /** Merging loses and makes nothing, down to each deadline and each tool's uses. */
  lemma MergePileCount(dest: Pile, moved: Pile, it: Item)
    ensures PileCount(MergePile(dest, moved), it) == PileCount(dest, it) + PileCount(moved, it)
  {
    match it
    case Units(k) =>
      MergeFoodAmounts(dest.food, moved.food, k, 0);
      if IsMaterial(k) {
        MergeMaterialsCount(dest.materials, moved.materials, k);
      }
    case Tool(k, u) =>
      MergeToolsOccurs(dest.spears, moved.spears, u);
      MergeToolsOccurs(dest.axes, moved.axes, u);
    case Dated(k, d) => MergeFoodAmounts(dest.food, moved.food, k, d);
  }

  function MovePile(piles: seq<Pile>, x: int, y: int, toX: int, toY: int): seq<Pile> {
    if !HasPile(piles, x, y) then piles
    else
      var rest := RemovePile(piles, x, y);
      PutPile(rest, MergePile(PileOf(rest, toX, toY), PileOf(piles, x, y)))
  }

  /** Moving a pile, also onto another pile or onto its own tile, keeps all goods on the ground down to
      each deadline and each tool's uses. */
  lemma MovePileConserves(piles: seq<Pile>, x: int, y: int, toX: int, toY: int, it: Item)
    requires OnePerTile(piles)
    ensures OnGround(MovePile(piles, x, y, toX, toY), it) == OnGround(piles, it)
  {
    if HasPile(piles, x, y) {
      var rest := RemovePile(piles, x, y);
      var dest := PileOf(rest, toX, toY);
      var moved := PileOf(piles, x, y);
      RemovePileCount(piles, x, y, it);
      MergePileCount(dest, moved, it);
      PutPileCount(rest, MergePile(dest, moved), it);
      PutPileCount(piles, moved, it);
    }
  }

  lemma MergedIsNotEmpty(dest: Pile, moved: Pile)
    requires !IsEmpty(moved) && FoodOk(dest.food) && FoodOk(moved.food)
    ensures !IsEmpty(MergePile(dest, moved))
  {
    MergeFoodOk(dest.food, moved.food);
    MergeMaterialsCount(dest.materials, moved.materials, Wood);
    MergeMaterialsCount(dest.materials, moved.materials, Stone);
    MergeMaterialsCount(dest.materials, moved.materials, Water);
    MergeMaterialsCount(dest.materials, moved.materials, Planks);
    MergeMaterialsCount(dest.materials, moved.materials, RefinedStone);
  }

  lemma MovePileOk(piles: seq<Pile>, x: int, y: int, toX: int, toY: int)
    requires GroundOk(piles)
    ensures GroundOk(MovePile(piles, x, y, toX, toY))
  {
    if HasPile(piles, x, y) {
      var rest := RemovePile(piles, x, y);
      var dest := PileOf(rest, toX, toY);
      var moved := PileOf(piles, x, y);
      RemovePileOk(piles, x, y);
      assert PileOk(moved);
      assert FoodOk(dest.food) && Sorted(dest.spears) && Sorted(dest.axes);
      MergeFoodOk(dest.food, moved.food);
      MergedIsNotEmpty(dest, moved);
      PutPileOk(rest, MergePile(dest, moved));
    }
  }

  class Ground {
    var piles: seq<Pile>

    constructor ()
      ensures piles == []
    {
      piles := [];
    }

    /** pileFor: the index of the tile's pile, a bare pile appended when it has none. */
    method PileFor(x: int, y: int) returns (i: nat)
      modifies this
      ensures i < |piles| && piles[i] == PileOf(old(piles), x, y)
      ensures piles == PutPile(old(piles), PileOf(old(piles), x, y)) && i == PileIndex(piles, x, y)
      ensures i == PileIndex(old(piles), x, y)
    {
      i := PileIndex(piles, x, y);
      if i == |piles| {
        AppendedIndex(piles, Bare(x, y));
        piles := piles + [Bare(x, y)];
      } else {
        assert piles[i := piles[i]] == piles;
      }
    }

    method RemovePileAt(x: int, y: int)
      modifies this
      ensures piles == RemovePile(old(piles), x, y)
    {
      var out: seq<Pile> := [];
      for i := 0 to |piles|
        invariant piles == old(piles) && out == RemovePile(piles[..i], x, y)
      {
        assert piles[..i + 1][..i] == piles[..i];
        if !(piles[i].x == x && piles[i].y == y) {
          out := out + [piles[i]];
        }
      }
      assert piles[..|piles|] == piles;
      piles := out;
    }

    /** movePile: the contents are copied out before the list changes, then merged batch by batch. */
    method Move(fromX: int, fromY: int, toX: int, toY: int)
      modifies this
      ensures piles == MovePile(old(piles), fromX, fromY, toX, toY)
    {
      var src := PileIndex(piles, fromX, fromY);
      if src == |piles| {
        return;
      }
      var moved := piles[src];
      RemovePileAt(fromX, fromY);
      ghost var rest := piles;
      var i := PileFor(toX, toY);
      var dest := piles[i];
      var materials := dest.materials;
      for j := 0 to 5
        invariant materials == MergeMaterials(dest.materials, moved.materials, j)
      {
        materials := AddNonFood(materials, KindAt(j), Get(moved.materials, KindAt(j)));
      }
      var food := dest.food;
      for j := 0 to |moved.food|
        invariant food == MergeFood(dest.food, moved.food[..j])
      {
        assert Front(moved.food[..j + 1]) == moved.food[..j];
        food := AddFood(food, moved.food[j].kind, moved.food[j].n, moved.food[j].spoilAt);
      }
      assert moved.food[..|moved.food|] == moved.food;
      var spears, axes := dest.spears, dest.axes;
      if moved.spears != [] {
        spears := SortInts(spears + moved.spears);
      }
      if moved.axes != [] {
        axes := SortInts(axes + moved.axes);
      }
      piles := piles[i := Pile(dest.x, dest.y, materials, spears, axes, food)];
    }
  }

  lemma IndexIs(piles: seq<Pile>, x: int, y: int, i: nat)
    requires i < |piles| && piles[i].x == x && piles[i].y == y
    requires forall j :: 0 <= j < i ==> !(piles[j].x == x && piles[j].y == y)
    ensures PileIndex(piles, x, y) == i
  {
  }

  lemma AppendedIndex(piles: seq<Pile>, p: Pile)
    requires !HasPile(piles, p.x, p.y)
    ensures PileIndex(piles + [p], p.x, p.y) == |piles|
  {
    var piles' := piles + [p];
    assert forall j :: 0 <= j < |piles| ==> piles'[j] == piles[j];
    IndexIs(piles', p.x, p.y, |piles|);
  }

  // ---- the reducer's arms ----

  function ChestIndex(chests: seq<Chest>, x: int, y: int): (i: nat)
    ensures i <= |chests| && (i < |chests| ==> chests[i].x == x && chests[i].y == y)
    ensures forall j :: 0 <= j < i ==> !(chests[j].x == x && chests[j].y == y)
  {
    if chests == [] then 0
    else
      var i := ChestIndex(chests[..|chests| - 1], x, y);
      var last := chests[|chests| - 1];
      if i < |chests| - 1 then i else if last.x == x && last.y == y then i else |chests|
  }

  predicate Known(w: World, agent: int) {
    0 <= agent < |w.agents|
  }

  function WithInv(w: World, i: int, inv: Inventory): World
    requires Known(w, i)
  {
    w.(agents := w.agents[i := w.agents[i].(inv := inv)])
  }

  function WithStore(w: World, c: nat, store: Inventory): World
    requires c < |w.chests|
  {
    w.(chests := w.chests[c := w.chests[c].(store := store)])
  }

  function Drop(w: World, i: int, x: int, y: int, k: Kind, n: int, tick: int): World
    requires Known(w, i)
  {
    var inv := w.agents[i].inv;
    var m := Clamp(n, Carried(inv, k));
    if m == 0 then w
    else
      WithInv(w, i, TakeOut(inv, k, m)).(piles := PutPile(w.piles,
        PutOn(PileOf(w.piles, x, y), k, m, ToolsOut(inv, k, m), tick + ROT_WINDOW_TICKS)))
  }

  function PickUp(w: World, i: int, x: int, y: int, k: Kind, n: int): (r: World)
    requires Known(w, i)
    ensures |r.agents| == |w.agents|
  {
    if !HasPile(w.piles, x, y) then w
    else
      var inv := w.agents[i].inv;
      var p := PileOf(w.piles, x, y);
      var m := Clamp(Min(n, FreeBulk(inv)), Avail(p, k));
      if m == 0 then w.(piles := Settle(w.piles, p))
      else WithInv(w, i, PutIn(inv, k, m, ToolsOff(p, k, m))).(piles := Settle(w.piles, TakeOff(p, k, m)))
  }

  function Deposit(w: World, i: int, x: int, y: int, k: Kind, n: int): World
    requires Known(w, i)
  {
    var c := ChestIndex(w.chests, x, y);
    if c == |w.chests| then w
    else
      var inv := w.agents[i].inv;
      var store := w.chests[c].store;
      var m := Clamp(Min(n, CHEST_CAP - Bulk(store)), Carried(inv, k));
      if m == 0 then w
      else WithStore(WithInv(w, i, TakeOut(inv, k, m)), c, PutIn(store, k, m, ToolsOut(inv, k, m)))
  }

  function Withdraw(w: World, i: int, x: int, y: int, k: Kind, n: int): World
    requires Known(w, i)
  {
    var c := ChestIndex(w.chests, x, y);
    if c == |w.chests| then w
    else
      var inv := w.agents[i].inv;
      var store := w.chests[c].store;
      var m := Clamp(Min(n, FreeBulk(inv)), Carried(store, k));
      if m == 0 then w
      else WithStore(WithInv(w, i, PutIn(inv, k, m, ToolsOut(store, k, m))), c, TakeOut(store, k, m))
  }

  function Rot(w: World, x: int, y: int, k: Kind, n: int, tick: int): World {
    if !HasPile(w.piles, x, y) then w
    else
      var p := PileOf(w.piles, x, y);
      w.(piles := Settle(w.piles, if n <= 0 then p else p.(food := Remaining(p.food, n, SpoiledBy(k, tick)))))
  }

  /** spillInventory, shared by a death and by a removed chest. */
  function Spill(piles: seq<Pile>, x: int, y: int, inv: Inventory, tick: int): seq<Pile> {
    if Bulk(inv) == 0 then piles
    else PutPile(piles, Pour(PileOf(piles, x, y), inv, tick + ROT_WINDOW_TICKS, KINDS))
  }

  function Die(w: World, i: int, tick: int): World
    requires Known(w, i)
  {
    var v := w.agents[i];
    if Bulk(v.inv) == 0 then w
    else WithInv(w, i, NOTHING).(piles := Spill(w.piles, v.x, v.y, v.inv, tick))
  }

  function RemoveChest(w: World, x: int, y: int, tick: int): World {
    var c := ChestIndex(w.chests, x, y);
    if c == |w.chests| then w
    else w.(chests := w.chests[..c] + w.chests[c + 1..], piles := Spill(w.piles, x, y, w.chests[c].store, tick))
  }

  /** An event about a villager that does not exist is refused. */
  function Reduce(w: World, e: Event): World {
    match e
    case Dropped(i, x, y, k, n, tick) => if Known(w, i) then Drop(w, i, x, y, k, n, tick) else w
    case PickedUp(i, x, y, k, n) => if Known(w, i) then PickUp(w, i, x, y, k, n) else w
    case Deposited(i, x, y, k, n) => if Known(w, i) then Deposit(w, i, x, y, k, n) else w
    case Withdrew(i, x, y, k, n) => if Known(w, i) then Withdraw(w, i, x, y, k, n) else w
    case FoodRotted(x, y, k, n, tick) => Rot(w, x, y, k, n, tick)
    case Died(i, tick) => if Known(w, i) then Die(w, i, tick) else w
    case PileMoved(x, y, toX, toY) => w.(piles := MovePile(w.piles, x, y, toX, toY))
    case ChestRemoved(x, y, tick) => RemoveChest(w, x, y, tick)
  }

  // ---- conservation ----

  function AgentMeasure(it: Item): Villager -> nat {
    (v: Villager) => InvCount(v.inv, it)
  }

  function ChestMeasure(it: Item): Chest -> nat {
    (c: Chest) => InvCount(c.store, it)
  }

  /** All there is of an item: in hand, in chests and on the ground. */
  function Total(w: World, it: Item): nat {
    Sum(w.agents, AgentMeasure(it)) + Sum(w.chests, ChestMeasure(it)) + OnGround(w.piles, it)
  }

  lemma WithInvTotal(w: World, i: int, inv: Inventory, it: Item)
    requires Known(w, i)
    ensures Total(WithInv(w, i, inv), it) == Total(w, it) - InvCount(w.agents[i].inv, it) + InvCount(inv, it)
    ensures Sum(w.agents, AgentMeasure(it)) >= InvCount(w.agents[i].inv, it)
  {
    SumUpdate(w.agents, i, w.agents[i].(inv := inv), AgentMeasure(it));
  }

  lemma WithStoreTotal(w: World, c: nat, store: Inventory, it: Item)
    requires c < |w.chests|
    ensures Total(WithStore(w, c, store), it) == Total(w, it) - InvCount(w.chests[c].store, it) + InvCount(store, it)
  {
    SumUpdate(w.chests, c, w.chests[c].(store := store), ChestMeasure(it));
  }

  lemma DropConserves(w: World, i: int, x: int, y: int, k: Kind, n: int, tick: int, it: Item)
    requires Known(w, i) && !it.Dated?
    ensures Total(Drop(w, i, x, y, k, n, tick), it) == Total(w, it)
  {
    var inv := w.agents[i].inv;
    var m := Clamp(n, Carried(inv, k));
    if m > 0 {
      var p := PileOf(w.piles, x, y);
      TakeOutCount(inv, k, m, it);
      WithInvTotal(w, i, TakeOut(inv, k, m), it);
      PutOnCount(p, k, m, ToolsOut(inv, k, m), tick + ROT_WINDOW_TICKS, it);
      PutPileCount(w.piles, PutOn(p, k, m, ToolsOut(inv, k, m), tick + ROT_WINDOW_TICKS), it);
    }
  }

  lemma PickUpConserves(w: World, i: int, x: int, y: int, k: Kind, n: int, it: Item)
    requires Known(w, i) && !it.Dated? && OnePerTile(w.piles)
    ensures Total(PickUp(w, i, x, y, k, n), it) == Total(w, it)
  {
    hide InvCount, PileCount, Settle, PutIn, TakeOff, Moved, OnGround, FreeBulk, Avail;
    var inv := w.agents[i].inv;
    var p := PileOf(w.piles, x, y);
    var m := Clamp(Min(n, FreeBulk(inv)), Avail(p, k));
    SettleCount(w.piles, p, it);
    if m > 0 {
      TakeOffCount(p, k, m, it);
      SettleCount(w.piles, TakeOff(p, k, m), it);
      PutInCount(inv, k, m, ToolsOff(p, k, m), it);
      WithInvTotal(w, i, PutIn(inv, k, m, ToolsOff(p, k, m)), it);
    }
  }

  lemma DepositConserves(w: World, i: int, x: int, y: int, k: Kind, n: int, it: Item)
    requires Known(w, i)
    ensures Total(Deposit(w, i, x, y, k, n), it) == Total(w, it)
  {
    var c := ChestIndex(w.chests, x, y);
    if c < |w.chests| {
      var inv, store := w.agents[i].inv, w.chests[c].store;
      var m := Clamp(Min(n, CHEST_CAP - Bulk(store)), Carried(inv, k));
      TakeOutCount(inv, k, m, it);
      WithInvTotal(w, i, TakeOut(inv, k, m), it);
      PutInCount(store, k, m, ToolsOut(inv, k, m), it);
      WithStoreTotal(WithInv(w, i, TakeOut(inv, k, m)), c, PutIn(store, k, m, ToolsOut(inv, k, m)), it);
    }
  }

  lemma WithdrawConserves(w: World, i: int, x: int, y: int, k: Kind, n: int, it: Item)
    requires Known(w, i)
    ensures Total(Withdraw(w, i, x, y, k, n), it) == Total(w, it)
  {
    var c := ChestIndex(w.chests, x, y);
    if c < |w.chests| {
      var inv, store := w.agents[i].inv, w.chests[c].store;
      var m := Clamp(Min(n, FreeBulk(inv)), Carried(store, k));
      TakeOutCount(store, k, m, it);
      PutInCount(inv, k, m, ToolsOut(store, k, m), it);
      WithInvTotal(w, i, PutIn(inv, k, m, ToolsOut(store, k, m)), it);
      WithStoreTotal(WithInv(w, i, PutIn(inv, k, m, ToolsOut(store, k, m))), c, TakeOut(store, k, m), it);
    }
  }

  lemma NoBulkNoCount(inv: Inventory, it: Item)
    requires Bulk(inv) == 0
    ensures InvCount(inv, it) == 0
  {
    if it.Units? && IsFlat(it.kind) {
      FlatTotalBounds(inv.flat, it.kind, FLAT_KINDS);
    }
  }

  lemma SpillCount(piles: seq<Pile>, x: int, y: int, inv: Inventory, tick: int, it: Item)
    requires !it.Dated?
    ensures OnGround(Spill(piles, x, y, inv, tick), it) == OnGround(piles, it) + InvCount(inv, it)
  {
    if Bulk(inv) == 0 {
      NoBulkNoCount(inv, it);
    } else {
      var p := PileOf(piles, x, y);
      PourCount(p, inv, tick + ROT_WINDOW_TICKS, KINDS, it);
      PutPileCount(piles, Pour(p, inv, tick + ROT_WINDOW_TICKS, KINDS), it);
    }
  }

  lemma DieConserves(w: World, i: int, tick: int, it: Item)
    requires Known(w, i) && !it.Dated?
    ensures Total(Die(w, i, tick), it) == Total(w, it)
  {
    var v := w.agents[i];
    SpillCount(w.piles, v.x, v.y, v.inv, tick, it);
    WithInvTotal(w, i, NOTHING, it);
    NoBulkNoCount(NOTHING, it);
  }

  lemma RemoveChestConserves(w: World, x: int, y: int, tick: int, it: Item)
    requires !it.Dated?
    ensures Total(RemoveChest(w, x, y, tick), it) == Total(w, it)
  {
    var c := ChestIndex(w.chests, x, y);
    if c < |w.chests| {
      SpillCount(w.piles, x, y, w.chests[c].store, tick, it);
      SumRemove(w.chests, c, ChestMeasure(it));
    }
  }

  /** Every transfer, a death and a removed chest included, keeps the amount of every kind of goods and the
      number of tools of every remaining use; rotting loses spoiled units of its kind only. */
  lemma TransferConserves(w: World, e: Event, it: Item)
    requires OnePerTile(w.piles) && !it.Dated? && !e.FoodRotted?
    ensures Total(Reduce(w, e), it) == Total(w, it)
  {
    match e
    case Dropped(i, x, y, k, n, tick) => if Known(w, i) { DropConserves(w, i, x, y, k, n, tick, it); }
    case PickedUp(i, x, y, k, n) => if Known(w, i) { PickUpConserves(w, i, x, y, k, n, it); }
    case Deposited(i, x, y, k, n) => if Known(w, i) { DepositConserves(w, i, x, y, k, n, it); }
    case Withdrew(i, x, y, k, n) => if Known(w, i) { WithdrawConserves(w, i, x, y, k, n, it); }
    case Died(i, tick) => if Known(w, i) { DieConserves(w, i, tick, it); }
    case PileMoved(x, y, toX, toY) => MovePileConserves(w.piles, x, y, toX, toY, it);
    case ChestRemoved(x, y, tick) => RemoveChestConserves(w, x, y, tick, it);
  }

  /** Rotting removes exactly the smaller of the recorded count and the spoiled units still there. */
  lemma RotLosesSpoiled(w: World, x: int, y: int, k: Kind, n: int, tick: int, it: Item)
    requires OnePerTile(w.piles) && !it.Dated? && HasPile(w.piles, x, y) && IsFood(k)
    ensures var spoiled := EligibleOf(PileOf(w.piles, x, y).food, SpoiledBy(k, tick));
            Total(Reduce(w, FoodRotted(x, y, k, n, tick)), it)
              == Total(w, it) - if it == Units(k) && n > 0 then Min(n, spoiled) else 0
  {
    var p := PileOf(w.piles, x, y);
    assert Reduce(w, FoodRotted(x, y, k, n, tick)) == Rot(w, x, y, k, n, tick);
    hide Reduce, Settle;
    SettleCount(w.piles, p, it);
    if n > 0 {
      var sel := SpoiledBy(k, tick);
      RemovalIsOldestFirst(p.food, n, sel);
      if it.Units? {
        RemainingOfKind(p.food, n, sel, it.kind);
      }
      SettleCount(w.piles, p.(food := Remaining(p.food, n, sel)), it);
    }
  }

  // ---- what every event keeps ----

  predicate InvOk(inv: Inventory, cap: nat) {
    Sorted(inv.spears) && Sorted(inv.axes) && Bulk(inv) <= cap
  }

  /** Nobody over the cap, no chest over its cap, tools sorted, the ground well formed. */
  predicate WorldOk(w: World) {
    && GroundOk(w.piles)
    && (forall i :: 0 <= i < |w.agents| ==> InvOk(w.agents[i].inv, BULK_CAP))
    && (forall c :: 0 <= c < |w.chests| ==> InvOk(w.chests[c].store, CHEST_CAP))
  }

  lemma TakeOutBulk(inv: Inventory, k: Kind, m: nat)
    requires m <= Carried(inv, k)
    ensures Bulk(TakeOut(inv, k, m)) == Bulk(inv) - m
  {
    if IsFlat(k) {
      AddItemsBulk(inv, k, -(m as int));
    }
  }

  lemma SortedSuffix(s: seq<int>, m: nat)
    requires Sorted(s) && m <= |s|
    ensures Sorted(s[m..])
  {
  }

  lemma TakeOutOk(inv: Inventory, k: Kind, m: nat, cap: nat)
    requires InvOk(inv, cap) && m <= Carried(inv, k)
    ensures InvOk(TakeOut(inv, k, m), cap)
  {
    TakeOutBulk(inv, k, m);
    if k.Spears? {
      SortedSuffix(inv.spears, m);
    } else if k.Axes? {
      SortedSuffix(inv.axes, m);
    }
  }

  lemma PutInOk(inv: Inventory, k: Kind, m: nat, tools: seq<int>, cap: nat)
    requires InvOk(inv, cap) && Bulk(inv) + m <= cap
    requires k.Spears? || k.Axes? ==> |tools| == m
    ensures InvOk(PutIn(inv, k, m, tools), cap)
  {
    if IsFlat(k) {
      AddItemsBulk(inv, k, m);
    }
  }

  lemma TakeOffOk(p: Pile, k: Kind, m: nat)
    requires PileOk(p) && m <= Avail(p, k)
    ensures IsEmpty(TakeOff(p, k, m)) || PileOk(TakeOff(p, k, m))
  {
    if IsFood(k) {
      RemainingFoodOk(p.food, m, OfKind(k));
    }
  }

  lemma {:induction false} PourOk(p: Pile, inv: Inventory, spoilAt: int, j: nat)
    requires (PileOk(p) || p == Bare(p.x, p.y)) && j <= KINDS
    ensures var q := Pour(p, inv, spoilAt, j);
            PileOk(q) || (q == p && forall i :: 0 <= i < j ==> Carried(inv, KindAt(i)) == 0)
  {
    hide PileOk, PutOn;
    if j > 0 {
      var k := KindAt(j - 1);
      PourOk(p, inv, spoilAt, j - 1);
      var q := Pour(p, inv, spoilAt, j - 1);
      if Carried(inv, k) > 0 {
        PutOnOk(q, k, Carried(inv, k), ToolsOut(inv, k, Carried(inv, k)), spoilAt);
      }
    }
  }

  lemma {:induction false} NothingFlat(c: Counts, j: nat)
    requires j <= FLAT_KINDS && forall i :: 0 <= i < j ==> Get(c, KindAt(i)) == 0
    ensures FlatTotal(c, j) == 0
  {
    if j > 0 {
      NothingFlat(c, j - 1);
    }
  }

  lemma NothingCarried(inv: Inventory)
    requires forall i :: 0 <= i < KINDS ==> Carried(inv, KindAt(i)) == 0
    ensures Bulk(inv) == 0
  {
    SameIndex(KindAt(8), Spears);
    SameIndex(KindAt(9), Axes);
    assert Carried(inv, KindAt(8)) == 0 && Carried(inv, KindAt(9)) == 0;
    forall i | 0 <= i < FLAT_KINDS
      ensures Get(inv.flat, KindAt(i)) == 0
    {
      assert Carried(inv, KindAt(i)) == 0;
    }
    NothingFlat(inv.flat, FLAT_KINDS);
  }

  lemma SpillOk(piles: seq<Pile>, x: int, y: int, inv: Inventory, tick: int)
    requires GroundOk(piles)
    ensures GroundOk(Spill(piles, x, y, inv, tick))
  {
    if Bulk(inv) > 0 {
      var p := PileOf(piles, x, y);
      PourOk(p, inv, tick + ROT_WINDOW_TICKS, KINDS);
      if !PileOk(Pour(p, inv, tick + ROT_WINDOW_TICKS, KINDS)) {
        NothingCarried(inv);
      }
      PutPileOk(piles, Pour(p, inv, tick + ROT_WINDOW_TICKS, KINDS));
    }
  }

  lemma DropOk(w: World, i: int, x: int, y: int, k: Kind, n: int, tick: int)
    requires WorldOk(w) && Known(w, i)
    ensures WorldOk(Drop(w, i, x, y, k, n, tick))
  {
    var inv := w.agents[i].inv;
    var m := Clamp(n, Carried(inv, k));
    if m > 0 {
      TakeOutOk(inv, k, m, BULK_CAP);
      var p := PileOf(w.piles, x, y);
      PutOnOk(p, k, m, ToolsOut(inv, k, m), tick + ROT_WINDOW_TICKS);
      PutPileOk(w.piles, PutOn(p, k, m, ToolsOut(inv, k, m), tick + ROT_WINDOW_TICKS));
    }
  }

  lemma PickUpOk(w: World, i: int, x: int, y: int, k: Kind, n: int)
    requires WorldOk(w) && Known(w, i)
    ensures WorldOk(PickUp(w, i, x, y, k, n))
  {
    if HasPile(w.piles, x, y) {
      var inv := w.agents[i].inv;
      var p := PileOf(w.piles, x, y);
      assert PileOk(p);
      var m := Clamp(Min(n, FreeBulk(inv)), Avail(p, k));
      if m > 0 {
        PutInOk(inv, k, m, ToolsOff(p, k, m), BULK_CAP);
        TakeOffOk(p, k, m);
        SettleOk(w.piles, TakeOff(p, k, m));
      } else {
        SettleOk(w.piles, p);
      }
    }
  }

  /** One inventory gives `m` units of a kind, the other has room for them. */
  lemma PassOk(from: Inventory, fromCap: nat, to: Inventory, toCap: nat, k: Kind, m: nat)
    requires InvOk(from, fromCap) && InvOk(to, toCap) && m <= Carried(from, k) && Bulk(to) + m <= toCap
    ensures InvOk(TakeOut(from, k, m), fromCap) && InvOk(PutIn(to, k, m, ToolsOut(from, k, m)), toCap)
  {
    TakeOutOk(from, k, m, fromCap);
    PutInOk(to, k, m, ToolsOut(from, k, m), toCap);
  }

  lemma BothOk(w: World, i: int, inv: Inventory, c: nat, store: Inventory)
    requires WorldOk(w) && Known(w, i) && c < |w.chests| && InvOk(inv, BULK_CAP) && InvOk(store, CHEST_CAP)
    ensures WorldOk(WithStore(WithInv(w, i, inv), c, store))
  {
  }

  lemma SidesOk(w: World, i: int, c: nat)
    requires WorldOk(w) && Known(w, i) && c < |w.chests|
    ensures InvOk(w.agents[i].inv, BULK_CAP) && InvOk(w.chests[c].store, CHEST_CAP)
  {
  }

  lemma DepositOk(w: World, i: int, x: int, y: int, k: Kind, n: int)
    requires WorldOk(w) && Known(w, i)
    ensures WorldOk(Deposit(w, i, x, y, k, n))
  {
    hide Bulk, InvOk, Carried, WorldOk;
    var c := ChestIndex(w.chests, x, y);
    if c < |w.chests| {
      var inv, store := w.agents[i].inv, w.chests[c].store;
      var m := Clamp(Min(n, CHEST_CAP - Bulk(store)), Carried(inv, k));
      SidesOk(w, i, c);
      if m > 0 {
        PassOk(inv, BULK_CAP, store, CHEST_CAP, k, m);
        BothOk(w, i, TakeOut(inv, k, m), c, PutIn(store, k, m, ToolsOut(inv, k, m)));
      }
    }
  }

  lemma WithdrawOk(w: World, i: int, x: int, y: int, k: Kind, n: int)
    requires WorldOk(w) && Known(w, i)
    ensures WorldOk(Withdraw(w, i, x, y, k, n))
  {
    hide Bulk, InvOk, Carried, WorldOk;
    var c := ChestIndex(w.chests, x, y);
    if c < |w.chests| {
      var inv, store := w.agents[i].inv, w.chests[c].store;
      var m := Clamp(Min(n, FreeBulk(inv)), Carried(store, k));
      SidesOk(w, i, c);
      if m > 0 {
        PassOk(store, CHEST_CAP, inv, BULK_CAP, k, m);
        BothOk(w, i, PutIn(inv, k, m, ToolsOut(store, k, m)), c, TakeOut(store, k, m));
      }
    }
  }

  lemma RotOk(w: World, x: int, y: int, k: Kind, n: int, tick: int)
    requires WorldOk(w)
    ensures WorldOk(Rot(w, x, y, k, n, tick))
  {
    if HasPile(w.piles, x, y) {
      var p := PileOf(w.piles, x, y);
      assert PileOk(p);
      if n > 0 {
        RemainingFoodOk(p.food, n, SpoiledBy(k, tick));
        SettleOk(w.piles, p.(food := Remaining(p.food, n, SpoiledBy(k, tick))));
      } else {
        SettleOk(w.piles, p);
      }
    }
  }

  lemma ReduceKeepsOk(w: World, e: Event)
    requires WorldOk(w)
    ensures WorldOk(Reduce(w, e))
  {
    match e
    case Dropped(i, x, y, k, n, tick) => if Known(w, i) { DropOk(w, i, x, y, k, n, tick); }
    case PickedUp(i, x, y, k, n) => if Known(w, i) { PickUpOk(w, i, x, y, k, n); }
    case Deposited(i, x, y, k, n) => if Known(w, i) { DepositOk(w, i, x, y, k, n); }
    case Withdrew(i, x, y, k, n) => if Known(w, i) { WithdrawOk(w, i, x, y, k, n); }
    case FoodRotted(x, y, k, n, tick) => RotOk(w, x, y, k, n, tick);
    case Died(i, tick) =>
      if Known(w, i) {
        SpillOk(w.piles, w.agents[i].x, w.agents[i].y, w.agents[i].inv, tick);
      }
    case PileMoved(x, y, toX, toY) => MovePileOk(w.piles, x, y, toX, toY);
    case ChestRemoved(x, y, tick) =>
      var c := ChestIndex(w.chests, x, y);
      if c < |w.chests| {
        SpillOk(w.piles, x, y, w.chests[c].store, tick);
      }
  }

  function Run(w: World, es: seq<Event>): World {
    if es == [] then w else Reduce(Run(w, es[..|es| - 1]), es[|es| - 1])
  }

  /** Over every sequence of transfers: one pile to a tile, none of them empty, at most one batch to each
      kind and deadline, tools sorted, nobody and no chest over its cap; and as long as nothing rots, the
      world holds exactly what it held. */
  lemma {:induction false} GoodsAreConserved(w: World, es: seq<Event>, it: Item)
    requires WorldOk(w) && !it.Dated?
    ensures WorldOk(Run(w, es))
    ensures (forall i :: 0 <= i < |es| ==> !es[i].FoodRotted?) ==> Total(Run(w, es), it) == Total(w, it)
  {
    if es != [] {
      var earlier := es[..|es| - 1];
      GoodsAreConserved(w, earlier, it);
      ReduceKeepsOk(Run(w, earlier), es[|es| - 1]);
      if !es[|es| - 1].FoodRotted? {
        TransferConserves(Run(w, earlier), es[|es| - 1], it);
      }
    }
  }

  // ---- what each transfer does, tile by tile ----

  lemma SomethingIsAKind(inv: Inventory, k: Kind)
    requires Carried(inv, k) > 0
    ensures !k.OtherKind? && (k.Spears? || k.Axes? ==> forall n :: 0 <= n <= Carried(inv, k) ==> |ToolsOut(inv, k, n)| == n)
  {
  }

  /** A drop: the smaller of the asked and the carried count goes from the villager to the tile's pile, food with a
      deadline two days on; no other kind, no other tile and nobody else's goods change. */
  lemma DropHappens(w: World, i: int, x: int, y: int, k: Kind, n: int, tick: int, j: Kind, at: int)
    requires 0 <= i < |w.agents|
    ensures var w' := Reduce(w, Dropped(i, x, y, k, n, tick));
            var m := if n <= 0 then 0 else Min(n, Carried(w.agents[i].inv, k));
            var p, p' := PileOf(w.piles, x, y), PileOf(w'.piles, x, y);
            && |w'.agents| == |w.agents| && w'.chests == w.chests
            && (forall a :: 0 <= a < |w.agents| && a != i ==> w'.agents[a] == w.agents[a])
            && Carried(w'.agents[i].inv, j) == Carried(w.agents[i].inv, j) - (if j == k then m else 0)
            && Avail(p', j) == Avail(p, j) + (if j == k then m else 0)
            && Amount(p'.food, j, at)
                 == Amount(p.food, j, at) + if j == k && IsFood(k) && at == tick + 172800 then m else 0
    ensures forall u, v :: (u, v) != (x, y) ==>
              PileOf(Reduce(w, Dropped(i, x, y, k, n, tick)).piles, u, v) == PileOf(w.piles, u, v)
  {
    hide Carried, Avail, Amount, TakeOut, PutOn, ToolsOut, PutPile;
    var inv, p := w.agents[i].inv, PileOf(w.piles, x, y);
    var m := Clamp(n, Carried(inv, k));
    if m > 0 {
      SomethingIsAKind(inv, k);
      TakeOutCarried(inv, k, m, j);
      PutOnAvail(p, k, m, ToolsOut(inv, k, m), tick + ROT_WINDOW_TICKS, j, at);
      var q := PutOn(p, k, m, ToolsOut(inv, k, m), tick + ROT_WINDOW_TICKS);
      forall u, v
        ensures PileOf(PutPile(w.piles, q), u, v) == if u == x && v == y then q else PileOf(w.piles, u, v)
      {
        PutPileAt(w.piles, q, u, v);
      }
    }
  }

  lemma {:induction false} PourAvail(p: Pile, inv: Inventory, spoilAt: int, j: nat, k: Kind, at: int)
    requires j <= KINDS
    ensures Avail(Pour(p, inv, spoilAt, j), k) == Avail(p, k) + if IndexOf(k) < j then Carried(inv, k) else 0
    ensures Amount(Pour(p, inv, spoilAt, j).food, k, at)
         == Amount(p.food, k, at) + if IndexOf(k) < j && IsFood(k) && at == spoilAt then Carried(inv, k) else 0
  {
    hide Avail, Amount, Carried, PutOn, ToolsOut;
    if j > 0 {
      var next := KindAt(j - 1);
      PourAvail(p, inv, spoilAt, j - 1, k, at);
      if IndexOf(k) == j - 1 {
        SameIndex(k, next);
      }
      if Carried(inv, next) > 0 {
        SomethingIsAKind(inv, next);
        PutOnAvail(Pour(p, inv, spoilAt, j - 1), next, Carried(inv, next), ToolsOut(inv, next, Carried(inv, next)), spoilAt, k, at);
      }
    }
  }

  lemma NoBulkNothingCarried(inv: Inventory, k: Kind)
    requires Bulk(inv) == 0
    ensures Carried(inv, k) == 0
  {
    if IsFlat(k) {
      FlatTotalBounds(inv.flat, k, FLAT_KINDS);
    }
  }

  lemma UnknownKindsAreNothing(inv: Inventory, k: Kind)
    ensures IndexOf(k) >= KINDS ==> Carried(inv, k) == 0
  {
  }

  /** A spill: everything carried lies on the tile's pile, food with a deadline two days on, and no other tile
      changes. */
  lemma SpillHappens(piles: seq<Pile>, x: int, y: int, inv: Inventory, tick: int, k: Kind, at: int)
    ensures var p, p' := PileOf(piles, x, y), PileOf(Spill(piles, x, y, inv, tick), x, y);
            && Avail(p', k) == Avail(p, k) + Carried(inv, k)
            && Amount(p'.food, k, at) == Amount(p.food, k, at) + if IsFood(k) && at == tick + 172800 then Carried(inv, k) else 0
    ensures forall u, v :: (u, v) != (x, y) ==> PileOf(Spill(piles, x, y, inv, tick), u, v) == PileOf(piles, u, v)
  {
    hide Avail, Amount, Carried, Pour, PutPile, Bulk;
    UnknownKindsAreNothing(inv, k);
    if Bulk(inv) == 0 {
      NoBulkNothingCarried(inv, k);
    } else {
      var q := Pour(PileOf(piles, x, y), inv, tick + ROT_WINDOW_TICKS, KINDS);
      PourAvail(PileOf(piles, x, y), inv, tick + ROT_WINDOW_TICKS, KINDS, k, at);
      forall u, v
        ensures PileOf(PutPile(piles, q), u, v) == if u == x && v == y then q else PileOf(piles, u, v)
      {
        PutPileAt(piles, q, u, v);
      }
    }
  }

  /** A death leaves the villager with nothing, all of it on the pile where it fell. */
  lemma DeathHappens(w: World, i: int, tick: int, k: Kind)
    requires 0 <= i < |w.agents|
    ensures var w', v := Reduce(w, Died(i, tick)), w.agents[i];
            && |w'.agents| == |w.agents| && Carried(w'.agents[i].inv, k) == 0 && w'.chests == w.chests
            && (forall a :: 0 <= a < |w.agents| && a != i ==> w'.agents[a] == w.agents[a])
            && Avail(PileOf(w'.piles, v.x, v.y), k) == Avail(PileOf(w.piles, v.x, v.y), k) + Carried(v.inv, k)
  {
    hide Avail, Spill, Bulk;
    var v := w.agents[i];
    SpillHappens(w.piles, v.x, v.y, v.inv, tick, k, 0);
    if Bulk(v.inv) == 0 {
      NoBulkNothingCarried(v.inv, k);
    }
  }

  /** A removed chest is gone, what it held on the pile of its tile, and the other chests stay in their order. */
  lemma ChestRemovalHappens(w: World, c: nat, x: int, y: int, tick: int, k: Kind)
    requires c < |w.chests| && w.chests[c].x == x && w.chests[c].y == y
    requires forall d :: 0 <= d < c ==> !(w.chests[d].x == x && w.chests[d].y == y)
    ensures var w' := Reduce(w, ChestRemoved(x, y, tick));
            && w'.chests == w.chests[..c] + w.chests[c + 1..] && w'.agents == w.agents
            && Avail(PileOf(w'.piles, x, y), k) == Avail(PileOf(w.piles, x, y), k) + Carried(w.chests[c].store, k)
  {
    hide Avail, Spill, Carried;
    SpillHappens(w.piles, x, y, w.chests[c].store, tick, k, 0);
  }

  /** A moved pile has left its tile, all of it lies on top of what the other tile held, and no third tile changes;
      moved onto its own tile it stays as it was. */
  lemma PileMoveHappens(w: World, x: int, y: int, toX: int, toY: int, it: Item, u: int, v: int)
    requires OnePerTile(w.piles) && HasPile(w.piles, x, y)
    ensures var piles, w' := w.piles, Reduce(w, PileMoved(x, y, toX, toY));
            var after := w'.piles;
            w'.agents == w.agents && w'.chests == w.chests && PileCount(PileOf(after, u, v), it) ==
              if u == toX && v == toY then
                PileCount(PileOf(piles, x, y), it) + (if toX == x && toY == y then 0 else PileCount(PileOf(piles, toX, toY), it))
              else if u == x && v == y then 0
              else PileCount(PileOf(piles, u, v), it)
  {
    hide PileCount, MergePile, PutPile;
    var piles := w.piles;
    var rest := RemovePile(piles, x, y);
    var dest, moved := PileOf(rest, toX, toY), PileOf(piles, x, y);
    RemovePileAt(piles, x, y, u, v);
    RemovePileAt(piles, x, y, toX, toY);
    PutPileAt(rest, MergePile(dest, moved), u, v);
    MergesOnTile(dest, moved);
    MergePileCount(dest, moved, it);
    BareCount(x, y, it);
  }

  lemma MergesOnTile(dest: Pile, moved: Pile)
    ensures MergePile(dest, moved).x == dest.x && MergePile(dest, moved).y == dest.y
  {
  }

  /** Rot stays on its tile. */
  lemma RotStaysOnTile(w: World, x: int, y: int, k: Kind, n: int, tick: int, u: int, v: int)
    requires OnePerTile(w.piles) && (u, v) != (x, y)
    ensures var w' := Reduce(w, FoodRotted(x, y, k, n, tick));
            w'.agents == w.agents && w'.chests == w.chests && PileOf(w'.piles, u, v) == PileOf(w.piles, u, v)
  {
    hide Settle, Remaining;
    if HasPile(w.piles, x, y) {
      var p := PileOf(w.piles, x, y);
      SettleAt(w.piles, if n <= 0 then p else p.(food := Remaining(p.food, n, SpoiledBy(k, tick))), u, v);
    }
  }
}
