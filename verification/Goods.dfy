/** Goods in hand, in chests and on the ground, and every way they change place: the storage arms of
    internal/sim/state.go and the pile helpers of internal/sim/miracles.go.
  */
module Goods {
  import opened Piles

  const BULK_CAP := 24
  const CHEST_CAP := 48
  const ROT_WINDOW_TICKS := 172800

  // ---- tools by remaining uses ----

  predicate Sorted(s: seq<int>) {
    forall i, j :: 0 <= i < j < |s| ==> s[i] <= s[j]
  }

  function Occurs(s: seq<int>, v: int): nat {
    if s == [] then 0 else (if s[0] == v then 1 else 0) + Occurs(s[1..], v)
  }

  function Insert(x: int, s: seq<int>): (r: seq<int>)
    requires Sorted(s)
    ensures Sorted(r) && |r| == |s| + 1
    ensures r[0] == x || (s != [] && r[0] == s[0])
  {
    if s == [] then [x] else if x <= s[0] then [x] + s else [s[0]] + Insert(x, s[1..])
  }

  function SortInts(s: seq<int>): (r: seq<int>)
    ensures Sorted(r) && |r| == |s|
  {
    if s == [] then [] else Insert(s[0], SortInts(s[1..]))
  }

  lemma {:induction false} InsertOccurs(x: int, s: seq<int>, v: int)
    requires Sorted(s)
    ensures Occurs(Insert(x, s), v) == Occurs(s, v) + if x == v then 1 else 0
  {
    if s != [] && x > s[0] {
      InsertOccurs(x, s[1..], v);
    }
  }

  lemma {:induction false} SortOccurs(s: seq<int>, v: int)
    ensures Occurs(SortInts(s), v) == Occurs(s, v)
  {
    if s != [] {
      SortOccurs(s[1..], v);
      InsertOccurs(s[0], SortInts(s[1..]), v);
    }
  }

  lemma {:induction false} ConcatOccurs(a: seq<int>, b: seq<int>, v: int)
    ensures Occurs(a + b, v) == Occurs(a, v) + Occurs(b, v)
  {
    if a == [] {
      assert a + b == b;
    } else {
      assert (a + b)[1..] == a[1..] + b;
      ConcatOccurs(a[1..], b, v);
    }
  }

  // ---- the canonical order ----

  const KINDS := 10
  const FLAT_KINDS := 8

  function IndexOf(k: Kind): nat {
    match k
    case Wood => 0
    case Stone => 1
    case Water => 2
    case Planks => 3
    case RefinedStone => 4
    case FoodRaw => 5
    case FoodCooked => 6
    case Meals => 7
    case Spears => 8
    case Axes => 9
    case OtherKind(_) => 10
  }

  function Following(k: Kind): Kind {
    match k
    case Wood => Stone
    case Stone => Water
    case Water => Planks
    case Planks => RefinedStone
    case RefinedStone => FoodRaw
    case FoodRaw => FoodCooked
    case FoodCooked => Meals
    case Meals => Spears
    case _ => Axes
  }

  /** The kind at a position of the canonical order. */
  function KindAt(j: nat): (k: Kind)
    requires j < KINDS
    ensures IndexOf(k) == j
  {
    if j == 0 then Wood else Following(KindAt(j - 1))
  }

  lemma SameIndex(a: Kind, b: Kind)
    requires IndexOf(a) == IndexOf(b) < KINDS
    ensures a == b
  {
  }

  /** Materials first, food from raw to meals, then tools. */
  lemma CanonicalOrder()
    ensures KindAt(0) == Wood && KindAt(1) == Stone && KindAt(2) == Water && KindAt(3) == Planks
    ensures KindAt(4) == RefinedStone && KindAt(5) == FoodRaw && KindAt(6) == FoodCooked && KindAt(7) == Meals
    ensures KindAt(8) == Spears && KindAt(9) == Axes
  {
    SameIndex(KindAt(0), Wood);
    SameIndex(KindAt(1), Stone);
    SameIndex(KindAt(2), Water);
    SameIndex(KindAt(3), Planks);
    SameIndex(KindAt(4), RefinedStone);
    SameIndex(KindAt(5), FoodRaw);
    SameIndex(KindAt(6), FoodCooked);
    SameIndex(KindAt(7), Meals);
    SameIndex(KindAt(8), Spears);
    SameIndex(KindAt(9), Axes);
  }

  // ---- inventories ----

  datatype Inventory = Inventory(flat: Counts, spears: seq<int>, axes: seq<int>)

  const NOTHING := Inventory(map[], [], [])

  predicate IsFlat(k: Kind) {
    IsFood(k) || IsMaterial(k)
  }

  function Carried(inv: Inventory, k: Kind): nat {
    if k.Spears? then |inv.spears|
    else if k.Axes? then |inv.axes|
    else if IsFlat(k) then Get(inv.flat, k)
    else 0
  }

  /** The units of the first `j` kinds. */
  function FlatTotal(c: Counts, j: nat): nat
    requires j <= FLAT_KINDS
  {
    if j == 0 then 0 else FlatTotal(c, j - 1) + Get(c, KindAt(j - 1))
  }

  /** One for every unit carried, tools included. */
  function Bulk(inv: Inventory): nat {
    FlatTotal(inv.flat, FLAT_KINDS) + |inv.spears| + |inv.axes|
  }

  lemma {:induction false} FlatTotalUpdate(c: Counts, k: Kind, v: nat, j: nat)
    requires j <= FLAT_KINDS
    ensures FlatTotal(c[k := v], j) == FlatTotal(c, j) + if IndexOf(k) < j then v - Get(c, k) else 0
  {
    if j > 0 {
      FlatTotalUpdate(c, k, v, j - 1);
      if IndexOf(k) == j - 1 {
        SameIndex(k, KindAt(j - 1));
      }
    }
  }

  lemma {:induction false} FlatTotalBounds(c: Counts, k: Kind, j: nat)
    requires j <= FLAT_KINDS && IndexOf(k) < j
    ensures Get(c, k) <= FlatTotal(c, j)
  {
    if IndexOf(k) < j - 1 {
      FlatTotalBounds(c, k, j - 1);
    } else {
      SameIndex(k, KindAt(j - 1));
    }
  }

  function FreeBulk(inv: Inventory): nat {
    if BULK_CAP > Bulk(inv) then BULK_CAP - Bulk(inv) else 0
  }

  /** addItems: flat kinds only, floored at zero. */
  function AddItems(inv: Inventory, k: Kind, n: int): Inventory {
    if !IsFlat(k) then inv
    else inv.(flat := inv.flat[k := if Get(inv.flat, k) + n < 0 then 0 else Get(inv.flat, k) + n])
  }

  lemma AddItemsBulk(inv: Inventory, k: Kind, n: int)
    requires IsFlat(k) && Get(inv.flat, k) + n >= 0
    ensures Bulk(AddItems(inv, k, n)) == Bulk(inv) + n
  {
    FlatTotalUpdate(inv.flat, k, Get(inv.flat, k) + n, FLAT_KINDS);
  }

  /** The tools that leave when `n` of a kind go: the most worn ones. */
  function ToolsOut(inv: Inventory, k: Kind, n: nat): seq<int>
    requires n <= Carried(inv, k)
  {
    if k.Spears? then inv.spears[..n] else if k.Axes? then inv.axes[..n] else []
  }

  function TakeOut(inv: Inventory, k: Kind, n: nat): Inventory
    requires n <= Carried(inv, k)
  {
    if k.Spears? then inv.(spears := inv.spears[n..])
    else if k.Axes? then inv.(axes := inv.axes[n..])
    else AddItems(inv, k, -(n as int))
  }

  lemma TakeOutCarried(inv: Inventory, k: Kind, n: nat, j: Kind)
    requires n <= Carried(inv, k)
    ensures Carried(TakeOut(inv, k, n), j) == Carried(inv, j) - if j == k then n else 0
  {
    hide IsFlat, Get;
    if !k.Spears? && !k.Axes? {
      FlatTaken(inv, k, n, j);
    }
  }

  lemma FlatTaken(inv: Inventory, k: Kind, n: nat, j: Kind)
    requires IsFlat(k) ==> n <= Get(inv.flat, k)
    ensures var r := AddItems(inv, k, -(n as int));
            r.spears == inv.spears && r.axes == inv.axes &&
            Get(r.flat, j) == Get(inv.flat, j) - if j == k && IsFlat(k) then n else 0
  {
    hide IsFlat;
  }

  function PutIn(inv: Inventory, k: Kind, n: nat, tools: seq<int>): Inventory {
    if k.Spears? then inv.(spears := SortInts(inv.spears + tools))
    else if k.Axes? then inv.(axes := SortInts(inv.axes + tools))
    else AddItems(inv, k, n)
  }

  // ---- piles ----

  function PutOn(p: Pile, k: Kind, n: nat, tools: seq<int>, spoilAt: int): (q: Pile)
    ensures q.x == p.x && q.y == p.y
  {
    if k.Spears? then p.(spears := SortInts(p.spears + tools))
    else if k.Axes? then p.(axes := SortInts(p.axes + tools))
    else if IsFood(k) then p.(food := AddFood(p.food, k, n, spoilAt))
    else p.(materials := AddNonFood(p.materials, k, n))
  }

  function TakeOff(p: Pile, k: Kind, n: nat): (q: Pile)
    requires n <= Avail(p, k)
    ensures q.x == p.x && q.y == p.y
  {
    if k.Spears? then p.(spears := p.spears[n..])
    else if k.Axes? then p.(axes := p.axes[n..])
    else if IsFood(k) then p.(food := if n == 0 then p.food else Remaining(p.food, n, OfKind(k)))
    else TakeNonFood(p, k, n).0
  }

  function ToolsOff(p: Pile, k: Kind, n: nat): seq<int>
    requires n <= Avail(p, k)
  {
    if k.Spears? then p.spears[..n] else if k.Axes? then p.axes[..n] else []
  }

  predicate IsEmpty(p: Pile) {
    && Get(p.materials, Wood) == 0 && Get(p.materials, Stone) == 0 && Get(p.materials, Water) == 0
    && Get(p.materials, Planks) == 0 && Get(p.materials, RefinedStone) == 0
    && p.spears == [] && p.axes == [] && p.food == []
  }

  function Bare(x: int, y: int): Pile {
    Pile(x, y, map[], [], [], [])
  }

  // ---- counting ----

  datatype Item = Units(kind: Kind) | Tool(kind: Kind, uses: int) | Dated(kind: Kind, spoilAt: int)

  function InvCount(inv: Inventory, it: Item): nat {
    match it
    case Units(k) => if IsFlat(k) then Get(inv.flat, k) else 0
    case Tool(k, u) => if k.Spears? then Occurs(inv.spears, u) else if k.Axes? then Occurs(inv.axes, u) else 0
    case Dated(_, _) => 0
  }

  function PileCount(p: Pile, it: Item): nat {
    match it
    case Units(k) => if IsFood(k) then FoodOf(p.food, k) else if IsMaterial(k) then Get(p.materials, k) else 0
    case Tool(k, u) => if k.Spears? then Occurs(p.spears, u) else if k.Axes? then Occurs(p.axes, u) else 0
    case Dated(k, d) => if IsFood(k) then Amount(p.food, k, d) else 0
  }

  /** How much of an item `n` units of kind `k`, being these tools, are. */
  function Moved(k: Kind, n: nat, tools: seq<int>, it: Item): nat {
    match it
    case Units(j) => if j == k && IsFlat(k) then n else 0
    case Tool(j, u) => if j == k && (k.Spears? || k.Axes?) then Occurs(tools, u) else 0
    case Dated(_, _) => 0
  }

  lemma SplitOccurs(s: seq<int>, n: nat, v: int)
    requires n <= |s|
    ensures Occurs(s, v) == Occurs(s[..n], v) + Occurs(s[n..], v)
  {
    ConcatOccurs(s[..n], s[n..], v);
    assert s == s[..n] + s[n..];
  }

  lemma TakeOutCount(inv: Inventory, k: Kind, n: nat, it: Item)
    requires n <= Carried(inv, k)
    ensures InvCount(TakeOut(inv, k, n), it) + Moved(k, n, ToolsOut(inv, k, n), it) == InvCount(inv, it)
  {
    if it.Tool? {
      if k.Spears? {
        SplitOccurs(inv.spears, n, it.uses);
      } else if k.Axes? {
        SplitOccurs(inv.axes, n, it.uses);
      }
    }
  }

  lemma PutInCount(inv: Inventory, k: Kind, n: nat, tools: seq<int>, it: Item)
    ensures InvCount(PutIn(inv, k, n, tools), it) == InvCount(inv, it) + Moved(k, n, tools, it)
  {
    if it.Tool? {
      SortOccurs(inv.spears + tools, it.uses);
      ConcatOccurs(inv.spears, tools, it.uses);
      SortOccurs(inv.axes + tools, it.uses);
      ConcatOccurs(inv.axes, tools, it.uses);
    }
  }

  lemma PutOnCount(p: Pile, k: Kind, n: nat, tools: seq<int>, spoilAt: int, it: Item)
    requires !it.Dated?
    ensures PileCount(PutOn(p, k, n, tools, spoilAt), it) == PileCount(p, it) + Moved(k, n, tools, it)
  {
    if it.Tool? {
      if k.Spears? {
        SortOccurs(p.spears + tools, it.uses);
        ConcatOccurs(p.spears, tools, it.uses);
      } else if k.Axes? {
        SortOccurs(p.axes + tools, it.uses);
        ConcatOccurs(p.axes, tools, it.uses);
      }
    } else if IsFood(k) {
      AddFoodAmounts(p.food, k, n, spoilAt, it.kind, 0);
    }
  }

  lemma {:induction false} TakenAll(food: seq<Batch>, k: Kind)
    ensures EligibleOf(food, OfKind(k)) == FoodOf(food, k)
  {
    if food != [] {
      TakenAll(Front(food), k);
    }
  }

  lemma FoodOffCount(food: seq<Batch>, k: Kind, n: nat, j: Kind)
    requires n <= FoodOf(food, k)
    ensures FoodOf(Remaining(food, n, OfKind(k)), j) == FoodOf(food, j) - if j == k then n else 0
  {
    hide FoodOf, Remaining, Taken;
    RemainingOfKind(food, n, OfKind(k), j);
    RemovalIsOldestFirst(food, n, OfKind(k));
    TakenAll(food, k);
  }

  lemma TakeOffCount(p: Pile, k: Kind, n: nat, it: Item)
    requires n <= Avail(p, k) && !it.Dated?
    ensures PileCount(TakeOff(p, k, n), it) + Moved(k, n, ToolsOff(p, k, n), it) == PileCount(p, it)
  {
    hide FoodOf, Remaining, Occurs;
    if it.Tool? {
      if k.Spears? {
        SplitOccurs(p.spears, n, it.uses);
      } else if k.Axes? {
        SplitOccurs(p.axes, n, it.uses);
      }
    } else if IsFood(k) {
      FoodOffCount(p.food, k, n, it.kind);
    }
  }

  // ---- sums ----

  function Sum<T>(s: seq<T>, f: T -> nat): nat {
    if s == [] then 0 else Sum(s[..|s| - 1], f) + f(s[|s| - 1])
  }

  lemma {:induction false} SumUpdate<T>(s: seq<T>, i: nat, v: T, f: T -> nat)
    requires i < |s|
    ensures Sum(s[i := v], f) == Sum(s, f) - f(s[i]) + f(v)
    ensures Sum(s, f) >= f(s[i])
  {
    var n := |s| - 1;
    if i < n {
      SumUpdate(s[..n], i, v, f);
      assert s[i := v][..n] == s[..n][i := v];
    } else {
      assert s[i := v][..n] == s[..n];
    }
  }

  lemma SumAppend<T>(s: seq<T>, v: T, f: T -> nat)
    ensures Sum(s + [v], f) == Sum(s, f) + f(v)
  {
    assert (s + [v])[..|s|] == s;
  }

  lemma {:induction false} SumRemove<T>(s: seq<T>, i: nat, f: T -> nat)
    requires i < |s|
    ensures Sum(s[..i] + s[i + 1..], f) == Sum(s, f) - f(s[i])
  {
    var n := |s| - 1;
    if i < n {
      SumRemove(s[..n], i, f);
      assert (s[..i] + s[i + 1..])[..n - 1] == s[..n][..i] + s[..n][i + 1..];
    } else {
      assert s[..i] + s[i + 1..] == s[..n];
    }
  }

  // ---- the ground ----

  function PileIndex(piles: seq<Pile>, x: int, y: int): (i: nat)
    ensures i <= |piles| && (i < |piles| ==> piles[i].x == x && piles[i].y == y)
    ensures forall j :: 0 <= j < i ==> !(piles[j].x == x && piles[j].y == y)
  {
    if piles == [] then 0
    else
      var i := PileIndex(piles[..|piles| - 1], x, y);
      var last := piles[|piles| - 1];
      if i < |piles| - 1 then i else if last.x == x && last.y == y then i else |piles|
  }

  /** The pile of a tile; a bare one when it has none. */
  function PileOf(piles: seq<Pile>, x: int, y: int): (p: Pile)
    ensures p.x == x && p.y == y
  {
    var i := PileIndex(piles, x, y);
    if i < |piles| then piles[i] else Bare(x, y)
  }

  predicate HasPile(piles: seq<Pile>, x: int, y: int) {
    PileIndex(piles, x, y) < |piles|
  }

  /** Create-or-merge: `p` becomes the pile of its tile. */
  function PutPile(piles: seq<Pile>, p: Pile): seq<Pile> {
    var i := PileIndex(piles, p.x, p.y);
    if i < |piles| then piles[i := p] else piles + [p]
  }

  function RemovePile(piles: seq<Pile>, x: int, y: int): seq<Pile> {
    if piles == [] then []
    else
      var last := piles[|piles| - 1];
      RemovePile(piles[..|piles| - 1], x, y) + if last.x == x && last.y == y then [] else [last]
  }

  /** The pile of a tile after a removal: a drained pile disappears. */
  function Settle(piles: seq<Pile>, p: Pile): seq<Pile> {
    if IsEmpty(p) then RemovePile(piles, p.x, p.y) else PutPile(piles, p)
  }

  predicate OnePerTile(piles: seq<Pile>) {
    forall i, j :: 0 <= i < j < |piles| ==> !(piles[i].x == piles[j].x && piles[i].y == piles[j].y)
  }

  function PileMeasure(it: Item): Pile -> nat {
    (p: Pile) => PileCount(p, it)
  }

  function OnGround(piles: seq<Pile>, it: Item): nat {
    Sum(piles, PileMeasure(it))
  }

  lemma BareCount(x: int, y: int, it: Item)
    ensures PileCount(Bare(x, y), it) == 0
  {
  }

  lemma PutPileCount(piles: seq<Pile>, p: Pile, it: Item)
    ensures OnGround(PutPile(piles, p), it) == OnGround(piles, it) - PileCount(PileOf(piles, p.x, p.y), it) + PileCount(p, it)
    ensures OnGround(piles, it) >= PileCount(PileOf(piles, p.x, p.y), it)
  {
    BareCount(p.x, p.y, it);
    hide PileCount;
    var i := PileIndex(piles, p.x, p.y);
    if i < |piles| {
      SumUpdate(piles, i, p, PileMeasure(it));
    } else {
      SumAppend(piles, p, PileMeasure(it));
    }
  }

  lemma {:induction false} RemoveAbsent(piles: seq<Pile>, x: int, y: int)
    requires forall j :: 0 <= j < |piles| ==> !(piles[j].x == x && piles[j].y == y)
    ensures RemovePile(piles, x, y) == piles
  {
    if piles != [] {
      RemoveAbsent(piles[..|piles| - 1], x, y);
    }
  }

  lemma {:induction false} RemoveAt(piles: seq<Pile>, i: nat)
    requires OnePerTile(piles) && i < |piles|
    ensures RemovePile(piles, piles[i].x, piles[i].y) == piles[..i] + piles[i + 1..]
  {
    var n := |piles| - 1;
    if i < n {
      assert OnePerTile(piles[..n]);
      RemoveAt(piles[..n], i);
      assert piles[..i] + piles[i + 1..] == (piles[..n][..i] + piles[..n][i + 1..]) + [piles[n]];
    } else {
      RemoveAbsent(piles[..n], piles[i].x, piles[i].y);
      assert piles[..i] + piles[i + 1..] == piles[..n];
    }
  }

  lemma RemovePileShape(piles: seq<Pile>, x: int, y: int)
    requires OnePerTile(piles)
    ensures OnePerTile(RemovePile(piles, x, y)) && !HasPile(RemovePile(piles, x, y), x, y)
    ensures forall p :: p in RemovePile(piles, x, y) ==> p in piles
  {
    var i := PileIndex(piles, x, y);
    if i < |piles| {
      RemoveAt(piles, i);
    } else {
      RemoveAbsent(piles, x, y);
    }
  }

  lemma RemovePileCount(piles: seq<Pile>, x: int, y: int, it: Item)
    requires OnePerTile(piles)
    ensures OnGround(RemovePile(piles, x, y), it) == OnGround(piles, it) - PileCount(PileOf(piles, x, y), it)
  {
    var i := PileIndex(piles, x, y);
    if i < |piles| {
      RemoveAt(piles, i);
      SumRemove(piles, i, PileMeasure(it));
    } else {
      RemoveAbsent(piles, x, y);
      BareCount(x, y, it);
    }
  }

  lemma SettleCount(piles: seq<Pile>, p: Pile, it: Item)
    requires OnePerTile(piles)
    ensures OnGround(Settle(piles, p), it) == OnGround(piles, it) - PileCount(PileOf(piles, p.x, p.y), it) + PileCount(p, it)
  {
    if IsEmpty(p) {
      RemovePileCount(piles, p.x, p.y, it);
    } else {
      PutPileCount(piles, p, it);
    }
  }

  // ---- tile by tile ----

  lemma FirstIsIndex(piles: seq<Pile>, x: int, y: int, i: nat)
    requires i <= |piles| && (i < |piles| ==> piles[i].x == x && piles[i].y == y)
    requires forall j :: 0 <= j < i ==> !(piles[j].x == x && piles[j].y == y)
    ensures PileIndex(piles, x, y) == i
  {
  }

  /** Putting a pile down sets its own tile and leaves every other. */
  lemma PutPileAt(piles: seq<Pile>, p: Pile, x: int, y: int)
    ensures PileOf(PutPile(piles, p), x, y) == if x == p.x && y == p.y then p else PileOf(piles, x, y)
  {
    var i, k := PileIndex(piles, p.x, p.y), PileIndex(piles, x, y);
    var after := PutPile(piles, p);
    assert forall j :: 0 <= j < |piles| && j != i ==> after[j] == piles[j];
    assert after[i] == p;
    if x == p.x && y == p.y {
      FirstIsIndex(after, x, y, i);
    } else {
      FirstIsIndex(after, x, y, if k == |piles| then |after| else k);
    }
  }

  lemma WithoutOne(piles: seq<Pile>, i: nat, u: int, v: int)
    requires i < |piles| && !(piles[i].x == u && piles[i].y == v)
    ensures PileOf(piles[..i] + piles[i + 1..], u, v) == PileOf(piles, u, v)
  {
    var after, k := piles[..i] + piles[i + 1..], PileIndex(piles, u, v);
    var m := if k < i then k else k - 1;
    forall j | 0 <= j < m
      ensures !(after[j].x == u && after[j].y == v)
    {
      assert after[j] == if j < i then piles[j] else piles[j + 1];
    }
    assert k < |piles| ==> after[m] == piles[k];
    FirstIsIndex(after, u, v, m);
  }

  /** Removing a tile's pile clears that tile and leaves every other. */
  lemma RemovePileAt(piles: seq<Pile>, x: int, y: int, u: int, v: int)
    requires OnePerTile(piles)
    ensures PileOf(RemovePile(piles, x, y), u, v) == if u == x && v == y then Bare(x, y) else PileOf(piles, u, v)
  {
    var i := PileIndex(piles, x, y);
    RemovePileShape(piles, x, y);
    hide OnePerTile, RemovePile;
    if !(u == x && v == y) {
      if i == |piles| {
        RemoveAbsent(piles, x, y);
      } else {
        RemoveAt(piles, i);
        WithoutOne(piles, i, u, v);
      }
    }
  }

  lemma SettleAt(piles: seq<Pile>, p: Pile, u: int, v: int)
    requires OnePerTile(piles) && !(u == p.x && v == p.y)
    ensures PileOf(Settle(piles, p), u, v) == PileOf(piles, u, v)
  {
    if IsEmpty(p) {
      RemovePileAt(piles, p.x, p.y, u, v);
    } else {
      PutPileAt(piles, p, u, v);
    }
  }

  /** What is put on a pile is there, food with its deadline. */
  lemma PutOnAvail(p: Pile, k: Kind, n: nat, tools: seq<int>, spoilAt: int, j: Kind, at: int)
    requires !k.OtherKind? && (k.Spears? || k.Axes? ==> |tools| == n)
    ensures Avail(PutOn(p, k, n, tools, spoilAt), j) == Avail(p, j) + if j == k then n else 0
    ensures Amount(PutOn(p, k, n, tools, spoilAt).food, j, at)
         == Amount(p.food, j, at) + if j == k && IsFood(k) && at == spoilAt then n else 0
  {
    hide SortInts, AddFood;
    if IsFood(k) {
      AddFoodAmounts(p.food, k, n, spoilAt, j, at);
    }
  }

  /** A pile as the reducer keeps it: something on it, tools sorted, food batches well formed. */
  predicate PileOk(p: Pile) {
    !IsEmpty(p) && Sorted(p.spears) && Sorted(p.axes) && FoodOk(p.food)
  }

  predicate GroundOk(piles: seq<Pile>) {
    OnePerTile(piles) && forall i :: 0 <= i < |piles| ==> PileOk(piles[i])
  }

  lemma PutOnOk(p: Pile, k: Kind, m: nat, tools: seq<int>, spoilAt: int)
    requires (PileOk(p) || p == Bare(p.x, p.y)) && m > 0 && !k.OtherKind?
    requires k.Spears? || k.Axes? ==> |tools| == m
    ensures PileOk(PutOn(p, k, m, tools, spoilAt))
  {
    hide SortInts;
    if IsFood(k) {
      AddFoodOk(p.food, k, m, spoilAt);
    }
  }

  lemma PutPileOk(piles: seq<Pile>, p: Pile)
    requires GroundOk(piles) && PileOk(p)
    ensures GroundOk(PutPile(piles, p))
  {
  }

  lemma RemovePileOk(piles: seq<Pile>, x: int, y: int)
    requires GroundOk(piles)
    ensures GroundOk(RemovePile(piles, x, y))
  {
    RemovePileShape(piles, x, y);
  }

  lemma SettleOk(piles: seq<Pile>, p: Pile)
    requires GroundOk(piles) && (IsEmpty(p) || PileOk(p))
    ensures GroundOk(Settle(piles, p))
  {
    if IsEmpty(p) {
      RemovePileOk(piles, p.x, p.y);
    } else {
      PutPileOk(piles, p);
    }
  }
}
