/** The bulk-cap migration (TransformV2State and spillToPile in internal/sim/migrate.go): villagers over
    the carry cap, and the dead, spill onto the ground pile at their feet.
  */
module Migration {
  import Clock
  import opened Piles
  import opened Goods

  datatype Settler = Settler(x: int, y: int, dead: bool, inv: Inventory)

  /** The clock with its derived fields, and what the transform moves. */
  datatype State = State(
    tick: int, speed: Clock.Speed, degraded: bool, effectiveRate: real, agents: seq<Settler>, piles: seq<Pile>)

  /** A spill under way: what is still carried, the pile, and the units still to go. */
  datatype Spilling = Spilling(inv: Inventory, pile: Pile, over: int)

  /** `n` units of one kind change place. The arm that serves axes, which older worlds do not have, has
      no field to move them to or from. */
  function SpillKind(s: Spilling, k: Kind, n: nat, spoilAt: int): Spilling
    requires n <= Carried(s.inv, k)
  {
    if k.Axes? then s.(over := s.over - n)
    else Spilling(TakeOut(s.inv, k, n), PutOn(s.pile, k, n, ToolsOut(s.inv, k, n), spoilAt), s.over - n)
  }

  /** One kind's turn: it gives what is still wanted, as far as it goes. */
  function SpillStep(s: Spilling, k: Kind, spoilAt: int): (r: Spilling)
    ensures r.pile.x == s.pile.x && r.pile.y == s.pile.y
  {
    var n := Clamp(s.over, Carried(s.inv, k));
    if n == 0 then s else SpillKind(s, k, n, spoilAt)
  }

  /** The spill after the first `j` kinds of the canonical order. */
  function SpillUpTo(s: Spilling, spoilAt: int, j: nat): (r: Spilling)
    requires j <= KINDS
    ensures r.pile.x == s.pile.x && r.pile.y == s.pile.y
  {
    if j == 0 then s else SpillStep(SpillUpTo(s, spoilAt, j - 1), KindAt(j - 1), spoilAt)
  }

  /** The same turn, arm by arm. */
  method SpillOne(s: Spilling, kind: Kind, migTick: int) returns (r: Spilling)
    requires s.over > 0
    ensures r == SpillStep(s, kind, migTick + ROT_WINDOW_TICKS)
  {
    r := s;
    var n: int := Carried(s.inv, kind);
    if n > s.over {
      n := s.over;
    }
    if n <= 0 {
      return;
    }
    if kind.Spears? {
      r := Spilling(s.inv.(spears := s.inv.spears[n..]),
        s.pile.(spears := SortInts(s.pile.spears + s.inv.spears[..n])), s.over - n);
    } else if IsFood(kind) {
      r := Spilling(AddItems(s.inv, kind, -n),
        s.pile.(food := AddFood(s.pile.food, kind, n, migTick + ROT_WINDOW_TICKS)), s.over - n);
    } else {
      r := Spilling(AddItems(s.inv, kind, -n),
        s.pile.(materials := AddNonFood(s.pile.materials, kind, n)), s.over - n);
    }
  }

  method SpillToPile(inv: Inventory, pile: Pile, over: int, migTick: int) returns (s: Spilling)
    requires over > 0
    ensures s == SpillUpTo(Spilling(inv, pile, over), migTick + ROT_WINDOW_TICKS, KINDS)
  {
    s := Spilling(inv, pile, over);
    var j := 0;
    while j < KINDS && s.over > 0
      invariant j <= KINDS
      invariant s == SpillUpTo(Spilling(inv, pile, over), migTick + ROT_WINDOW_TICKS, j)
    {
      s := SpillOne(s, KindAt(j), migTick);
      j := j + 1;
    }
    SpillIsOver(Spilling(inv, pile, over), migTick + ROT_WINDOW_TICKS, j);
  }

  lemma {:induction false} SpillIsOver(s: Spilling, spoilAt: int, j: nat)
    requires j <= KINDS && (j < KINDS ==> SpillUpTo(s, spoilAt, j).over <= 0)
    ensures SpillUpTo(s, spoilAt, KINDS) == SpillUpTo(s, spoilAt, j)
    decreases KINDS - j
  {
    if j < KINDS {
      assert SpillStep(SpillUpTo(s, spoilAt, j), KindAt(j), spoilAt) == SpillUpTo(s, spoilAt, j);
      SpillIsOver(s, spoilAt, j + 1);
    }
  }

  // ---- what one spill does ----

  /** What was carried of the first `j` kinds. */
  function UpTo(inv: Inventory, j: nat): nat
    requires j <= KINDS
  {
    if j == 0 then 0 else UpTo(inv, j - 1) + Carried(inv, KindAt(j - 1))
  }

  lemma StepCarried(s: Spilling, k: Kind, spoilAt: int, j: Kind)
    requires s.over >= 0
    ensures var n := Clamp(s.over, Carried(s.inv, k));
            var r := SpillStep(s, k, spoilAt);
            r.over == s.over - n &&
            Carried(r.inv, j) == Carried(s.inv, j) - if j == k && !k.Axes? then n else 0
  {
    var n := Clamp(s.over, Carried(s.inv, k));
    TakeOutCarried(s.inv, k, n, j);
  }

  lemma {:induction false} SpillOver(s: Spilling, spoilAt: int, j: nat, i: nat)
    requires j <= KINDS && j <= i < KINDS && s.over >= 0
    ensures var r := SpillUpTo(s, spoilAt, j);
            r.over == (if UpTo(s.inv, j) < s.over then s.over - UpTo(s.inv, j) else 0) &&
            Carried(r.inv, KindAt(i)) == Carried(s.inv, KindAt(i))
  {
    hide SpillStep, Carried, KindAt;
    if j > 0 {
      SpillOver(s, spoilAt, j - 1, i);
      SpillOver(s, spoilAt, j - 1, j - 1);
      StepCarried(SpillUpTo(s, spoilAt, j - 1), KindAt(j - 1), spoilAt, KindAt(i));
    }
  }

  /** A kind gives what the kinds before it have not yet covered; axes stay. */
  function Given(s: Spilling, i: nat): nat
    requires i < KINDS
  {
    if KindAt(i).Axes? then 0 else Clamp(s.over - UpTo(s.inv, i), Carried(s.inv, KindAt(i)))
  }

  lemma {:induction false} SpillCarried(s: Spilling, spoilAt: int, j: nat, i: nat)
    requires i < j <= KINDS && s.over >= 0
    ensures Carried(SpillUpTo(s, spoilAt, j).inv, KindAt(i)) == Carried(s.inv, KindAt(i)) - Given(s, i)
  {
    hide SpillStep, Carried, KindAt;
    SpillOverStays(s, spoilAt, j - 1);
    StepCarried(SpillUpTo(s, spoilAt, j - 1), KindAt(j - 1), spoilAt, KindAt(i));
    if i < j - 1 {
      SpillCarried(s, spoilAt, j - 1, i);
    } else {
      SpillOver(s, spoilAt, i, i);
    }
  }

  lemma {:induction false} SpillOverStays(s: Spilling, spoilAt: int, j: nat)
    requires j <= KINDS && s.over >= 0
    ensures SpillUpTo(s, spoilAt, j).over >= 0
  {
    if j > 0 {
      SpillOverStays(s, spoilAt, j - 1);
    }
  }

  /** The canonical order keeps the best goods: as long as anything of a kind is still carried, nothing of
      a later kind was spilled. Materials go before food, raw food before cooked, cooked before meals, and
      tools last. */
  lemma EarlierKindsGoFirst(s: Spilling, spoilAt: int, i: nat, j: nat)
    requires i < j < KINDS && s.over >= 0
    ensures var r := SpillUpTo(s, spoilAt, KINDS);
            Carried(r.inv, KindAt(i)) > 0 ==> Carried(r.inv, KindAt(j)) == Carried(s.inv, KindAt(j))
  {
    hide SpillUpTo, Carried, KindAt;
    SpillCarried(s, spoilAt, KINDS, i);
    SpillCarried(s, spoilAt, KINDS, j);
    UpToGrows(s.inv, i + 1, j);
  }

  /** What a villager keeps, in the goods' own names: no food goes while any material is left, no cooked food while
      there is raw, no meal while there is other food, and no spear while there is anything else. */
  lemma BestGoodsStay(s: Spilling, spoilAt: int)
    requires s.over >= 0
    ensures var r := SpillUpTo(s, spoilAt, KINDS).inv;
            var material := Carried(r, Wood) + Carried(r, Stone) + Carried(r, Water) + Carried(r, Planks) + Carried(r, RefinedStone);
            var raw, cooked, meals := Carried(r, FoodRaw), Carried(r, FoodCooked), Carried(r, Meals);
            && (material > 0 ==> raw == Carried(s.inv, FoodRaw))
            && (material + raw > 0 ==> cooked == Carried(s.inv, FoodCooked))
            && (material + raw + cooked > 0 ==> meals == Carried(s.inv, Meals))
            && (material + raw + cooked + meals > 0 ==> |r.spears| == |s.inv.spears|)
  {
    CanonicalOrder();
    hide SpillUpTo, KindAt, Carried;
    KeepsIfAny(s, spoilAt, 5);
    KeepsIfAny(s, spoilAt, 6);
    KeepsIfAny(s, spoilAt, 7);
    KeepsIfAny(s, spoilAt, 8);
    SpearsCarried(SpillUpTo(s, spoilAt, KINDS).inv);
    SpearsCarried(s.inv);
  }

  lemma SpearsCarried(inv: Inventory)
    ensures Carried(inv, Spears) == |inv.spears|
  {
  }

  lemma KeepsIfAny(s: Spilling, spoilAt: int, j: nat)
    requires j < KINDS && s.over >= 0
    ensures var r := SpillUpTo(s, spoilAt, KINDS).inv;
            forall i :: 0 <= i < j && Carried(r, KindAt(i)) > 0 ==> Carried(r, KindAt(j)) == Carried(s.inv, KindAt(j))
  {
    hide SpillUpTo, KindAt, Carried;
    forall i | 0 <= i < j
      ensures var r := SpillUpTo(s, spoilAt, KINDS).inv;
              Carried(r, KindAt(i)) > 0 ==> Carried(r, KindAt(j)) == Carried(s.inv, KindAt(j))
    {
      EarlierKindsGoFirst(s, spoilAt, i, j);
    }
  }

  lemma {:induction false} UpToGrows(inv: Inventory, i: nat, j: nat)
    requires i <= j <= KINDS
    ensures UpTo(inv, i) <= UpTo(inv, j)
  {
    if i < j {
      UpToGrows(inv, i, j - 1);
    }
  }

  lemma StepTools(s: Spilling, k: Kind, spoilAt: int)
    ensures var r := SpillStep(s, k, spoilAt);
            r.inv.axes == s.inv.axes &&
            r.inv.spears == if k.Spears? then s.inv.spears[Clamp(s.over, |s.inv.spears|)..] else s.inv.spears
  {
    assert s.inv.spears[0..] == s.inv.spears;
  }

  lemma ClampAgrees(s: Spilling, spoilAt: int)
    requires s.over >= 0
    ensures Clamp(SpillUpTo(s, spoilAt, 8).over, |s.inv.spears|) == Given(s, 8)
  {
    SpillOver(s, spoilAt, 8, 8);
    SameIndex(KindAt(8), Spears);
  }

  lemma {:induction false} AxesStay(s: Spilling, spoilAt: int, j: nat)
    requires j <= KINDS
    ensures SpillUpTo(s, spoilAt, j).inv.axes == s.inv.axes
  {
    hide SpillStep, Clamp;
    if j > 0 {
      AxesStay(s, spoilAt, j - 1);
      StepTools(SpillUpTo(s, spoilAt, j - 1), KindAt(j - 1), spoilAt);
    }
  }

  lemma {:induction false} SpearsBefore(s: Spilling, spoilAt: int, j: nat)
    requires j <= 8
    ensures SpillUpTo(s, spoilAt, j).inv.spears == s.inv.spears
  {
    hide SpillStep, Clamp;
    if j > 0 {
      SpearsBefore(s, spoilAt, j - 1);
      StepTools(SpillUpTo(s, spoilAt, j - 1), KindAt(j - 1), spoilAt);
    }
  }

  /** Spears leave most worn first: what stays is the tail of the ascending list. */
  lemma SpearsLeaveMostWornFirst(s: Spilling, spoilAt: int)
    requires s.over >= 0
    ensures SpillUpTo(s, spoilAt, KINDS).inv.spears == s.inv.spears[Given(s, 8)..]
    ensures SpillUpTo(s, spoilAt, KINDS).inv.axes == s.inv.axes
  {
    hide SpillStep, Clamp, Given;
    AxesStay(s, spoilAt, KINDS);
    SpearsBefore(s, spoilAt, 8);
    ClampAgrees(s, spoilAt);
    SameIndex(KindAt(8), Spears);
    SameIndex(KindAt(9), Axes);
    StepTools(SpillUpTo(s, spoilAt, 8), Spears, spoilAt);
    StepTools(SpillUpTo(s, spoilAt, 9), Axes, spoilAt);
  }

  /** Nothing is made or lost, and only the fresh deadline gains dated food. */
  lemma {:induction false} SpillConserves(s: Spilling, spoilAt: int, j: nat, it: Item)
    requires j <= KINDS && (it.Dated? ==> it.spoilAt != spoilAt)
    ensures var r := SpillUpTo(s, spoilAt, j);
            InvCount(r.inv, it) + PileCount(r.pile, it) == InvCount(s.inv, it) + PileCount(s.pile, it)
  {
    hide SpillStep, InvCount, PileCount;
    if j > 0 {
      SpillConserves(s, spoilAt, j - 1, it);
      StepConserves(SpillUpTo(s, spoilAt, j - 1), KindAt(j - 1), spoilAt, it);
    }
  }

  lemma StepConserves(s: Spilling, k: Kind, spoilAt: int, it: Item)
    requires it.Dated? ==> it.spoilAt != spoilAt
    ensures var r := SpillStep(s, k, spoilAt);
            InvCount(r.inv, it) + PileCount(r.pile, it) == InvCount(s.inv, it) + PileCount(s.pile, it)
  {
    var n := Clamp(s.over, Carried(s.inv, k));
    if n > 0 {
      SpillKindConserves(s, k, n, spoilAt, it);
    }
  }

  lemma DatedStays(p: Pile, k: Kind, n: nat, tools: seq<int>, spoilAt: int, it: Item)
    requires it.Dated? && it.spoilAt != spoilAt
    ensures PileCount(PutOn(p, k, n, tools, spoilAt), it) == PileCount(p, it)
  {
    hide SortInts, AddFood, AddNonFood;
    if IsFood(k) {
      AddFoodAmounts(p.food, k, n, spoilAt, it.kind, it.spoilAt);
    }
  }

  lemma SpillKindConserves(s: Spilling, k: Kind, n: nat, spoilAt: int, it: Item)
    requires n <= Carried(s.inv, k) && (it.Dated? ==> it.spoilAt != spoilAt)
    ensures var r := SpillKind(s, k, n, spoilAt);
            InvCount(r.inv, it) + PileCount(r.pile, it) == InvCount(s.inv, it) + PileCount(s.pile, it)
  {
    hide TakeOut, PutOn, ToolsOut, Carried, PileCount;
    if it.Dated? {
      DatedStays(s.pile, k, n, ToolsOut(s.inv, k, n), spoilAt, it);
    } else {
      hide Moved, InvCount;
      TakeOutCount(s.inv, k, n, it);
      PutOnCount(s.pile, k, n, ToolsOut(s.inv, k, n), spoilAt, it);
    }
  }

  lemma SpillKindBulk(s: Spilling, k: Kind, n: nat, spoilAt: int)
    requires n <= Carried(s.inv, k)
    ensures Bulk(SpillKind(s, k, n, spoilAt).inv) == Bulk(s.inv) - if k.Axes? then 0 else n
  {
    if IsFlat(k) {
      AddItemsBulk(s.inv, k, -(n as int));
    }
  }

  lemma StepBulk(s: Spilling, k: Kind, spoilAt: int)
    requires s.over >= 0
    ensures Bulk(SpillStep(s, k, spoilAt).inv)
         == Bulk(s.inv) - if k.Axes? then 0 else Clamp(s.over, Carried(s.inv, k))
  {
    SpillKindBulk(s, k, Clamp(s.over, Carried(s.inv, k)), spoilAt);
  }

  lemma {:induction false} SpillBulk(s: Spilling, spoilAt: int, j: nat)
    requires j <= 9 && s.over >= 0
    ensures Bulk(SpillUpTo(s, spoilAt, j).inv) == Bulk(s.inv) - Min(s.over, UpTo(s.inv, j))
  {
    hide SpillStep, Carried, KindAt, Bulk;
    if j > 0 {
      SpillBulk(s, spoilAt, j - 1);
      SpillOver(s, spoilAt, j - 1, j - 1);
      StepBulk(SpillUpTo(s, spoilAt, j - 1), KindAt(j - 1), spoilAt);
    }
  }

  lemma WholeSpillBulk(s: Spilling, spoilAt: int)
    requires s.over >= 0
    ensures Bulk(SpillUpTo(s, spoilAt, KINDS).inv) == Bulk(s.inv) - Min(s.over, Bulk(s.inv) - |s.inv.axes|)
  {
    hide SpillStep, Carried, Bulk;
    SpillBulk(s, spoilAt, 9);
    SpillOverStays(s, spoilAt, 9);
    SameIndex(KindAt(9), Axes);
    StepBulk(SpillUpTo(s, spoilAt, 9), Axes, spoilAt);
    MovableBulk(s.inv);
  }

  lemma {:induction false} FlatUpTo(inv: Inventory, j: nat)
    requires j <= FLAT_KINDS
    ensures UpTo(inv, j) == FlatTotal(inv.flat, j)
  {
    if j > 0 {
      FlatUpTo(inv, j - 1);
    }
  }

  /** All but the axes. */
  lemma MovableBulk(inv: Inventory)
    ensures UpTo(inv, 9) == Bulk(inv) - |inv.axes|
  {
    FlatUpTo(inv, 8);
    SameIndex(KindAt(8), Spears);
  }

  // ---- the transform ----

  function Over(a: Settler): int {
    if a.dead then Bulk(a.inv) else Bulk(a.inv) - BULK_CAP
  }

  function SpillOf(a: Settler, piles: seq<Pile>, tick: int): Spilling {
    SpillUpTo(Spilling(a.inv, PileOf(piles, a.x, a.y), Over(a)), tick + ROT_WINDOW_TICKS, KINDS)
  }

  predicate SameClock(s: State, r: State) {
    r.tick == s.tick && r.speed == s.speed && r.degraded == s.degraded && r.effectiveRate == s.effectiveRate
  }

  /** One agent's turn. */
  function TransformAgent(s: State, i: nat): (r: State)
    requires i < |s.agents|
    ensures |r.agents| == |s.agents| && SameClock(s, r)
  {
    var a := s.agents[i];
    if Over(a) <= 0 then s
    else
      var spilt := SpillOf(a, s.piles, s.tick);
      s.(agents := s.agents[i := a.(inv := spilt.inv)], piles := PutPile(s.piles, spilt.pile))
  }

  /** The state after the first `i` agents, in index order. */
  function TransformUpTo(v2: State, i: nat): (r: State)
    requires i <= |v2.agents|
    ensures |r.agents| == |v2.agents| && SameClock(v2, r)
    ensures forall j :: i <= j < |v2.agents| ==> r.agents[j] == v2.agents[j]
  {
    if i == 0 then v2 else TransformAgent(TransformUpTo(v2, i - 1), i - 1)
  }

  /** No drift is carried across the break: the clock goes on at its nominal rate. */
  function Undegraded(s: State): State {
    s.(degraded := false, effectiveRate := Clock.TicksPerSecond(s.speed))
  }

  function Transform(v2: State): (r: State)
    ensures r.tick == v2.tick && r.speed == v2.speed
    ensures !r.degraded && r.effectiveRate == Clock.TicksPerSecond(v2.speed)
  {
    TransformUpTo(Undegraded(v2), |v2.agents|)
  }

  method TransformV2State(v2: State) returns (out: State)
    ensures out == Transform(v2)
  {
    hide SpillUpTo, PutPile, PileOf, Bulk;
    out := v2;
    out := out.(degraded := false);
    out := out.(effectiveRate := Clock.TicksPerSecond(out.speed));
    for i := 0 to |v2.agents|
      invariant out == TransformUpTo(Undegraded(v2), i)
    {
      var a := out.agents[i];
      var over := if a.dead then Bulk(a.inv) else Bulk(a.inv) - BULK_CAP;
      if over > 0 {
        var s := SpillToPile(a.inv, PileOf(out.piles, a.x, a.y), over, out.tick);
        out := out.(agents := out.agents[i := a.(inv := s.inv)], piles := PutPile(out.piles, s.pile));
      }
    }
  }

  function CarriedMeasure(it: Item): Settler -> nat {
    (a: Settler) => InvCount(a.inv, it)
  }

  function Total(s: State, it: Item): nat {
    Sum(s.agents, CarriedMeasure(it)) + OnGround(s.piles, it)
  }

  lemma AgentConserves(s: State, i: nat, it: Item)
    requires i < |s.agents| && (it.Dated? ==> it.spoilAt != s.tick + ROT_WINDOW_TICKS)
    ensures Total(TransformAgent(s, i), it) == Total(s, it)
  {
    var a := s.agents[i];
    if Over(a) > 0 {
      var spilt := SpillOf(a, s.piles, s.tick);
      SpillConserves(Spilling(a.inv, PileOf(s.piles, a.x, a.y), Over(a)), s.tick + ROT_WINDOW_TICKS, KINDS, it);
      PutPileCount(s.piles, spilt.pile, it);
      SumUpdate(s.agents, i, a.(inv := spilt.inv), CarriedMeasure(it));
    }
  }

  /** What a villager loses lies at its feet: its own tile's pile gains it, and no other tile changes. */
  lemma SpillLandsAtFeet(s: State, i: nat, it: Item, x: int, y: int)
    requires i < |s.agents| && (it.Dated? ==> it.spoilAt != s.tick + ROT_WINDOW_TICKS)
    ensures var s', a := TransformAgent(s, i), s.agents[i];
            && InvCount(s'.agents[i].inv, it) + PileCount(PileOf(s'.piles, a.x, a.y), it)
                 == InvCount(a.inv, it) + PileCount(PileOf(s.piles, a.x, a.y), it)
            && ((x, y) != (a.x, a.y) ==> PileOf(s'.piles, x, y) == PileOf(s.piles, x, y))
  {
    hide InvCount, PileCount, SpillUpTo, PutPile;
    var a := s.agents[i];
    if Over(a) > 0 {
      var spilt := SpillOf(a, s.piles, s.tick);
      SpillConserves(Spilling(a.inv, PileOf(s.piles, a.x, a.y), Over(a)), s.tick + ROT_WINDOW_TICKS, KINDS, it);
      PutPileAt(s.piles, spilt.pile, a.x, a.y);
      PutPileAt(s.piles, spilt.pile, x, y);
    }
  }

  lemma {:induction false} TransformConservesUpTo(v2: State, i: nat, it: Item)
    requires i <= |v2.agents| && (it.Dated? ==> it.spoilAt != v2.tick + ROT_WINDOW_TICKS)
    ensures Total(TransformUpTo(v2, i), it) == Total(v2, it)
  {
    hide TransformAgent, Total;
    if i > 0 {
      TransformConservesUpTo(v2, i - 1, it);
      AgentConserves(TransformUpTo(v2, i - 1), i - 1, it);
    }
  }

  /** The migration conserves the units of every kind and the tools of every remaining use, carried plus
      ground, and leaves food already on the ground at its deadline. */
  lemma TransformConserves(v2: State, it: Item)
    requires it.Dated? ==> it.spoilAt != v2.tick + ROT_WINDOW_TICKS
    ensures Total(Transform(v2), it) == Total(v2, it)
  {
    TransformConservesUpTo(Undegraded(v2), |v2.agents|, it);
  }

  /** One agent before and after its turn. */
  predicate Capped(a: Settler, a': Settler) {
    && a'.x == a.x && a'.y == a.y && a'.dead == a.dead
    && Bulk(a'.inv) == if Over(a) <= 0 then Bulk(a.inv) else Bulk(a.inv) - Min(Over(a), Bulk(a.inv) - |a.inv.axes|)
  }

  lemma AgentTurn(s: State, i: nat, j: nat)
    requires i < |s.agents| && j < |s.agents|
    ensures var a' := TransformAgent(s, i).agents[j];
            if j == i then Capped(s.agents[j], a') else a' == s.agents[j]
  {
    var a := s.agents[i];
    if Over(a) > 0 {
      WholeSpillBulk(Spilling(a.inv, PileOf(s.piles, a.x, a.y), Over(a)), s.tick + ROT_WINDOW_TICKS);
    }
  }

  lemma {:induction false} AgentAfter(v2: State, i: nat, j: nat)
    requires j < i <= |v2.agents|
    ensures Capped(v2.agents[j], TransformUpTo(v2, i).agents[j])
  {
    hide TransformAgent, Capped;
    AgentTurn(TransformUpTo(v2, i - 1), i - 1, j);
    if j < i - 1 {
      AgentAfter(v2, i - 1, j);
    }
  }

  /** Every villager stays where it is. Without axes, which older worlds cannot have, the living end with
      exactly the smaller of their bulk and the cap, and the dead with nothing; in general the cap holds
      for a living villager if and only if it carries no more axes than the cap, and a dead one ends with
      nothing if and only if it carries no axes. */
  lemma CapAfterTransform(v2: State, j: nat)
    requires j < |v2.agents|
    ensures var a, a' := v2.agents[j], Transform(v2).agents[j];
            a'.x == a.x && a'.y == a.y && a'.dead == a.dead &&
            (a.inv.axes == [] ==> Bulk(a'.inv) == if a.dead then 0 else Min(Bulk(a.inv), BULK_CAP)) &&
            (!a.dead ==> (Bulk(a'.inv) <= BULK_CAP <==> |a.inv.axes| <= BULK_CAP)) &&
            (a.dead ==> (Bulk(a'.inv) == 0 <==> a.inv.axes == []))
  {
    AgentAfter(Undegraded(v2), |v2.agents|, j);
  }

  // ---- the ground after it ----

  lemma SpillKindOk(s: Spilling, k: Kind, n: nat, spoilAt: int)
    requires (PileOk(s.pile) || s.pile == Bare(s.pile.x, s.pile.y)) && 0 < n <= Carried(s.inv, k) && !k.Axes?
    ensures PileOk(SpillKind(s, k, n, spoilAt).pile)
  {
    hide PileOk, PutOn, TakeOut;
    PutOnOk(s.pile, k, n, ToolsOut(s.inv, k, n), spoilAt);
  }

  lemma {:induction false} SpillOk(s: Spilling, spoilAt: int, j: nat)
    requires (PileOk(s.pile) || s.pile == Bare(s.pile.x, s.pile.y)) && j <= KINDS && s.inv.axes == []
    ensures var r := SpillUpTo(s, spoilAt, j);
            r.inv.axes == [] && (PileOk(r.pile) || (r.pile == s.pile && r.inv == s.inv))
  {
    hide SpillStep, PileOk;
    if j > 0 {
      SpillOk(s, spoilAt, j - 1);
      StepOk(SpillUpTo(s, spoilAt, j - 1), KindAt(j - 1), spoilAt);
    }
  }

  lemma StepOk(s: Spilling, k: Kind, spoilAt: int)
    requires (PileOk(s.pile) || s.pile == Bare(s.pile.x, s.pile.y)) && s.inv.axes == []
    ensures var r := SpillStep(s, k, spoilAt);
            r.inv.axes == [] && (PileOk(r.pile) || r == s)
  {
    var n := Clamp(s.over, Carried(s.inv, k));
    if n > 0 {
      SpillKindOk(s, k, n, spoilAt);
    }
  }

  lemma AgentKeepsGround(s: State, i: nat)
    requires i < |s.agents| && GroundOk(s.piles) && s.agents[i].inv.axes == []
    ensures GroundOk(TransformAgent(s, i).piles)
  {
    var a := s.agents[i];
    if Over(a) > 0 {
      var start := Spilling(a.inv, PileOf(s.piles, a.x, a.y), Over(a));
      SpillOk(start, s.tick + ROT_WINDOW_TICKS, KINDS);
      WholeSpillBulk(start, s.tick + ROT_WINDOW_TICKS);
      PutPileOk(s.piles, SpillOf(a, s.piles, s.tick).pile);
    }
  }

  lemma {:induction false} UpToKeepsGround(v2: State, i: nat)
    requires i <= |v2.agents| && GroundOk(v2.piles)
    requires forall j :: 0 <= j < |v2.agents| ==> v2.agents[j].inv.axes == []
    ensures GroundOk(TransformUpTo(v2, i).piles)
  {
    hide TransformAgent, GroundOk;
    if i > 0 {
      UpToKeepsGround(v2, i - 1);
      AgentKeepsGround(TransformUpTo(v2, i - 1), i - 1);
    }
  }

  /** Without axes the ground stays well formed: one pile to a tile, none empty, no two batches alike. */
  lemma TransformKeepsGround(v2: State)
    requires GroundOk(v2.piles) && forall j :: 0 <= j < |v2.agents| ==> v2.agents[j].inv.axes == []
    ensures GroundOk(Transform(v2).piles)
  {
    UpToKeepsGround(Undegraded(v2), |v2.agents|);
  }
}
