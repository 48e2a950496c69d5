/** Ground piles (the Pile methods of internal/sim/agents.go): flat counts, tools by remaining uses, and
    food in batches with a spoilage deadline each, kept in drop order.

    The named count fields are a table indexed by kind, in which an absent kind counts zero.
  */
module Piles {

  datatype Kind =
    | Wood | Stone | Water | Planks | RefinedStone
    | FoodRaw | FoodCooked | Meals
    | Spears | Axes
    | OtherKind(name: nat)

  predicate IsFood(k: Kind) {
    k.FoodRaw? || k.FoodCooked? || k.Meals?
  }

  /** The non-food kinds held as plain counts. */
  predicate IsMaterial(k: Kind) {
    k.Wood? || k.Stone? || k.Water? || k.Planks? || k.RefinedStone?
  }

  type Counts = map<Kind, nat>

  function Get(c: Counts, k: Kind): nat {
    if k in c then c[k] else 0
  }

  datatype Batch = Batch(kind: Kind, n: nat, spoilAt: int)

  predicate SameKey(a: Batch, b: Batch) {
    a.kind == b.kind && a.spoilAt == b.spoilAt
  }

  /** At most one batch for each kind and deadline. */
  predicate UniqueKeys(food: seq<Batch>) {
    forall i, j :: 0 <= i < j < |food| ==> !SameKey(food[i], food[j])
  }

  predicate NoneEmpty(food: seq<Batch>) {
    forall i :: 0 <= i < |food| ==> food[i].n > 0
  }

  predicate FoodOk(food: seq<Batch>) {
    UniqueKeys(food) && NoneEmpty(food)
  }

  /** Which batches a removal may touch. */
  datatype Selection = OfKind(kind: Kind) | SpoiledBy(kind: Kind, tick: int)

  predicate Eligible(sel: Selection, b: Batch) {
    b.kind == sel.kind && (sel.SpoiledBy? ==> b.spoilAt <= sel.tick)
  }

  function Min(a: int, b: int): int {
    if a < b then a else b
  }

  function Front<T>(s: seq<T>): seq<T>
    requires s != []
  {
    s[..|s| - 1]
  }

  function Last<T>(s: seq<T>): T
    requires s != []
  {
    s[|s| - 1]
  }

  // ---- removal, batch by batch ----

  /** What a removal of up to `n` takes from one batch. */
  function Share(b: Batch, n: nat, sel: Selection): (t: nat)
    ensures t <= b.n && t <= n
  {
    if Eligible(sel, b) then Min(b.n, n) else 0
  }

  /** The batch after `t` of its units are gone; an emptied batch disappears. */
  function Left(b: Batch, t: nat): seq<Batch>
    requires t <= b.n
  {
    if b.n > t then [b.(n := b.n - t)] else []
  }

  /** How many units a removal of up to `n` eligible units takes. */
  function Taken(food: seq<Batch>, n: nat, sel: Selection): (t: nat)
    ensures t <= n
  {
    if food == [] then 0
    else
      var t := Taken(Front(food), n, sel);
      t + Share(Last(food), n - t, sel)
  }

  /** What it leaves: the earlier batches give first. */
  function Remaining(food: seq<Batch>, n: nat, sel: Selection): seq<Batch> {
    if food == [] then []
    else Remaining(Front(food), n, sel) + Left(Last(food), Share(Last(food), n - Taken(Front(food), n, sel), sel))
  }

  // ---- which units go ----

  /** Units a removal may touch. */
  function EligibleOf(food: seq<Batch>, sel: Selection): nat {
    if food == [] then 0
    else EligibleOf(Front(food), sel) + if Eligible(sel, Last(food)) then Last(food).n else 0
  }

  /** What a batch keeps when `older` eligible units lie in front of it: the first `n` eligible units of
      the pile go, so it loses the part of that range which falls on it. */
  function Kept(b: Batch, older: nat, n: nat, sel: Selection): nat {
    if !Eligible(sel, b) || n <= older then b.n
    else if n >= older + b.n then 0
    else older + b.n - n
  }

  /** The pile without its first `n` eligible units: every batch decided by its own position. */
  function Thinned(food: seq<Batch>, n: nat, sel: Selection): seq<Batch> {
    if food == [] then []
    else
      var b := Last(food);
      var kept := Kept(b, EligibleOf(Front(food), sel), n, sel);
      Thinned(Front(food), n, sel) + if kept > 0 then [b.(n := kept)] else []
  }

  /** A removal takes exactly the smaller of `n` and the eligible units there are, the oldest eligible
      units, and leaves everything else in place and in order. */
  lemma {:induction false} RemovalIsOldestFirst(food: seq<Batch>, n: nat, sel: Selection)
    ensures Taken(food, n, sel) == Min(n, EligibleOf(food, sel))
    ensures Remaining(food, n, sel) == Thinned(food, n, sel)
  {
    if food != [] {
      RemovalIsOldestFirst(Front(food), n, sel);
    }
  }

  // ---- well-formed food ----

  /** The key of every batch left is the key of a batch that was there. */
  lemma {:induction false} RemainingKeys(food: seq<Batch>, n: nat, sel: Selection, b: Batch)
    requires b in Remaining(food, n, sel)
    ensures exists a :: a in food && SameKey(a, b)
  {
    if b in Remaining(Front(food), n, sel) {
      RemainingKeys(Front(food), n, sel, b);
      var a :| a in Front(food) && SameKey(a, b);
      assert a in food;
    } else {
      assert Last(food) in food && SameKey(Last(food), b);
    }
  }

  lemma FoodOkAppend(rest: seq<Batch>, b: Batch)
    requires b.n > 0 && FoodOk(rest) && forall a :: a in rest ==> !SameKey(a, b)
    ensures FoodOk(rest + [b])
  {
  }

  lemma NoSameKeyLeft(food: seq<Batch>, n: nat, sel: Selection, b: Batch)
    requires forall a :: a in food ==> !SameKey(a, b)
    ensures forall a :: a in Remaining(food, n, sel) ==> !SameKey(a, b)
  {
    forall a | a in Remaining(food, n, sel)
      ensures !SameKey(a, b)
    {
      RemainingKeys(food, n, sel, a);
    }
  }

  /** Removal leaves no empty batch and no two batches with one key. */
  lemma {:induction false} RemainingFoodOk(food: seq<Batch>, n: nat, sel: Selection)
    requires UniqueKeys(food)
    ensures FoodOk(Remaining(food, n, sel))
  {
    if food != [] {
      var b := Last(food);
      var t := Share(b, n - Taken(Front(food), n, sel), sel);
      var rest := Remaining(Front(food), n, sel);
      RemainingFoodOk(Front(food), n, sel);
      NoSameKeyLeft(Front(food), n, sel, b);
      if b.n > t {
        FoodOkAppend(rest, b.(n := b.n - t));
      } else {
        assert rest + [] == rest;
      }
    }
  }

  // ---- amounts ----

  /** Units of one kind. */
  function FoodOf(food: seq<Batch>, k: Kind): nat {
    if food == [] then 0 else FoodOf(Front(food), k) + if Last(food).kind == k then Last(food).n else 0
  }

  predicate HasKey(b: Batch, k: Kind, spoilAt: int) {
    b.kind == k && b.spoilAt == spoilAt
  }

  /** Units of one kind and deadline. */
  function Amount(food: seq<Batch>, k: Kind, spoilAt: int): nat {
    if food == [] then 0
    else Amount(Front(food), k, spoilAt) + if HasKey(Last(food), k, spoilAt) then Last(food).n else 0
  }

  lemma AppendAmounts(rest: seq<Batch>, b: Batch, k: Kind, spoilAt: int)
    ensures FoodOf(rest + [b], k) == FoodOf(rest, k) + if b.kind == k then b.n else 0
    ensures Amount(rest + [b], k, spoilAt) == Amount(rest, k, spoilAt) + if HasKey(b, k, spoilAt) then b.n else 0
  {
    assert Front(rest + [b]) == rest;
  }

  lemma LeftAmounts(rest: seq<Batch>, b: Batch, t: nat, k: Kind, spoilAt: int)
    requires t <= b.n
    ensures FoodOf(rest + Left(b, t), k) == FoodOf(rest, k) + if b.kind == k then b.n - t else 0
    ensures Amount(rest + Left(b, t), k, spoilAt)
         == Amount(rest, k, spoilAt) + if HasKey(b, k, spoilAt) then b.n - t else 0
  {
    if b.n > t {
      AppendAmounts(rest, b.(n := b.n - t), k, spoilAt);
    } else {
      assert rest + [] == rest;
    }
  }

  /** Removal loses exactly what it reports, of the selected kind only. */
  lemma {:induction false} RemainingOfKind(food: seq<Batch>, n: nat, sel: Selection, k: Kind)
    ensures FoodOf(Remaining(food, n, sel), k) == FoodOf(food, k) - if k == sel.kind then Taken(food, n, sel) else 0
  {
    if food != [] {
      RemainingOfKind(Front(food), n, sel, k);
      var t := Share(Last(food), n - Taken(Front(food), n, sel), sel);
      LeftAmounts(Remaining(Front(food), n, sel), Last(food), t, k, 0);
    }
  }

  /** Batches of another kind, and fresh ones when only spoiled food is removed, lose nothing. */
  lemma {:induction false} OthersUntouched(food: seq<Batch>, n: nat, sel: Selection, k: Kind, spoilAt: int)
    requires k != sel.kind || (sel.SpoiledBy? && spoilAt > sel.tick)
    ensures Amount(Remaining(food, n, sel), k, spoilAt) == Amount(food, k, spoilAt)
  {
    if food != [] {
      OthersUntouched(Front(food), n, sel, k, spoilAt);
      var t := Share(Last(food), n - Taken(Front(food), n, sel), sel);
      LeftAmounts(Remaining(Front(food), n, sel), Last(food), t, k, spoilAt);
    }
  }

  // ---- adding ----

  /** The position of the batch with `b`'s key; the length when there is none. */
  function KeyIndex(food: seq<Batch>, b: Batch): (i: nat)
    ensures i <= |food| && (i < |food| ==> SameKey(food[i], b))
    ensures forall j :: 0 <= j < i ==> !SameKey(food[j], b)
  {
    if food == [] then 0
    else
      var i := KeyIndex(Front(food), b);
      if i < |food| - 1 then i else if SameKey(Last(food), b) then i else |food|
  }

  /** A batch joins the batch with its key, or goes last. */
  function Merge(food: seq<Batch>, b: Batch): seq<Batch> {
    var i := KeyIndex(food, b);
    if i < |food| then food[i := food[i].(n := food[i].n + b.n)] else food + [b]
  }

  /** addFood on a value. */
  function AddFood(food: seq<Batch>, k: Kind, n: int, spoilAt: int): seq<Batch> {
    if n <= 0 then food else Merge(food, Batch(k, n, spoilAt))
  }

  lemma {:induction false} UpdateAmounts(food: seq<Batch>, i: nat, more: nat, k: Kind, spoilAt: int)
    requires i < |food|
    ensures var food' := food[i := food[i].(n := food[i].n + more)];
            FoodOf(food', k) == FoodOf(food, k) + (if food[i].kind == k then more else 0) &&
            Amount(food', k, spoilAt) == Amount(food, k, spoilAt) + if HasKey(food[i], k, spoilAt) then more else 0
  {
    var food' := food[i := food[i].(n := food[i].n + more)];
    if i < |food| - 1 {
      UpdateAmounts(Front(food), i, more, k, spoilAt);
      assert Front(food') == Front(food)[i := food[i].(n := food[i].n + more)];
    } else {
      assert Front(food') == Front(food);
    }
  }

  /** Adding `n` units raises that kind's and that key's amount by exactly `n`, and nothing else. */
  lemma AddFoodAmounts(food: seq<Batch>, kind: Kind, n: int, at: int, k: Kind, spoilAt: int)
    ensures var gain := if n > 0 then n else 0;
            FoodOf(AddFood(food, kind, n, at), k) == FoodOf(food, k) + (if k == kind then gain else 0) &&
            Amount(AddFood(food, kind, n, at), k, spoilAt)
              == Amount(food, k, spoilAt) + if k == kind && spoilAt == at then gain else 0
  {
    if n > 0 {
      var b := Batch(kind, n, at);
      var i := KeyIndex(food, b);
      if i < |food| {
        UpdateAmounts(food, i, n, k, spoilAt);
      } else {
        AppendAmounts(food, b, k, spoilAt);
      }
    }
  }

  lemma AddFoodOk(food: seq<Batch>, kind: Kind, n: int, at: int)
    requires FoodOk(food)
    ensures FoodOk(AddFood(food, kind, n, at))
  {
    if n > 0 {
      var b := Batch(kind, n, at);
      if KeyIndex(food, b) == |food| {
        FoodOkAppend(food, b);
      }
    }
  }

  // ---- seen on the batches ----

  lemma {:induction false} NoAmountOfAbsentKey(food: seq<Batch>, k: Kind, spoilAt: int)
    requires forall b :: b in food ==> !HasKey(b, k, spoilAt)
    ensures Amount(food, k, spoilAt) == 0
  {
    if food != [] {
      NoAmountOfAbsentKey(Front(food), k, spoilAt);
      assert Last(food) in food;
    }
  }

  /** With unique keys the amount of a batch's key is that batch's count. */
  lemma {:induction false} AmountOfBatch(food: seq<Batch>, i: nat)
    requires UniqueKeys(food) && i < |food|
    ensures Amount(food, food[i].kind, food[i].spoilAt) == food[i].n
  {
    if i < |food| - 1 {
      AmountOfBatch(Front(food), i);
    } else {
      forall b | b in Front(food)
        ensures !HasKey(b, food[i].kind, food[i].spoilAt)
      {
        var j :| 0 <= j < |Front(food)| && Front(food)[j] == b;
        assert !SameKey(food[j], food[i]);
      }
      NoAmountOfAbsentKey(Front(food), food[i].kind, food[i].spoilAt);
    }
  }

  lemma EarlierAmountLeft(food: seq<Batch>, n: nat, sel: Selection, i: nat)
    requires UniqueKeys(food) && i < |food| - 1
    ensures Amount(Remaining(food, n, sel), food[i].kind, food[i].spoilAt)
         == Amount(Remaining(Front(food), n, sel), food[i].kind, food[i].spoilAt)
  {
    hide Amount, Share, Taken, Remaining;
    var t := Share(Last(food), n - Taken(Front(food), n, sel), sel);
    assert food == Front(food) + [Last(food)];
    RemainingAppend(Front(food), Last(food), n, sel);
    LeftAmounts(Remaining(Front(food), n, sel), Last(food), t, food[i].kind, food[i].spoilAt);
    assert !SameKey(food[i], food[|food| - 1]);
  }

  lemma LastAmountLeft(food: seq<Batch>, n: nat, sel: Selection)
    requires UniqueKeys(food) && food != []
    ensures Amount(Remaining(food, n, sel), Last(food).kind, Last(food).spoilAt)
         == Kept(Last(food), EligibleOf(Front(food), sel), n, sel)
  {
    var front, b := Front(food), Last(food);
    var t := Share(b, n - Taken(front, n, sel), sel);
    RemovalIsOldestFirst(front, n, sel);
    assert b.n - t == Kept(b, EligibleOf(front, sel), n, sel);
    hide Kept, Share, Taken, EligibleOf, Amount;
    LeftAmounts(Remaining(front, n, sel), b, t, b.kind, b.spoilAt);
    forall a | a in Remaining(front, n, sel)
      ensures !HasKey(a, b.kind, b.spoilAt)
    {
      RemainingKeys(front, n, sel, a);
      var c :| c in front && SameKey(c, a);
      var j :| 0 <= j < |front| && front[j] == c;
      assert !SameKey(food[j], food[|food| - 1]);
    }
    NoAmountOfAbsentKey(Remaining(front, n, sel), b.kind, b.spoilAt);
  }

  /** What a removal leaves of a batch is what its own position decides. */
  lemma {:induction false} AmountLeft(food: seq<Batch>, n: nat, sel: Selection, i: nat)
    requires UniqueKeys(food) && i < |food|
    ensures Amount(Remaining(food, n, sel), food[i].kind, food[i].spoilAt)
         == Kept(food[i], EligibleOf(food[..i], sel), n, sel)
  {
    hide Amount, Remaining, Kept, EligibleOf;
    if i < |food| - 1 {
      EarlierAmountLeft(food, n, sel, i);
      AmountLeft(Front(food), n, sel, i);
      assert Front(food)[..i] == food[..i];
    } else {
      LastAmountLeft(food, n, sel);
      assert food[..i] == Front(food);
    }
  }

  lemma {:induction false} EligibleUpTo(food: seq<Batch>, sel: Selection, i: nat, j: nat)
    requires i < j <= |food|
    ensures EligibleOf(food[..j], sel) >= EligibleOf(food[..i], sel) + if Eligible(sel, food[i]) then food[i].n else 0
  {
    assert Front(food[..j]) == food[..j - 1];
    if i < j - 1 {
      EligibleUpTo(food, sel, i, j - 1);
    }
  }

  /** Oldest first: as long as anything is left of an eligible batch, no later batch has lost anything; and a batch
      loses something only if it is of the kind, and spoiled when only spoiled food is taken. */
  lemma OldestGoFirst(food: seq<Batch>, n: nat, sel: Selection, i: nat, j: nat)
    requires UniqueKeys(food) && i < j < |food|
    ensures var left := Remaining(food, n, sel);
            && (Eligible(sel, food[i]) && Amount(left, food[i].kind, food[i].spoilAt) > 0 ==>
                  Amount(left, food[j].kind, food[j].spoilAt) == food[j].n)
            && (Amount(left, food[i].kind, food[i].spoilAt) < food[i].n ==>
                  food[i].kind == sel.kind && (sel.SpoiledBy? ==> food[i].spoilAt <= sel.tick))
  {
    AmountLeft(food, n, sel, i);
    AmountLeft(food, n, sel, j);
    EligibleUpTo(food, sel, i, j);
  }

  /** A removal that takes less than was asked has left nothing it could have taken: no food of the kind, or none
      whose deadline has come when only spoiled food goes. */
  lemma {:induction false} ShortOnlyWhenNoneIsLeft(food: seq<Batch>, n: nat, sel: Selection, b: Batch)
    requires Taken(food, n, sel) < n && b in Remaining(food, n, sel)
    ensures b.kind != sel.kind || (sel.SpoiledBy? && sel.tick < b.spoilAt)
  {
    var front := Front(food);
    if b in Remaining(front, n, sel) {
      ShortOnlyWhenNoneIsLeft(front, n, sel, b);
    }
  }

  /** The batches left are in the order they were in. */
  lemma {:induction false} RemainingInOrder(food: seq<Batch>, n: nat, sel: Selection, a: nat, b: nat)
    requires a < b < |Remaining(food, n, sel)|
    ensures exists i, j :: 0 <= i < j < |food| &&
              SameKey(food[i], Remaining(food, n, sel)[a]) && SameKey(food[j], Remaining(food, n, sel)[b])
  {
    var left, earlier := Remaining(food, n, sel), Remaining(Front(food), n, sel);
    assert earlier == left[..|earlier|];
    if b < |earlier| {
      RemainingInOrder(Front(food), n, sel, a, b);
      var i, j :| 0 <= i < j < |Front(food)| && SameKey(Front(food)[i], earlier[a]) && SameKey(Front(food)[j], earlier[b]);
      assert SameKey(food[i], left[a]) && SameKey(food[j], left[b]);
    } else {
      RemainingKeys(Front(food), n, sel, earlier[a]);
      var c :| c in Front(food) && SameKey(c, earlier[a]);
      var i :| 0 <= i < |Front(food)| && Front(food)[i] == c;
      assert SameKey(food[i], left[a]) && SameKey(food[|food| - 1], left[b]);
    }
  }

  /** Adding leaves every batch in its place with its key; a new key goes last. */
  lemma AddFoodInPlace(food: seq<Batch>, k: Kind, n: int, spoilAt: int)
    ensures var more := AddFood(food, k, n, spoilAt);
            && |food| <= |more| <= |food| + 1
            && (forall i :: 0 <= i < |food| ==> SameKey(more[i], food[i]))
            && (|more| > |food| ==> HasKey(more[|food|], k, spoilAt) && forall b :: b in food ==> !HasKey(b, k, spoilAt))
  {
    if n > 0 {
      var b := Batch(k, n, spoilAt);
      var i := KeyIndex(food, b);
      forall a | a in food && i == |food|
        ensures !HasKey(a, k, spoilAt)
      {
        var j :| 0 <= j < |food| && food[j] == a;
        assert !SameKey(food[j], b);
      }
    }
  }

  // ---- a pile ----

  datatype Pile = Pile(x: int, y: int, materials: Counts, spears: seq<int>, axes: seq<int>, food: seq<Batch>)

  function Avail(p: Pile, k: Kind): nat {
    if k.Spears? then |p.spears|
    else if k.Axes? then |p.axes|
    else if IsFood(k) then FoodOf(p.food, k)
    else if IsMaterial(k) then Get(p.materials, k)
    else 0
  }

  function AddNonFood(c: Counts, k: Kind, n: int): Counts {
    if n > 0 && IsMaterial(k) then c[k := Get(c, k) + n] else c
  }

  /** The clamped amount a removal of `n` takes from `have`. */
  function Clamp(n: int, have: nat): (t: nat)
    ensures t <= have
  {
    if n <= 0 then 0 else Min(n, have)
  }

  function TakeNonFood(p: Pile, k: Kind, n: int): (Pile, nat) {
    var t := Clamp(n, Avail(p, k));
    (if t > 0 && IsMaterial(k) then p.(materials := p.materials[k := Get(p.materials, k) - t]) else p, t)
  }

  /** The slice after a removal has read its first `i` batches: the survivors stand in front of `w`, the
      unread batches are untouched. */
  predicate Compacted(was: seq<Batch>, now: seq<Batch>, i: nat, w: nat, taken: nat, n: nat, sel: Selection) {
    && |now| == |was| && w <= i <= |was|
    && now[i..] == was[i..]
    && now[..w] == Remaining(was[..i], n, sel)
    && taken == Taken(was[..i], n, sel)
  }

  lemma RemainingAppend(read: seq<Batch>, b: Batch, n: nat, sel: Selection)
    ensures Taken(read + [b], n, sel) == Taken(read, n, sel) + Share(b, n - Taken(read, n, sel), sel)
    ensures Remaining(read + [b], n, sel)
         == Remaining(read, n, sel) + Left(b, Share(b, n - Taken(read, n, sel), sel))
  {
    assert Front(read + [b]) == read;
  }

  /** Reading one batch and writing one back disturbs neither the survivors nor the batches to come. */
  lemma SliceWritten(was: seq<Batch>, now: seq<Batch>, i: nat, w: nat, b: Batch)
    requires |now| == |was| && w <= i < |was| && now[i..] == was[i..]
    ensures now[i] == was[i] && now[i + 1..] == was[i + 1..] && now[w := b][i + 1..] == was[i + 1..]
    ensures now[w := b][..w + 1] == now[..w] + [b] && was[..i + 1] == was[..i] + [was[i]]
  {
    assert now[i] == now[i..][0] == was[i];
    assert now[i + 1..] == now[i..][1..] == was[i..][1..] == was[i + 1..];
  }

  lemma CompactStep(was: seq<Batch>, now: seq<Batch>, i: nat, w: nat, taken: nat, n: nat, sel: Selection)
    requires i < |was| && Compacted(was, now, i, w, taken, n, sel)
    ensures var t := Share(now[i], n - taken, sel);
            if now[i].n > t then
              Compacted(was, now[w := now[i].(n := now[i].n - t)], i + 1, w + 1, taken + t, n, sel)
            else Compacted(was, now, i + 1, w, taken + t, n, sel)
  {
    hide Remaining, Taken, Share;
    var t := Share(now[i], n - taken, sel);
    SliceWritten(was, now, i, w, now[i].(n := now[i].n - t));
    RemainingAppend(was[..i], was[i], n, sel);
    if now[i].n <= t {
      assert now[..w] + [] == now[..w];
    }
  }

  lemma CompactEnd(was: seq<Batch>, now: seq<Batch>, w: nat, taken: nat, n: nat, sel: Selection)
    requires Compacted(was, now, |was|, w, taken, n, sel)
    ensures now[..w] == Remaining(was, n, sel) && taken == Taken(was, n, sel)
  {
    assert was[..|was|] == was;
  }

  /** Takes from the batch at `i` what is still wanted, and writes the batch back at `w` unless that
      empties it. */
  method WriteBack(food: array<Batch>, len: nat, left: nat, sel: Selection, w: nat, i: nat) returns (w': nat, t: nat)
    requires w <= i < len <= food.Length
    modifies food
    ensures t == Share(old(food[i]), left, sel)
    ensures w' == if old(food[i].n) > t then w + 1 else w
    ensures food[..len] == if old(food[i].n) > t then old(food[..len])[w := old(food[i]).(n := old(food[i].n) - t)]
                           else old(food[..len])
  {
    var b := food[i];
    w', t := w, 0;
    if b.kind == sel.kind && (sel.SpoiledBy? ==> b.spoilAt <= sel.tick) && left > 0 {
      t := b.n;
      if t > left {
        t := left;
      }
      b := b.(n := b.n - t);
    }
    if b.n > 0 {
      food[w] := b;
      w' := w + 1;
    }
  }

  /** One pass that writes each surviving batch back into the slice it reads, never ahead of the read
      position. */
  method Compact(food: array<Batch>, len: nat, n: nat, sel: Selection) returns (w: nat, taken: nat)
    requires len <= food.Length
    modifies food
    ensures w <= len && Compacted(old(food[..len]), food[..len], len, w, taken, n, sel)
  {
    hide Share;
    ghost var was := food[..len];
    w, taken := 0, 0;
    for i := 0 to len
      invariant Compacted(was, food[..len], i, w, taken, n, sel)
    {
      CompactStep(was, food[..len], i, w, taken, n, sel);
      var t;
      w, t := WriteBack(food, len, n - taken, sel, w, i);
      taken := taken + t;
    }
  }

  class GroundPile {
    const x: int
    const y: int
    var materials: Counts
    var spears: seq<int>
    var axes: seq<int>
    var food: array<Batch>
    var len: nat

    ghost predicate Valid()
      reads this
    {
      len <= food.Length
    }

    ghost function View(): Pile
      requires Valid()
      reads this, food
    {
      Pile(x, y, materials, spears, axes, food[..len])
    }

    constructor (px: int, py: int)
      ensures Valid() && fresh(food) && View() == Pile(px, py, map[], [], [], [])
    {
      x, y, materials, spears, axes, len := px, py, map[], [], [], 0;
      food := new Batch[4](_ => Batch(FoodRaw, 0, 0));
    }

    method Available(kind: Kind) returns (n: nat)
      requires Valid()
      ensures n == Avail(View(), kind)
    {
      if kind.Spears? {
        return |spears|;
      }
      if kind.Axes? {
        return |axes|;
      }
      if IsMaterial(kind) {
        return Get(materials, kind);
      }
      n := 0;
      if IsFood(kind) {
        for i := 0 to len
          invariant n == FoodOf(food[..i], kind)
        {
          assert Front(food[..i + 1]) == food[..i];
          if food[i].kind == kind {
            n := n + food[i].n;
          }
        }
      }
    }

    /** A batch with the identical kind and deadline absorbs the count; otherwise a batch is appended. */
    method Add(kind: Kind, n: int, spoilAt: int)
      requires Valid()
      modifies this`food, this`len, food
      ensures Valid() && (food == old(food) || fresh(food))
      ensures View() == old(View()).(food := AddFood(old(View()).food, kind, n, spoilAt))
    {
      if n <= 0 {
        return;
      }
      ghost var was := food[..len];
      var b := Batch(kind, n, spoilAt);
      for i := 0 to len
        invariant food[..len] == was
        invariant forall j :: 0 <= j < i ==> !SameKey(was[j], b)
      {
        if food[i].kind == kind && food[i].spoilAt == spoilAt {
          food[i] := food[i].(n := food[i].n + n);
          assert KeyIndex(was, b) == i;
          assert food[..len] == was[i := was[i].(n := was[i].n + n)];
          return;
        }
      }
      assert KeyIndex(was, b) == len;
      Append(b);
    }

    /** The batch slice grows like an append: in place while there is room, into a larger array after. */
    method Append(b: Batch)
      requires Valid()
      modifies this`food, this`len, food
      ensures Valid() && (food == old(food) || fresh(food))
      ensures View() == old(View()).(food := old(View()).food + [b])
    {
      if len == food.Length {
        var bigger := new Batch[2 * len + 1](_ => b);
        forall i | 0 <= i < len {
          bigger[i] := food[i];
        }
        assert bigger[..len] == food[..len];
        food := bigger;
      }
      food[len] := b;
      len := len + 1;
    }

    /** takeFood and takeSpoiled. */
    method TakeBatches(n: int, sel: Selection) returns (taken: nat)
      requires Valid()
      modifies this`len, food
      ensures Valid()
      ensures taken == if n <= 0 then 0 else Taken(old(View()).food, n, sel)
      ensures View() == old(View()).(food := if n <= 0 then old(View()).food else Remaining(old(View()).food, n, sel))
    {
      if n <= 0 {
        return 0;
      }
      ghost var was := food[..len];
      var w;
      w, taken := Compact(food, len, n, sel);
      CompactEnd(was, food[..len], w, taken, n, sel);
      assert food[..w] == food[..len][..w];
      len := w;
    }

    method TakeMaterial(kind: Kind, n: int) returns (taken: nat)
      requires Valid()
      modifies this`materials
      ensures Valid() && (View(), taken) == TakeNonFood(old(View()), kind, n)
    {
      var a := Available(kind);
      var m := n;
      if m > a {
        m := a;
      }
      if m <= 0 {
        return 0;
      }
      if IsMaterial(kind) {
        materials := materials[kind := Get(materials, kind) - m];
      }
      return m;
    }

    /** takeSpears: the front of the ascending uses, the most worn ones, leaves. */
    method TakeSpears(n: int) returns (taken: seq<int>)
      requires Valid()
      modifies this`spears
      ensures Valid() && taken == old(spears)[..Clamp(n, |old(spears)|)]
      ensures View() == old(View()).(spears := old(spears)[Clamp(n, |old(spears)|)..])
    {
      var m := n;
      if m > |spears| {
        m := |spears|;
      }
      if m <= 0 {
        return [];
      }
      taken := spears[..m];
      spears := spears[m..];
    }
  }
}
