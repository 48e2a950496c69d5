/** The working-memory window (SelectMemories in internal/sim/memory.go). Memories are named by their
    position, oldest first; the draws of the random source are an arbitrary stream.
  */
module WorkingMemory {

  const TAIL_PICKS := 2
  const TRIES := 8
  const HALF_LIFE_TICKS := 86400

  datatype Memory = Memory(salience: int, tick: int)

  // ---- scores ----

  function Halved(w: real, times: nat): real {
    if times == 0 then w else Halved(w, times - 1) / 2.0
  }

  function Age(m: Memory, tick: int): nat {
    if tick < m.tick then 0 else tick - m.tick
  }

  /** Salience, halved for every whole day of age. */
  function Score(m: Memory, tick: int): real {
    Halved(m.salience as real, Age(m, tick) / HALF_LIFE_TICKS)
  }

  /** A memory scores its salience for its first day and in the future, and exactly half a day later. */
  lemma DayHalves(m: Memory, tick: int)
    ensures tick < m.tick + 86400 ==> Score(m, tick) == m.salience as real
    ensures tick >= m.tick ==> 2.0 * Score(m, tick + 86400) == Score(m, tick)
  {
    if tick >= m.tick {
      assert Age(m, tick + 86400) / HALF_LIFE_TICKS == Age(m, tick) / HALF_LIFE_TICKS + 1;
    }
  }

  method ScoreOf(m: Memory, tick: int) returns (w: real)
    ensures w == Score(m, tick)
  {
    var age := tick - m.tick;
    if age < 0 {
      age := 0;
    }
    w := m.salience as real;
    var d := age / HALF_LIFE_TICKS;
    while d > 0
      invariant 0 <= d <= age / HALF_LIFE_TICKS
      invariant w == Halved(m.salience as real, age / HALF_LIFE_TICKS - d)
    {
      w := w / 2.0;
      d := d - 1;
    }
  }

  // ---- orders ----

  /** `i` comes before `j` among scored memories: higher score, then newer, then earlier position. */
  predicate Ranks(ms: seq<Memory>, tick: int, i: nat, j: nat)
    requires i < |ms| && j < |ms|
  {
    var si, sj := Score(ms[i], tick), Score(ms[j], tick);
    si > sj || (si == sj && (ms[i].tick > ms[j].tick || (ms[i].tick == ms[j].tick && i < j)))
  }

  predicate Positions(ms: seq<Memory>, s: seq<nat>) {
    forall a :: 0 <= a < |s| ==> s[a] < |ms|
  }

  predicate Distinct(s: seq<nat>) {
    forall a, b :: 0 <= a < b < |s| ==> s[a] != s[b]
  }

  predicate Ranked(ms: seq<Memory>, tick: int, s: seq<nat>)
    requires Positions(ms, s)
  {
    forall a, b :: 0 <= a < b < |s| ==> Ranks(ms, tick, s[a], s[b])
  }

  predicate NewestFirst(ms: seq<Memory>, s: seq<nat>)
    requires Positions(ms, s)
  {
    forall a, b :: 0 <= a < b < |s| ==> ms[s[a]].tick >= ms[s[b]].tick
  }

  /** The library's stable sort by rank, as an insertion. */
  function InsertByRank(ms: seq<Memory>, tick: int, x: nat, s: seq<nat>): (r: seq<nat>)
    requires x < |ms| && Positions(ms, s) && Ranked(ms, tick, s) && x !in s
    ensures Positions(ms, r) && Ranked(ms, tick, r) && |r| == |s| + 1
    ensures forall y :: y in r <==> y == x || y in s
  {
    if s == [] then [x]
    else if Ranks(ms, tick, x, s[0]) then
      [x] + s
    else
      var rest := InsertByRank(ms, tick, x, s[1..]);
      assert forall y :: y in rest ==> Ranks(ms, tick, s[0], y) by {
        assert forall b :: 0 < b < |s| ==> Ranks(ms, tick, s[0], s[b]);
      }
      assert s == [s[0]] + s[1..];
      [s[0]] + rest
  }

  function ByRank(ms: seq<Memory>, tick: int, n: nat): (r: seq<nat>)
    requires n <= |ms|
    ensures Positions(ms, r) && Ranked(ms, tick, r) && |r| == n
    ensures forall y :: y in r <==> 0 <= y < n
  {
    if n == 0 then [] else InsertByRank(ms, tick, n - 1, ByRank(ms, tick, n - 1))
  }

  /** The stable sort that puts the newest first. */
  function InsertByTick(ms: seq<Memory>, x: nat, s: seq<nat>): (r: seq<nat>)
    requires x < |ms| && Positions(ms, s) && NewestFirst(ms, s)
    ensures Positions(ms, r) && NewestFirst(ms, r) && |r| == |s| + 1
    ensures forall y :: y in r <==> y == x || y in s
  {
    if s == [] then [x]
    else if ms[x].tick >= ms[s[0]].tick then [x] + s
    else
      var rest := InsertByTick(ms, x, s[1..]);
      assert forall y :: y in rest ==> ms[s[0]].tick >= ms[y].tick by {
        assert forall b :: 0 < b < |s| ==> ms[s[0]].tick >= ms[s[b]].tick;
      }
      assert s == [s[0]] + s[1..];
      [s[0]] + rest
  }

  lemma {:induction false} InsertByTickDistinct(ms: seq<Memory>, x: nat, s: seq<nat>)
    requires x < |ms| && Positions(ms, s) && NewestFirst(ms, s) && Distinct(s) && x !in s
    ensures Distinct(InsertByTick(ms, x, s))
  {
    if s != [] && ms[x].tick < ms[s[0]].tick {
      InsertByTickDistinct(ms, x, s[1..]);
      assert s[0] !in s[1..];
    }
  }

  function ByTick(ms: seq<Memory>, s: seq<nat>): (r: seq<nat>)
    requires Positions(ms, s)
    ensures Positions(ms, r) && NewestFirst(ms, r) && |r| == |s|
    ensures forall y :: y in r <==> y in s
  {
    if s == [] then []
    else
      assert s == [s[0]] + s[1..];
      InsertByTick(ms, s[0], ByTick(ms, s[1..]))
  }

  lemma {:induction false} ByTickDistinct(ms: seq<Memory>, s: seq<nat>)
    requires Positions(ms, s) && Distinct(s)
    ensures Distinct(ByTick(ms, s))
  {
    if s != [] {
      assert s[0] !in s[1..];
      ByTickDistinct(ms, s[1..]);
      InsertByTickDistinct(ms, s[0], ByTick(ms, s[1..]));
    }
  }

  // ---- the window ----

  function Taken(k: int): nat {
    if k <= TAIL_PICKS then 0 else k - TAIL_PICKS
  }

  /** What a window of more memories than `k` may be: the best k-2, and at most two others from the older
      half of the list. */
  predicate BestAndTail(ms: seq<Memory>, tick: int, k: int, out: seq<nat>) {
    var best := ByRank(ms, tick, |ms|);
    Taken(k) <= |ms| &&
    (forall x :: x in best[..Taken(k)] ==> x in out) &&
    (forall x :: x in out && x !in best[..Taken(k)] ==> x < |ms| / 2)
  }

  predicate IsWindow(ms: seq<Memory>, tick: int, k: int, out: seq<nat>) {
    && Positions(ms, out) && Distinct(out) && NewestFirst(ms, out)
    && |out| <= (if k < 0 then 0 else k)
    && (0 < |ms| <= k ==> forall x :: 0 <= x < |ms| ==> x in out)
    && (2 <= k < |ms| ==> BestAndTail(ms, tick, k, out) && |out| >= k - TAIL_PICKS)
    && (k == 1 < |ms| ==> forall x :: x in out ==> x < |ms| / 2)
  }

  // ---- the serendipity picks ----

  /** The position the `u`-th draw after `from` falls on. */
  function Drawn(draw: nat -> nat, from: nat, u: nat, oldHalf: nat): nat
    requires oldHalf > 0
  {
    draw(from + u) % oldHalf
  }

  /** One tail pick from the `u`-th of its eight draws on: the first position not picked yet, or -1, and the
      draws used. */
  function Pick(picked: seq<nat>, draw: nat -> nat, from: nat, oldHalf: nat, u: nat): (r: (int, nat))
    requires oldHalf > 0 && u <= TRIES
    ensures r.0 == -1 || (0 <= r.0 < oldHalf && r.0 !in picked)
    decreases TRIES - u
  {
    if u == TRIES then (-1, u)
    else if Drawn(draw, from, u, oldHalf) !in picked then (Drawn(draw, from, u, oldHalf), u + 1)
    else Pick(picked, draw, from, oldHalf, u + 1)
  }

  /** `t` more tail picks. */
  function Tail(chosen: seq<nat>, draw: nat -> nat, from: nat, oldHalf: nat, t: nat): seq<nat>
    requires oldHalf > 0
    decreases t
  {
    if t == 0 then chosen
    else
      var (pick, used) := Pick(chosen, draw, from, oldHalf, 0);
      Tail(if pick >= 0 then chosen + [pick] else chosen, draw, from + used, oldHalf, t - 1)
  }

  /** Up to eight draws for one tail pick; a position already picked is drawn again. */
  method PickTail(picked: seq<nat>, draw: nat -> nat, from: nat, oldHalf: nat) returns (pick: int, used: nat)
    requires oldHalf > 0
    ensures (pick, used) == Pick(picked, draw, from, oldHalf, 0)
    ensures pick == -1 || (0 <= pick < oldHalf && pick !in picked)
    ensures (exists u: nat :: u < TRIES && Drawn(draw, from, u, oldHalf) !in picked) <==> pick >= 0
  {
    used := 0;
    while used < TRIES
      invariant used <= TRIES
      invariant Pick(picked, draw, from, oldHalf, used) == Pick(picked, draw, from, oldHalf, 0)
      invariant forall u: nat :: u < used ==> Drawn(draw, from, u, oldHalf) in picked
    {
      var i := Drawn(draw, from, used, oldHalf);
      used := used + 1;
      if i !in picked {
        return i, used;
      }
    }
    return -1, used;
  }

  /** `chosen` is `top` and at most `t` picks of the older half, none twice. */
  predicate TailOf(ms: seq<Memory>, top: seq<nat>, chosen: seq<nat>, oldHalf: nat, t: nat) {
    && |top| <= |chosen| <= |top| + t && chosen[..|top|] == top
    && Positions(ms, chosen) && Distinct(chosen)
    && forall a :: |top| <= a < |chosen| ==> chosen[a] < oldHalf
  }

  lemma OneMore(ms: seq<Memory>, top: seq<nat>, chosen: seq<nat>, oldHalf: nat, t: nat, pick: nat)
    requires TailOf(ms, top, chosen, oldHalf, t) && pick < oldHalf <= |ms| && pick !in chosen
    ensures TailOf(ms, top, chosen + [pick], oldHalf, t + 1)
  {
  }

  lemma {:induction false} TailPicks(ms: seq<Memory>, top: seq<nat>, chosen: seq<nat>, draw: nat -> nat, from: nat,
                                     oldHalf: nat, done: nat, t: nat)
    requires 0 < oldHalf <= |ms| && TailOf(ms, top, chosen, oldHalf, done)
    ensures TailOf(ms, top, Tail(chosen, draw, from, oldHalf, t), oldHalf, done + t)
    decreases t
  {
    hide TailOf, Pick;
    if t > 0 {
      var (pick, used) := Pick(chosen, draw, from, oldHalf, 0);
      if pick >= 0 {
        OneMore(ms, top, chosen, oldHalf, done, pick);
        TailPicks(ms, top, chosen + [pick], draw, from + used, oldHalf, done + 1, t - 1);
      } else {
        NoneMore(ms, top, chosen, oldHalf, done);
        TailPicks(ms, top, chosen, draw, from + used, oldHalf, done + 1, t - 1);
      }
    } else {
      assert done + t == done;
    }
  }

  lemma NoneMore(ms: seq<Memory>, top: seq<nat>, chosen: seq<nat>, oldHalf: nat, t: nat)
    requires TailOf(ms, top, chosen, oldHalf, t)
    ensures TailOf(ms, top, chosen, oldHalf, t + 1)
  {
  }

  lemma JustTheTop(ms: seq<Memory>, top: seq<nat>, oldHalf: nat)
    requires Positions(ms, top) && Distinct(top)
    ensures TailOf(ms, top, top, oldHalf, 0)
  {
    assert top[..|top|] == top;
  }

  /** The serendipity picks: at most two positions of the older half, none of them already chosen. */
  method AddTail(ms: seq<Memory>, top: seq<nat>, draw: nat -> nat, oldHalf: nat) returns (chosen: seq<nat>)
    requires 0 < oldHalf <= |ms| && Positions(ms, top) && Distinct(top)
    ensures chosen == Tail(top, draw, 0, oldHalf, TAIL_PICKS) && TailOf(ms, top, chosen, oldHalf, TAIL_PICKS)
  {
    hide TailOf, Pick;
    chosen := top;
    var drawn := 0;
    for t := 0 to TAIL_PICKS
      invariant Tail(chosen, draw, drawn, oldHalf, TAIL_PICKS - t) == Tail(top, draw, 0, oldHalf, TAIL_PICKS)
    {
      var pick, used := PickTail(chosen, draw, drawn, oldHalf);
      drawn := drawn + used;
      if pick >= 0 {
        chosen := chosen + [pick];
      }
    }
    JustTheTop(ms, top, oldHalf);
    TailPicks(ms, top, top, draw, 0, oldHalf, 0, TAIL_PICKS);
  }

  // ---- the selection ----

  lemma TopDistinct(ms: seq<Memory>, tick: int, n: nat)
    requires n <= |ms|
    ensures Positions(ms, ByRank(ms, tick, |ms|)[..n]) && Distinct(ByRank(ms, tick, |ms|)[..n])
  {
  }

  function Everyone(ms: seq<Memory>): (all: seq<nat>)
    ensures Positions(ms, all)
  {
    seq(|ms|, i => i)
  }

  function TopAndTail(ms: seq<Memory>, tick: int, k: int, draw: nat -> nat): (chosen: seq<nat>)
    requires 0 < k < |ms|
    ensures Positions(ms, chosen)
  {
    var top := ByRank(ms, tick, |ms|)[..Taken(k)];
    TopDistinct(ms, tick, Taken(k));
    JustTheTop(ms, top, |ms| / 2);
    TailPicks(ms, top, top, draw, 0, |ms| / 2, 0, TAIL_PICKS);
    Tail(top, draw, 0, |ms| / 2, TAIL_PICKS)
  }

  /** The positions a window of `k` presents, for these draws. */
  function Window(ms: seq<Memory>, tick: int, k: int, draw: nat -> nat): seq<nat> {
    if ms == [] || k <= 0 then []
    else if |ms| <= k then ByTick(ms, Everyone(ms))
    else
      var out := ByTick(ms, TopAndTail(ms, tick, k, draw));
      if |out| > k then out[..k] else out
  }

  method SelectMemories(ms: seq<Memory>, tick: int, k: int, draw: nat -> nat) returns (out: seq<nat>)
    ensures out == Window(ms, tick, k, draw) && IsWindow(ms, tick, k, out)
  {
    hide IsWindow, Ranked, NewestFirst, Tail;
    WindowIsWindow(ms, tick, k, draw);
    var n := |ms|;
    if n == 0 || k <= 0 {
      return [];
    }
    if n <= k {
      return ByTick(ms, Everyone(ms));
    }
    var best := ByRank(ms, tick, n);
    var take := k - TAIL_PICKS;
    var top: seq<nat> := [];
    for i := 0 to if take < 0 then 0 else take
      invariant top == best[..i]
    {
      top := top + [best[i]];
    }
    TopDistinct(ms, tick, Taken(k));
    var chosen := AddTail(ms, top, draw, n / 2);
    out := ByTick(ms, chosen);
    if |out| > k {
      out := out[..k];
    }
  }

  lemma WindowIsWindow(ms: seq<Memory>, tick: int, k: int, draw: nat -> nat)
    ensures IsWindow(ms, tick, k, Window(ms, tick, k, draw))
  {
    if ms != [] && k > 0 {
      if |ms| <= k {
        AllMembers(ms, Everyone(ms));
      } else {
        TopAndTailFits(ms, tick, k, draw);
      }
    }
  }

  lemma TopAndTailFits(ms: seq<Memory>, tick: int, k: int, draw: nat -> nat)
    requires 0 < k < |ms|
    ensures IsWindow(ms, tick, k, Window(ms, tick, k, draw))
  {
    hide Tail, ByTick, ByRank;
    var chosen := TopAndTail(ms, tick, k, draw);
    var top := ByRank(ms, tick, |ms|)[..Taken(k)];
    TopDistinct(ms, tick, Taken(k));
    JustTheTop(ms, top, |ms| / 2);
    TailPicks(ms, top, top, draw, 0, |ms| / 2, 0, TAIL_PICKS);
    ByTickDistinct(ms, chosen);
    var out := ByTick(ms, chosen);
    WindowMembers(ms, tick, k, chosen, out);
    if |out| > k {
      Truncated(ms, tick, k, out);
    }
  }

  lemma AllMembers(ms: seq<Memory>, everyone: seq<nat>)
    requires |everyone| == |ms| && forall x :: 0 <= x < |ms| ==> everyone[x] == x
    ensures Positions(ms, everyone) && Distinct(ByTick(ms, everyone))
    ensures forall x :: 0 <= x < |ms| ==> x in ByTick(ms, everyone)
  {
    hide ByTick;
    ByTickDistinct(ms, everyone);
    forall x | 0 <= x < |ms|
      ensures x in ByTick(ms, everyone)
    {
      assert everyone[x] in everyone;
    }
  }

  /** Only a window of one is ever cut down, and it holds tail picks alone. */
  lemma Truncated(ms: seq<Memory>, tick: int, k: int, out: seq<nat>)
    requires k == 1 < |ms| && |out| > 1 && Positions(ms, out) && Distinct(out) && NewestFirst(ms, out)
    requires forall x :: x in out ==> x < |ms| / 2
    ensures IsWindow(ms, tick, k, out[..k])
  {
    assert forall x :: x in out[..k] ==> x in out;
  }

  lemma WindowMembers(ms: seq<Memory>, tick: int, k: int, chosen: seq<nat>, out: seq<nat>)
    requires 0 < k < |ms| && Positions(ms, chosen)
    requires Taken(k) <= |chosen| && chosen[..Taken(k)] == ByRank(ms, tick, |ms|)[..Taken(k)]
    requires forall a :: Taken(k) <= a < |chosen| ==> chosen[a] < |ms| / 2
    requires forall y :: y in out <==> y in chosen
    ensures BestAndTail(ms, tick, k, out)
    ensures k <= TAIL_PICKS ==> forall x :: x in out ==> x < |ms| / 2
  {
    var top := ByRank(ms, tick, |ms|)[..Taken(k)];
    assert forall x :: x in top ==> x in chosen[..Taken(k)];
    forall x | x in out && x !in top
      ensures x < |ms| / 2
    {
      var a :| 0 <= a < |chosen| && chosen[a] == x;
    }
  }

  /** The best k-2 really are the best: whatever is left out ranks behind each of them. */
  lemma BestAreBest(ms: seq<Memory>, tick: int, k: int, x: nat, y: nat)
    requires 2 <= k < |ms|
    requires x in ByRank(ms, tick, |ms|)[..Taken(k)] && y < |ms| && y !in ByRank(ms, tick, |ms|)[..Taken(k)]
    ensures x < |ms| && Ranks(ms, tick, x, y)
    ensures Score(ms[x], tick) >= Score(ms[y], tick)
    ensures Score(ms[x], tick) == Score(ms[y], tick) ==> ms[x].tick >= ms[y].tick
  {
    var best := ByRank(ms, tick, |ms|);
    var a :| 0 <= a < Taken(k) && best[a] == x;
    assert y in best;
    var b :| 0 <= b < |best| && best[b] == y;
  }

  // ---- does the best memory get in? ----

  lemma FirstRanksFirst(ms: seq<Memory>, tick: int, y: nat)
    requires y < |ms|
    ensures var best := ByRank(ms, tick, |ms|)[0];
            best < |ms| && (y != best ==> Ranks(ms, tick, best, y))
  {
    var best := ByRank(ms, tick, |ms|);
    assert y in best;
    var b :| 0 <= b < |best| && best[b] == y;
  }

  /** Windows of three and more always hold the best memory; smaller ones take nothing by score and can only
      draw it. */
  lemma BestIsKept(ms: seq<Memory>, tick: int, k: int, draw: nat -> nat)
    requires 0 < k < |ms|
    ensures var best := ByRank(ms, tick, |ms|)[0];
            if k > TAIL_PICKS then best in Window(ms, tick, k, draw)
            else forall x :: x in Window(ms, tick, k, draw) ==> x < |ms| / 2
  {
    WindowIsWindow(ms, tick, k, draw);
    var best := ByRank(ms, tick, |ms|);
    if k > TAIL_PICKS {
      assert best[..Taken(k)][0] == best[0];
    }
  }

  lemma DrawnOnlyOnce(ms: seq<Memory>, tick: int, k: int, x: nat)
    requires 0 < k <= TAIL_PICKS && k < |ms| && x < |ms| / 2
    ensures Window(ms, tick, k, _ => x) == [x]
  {
    hide ByRank, Pick, ByTick;
    var draw := (_: nat) => x;
    OneDraw(draw, |ms| / 2, x);
    assert TopAndTail(ms, tick, k, draw) == [x];
    OneByTick(ms, x);
  }

  lemma OneByTick(ms: seq<Memory>, x: nat)
    requires x < |ms|
    ensures ByTick(ms, [x]) == [x]
  {
    assert [x][1..] == [];
  }

  lemma OneDraw(draw: nat -> nat, oldHalf: nat, x: nat)
    requires x < oldHalf && forall u: nat :: draw(u) == x
    ensures Tail([], draw, 0, oldHalf, TAIL_PICKS) == [x]
  {
    assert forall u: nat :: Drawn(draw, 0, u, oldHalf) == x && Drawn(draw, 1, u, oldHalf) == x;
    assert Pick([], draw, 0, oldHalf, 0) == (x, 1);
    AllTriesFail([x], draw, 1, oldHalf, x, 0);
    hide Pick;
    assert [] + [x] == [x];
    assert Tail([x], draw, 1, oldHalf, 1) == Tail([x], draw, 1 + TRIES, oldHalf, 0);
  }

  lemma {:induction false} AllTriesFail(picked: seq<nat>, draw: nat -> nat, from: nat, oldHalf: nat, x: nat, u: nat)
    requires oldHalf > 0 && u <= TRIES && x in picked && forall v: nat :: Drawn(draw, from, v, oldHalf) == x
    ensures Pick(picked, draw, from, oldHalf, u) == (-1, TRIES)
    decreases TRIES - u
  {
    if u < TRIES {
      AllTriesFail(picked, draw, from, oldHalf, x, u + 1);
    }
  }

  /** There are draws for which the best memory is in the window if and only if the window has three places, or
      the best memory is in the older half. The callers ask for five and for ten. */
  lemma BestCanBeSeenIff(ms: seq<Memory>, tick: int, k: int)
    requires 0 < k < |ms|
    ensures var best := ByRank(ms, tick, |ms|)[0];
            (exists draw: nat -> nat :: best in Window(ms, tick, k, draw)) <==> k > TAIL_PICKS || best < |ms| / 2
  {
    hide ByRank, Window;
    var best := ByRank(ms, tick, |ms|)[0];
    forall draw: nat -> nat
      ensures if k > TAIL_PICKS then best in Window(ms, tick, k, draw)
              else best in Window(ms, tick, k, draw) ==> best < |ms| / 2
    {
      BestIsKept(ms, tick, k, draw);
    }
    if k > TAIL_PICKS {
      assert best in Window(ms, tick, k, _ => 0);
    } else if best < |ms| / 2 {
      DrawnOnlyOnce(ms, tick, k, best);
      assert best in Window(ms, tick, k, _ => best);
    }
  }

  const FADED: seq<Memory> := [Memory(1, 0), Memory(10, 5), Memory(3, 4)]

  /** A window of two that never shows the best memory, whatever is drawn. */
  lemma WindowOfTwoMissesTheBest(draw: nat -> nat)
    ensures ByRank(FADED, 5, 3)[0] == 1 && 1 !in Window(FADED, 5, 2, draw)
  {
    assert Score(FADED[0], 5) == 1.0 && Score(FADED[1], 5) == 10.0 && Score(FADED[2], 5) == 3.0;
    FirstRanksFirst(FADED, 5, 1);
    BestIsKept(FADED, 5, 2, draw);
  }
}
