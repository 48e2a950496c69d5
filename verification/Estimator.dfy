/** The live seconds-per-point estimate (internal/cognition/estimate.go): an average that follows
    normal samples, a ring of the last samples, and adoption of the ring's median once spikes persist.

    `Est` is the estimator without its ring: the estimate and the samples since the last adoption
    that are still in view. `Step` is one observation of it, and the class refines it.
  */
module Estimator {

  const EWMA_ALPHA: real := 0.2
  const SPIKE_FACTOR: real := 3.0
  const WINDOW_SIZE := 20
  const BREACH_RATE: real := 0.3

  datatype WindowSample = WindowSample(secPerPoint: real, spike: bool)

  datatype Adoption = Adoption(prior: real, adopted: real, spikeRate: real)

  datatype Verdict = NoBreach | Breach(adoption: Adoption)

  // ---- sorting, as the library sort leaves it ----

  predicate SortedReals(s: seq<real>) {
    forall i, j :: 0 <= i < j < |s| ==> s[i] <= s[j]
  }

  function InsertReal(x: real, s: seq<real>): (r: seq<real>)
    requires SortedReals(s)
    ensures SortedReals(r) && |r| == |s| + 1
    ensures r[0] == x || (s != [] && r[0] == s[0])
  {
    if s == [] then [x]
    else if x <= s[0] then [x] + s
    else [s[0]] + InsertReal(x, s[1..])
  }

  function SortReals(s: seq<real>): (r: seq<real>)
    ensures SortedReals(r) && |r| == |s|
  {
    if s == [] then [] else InsertReal(s[0], SortReals(s[1..]))
  }

  lemma {:induction false} InsertKeepsElements(x: real, s: seq<real>)
    requires SortedReals(s)
    ensures multiset(InsertReal(x, s)) == multiset(s) + multiset{x}
  {
    if s != [] && x > s[0] {
      InsertKeepsElements(x, s[1..]);
      assert s == [s[0]] + s[1..];
    }
  }

  lemma {:induction false} SortKeepsElements(s: seq<real>)
    ensures multiset(SortReals(s)) == multiset(s)
  {
    if s != [] {
      SortKeepsElements(s[1..]);
      InsertKeepsElements(s[0], SortReals(s[1..]));
      assert s == [s[0]] + s[1..];
    }
  }

  lemma LeastComesFirst(s: seq<real>, t: seq<real>)
    requires SortedReals(s) && s != [] && t != [] && t[0] in multiset(s)
    ensures s[0] <= t[0]
  {
    assert t[0] in s;
  }

  lemma TailElements(s: seq<real>)
    requires s != []
    ensures multiset(s[1..]) == multiset(s) - multiset{s[0]}
  {
    assert s == [s[0]] + s[1..];
  }

  /** A sorted sequence is determined by its elements. */
  lemma {:induction false} SortedUnique(s: seq<real>, t: seq<real>)
    requires SortedReals(s) && SortedReals(t) && |s| == |t| && multiset(s) == multiset(t)
    ensures s == t
  {
    if s != [] {
      assert t[0] in multiset(s) && s[0] in multiset(t) by {
        assert t[0] in multiset(t) && s[0] in multiset(s);
      }
      LeastComesFirst(s, t);
      LeastComesFirst(t, s);
      TailElements(s);
      TailElements(t);
      SortedUnique(s[1..], t[1..]);
      assert s == [s[0]] + s[1..] && t == [t[0]] + t[1..];
    }
  }

  // ---- the specification ----

  function Middle(sorted: seq<real>): real
    requires sorted != []
  {
    var n := |sorted|;
    if n % 2 == 1 then sorted[n / 2] else (sorted[n / 2 - 1] + sorted[n / 2]) / 2.0
  }

  function Median(vals: seq<real>): real
    requires vals != []
  {
    Middle(SortReals(vals))
  }

  function Spikes(recent: seq<WindowSample>): (n: nat)
    ensures n <= |recent|
  {
    if recent == [] then 0
    else (if recent[|recent| - 1].spike then 1 else 0) + Spikes(recent[..|recent| - 1])
  }

  function SpikeRate(recent: seq<WindowSample>): real {
    if recent == [] then 0.0 else Spikes(recent) as real / |recent| as real
  }

  function Values(recent: seq<WindowSample>): (vals: seq<real>)
    ensures |vals| == |recent|
  {
    seq(|recent|, i requires 0 <= i < |recent| => recent[i].secPerPoint)
  }

  /** The last at most WINDOW_SIZE entries. */
  function Newest(recent: seq<WindowSample>): seq<WindowSample> {
    if |recent| <= WINDOW_SIZE then recent else recent[|recent| - WINDOW_SIZE..]
  }

  datatype Est = Est(estimate: real, recent: seq<WindowSample>) {
    predicate Valid() {
      |recent| <= WINDOW_SIZE
    }
  }

  predicate IsSpike(estimate: real, v: real) {
    v > SPIKE_FACTOR * estimate
  }

  /** One observation, before any verdict. */
  function Observe(e: Est, v: real): (e': Est)
    requires e.Valid()
    ensures e'.Valid() && e'.recent != []
  {
    var spike := IsSpike(e.estimate, v);
    Est(if spike then e.estimate else (1.0 - EWMA_ALPHA) * e.estimate + EWMA_ALPHA * v,
        Newest(e.recent + [WindowSample(v, spike)]))
  }

  predicate Breaches(e: Est) {
    |e.recent| == WINDOW_SIZE && SpikeRate(e.recent) > BREACH_RATE
  }

  function Step(e: Est, v: real): (r: (Est, Verdict))
    requires e.Valid()
    ensures r.0.Valid()
  {
    var o := Observe(e, v);
    if Breaches(o) then
      var m := Median(Values(o.recent));
      (Est(m, []), Breach(Adoption(o.estimate, m, SpikeRate(o.recent))))
    else
      (o, NoBreach)
  }

  // ---- the ring ----

  lemma {:induction false} SpikesConcat(s: seq<WindowSample>, t: seq<WindowSample>)
    ensures Spikes(s + t) == Spikes(s) + Spikes(t)
  {
    if t == [] {
      assert s + t == s;
    } else {
      assert (s + t)[..|s + t| - 1] == s + t[..|t| - 1];
      SpikesConcat(s, t[..|t| - 1]);
    }
  }

  /** The median depends only on which values are in view, not on their order. */
  lemma MedianOfSameValues(v: seq<real>, w: seq<real>)
    requires v != [] && |v| == |w| && multiset(v) == multiset(w)
    ensures Median(v) == Median(w)
  {
    SortKeepsElements(v);
    SortKeepsElements(w);
    SortedUnique(SortReals(v), SortReals(w));
  }

  lemma ValuesConcat(s: seq<WindowSample>, t: seq<WindowSample>)
    ensures Values(s + t) == Values(s) + Values(t)
  {
  }

  lemma RotationKeepsMedian(s: seq<WindowSample>, k: nat)
    requires k <= |s| && s != []
    ensures Median(Values(s)) == Median(Values(s[k..] + s[..k]))
    ensures Spikes(s) == Spikes(s[k..] + s[..k])
  {
    var front, back := s[..k], s[k..];
    assert s == front + back;
    ValuesConcat(front, back);
    ValuesConcat(back, front);
    SpikesConcat(front, back);
    SpikesConcat(back, front);
    MedianOfSameValues(Values(front) + Values(back), Values(back) + Values(front));
  }

  /** The ring read oldest first: slots [0, wn) until it is full, then from the write position round. */
  function RingView(ring: seq<WindowSample>, wi: nat, wn: nat): (r: seq<WindowSample>)
    requires |ring| == WINDOW_SIZE && wi < WINDOW_SIZE && wn <= WINDOW_SIZE
    ensures |r| == wn
  {
    if wn < WINDOW_SIZE then ring[..wn] else ring[wi..] + ring[..wi]
  }

  /** On a full ring the slot order and the arrival order give the same rate and median. */
  lemma FullRingAgrees(ring: seq<WindowSample>, wi: nat)
    requires |ring| == WINDOW_SIZE && wi < WINDOW_SIZE
    ensures var view := RingView(ring, wi, WINDOW_SIZE);
            SpikeRate(ring) == SpikeRate(view) && Median(Values(ring)) == Median(Values(view))
  {
    RotationKeepsMedian(ring, wi);
  }

  lemma FillSlot(ring: seq<WindowSample>, wn: nat, s: WindowSample)
    requires |ring| == WINDOW_SIZE && wn < WINDOW_SIZE
    ensures RingView(ring[wn := s], (wn + 1) % WINDOW_SIZE, wn + 1) == RingView(ring, wn, wn) + [s]
  {
    var ring' := ring[wn := s];
    assert ring'[..wn + 1] == ring[..wn] + [s];
    if wn + 1 == WINDOW_SIZE {
      assert ring'[0..] + ring'[..0] == ring'[..wn + 1];
    }
  }

  lemma OverwriteSlot(ring: seq<WindowSample>, wi: nat, s: WindowSample)
    requires |ring| == WINDOW_SIZE && wi < WINDOW_SIZE
    ensures RingView(ring[wi := s], (wi + 1) % WINDOW_SIZE, WINDOW_SIZE)
         == RingView(ring, wi, WINDOW_SIZE)[1..] + [s]
  {
    var ring' := ring[wi := s];
    var view := ring[wi..] + ring[..wi];
    assert view[1..] == ring[wi + 1..] + ring[..wi];
    assert ring'[wi + 1..] == ring[wi + 1..] && ring'[..wi + 1] == ring[..wi] + [s];
    assert (ring[wi + 1..] + ring[..wi]) + [s] == ring[wi + 1..] + (ring[..wi] + [s]);
    if wi + 1 == WINDOW_SIZE {
      assert ring'[0..] + ring'[..0] == ring'[..wi + 1] + ring'[wi + 1..];
    }
  }

  lemma WriteSlot(ring: seq<WindowSample>, wi: nat, wn: nat, s: WindowSample)
    requires |ring| == WINDOW_SIZE && wi < WINDOW_SIZE && wn <= WINDOW_SIZE && (wn < WINDOW_SIZE ==> wi == wn)
    ensures RingView(ring[wi := s], (wi + 1) % WINDOW_SIZE, if wn < WINDOW_SIZE then wn + 1 else wn)
         == Newest(RingView(ring, wi, wn) + [s])
  {
    if wn < WINDOW_SIZE {
      FillSlot(ring, wn, s);
    } else {
      OverwriteSlot(ring, wi, s);
    }
  }

  class LiveEstimator {
    var estimate: real
    const window: array<WindowSample>
    var wi: nat
    var wn: nat
    var samples: nat
    var spikes: nat

    ghost predicate Valid()
      reads this
    {
      && window.Length == WINDOW_SIZE
      && wi < WINDOW_SIZE && wn <= WINDOW_SIZE
      && (wn < WINDOW_SIZE ==> wi == wn)
      && spikes <= samples
    }

    /** The samples in the ring, oldest first. */
    ghost function Recent(): (r: seq<WindowSample>)
      requires Valid()
      reads this, window
      ensures |r| == wn
    {
      RingView(window[..], wi, wn)
    }

    ghost function Abs(): (e: Est)
      requires Valid()
      reads this, window
      ensures e.Valid()
    {
      Est(estimate, Recent())
    }

    constructor (seed: real)
      ensures Valid() && fresh(window) && Abs() == Est(seed, []) && samples == 0 && spikes == 0
    {
      estimate := seed;
      window := new WindowSample[WINDOW_SIZE](_ => WindowSample(0.0, false));
      wi, wn, samples, spikes := 0, 0, 0, 0;
    }

    /** rateLocked */
    method Rate() returns (rate: real)
      requires Valid()
      ensures rate == SpikeRate(window[..wn])
    {
      if wn == 0 {
        return 0.0;
      }
      var n := 0;
      for i := 0 to wn
        invariant n == Spikes(window[..i])
      {
        assert window[..i + 1] == window[..i] + [window[i]];
        if window[i].spike {
          n := n + 1;
        }
      }
      return n as real / wn as real;
    }

    /** medianLocked */
    method WindowMedian() returns (m: real)
      requires Valid() && wn > 0
      ensures m == Median(Values(window[..wn]))
    {
      var vals: seq<real> := [];
      for i := 0 to wn
        invariant |vals| == i && vals == Values(window[..i])
      {
        vals := vals + [window[i].secPerPoint];
        assert vals == Values(window[..i + 1]);
      }
      vals := SortReals(vals);
      var n := |vals|;
      if n % 2 == 1 {
        return vals[n / 2];
      }
      return (vals[n / 2 - 1] + vals[n / 2]) / 2.0;
    }

    /** The ring slot written: the newest sample joins, the oldest leaves once the ring is full. */
    method Push(s: WindowSample)
      requires Valid()
      modifies this`wi, this`wn, window
      ensures Valid() && Recent() == Newest(old(Recent()) + [s]) && wn > 0
      ensures wn == if old(wn) < WINDOW_SIZE then old(wn) + 1 else WINDOW_SIZE
    {
      WriteSlot(window[..], wi, wn, s);
      ghost var ring := window[..];
      window[wi] := s;
      assert window[..] == ring[wi := s];
      wi := (wi + 1) % WINDOW_SIZE;
      if wn < WINDOW_SIZE {
        wn := wn + 1;
      }
    }

    method Sample(secPerPoint: real) returns (verdict: Verdict)
      requires Valid()
      modifies this, window
      ensures Valid()
      ensures (Abs(), verdict) == Step(old(Abs()), secPerPoint)
      ensures samples == old(samples) + 1
      ensures spikes == old(spikes) + if IsSpike(old(estimate), secPerPoint) then 1 else 0
    {
      hide Spikes, SpikeRate, Median, Values, Newest, RingView;
      samples := samples + 1;
      var spike := secPerPoint > SPIKE_FACTOR * estimate;
      if spike {
        spikes := spikes + 1;
      } else {
        estimate := (1.0 - EWMA_ALPHA) * estimate + EWMA_ALPHA * secPerPoint;
      }
      Push(WindowSample(secPerPoint, spike));
      ghost var recent := Recent();
      assert Est(estimate, recent) == Observe(old(Abs()), secPerPoint);
      if wn < WINDOW_SIZE {
        return NoBreach;
      }
      assert window[..wn] == window[..];
      FullRingAgrees(window[..], wi);
      assert recent == RingView(window[..], wi, WINDOW_SIZE);
      var rate := Rate();
      if rate > BREACH_RATE {
        var prior := estimate;
        var adopted := WindowMedian();
        estimate := adopted;
        wi, wn := 0, 0;
        return Breach(Adoption(prior, adopted, rate));
      }
      return NoBreach;
    }
  }

  // ---- runs ----

  /** The state after a sequence of samples, and the positions (1-based) at which it adopted. */
  function Feed(e: Est, vs: seq<real>): (r: (Est, seq<nat>))
    requires e.Valid()
    ensures r.0.Valid()
    ensures forall i :: 0 <= i < |r.1| ==> 1 <= r.1[i] <= |vs|
  {
    if vs == [] then (e, [])
    else
      var (before, at) := Feed(e, vs[..|vs| - 1]);
      var (after, verdict) := Step(before, vs[|vs| - 1]);
      (after, if verdict.Breach? then at + [|vs|] else at)
  }

  /** `e`'s ring is the last at most 20 of the samples `vs` since the last position in `at`. */
  predicate HoldsNewest(e: Est, at: seq<nat>, vs: seq<real>) {
    var since := if at == [] then 0 else at[|at| - 1];
    && since <= |vs|
    && |e.recent| == (if |vs| - since < WINDOW_SIZE then |vs| - since else WINDOW_SIZE)
    && Values(e.recent) == vs[|vs| - |e.recent|..]
  }

  lemma ObservedValues(e: Est, v: real, vs: seq<real>)
    requires e.Valid() && |e.recent| <= |vs| && Values(e.recent) == vs[|vs| - |e.recent|..]
    ensures var o := Observe(e, v);
            |o.recent| == (if |e.recent| < WINDOW_SIZE then |e.recent| + 1 else WINDOW_SIZE) &&
            Values(o.recent) == (vs + [v])[|vs| + 1 - |o.recent|..]
  {
    var s := WindowSample(v, IsSpike(e.estimate, v));
    ValuesConcat(e.recent, [s]);
    assert Values([s]) == [v];
    assert vs[|vs| - |e.recent|..] + [v] == (vs + [v])[|vs| - |e.recent|..];
    if |e.recent| == WINDOW_SIZE {
      assert Values((e.recent + [s])[1..]) == Values(e.recent + [s])[1..];
    }
  }

  lemma StepHoldsNewest(e: Est, at: seq<nat>, vs: seq<real>, v: real)
    requires e.Valid() && HoldsNewest(e, at, vs)
    ensures var (e', verdict) := Step(e, v);
            HoldsNewest(e', if verdict.Breach? then at + [|vs| + 1] else at, vs + [v])
  {
    ObservedValues(e, v, vs);
    assert (vs + [v])[|vs| + 1..] == [];
  }

  /** The ring holds the last at most 20 samples since the last adoption, in order. */
  lemma {:induction false} RingHoldsNewest(e: Est, vs: seq<real>)
    requires e.Valid() && e.recent == []
    ensures HoldsNewest(Feed(e, vs).0, Feed(e, vs).1, vs)
  {
    if vs != [] {
      var earlier, v := vs[..|vs| - 1], vs[|vs| - 1];
      RingHoldsNewest(e, earlier);
      StepHoldsNewest(Feed(e, earlier).0, Feed(e, earlier).1, earlier, v);
      assert vs == earlier + [v];
    }
  }

  function Last(at: seq<nat>): nat {
    if at == [] then 0 else at[|at| - 1]
  }

  predicate Spaced(at: seq<nat>) {
    at == [] || (Last(at) - Last(at[..|at| - 1]) >= WINDOW_SIZE && Spaced(at[..|at| - 1]))
  }

  /** Two adoptions, and the first one and the start, are at least a full window apart. */
  lemma {:induction false} AdoptionsAreSpaced(e: Est, vs: seq<real>)
    requires e.Valid() && e.recent == []
    ensures Spaced(Feed(e, vs).1)
  {
    if vs != [] {
      var earlier := vs[..|vs| - 1];
      AdoptionsAreSpaced(e, earlier);
      RingHoldsNewest(e, earlier);
      var (before, at) := Feed(e, earlier);
      if Step(before, vs[|vs| - 1]).1.Breach? {
        assert (at + [|vs|])[..|at|] == at;
      }
    }
  }

  /** The verdict in whole numbers: seven or more of the last twenty samples were spikes. */
  lemma BreachIsSevenSpikes(e: Est)
    ensures Breaches(e) <==> |e.recent| == WINDOW_SIZE && Spikes(e.recent) >= 7
  {
    if |e.recent| == WINDOW_SIZE {
      var n := Spikes(e.recent);
      assert SpikeRate(e.recent) == n as real / 20.0;
    }
  }

  // ---- the adopted value ----

  function AtMost(s: seq<real>, m: real): nat {
    if s == [] then 0 else (if s[0] <= m then 1 else 0) + AtMost(s[1..], m)
  }

  function AtLeast(s: seq<real>, m: real): nat {
    if s == [] then 0 else (if s[0] >= m then 1 else 0) + AtLeast(s[1..], m)
  }

  lemma {:induction false} InsertCounts(x: real, s: seq<real>, m: real)
    requires SortedReals(s)
    ensures AtMost(InsertReal(x, s), m) == AtMost([x], m) + AtMost(s, m)
    ensures AtLeast(InsertReal(x, s), m) == AtLeast([x], m) + AtLeast(s, m)
  {
    if s != [] && x > s[0] {
      InsertCounts(x, s[1..], m);
    }
  }

  lemma {:induction false} SortCounts(s: seq<real>, m: real)
    ensures AtMost(SortReals(s), m) == AtMost(s, m) && AtLeast(SortReals(s), m) == AtLeast(s, m)
  {
    if s != [] {
      SortCounts(s[1..], m);
      InsertCounts(s[0], SortReals(s[1..]), m);
    }
  }

  lemma {:induction false} PrefixAtMost(s: seq<real>, k: nat, m: real)
    requires k <= |s| && forall i :: 0 <= i < k ==> s[i] <= m
    ensures AtMost(s, m) >= k
  {
    if k > 0 {
      PrefixAtMost(s[1..], k - 1, m);
    }
  }

  lemma {:induction false} SuffixAtLeast(s: seq<real>, k: nat, m: real)
    requires k <= |s| && forall i :: k <= i < |s| ==> s[i] >= m
    ensures AtLeast(s, m) >= |s| - k
  {
    if s != [] {
      SuffixAtLeast(s[1..], if k == 0 then 0 else k - 1, m);
    }
  }

  lemma SortedMiddle(s: seq<real>, m: real)
    requires SortedReals(s) && s != [] && m == Middle(s)
    ensures 2 * AtMost(s, m) >= |s| && 2 * AtLeast(s, m) >= |s|
  {
    var n := |s|;
    assert n % 2 == 1 || s[n / 2 - 1] <= m <= s[n / 2];
    PrefixAtMost(s, if n % 2 == 1 then n / 2 + 1 else n / 2, m);
    SuffixAtLeast(s, n / 2, m);
  }

  /** At least half of the window lies at or below the adopted value and at least half at or above it. */
  lemma MedianIsInTheMiddle(vals: seq<real>)
    requires vals != []
    ensures 2 * AtMost(vals, Median(vals)) >= |vals| && 2 * AtLeast(vals, Median(vals)) >= |vals|
  {
    SortedMiddle(SortReals(vals), Median(vals));
    SortCounts(vals, Median(vals));
  }

  lemma MedianOfEqualValues(vals: seq<real>, v: real)
    requires vals != [] && forall i :: 0 <= i < |vals| ==> vals[i] == v
    ensures Median(vals) == v
  {
    var sorted := SortReals(vals);
    SortKeepsElements(vals);
    forall i | 0 <= i < |sorted|
      ensures sorted[i] == v
    {
      assert sorted[i] in multiset(vals);
    }
  }

  // ---- the median, seen in a mirror ----

  /** The values turned around the point c / 2. */
  function Flipped(c: real, vals: seq<real>): (r: seq<real>)
    ensures |r| == |vals|
  {
    seq(|vals|, i requires 0 <= i < |vals| => c - vals[i])
  }

  function Backwards(vals: seq<real>): (r: seq<real>)
    ensures |r| == |vals|
  {
    seq(|vals|, i requires 0 <= i < |vals| => vals[|vals| - 1 - i])
  }

  lemma FlippedCons(c: real, v: real, vals: seq<real>)
    ensures multiset(Flipped(c, [v] + vals)) == multiset{c - v} + multiset(Flipped(c, vals))
  {
    assert Flipped(c, [v] + vals) == [c - v] + Flipped(c, vals);
  }

  lemma InsertUnfolds(x: real, s: seq<real>)
    requires SortedReals(s)
    ensures if s == [] || x <= s[0] then InsertReal(x, s) == [x] + s
            else InsertReal(x, s) == [s[0]] + InsertReal(x, s[1..])
  {
  }

  lemma {:induction false} InsertFlipped(c: real, x: real, s: seq<real>)
    requires SortedReals(s)
    ensures multiset(Flipped(c, InsertReal(x, s))) == multiset{c - x} + multiset(Flipped(c, s))
  {
    hide InsertReal, Flipped;
    InsertUnfolds(x, s);
    if s == [] || x <= s[0] {
      FlippedCons(c, x, s);
    } else {
      InsertFlipped(c, x, s[1..]);
      FlippedCons(c, s[0], InsertReal(x, s[1..]));
      FlippedCons(c, s[0], s[1..]);
      assert s == [s[0]] + s[1..];
    }
  }

  lemma {:induction false} SortFlipped(c: real, s: seq<real>)
    ensures multiset(Flipped(c, SortReals(s))) == multiset(Flipped(c, s))
  {
    hide Flipped, InsertReal;
    if s != [] {
      SortFlipped(c, s[1..]);
      InsertFlipped(c, s[0], SortReals(s[1..]));
      FlippedCons(c, s[0], s[1..]);
      assert s == [s[0]] + s[1..];
    }
  }

  lemma {:induction false} BackwardsKeepsElements(s: seq<real>)
    ensures multiset(Backwards(s)) == multiset(s)
  {
    if s != [] {
      BackwardsKeepsElements(s[1..]);
      assert Backwards(s) == Backwards(s[1..]) + [s[0]];
      assert s == [s[0]] + s[1..];
    } else {
      assert Backwards(s) == s;
    }
  }

  lemma FlippedSort(c: real, vals: seq<real>)
    ensures SortReals(Flipped(c, vals)) == Backwards(Flipped(c, SortReals(vals)))
  {
    var mirrored := Backwards(Flipped(c, SortReals(vals)));
    SortFlipped(c, vals);
    BackwardsKeepsElements(Flipped(c, SortReals(vals)));
    SortKeepsElements(Flipped(c, vals));
    SortedUnique(SortReals(Flipped(c, vals)), mirrored);
  }

  lemma MirroredMiddle(c: real, s: seq<real>)
    requires s != []
    ensures Middle(Backwards(Flipped(c, s))) == c - Middle(s)
  {
    var n, m := |s|, Backwards(Flipped(c, s));
    assert m[n / 2] == c - s[n - 1 - n / 2];
    assert n % 2 == 0 ==> m[n / 2 - 1] == c - s[n / 2];
  }

  /** Turning all values around a point turns the adopted value around it too: the median has no bias to either
      side, so of an even window it is the mean of the two middle values. */
  lemma MedianIsUnbiased(c: real, vals: seq<real>)
    requires vals != []
    ensures Median(Flipped(c, vals)) == c - Median(vals)
  {
    hide Middle, Flipped;
    FlippedSort(c, vals);
    MirroredMiddle(c, SortReals(vals));
  }

  /** What an adoption reports: the estimate it found, the one it leaves, and the share of spikes. */
  lemma AdoptionReports(e: Est, v: real)
    requires e.Valid() && Step(e, v).1.Breach?
    ensures var (e', Breach(a)) := Step(e, v);
            e'.estimate == a.adopted && e'.recent == [] &&
            a.prior == (if v > 3.0 * e.estimate then e.estimate else 0.8 * e.estimate + 0.2 * v) &&
            0.3 < a.spikeRate <= 1.0
  {
  }

  // ---- isolated spikes ----

  /** The samples that were not spikes against the estimate of their moment. */
  function Normals(e: Est, vs: seq<real>): seq<real>
    requires e.Valid()
  {
    if vs == [] then []
    else
      var earlier := vs[..|vs| - 1];
      var v := vs[|vs| - 1];
      if IsSpike(Feed(e, earlier).0.estimate, v) then Normals(e, earlier) else Normals(e, earlier) + [v]
  }

  /** The plain average over a sequence of samples, no rejection. */
  function Average(estimate: real, vs: seq<real>): real {
    if vs == [] then estimate
    else (1.0 - EWMA_ALPHA) * Average(estimate, vs[..|vs| - 1]) + EWMA_ALPHA * vs[|vs| - 1]
  }

  /** Until spikes persist, the estimate is the average over the normal samples alone. */
  lemma {:induction false} IsolatedSpikesLeaveNoTrace(e: Est, vs: seq<real>)
    requires e.Valid() && Feed(e, vs).1 == []
    ensures Feed(e, vs).0.estimate == Average(e.estimate, Normals(e, vs))
  {
    if vs != [] {
      var earlier, v := vs[..|vs| - 1], vs[|vs| - 1];
      IsolatedSpikesLeaveNoTrace(e, earlier);
      assert (Normals(e, earlier) + [v])[..|Normals(e, earlier)|] == Normals(e, earlier);
    }
  }

  // ---- a constant load ----

  /** `n` samples of the same value: the state and how often it adopted. */
  function Hold(e: Est, v: real, n: nat): (r: (Est, nat))
    requires e.Valid()
    ensures r.0.Valid()
  {
    if n == 0 then (e, 0)
    else
      var (before, count) := Hold(e, v, n - 1);
      var (after, verdict) := Step(before, v);
      (after, if verdict.Breach? then count + 1 else count)
  }

  /** How far the estimator is in following the value `v`. */
  datatype Phase =
    | Undecided(flag: bool)    // nothing adopted yet; every v so far was classified `flag`
    | Respiking(m: nat)        // adopted an older value; m spikes of v since
    | Settled                  // v is normal and no spike is in view

  predicate AllFlagged(s: seq<WindowSample>, k: nat, flag: bool)
    requires k <= |s|
  {
    forall i :: |s| - k <= i < |s| ==> s[i].spike == flag
  }

  ghost predicate InPhase(e: Est, v: real, n: nat, count: nat, phase: Phase) {
    e.Valid() &&
    match phase
    case Undecided(flag) =>
      count == 0 && n < WINDOW_SIZE && IsSpike(e.estimate, v) == flag &&
      n <= |e.recent| && AllFlagged(e.recent, n, flag)
    case Respiking(m) =>
      count == 1 && m < WINDOW_SIZE && n <= WINDOW_SIZE + m && IsSpike(e.estimate, v) &&
      |e.recent| == m && forall i :: 0 <= i < m ==> e.recent[i] == WindowSample(v, true)
    case Settled =>
      count <= 2 && !IsSpike(e.estimate, v) && Spikes(e.recent) == 0
  }

  lemma {:induction false} FlaggedSpikes(s: seq<WindowSample>, flag: bool)
    requires AllFlagged(s, |s|, flag)
    ensures Spikes(s) == if flag then |s| else 0
  {
    if s != [] {
      FlaggedSpikes(s[..|s| - 1], flag);
    }
  }

  /** A normal sample moves the estimate four fifths of the way off, and never makes `v` a spike. */
  lemma NormalStaysNormal(estimate: real, v: real)
    requires v >= 0.0 && !IsSpike(estimate, v)
    ensures !IsSpike((1.0 - EWMA_ALPHA) * estimate + EWMA_ALPHA * v, v)
  {
  }

  lemma StepUndecided(e: Est, v: real, n: nat, flag: bool) returns (phase: Phase)
    requires v > 0.0 && InPhase(e, v, n, 0, Undecided(flag))
    ensures var (e', verdict) := Step(e, v);
            InPhase(e', v, n + 1, if verdict.Breach? then 1 else 0, phase)
  {
    var o := Observe(e, v);
    var (e', verdict) := Step(e, v);
    if !flag {
      NormalStaysNormal(e.estimate, v);
    }
    assert n + 1 <= |o.recent| && AllFlagged(o.recent, n + 1, flag);
    if verdict.Breach? {
      phase := if IsSpike(e'.estimate, v) then Respiking(0) else Settled;
    } else if n + 1 < WINDOW_SIZE {
      phase := Undecided(flag);
    } else {
      FlaggedSpikes(o.recent, flag);
      BreachIsSevenSpikes(o);
      phase := Settled;
    }
  }

  lemma StepRespiking(e: Est, v: real, n: nat, m: nat) returns (phase: Phase)
    requires v > 0.0 && InPhase(e, v, n, 1, Respiking(m))
    ensures var (e', verdict) := Step(e, v);
            InPhase(e', v, n + 1, if verdict.Breach? then 2 else 1, phase)
  {
    var o := Observe(e, v);
    assert |o.recent| == m + 1 && forall i :: 0 <= i < m + 1 ==> o.recent[i] == WindowSample(v, true);
    BreachIsSevenSpikes(o);
    if m + 1 < WINDOW_SIZE {
      phase := Respiking(m + 1);
    } else {
      FlaggedSpikes(o.recent, true);
      MedianOfEqualValues(Values(o.recent), v);
      phase := Settled;
    }
  }

  lemma StepSettled(e: Est, v: real, n: nat, count: nat)
    requires v > 0.0 && InPhase(e, v, n, count, Settled)
    ensures var (e', verdict) := Step(e, v);
            verdict == NoBreach && InPhase(e', v, n + 1, count, Settled) &&
            e'.estimate - v == 0.8 * (e.estimate - v)
  {
    var o := Observe(e, v);
    NormalStaysNormal(e.estimate, v);
    var s := WindowSample(v, false);
    SpikesConcat(e.recent, [s]);
    assert Spikes([s]) == 0;
    if |e.recent| == WINDOW_SIZE {
      assert e.recent + [s] == [e.recent[0]] + (e.recent + [s])[1..];
      SpikesConcat([e.recent[0]], (e.recent + [s])[1..]);
    }
    BreachIsSevenSpikes(o);
  }

  lemma {:induction false} HoldPhase(e: Est, v: real, n: nat) returns (phase: Phase)
    requires e.Valid() && v > 0.0
    ensures InPhase(Hold(e, v, n).0, v, n, Hold(e, v, n).1, phase)
  {
    if n == 0 {
      phase := Undecided(IsSpike(e.estimate, v));
    } else {
      var earlier := HoldPhase(e, v, n - 1);
      var (before, count) := Hold(e, v, n - 1);
      match earlier {
        case Undecided(flag) => phase := StepUndecided(before, v, n - 1, flag);
        case Respiking(m) => phase := StepRespiking(before, v, n - 1, m);
        case Settled => StepSettled(before, v, n - 1, count); phase := Settled;
      }
    }
  }

  /** A value that keeps coming is adopted into view: from any state whatever, at most two adoptions
      occur, after 40 samples the value is never again a spike, and from then on every sample
      shrinks the estimate's error by a fifth. */
  lemma ConstantLoadIsFollowed(e: Est, v: real, n: nat)
    requires e.Valid() && v > 0.0
    ensures Hold(e, v, n).1 <= 2
    ensures n >= 40 ==>
              && !IsSpike(Hold(e, v, n).0.estimate, v)
              && Hold(e, v, n + 1).1 == Hold(e, v, n).1
              && Hold(e, v, n + 1).0.estimate - v == 0.8 * (Hold(e, v, n).0.estimate - v)
  {
    var phase := HoldPhase(e, v, n);
    if n >= 40 {
      StepSettled(Hold(e, v, n).0, v, n, Hold(e, v, n).1);
    }
  }
}
