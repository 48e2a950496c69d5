/** The adaptive-throttle controller (internal/cognition/governor.go): cognition debt as a sum of
    budget fractions, and the two-window hysteresis that sheds and recovers one notch at a time.
  */
module Governor {
  import opened Clock

  const SHED_THRESHOLD: real := 1.0
  const RECOVER_HEADROOM: real := 0.5
  const BREACH_SAMPLES := 5
  const RECOVER_SAMPLES := 20

  // ---- debt ----

  datatype Kind =
    | Planner | Conversation | Meeting | Consolidation
    | Narrator | Drama | Metatron | MetatronWatch
    | Unregistered(name: nat)

  datatype Pending = Pending(kind: Kind, predictedSec: real, elapsedSec: real)

  /** The staleness budget of the kind's decision class, in ticks; 0 for a kind without one. */
  function BudgetTicks(kind: Kind): real {
    match kind
    case Planner => 1200.0
    case Conversation => 7200.0
    case Meeting => 3600.0
    case Consolidation => 28800.0
    case Narrator | Drama => 86400.0
    case Metatron | MetatronWatch => 86400.0
    case Unregistered(_) => 0.0
  }

  /** Remaining work while within the prediction, the whole accrued drift once past it. */
  function Staleness(p: Pending): real {
    if p.elapsedSec >= p.predictedSec then p.elapsedSec else p.predictedSec - p.elapsedSec
  }

  /** What one thought contributes per tick per second of clock speed. */
  function Weight(p: Pending): (w: real)
    ensures w >= 0.0
  {
    if p.kind.Unregistered? || Staleness(p) <= 0.0 then 0.0 else Staleness(p) / BudgetTicks(p.kind)
  }

  /** The load of a pending set: debt per tick per second. */
  function Load(pending: seq<Pending>): (c: real)
    ensures c >= 0.0
  {
    if pending == [] then 0.0 else Load(pending[..|pending| - 1]) + Weight(pending[|pending| - 1])
  }

  function Contributors(pending: seq<Pending>): nat {
    if pending == [] then 0
    else Contributors(pending[..|pending| - 1]) + if Weight(pending[|pending| - 1]) > 0.0 then 1 else 0
  }

  lemma ScaledFraction(seconds: real, tps: real, budget: real)
    requires budget > 0.0 && tps > 0.0
    ensures seconds * tps / budget == tps * (seconds / budget)
    ensures seconds * tps / budget > 0.0 <==> seconds > 0.0
  {
    var q := seconds / budget;
    assert seconds == q * budget;
    assert seconds * tps == (tps * q) * budget;
    if seconds > 0.0 {
      assert q > 0.0;
      assert tps * q > 0.0;
    } else {
      assert q <= 0.0;
      assert tps * q <= 0.0;
    }
  }

  /** Drift in budget fractions at a tick rate. */
  function Drift(load: real, tps: real): real {
    load * tps
  }

  lemma DriftAdds(load: real, weight: real, tps: real)
    ensures Drift(load + weight, tps) == Drift(load, tps) + Drift(weight, tps)
    ensures Drift(0.0, tps) == 0.0
  {
  }

  /** One thought's share of the debt, if its kind has a decision class. */
  method Fraction(p: Pending, ticksPerSecond: real) returns (fraction: real)
    requires ticksPerSecond > 0.0 && !p.kind.Unregistered?
    ensures fraction > 0.0 <==> Weight(p) > 0.0
    ensures fraction > 0.0 ==> fraction == Drift(Weight(p), ticksPerSecond)
  {
    var seconds := p.predictedSec - p.elapsedSec;
    if p.elapsedSec >= p.predictedSec {
      seconds := p.elapsedSec;
    }
    fraction := seconds * ticksPerSecond / BudgetTicks(p.kind);
    ScaledFraction(seconds, ticksPerSecond, BudgetTicks(p.kind));
  }

  /** Debt is the load times the tick rate, and every positive contributor is counted. */
  method Debt(pending: seq<Pending>, ticksPerSecond: real) returns (debt: real, jobs: nat)
    ensures ticksPerSecond <= 0.0 ==> debt == 0.0 && jobs == 0
    ensures ticksPerSecond > 0.0 ==> debt == Drift(Load(pending), ticksPerSecond) && jobs == Contributors(pending)
  {
    debt, jobs := 0.0, 0;
    if ticksPerSecond <= 0.0 {
      return;
    }
    DriftAdds(0.0, 0.0, ticksPerSecond);
    for i := 0 to |pending|
      invariant debt == Drift(Load(pending[..i]), ticksPerSecond)
      invariant jobs == Contributors(pending[..i])
    {
      var p := pending[i];
      assert pending[..i + 1][..i] == pending[..i];
      DriftAdds(Load(pending[..i]), Weight(p), ticksPerSecond);
      if !p.kind.Unregistered? {
        var fraction := Fraction(p, ticksPerSecond);
        if fraction > 0.0 {
          debt := debt + fraction;
          jobs := jobs + 1;
        }
      }
    }
    assert pending[..|pending|] == pending;
  }

  // ---- how a thought's share moves ----

  lemma WaitingCostsLess(kind: Kind, predicted: real, a: real, b: real)
    requires !kind.Unregistered? && 0.0 <= a <= b < predicted
    ensures Weight(Pending(kind, predicted, a)) - Weight(Pending(kind, predicted, b)) == (b - a) / BudgetTicks(kind)
  {
    var budget := BudgetTicks(kind);
    assert (predicted - a) / budget - (predicted - b) / budget == (b - a) / budget;
  }

  /** While a thought is within its prediction its share falls as it works; from the moment it is overdue the
      share is all the time it has taken, and grows: at the deadline it jumps from nothing back to where it
      began. */
  lemma OverdueCostsMore(kind: Kind, predicted: real, a: real, b: real)
    requires !kind.Unregistered? && 0.0 < predicted <= a <= b
    ensures Weight(Pending(kind, predicted, b)) - Weight(Pending(kind, predicted, a)) == (b - a) / BudgetTicks(kind)
    ensures Weight(Pending(kind, predicted, predicted)) == Weight(Pending(kind, predicted, 0.0)) > 0.0
  {
    var budget := BudgetTicks(kind);
    assert b / budget - a / budget == (b - a) / budget;
    assert predicted / budget > 0.0;
  }

  /** The shares of two sets of thoughts add up, and so do their contributors; one thought contributes its own
      share, and counts if and only if that is positive. */
  lemma {:induction false} LoadsAdd(a: seq<Pending>, b: seq<Pending>, p: Pending)
    ensures Load(a + b) == Load(a) + Load(b) && Contributors(a + b) == Contributors(a) + Contributors(b)
    ensures Load([p]) == Weight(p) && Contributors([p]) == if Weight(p) > 0.0 then 1 else 0
  {
    assert [p][..0] == [];
    if b == [] {
      assert a + b == a;
    } else {
      assert (a + b)[..|a + b| - 1] == a + b[..|b| - 1];
      LoadsAdd(a, b[..|b| - 1], p);
    }
  }

  // ---- one sample ----

  datatype Reading = Reading(debt: real, paused: bool, effective: Speed, requested: Speed)

  datatype Decision = NoAction | Shed(to: Speed) | Recover(to: Speed)

  datatype Windows = Windows(breach: nat, recover: nat, lastEff: Speed) {
    predicate Valid() {
      breach < BREACH_SAMPLES && recover < RECOVER_SAMPLES
    }
  }

  const FRESH := Windows(0, 0, Unset)

  /** Debt over the threshold, with a lower notch to go to. */
  predicate Overloaded(r: Reading) {
    !r.paused && r.debt > SHED_THRESHOLD && LadderIndex(r.effective) > 0
  }

  /** Below the ceiling, and the debt projected one notch up keeps the headroom. */
  predicate Roomy(r: Reading) {
    var idx := LadderIndex(r.effective);
    && !r.paused && 0 <= idx < LadderIndex(r.requested)
    && r.debt * TicksPerSecond(LADDER[idx + 1]) / TicksPerSecond(r.effective)
       < SHED_THRESHOLD * RECOVER_HEADROOM
  }

  /** The windows as the next sample sees them: a speed change since the last one voids both. */
  function Carried(w: Windows, r: Reading): Windows {
    if r.effective == w.lastEff then w else Windows(0, 0, r.effective)
  }

  function Decide(w: Windows, r: Reading): (d: (Windows, Decision))
    ensures d.1.Shed? ==> Overloaded(r) && LadderIndex(d.1.to) == LadderIndex(r.effective) - 1
    ensures d.1.Recover? ==> Roomy(r) && LadderIndex(d.1.to) == LadderIndex(r.effective) + 1
    ensures w.Valid() ==> d.0.Valid()
  {
    var breach := Carried(w, r).breach + 1;
    var recover := Carried(w, r).recover + 1;
    var idx := LadderIndex(r.effective);
    if Overloaded(r) then
      if breach < BREACH_SAMPLES then (Windows(breach, 0, r.effective), NoAction)
      else (Windows(0, 0, LADDER[idx - 1]), Shed(LADDER[idx - 1]))
    else if Roomy(r) then
      if recover < RECOVER_SAMPLES then (Windows(0, recover, r.effective), NoAction)
      else (Windows(0, 0, LADDER[idx + 1]), Recover(LADDER[idx + 1]))
    else
      (Windows(0, 0, r.effective), NoAction)
  }

  class Controller {
    var breach: nat
    var recover: nat
    var lastEff: Speed

    ghost function Abs(): Windows
      reads this
    {
      Windows(breach, recover, lastEff)
    }

    constructor ()
      ensures Abs() == FRESH
    {
      breach, recover, lastEff := 0, 0, Unset;
    }

    method Reset(eff: Speed)
      modifies this
      ensures Abs() == Windows(0, 0, eff)
    {
      breach, recover, lastEff := 0, 0, eff;
    }

    method Sample(debt: real, paused: bool, effective: Speed, requested: Speed) returns (d: Decision)
      modifies this
      ensures (Abs(), d) == Decide(old(Abs()), Reading(debt, paused, effective, requested))
    {
      if paused {
        Reset(effective);
        return NoAction;
      }
      if effective != lastEff {
        breach, recover, lastEff := 0, 0, effective;
      }
      var idx := LadderIndex(effective);
      var breaching := debt > SHED_THRESHOLD && idx > 0;
      if breaching {
        breach := breach + 1;
        recover := 0;
        if breach >= BREACH_SAMPLES {
          var to := LADDER[idx - 1];
          Reset(to);
          return Shed(to);
        }
      } else {
        breach := 0;
      }
      if !breaching {
        var reqIdx := LadderIndex(requested);
        if idx >= 0 && reqIdx > idx {
          var candidate := LADDER[idx + 1];
          var projected := debt * TicksPerSecond(candidate) / TicksPerSecond(effective);
          if projected < SHED_THRESHOLD * RECOVER_HEADROOM {
            recover := recover + 1;
            if recover >= RECOVER_SAMPLES {
              Reset(candidate);
              return Recover(candidate);
            }
          } else {
            recover := 0;
          }
        } else {
          recover := 0;
        }
      }
      return NoAction;
    }
  }

  // ---- runs of samples ----

  function Watch(trace: seq<Reading>): (r: (Windows, seq<Decision>))
    ensures r.0.Valid() && |r.1| == |trace|
  {
    if trace == [] then (FRESH, [])
    else
      var (w, past) := Watch(trace[..|trace| - 1]);
      var (w', d) := Decide(w, trace[|trace| - 1]);
      (w', past + [d])
  }

  /** The last `k` samples called for `want` at the speed `eff`, and none of them was acted on. */
  predicate Standing(trace: seq<Reading>, past: seq<Decision>, k: nat, eff: Speed, want: Decision) {
    && |past| == |trace| && k <= |trace|
    && forall i :: |trace| - k <= i < |trace| ==> Calls(trace[i], eff, want) && past[i] == NoAction
  }

  predicate Calls(r: Reading, eff: Speed, want: Decision) {
    r.effective == eff && (if want.Shed? then Overloaded(r) else !Overloaded(r) && Roomy(r))
  }

  /** What each window counts: the samples it stands for, exactly. */
  ghost predicate Counted(trace: seq<Reading>, w: Windows, past: seq<Decision>) {
    && |past| == |trace|
    && (forall k: nat, eff {:trigger Standing(trace, past, k, eff, Shed(eff))} | k > 0 ::
          Standing(trace, past, k, eff, Shed(eff)) <==> w.breach >= k && w.lastEff == eff)
    && (forall k: nat, eff {:trigger Standing(trace, past, k, eff, Recover(eff))} | k > 0 ::
          Standing(trace, past, k, eff, Recover(eff)) <==> w.recover >= k && w.lastEff == eff)
  }

  lemma StandingStep(trace: seq<Reading>, past: seq<Decision>, r: Reading, d: Decision, k: nat, eff: Speed, want: Decision)
    requires |past| == |trace| && k > 0
    ensures Standing(trace + [r], past + [d], k, eff, want)
       <==> Standing(trace, past, k - 1, eff, want) && Calls(r, eff, want) && d == NoAction
  {
    var t, p := trace + [r], past + [d];
    if Standing(t, p, k, eff, want) {
      assert Calls(t[|trace|], eff, want) && p[|trace|] == NoAction;
      forall i | |trace| - (k - 1) <= i < |trace|
        ensures Calls(trace[i], eff, want) && past[i] == NoAction
      {
        assert t[i] == trace[i] && p[i] == past[i];
      }
    }
  }

  lemma CountedStep(trace: seq<Reading>, w: Windows, past: seq<Decision>, r: Reading)
    requires w.Valid() && Counted(trace, w, past)
    ensures Counted(trace + [r], Decide(w, r).0, past + [Decide(w, r).1])
  {
    var (w', d) := Decide(w, r);
    forall k: nat, eff | k > 0
      ensures Standing(trace + [r], past + [d], k, eff, Shed(eff)) <==> w'.breach >= k && w'.lastEff == eff
    {
      StandingStep(trace, past, r, d, k, eff, Shed(eff));
    }
    forall k: nat, eff | k > 0
      ensures Standing(trace + [r], past + [d], k, eff, Recover(eff)) <==> w'.recover >= k && w'.lastEff == eff
    {
      StandingStep(trace, past, r, d, k, eff, Recover(eff));
    }
  }

  lemma {:induction false} WatchCounts(trace: seq<Reading>)
    ensures Counted(trace, Watch(trace).0, Watch(trace).1)
  {
    if trace != [] {
      var earlier := trace[..|trace| - 1];
      WatchCounts(earlier);
      CountedStep(earlier, Watch(earlier).0, Watch(earlier).1, trace[|trace| - 1]);
      assert trace == earlier + [trace[|trace| - 1]];
    }
  }

  /** Over any history: a sample sheds if and only if it completes five consecutive overloaded samples
      at one speed with no decision among them, and recovers if and only if it completes twenty
      consecutive roomy ones. */
  lemma WindowsAreTheHysteresis(trace: seq<Reading>, r: Reading)
    ensures var (w, past) := Watch(trace);
            (Decide(w, r).1.Shed? <==>
               Overloaded(r) && Standing(trace, past, BREACH_SAMPLES - 1, r.effective, Shed(r.effective))) &&
            (Decide(w, r).1.Recover? <==>
               !Overloaded(r) && Roomy(r) &&
               Standing(trace, past, RECOVER_SAMPLES - 1, r.effective, Recover(r.effective)))
  {
    WatchCounts(trace);
  }
}
