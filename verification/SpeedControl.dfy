/** The clock commands of the loop (internal/sim/loop.go, reducer in internal/sim/state.go) and the
    sampler that closes the loop through them (internal/daemon/governor.go).
  */
module SpeedControl {
  import opened Clock
  import G = Governor

  datatype ClockState = ClockState(paused: bool, speed: Speed, requested: Speed)

  datatype Command = Pause | Resume | SetSpeed(speed: Speed) | Govern(to: Speed)

  datatype Event =
    | Paused
    | Resumed
    | SpeedSet(speed: Speed)
    | GovernorShed(requested: Speed, from: Speed, to: Speed)
    | GovernorRecovered(requested: Speed, from: Speed, to: Speed)

  const GENESIS := ClockState(false, X4, Unset)

  /** requestedCeiling: the recorded ceiling while governed, the effective speed otherwise. */
  function Ceiling(s: ClockState): Speed {
    if s.requested != Unset then s.requested else s.speed
  }

  // ---- the reducer ----

  function Apply(s: ClockState, e: Event): ClockState {
    match e
    case Paused => s.(paused := true)
    case Resumed => s.(paused := false)
    case SpeedSet(v) => s.(speed := v, requested := Unset)
    case GovernorShed(ceiling, _, to) => s.(speed := to, requested := ceiling)
    case GovernorRecovered(ceiling, _, to) => s.(speed := to, requested := if to != ceiling then ceiling else Unset)
  }

  function Replay(s: ClockState, log: seq<Event>): ClockState {
    if log == [] then s else Apply(Replay(s, log[..|log| - 1]), log[|log| - 1])
  }

  // ---- what each command records ----

  /** A governor decision is recorded only unpaused, on the ladder, one notch away and under the ceiling. */
  predicate Lands(s: ClockState, to: Speed) {
    var cur, next := LadderIndex(s.speed), LadderIndex(to);
    && !s.paused && cur >= 0 && next >= 0
    && (next == cur - 1 || (next == cur + 1 && next <= LadderIndex(Ceiling(s))))
  }

  function Recorded(s: ClockState, cmd: Command): seq<Event> {
    match cmd
    case Pause => if s.paused then [] else [Paused]
    case Resume => if s.paused then [Resumed] else []
    case SetSpeed(v) => if Known(v) && v != s.speed then [SpeedSet(v)] else []
    case Govern(to) =>
      if !Lands(s, to) then []
      else if LadderIndex(to) < LadderIndex(s.speed) then [GovernorShed(Ceiling(s), s.speed, to)]
      else [GovernorRecovered(Ceiling(s), s.speed, to)]
  }

  function After(s: ClockState, cmd: Command): ClockState {
    var events := Recorded(s, cmd);
    if events == [] then s else Apply(s, events[0])
  }

  /** Governed means the effective speed is below a ceiling on the ladder. */
  predicate Inv(s: ClockState) {
    s.requested != Unset ==> 0 <= LadderIndex(s.speed) < LadderIndex(s.requested)
  }

  lemma StepKeepsInv(s: ClockState, cmd: Command)
    requires Inv(s)
    ensures Inv(After(s, cmd))
    ensures !cmd.SetSpeed? ==> Ceiling(After(s, cmd)) == Ceiling(s)
  {
  }

  class Loop {
    var paused: bool
    var speed: Speed
    var requested: Speed
    var log: seq<Event>

    ghost function Abs(): ClockState
      reads this
    {
      ClockState(paused, speed, requested)
    }

    /** The state is the fold of the log, and its governed part is well formed. */
    ghost predicate Valid()
      reads this
    {
      Abs() == Replay(GENESIS, log) && Inv(Abs())
    }

    constructor ()
      ensures Valid() && Abs() == GENESIS && log == []
    {
      paused, speed, requested, log := false, X4, Unset, [];
    }

    method RequestedCeiling() returns (c: Speed)
      ensures c == Ceiling(Abs())
    {
      if requested != Unset {
        return requested;
      }
      return speed;
    }

    method Commit(e: Event)
      requires Abs() == Replay(GENESIS, log)
      modifies this
      ensures log == old(log) + [e] && Abs() == Apply(old(Abs()), e)
      ensures Abs() == Replay(GENESIS, log)
    {
      match e {
        case Paused => paused := true;
        case Resumed => paused := false;
        case SpeedSet(v) =>
          speed := v;
          requested := Unset;
        case GovernorShed(ceiling, _, to) =>
          speed := to;
          requested := ceiling;
        case GovernorRecovered(ceiling, _, to) =>
          speed := to;
          if to != ceiling {
            requested := ceiling;
          } else {
            requested := Unset;
          }
      }
      log := log + [e];
      assert log[..|log| - 1] == old(log);
    }

    method Handle(cmd: Command) returns (ok: bool)
      requires Valid()
      modifies this
      ensures Valid()
      ensures log == old(log) + Recorded(old(Abs()), cmd) && Abs() == After(old(Abs()), cmd)
      ensures !ok <==> cmd.SetSpeed? && !Known(cmd.speed)
    {
      StepKeepsInv(Abs(), cmd);
      ok := true;
      match cmd {
        case Pause =>
          if !paused {
            Commit(Paused);
          }
        case Resume =>
          if paused {
            Commit(Resumed);
          }
        case SetSpeed(v) =>
          if !Known(v) {
            ok := false;
          } else if v != speed {
            Commit(SpeedSet(v));
          }
        case Govern(to) =>
          var curIdx, toIdx := LadderIndex(speed), LadderIndex(to);
          var ceiling := RequestedCeiling();
          if paused {
          } else if curIdx < 0 || toIdx < 0 {
          } else if to == speed {
          } else if toIdx - curIdx == -1 {
            Commit(GovernorShed(ceiling, speed, to));
          } else if toIdx - curIdx == 1 {
            if !(LadderIndex(ceiling) >= 0 && toIdx > LadderIndex(ceiling)) {
              Commit(GovernorRecovered(ceiling, speed, to));
            }
          }
      }
    }
  }

  // ---- runs of commands ----

  function Run(s: ClockState, cmds: seq<Command>): ClockState {
    if cmds == [] then s else After(Run(s, cmds[..|cmds| - 1]), cmds[|cmds| - 1])
  }

  /** The speed the player last asked for with a valid set_speed; the initial ceiling before that. */
  function LastAsked(s: ClockState, cmds: seq<Command>): Speed {
    if cmds == [] then Ceiling(s)
    else
      var cmd := cmds[|cmds| - 1];
      if cmd.SetSpeed? && Known(cmd.speed) then cmd.speed else LastAsked(s, cmds[..|cmds| - 1])
  }

  /** The player asked for exactly the speed the governor is holding the clock at. */
  predicate AsksForGovernedSpeed(s: ClockState, cmd: Command) {
    cmd.SetSpeed? && s.requested != Unset && cmd.speed == s.speed
  }

  /** Whether the player's last valid set_speed came at a moment when it named the governed speed. */
  predicate LastAskIgnored(s: ClockState, cmds: seq<Command>) {
    cmds != [] &&
    var earlier, cmd := cmds[..|cmds| - 1], cmds[|cmds| - 1];
    if cmd.SetSpeed? && Known(cmd.speed) then AsksForGovernedSpeed(Run(s, earlier), cmd)
    else LastAskIgnored(s, earlier)
  }

  predicate NotAbove(a: Speed, b: Speed) {
    a == b || 0 <= LadderIndex(a) <= LadderIndex(b)
  }

  /** Over any interleaving of player and governor commands: the clock never runs above the recorded
      ceiling, and that ceiling is the speed the player last asked for unless that request named the
      governed speed, which records nothing and leaves the higher ceiling standing. */
  lemma {:induction false} CeilingIsTheLastAskIff(s: ClockState, cmds: seq<Command>)
    requires Inv(s)
    ensures Inv(Run(s, cmds)) && NotAbove(Run(s, cmds).speed, Ceiling(Run(s, cmds)))
    ensures Ceiling(Run(s, cmds)) == LastAsked(s, cmds) <==> !LastAskIgnored(s, cmds)
    ensures LastAskIgnored(s, cmds) ==> LadderIndex(Ceiling(Run(s, cmds))) > LadderIndex(LastAsked(s, cmds))
  {
    if cmds != [] {
      var earlier := cmds[..|cmds| - 1];
      CeilingIsTheLastAskIff(s, earlier);
      StepKeepsInv(Run(s, earlier), cmds[|cmds| - 1]);
    }
  }

  /** The player asks for 8x while governed at 8x under a 16x ceiling; the governor may still climb to 16x. */
  lemma IgnoredAskIsOvertaken()
    ensures var cmds := [SetSpeed(X16), Govern(X8), SetSpeed(X8), Govern(X16)];
            LastAsked(GENESIS, cmds) == X8 && Run(GENESIS, cmds).speed == X16
  {
    var cmds := [SetSpeed(X16), Govern(X8), SetSpeed(X8), Govern(X16)];
    assert cmds[..3] == [SetSpeed(X16), Govern(X8), SetSpeed(X8)];
    assert cmds[..3][..2] == [SetSpeed(X16), Govern(X8)];
    assert cmds[..3][..2][..1] == [SetSpeed(X16)];
    assert cmds[..3][..2][..1][..0] == [];
    assert Run(GENESIS, cmds[..3][..2][..1]) == ClockState(false, X16, Unset);
    assert Run(GENESIS, cmds[..3][..2]) == ClockState(false, X8, X16);
    assert Run(GENESIS, cmds[..3]) == ClockState(false, X8, X16);
  }

  /** A governor decision, stale or not, moves the clock by exactly one notch or not at all. */
  lemma GovernMovesOneNotch(s: ClockState, to: Speed)
    requires Inv(s)
    ensures var s' := After(s, Govern(to));
            s'.paused == s.paused && Ceiling(s') == Ceiling(s) &&
            (s'.speed != s.speed ==>
               s'.speed == to && !s.paused && NotAbove(to, Ceiling(s)) &&
               LadderIndex(s.speed) >= 0 &&
               (LadderIndex(to) == LadderIndex(s.speed) + 1 || LadderIndex(to) == LadderIndex(s.speed) - 1)) &&
            (s'.speed == s.speed ==> s' == s)
  {
  }

  /** Over any interleaving the clock is paused if and only if some pause was not followed by a resume, or it was
      paused at the start and never resumed. */
  lemma {:induction false} PausedIff(s: ClockState, cmds: seq<Command>)
    ensures Run(s, cmds).paused <==>
              (exists i :: 0 <= i < |cmds| && cmds[i] == Pause && forall j :: i < j < |cmds| ==> cmds[j] != Resume) ||
              (s.paused && forall j :: 0 <= j < |cmds| ==> cmds[j] != Resume)
  {
    if cmds != [] {
      var n := |cmds| - 1;
      var earlier := cmds[..n];
      PausedIff(s, earlier);
      PausedAfter(Run(s, earlier), cmds[n]);
      assert forall j :: 0 <= j < n ==> cmds[j] == earlier[j];
    }
  }

  lemma PausedAfter(s: ClockState, cmd: Command)
    ensures After(s, cmd).paused == if cmd == Pause then true else if cmd == Resume then false else s.paused
  {
  }

  /** A known speed the player asks for is the speed the clock runs at, and a new one lifts the governor's
      hold; an unknown one changes nothing. */
  lemma SetSpeedTakesEffect(s: ClockState, v: Speed)
    ensures var s' := After(s, SetSpeed(v));
            if v in [X1, X4, X8, X16, X32, Max] then
              s'.speed == v && (v != s.speed ==> s'.requested == Unset) && (v == s.speed ==> s' == s)
            else s' == s
  {
  }

  /** The log holds changes only: a command is recorded if and only if it changes the clock. */
  lemma RecordedIffItChanges(s: ClockState, cmd: Command)
    requires Inv(s)
    ensures Recorded(s, cmd) != [] <==> After(s, cmd) != s
    ensures |Recorded(s, cmd)| <= 1
  {
  }

  /** A decision to move to `to` takes effect if and only if the clock runs, its speed is a notch of the ladder,
      and `to` is the notch below, or the notch above and still under the ceiling. A shed records the ceiling; a
      recovery that reaches it forgets it. */
  lemma GovernTakesEffectIff(s: ClockState, to: Speed)
    requires Inv(s) && to != s.speed
    ensures var s' := After(s, Govern(to));
            s'.speed == to <==>
              !s.paused &&
              exists i :: 0 <= i <= TOP && LADDER[i] == s.speed &&
                ((i > 0 && to == LADDER[i - 1]) || (i < TOP && to == LADDER[i + 1] && i + 1 <= LadderIndex(Ceiling(s))))
    ensures var s' := After(s, Govern(to));
            s'.speed == to ==> s'.requested == if to == Ceiling(s) then Unset else Ceiling(s)
  {
    var i := LadderIndex(s.speed);
    if i >= 0 {
      assert LADDER[i] == s.speed;
    }
    if k :| 0 <= k <= TOP && LADDER[k] == s.speed && (k > 0 || k < TOP) {
      assert LadderIndex(LADDER[k]) == k;
    }
  }

  // ---- the closed loop ----

  /** The governor's windows beside the clock they steer. */
  datatype Sys = Sys(w: G.Windows, s: ClockState) {
    predicate Valid() {
      w.Valid() && Inv(s) && !s.paused && LadderIndex(s.speed) >= 0
    }
    function Idx(): int { LadderIndex(s.speed) }
    function Top(): int { LadderIndex(Ceiling(s)) }
  }

  /** Debt at ladder notch `i` under the load `c`. */
  function DebtAt(c: real, i: int): real
    requires 0 <= i <= TOP
  {
    G.Drift(c, TicksPerSecond(LADDER[i]))
  }

  function ReadingOf(y: Sys, c: real): G.Reading {
    G.Reading(G.Drift(c, TicksPerSecond(y.s.speed)), y.s.paused, y.s.speed, Ceiling(y.s))
  }

  /** One cadence: read the status, decide, and send any decision through the govern command. */
  function Cadence(y: Sys, c: real): (r: (Sys, G.Decision)) {
    var (w, d) := G.Decide(y.w, ReadingOf(y, c));
    (Sys(w, if d.NoAction? then y.s else After(y.s, Govern(d.to))), d)
  }

  /** The notch a constant load leads to from notch `e` under the ceiling `top`. */
  function Settles(c: real, e: int, top: int): (t: int)
    requires 0 <= e <= top <= TOP
    ensures 0 <= t <= top
  {
    if DebtAt(c, e) > G.SHED_THRESHOLD then Descend(c, e) else Climb(c, e, top)
  }

  function Descend(c: real, e: int): (t: int)
    requires 0 <= e <= TOP
    ensures 0 <= t <= e && (t == 0 || DebtAt(c, t) <= G.SHED_THRESHOLD)
    ensures forall j :: t < j <= e ==> DebtAt(c, j) > G.SHED_THRESHOLD
  {
    if e == 0 || DebtAt(c, e) <= G.SHED_THRESHOLD then e else Descend(c, e - 1)
  }

  function Climb(c: real, e: int, top: int): (t: int)
    requires 0 <= e <= top <= TOP
    ensures e <= t <= top
    ensures t == top || DebtAt(c, t + 1) >= G.SHED_THRESHOLD * G.RECOVER_HEADROOM
    ensures forall j :: e < j <= t ==> DebtAt(c, j) < G.SHED_THRESHOLD * G.RECOVER_HEADROOM
    decreases top - e
  {
    if e < top && DebtAt(c, e + 1) < G.SHED_THRESHOLD * G.RECOVER_HEADROOM then Climb(c, e + 1, top) else e
  }

  /** The debt projected one notch up is the debt that notch will have. */
  lemma ProjectionIsExact(c: real, tps: real, next: real)
    requires tps > 0.0
    ensures G.Drift(c, tps) * next / tps == G.Drift(c, next)
  {
    assert G.Drift(c, tps) * next == G.Drift(c, next) * tps;
  }

  lemma RoomyIff(y: Sys, c: real)
    requires y.Valid()
    ensures G.Roomy(ReadingOf(y, c))
       <==> y.Idx() < y.Top() && DebtAt(c, y.Idx() + 1) < G.SHED_THRESHOLD * G.RECOVER_HEADROOM
  {
    if y.Idx() < y.Top() {
      ProjectionIsExact(c, TicksPerSecond(y.s.speed), TicksPerSecond(LADDER[y.Idx() + 1]));
    }
  }

  /** Samples still to go until the settled notch is reached. */
  function Remaining(y: Sys, c: real): int
    requires y.Valid()
  {
    var t := Settles(c, y.Idx(), y.Top());
    var carried := G.Carried(y.w, ReadingOf(y, c));
    if y.Idx() > t then G.BREACH_SAMPLES * (y.Idx() - t) - carried.breach
    else if y.Idx() < t then G.RECOVER_SAMPLES * (t - y.Idx()) - carried.recover
    else 0
  }

  /** One cadence's effect on the way to the settled notch `t`. */
  ghost predicate Approaches(y: Sys, c: real, t: int, y': Sys, d: G.Decision)
    requires y.Valid()
  {
    && y'.Valid() && y'.Top() == y.Top() && Settles(c, y'.Idx(), y'.Top()) == t
    && Remaining(y', c) == (if y.Idx() == t then 0 else Remaining(y, c) - 1)
    && (d.NoAction? ==> y'.s == y.s)
    && (d.Shed? ==> y'.Idx() == y.Idx() - 1 >= t)
    && (d.Recover? ==> y'.Idx() == y.Idx() + 1 <= t)
  }

  lemma CadenceAbove(y: Sys, c: real)
    requires y.Valid() && c >= 0.0 && y.Idx() > Settles(c, y.Idx(), y.Top())
    ensures Approaches(y, c, Settles(c, y.Idx(), y.Top()), Cadence(y, c).0, Cadence(y, c).1)
  {
    GovernMovesOneNotch(y.s, LADDER[y.Idx() - 1]);
  }

  lemma CadenceBelow(y: Sys, c: real)
    requires y.Valid() && c >= 0.0 && y.Idx() < Settles(c, y.Idx(), y.Top())
    ensures Approaches(y, c, Settles(c, y.Idx(), y.Top()), Cadence(y, c).0, Cadence(y, c).1)
  {
    RoomyIff(y, c);
    GovernMovesOneNotch(y.s, LADDER[y.Idx() + 1]);
  }

  lemma CadenceThere(y: Sys, c: real)
    requires y.Valid() && c >= 0.0 && y.Idx() == Settles(c, y.Idx(), y.Top())
    ensures Approaches(y, c, y.Idx(), Cadence(y, c).0, Cadence(y, c).1)
  {
    RoomyIff(y, c);
  }

  /** One cadence under a constant load: every decision is accepted by the loop, heads for the settled
      notch, and brings it exactly one sample nearer. */
  lemma CadenceApproaches(y: Sys, c: real)
    requires y.Valid() && c >= 0.0
    ensures Approaches(y, c, Settles(c, y.Idx(), y.Top()), Cadence(y, c).0, Cadence(y, c).1)
  {
    var t := Settles(c, y.Idx(), y.Top());
    if y.Idx() > t {
      CadenceAbove(y, c);
    } else if y.Idx() < t {
      CadenceBelow(y, c);
    } else {
      CadenceThere(y, c);
    }
  }

  function Cadences(y: Sys, c: real, n: nat): (r: (Sys, seq<G.Decision>))
    ensures |r.1| == n
  {
    if n == 0 then (y, [])
    else
      var (before, past) := Cadences(y, c, n - 1);
      var (after, d) := Cadence(before, c);
      (after, past + [d])
  }

  function Moves(ds: seq<G.Decision>): nat {
    if ds == [] then 0 else Moves(ds[..|ds| - 1]) + if ds[|ds| - 1].NoAction? then 0 else 1
  }

  function Distance(a: int, b: int): nat {
    if a < b then b - a else a - b
  }

  lemma RemainingIsPositive(y: Sys, c: real)
    requires y.Valid()
    ensures Remaining(y, c) >= 0
    ensures Remaining(y, c) == 0 <==> y.Idx() == Settles(c, y.Idx(), y.Top())
  {
  }

  /** Where `n` cadences under the load `c` have brought `y`, and the decisions on the way. */
  ghost predicate OnCourse(y: Sys, c: real, n: nat, y': Sys, ds: seq<G.Decision>)
    requires y.Valid()
  {
    var t := Settles(c, y.Idx(), y.Top());
    && y'.Valid() && y'.Top() == y.Top() && Settles(c, y'.Idx(), y'.Top()) == t
    && (y'.Idx() == t <==> n >= Remaining(y, c))
    && (n < Remaining(y, c) ==> Remaining(y', c) == Remaining(y, c) - n)
    && Moves(ds) == Distance(y.Idx(), y'.Idx()) <= TOP
    && (y.Idx() >= t ==> t <= y'.Idx() <= y.Idx() && forall d :: d in ds ==> !d.Recover?)
    && (y.Idx() <= t ==> y.Idx() <= y'.Idx() <= t && forall d :: d in ds ==> !d.Shed?)
  }

  lemma OnCourseStep(y: Sys, c: real, n: nat, y': Sys, ds: seq<G.Decision>)
    requires y.Valid() && c >= 0.0 && OnCourse(y, c, n, y', ds)
    ensures OnCourse(y, c, n + 1, Cadence(y', c).0, ds + [Cadence(y', c).1])
  {
    CadenceApproaches(y', c);
    var (after, d) := Cadence(y', c);
    assert (ds + [d])[..|ds|] == ds;
    RemainingIsPositive(y', c);
    RemainingIsPositive(after, c);
  }

  /** No flapping. From any windows and any notch, under a constant load: decisions are all sheds or all
      recoveries, one per notch travelled and so at most four; the settled notch is reached after
      exactly `Remaining` samples and never left. */
  lemma {:induction false} ConstantLoadSettles(y: Sys, c: real, n: nat)
    requires y.Valid() && c >= 0.0
    ensures OnCourse(y, c, n, Cadences(y, c, n).0, Cadences(y, c, n).1)
  {
    if n == 0 {
      RemainingIsPositive(y, c);
    } else {
      ConstantLoadSettles(y, c, n - 1);
      OnCourseStep(y, c, n - 1, Cadences(y, c, n - 1).0, Cadences(y, c, n - 1).1);
    }
  }
}
