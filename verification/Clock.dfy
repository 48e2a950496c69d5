/** Clock speeds and the capped ladder (internal/clock/clock.go). */
module Clock {

  datatype Speed = X1 | X4 | X8 | X16 | X32 | Max | Unset | Other(name: nat)

  const LADDER: seq<Speed> := [X1, X4, X8, X16, X32]
  const TOP := 4

  function LadderIndex(s: Speed): (i: int)
    ensures -1 <= i <= TOP
    ensures i >= 0 ==> LADDER[i] == s
    ensures i == -1 ==> s !in LADDER
  {
    match s
    case X1 => 0
    case X4 => 1
    case X8 => 2
    case X16 => 3
    case X32 => 4
    case _ => -1
  }

  /** ParseSpeed's table: the ladder and the uncapped speed. */
  predicate Known(s: Speed) {
    s == Max || LadderIndex(s) >= 0
  }

  /** Ticks per second; 0 stands for uncapped, and for a speed the table does not hold. */
  function TicksPerSecond(s: Speed): (tps: real)
    ensures tps > 0.0 <==> LadderIndex(s) >= 0
  {
    match s
    case X1 => 1.0
    case X4 => 4.0
    case X8 => 8.0
    case X16 => 16.0
    case X32 => 32.0
    case _ => 0.0
  }

  /** From one tick a second the first notch is four times as fast, each further one twice as fast as the last. */
  lemma NotchRates(i: nat)
    requires i <= TOP
    ensures TicksPerSecond(LADDER[i]) ==
              if i == 0 then 1.0 else (if i == 1 then 4.0 else 2.0) * TicksPerSecond(LADDER[i - 1])
  {
    assert i in {0, 1, 2, 3, 4};
  }
}
