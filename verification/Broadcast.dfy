/** How often positions are broadcast: 45 times in any `tickRate` consecutive ticks, evenly spread. */
module Broadcast {
  import opened MatchSpec

  /** AdvancePositionBroadcastPhase returns true. */
  predicate Broadcasts(phase: nat, tickRate: nat) {
    phase + POSITION_BROADCAST_RATE >= tickRate
  }

  function PhaseAfter(phase: nat, tickRate: nat, ticks: nat): (p: nat)
    requires POSITION_BROADCAST_RATE <= tickRate && phase < tickRate
    ensures p < tickRate
  {
    if ticks == 0 then phase else AdvancePhase(PhaseAfter(phase, tickRate, ticks - 1), tickRate)
  }

  /** How many of the next `ticks` ticks broadcast. */
  function Count(phase: nat, tickRate: nat, ticks: nat): nat
    requires POSITION_BROADCAST_RATE <= tickRate && phase < tickRate
  {
    if ticks == 0 then 0
    else
      Count(phase, tickRate, ticks - 1) + if Broadcasts(PhaseAfter(phase, tickRate, ticks - 1), tickRate) then 1 else 0
  }

  /** Each tick adds 45 to the phase, each broadcast takes `tickRate` off. */
  lemma {:induction false} PhaseConserves(phase: nat, tickRate: nat, ticks: nat)
    requires POSITION_BROADCAST_RATE <= tickRate && phase < tickRate
    ensures phase + 45 * ticks == tickRate * Count(phase, tickRate, ticks) + PhaseAfter(phase, tickRate, ticks)
  {
    if ticks > 0 {
      PhaseConserves(phase, tickRate, ticks - 1);
      OneMore(tickRate, Count(phase, tickRate, ticks - 1));
    }
  }

  lemma OneMore(t: nat, c: nat)
    ensures t * (c + 1) == t * c + t
  {
  }

  lemma QuotientIs(x: nat, d: nat, q: nat, r: nat)
    requires d > 0 && x == d * q + r && r < d
    ensures x / d == q && x % d == r
  {
    var k: int := x / d - q;
    assert d * (x / d) == d * q + d * k;
    assert x % d == r - d * k;
    assert k >= 1 ==> d * k >= d;
    assert k <= -1 ==> d * k + d <= 0;
  }

  /** After `n` ticks of a match exactly floor(45 n / tickRate) broadcasts have happened. */
  lemma BroadcastsSoFar(tickRate: nat, n: nat)
    requires POSITION_BROADCAST_RATE <= tickRate
    ensures Count(0, tickRate, n) == 45 * n / tickRate
    ensures PhaseAfter(0, tickRate, n) == 45 * n % tickRate
  {
    PhaseConserves(0, tickRate, n);
    QuotientIs(45 * n, tickRate, Count(0, tickRate, n), PhaseAfter(0, tickRate, n));
  }

  /** Whatever the phase, `tickRate` consecutive ticks hold exactly 45 broadcasts and end at the same phase. */
  lemma AnySecondHas45(phase: nat, tickRate: nat)
    requires POSITION_BROADCAST_RATE <= tickRate && phase < tickRate
    ensures Count(phase, tickRate, tickRate) == 45 && PhaseAfter(phase, tickRate, tickRate) == phase
  {
    PhaseConserves(phase, tickRate, tickRate);
    var x := phase + 45 * tickRate;
    assert tickRate * 45 == 45 * tickRate;
    QuotientIs(x, tickRate, 45, phase);
    QuotientIs(x, tickRate, Count(phase, tickRate, tickRate), PhaseAfter(phase, tickRate, tickRate));
  }

  /** Any stretch of ticks holds, up to one, its share of broadcasts. */
  lemma EvenlySpread(phase: nat, tickRate: nat, n: nat)
    requires POSITION_BROADCAST_RATE <= tickRate && phase < tickRate
    ensures 45 * n - tickRate < tickRate * Count(phase, tickRate, n) < 45 * n + tickRate
  {
    PhaseConserves(phase, tickRate, n);
  }

  /** The loop of ticks itself, as the match runs it. */
  method RunTicks(tickRate: nat, n: nat) returns (broadcasts: nat, phase: nat)
    requires POSITION_BROADCAST_RATE <= tickRate
    ensures broadcasts == 45 * n / tickRate && phase == 45 * n % tickRate
  {
    broadcasts, phase := 0, 0;
    for i := 0 to n
      invariant broadcasts == Count(0, tickRate, i) && phase == PhaseAfter(0, tickRate, i)
    {
      if Broadcasts(phase, tickRate) { broadcasts := broadcasts + 1; }
      phase := AdvancePhase(phase, tickRate);
    }
    BroadcastsSoFar(tickRate, n);
  }
}
