/** The environment's hour-of-day style clock, as a pure state machine.

    `Next` is the transition one `Environment.Tick` performs on the clock
    field; `Ticks` is `n` such transitions in a row. The lemmas say what the
    sequence of clock values looks like: from a value in 0..24 the clock
    stays in 0..24, moves to `(t + n) % 25` after `n` ticks and is back where
    it started after exactly 25 ticks and not before. A value outside 0..24
    (which the environment itself never produces) is only ever incremented.
 */
module Clock {

  /** The clock value after which the clock wraps round to 0. */
  const Last: int := 24

  /** The number of distinct values the clock cycles through: 0, 1, ..., 24. */
  const Period: nat := 25

  predicate InRange(t: int) {
    0 <= t <= Last
  }

  /** One tick: 24 wraps to 0, every other value is incremented. */
  function Next(t: int): (r: int)
    ensures InRange(t) ==> InRange(r) && r == (t + 1) % Period
    ensures !InRange(t) ==> r == t + 1
  {
    if t == Last then 0 else t + 1
  }

  /** The clock value after `n` ticks starting from `t`. */
  function Ticks(t: int, n: nat): int
    decreases n
  {
    if n == 0 then t else Next(Ticks(t, n - 1))
  }

  /** From a value in range, `n` ticks move the clock `n` steps round the
      25-value cycle. */
  lemma {:induction false} TicksFormula(t: int, n: nat)
    requires InRange(t)
    ensures Ticks(t, n) == (t + n) % Period
  {
    if n > 0 {
      TicksFormula(t, n - 1);
      var u := (t + n - 1) % Period;
      assert Ticks(t, n) == Next(u);
      if u == Last {
        assert (t + n) % Period == 0 by {
          assert (t + n - 1) == ((t + n - 1) / Period) * Period + Last;
        }
      } else {
        assert (t + n) % Period == u + 1 by {
          assert (t + n - 1) == ((t + n - 1) / Period) * Period + u;
          assert t + n == ((t + n - 1) / Period) * Period + (u + 1);
        }
      }
    }
  }

  /** Ticking never takes an in-range clock out of range. */
  lemma {:induction false} TicksInRange(t: int, n: nat)
    requires InRange(t)
    ensures InRange(Ticks(t, n))
  {
    if n > 0 {
      TicksInRange(t, n - 1);
    }
  }

  /** Division by the period has a unique quotient and remainder. */
  lemma ModOfDecomposition(x: int, q: int, r: int)
    requires x == q * Period + r && 0 <= r < Period
    ensures x % Period == r
  {
  }

  /** An in-range clock is back at its starting value after `n` ticks exactly
      when `n` is a whole number of 25-tick cycles: 25 consecutive ticks return
      it to where it started, and no smaller positive number of ticks does. */
  lemma TickCycle(t: int, n: nat)
    requires InRange(t)
    ensures Ticks(t, n) == t <==> n % Period == 0
  {
    TicksFormula(t, n);
    var q, r := n / Period, n % Period;
    if t + r < Period {
      ModOfDecomposition(t + n, q, t + r);
    } else {
      ModOfDecomposition(t + n, q + 1, t + r - Period);
    }
  }

  /** The clock is periodic: ticking 25 more times changes nothing. */
  lemma TicksPeriodic(t: int, n: nat)
    requires InRange(t)
    ensures Ticks(t, n + Period) == Ticks(t, n)
  {
    TicksFormula(t, n);
    TicksFormula(t, n + Period);
    assert (t + n + Period) % Period == (t + n) % Period;
  }

  /** A clock above 24 never wraps: every tick increments it. */
  lemma {:induction false} TicksAboveLast(t: int, n: nat)
    requires t > Last
    ensures Ticks(t, n) == t + n
  {
    if n > 0 {
      TicksAboveLast(t, n - 1);
    }
  }
}
