/** Two simpler clocks that the stateful one refines, and the absence of overflow.

    With headroom below the largest `i64` the state of the clock is a function of
    the last true time and one number, the error of the last read, and that number
    follows a recurrence. When drift is slow, backward and within budget the error
    itself is a function of true time, so no history matters at all. */
module ClockRefinement {
  import opened Int64
  import opened ClockModel
  import opened ClockRuns

  /** 2^63 / 10^6: no drift term is larger, because the product saturates. */
  const MAX_DRIFT: int := 9_223_372_036_854

  /** The last scheduled resync not after `t`. */
  function PeriodStart(c: Config, base: int, t: int): int
    requires c.period > 0
  {
    base + (t - base) / c.period * c.period
  }

  ghost predicate Headroom(c: Config, t: int) {
    t + c.eps + 2 * MAX_DRIFT <= MAX
  }

  ghost predicate CalmRun(c: Config, base: int, ts: seq<int>) {
    InOrder(c, base, ts) && forall i :: 0 <= i < |ts| ==> Headroom(c, ts[i])
  }

  // ---- Drift -----------------------------------------------------------------

  lemma DriftMonotone(c: Config, a: int, b: int)
    requires a <= b
    ensures c.drift >= 0 ==> Drift(c, a) <= Drift(c, b)
    ensures c.drift <= 0 ==> Drift(c, a) >= Drift(c, b)
  {
    ProductMonotone(a, b, c.drift);
  }

  lemma DriftBounds(c: Config, a: int)
    requires a >= 0
    ensures -MAX_DRIFT <= Drift(c, a) <= MAX_DRIFT
    ensures c.drift >= 0 ==> Drift(c, a) >= 0
    ensures c.drift <= 0 ==> Drift(c, a) <= 0
    ensures Drift(c, 0) == 0
  {
  }

  /** The drift in plain arithmetic: the rate times the time elapsed, each product held to
      what an `i64` can hold and rounded toward zero. */
  lemma DriftFormula(c: Config, elapsed: int)
    requires elapsed >= 0
    ensures c.drift >= 0 ==> Drift(c, elapsed) == Min(elapsed * c.drift, MAX) / MICROS
    ensures c.drift <= 0 ==> Drift(c, elapsed) == -(Min(elapsed * -c.drift, -MIN) / MICROS)
  {
    assert elapsed * -c.drift == -(elapsed * c.drift);
    ProductMonotone(0, elapsed, c.drift);
  }

  lemma ProductGap(a: int, b: int, r: int)
    requires a <= b && 0 <= r <= MICROS
    ensures b * r <= a * r + (b - a) * MICROS
  {
    assert b * r == a * r + (b - a) * r;
    ProductMonotone(r, MICROS, b - a);
  }

  lemma QuotientGap(u: int, v: int, k: int)
    requires v <= u + k * MICROS
    ensures v / MICROS <= u / MICROS + k
  {
  }

  /** A clock that loses at most one second a second never runs backward. */
  lemma SlowDrift(c: Config, a: int, b: int)
    requires 0 <= a <= b && -MICROS <= c.drift <= 0
    ensures Drift(c, a) - Drift(c, b) <= b - a
  {
    hide Drift;
    DriftFormula(c, a);
    DriftFormula(c, b);
    ProductGap(a, b, -c.drift);
    QuotientGap(Min(a * -c.drift, -MIN), Min(b * -c.drift, -MIN), b - a);
  }

  // ---- Periods ---------------------------------------------------------------

  lemma PeriodStartBounds(c: Config, base: int, t: int)
    requires c.period > 0 && base <= t
    ensures base <= PeriodStart(c, base, t) <= t < PeriodStart(c, base, t) + c.period
    ensures PeriodStart(c, base, base) == base
  {
  }

  /** The periods begun by `t` are those begun by `a` and those begun from there on. */
  lemma PeriodStartAdds(c: Config, base: int, a: int, t: int)
    requires c.period > 0 && base <= a <= t
    ensures var sync := PeriodStart(c, base, a);
            PeriodStart(c, base, t) == sync + (t - sync) / c.period * c.period
  {
    var k := (a - base) / c.period;
    var q := (t - base - k * c.period) / c.period;
    assert k * c.period + q * c.period == (k + q) * c.period;
    QuotientIs(t - base, c.period, k + q);
  }

  /** Catching up from the period of the last read lands in the period of this one. */
  lemma CatchUpToPeriodStart(c: Config, base: int, s: State, t: int)
    requires ValidConfig(c) && Settled(c, base, s) && s.lastTrue <= t < MAX
    requires s.lastSync == PeriodStart(c, base, s.lastTrue)
    ensures var r := CatchUp(c, s, t);
            && r.lastSync == PeriodStart(c, base, t)
            && r.nextResync == SatAdd(r.lastSync, c.period)
            && r.lastSim == s.lastSim
            && (if r.lastSync == s.lastSync then r == s
                else r.offset == 0 && s.lastTrue < r.lastSync)
  {
    PeriodStartBounds(c, base, s.lastTrue);
    PeriodStartAdds(c, base, s.lastTrue, t);
    hide PeriodStart;
    CatchUpAdvances(c, s, t);
  }

  /** After any reads in order, catching up has stopped at the last scheduled resync not
      after true time, and the next one is still ahead. */
  lemma {:induction false} OnSchedule(c: Config, base: int, ts: seq<int>)
    requires InOrder(c, base, ts)
    ensures var s, t := After(c, base, ts), LastTrue(base, ts);
            && s.lastTrue == t
            && s.lastSync == PeriodStart(c, base, t) <= t < s.nextResync == SatAdd(s.lastSync, c.period)
  {
    PeriodStartBounds(c, base, LastTrue(base, ts));
    if ts != [] {
      var before, t := ts[..|ts| - 1], ts[|ts| - 1];
      hide PeriodStart, SimTime, CatchUp;
      OnSchedule(c, base, before);
      SettledRun(c, base, before);
      CatchUpToPeriodStart(c, base, After(c, base, before), t);
    }
  }

  // ---- The state is true time and one number ---------------------------------

  /** The state after a read at `t` that returned `t + e`. */
  function StateOf(c: Config, base: int, t: int, e: int): State
    requires c.period > 0
  {
    var s := PeriodStart(c, base, t);
    State(e - Drift(c, t - s), t + e, SatAdd(s, c.period), s, t)
  }

  /** The error of a read at `t2` before it is clamped, after a read at `t1` with error `e`. */
  function RawError(c: Config, base: int, e: int, t1: int, t2: int): int
    requires c.period > 0
  {
    var s1, s2 := PeriodStart(c, base, t1), PeriodStart(c, base, t2);
    if s1 == s2 then e - Drift(c, t1 - s1) + Drift(c, t2 - s2) else Drift(c, t2 - s2)
  }

  function ClampedError(c: Config, base: int, e: int, t1: int, t2: int): int
    requires c.period > 0
  {
    Clamp(RawError(c, base, e, t1, t2), Max(e - (t2 - t1), -c.eps), c.eps)
  }

  /** Every plain subtraction of a read is in range and every saturating addition or
      subtraction of `compute_sim_time` and `clamp_sim_time` is exact. */
  ghost predicate OverflowFree(c: Config, s: State, t: int)
    requires c.period > 0
  {
    var r := CatchUp(c, s, t);
    var drift := Drift(c, t - r.lastSync);
    var sim := t + r.offset + drift;
    var out := Read(c, s, t).lastSim;
    && InRange(t - r.lastSync) && InRange(t - c.eps) && InRange(t + c.eps)
    && InRange(t + r.offset) && InRange(sim)
    && SimTime(c, t, r.offset, r.lastSync) == sim
    && InRange(out - sim) && InRange(r.offset + (out - sim))
    && InRange(out - t)
  }

  lemma SimTimeExact(c: Config, t: int, offset: int, sync: int)
    requires ValidConfig(c) && 0 <= sync <= t && Headroom(c, t)
    requires -c.eps - MAX_DRIFT <= offset <= c.eps + MAX_DRIFT
    ensures SimTime(c, t, offset, sync) == t + offset + Drift(c, t - sync)
    ensures InRange(t + offset) && InRange(t + offset + Drift(c, t - sync))
  {
  }

  /** With nothing saturating, the end of a read clamps the error. */
  lemma FinishExact(c: Config, r: State, t: int, raw: int)
    requires ValidConfig(c) && 0 <= t && Headroom(c, t)
    requires r.lastSim - c.eps <= t && r.lastSim - t - raw <= c.eps + 2 * MAX_DRIFT
    requires InRange(t + raw) && -c.eps - 2 * MAX_DRIFT <= raw
    requires -MAX_DRIFT <= r.offset - raw <= MAX_DRIFT
    ensures var e := Clamp(raw, Max(r.lastSim - t, -c.eps), c.eps);
            && Finish(c, r, t, t + raw) == State(r.offset + e - raw, t + e, r.nextResync, r.lastSync, t)
            && -c.eps <= e <= c.eps
            && InRange(e - raw)
  {
  }

  /** Catching up from `StateOf` leaves an offset that is the unclamped error less the
      drift, and a simulated time that is true time plus that error. */
  lemma ExactCatchUp(c: Config, base: int, e: int, t1: int, t2: int)
    requires ValidConfig(c) && 0 <= base <= t1 <= t2 && Headroom(c, t2)
    requires -c.eps <= e <= c.eps
    requires Settled(c, base, StateOf(c, base, t1, e))
    ensures var raw := RawError(c, base, e, t1, t2);
            var r := CatchUp(c, StateOf(c, base, t1, e), t2);
            var drift := Drift(c, t2 - r.lastSync);
            && r.lastSync == PeriodStart(c, base, t2) && base <= r.lastSync <= t2
            && r.nextResync == SatAdd(r.lastSync, c.period) && r.lastSim == t1 + e
            && r.offset + drift == raw && -MAX_DRIFT <= drift <= MAX_DRIFT
            && InRange(t2 + r.offset) && InRange(t2 + raw)
            && SimTime(c, t2, r.offset, r.lastSync) == t2 + raw
            && e - raw <= c.eps + 2 * MAX_DRIFT && -c.eps - 2 * MAX_DRIFT <= raw
  {
    hide Drift, PeriodStart, CatchUp, SimTime;
    var s := StateOf(c, base, t1, e);
    var r := CatchUp(c, s, t2);
    PeriodStartBounds(c, base, t1);
    PeriodStartBounds(c, base, t2);
    CatchUpToPeriodStart(c, base, s, t2);
    DriftBounds(c, t1 - s.lastSync);
    DriftBounds(c, t2 - r.lastSync);
    SimTimeExact(c, t2, r.offset, r.lastSync);
  }

  /** One read from a state that is exactly `StateOf`: the error moves by `ClampedError`. */
  lemma ExactStep(c: Config, base: int, e: int, t1: int, t2: int)
    requires ValidConfig(c) && 0 <= base <= t1 <= t2 && Headroom(c, t2)
    requires -c.eps <= e <= c.eps
    requires Settled(c, base, StateOf(c, base, t1, e))
    ensures var e2 := ClampedError(c, base, e, t1, t2);
            && -c.eps <= e2 <= c.eps
            && Read(c, StateOf(c, base, t1, e), t2) == StateOf(c, base, t2, e2)
            && InRange(e2 - RawError(c, base, e, t1, t2))
  {
    hide Drift, PeriodStart, CatchUp, SimTime, Settled, RawError, Finish;
    ExactCatchUp(c, base, e, t1, t2);
    FinishExact(c, CatchUp(c, StateOf(c, base, t1, e), t2), t2, RawError(c, base, e, t1, t2));
  }

  /** The same read neither saturates nor overflows. */
  lemma ExactStepOverflowFree(c: Config, base: int, e: int, t1: int, t2: int)
    requires ValidConfig(c) && 0 <= base <= t1 <= t2 && Headroom(c, t2)
    requires -c.eps <= e <= c.eps
    requires Settled(c, base, StateOf(c, base, t1, e))
    ensures OverflowFree(c, StateOf(c, base, t1, e), t2)
  {
    hide Drift, PeriodStart, CatchUp, SimTime, Settled, RawError, ClampedError, Read;
    ExactCatchUp(c, base, e, t1, t2);
    ExactStep(c, base, e, t1, t2);
  }

  /** The error after a whole run, computed from the samples alone. */
  function ErrorOf(c: Config, base: int, ts: seq<int>): int
    requires c.period > 0
  {
    if ts == [] then 0
    else
      var before := ts[..|ts| - 1];
      ClampedError(c, base, ErrorOf(c, base, before), LastTrue(base, before), ts[|ts| - 1])
  }

  /** The run of the stateful clock is the run of the one-number clock. */
  lemma {:induction false} RunIsOneNumber(c: Config, base: int, ts: seq<int>)
    requires CalmRun(c, base, ts)
    ensures After(c, base, ts) == StateOf(c, base, LastTrue(base, ts), ErrorOf(c, base, ts))
    ensures -c.eps <= ErrorOf(c, base, ts) <= c.eps
  {
    if ts == [] {
      PeriodStartBounds(c, base, base);
      DriftBounds(c, 0);
    } else {
      var before := ts[..|ts| - 1];
      RunIsOneNumber(c, base, before);
      SettledRun(c, base, before);
      ExactStep(c, base, ErrorOf(c, base, before), LastTrue(base, before), ts[|ts| - 1]);
    }
  }

  /** No read of a run in order overflows, and the offset stays within `eps` plus the
      largest drift. */
  lemma OverflowFreedom(c: Config, base: int, ts: seq<int>, k: nat)
    requires CalmRun(c, base, ts) && k < |ts|
    ensures OverflowFree(c, After(c, base, ts[..k]), ts[k])
    ensures var o := After(c, base, ts[..k + 1]).offset; -c.eps - MAX_DRIFT <= o <= c.eps + MAX_DRIFT
  {
    hide OverflowFree, Drift, PeriodStart, Read, Settled, ErrorOf;
    RunIsOneNumber(c, base, ts[..k]);
    SettledRun(c, base, ts[..k]);
    ExactStepOverflowFree(c, base, ErrorOf(c, base, ts[..k]), LastTrue(base, ts[..k]), ts[k]);
    RunIsOneNumber(c, base, ts[..k + 1]);
    PeriodStartBounds(c, base, ts[k]);
    DriftBounds(c, ts[k] - PeriodStart(c, base, ts[k]));
  }

  /** True times and an uncertainty bound up to 2^60 leave that much room. */
  lemma OverflowFreedomUpTo2To60(c: Config, base: int, ts: seq<int>, k: nat)
    requires InOrder(c, base, ts) && k < |ts| && c.eps <= 0x1000_0000_0000_0000
    requires forall i :: 0 <= i < |ts| ==> ts[i] <= 0x1000_0000_0000_0000
    ensures OverflowFree(c, After(c, base, ts[..k]), ts[k])
    ensures var o := After(c, base, ts[..k + 1]).offset; -c.eps - MAX_DRIFT <= o <= c.eps + MAX_DRIFT
  {
    assert forall i :: 0 <= i < |ts| ==> Headroom(c, ts[i]);
    OverflowFreedom(c, base, ts, k);
  }

  // ---- Slow backward drift within budget: a stateless clock -------------------

  /** The drift of a whole period fits in `eps`. */
  ghost predicate WithinBudget(c: Config) {
    -Drift(c, c.period - 1) <= c.eps
  }

  /** The read at `t` returned the unclamped simulated time. */
  ghost predicate Unclamped(c: Config, s: State, t: int)
    requires c.period > 0
  {
    var r := CatchUp(c, s, t);
    Read(c, s, t).lastSim == SimTime(c, t, r.offset, r.lastSync)
  }

  lemma StatelessStep(c: Config, base: int, t1: int, t2: int)
    requires ValidConfig(c) && -MICROS <= c.drift <= 0 && WithinBudget(c)
    requires 0 <= base <= t1 <= t2 < MAX
    requires var s1 := PeriodStart(c, base, t1);
             Settled(c, base, StateOf(c, base, t1, Drift(c, t1 - s1)))
    ensures var s1, s2 := PeriodStart(c, base, t1), PeriodStart(c, base, t2);
            var s := StateOf(c, base, t1, Drift(c, t1 - s1));
            Unclamped(c, s, t2) && Read(c, s, t2) == StateOf(c, base, t2, Drift(c, t2 - s2))
  {
    hide Drift, PeriodStart, CatchUp;
    var s1, s2 := PeriodStart(c, base, t1), PeriodStart(c, base, t2);
    var s := StateOf(c, base, t1, Drift(c, t1 - s1));
    PeriodStartBounds(c, base, t1);
    PeriodStartBounds(c, base, t2);
    CatchUpToPeriodStart(c, base, s, t2);
    DriftBounds(c, t1 - s1);
    DriftBounds(c, t2 - s2);
    DriftMonotone(c, t2 - s2, c.period - 1);
    SlowDrift(c, 0, t2 - s2);
    if s1 == s2 {
      SlowDrift(c, t1 - s1, t2 - s2);
    }
  }

  /** The stateful clock equals a stateless one: whatever was read before, the read at `t`
      returns `t` plus the drift since the last scheduled resync, and the offset is zero. */
  lemma {:induction false} StatelessRun(c: Config, base: int, ts: seq<int>)
    requires InOrder(c, base, ts) && -MICROS <= c.drift <= 0 && WithinBudget(c)
    ensures var t := LastTrue(base, ts);
            var s := PeriodStart(c, base, t);
            && After(c, base, ts) == StateOf(c, base, t, Drift(c, t - s))
            && After(c, base, ts).offset == 0
    ensures ts != [] ==> Unclamped(c, After(c, base, ts[..|ts| - 1]), ts[|ts| - 1])
  {
    hide Read, Drift, Unclamped;
    if ts == [] {
      PeriodStartBounds(c, base, base);
      DriftBounds(c, 0);
    } else {
      var before := ts[..|ts| - 1];
      StatelessRun(c, base, before);
      SettledRun(c, base, before);
      StatelessStep(c, base, LastTrue(base, before), ts[|ts| - 1]);
    }
  }

  /** The same in plain arithmetic, when the product of a period and the rate fits an `i64`. */
  lemma StatelessFormula(c: Config, base: int, ts: seq<int>, k: nat)
    requires InOrder(c, base, ts) && -MICROS <= c.drift <= 0 && k < |ts|
    requires (c.period - 1) * -c.drift <= MAX
    requires (c.period - 1) * -c.drift / MICROS <= c.eps
    ensures var t := ts[k];
            var s := base + (t - base) / c.period * c.period;
            Returned(c, base, ts, k) == t - (t - s) * -c.drift / MICROS
  {
    hide Drift, After, Unclamped;
    var t := ts[k];
    var s := PeriodStart(c, base, t);
    PeriodStartBounds(c, base, t);
    PlainDrift(c, c.period - 1);
    PlainDrift(c, t - s);
    StatelessRun(c, base, ts[..k + 1]);
  }

  lemma PlainDrift(c: Config, elapsed: int)
    requires 0 <= elapsed < c.period && c.drift <= 0 && (c.period - 1) * -c.drift <= MAX
    ensures Drift(c, elapsed) == -(elapsed * -c.drift / MICROS)
  {
    DriftFormula(c, elapsed);
    ProductMonotone(elapsed, c.period - 1, -c.drift);
  }

  /** The budget is exact: no clamp fires in any run in order if and only if it is met. */
  lemma NeverClampedIff(c: Config, base: int)
    requires ValidConfig(c) && -MICROS <= c.drift <= 0 && 0 <= base && base + c.period <= MAX
    ensures (forall ts :: InOrder(c, base, ts) && ts != [] ==>
               Unclamped(c, After(c, base, ts[..|ts| - 1]), ts[|ts| - 1]))
            <==> WithinBudget(c)
  {
    if WithinBudget(c) {
      forall ts | InOrder(c, base, ts) && ts != []
        ensures Unclamped(c, After(c, base, ts[..|ts| - 1]), ts[|ts| - 1])
      {
        StatelessRun(c, base, ts);
      }
    } else {
      var ts := [base + c.period - 1];
      assert InOrder(c, base, ts) && ts[..|ts| - 1] == [];
      DriftBounds(c, c.period - 1);
      assert !Unclamped(c, After(c, base, ts[..|ts| - 1]), ts[|ts| - 1]);
    }
  }
}
