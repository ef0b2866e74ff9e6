/** The error of the clock over every run in order, with no room asked for below the
    largest `i64`: its sign, its recurrence, and what a second read at one true time does.
    A saturated sum can only hold the simulated time down, so the first two survive it. */
module ClockErrors {
  import opened Int64
  import opened ClockModel
  import opened ClockRuns
  import opened ClockRefinement

  // ---- States reached by reads in order ------------------------------------------

  ghost predicate Punctual(c: Config, base: int, s: State) {
    && ValidConfig(c) && Settled(c, base, s)
    && s.lastSync == PeriodStart(c, base, s.lastTrue) <= s.lastTrue < s.nextResync
    && base <= s.lastSim <= Ceiling(c, s.lastTrue)
  }

  lemma PunctualRun(c: Config, base: int, ts: seq<int>)
    requires InOrder(c, base, ts)
    ensures Punctual(c, base, After(c, base, ts)) && After(c, base, ts).lastTrue == LastTrue(base, ts)
  {
    OnSchedule(c, base, ts);
    SettledRun(c, base, ts);
    InOrderCeiling(c, base, ts);
    RunMonotone(c, base, ts, 0, |ts|);
    assert ts[..|ts|] == ts && ts[..0] == [];
  }

  /** The read at `t` as a clamp of true time, offset and drift since the last resync. */
  lemma ReadParts(c: Config, base: int, s: State, t: int) returns (r: State, drift: int)
    requires Punctual(c, base, s) && s.lastTrue <= t < MAX
    ensures r == CatchUp(c, s, t) && drift == Drift(c, t - r.lastSync)
    ensures Read(c, s, t) == Finish(c, r, t, SatAdd(SatAdd(t, r.offset), drift))
    ensures base <= r.lastSync == PeriodStart(c, base, t) <= t && r.lastSim == s.lastSim
    ensures r.nextResync == SatAdd(r.lastSync, c.period)
    ensures if r.lastSync == s.lastSync then r == s else r.offset == 0 && s.lastTrue < r.lastSync
    ensures -MAX_DRIFT <= drift <= MAX_DRIFT && (c.drift >= 0 ==> drift >= 0) && (c.drift <= 0 ==> drift <= 0)
  {
    r := CatchUp(c, s, t);
    drift := Drift(c, t - r.lastSync);
    PeriodStartBounds(c, base, t);
    CatchUpToPeriodStart(c, base, s, t);
    hide PeriodStart, CatchUp;
    DriftBounds(c, t - r.lastSync);
    hide Drift;
    assert SatSub(t, r.lastSync) == t - r.lastSync;
  }

  lemma CeilingBelow(c: Config, t: int)
    requires c.eps >= 0 && 0 <= t < MAX
    ensures t <= Ceiling(c, t) == SatAdd(t, c.eps) <= t + c.eps
  {
  }

  lemma FloorBelowCeiling(c: Config, base: int, s: State, r: State, t: int)
    requires Punctual(c, base, s) && s.lastTrue <= t < MAX && r.lastSim == s.lastSim
    ensures InRange(Floor(c, r, t)) && Floor(c, r, t) <= Ceiling(c, t) <= MAX && t <= Ceiling(c, t)
  {
  }

  // ---- Backward drift ------------------------------------------------------------

  /** With backward drift the unclamped time, taken again, is never ahead of true time. */
  ghost predicate Behind(c: Config, s: State) {
    && 0 <= s.offset && s.lastSim <= s.lastTrue
    && SimTime(c, s.lastTrue, s.offset, s.lastSync) <= s.lastTrue
  }

  /** The end of a read in plain numbers, for a drift that is not positive. */
  lemma BehindFinish(t: int, offset: int, drift: int, floor: int, ceiling: int)
    requires 0 <= t <= ceiling <= MAX && 0 <= offset <= MAX && -MAX_DRIFT <= drift <= 0 && MIN <= floor <= t
    requires SatAdd(SatAdd(t, offset), drift) <= t
    ensures var sim := SatAdd(SatAdd(t, offset), drift);
            var out := Clamp(sim, floor, ceiling);
            var offset2 := if out != sim then SatAdd(offset, WrapSub(out, sim)) else offset;
            out <= t && 0 <= offset2 && SatAdd(SatAdd(t, offset2), drift) <= t
  {
  }

  /** Moving on from `t1` to `t2` cannot bring the unclamped time ahead. */
  lemma BehindMove(t1: int, t2: int, offset: int, drift1: int, drift2: int)
    requires 0 <= t1 <= t2 <= MAX && 0 <= offset && -MAX_DRIFT <= drift2 <= drift1 <= 0
    requires SatAdd(SatAdd(t1, offset), drift1) <= t1
    ensures SatAdd(SatAdd(t2, offset), drift2) <= t2
  {
  }

  lemma BehindParts(c: Config, base: int, s: State, t: int) returns (r: State, drift: int)
    requires Punctual(c, base, s) && s.lastTrue <= t < MAX && c.drift <= 0 && Behind(c, s)
    ensures r == CatchUp(c, s, t) && drift == Drift(c, t - r.lastSync) && -MAX_DRIFT <= drift <= 0
    ensures r.lastSync <= t && SatSub(t, r.lastSync) == t - r.lastSync
    ensures Read(c, s, t) == Finish(c, r, t, SatAdd(SatAdd(t, r.offset), drift))
    ensures 0 <= r.offset <= MAX && SatAdd(SatAdd(t, r.offset), drift) <= t
    ensures MIN <= Floor(c, r, t) <= t <= Ceiling(c, t) <= MAX
  {
    hide CatchUp, PeriodStart, Drift, Read;
    r, drift := ReadParts(c, base, s, t);
    if r.lastSync == s.lastSync {
      DriftBounds(c, s.lastTrue - s.lastSync);
      DriftMonotone(c, s.lastTrue - s.lastSync, t - r.lastSync);
      BehindMove(s.lastTrue, t, s.offset, Drift(c, s.lastTrue - s.lastSync), drift);
    }
  }

  lemma BehindStep(c: Config, base: int, s: State, t: int)
    requires Punctual(c, base, s) && s.lastTrue <= t < MAX && c.drift <= 0 && Behind(c, s)
    ensures Behind(c, Read(c, s, t))
  {
    hide CatchUp, PeriodStart, Drift, Read, Clamp, WrapSub, SatAdd, SatSub, Floor, Ceiling;
    var r, drift := BehindParts(c, base, s, t);
    BehindFinish(t, r.offset, drift, Floor(c, r, t), Ceiling(c, t));
  }

  lemma {:induction false} BehindRun(c: Config, base: int, ts: seq<int>)
    requires InOrder(c, base, ts) && c.drift <= 0
    ensures Behind(c, After(c, base, ts))
  {
    if ts == [] {
      DriftBounds(c, 0);
    } else {
      hide Read, Behind, Punctual;
      BehindRun(c, base, ts[..|ts| - 1]);
      PunctualRun(c, base, ts[..|ts| - 1]);
      BehindStep(c, base, After(c, base, ts[..|ts| - 1]), ts[|ts| - 1]);
    }
  }

  // ---- Forward drift: the error recurrence ----------------------------------------

  /** With forward drift the last value is true time, offset and drift added up, held down
      by the ceiling; the sum is never behind true time. */
  ghost predicate Ahead(c: Config, s: State) {
    var raw := s.offset + Drift(c, s.lastTrue - s.lastSync);
    raw >= 0 && s.lastSim == Min(s.lastTrue + raw, Ceiling(c, s.lastTrue))
  }

  /** The largest error a read at `t` can return: `eps`, or what is left of the range. */
  function Bound(c: Config, t: int): int {
    Ceiling(c, t) - t
  }

  /** The recurrence: with forward drift the error grows with drift inside a period, and
      across a resync it is the new drift or what monotonicity keeps of the old error;
      never above the bound. */
  function NextError(c: Config, base: int, e: int, t1: int, t2: int): int
    requires c.period > 0
  {
    var s1, s2 := PeriodStart(c, base, t1), PeriodStart(c, base, t2);
    if s1 == s2 then Min(Bound(c, t2), e + Drift(c, t2 - s2) - Drift(c, t1 - s1))
    else Min(Bound(c, t2), Max(Drift(c, t2 - s2), e - (t2 - t1)))
  }

  /** The end of a read in plain numbers, for a drift that is not negative: the new state is
      ahead again, and the value is the larger of floor and sum, held down by the ceiling. */
  lemma AheadFinish(t: int, offset: int, drift: int, last: int, eps: int)
    requires 0 <= t < MAX && 0 <= eps <= MAX && InRange(offset)
    requires 0 <= drift <= MAX_DRIFT && 0 <= offset + drift
    requires 0 <= last <= SatAdd(t, eps)
    requires last <= t + offset + drift || offset == 0 || last == SatAdd(t, eps)
    ensures var sim := SatAdd(SatAdd(t, offset), drift);
            var out := Clamp(sim, Max(last, SatSub(t, eps)), SatAdd(t, eps));
            var offset2 := if out != sim then SatAdd(offset, WrapSub(out, sim)) else offset;
            && out == Min(Max(last, t + offset + drift), SatAdd(t, eps))
            && 0 <= offset2 + drift && out == Min(t + offset2 + drift, SatAdd(t, eps))
  {
  }

  lemma AheadParts(c: Config, base: int, s: State, t: int) returns (r: State, drift: int)
    requires Punctual(c, base, s) && s.lastTrue <= t < MAX && c.drift >= 0 && Ahead(c, s)
    ensures r == CatchUp(c, s, t) && drift == Drift(c, t - r.lastSync) && 0 <= drift <= MAX_DRIFT
    ensures r.lastSync == PeriodStart(c, base, t) <= t && SatSub(t, r.lastSync) == t - r.lastSync
    ensures Read(c, s, t) == Finish(c, r, t, SatAdd(SatAdd(t, r.offset), drift))
    ensures Floor(c, r, t) == Max(s.lastSim, SatSub(t, c.eps)) && Ceiling(c, t) == SatAdd(t, c.eps)
    ensures InRange(r.offset) && 0 <= r.offset + drift && 0 <= r.lastSim == s.lastSim <= SatAdd(t, c.eps)
    ensures if PeriodStart(c, base, s.lastTrue) == PeriodStart(c, base, t)
            then r == s && s.lastSim <= t + r.offset + drift
            else r.offset == 0 && 0 < t
  {
    hide CatchUp, PeriodStart, Drift, Read;
    r, drift := ReadParts(c, base, s, t);
    if r.lastSync == s.lastSync {
      DriftMonotone(c, s.lastTrue - s.lastSync, t - r.lastSync);
    }
  }

  /** The recurrence for one read, from the numbers of the state before. */
  lemma ErrorMoves(c: Config, base: int, s: State, t: int)
    requires Punctual(c, base, s) && s.lastTrue <= t < MAX && c.drift >= 0 && Ahead(c, s)
    ensures var sync := PeriodStart(c, base, t);
            var raw := if PeriodStart(c, base, s.lastTrue) == sync then s.offset + Drift(c, t - sync) else Drift(c, t - sync);
            Min(Max(s.lastSim, t + raw), SatAdd(t, c.eps)) - t
            == NextError(c, base, s.lastSim - s.lastTrue, s.lastTrue, t)
  {
    hide PeriodStart, Drift, CatchUp, Read;
    var r, drift := AheadParts(c, base, s, t);
    if r.lastSync == s.lastSync {
      DriftMonotone(c, s.lastTrue - s.lastSync, t - r.lastSync);
    }
  }

  lemma AheadStep(c: Config, base: int, s: State, t: int)
    requires Punctual(c, base, s) && s.lastTrue <= t < MAX && c.drift >= 0 && Ahead(c, s)
    ensures var s2 := Read(c, s, t);
            && Ahead(c, s2)
            && s2.lastSim - t == NextError(c, base, s.lastSim - s.lastTrue, s.lastTrue, t)
  {
    hide CatchUp, PeriodStart, Drift, Read, Clamp, WrapSub, SatAdd, SatSub, Floor, Ceiling, NextError;
    var r, drift := AheadParts(c, base, s, t);
    AheadFinish(t, r.offset, drift, r.lastSim, c.eps);
    ErrorMoves(c, base, s, t);
  }

  lemma {:induction false} AheadRun(c: Config, base: int, ts: seq<int>)
    requires InOrder(c, base, ts) && c.drift >= 0
    ensures Ahead(c, After(c, base, ts))
  {
    if ts == [] {
      DriftBounds(c, 0);
    } else {
      hide Read, Ahead, Punctual, NextError;
      AheadRun(c, base, ts[..|ts| - 1]);
      PunctualRun(c, base, ts[..|ts| - 1]);
      AheadStep(c, base, After(c, base, ts[..|ts| - 1]), ts[|ts| - 1]);
    }
  }

  /** On the side of true time that the sign of the drift says. */
  ghost predicate Sided(c: Config, s: State) {
    if c.drift < 0 then Behind(c, s) else Ahead(c, s)
  }

  lemma SidedRun(c: Config, base: int, ts: seq<int>)
    requires InOrder(c, base, ts)
    ensures Sided(c, After(c, base, ts))
  {
    if c.drift < 0 {
      BehindRun(c, base, ts);
    } else {
      AheadRun(c, base, ts);
    }
  }

  /** The errors of consecutive reads, returned value less true time, follow the recurrence.
      The bound is `eps` wherever `t + eps` fits in an `i64`. */
  lemma ErrorRecurrence(c: Config, base: int, ts: seq<int>)
    requires InOrder(c, base, ts) && ts != [] && c.drift >= 0
    ensures var s1, s2 := After(c, base, ts[..|ts| - 1]), After(c, base, ts);
            && s2.lastTrue == ts[|ts| - 1]
            && s2.lastSim - s2.lastTrue == NextError(c, base, s1.lastSim - s1.lastTrue, s1.lastTrue, s2.lastTrue)
            && Bound(c, s2.lastTrue) == Min(c.eps, MAX - s2.lastTrue)
  {
    hide NextError, Drift, Read, Ahead, Punctual;
    AheadRun(c, base, ts[..|ts| - 1]);
    PunctualRun(c, base, ts[..|ts| - 1]);
    AheadStep(c, base, After(c, base, ts[..|ts| - 1]), ts[|ts| - 1]);
    PunctualRun(c, base, ts);
  }

  /** For samples in order the values an uncertainty can take are exactly those between the
      error of the read and `eps`. */
  lemma AdmissibleIff(c: Config, base: int, ts: seq<int>, unc: int)
    requires InOrder(c, base, ts) && ts != []
    ensures var s, t := After(c, base, ts), ts[|ts| - 1];
            Admissible(c, s, unc) <==> s.lastSim - t <= unc && t - s.lastSim <= unc && unc <= c.eps
  {
    hide After;
    PunctualRun(c, base, ts);
  }

  // ---- One-sided error and the effect of a gap ------------------------------------

  /** Backward drift never reads ahead of true time and forward drift never behind it,
      across every resync and clamp; without drift the clock is true time. */
  lemma OneSidedError(c: Config, base: int, ts: seq<int>, k: nat)
    requires InOrder(c, base, ts) && k < |ts|
    ensures c.drift <= 0 ==> ts[k] - c.eps <= Returned(c, base, ts, k) <= ts[k]
    ensures c.drift >= 0 ==> ts[k] <= Returned(c, base, ts, k) <= ts[k] + c.eps
  {
    hide Drift, Read, After, Punctual;
    PunctualRun(c, base, ts[..k + 1]);
    RunSafety(c, base, ts, k, k);
    if c.drift <= 0 {
      BehindRun(c, base, ts[..k + 1]);
    }
    if c.drift >= 0 {
      AheadRun(c, base, ts[..k + 1]);
    }
  }

  lemma {:induction false} SameStateSameFuture(c: Config, base: int, ts: seq<int>, us: seq<int>, future: seq<int>)
    requires c.period > 0 && After(c, base, ts) == After(c, base, us)
    ensures After(c, base, ts + future) == After(c, base, us + future)
  {
    hide Read;
    if future == [] {
      assert ts + future == ts && us + future == us;
    } else {
      var f := future[..|future| - 1];
      SameStateSameFuture(c, base, ts, us, f);
      assert (ts + future)[..|ts + future| - 1] == ts + f;
      assert (us + future)[..|us + future| - 1] == us + f;
    }
  }

  /** A gap of at least `eps` across a resync erases history: whatever was read before it,
      the clock is in the state of one never read, and returns the same values ever after. */
  lemma GapErasesHistory(c: Config, base: int, ts: seq<int>, t: int, future: seq<int>)
    requires InOrder(c, base, ts + [t])
    requires LastTrue(base, ts) < PeriodStart(c, base, t) && LastTrue(base, ts) + c.eps <= t
    ensures After(c, base, ts + [t] + future) == After(c, base, [t] + future)
  {
    assert (ts + [t])[|ts|] == t;
    assert InOrder(c, base, ts) && (ts != [] ==> ts[|ts| - 1] == (ts + [t])[|ts| - 1] <= t);
    assert InOrder(c, base, []) && base <= LastTrue(base, ts);
    assert (ts + [t])[..|ts|] == ts && [t][..0] == [];
    hide Read, PeriodStart, InOrder;
    AfterGap(c, base, ts, t);
    AfterGap(c, base, [], t);
    SameStateSameFuture(c, base, ts + [t], [t], future);
  }

  /** A value that is no later than the floor of `eps` leaves the clamp as it is. */
  lemma ClampAfterGap(t: int, drift: int, last: int, eps: int)
    requires 0 <= eps <= t < MAX && 0 <= last <= t && -MAX_DRIFT <= drift <= MAX_DRIFT
    requires drift >= 0 || last <= t - eps
    ensures SatAdd(SatAdd(t, 0), drift) == SatAdd(t, drift)
    ensures Clamp(SatAdd(t, drift), Max(last, SatSub(t, eps)), SatAdd(t, eps)) ==
            Clamp(SatAdd(t, drift), Max(0, SatSub(t, eps)), SatAdd(t, eps))
  {
  }

  /** The read after the gap, from the sample alone. */
  lemma ReadAfterGap(c: Config, base: int, s: State, t: int)
    requires Punctual(c, base, s) && s.lastTrue < PeriodStart(c, base, t) && s.lastTrue + c.eps <= t < MAX
    requires s.lastTrue <= t && (c.drift < 0 ==> s.lastSim <= s.lastTrue)
    ensures var sync := PeriodStart(c, base, t);
            Read(c, s, t) == Finish(c, State(0, 0, SatAdd(sync, c.period), sync, t), t, SatAdd(t, Drift(c, t - sync)))
  {
    hide Read, CatchUp, Drift, PeriodStart, SatAdd, SatSub, Clamp, Max, WrapSub, Ceiling;
    var r, drift := ReadParts(c, base, s, t);
    CeilingBelow(c, s.lastTrue);
    ClampAfterGap(t, drift, s.lastSim, c.eps);
    CeilingBelow(c, t);
  }

  lemma AfterGap(c: Config, base: int, ts: seq<int>, t: int)
    requires InOrder(c, base, ts) && LastTrue(base, ts) <= t < MAX
    requires LastTrue(base, ts) < PeriodStart(c, base, t) && LastTrue(base, ts) + c.eps <= t
    ensures var sync := PeriodStart(c, base, t);
            Read(c, After(c, base, ts), t) ==
            Finish(c, State(0, 0, SatAdd(sync, c.period), sync, t), t, SatAdd(t, Drift(c, t - sync)))
  {
    hide Read, Drift, PeriodStart, Finish;
    PunctualRun(c, base, ts);
    if c.drift < 0 {
      BehindRun(c, base, ts);
    }
    ReadAfterGap(c, base, After(c, base, ts), t);
  }

  lemma AheadValue(c: Config, base: int, s: State, t: int)
    requires Punctual(c, base, s) && s.lastTrue <= t < MAX && c.drift >= 0 && Ahead(c, s)
    requires s.offset == 0 && s.lastSim <= t
    ensures Read(c, s, t).lastSim == Min(t + Drift(c, t - PeriodStart(c, base, t)), Min(t + c.eps, MAX))
  {
    hide CatchUp, PeriodStart, Drift, Read, Clamp, WrapSub, SatSub, Floor, Ceiling;
    var r, drift := AheadParts(c, base, s, t);
    AheadFinish(t, r.offset, drift, r.lastSim, c.eps);
  }

  /** The first read of a forward clock in plain arithmetic: the drift since the last
      scheduled resync, held down by `eps` and by the range. */
  lemma ForwardFirstRead(c: Config, base: int, t: int)
    requires InOrder(c, base, [t]) && c.drift >= 0
    ensures var elapsed := (t - base) % c.period;
            Returned(c, base, [t], 0) ==
            Min(t + Min(elapsed * c.drift, MAX) / MICROS, Min(t + c.eps, MAX))
  {
    assert [t][0] == t && [t][..0] == [] && [t][..1] == [t] && InOrder(c, base, []);
    PeriodElapsed(c, base, t);
    hide Read, Drift, InOrder, PeriodStart, Punctual, Ahead;
    AfterNext(c, base, [t], 0);
    PunctualRun(c, base, []);
    AheadRun(c, base, []);
    AheadValue(c, base, Init(c, base), t);
    DriftFormula(c, t - PeriodStart(c, base, t));
  }

  lemma GapClamp(t: int, drift: int, eps: int)
    requires 0 <= eps <= t < MAX && -MAX_DRIFT <= drift <= MAX_DRIFT
    ensures Clamp(SatAdd(t, drift), Max(0, SatSub(t, eps)), SatAdd(t, eps)) ==
            if drift >= 0 then Min(t + drift, Min(t + eps, MAX)) else Max(t + drift, t - eps)
  {
  }

  lemma AfterGapValue(c: Config, base: int, ts: seq<int>, t: int)
    requires InOrder(c, base, ts) && LastTrue(base, ts) <= t < MAX
    requires LastTrue(base, ts) < PeriodStart(c, base, t) && LastTrue(base, ts) + c.eps <= t
    ensures var drift := Drift(c, t - PeriodStart(c, base, t));
            Read(c, After(c, base, ts), t).lastSim ==
            if drift >= 0 then Min(t + drift, Min(t + c.eps, MAX)) else Max(t + drift, t - c.eps)
  {
    PunctualRun(c, base, ts);
    PeriodStartBounds(c, base, t);
    DriftBounds(c, t - PeriodStart(c, base, t));
    GapClamp(t, Drift(c, t - PeriodStart(c, base, t)), c.eps);
    hide Read, Drift, PeriodStart, SatAdd, SatSub, Clamp, WrapSub, InOrder;
    AfterGap(c, base, ts, t);
  }

  lemma InOrderBefore(c: Config, base: int, ts: seq<int>, t: int)
    requires InOrder(c, base, ts + [t])
    ensures ValidConfig(c) && InOrder(c, base, ts) && 0 <= base <= LastTrue(base, ts) <= t < MAX
  {
    var all := ts + [t];
    assert all[|ts|] == t && all[..|ts|] == ts;
    assert ts != [] ==> ts[|ts| - 1] == all[|ts| - 1] <= t;
  }

  lemma LastRead(c: Config, base: int, ts: seq<int>, t: int)
    requires c.period > 0
    ensures Returned(c, base, ts + [t], |ts|) == Read(c, After(c, base, ts), t).lastSim
  {
    assert (ts + [t])[..|ts| + 1] == ts + [t] && (ts + [t])[..|ts|] == ts;
    hide Read;
    AfterNext(c, base, ts + [t], |ts|);
  }

  lemma PeriodElapsed(c: Config, base: int, t: int)
    requires c.period > 0
    ensures t - PeriodStart(c, base, t) == (t - base) % c.period
  {
  }

  /** The read after a gap in plain arithmetic, for every drift and whatever was read before. */
  lemma ReadAfterGapFormula(c: Config, base: int, ts: seq<int>, t: int)
    requires InOrder(c, base, ts + [t])
    requires LastTrue(base, ts) < t - (t - base) % c.period && LastTrue(base, ts) + c.eps <= t
    ensures var elapsed := (t - base) % c.period;
            Returned(c, base, ts + [t], |ts|) ==
            if c.drift >= 0 then Min(t + Min(elapsed * c.drift, MAX) / MICROS, Min(t + c.eps, MAX))
            else Max(t - Min(elapsed * -c.drift, -MIN) / MICROS, t - c.eps)
  {
    hide Read, Drift, InOrder, PeriodStart, After, Returned, LastTrue;
    InOrderBefore(c, base, ts, t);
    PeriodElapsed(c, base, t);
    PeriodStartBounds(c, base, t);
    AfterGapValue(c, base, ts, t);
    LastRead(c, base, ts, t);
    var elapsed := t - PeriodStart(c, base, t);
    DriftFormula(c, elapsed);
    DriftBounds(c, elapsed);
  }

  // ---- Reading twice at one true time -------------------------------------------

  /** The fold of a clamp into the offset never lifts the next value at the same time,
      whatever saturates or wraps. */
  lemma FoldedClampHolds(t: int, offset: int, drift: int, floor: int, ceiling: int)
    requires 0 <= t <= MAX && InRange(offset) && InRange(drift)
    requires InRange(floor) && floor <= ceiling <= MAX
    ensures var sim := SatAdd(SatAdd(t, offset), drift);
            var out := Clamp(sim, floor, ceiling);
            var offset2 := if out != sim then SatAdd(offset, WrapSub(out, sim)) else offset;
            Clamp(SatAdd(SatAdd(t, offset2), drift), out, ceiling) == out
  {
  }

  lemma FloorIsLast(c: Config, base: int, s: State)
    requires Punctual(c, base, s)
    ensures Floor(c, s, s.lastTrue) == s.lastSim
  {
  }

  lemma RereadStep(c: Config, base: int, s: State, t: int)
    requires Punctual(c, base, s) && s.lastTrue <= t < MAX && Punctual(c, base, Read(c, s, t))
    ensures Read(c, Read(c, s, t), t).lastSim == Read(c, s, t).lastSim
  {
    hide CatchUp, Drift, PeriodStart, Read, SatAdd, SatSub, Clamp, WrapSub, Ceiling, Floor;
    var r, drift := ReadParts(c, base, s, t);
    FloorBelowCeiling(c, base, s, r, t);
    FoldedClampHolds(t, r.offset, drift, Floor(c, r, t), Ceiling(c, t));
    var r2, drift2 := ReadParts(c, base, Read(c, s, t), t);
    FloorIsLast(c, base, Read(c, s, t));
  }

  /** A second read at the same true time returns the same value, for every drift and
      every `i64` true time below the largest. */
  lemma RereadReturnsSame(c: Config, base: int, ts: seq<int>)
    requires InOrder(c, base, ts) && ts != []
    ensures Read(c, After(c, base, ts), ts[|ts| - 1]).lastSim == After(c, base, ts).lastSim
  {
    hide Read, Punctual;
    PunctualRun(c, base, ts[..|ts| - 1]);
    PunctualRun(c, base, ts);
    RereadStep(c, base, After(c, base, ts[..|ts| - 1]), ts[|ts| - 1]);
  }

  lemma UnchangedIff(c: Config, base: int, s: State)
    requires Punctual(c, base, s) && Sided(c, s) && Read(c, s, s.lastTrue).lastSim == s.lastSim
    ensures var sim := SimTime(c, s.lastTrue, s.offset, s.lastSync);
            Read(c, s, s.lastTrue) == s <==> sim == s.lastSim || (sim < s.lastSim && s.offset == MAX)
  {
    hide CatchUp, Drift, PeriodStart, Read;
    var r, drift := ReadParts(c, base, s, s.lastTrue);
  }

  /** Exactly when it also leaves the state unchanged, seen from the state: when it is not
      clamped, or when the offset is already at the top of its range. */
  lemma RereadUnchangedIff(c: Config, base: int, ts: seq<int>)
    requires InOrder(c, base, ts) && ts != []
    ensures var s, t := After(c, base, ts), ts[|ts| - 1];
            var sim := SimTime(c, t, s.offset, s.lastSync);
            Read(c, s, t) == s <==> sim == s.lastSim || (sim < s.lastSim && s.offset == MAX)
  {
    hide Read, Punctual, Sided, SimTime;
    RereadReturnsSame(c, base, ts);
    PunctualRun(c, base, ts);
    SidedRun(c, base, ts);
    hide InOrder, After;
    UnchangedIff(c, base, After(c, base, ts));
  }

  /** The guard before the first read, on its own terms: it will not be clamped; or the sums
      it forms and the sum the next read will form all fit in an `i64`; or the clamp drives
      the offset to the top of its range. */
  ghost predicate FoldHolds(c: Config, s: State, t: int)
    requires c.period > 0
  {
    var r := CatchUp(c, s, t);
    var drift := Drift(c, t - r.lastSync);
    var sim := SimTime(c, t, r.offset, r.lastSync);
    var out := Clamp(sim, Floor(c, r, t), Ceiling(c, t));
    || out == sim
    || (t + r.offset <= MAX && t + r.offset + drift <= MAX && out - drift <= MAX)
    || (c.drift < 0 && r.offset + (out - sim) >= MAX)
  }

  /** A clamp folded in twice, in plain numbers, for a drift that is not positive. */
  lemma BackwardFold(t: int, offset: int, drift: int, floor: int, ceiling: int)
    requires 0 <= t <= ceiling <= MAX && 0 <= offset <= MAX && -MAX_DRIFT <= drift <= 0 && MIN <= floor <= t
    requires SatAdd(SatAdd(t, offset), drift) <= t
    ensures var sim := SatAdd(SatAdd(t, offset), drift);
            var out := Clamp(sim, floor, ceiling);
            var offset2 := if out != sim then SatAdd(offset, WrapSub(out, sim)) else offset;
            var sim2 := SatAdd(SatAdd(t, offset2), drift);
            sim2 == out || (sim2 < out && offset2 == MAX) <==>
            out == sim || (t + offset <= MAX && out - drift <= MAX) || offset + (out - sim) >= MAX
  {
  }

  /** The same for a drift that is not negative. */
  lemma ForwardFold(t: int, offset: int, drift: int, last: int, eps: int)
    requires 0 <= t < MAX && 0 <= eps <= MAX && InRange(offset)
    requires 0 <= drift <= MAX_DRIFT && 0 <= offset + drift
    requires 0 <= last <= SatAdd(t, eps)
    requires last <= t + offset + drift || (offset == 0 && 0 < t) || last == SatAdd(t, eps)
    ensures var sim := SatAdd(SatAdd(t, offset), drift);
            var out := Clamp(sim, Max(last, SatSub(t, eps)), SatAdd(t, eps));
            var offset2 := if out != sim then SatAdd(offset, WrapSub(out, sim)) else offset;
            var sim2 := SatAdd(SatAdd(t, offset2), drift);
            sim2 == out || (sim2 < out && offset2 == MAX) <==>
            out == sim || (t + offset <= MAX && t + offset + drift <= MAX && out - drift <= MAX)
  {
  }

  lemma BackwardFoldStep(c: Config, base: int, s: State, t: int)
    requires Punctual(c, base, s) && s.lastTrue <= t < MAX && c.drift < 0 && Behind(c, s)
    ensures var s2 := Read(c, s, t);
            var sim2 := SimTime(c, t, s2.offset, s2.lastSync);
            sim2 == s2.lastSim || (sim2 < s2.lastSim && s2.offset == MAX) <==> FoldHolds(c, s, t)
  {
    hide CatchUp, PeriodStart, Drift, Read, Clamp, WrapSub, SatAdd, SatSub, Floor, Ceiling;
    var r, drift := BehindParts(c, base, s, t);
    BackwardFold(t, r.offset, drift, Floor(c, r, t), Ceiling(c, t));
  }

  lemma ForwardFoldStep(c: Config, base: int, s: State, t: int)
    requires Punctual(c, base, s) && s.lastTrue <= t < MAX && c.drift >= 0 && Ahead(c, s)
    ensures var s2 := Read(c, s, t);
            var sim2 := SimTime(c, t, s2.offset, s2.lastSync);
            sim2 == s2.lastSim || (sim2 < s2.lastSim && s2.offset == MAX) <==> FoldHolds(c, s, t)
  {
    hide CatchUp, PeriodStart, Drift, Read, Clamp, WrapSub, SatAdd, SatSub, Floor, Ceiling;
    var r, drift := AheadParts(c, base, s, t);
    ForwardFold(t, r.offset, drift, r.lastSim, c.eps);
  }

  /** Exactly when a second read at the same true time leaves the whole state unchanged,
      by a guard on the first. */
  lemma RereadChangesNothingIff(c: Config, base: int, ts: seq<int>)
    requires InOrder(c, base, ts) && ts != []
    ensures var t := ts[|ts| - 1];
            Read(c, After(c, base, ts), t) == After(c, base, ts) <==>
            FoldHolds(c, After(c, base, ts[..|ts| - 1]), t)
  {
    hide Read, FoldHolds, Punctual, Behind, Ahead, SimTime;
    var s, t := After(c, base, ts[..|ts| - 1]), ts[|ts| - 1];
    RereadUnchangedIff(c, base, ts);
    assert InOrder(c, base, ts[..|ts| - 1]);
    PunctualRun(c, base, ts[..|ts| - 1]);
    SidedRun(c, base, ts[..|ts| - 1]);
    if c.drift < 0 {
      BackwardFoldStep(c, base, s, t);
    } else {
      ForwardFoldStep(c, base, s, t);
    }
  }

  /** With headroom the guard always holds. */
  lemma HeadroomHolds(c: Config, base: int, e: int, t1: int, t2: int)
    requires ValidConfig(c) && 0 <= base <= t1 <= t2 && Headroom(c, t2)
    requires -c.eps <= e <= c.eps
    requires Settled(c, base, StateOf(c, base, t1, e))
    ensures FoldHolds(c, StateOf(c, base, t1, e), t2)
  {
    hide Drift, PeriodStart, CatchUp, SimTime, Settled, RawError;
    ExactCatchUp(c, base, e, t1, t2);
  }

  lemma RereadChangesNothing(c: Config, base: int, ts: seq<int>)
    requires CalmRun(c, base, ts) && ts != []
    ensures Read(c, After(c, base, ts), ts[|ts| - 1]) == After(c, base, ts)
  {
    var before, t := ts[..|ts| - 1], ts[|ts| - 1];
    hide Read, FoldHolds, Settled;
    RunIsOneNumber(c, base, before);
    SettledRun(c, base, before);
    HeadroomHolds(c, base, ErrorOf(c, base, before), LastTrue(base, before), t);
    RereadChangesNothingIff(c, base, ts);
  }

  /** Headroom is needed for that: at the top of the `i64` range a saturated time makes a
      second read at the same true time move the offset again. */
  lemma RereadWithoutHeadroomMovesOffset()
    ensures var c, base, t := Config(1_000_000, 0, 2_000_000), MAX - 1_001, MAX - 1;
            && InOrder(c, base, [t])
            && After(c, base, [t]).offset == -1
            && Read(c, After(c, base, [t]), t).offset == -2
  {
  }
}
