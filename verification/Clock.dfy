/** The simulated drifting clock.

    The first half gives the meaning of one read as a function from state to
    state, with the catch-up on missed resyncs written as a single division.
    The second half is the clock object itself, with its nested catch-up loops
    and in-place updates, proved equal to that function. */
module ClockModel {
  import opened Int64

  const MICROS: int := 1_000_000

  /** `drift` is in microseconds per second, `eps` and `period` in microseconds. */
  datatype Config = Config(drift: int, eps: int, period: int)

  ghost predicate ValidConfig(c: Config) {
    InRange(c.drift) && 0 <= c.eps <= MAX && 0 < c.period <= MAX
  }

  datatype State = State(
    offset: int,      // base_sim_offset_us
    lastSim: int,     // last_sim_us and last_sim_time
    nextResync: int,  // next_resync_sim_us
    lastSync: int,    // last_sync_true_time
    lastTrue: int)    // last_true_time

  function Init(c: Config, base: int): State {
    State(0, base, SatAdd(base, c.period), base, base)
  }

  /** Drift accumulated over `elapsed` microseconds. */
  function Drift(c: Config, elapsed: int): int {
    TruncDiv(SatMul(elapsed, c.drift), MICROS)
  }

  function SimTime(c: Config, t: int, offset: int, lastSync: int): int {
    SatAdd(SatAdd(t, offset), Drift(c, SatSub(t, lastSync)))
  }

  function Clamp(sim: int, lower: int, upper: int): int {
    if sim < lower then lower else if sim > upper then upper else sim
  }

  /** All missed resyncs at once: jump to the last scheduled time not after `t`. */
  function CatchUp(c: Config, s: State, t: int): State
    requires c.period > 0
  {
    if t < s.nextResync then s else
      var sync := s.lastSync + (t - s.lastSync) / c.period * c.period;
      s.(offset := 0, lastSync := sync, nextResync := SatAdd(sync, c.period))
  }

  /** The lower clamp bound: never below the last value, nor below `t - eps`. */
  function Floor(c: Config, s: State, t: int): int {
    Max(s.lastSim, SatSub(t, c.eps))
  }

  function Ceiling(c: Config, t: int): int {
    SatAdd(t, c.eps)
  }

  /** The end of a read: clamp the simulated time and fold the clamp into the offset. */
  function Finish(c: Config, r: State, t: int, sim: int): State {
    var out := Clamp(sim, Floor(c, r, t), Ceiling(c, t));
    var offset := if out != sim then SatAdd(r.offset, WrapSub(out, sim)) else r.offset;
    State(offset, out, r.nextResync, r.lastSync, t)
  }

  /** One read at true time `t`; the value returned is `lastSim` of the result. */
  function Read(c: Config, s: State, t: int): State
    requires c.period > 0
  {
    var r := CatchUp(c, s, t);
    Finish(c, r, t, SimTime(c, t, r.offset, r.lastSync))
  }

  /** The absolute error reported for the last read. */
  function ErrorAbs(s: State): int {
    Abs(WrapSub(s.lastSim, s.lastTrue))
  }

  /** The values `get_uncertainty` may return after `s`. */
  predicate Admissible(c: Config, s: State, unc: int) {
    ErrorAbs(s) <= unc <= Max(c.eps, ErrorAbs(s))
  }

  /** What every read keeps, in whatever order samples arrive. */
  ghost predicate Settled(c: Config, base: int, s: State) {
    && 0 <= base <= s.lastSync < MAX
    && s.nextResync == SatAdd(s.lastSync, c.period)
    && base <= s.lastTrue < MAX
    && s.lastTrue - c.eps <= s.lastSim <= MAX
    && InRange(s.offset)
  }

  lemma CatchUpAdvances(c: Config, s: State, t: int)
    requires ValidConfig(c)
    requires s.nextResync == SatAdd(s.lastSync, c.period) && 0 <= s.lastSync < MAX
    requires s.lastSync <= t < MAX
    ensures var r := CatchUp(c, s, t);
            && s.lastSync <= r.lastSync <= t < r.lastSync + c.period
            && t < r.nextResync == SatAdd(r.lastSync, c.period)
            && (r == s || (r.offset == 0 && s.lastSync + c.period <= r.lastSync))
            && r.lastSync == s.lastSync + (t - s.lastSync) / c.period * c.period
            && r.lastSim == s.lastSim
  {
    var x, p := t - s.lastSync, c.period;
    var q := x / p;
    assert x == q * p + x % p;
    if t < s.nextResync {
      QuotientIs(x, p, 0);
    } else {
      if q < 1 {
        ProductMonotone(q, 0, p);
      }
      ProductMonotone(1, q, p);
    }
  }

  lemma SettledStep(c: Config, base: int, s: State, t: int)
    requires ValidConfig(c) && Settled(c, base, s) && base <= t < MAX
    ensures Settled(c, base, Read(c, s, t))
  {
    if t >= s.nextResync {
      CatchUpAdvances(c, s, t);
    }
    assert forall a, b {:trigger WrapSub(a, b)} :: InRange(a) && InRange(b) ==> InRange(WrapSub(a, b));
  }

  /** The deadline after `k` turns of the loop that moves it past `t`. */
  function Deadline(next: int, period: int, k: nat): int {
    if k == 0 then next else SatAdd(Deadline(next, period, k - 1), period)
  }

  lemma {:induction false} DeadlineIs(next: int, period: int, k: nat)
    requires InRange(next) && 0 < period
    ensures Deadline(next, period, k) == SatAdd(next, k * period)
  {
    if k > 0 {
      DeadlineIs(next, period, k - 1);
      assert k * period == (k - 1) * period + period;
      ProductMonotone(0, k - 1, period);
    }
  }

  /** The loop ends for every true time except the largest `i64`, where it never does. */
  lemma ResyncEndsIff(next: int, period: int, t: int)
    requires InRange(next) && InRange(t) && 0 < period
    ensures (exists k: nat :: t < Deadline(next, period, k)) <==> t < MAX
  {
    if t < MAX {
      var k := MAX - next;
      DeadlineIs(next, period, k);
      ProductMonotone(1, period, k);
      assert t < Deadline(next, period, k);
    }
    forall k: nat | t < Deadline(next, period, k)
      ensures t < MAX
    {
      DeadlineIs(next, period, k);
    }
  }

  class Clock {
    const cfg: Config
    const baseEpoch: int
    var baseSimOffset: int
    var lastSimUs: int
    var nextResync: int
    var lastSyncTrueTime: int
    var lastTrueTime: int
    var lastSimTime: int

    function Abstract(): State
      reads this
    {
      State(baseSimOffset, lastSimUs, nextResync, lastSyncTrueTime, lastTrueTime)
    }

    ghost predicate Valid()
      reads this
    {
      && ValidConfig(cfg)
      && Settled(cfg, baseEpoch, Abstract())
      && lastSimTime == lastSimUs
    }

    /** `cfg` and the system time are given; the two asserts of the source are the
        bounds on `eps` and `period`. */
    constructor (cfg: Config, baseEpoch: int)
      requires ValidConfig(cfg) && 0 <= baseEpoch < MAX
      ensures this.cfg == cfg && this.baseEpoch == baseEpoch
      ensures Valid() && Abstract() == Init(cfg, baseEpoch)
    {
      this.cfg, this.baseEpoch := cfg, baseEpoch;
      baseSimOffset := 0;
      lastSimUs := baseEpoch;
      nextResync := SatAdd(baseEpoch, cfg.period);
      lastSyncTrueTime := baseEpoch;
      lastTrueTime := baseEpoch;
      lastSimTime := baseEpoch;
    }

    function AllowedRange(t: int): (int, int) {
      var bound := Max(cfg.eps, 0);
      (SatSub(t, bound), SatAdd(t, bound))
    }

    method ClampSimTime(sim: int, minAllowed: int, maxAllowed: int) returns (clamped: int)
      modifies this`baseSimOffset
      ensures clamped == Clamp(sim, Max(lastSimUs, minAllowed), maxAllowed)
      ensures baseSimOffset == if clamped == sim then old(baseSimOffset)
                               else SatAdd(old(baseSimOffset), WrapSub(clamped, sim))
    {
      var lower := Max(lastSimUs, minAllowed);
      if sim < lower {
        clamped := lower;
      } else if sim > maxAllowed {
        clamped := maxAllowed;
      } else {
        clamped := sim;
      }
      if clamped != sim {
        baseSimOffset := SatAdd(baseSimOffset, WrapSub(clamped, sim));
      }
    }

    /** Resync at `t`: the error becomes zero, drift restarts at `t`, and the deadline
        moves to the first scheduled time after `t`. */
    method ResyncAt(t: int)
      requires ValidConfig(cfg)
      requires 0 <= t < MAX && InRange(nextResync)
      modifies this`baseSimOffset, this`lastSyncTrueTime, this`nextResync
      ensures baseSimOffset == 0 && lastSyncTrueTime == t < nextResync
      ensures t < old(nextResync) ==> nextResync == old(nextResync)
      ensures t >= old(nextResync) ==>
        nextResync == SatAdd(old(nextResync), ((t - old(nextResync)) / cfg.period + 1) * cfg.period)
    {
      var (minAllowed, maxAllowed) := AllowedRange(t);
      var newError := 0;
      var target := SatAdd(t, newError);
      var clampedTarget := Clamp(target, minAllowed, maxAllowed);
      baseSimOffset := SatSub(clampedTarget, t);
      lastSyncTrueTime := t;
      var period := cfg.period;
      var next := nextResync;
      if period > 0 {
        ghost var k := 0;
        while t >= next
          invariant k >= 0 && InRange(next)
          invariant next == SatAdd(nextResync, k * period)
          invariant k > 0 ==> nextResync + (k - 1) * period <= t
          modifies {}
          decreases MAX - next
        {
          assert (k + 1) * period == k * period + period;
          ProductMonotone(0, k, period);
          next := SatAdd(next, period);
          k := k + 1;
        }
        if k > 0 {
          assert k * period == (k - 1) * period + period;
          QuotientIs(t - nextResync, period, k - 1);
        }
      }
      nextResync := next;
    }

    /** The catch-up loop: one resync per missed deadline, ending where one division
        would have jumped. */
    method CatchUpResyncs(t: int)
      requires Valid() && baseEpoch <= t < MAX
      modifies this`baseSimOffset, this`lastSyncTrueTime, this`nextResync
      ensures Abstract() == CatchUp(cfg, old(Abstract()), t)
      ensures t < nextResync
    {
      ghost var s := Abstract();
      ghost var k := 0;
      while t >= nextResync
        invariant k >= 0
        invariant lastSyncTrueTime == s.lastSync + k * cfg.period < MAX
        invariant k > 0 ==> lastSyncTrueTime <= t
        invariant nextResync == SatAdd(lastSyncTrueTime, cfg.period)
        invariant baseSimOffset == if k == 0 then s.offset else 0
        decreases MAX - nextResync
      {
        var scheduled := nextResync;
        ProductMonotone(0, k, cfg.period);
        QuotientIs(0, cfg.period, 0);
        ResyncAt(scheduled);
        assert (k + 1) * cfg.period == k * cfg.period + cfg.period;
        k := k + 1;
      }
      if k > 0 {
        QuotientIs(t - s.lastSync, cfg.period, k);
        ProductMonotone(1, k, cfg.period);
      }
    }

    function ComputeSimTime(t: int, offset: int, lastSync: int): int {
      var elapsed := SatSub(t, lastSync);
      var drift := TruncDiv(SatMul(elapsed, cfg.drift), MICROS);
      SatAdd(SatAdd(t, offset), drift)
    }

    /** `t` is the true time sampled before the lock was taken. */
    method GetTime(t: int) returns (sim: int)
      requires Valid() && baseEpoch <= t < MAX
      modifies this
      ensures Valid() && Abstract() == Read(cfg, old(Abstract()), t)
      ensures sim == lastSimUs
    {
      SettledStep(cfg, baseEpoch, Abstract(), t);
      CatchUpResyncs(t);
      var simTime := ComputeSimTime(t, baseSimOffset, lastSyncTrueTime);
      var (minAllowed, maxAllowed) := AllowedRange(t);
      sim := ClampSimTime(simTime, minAllowed, maxAllowed);
      lastSimUs := sim;
      lastTrueTime := t;
      lastSimTime := sim;
    }

    /** The random draw is any value of its range. */
    method GetUncertainty() returns (unc: int)
      requires Valid()
      ensures Admissible(cfg, Abstract(), unc)
    {
      var errorAbs := Abs(WrapSub(lastSimTime, lastTrueTime));
      var upper := Max(cfg.eps, errorAbs);
      if upper == 0 || upper == errorAbs {
        return upper;
      }
      unc :| errorAbs <= unc <= upper;
    }

    /** A read and its uncertainty as one atomic pair. */
    method GetTimeWithUncertainty(t: int) returns (sim: int, unc: int)
      requires Valid() && baseEpoch <= t < MAX
      modifies this
      ensures Valid() && Abstract() == Read(cfg, old(Abstract()), t)
      ensures sim == lastSimUs && Admissible(cfg, Abstract(), unc)
    {
      sim := GetTime(t);
      unc := GetUncertainty();
    }
  }
}
