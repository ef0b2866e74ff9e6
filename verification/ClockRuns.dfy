/** Whole runs of one clock: a run is the sequence of true times at which it was
    read, in the order in which the reads took the lock. */
module ClockRuns {
  import opened Int64
  import opened ClockModel

  /** The state after reading at every sample of `ts`. */
  function After(c: Config, base: int, ts: seq<int>): State
    requires c.period > 0
  {
    if ts == [] then Init(c, base)
    else Read(c, After(c, base, ts[..|ts| - 1]), ts[|ts| - 1])
  }

  /** The value returned by the read at position `k`. */
  function Returned(c: Config, base: int, ts: seq<int>, k: nat): int
    requires c.period > 0 && k < |ts|
  {
    After(c, base, ts[..k + 1]).lastSim
  }

  /** True time is the base plus a non-negative elapsed time. Nothing is said of the order. */
  ghost predicate Samples(c: Config, base: int, ts: seq<int>) {
    && ValidConfig(c) && 0 <= base < MAX
    && forall i :: 0 <= i < |ts| ==> base <= ts[i] < MAX
  }

  /** Samples reach the lock in the order in which they were taken. */
  ghost predicate InOrder(c: Config, base: int, ts: seq<int>) {
    && Samples(c, base, ts)
    && forall i, j :: 0 <= i <= j < |ts| ==> ts[i] <= ts[j]
  }

  function MaxTrue(base: int, ts: seq<int>): int {
    if ts == [] then base else Max(MaxTrue(base, ts[..|ts| - 1]), ts[|ts| - 1])
  }

  function LastTrue(base: int, ts: seq<int>): int {
    if ts == [] then base else ts[|ts| - 1]
  }

  /** `MaxTrue` is the largest true time used, the base included. */
  lemma {:induction false} MaxTrueIsLargest(base: int, ts: seq<int>)
    ensures base <= MaxTrue(base, ts) && forall i :: 0 <= i < |ts| ==> ts[i] <= MaxTrue(base, ts)
    ensures MaxTrue(base, ts) == base || MaxTrue(base, ts) in ts
  {
    if ts != [] {
      var before := ts[..|ts| - 1];
      MaxTrueIsLargest(base, before);
      forall i | 0 <= i < |ts|
        ensures ts[i] <= MaxTrue(base, ts)
      {
        assert i < |before| ==> ts[i] == before[i];
      }
    }
  }

  lemma AfterNext(c: Config, base: int, ts: seq<int>, k: nat)
    requires c.period > 0 && k < |ts|
    ensures After(c, base, ts[..k + 1]) == Read(c, After(c, base, ts[..k]), ts[k])
    ensures After(c, base, ts[..k]).lastTrue == LastTrue(base, ts[..k])
  {
    assert ts[..k + 1][..k] == ts[..k];
  }

  lemma {:induction false} SettledRun(c: Config, base: int, ts: seq<int>)
    requires Samples(c, base, ts)
    ensures Settled(c, base, After(c, base, ts))
  {
    if ts != [] {
      SettledRun(c, base, ts[..|ts| - 1]);
      SettledStep(c, base, After(c, base, ts[..|ts| - 1]), ts[|ts| - 1]);
    }
  }

  // ---- Any lock order --------------------------------------------------------

  lemma {:induction false} NeverAboveLatest(c: Config, base: int, ts: seq<int>)
    requires Samples(c, base, ts)
    ensures After(c, base, ts).lastSim <= MaxTrue(base, ts) + c.eps
  {
    if ts != [] {
      NeverAboveLatest(c, base, ts[..|ts| - 1]);
      SettledRun(c, base, ts);
    }
  }

  /** Whatever the order of the samples, a read at `t` returns at least `t - eps` and at
      most `eps` above the largest true time used so far. */
  lemma AnyOrderBounds(c: Config, base: int, ts: seq<int>, k: nat)
    requires Samples(c, base, ts) && k < |ts|
    ensures ts[k] - c.eps <= Returned(c, base, ts, k) <= MaxTrue(base, ts[..k + 1]) + c.eps
  {
    NeverAboveLatest(c, base, ts[..k + 1]);
    SettledRun(c, base, ts[..k + 1]);
    AfterNext(c, base, ts, k);
  }

  lemma StepFallsBackIff(c: Config, s: State, t: int)
    requires ValidConfig(c)
    ensures var r := CatchUp(c, s, t);
            Read(c, s, t).lastSim < s.lastSim <==>
            Ceiling(c, t) < s.lastSim && Floor(c, s, t) <= SimTime(c, t, r.offset, r.lastSync)
  {
  }

  /** A read falls below the one before it exactly when the earlier value is above the
      ceiling of the new sample and the unclamped time has reached the floor: the code
      tests the floor before the ceiling. */
  lemma FallsBackIff(c: Config, base: int, ts: seq<int>, k: nat)
    requires Samples(c, base, ts) && k + 1 < |ts|
    ensures var s, t := After(c, base, ts[..k + 1]), ts[k + 1];
            var r := CatchUp(c, s, t);
            Returned(c, base, ts, k + 1) < Returned(c, base, ts, k) <==>
            Ceiling(c, t) < s.lastSim && Floor(c, s, t) <= SimTime(c, t, r.offset, r.lastSync)
  {
    AfterNext(c, base, ts, k + 1);
    StepFallsBackIff(c, After(c, base, ts[..k + 1]), ts[k + 1]);
  }

  /** Out of order, monotonicity fails: with eps = 10 and a clock that is 10 ahead, reads
      at 100, 90, 95 microseconds past the start return 110, 110, 105. */
  lemma OutOfOrderReadFallsBack()
    ensures var c := Config(100_000, 10, 1_000);
            var ts := [100, 90, 95];
            && Samples(c, 0, ts)
            && Returned(c, 0, ts, 0) == 110 && Returned(c, 0, ts, 1) == 110
            && Returned(c, 0, ts, 2) == 105
  {
    var c, ts := Config(100_000, 10, 1_000), [100, 90, 95];
    assert ts[..0] == [];
    AfterNext(c, 0, ts, 0);
    AfterNext(c, 0, ts, 1);
    AfterNext(c, 0, ts, 2);
    assert Read(c, State(0, 0, 1_000, 0, 0), 100) == State(0, 110, 1_000, 0, 100);
    assert Read(c, State(0, 110, 1_000, 0, 100), 90) == State(11, 110, 1_000, 0, 90);
  }

  // ---- Samples in order ------------------------------------------------------

  lemma {:induction false} InOrderCeiling(c: Config, base: int, ts: seq<int>)
    requires InOrder(c, base, ts)
    ensures After(c, base, ts).lastSim <= Ceiling(c, LastTrue(base, ts))
  {
    if ts != [] {
      InOrderCeiling(c, base, ts[..|ts| - 1]);
    }
  }

  lemma NotBelowLast(c: Config, s: State, t: int)
    requires ValidConfig(c) && s.lastSim <= Ceiling(c, t)
    ensures s.lastSim <= Read(c, s, t).lastSim
  {
  }

  lemma {:induction false} RunMonotone(c: Config, base: int, ts: seq<int>, i: nat, j: nat)
    requires InOrder(c, base, ts) && i <= j <= |ts|
    ensures base <= After(c, base, ts[..i]).lastSim <= After(c, base, ts[..j]).lastSim
  {
    hide Read;
    if j > 0 {
      InOrderCeiling(c, base, ts[..j - 1]);
      AfterNext(c, base, ts, j - 1);
      NotBelowLast(c, After(c, base, ts[..j - 1]), ts[j - 1]);
      RunMonotone(c, base, ts, if i == j then i - 1 else i, j - 1);
    }
  }

  /** Every read stays within `eps` of true time and no read is below an earlier one,
      across every resync, for every drift and with every saturation. */
  lemma RunSafety(c: Config, base: int, ts: seq<int>, i: nat, j: nat)
    requires InOrder(c, base, ts) && i <= j < |ts|
    ensures ts[j] - c.eps <= Returned(c, base, ts, j) <= ts[j] + c.eps
    ensures base <= Returned(c, base, ts, i) <= Returned(c, base, ts, j)
  {
    AnyOrderBounds(c, base, ts, j);
    InOrderCeiling(c, base, ts[..j + 1]);
    RunMonotone(c, base, ts, i + 1, j + 1);
  }

  // ---- Several clocks sharing true time ---------------------------------------

  datatype Node = Node(c: Config, base: int)

  /** One atomic read with uncertainty on one of the clocks. */
  datatype Sample = Sample(clock: nat, t: int, unc: int)

  /** The samples of one clock, in order. */
  function Of(trace: seq<Sample>, clock: nat): seq<int> {
    if trace == [] then []
    else
      var last := trace[|trace| - 1];
      Of(trace[..|trace| - 1], clock) + (if last.clock == clock then [last.t] else [])
  }

  /** The reads of one clock are those at the positions of the trace that name it, in order. */
  lemma {:induction false} OfListsReads(trace: seq<Sample>, clock: nat) returns (ps: seq<nat>)
    ensures forall i, j :: 0 <= i < j < |ps| ==> ps[i] < ps[j]
    ensures forall p :: p in ps <==> 0 <= p < |trace| && trace[p].clock == clock
    ensures |Of(trace, clock)| == |ps|
    ensures forall k :: 0 <= k < |ps| ==> ps[k] < |trace| && Of(trace, clock)[k] == trace[ps[k]].t
  {
    if trace == [] {
      ps := [];
    } else {
      var last := |trace| - 1;
      var before := OfListsReads(trace[..last], clock);
      assert forall k :: 0 <= k < |before| ==> before[k] in before;
      ps := before + if trace[last].clock == clock then [last] else [];
      assert forall p :: p in ps <==> p in before || (p == last && trace[last].clock == clock);
    }
  }

  ghost predicate Trace(nodes: seq<Node>, trace: seq<Sample>) {
    && (forall n :: 0 <= n < |nodes| ==> ValidConfig(nodes[n].c) && 0 <= nodes[n].base < MAX)
    && (forall i :: 0 <= i < |trace| ==>
          trace[i].clock < |nodes| && nodes[trace[i].clock].base <= trace[i].t < MAX)
    && (forall i :: 0 <= i < |trace| ==>
          Admissible(nodes[trace[i].clock].c, StateAt(nodes, trace, i), trace[i].unc))
  }

  /** The state of the clock read at position `i`, right after that read. */
  function StateAt(nodes: seq<Node>, trace: seq<Sample>, i: nat): State
    requires i < |trace| && trace[i].clock < |nodes| && nodes[trace[i].clock].c.period > 0
  {
    var n := nodes[trace[i].clock];
    After(n.c, n.base, Of(trace[..i + 1], trace[i].clock))
  }

  lemma {:induction false} OfAreSamples(nodes: seq<Node>, trace: seq<Sample>, n: nat)
    requires n < |nodes| && ValidConfig(nodes[n].c) && 0 <= nodes[n].base < MAX
    requires forall i :: 0 <= i < |trace| && trace[i].clock == n ==> nodes[n].base <= trace[i].t < MAX
    ensures Samples(nodes[n].c, nodes[n].base, Of(trace, n))
  {
    if trace != [] {
      OfAreSamples(nodes, trace[..|trace| - 1], n);
    }
  }

  /** The interval `sim - unc .. sim + unc` contains true time, in any lock order. */
  lemma Enclosure(nodes: seq<Node>, trace: seq<Sample>, i: nat)
    requires Trace(nodes, trace) && i < |trace|
    ensures var sim := StateAt(nodes, trace, i).lastSim;
            sim - trace[i].unc <= trace[i].t <= sim + trace[i].unc
  {
    var n := trace[i].clock;
    var ts := Of(trace[..i + 1], n);
    OfAreSamples(nodes, trace[..i + 1], n);
    SettledRun(nodes[n].c, nodes[n].base, ts);
    assert ts[|ts| - 1] == trace[i].t;
  }

  /** Disjoint intervals are ordered as true time is, for any interleaving of reads. */
  lemma IntervalOrdering(nodes: seq<Node>, trace: seq<Sample>, i: nat, j: nat)
    requires Trace(nodes, trace) && i < |trace| && j < |trace|
    requires StateAt(nodes, trace, i).lastSim + trace[i].unc < StateAt(nodes, trace, j).lastSim - trace[j].unc
    ensures trace[i].t < trace[j].t
  {
    Enclosure(nodes, trace, i);
    Enclosure(nodes, trace, j);
  }

  /** When the samples of a clock are in order its uncertainty is at most `eps`. */
  lemma UncertaintyBound(nodes: seq<Node>, trace: seq<Sample>, i: nat)
    requires Trace(nodes, trace) && i < |trace|
    requires var n := nodes[trace[i].clock]; InOrder(n.c, n.base, Of(trace[..i + 1], trace[i].clock))
    ensures trace[i].unc <= nodes[trace[i].clock].c.eps
  {
    var n := nodes[trace[i].clock];
    var ts := Of(trace[..i + 1], trace[i].clock);
    assert ts[..|ts|] == ts && ts[|ts| - 1] == trace[i].t;
    RunSafety(n.c, n.base, ts, |ts| - 1, |ts| - 1);
  }
}
