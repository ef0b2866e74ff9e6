/** Log compaction. A snapshot is built from a log segment by `Create` and folded
    into an older one by `Merge`. A key that a segment puts and then deletes leaves
    no trace in the segment's snapshot, so merging agrees with replaying the
    commands only under a condition, given here exactly. */
module Snapshots {
  import opened KeyValue

  datatype Snapshot = Snapshot(puts: Store, dels: seq<string>)

  /** The loop of `create` over a segment: a Delete is recorded only if the segment holds
      no value for its key at that point. */
  function Compress(log: seq<Command>): Snapshot {
    if log == [] then Snapshot(map[], [])
    else
      var s := Compress(log[..|log| - 1]);
      match log[|log| - 1].kv
      case Put(k, v) => s.(puts := s.puts[k := v])
      case Delete(k) => if k in s.puts then s.(puts := s.puts - {k}) else s.(dels := s.dels + [k])
      case Get(_) => s
  }

  /** The keys of `ks` that `m` does not hold, in order. */
  function Retain(ks: seq<string>, m: Store): seq<string> {
    if ks == [] then []
    else Retain(ks[..|ks| - 1], m) + (if ks[|ks| - 1] in m then [] else [ks[|ks| - 1]])
  }

  function Created(log: seq<Command>): Snapshot {
    var s := Compress(log);
    s.(dels := Retain(s.dels, s.puts))
  }

  function Keys(ks: seq<string>): set<string> {
    set k | k in ks
  }

  lemma RemoveNext(m: Store, ks: seq<string>, i: nat)
    requires i < |ks|
    ensures m - Keys(ks[..i + 1]) == m - Keys(ks[..i]) - {ks[i]}
  {
  }

  lemma NothingRemoved(m: Store)
    ensures m - Keys([]) == m
  {
  }

  lemma MoveEntry(m: Store, rest: Store, k: string)
    requires k in rest
    ensures m[k := rest[k]] + (rest - {k}) == m + rest
  {
  }

  function Merged(base: Store, delta: Snapshot): Store {
    (base + delta.puts) - Keys(delta.dels)
  }

  lemma MergedPointwise(base: Store, delta: Snapshot)
    ensures forall k :: k in Merged(base, delta) <==> k !in delta.dels && (k in delta.puts || k in base)
    ensures forall k :: k in Merged(base, delta) ==>
              Merged(base, delta)[k] == if k in delta.puts then delta.puts[k] else base[k]
  {
  }

  /** A snapshot object; the iteration order of its hash map is arbitrary. */
  class KVSnapshot {
    var snapshotted: Store
    var deletedKeys: seq<string>

    function Abstract(): Snapshot
      reads this
    {
      Snapshot(snapshotted, deletedKeys)
    }

    constructor Create(entries: seq<Command>)
      ensures Abstract() == Created(entries)
    {
      snapshotted, deletedKeys := map[], [];
      new;
      for i := 0 to |entries|
        invariant Abstract() == Compress(entries[..i])
      {
        assert entries[..i + 1][..i] == entries[..i];
        match entries[i].kv {
          case Put(key, value) =>
            snapshotted := snapshotted[key := value];
          case Delete(key) =>
            if key in snapshotted {
              snapshotted := snapshotted - {key};
            } else {
              deletedKeys := deletedKeys + [key];
            }
          case Get(_) =>
        }
      }
      assert entries[..|entries|] == entries;
      // a deletion does not stand once the key holds a value again
      var kept: seq<string> := [];
      for i := 0 to |deletedKeys|
        invariant kept == Retain(deletedKeys[..i], snapshotted)
        modifies {}
      {
        assert deletedKeys[..i + 1][..i] == deletedKeys[..i];
        if deletedKeys[i] !in snapshotted {
          kept := kept + [deletedKeys[i]];
        }
      }
      assert deletedKeys[..|deletedKeys|] == deletedKeys;
      deletedKeys := kept;
    }

    /** The entries of `delta` are visited in any order. */
    method Merge(delta: KVSnapshot)
      requires delta != this
      modifies this
      ensures snapshotted == Merged(old(snapshotted), delta.Abstract())
      ensures deletedKeys == []
      ensures forall k :: k in delta.deletedKeys ==> k !in snapshotted
      ensures forall k :: k !in delta.deletedKeys && k in delta.snapshotted ==>
                k in snapshotted && snapshotted[k] == delta.snapshotted[k]
      ensures forall k :: k !in delta.deletedKeys && k !in delta.snapshotted ==>
                (k in snapshotted <==> k in old(snapshotted)) && (k in snapshotted ==> snapshotted[k] == old(snapshotted)[k])
    {
      MergedPointwise(snapshotted, delta.Abstract());
      hide Keys;
      ghost var all := snapshotted + delta.snapshotted;
      var rest := delta.snapshotted;
      while rest.Keys != {}
        invariant snapshotted + rest == all
        modifies this`snapshotted
        decreases |rest.Keys|
      {
        var k :| k in rest.Keys;
        MoveEntry(snapshotted, rest, k);
        snapshotted := snapshotted[k := rest[k]];
        rest := rest - {k};
      }
      assert snapshotted + rest == snapshotted;
      NothingRemoved(all);
      for i := 0 to |delta.deletedKeys|
        invariant snapshotted == all - Keys(delta.deletedKeys[..i])
        modifies this`snapshotted
      {
        var k := delta.deletedKeys[i];
        RemoveNext(all, delta.deletedKeys, i);
        snapshotted := snapshotted - {k};
      }
      assert delta.deletedKeys[..|delta.deletedKeys|] == delta.deletedKeys;
      deletedKeys := [];
    }
  }

  // ---- What a segment does to one key -----------------------------------------

  datatype Op = P | D

  /** The Puts and Deletes of `log` on `key`. */
  function Project(log: seq<Command>, key: string): seq<Op> {
    if log == [] then []
    else
      var before := Project(log[..|log| - 1], key);
      match log[|log| - 1].kv
      case Put(k, _) => if k == key then before + [P] else before
      case Delete(k) => if k == key then before + [D] else before
      case Get(_) => before
  }

  /** Some Delete is the first operation or directly follows another Delete. */
  predicate BareDelete(p: seq<Op>) {
    exists i :: 0 <= i < |p| && p[i] == D && (i == 0 || p[i - 1] == D)
  }

  /** The segment ends by deleting the key and its snapshot says nothing of it. */
  predicate Lost(p: seq<Op>) {
    p != [] && p[|p| - 1] == D && !BareDelete(p)
  }

  /** Repetitions of Puts followed by one Delete: `ns[i]` Puts in round `i`. */
  function Rounds(ns: seq<nat>): seq<Op> {
    if ns == [] then [] else Rounds(ns[..|ns| - 1]) + seq(ns[|ns| - 1], _ => P) + [D]
  }

  ghost predicate PutsThenDelete(p: seq<Op>) {
    exists ns: seq<nat> :: ns != [] && (forall i :: 0 <= i < |ns| ==> ns[i] >= 1) && p == Rounds(ns)
  }

  lemma {:induction false} RoundsAreLost(ns: seq<nat>)
    requires forall i :: 0 <= i < |ns| ==> ns[i] >= 1
    ensures !BareDelete(Rounds(ns))
    ensures ns == [] ==> Rounds(ns) == []
    ensures ns != [] ==> Lost(Rounds(ns))
  {
    if ns != [] {
      RoundsAreLost(ns[..|ns| - 1]);
      var q, n := Rounds(ns[..|ns| - 1]), ns[|ns| - 1];
      var p := q + seq(n, _ => P) + [D];
      forall i | 0 <= i < |p| && p[i] == D
        ensures i > 0 && p[i - 1] == P
      {
        if i < |q| {
          assert q[i] == D;
        } else {
          assert i == |q| + n;
        }
      }
    }
  }

  /** The last round of operations that leave no trace, and what is before it. */
  lemma LastRound(p: seq<Op>) returns (n: nat)
    requires Lost(p)
    ensures n + 1 < |p| && p == p[..n] + seq(|p| - 1 - n, _ => P) + [D]
    ensures p[..n] == [] || Lost(p[..n])
  {
    n := |p| - 1;
    while n > 0 && p[n - 1] == P
      invariant 0 <= n < |p|
      invariant forall i :: n <= i < |p| - 1 ==> p[i] == P
    {
      n := n - 1;
    }
    assert p[|p| - 1] == D && !(|p| - 1 == 0 || p[|p| - 2] == D);
    var q := p[..n];
    forall i | 0 <= i < |q| && q[i] == D
      ensures !(i == 0 || q[i - 1] == D)
    {
      assert p[i] == D;
    }
  }

  lemma RoundsNext(ns: seq<nat>, n: nat)
    ensures Rounds(ns + [n]) == Rounds(ns) + seq(n, _ => P) + [D]
  {
    assert (ns + [n])[..|ns|] == ns;
  }

  lemma {:induction false} LostAreRounds(p: seq<Op>) returns (ns: seq<nat>)
    requires p == [] || Lost(p)
    ensures forall i :: 0 <= i < |ns| ==> ns[i] >= 1
    ensures p == Rounds(ns) && (p != [] ==> ns != [])
  {
    if p == [] {
      ns := [];
    } else {
      hide Lost, Rounds;
      var n := LastRound(p);
      var ms := LostAreRounds(p[..n]);
      RoundsNext(ms, |p| - 1 - n);
      ns := ms + [|p| - 1 - n];
    }
  }

  /** The operations that leave no trace are exactly (Put+ Delete)+. */
  lemma LostIff(p: seq<Op>)
    ensures Lost(p) <==> PutsThenDelete(p)
  {
    if Lost(p) {
      var ns := LostAreRounds(p);
    }
    if PutsThenDelete(p) {
      var ns: seq<nat> :| ns != [] && (forall i :: 0 <= i < |ns| ==> ns[i] >= 1) && p == Rounds(ns);
      RoundsAreLost(ns);
    }
  }

  lemma BareDeleteNext(p: seq<Op>, o: Op)
    ensures BareDelete(p + [o]) <==> BareDelete(p) || (o == D && (p == [] || p[|p| - 1] == D))
  {
    var q := p + [o];
    if BareDelete(p) {
      var i :| 0 <= i < |p| && p[i] == D && (i == 0 || p[i - 1] == D);
      assert q[i] == D && (i == 0 || q[i - 1] == D);
    }
    if o == D && (p == [] || p[|p| - 1] == D) {
      assert q[|p|] == D && (|p| == 0 || q[|p| - 1] == D);
    }
    if BareDelete(q) {
      var i :| 0 <= i < |q| && q[i] == D && (i == 0 || q[i - 1] == D);
      if i < |p| {
        assert p[i] == D && (i == 0 || p[i - 1] == D);
      }
    }
  }

  /** What the snapshot of a segment holds under `key`, and whether it records a Delete. */
  lemma {:induction false} CompressAt(log: seq<Command>, key: string)
    ensures var p := Project(log, key);
            && Compress(log).puts == Replay(map[], log)
            && (key in Compress(log).puts <==> p != [] && p[|p| - 1] == P)
            && (key in Compress(log).dels <==> BareDelete(p))
  {
    if log != [] {
      CompressAt(log[..|log| - 1], key);
      var p := Project(log[..|log| - 1], key);
      BareDeleteNext(p, P);
      BareDeleteNext(p, D);
    }
  }

  lemma {:induction false} RetainMember(ks: seq<string>, m: Store, key: string)
    ensures key in Retain(ks, m) <==> key in ks && key !in m
  {
    if ks != [] {
      RetainMember(ks[..|ks| - 1], m, key);
      assert ks == ks[..|ks| - 1] + [ks[|ks| - 1]];
    }
  }

  /** A snapshot never both holds a key and lists it as deleted. */
  lemma CreatedIsDisjoint(log: seq<Command>)
    ensures Created(log).puts.Keys !! Keys(Created(log).dels)
  {
    forall k | k in Created(log).puts
      ensures k !in Created(log).dels
    {
      RetainMember(Compress(log).dels, Compress(log).puts, k);
    }
  }

  /** Deleting before or after inserting makes no difference, for every base, exactly
      when the two parts of the snapshot are disjoint. */
  lemma LoopOrderIff(base: Store, d: Snapshot)
    ensures Merged(base, d) == (base - Keys(d.dels)) + d.puts <==> d.puts.Keys !! Keys(d.dels)
  {
  }

  // ---- One merge ---------------------------------------------------------------

  lemma {:induction false} ReplayAt(base: Store, log: seq<Command>, key: string)
    ensures Lookup(Replay(base, log), key)
            == if Project(log, key) == [] then Lookup(base, key) else Lookup(Replay(map[], log), key)
  {
    if log != [] {
      ReplayAt(base, log[..|log| - 1], key);
    }
  }

  lemma MergedAt(base: Store, log: seq<Command>, key: string)
    ensures Lookup(Merged(base, Created(log)), key)
            == if Lost(Project(log, key)) then Lookup(base, key) else Lookup(Replay(base, log), key)
  {
    var s := Compress(log);
    CompressAt(log, key);
    RetainMember(s.dels, s.puts, key);
    ReplayAt(base, log, key);
  }

  lemma LostIsDeleted(base: Store, log: seq<Command>, key: string)
    requires Lost(Project(log, key))
    ensures key !in Replay(base, log)
  {
    CompressAt(log, key);
    ReplayAt(base, log, key);
    assert Lookup(Replay(base, log), key) == None;
  }

  /** Merging the snapshot of a segment equals replaying the segment if and only if no key
      of the base is put and deleted in the shape (Put+ Delete)+ by the segment. */
  lemma MergeEqualsReplayIff(base: Store, log: seq<Command>)
    ensures Merged(base, Created(log)) == Replay(base, log)
            <==> forall k :: k in base ==> !PutsThenDelete(Project(log, k))
  {
    var m, r := Merged(base, Created(log)), Replay(base, log);
    if forall k :: k in base ==> !PutsThenDelete(Project(log, k)) {
      forall k
        ensures Lookup(m, k) == Lookup(r, k)
      {
        MergedAt(base, log, k);
        LostIff(Project(log, k));
        if Lost(Project(log, k)) {
          LostIsDeleted(base, log, k);
        }
      }
      SameLookups(m, r);
    } else {
      var k :| k in base && PutsThenDelete(Project(log, k));
      MergedAt(base, log, k);
      LostIff(Project(log, k));
      LostIsDeleted(base, log, k);
      assert Lookup(m, k) != Lookup(r, k);
    }
  }

  /** The shortest failing segment: a Put and a Delete of one key. Merging its snapshot leaves
      the base as it was, with the deleted key in it; replaying it removes the key. */
  lemma DeletedKeySurvives(base: Store, k: string, put: Command, delete: Command)
    requires k in base && put.kv.Put? && put.kv.key == k && delete.kv == Delete(k)
    ensures Merged(base, Created([put, delete])) == base
    ensures Replay(base, [put, delete]) == base - {k} != base
  {
    var log := [put, delete];
    assert log[..1] == [put] && log[..1][..0] == [];
    assert Compress([put]) == Snapshot(map[k := put.kv.value], []);
    assert Created(log) == Snapshot(map[], []);
    NothingRemoved(base);
    assert Replay(base, log) == Apply(Replay(base, [put]), delete.kv);
    assert Replay(base, [put]) == base[k := put.kv.value];
  }

  /** The snapshot of a whole log is the database, with no condition. */
  lemma CreateOfWholeLog(log: seq<Command>)
    ensures Created(log).puts == Replay(map[], log) == Merged(map[], Created(log))
  {
    CompressAt(log, "");
    CreatedIsDisjoint(log);
  }

  // ---- Many segments -------------------------------------------------------------

  /** The store after merging the snapshot of every segment in order. */
  function Folded(base: Store, segments: seq<seq<Command>>): Store {
    if segments == [] then base
    else Merged(Folded(base, segments[..|segments| - 1]), Created(segments[|segments| - 1]))
  }

  function Flatten(segments: seq<seq<Command>>): seq<Command> {
    if segments == [] then [] else Flatten(segments[..|segments| - 1]) + segments[|segments| - 1]
  }

  /** Read off the segments alone: the fold holds `key`. Segments that do not write the key
      or lose its deletion are skipped; the last other segment decides. */
  ghost predicate Held(base: Store, segments: seq<seq<Command>>, key: string) {
    if segments == [] then key in base
    else
      var p := Project(segments[|segments| - 1], key);
      if p == [] || PutsThenDelete(p) then Held(base, segments[..|segments| - 1], key)
      else p[|p| - 1] == P
  }

  /** The last segment that writes `key` loses its deletion, and an older value is held. */
  ghost predicate Resurrected(base: Store, segments: seq<seq<Command>>, key: string) {
    segments != [] &&
    var before, p := segments[..|segments| - 1], Project(segments[|segments| - 1], key);
    if p == [] then Resurrected(base, before, key)
    else PutsThenDelete(p) && Held(base, before, key)
  }

  /** One more segment, on the fold `f` and on the replayed store `r`. */
  lemma SegmentAt(f: Store, r: Store, log: seq<Command>, key: string)
    ensures var p := Project(log, key);
            var m, n := Lookup(Merged(f, Created(log)), key), Lookup(Replay(r, log), key);
            if p == [] then m == Lookup(f, key) && n == Lookup(r, key) && !PutsThenDelete(p)
            else if PutsThenDelete(p) then m == Lookup(f, key) && n == None
            else m == n && (m.Some? <==> p[|p| - 1] == P)
  {
    var p := Project(log, key);
    LostIff(p);
    MergedAt(f, log, key);
    ReplayAt(f, log, key);
    ReplayAt(r, log, key);
    CompressAt(log, key);
    if Lost(p) {
      LostIsDeleted(r, log, key);
    }
  }

  lemma {:induction false} FoldedAt(base: Store, segments: seq<seq<Command>>, key: string)
    ensures key in Folded(base, segments) <==> Held(base, segments, key)
    ensures Lookup(Folded(base, segments), key) == Lookup(Replay(base, Flatten(segments)), key)
            <==> !Resurrected(base, segments, key)
    ensures Resurrected(base, segments, key) ==> Lookup(Replay(base, Flatten(segments)), key) == None
  {
    hide Merged, Created, Project, PutsThenDelete;
    if segments != [] {
      var before, last := segments[..|segments| - 1], segments[|segments| - 1];
      FoldedAt(base, before, key);
      ReplayConcat(base, Flatten(before), last);
      SegmentAt(Folded(base, before), Replay(base, Flatten(before)), last, key);
    }
  }

  /** However a log is cut into segments, folding their snapshots equals replaying the whole
      log if and only if no key is resurrected. */
  lemma SegmentsEqualReplayIff(base: Store, segments: seq<seq<Command>>)
    ensures Folded(base, segments) == Replay(base, Flatten(segments))
            <==> forall k :: !Resurrected(base, segments, k)
  {
    var f, r := Folded(base, segments), Replay(base, Flatten(segments));
    if forall k :: !Resurrected(base, segments, k) {
      forall k
        ensures Lookup(f, k) == Lookup(r, k)
      {
        FoldedAt(base, segments, k);
      }
      SameLookups(f, r);
    } else {
      var k :| Resurrected(base, segments, k);
      FoldedAt(base, segments, k);
    }
  }

  /** It is enough that each segment meets the condition of one merge on the state before it. */
  lemma {:induction false} SegmentsEqualReplay(base: Store, segments: seq<seq<Command>>)
    requires forall i, k :: 0 <= i < |segments| && k in Replay(base, Flatten(segments[..i])) ==>
               !PutsThenDelete(Project(segments[i], k))
    ensures Folded(base, segments) == Replay(base, Flatten(segments))
  {
    if segments != [] {
      var n := |segments| - 1;
      forall i, k | 0 <= i < n && k in Replay(base, Flatten(segments[..n][..i]))
        ensures !PutsThenDelete(Project(segments[..n][i], k))
      {
        assert segments[..n][..i] == segments[..i];
      }
      SegmentsEqualReplay(base, segments[..n]);
      MergeEqualsReplayIff(Folded(base, segments[..n]), segments[n]);
      ReplayConcat(base, Flatten(segments[..n]), segments[n]);
    }
  }

  /** Merging two snapshots before applying them drops their deletions: the result is the
      same exactly when the base holds none of the keys concerned. */
  lemma CompactingDeltasIff(base: Store, d1: Snapshot, d2: Snapshot)
    requires d1.puts.Keys !! Keys(d1.dels) && d2.puts.Keys !! Keys(d2.dels)
    ensures Merged(Merged(base, d1), d2) == Merged(base, Snapshot(Merged(d1.puts, d2), []))
            <==> base.Keys !! (Keys(d1.dels) - d2.puts.Keys) + Keys(d2.dels)
  {
    var a, b := Merged(Merged(base, d1), d2), Merged(base, Snapshot(Merged(d1.puts, d2), []));
    var bad := (Keys(d1.dels) - d2.puts.Keys) + Keys(d2.dels);
    assert Keys([]) == {};
    if k :| k in base && k in bad {
      assert k !in a && k in b;
    } else {
      forall k
        ensures Lookup(a, k) == Lookup(b, k)
      {
      }
      SameLookups(a, b);
    }
  }
}
