/** Every step keeps the invariant, so every reachable state has it. */
module ClusterInvariant {
  import opened KeyValue
  import opened ServerModel
  import opened ClientModel
  import opened ClusterModel

  // ---- Pieces ------------------------------------------------------------------

  lemma KeysKept(log: seq<Command>, pending: set<Command>, links: map<ClientName, Link>, links': map<ClientName, Link>)
    requires KeysOk(log, pending, links) && links'.Keys == links.Keys
    requires forall c :: c in links' ==> UplinkOk(links'[c]) && Ceiling(links[c]) <= Ceiling(links'[c])
    ensures KeysOk(log, pending, links')
  {
  }

  lemma KeysKeptByUpdate(log: seq<Command>, pending: set<Command>, links: map<ClientName, Link>, c: ClientName, l: Link)
    requires KeysOk(log, pending, links) && c in links
    requires UplinkOk(l) && Ceiling(links[c]) <= Ceiling(l)
    ensures KeysOk(log, pending, links[c := l])
  {
  }

  /** The command at the head of a channel has a key no command in the cluster has. */
  lemma HeadIsNew(log: seq<Command>, pending: set<Command>, links: map<ClientName, Link>, c: ClientName)
    requires KeysOk(log, pending, links) && c in links && links[c].uplink != []
    ensures var key := KeyOf(CommandOf(c, links[c].uplink[0]));
            && (forall a :: a in pending ==> KeyOf(a) != key)
            && (forall i :: 0 <= i < |log| ==> KeyOf(log[i]) != key)
  {
  }

  lemma KeysKeptBySubmit(log: seq<Command>, pending: set<Command>, links: map<ClientName, Link>, c: ClientName)
    requires KeysOk(log, pending, links) && c in links && links[c].uplink != []
    ensures var l := links[c];
            KeysOk(log, pending + {CommandOf(c, l.uplink[0])}, links[c := l.(uplink := l.uplink[1..])])
  {
  }

  lemma KeysKeptByDecide(log: seq<Command>, pending: set<Command>, links: map<ClientName, Link>, cmd: Command)
    requires KeysOk(log, pending, links) && cmd in pending
    ensures KeysOk(log + [cmd], pending - {cmd}, links)
  {
  }

  lemma UplinkKept(l: Link, i: nat)
    requires UplinkOk(l) && i < |l.uplink|
    ensures var l' := l.(uplink := Without(l.uplink, i)); UplinkOk(l') && Ceiling(l) <= Ceiling(l')
  {
  }

  lemma ReplicasKeptByDecide(log: seq<Command>, replicas: map<nat, Replica>, cmd: Command)
    requires ReplicasOk(log, replicas)
    ensures ReplicasOk(log + [cmd], replicas)
  {
    forall n | n in replicas
      ensures ReplicaOk(n, log + [cmd], replicas[n])
    {
      assert ReplicaOk(n, log, replicas[n]);
      assert (log + [cmd])[..replicas[n].idx] == log[..replicas[n].idx];
    }
  }

  lemma ReplicaKeptByBatch(n: nat, log: seq<Command>, r: Replica, upTo: nat)
    requires ReplicaOk(n, log, r) && r.idx <= upTo <= |log|
    ensures var batch := log[r.idx..upTo];
            ReplicaOk(n, log, Replica(Replay(r.db, batch), upTo, r.sent + Responses(n, r.db, batch)))
  {
    assert log[..r.idx] + log[r.idx..upTo] == log[..upTo];
    ReplayConcat(map[], log[..r.idx], log[r.idx..upTo]);
    ResponsesConcat(n, map[], log[..r.idx], log[r.idx..upTo]);
  }

  lemma RealTimeKeptByStart(history: seq<Event>, log: seq<Command>, e: Event)
    requires RealTime(history, log) && !e.Sent?
    requires forall q :: 0 <= q < |log| ==> KeyOf(log[q]) != EventKey(e)
    ensures RealTime(history + [e], log)
  {
    forall i: nat, j: nat, p: nat, q: nat
      ensures Before(history + [e], log, i, j, p, q)
    {
      assert Before(history, log, i, j, p, q);
    }
  }

  lemma RealTimeKeptBySent(history: seq<Event>, log: seq<Command>, more: seq<Event>)
    requires RealTime(history, log) && forall k :: 0 <= k < |more| ==> more[k].Sent?
    ensures RealTime(history + more, log)
  {
    forall i: nat, j: nat, p: nat, q: nat
      ensures Before(history + more, log, i, j, p, q)
    {
      assert Before(history, log, i, j, p, q);
    }
  }

  lemma RealTimeKeptByDecide(s: System, cmd: Command)
    requires ReplicasOk(s.log, s.replicas) && SentOk(s.history, s.replicas)
    requires KeysOk(s.log, s.pending, s.links) && cmd in s.pending && RealTime(s.history, s.log)
    ensures RealTime(s.history, s.log + [cmd])
  {
    var log' := s.log + [cmd];
    KeysKeptByDecide(s.log, s.pending, s.links, cmd);
    forall i: nat, j: nat, p: nat, q: nat
      ensures Before(s.history, log', i, j, p, q)
    {
      assert Before(s.history, s.log, i, j, p, q);
      if i < |s.history| && s.history[i].Sent? && p < |log'| && KeyOf(log'[p]) == EventKey(s.history[i]) {
        var p0 := SentIsApplied(s, i);
        assert log'[p0] == s.log[p0];
        assert p == p0;
      }
    }
  }

  lemma InvokedFirstKept(history: seq<Event>, more: seq<Event>)
    requires InvokedFirst(history)
    requires forall k :: 0 <= k < |more| && more[k].Sent? ==>
               exists i :: 0 <= i < |history| && history[i].Invoked? && EventKey(history[i]) == EventKey(more[k])
    ensures InvokedFirst(history + more)
  {
    var h := history + more;
    forall j | 0 <= j < |h| && h[j].Sent?
      ensures InvokedBefore(h, j)
    {
      if j < |history| {
        assert InvokedBefore(history, j);
        var i :| 0 <= i < j && history[i].Invoked? && EventKey(history[i]) == EventKey(history[j]);
        assert h[i] == history[i];
      } else {
        var k := j - |history|;
        assert h[j] == more[k];
        var i :| 0 <= i < |history| && history[i].Invoked? && EventKey(history[i]) == EventKey(more[k]);
        assert h[i] == history[i];
      }
    }
  }

  lemma InvokedKept(s: System, s': System)
    requires InvokedOk(s) && s.history <= s'.history && s'.links.Keys == s.links.Keys
    requires forall i :: 0 <= i < |s'.log| ==> s'.log[i] in s.log || s'.log[i] in s.pending
    requires forall a :: a in s'.pending ==> Invoked(a) in s'.history
    requires forall c, m :: c in s'.links && m in s'.links[c].uplink ==>
               m in s.links[c].uplink || Invoked(CommandOf(c, m)) in s'.history
    ensures InvokedOk(s')
  {
  }

  lemma LinksKeptByUpdate(log: seq<Command>, replicas: map<nat, Replica>, links: map<ClientName, Link>, c: ClientName, l: Link)
    requires LinksOk(log, replicas, links) && c in links && LinkOk(log, replicas[c.server].idx, c, l)
    ensures LinksOk(log, replicas, links[c := l])
  {
  }

  lemma OriginKept(log: seq<Command>, log': seq<Command>, idx: nat, idx': nat, c: ClientName, l: Link)
    requires OriginOk(log, idx, c, l) && log <= log' && idx <= idx'
    ensures OriginOk(log', idx', c, l)
  {
  }

  lemma LinksKeptByDecide(log: seq<Command>, replicas: map<nat, Replica>, links: map<ClientName, Link>, cmd: Command)
    requires LinksOk(log, replicas, links)
    ensures LinksOk(log + [cmd], replicas, links)
  {
    forall c | c in links
      ensures LinkOk(log + [cmd], replicas[c.server].idx, c, links[c])
    {
      var idx := replicas[c.server].idx;
      OriginKept(log, log + [cmd], idx, idx, c, links[c]);
    }
  }

  // ---- Client steps on one link --------------------------------------------------

  lemma LinkKeptBySend(log: seq<Command>, idx: nat, c: ClientName, l: Link, write: bool, kv: KVCommand, now: int)
    requires LinkOk(log, idx, c, l) && UplinkOk(l) && l.state.finalCount.None?
    ensures var l' := AfterSend(l, write, kv, now);
            LinkOk(log, idx, c, l') && UplinkOk(l') && Ceiling(l) == Ceiling(l')
  {
  }

  lemma LinkKeptByReceive(log: seq<Command>, idx: nat, c: ClientName, l: Link, now: int)
    requires LinkOk(log, idx, c, l) && l.downlink != []
    ensures var m := l.downlink[0];
            var l' := l.(state := Received(l.state, m, now), downlink := l.downlink[1..]);
            LinkOk(log, idx, c, l') && l'.state.nextId == l.state.nextId
  {
    var id := MsgId(l.downlink[0]);
    var l' := l.(state := Received(l.state, l.downlink[0], now), downlink := l.downlink[1..]);
    CountOneMore(l.state.requests, id, now);
    assert l'.state == Responded(l.state, id, now);
    assert forall k: nat :: Answered(l'.state, k) <==> k == id || Answered(l.state, k);
    assert forall k :: 0 <= k < |l'.downlink| ==> l'.downlink[k] == l.downlink[k + 1];
  }

  lemma LinkKeptQuietly(log: seq<Command>, idx: nat, c: ClientName, l: Link, uplink: seq<ClientMessage>)
    requires LinkOk(log, idx, c, l)
    ensures LinkOk(log, idx, c, l.(uplink := uplink))
    ensures LinkOk(log, idx, c, l.(connected := false))
    ensures LinkOk(log, idx, c, l.(state := l.state.(finalCount := Some(|l.state.requests|))))
  {
  }

  lemma LinkKeptByLoss(log: seq<Command>, idx: nat, c: ClientName, l: Link, i: nat)
    requires LinkOk(log, idx, c, l) && i < |l.downlink|
    ensures LinkOk(log, idx, c, l.(downlink := Without(l.downlink, i)))
  {
  }

  // ---- Applying a batch ------------------------------------------------------------

  lemma DistinctSlice(log: seq<Command>, lo: nat, hi: nat)
    requires DistinctKeys(log) && lo <= hi <= |log|
    ensures DistinctKeys(log[lo..hi])
  {
  }

  /** A message of the batch for client `c` answers an entry of the batch. */
  lemma NewMessage(log: seq<Command>, lo: nat, hi: nat, db: Store, c: ClientName, i: nat) returns (p: nat)
    requires lo <= hi <= |log|
    requires i < |MessagesTo(c.number, Responses(c.server, db, log[lo..hi]))|
    ensures var m := MessagesTo(c.number, Responses(c.server, db, log[lo..hi]))[i];
            lo <= p < hi && KeyOf(log[p]) == Key(c.server, c.number, MsgId(m)) && !m.StartSignal?
  {
    var k := MessageHasIndex(c.number, Responses(c.server, db, log[lo..hi]), i);
    var b := ResponseHasPosition(c.server, db, log[lo..hi], k);
    p := lo + b;
  }

  lemma NewMessagesDistinct(log: seq<Command>, lo: nat, hi: nat, db: Store, c: ClientName, i: nat, j: nat)
    requires DistinctKeys(log) && lo <= hi <= |log|
    requires i < j < |MessagesTo(c.number, Responses(c.server, db, log[lo..hi]))|
    ensures var ms := MessagesTo(c.number, Responses(c.server, db, log[lo..hi])); MsgId(ms[i]) != MsgId(ms[j])
  {
    var out := Responses(c.server, db, log[lo..hi]);
    DistinctSlice(log, lo, hi);
    forall a, b | 0 <= a < b < |out|
      ensures (out[a].to, MsgId(out[a].msg)) != (out[b].to, MsgId(out[b].msg))
    {
      ResponsesDistinct(c.server, db, log[lo..hi], a, b);
    }
    MessagesDistinct(c.number, out, i, j);
  }

  lemma NotYetApplied(log: seq<Command>, idx: nat, p: nat)
    requires DistinctKeys(log) && idx <= p < |log|
    ensures !Applied(log, idx, KeyOf(log[p]))
  {
  }

  lemma LinkKeptByBatch(log: seq<Command>, lo: nat, hi: nat, db: Store, links: map<ClientName, Link>, c: ClientName)
    requires c in links && LinkOk(log, lo, c, links[c]) && UplinkOk(links[c])
    requires DistinctKeys(log) && lo <= hi <= |log|
    requires forall i :: 0 <= i < |log| ==> Issued(links, log[i])
    ensures LinkOk(log, hi, c, Deliver(links[c], c.number, Responses(c.server, db, log[lo..hi])))
  {
    hide Responses, MessagesTo, Answered, CountAnswered, Replay;
    var l := links[c];
    OriginKept(log, log, lo, hi, c, l);
    if l.connected {
      var ms := MessagesTo(c.number, Responses(c.server, db, log[lo..hi]));
      var l' := l.(downlink := l.downlink + ms);
      var n := |l.downlink|;
      forall i | n <= i < |l'.downlink|
        ensures !l'.downlink[i].StartSignal? && MsgId(l'.downlink[i]) < l.state.nextId
        ensures Applied(log, hi, Key(c.server, c.number, MsgId(l'.downlink[i])))
        ensures !Applied(log, lo, Key(c.server, c.number, MsgId(l'.downlink[i])))
      {
        var p := NewMessage(log, lo, hi, db, c, i - n);
        NotYetApplied(log, lo, p);
        assert Issued(links, log[p]);
      }
      forall i, j | 0 <= i < j < |l'.downlink|
        ensures MsgId(l'.downlink[i]) != MsgId(l'.downlink[j])
      {
        if n <= i {
          NewMessagesDistinct(log, lo, hi, db, c, i - n, j - n);
        }
      }
    }
  }

  /** Every response of the batch was invoked by its client. */
  lemma BatchWasInvoked(s: System, n: nat, upTo: nat)
    requires InvokedOk(s) && InvokedFirst(s.history)
    requires n in s.replicas && s.replicas[n].idx < upTo <= |s.log|
    ensures var r := s.replicas[n];
            InvokedFirst(s.history + Stamp(n, Responses(n, r.db, s.log[r.idx..upTo])))
  {
    hide InvokedFirst, Responses, Replay;
    var r := s.replicas[n];
    var batch := s.log[r.idx..upTo];
    var more := Stamp(n, Responses(n, r.db, batch));
    forall k | 0 <= k < |more|
      ensures exists i :: 0 <= i < |s.history| && s.history[i].Invoked? && EventKey(s.history[i]) == EventKey(more[k])
    {
      var p := ResponseHasPosition(n, r.db, batch, k);
      assert Invoked(s.log[r.idx + p]) in s.history;
    }
    InvokedFirstKept(s.history, more);
  }

  // ---- Steps -----------------------------------------------------------------------

  lemma LinkFacts(s: System, c: ClientName)
    requires Inv(s) && c in s.links
    ensures c.server in s.replicas && LinkOk(s.log, s.replicas[c.server].idx, c, s.links[c])
    ensures UplinkOk(s.links[c])
  {
  }

  lemma SentKeptByStart(history: seq<Event>, replicas: map<nat, Replica>, e: Event)
    requires SentOk(history, replicas) && !e.Sent?
    ensures SentOk(history + [e], replicas)
  {
  }

  lemma SendKeeps(s: System, c: ClientName, write: bool, kv: KVCommand, now: int)
    requires Inv(s) && Enabled(s, Send(c, write, kv, now))
    ensures Inv(Next(s, Send(c, write, kv, now)))
  {
    hide ReplicasOk, SentOk, RealTime, InvokedFirst, LinkOk, UplinkOk, AfterSend;
    var l := s.links[c];
    var l' := AfterSend(l, write, kv, now);
    var cmd := CommandOf(c, Append(l.state.nextId, kv));
    LinkFacts(s, c);
    LinkKeptBySend(s.log, s.replicas[c.server].idx, c, l, write, kv, now);
    KeysKeptByUpdate(s.log, s.pending, s.links, c, l');
    SentKeptByStart(s.history, s.replicas, Invoked(cmd));
    LinksKeptByUpdate(s.log, s.replicas, s.links, c, l');
    InvokedKeptBySend(s, c, write, kv, now);
    NextIdIsNew(s, c, kv);
    RealTimeKeptByStart(s.history, s.log, Invoked(cmd));
    InvokedFirstKept(s.history, [Invoked(cmd)]);
  }

  lemma InvokedKeptBySend(s: System, c: ClientName, write: bool, kv: KVCommand, now: int)
    requires InvokedOk(s) && Enabled(s, Send(c, write, kv, now))
    ensures InvokedOk(Next(s, Send(c, write, kv, now)))
  {
  }

  lemma NextIdIsNew(s: System, c: ClientName, kv: KVCommand)
    requires Inv(s) && c in s.links
    ensures forall q :: 0 <= q < |s.log| ==>
              KeyOf(s.log[q]) != KeyOf(CommandOf(c, Append(s.links[c].state.nextId, kv)))
  {
  }

  lemma SubmitKeeps(s: System, c: ClientName)
    requires Inv(s) && Enabled(s, Submit(c))
    ensures Inv(Next(s, Submit(c)))
  {
    hide ReplicasOk, SentOk, RealTime, InvokedFirst, LinkOk, KeysOk, InvokedOk;
    var l := s.links[c];
    var cmd := CommandOf(c, l.uplink[0]);
    LinkFacts(s, c);
    LinkKeptQuietly(s.log, s.replicas[c.server].idx, c, l, l.uplink[1..]);
    KeysKeptBySubmit(s.log, s.pending, s.links, c);
    HeadIsNew(s.log, s.pending, s.links, c);
    SentKeptByStart(s.history, s.replicas, Submitted(cmd));
    InvokedKeptBySubmit(s, c);
    LinksKeptByUpdate(s.log, s.replicas, s.links, c, l.(uplink := l.uplink[1..]));
    RealTimeKeptByStart(s.history, s.log, Submitted(cmd));
    InvokedFirstKept(s.history, [Submitted(cmd)]);
  }

  lemma InvokedKeptBySubmit(s: System, c: ClientName)
    requires InvokedOk(s) && Enabled(s, Submit(c))
    ensures InvokedOk(Next(s, Submit(c)))
  {
  }

  lemma InvokedKeptByDecide(s: System, cmd: Command)
    requires InvokedOk(s) && Enabled(s, Decide(cmd))
    ensures InvokedOk(Next(s, Decide(cmd)))
  {
    InvokedKept(s, Next(s, Decide(cmd)));
  }

  lemma DecideKeeps(s: System, cmd: Command)
    requires Inv(s) && Enabled(s, Decide(cmd))
    ensures Inv(Next(s, Decide(cmd)))
  {
    hide ReplicasOk, KeysOk, SentOk, LinksOk, InvokedOk, RealTime, InvokedFirst;
    ReplicasKeptByDecide(s.log, s.replicas, cmd);
    KeysKeptByDecide(s.log, s.pending, s.links, cmd);
    LinksKeptByDecide(s.log, s.replicas, s.links, cmd);
    RealTimeKeptByDecide(s, cmd);
    InvokedKeptByDecide(s, cmd);
  }

  lemma BatchKeepsLinks(s: System, n: nat, upTo: nat)
    requires Inv(s) && Enabled(s, ApplyBatch(n, upTo))
    ensures var s' := Next(s, ApplyBatch(n, upTo));
            LinksOk(s'.log, s'.replicas, s'.links) && KeysOk(s'.log, s'.pending, s'.links)
  {
    hide ReplicasOk, SentOk, InvokedOk, RealTime, InvokedFirst, Responses, Replay, LinkOk;
    var s' := Next(s, ApplyBatch(n, upTo));
    var r := s.replicas[n];
    forall c | c in s'.links
      ensures LinkOk(s'.log, s'.replicas[c.server].idx, c, s'.links[c])
    {
      if c.server == n {
        LinkKeptByBatch(s.log, r.idx, upTo, r.db, s.links, c);
      }
    }
    KeysKept(s.log, s.pending, s.links, s'.links);
  }

  lemma BatchKeepsSent(s: System, n: nat, upTo: nat)
    requires SentOk(s.history, s.replicas) && Enabled(s, ApplyBatch(n, upTo))
    ensures var s' := Next(s, ApplyBatch(n, upTo)); SentOk(s'.history, s'.replicas)
  {
    hide Responses, Replay;
    var s' := Next(s, ApplyBatch(n, upTo));
    var out := Responses(n, s.replicas[n].db, s.log[s.replicas[n].idx..upTo]);
    forall m | m in s'.replicas
      ensures SentBy(s'.history, m) == s'.replicas[m].sent
    {
      SentByStamp(s.history, n, out, m);
    }
  }

  lemma BatchKeeps(s: System, n: nat, upTo: nat)
    requires Inv(s) && Enabled(s, ApplyBatch(n, upTo))
    ensures Inv(Next(s, ApplyBatch(n, upTo)))
  {
    hide LinksOk, KeysOk, SentOk, RealTime, InvokedFirst, Responses, Replay, ReplicaOk;
    var s' := Next(s, ApplyBatch(n, upTo));
    var r := s.replicas[n];
    var more := Stamp(n, Responses(n, r.db, s.log[r.idx..upTo]));
    assert ReplicaOk(n, s.log, r);
    assert s'.history == s.history + more;
    BatchRange(n, s.log, r);
    ReplicaKeptByBatch(n, s.log, r, upTo);
    BatchKeepsLinks(s, n, upTo);
    BatchKeepsSent(s, n, upTo);
    BatchWasInvoked(s, n, upTo);
    RealTimeKeptBySent(s.history, s.log, more);
    InvokedKept(s, s');
  }

  lemma BatchRange(n: nat, log: seq<Command>, r: Replica)
    requires ReplicaOk(n, log, r)
    ensures r.idx <= |log|
  {
  }

  /** The steps that touch one link and nothing else. */
  lemma LinkStepKeeps(s: System, c: ClientName, l: Link)
    requires Inv(s) && c in s.links
    requires UplinkOk(l) && Ceiling(s.links[c]) <= Ceiling(l)
    requires forall m :: m in l.uplink ==> m in s.links[c].uplink
    requires LinkOk(s.log, s.replicas[c.server].idx, c, l)
    ensures Inv(s.(links := s.links[c := l]))
  {
    hide ReplicasOk, SentOk, RealTime, InvokedFirst, KeysOk, LinkOk, UplinkOk, Ceiling;
    KeysKeptByUpdate(s.log, s.pending, s.links, c, l);
    LinksKeptByUpdate(s.log, s.replicas, s.links, c, l);
    InvokedKept(s, s.(links := s.links[c := l]));
  }

  lemma ReceiveKeeps(s: System, c: ClientName, now: int)
    requires Inv(s) && Enabled(s, Receive(c, now))
    ensures Inv(Next(s, Receive(c, now)))
  {
    hide Inv, LinkOk, Received;
    var l := s.links[c];
    LinkFacts(s, c);
    LinkKeptByReceive(s.log, s.replicas[c.server].idx, c, l, now);
    LinkStepKeeps(s, c, l.(state := Received(l.state, l.downlink[0], now), downlink := l.downlink[1..]));
  }

  lemma EndIntervalsKeeps(s: System, c: ClientName)
    requires Inv(s) && Enabled(s, EndIntervals(c))
    ensures Inv(Next(s, EndIntervals(c)))
  {
    hide Inv, LinkOk;
    var l := s.links[c];
    LinkFacts(s, c);
    LinkKeptQuietly(s.log, s.replicas[c.server].idx, c, l, []);
    LinkStepKeeps(s, c, l.(state := l.state.(finalCount := Some(|l.state.requests|))));
  }

  lemma DisconnectKeeps(s: System, c: ClientName)
    requires Inv(s) && Enabled(s, Disconnect(c))
    ensures Inv(Next(s, Disconnect(c)))
  {
    hide Inv, LinkOk;
    LinkFacts(s, c);
    LinkKeptQuietly(s.log, s.replicas[c.server].idx, c, s.links[c], []);
    LinkStepKeeps(s, c, s.links[c].(connected := false));
  }

  lemma LoseRequestKeeps(s: System, c: ClientName, i: nat)
    requires Inv(s) && Enabled(s, LoseRequest(c, i))
    ensures Inv(Next(s, LoseRequest(c, i)))
  {
    hide Inv, LinkOk;
    var l := s.links[c];
    LinkFacts(s, c);
    UplinkKept(l, i);
    LinkKeptQuietly(s.log, s.replicas[c.server].idx, c, l, Without(l.uplink, i));
    LinkStepKeeps(s, c, l.(uplink := Without(l.uplink, i)));
  }

  lemma LoseResponseKeeps(s: System, c: ClientName, i: nat)
    requires Inv(s) && Enabled(s, LoseResponse(c, i))
    ensures Inv(Next(s, LoseResponse(c, i)))
  {
    hide Inv, LinkOk;
    var l := s.links[c];
    LinkFacts(s, c);
    LinkKeptByLoss(s.log, s.replicas[c.server].idx, c, l, i);
    LinkStepKeeps(s, c, l.(downlink := Without(l.downlink, i)));
  }

  lemma InvNext(s: System, step: Step)
    requires Inv(s) && Enabled(s, step)
    ensures Inv(Next(s, step))
  {
    hide Inv, Next;
    match step {
      case Send(c, write, kv, now) => SendKeeps(s, c, write, kv, now);
      case Submit(c) => SubmitKeeps(s, c);
      case Decide(cmd) => DecideKeeps(s, cmd);
      case ApplyBatch(n, upTo) => BatchKeeps(s, n, upTo);
      case Receive(c, now) => ReceiveKeeps(s, c, now);
      case EndIntervals(c) => EndIntervalsKeeps(s, c);
      case LoseRequest(c, i) => LoseRequestKeeps(s, c, i);
      case LoseResponse(c, i) => LoseResponseKeeps(s, c, i);
      case Disconnect(c) => DisconnectKeeps(s, c);
    }
  }

  lemma InvInit(s: System)
    requires Init(s)
    ensures Inv(s)
  {
  }

  lemma ExecutionStep(states: seq<System>, steps: seq<Step>, t: nat)
    requires Execution(states, steps) && t < |steps|
    ensures Enabled(states[t], steps[t]) && states[t + 1] == Next(states[t], steps[t])
  {
  }

  lemma {:induction false} Reachable(states: seq<System>, steps: seq<Step>, t: nat)
    requires Execution(states, steps) && t < |states|
    ensures Inv(states[t])
  {
    hide Inv, Enabled, Next, Init;
    if t == 0 {
      InvInit(states[0]);
    } else {
      ExecutionStep(states, steps, t - 1);
      hide Execution;
      Reachable(states, steps, t - 1);
      InvNext(states[t - 1], steps[t - 1]);
    }
  }
}
