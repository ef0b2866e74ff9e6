/** Where a request is at any time, and that it gets its answer: no step of the store loses
    a request or a response of a client whose channels neither fail nor drop. */
module ClusterDelivery {
  import opened KeyValue
  import opened ServerModel
  import opened ClientModel
  import opened ClusterModel
  import opened ClusterInvariant
  import opened ClusterTheorems

  // ---- One batch ---------------------------------------------------------------------

  lemma {:induction false} MessagesToMember(number: nat, out: seq<Outgoing>, m: ServerMessage)
    requires Outgoing(number, m) in out
    ensures m in MessagesTo(number, out)
  {
    var last := |out| - 1;
    if Outgoing(number, m) in out[..last] {
      MessagesToMember(number, out[..last], m);
    }
  }

  lemma {:induction false} MessagesToConcat(number: nat, a: seq<Outgoing>, b: seq<Outgoing>)
    ensures MessagesTo(number, a + b) == MessagesTo(number, a) + MessagesTo(number, b)
  {
    if b == [] {
      assert a + b == a;
    } else {
      assert (a + b)[..|a + b| - 1] == a + b[..|b| - 1];
      MessagesToConcat(number, a, b[..|b| - 1]);
    }
  }

  /** `ps` lists the entries of client `c` between `lo` and `hi`, in log order. */
  ghost predicate EntriesOf(log: seq<Command>, lo: nat, hi: nat, c: ClientName, ps: seq<nat>)
    requires lo <= hi <= |log|
  {
    && (forall i, j :: 0 <= i < j < |ps| ==> ps[i] < ps[j])
    && (forall p :: p in ps <==> lo <= p < hi && log[p].coordinatorId == c.server && log[p].clientId == c.number)
  }

  predicate IsOf(cmd: Command, c: ClientName) {
    cmd.coordinatorId == c.server && cmd.clientId == c.number
  }

  lemma EntriesNext(log: seq<Command>, lo: nat, hi: nat, c: ClientName, ps: seq<nat>)
    requires lo < hi <= |log| && EntriesOf(log, lo, hi - 1, c, ps)
    ensures EntriesOf(log, lo, hi, c, if IsOf(log[hi - 1], c) then ps + [hi - 1] else ps)
  {
    var ps' := ps + if IsOf(log[hi - 1], c) then [hi - 1] else [];
    assert forall i :: 0 <= i < |ps| ==> ps[i] in ps;
    assert forall p :: p in ps' <==> p in ps || (p == hi - 1 && IsOf(log[hi - 1], c));
  }

  /** What a batch of entries that follows the first `lo` puts on the channel of a client. */
  function BatchMessages(log: seq<Command>, lo: nat, hi: nat, c: ClientName): seq<ServerMessage>
    requires lo <= hi <= |log|
  {
    MessagesTo(c.number, Responses(c.server, Replay(map[], log[..lo]), log[lo..hi]))
  }

  lemma AnswersNext(log: seq<Command>, lo: nat, hi: nat, c: ClientName)
    requires lo < hi <= |log|
    ensures IsOf(log[hi - 1], c) ==>
              BatchMessages(log, lo, hi, c) == BatchMessages(log, lo, hi - 1, c) + [SequentialAnswer(log, hi - 1)]
    ensures !IsOf(log[hi - 1], c) ==> BatchMessages(log, lo, hi, c) == BatchMessages(log, lo, hi - 1, c)
  {
    var db, batch := Replay(map[], log[..lo]), log[lo..hi];
    assert batch[..|batch| - 1] == log[lo..hi - 1] && batch[|batch| - 1] == log[hi - 1];
    assert log[..lo] + log[lo..hi - 1] == log[..hi - 1];
    ReplayConcat(map[], log[..lo], log[lo..hi - 1]);
    ResponseIsSequential(log, hi - 1);
    var more := if log[hi - 1].coordinatorId == c.server
                then [Outgoing(log[hi - 1].clientId, SequentialAnswer(log, hi - 1))] else [];
    assert Responses(c.server, db, batch) == Responses(c.server, db, log[lo..hi - 1]) + more;
    MessagesToConcat(c.number, Responses(c.server, db, log[lo..hi - 1]), more);
    assert more != [] ==> more[..0] == [];
  }

  /** `ms` are the answers of one sequential store to the entries at the positions `ps`. */
  ghost predicate AnswersAt(log: seq<Command>, ps: seq<nat>, ms: seq<ServerMessage>) {
    |ms| == |ps| && forall k :: 0 <= k < |ps| ==> ps[k] < |log| && ms[k] == SequentialAnswer(log, ps[k])
  }

  lemma AnswersAtNext(log: seq<Command>, ps: seq<nat>, ms: seq<ServerMessage>, p: nat)
    requires AnswersAt(log, ps, ms) && p < |log|
    ensures AnswersAt(log, ps + [p], ms + [SequentialAnswer(log, p)])
  {
    hide SequentialAnswer;
  }

  lemma EmptyBatch(log: seq<Command>, lo: nat, c: ClientName)
    requires lo <= |log|
    ensures EntriesOf(log, lo, lo, c, []) && AnswersAt(log, [], BatchMessages(log, lo, lo, c))
  {
    assert log[lo..lo] == [];
  }

  /** The messages of a batch for one client are the sequential answers to its entries. */
  lemma {:induction false} AnswersInOrder(log: seq<Command>, lo: nat, hi: nat, c: ClientName) returns (ps: seq<nat>)
    requires lo <= hi <= |log|
    ensures EntriesOf(log, lo, hi, c, ps) && AnswersAt(log, ps, BatchMessages(log, lo, hi, c))
  {
    hide BatchMessages, SequentialAnswer, EntriesOf, AnswersAt;
    if lo == hi {
      ps := [];
      EmptyBatch(log, lo, c);
    } else {
      ps := AnswersInOrder(log, lo, hi - 1, c);
      AnswersNext(log, lo, hi, c);
      EntriesNext(log, lo, hi, c, ps);
      if IsOf(log[hi - 1], c) {
        AnswersAtNext(log, ps, BatchMessages(log, lo, hi - 1, c), hi - 1);
        ps := ps + [hi - 1];
      }
    }
  }

  lemma ReplicaFacts(s: System, n: nat)
    requires Inv(s) && n in s.replicas
    ensures s.replicas[n].idx <= |s.log| && s.replicas[n].db == Replay(map[], s.log[..s.replicas[n].idx])
  {
    assert ReplicaOk(n, s.log, s.replicas[n]);
  }

  lemma BatchLink(s: System, n: nat, upTo: nat, c: ClientName)
    requires Enabled(s, ApplyBatch(n, upTo)) && c in s.links && c.server == n
    ensures var r := s.replicas[n];
            var s' := Next(s, ApplyBatch(n, upTo));
            c in s'.links && s'.links[c] == Deliver(s.links[c], c.number, Responses(n, r.db, s.log[r.idx..upTo]))
  {
    hide Responses, Deliver, Replay, Stamp;
  }

  /** Applying a batch puts on the channel of a connected client exactly the answers to its own
      entries in the batch, in log order, and nothing on that of a disconnected one. */
  lemma BatchReachesClient(s: System, n: nat, upTo: nat, c: ClientName)
    returns (ps: seq<nat>, ms: seq<ServerMessage>)
    requires Inv(s) && Enabled(s, ApplyBatch(n, upTo)) && c in s.links && c.server == n
    ensures s.replicas[n].idx <= upTo <= |s.log| && EntriesOf(s.log, s.replicas[n].idx, upTo, c, ps)
    ensures AnswersAt(s.log, ps, ms)
    ensures var l, s' := s.links[c], Next(s, ApplyBatch(n, upTo));
            c in s'.links && s'.links[c] == l.(downlink := l.downlink + if l.connected then ms else [])
  {
    hide Inv, Next, EntriesOf, Responses, MessagesTo, SequentialAnswer, Replay, AnswersAt;
    ReplicaFacts(s, n);
    BatchLink(s, n, upTo, c);
    ps := AnswersInOrder(s.log, s.replicas[n].idx, upTo, c);
    ms := BatchMessages(s.log, s.replicas[n].idx, upTo, c);
  }

  // ---- No request is lost on the way to the log ----------------------------------------

  ghost predicate InUplink(l: Link, id: nat) {
    exists i :: 0 <= i < |l.uplink| && l.uplink[i].id == id
  }

  ghost predicate InPending(pending: set<Command>, key: Key) {
    exists a :: a in pending && KeyOf(a) == key
  }

  ghost predicate InLog(log: seq<Command>, key: Key) {
    exists p :: 0 <= p < |log| && KeyOf(log[p]) == key
  }

  ghost predicate OnItsWay(s: System, c: ClientName, id: nat)
    requires c in s.links
  {
    var key := Key(c.server, c.number, id);
    InUplink(s.links[c], id) || InPending(s.pending, key) || InLog(s.log, key)
  }

  /** Every request sent is in the channel, in the hands of the consensus library, or decided. */
  ghost predicate Accounted(s: System, c: ClientName)
    requires c in s.links
  {
    forall id: nat :: id < s.links[c].state.nextId ==> OnItsWay(s, c, id)
  }

  /** What a step does to a request that is on its way, if it is not its channel that fails. */
  lemma OnItsWayKept(s: System, step: Step, c: ClientName, id: nat)
    requires Enabled(s, step) && c in s.links && OnItsWay(s, c, id)
    requires !(step.LoseRequest? && step.c == c)
    ensures Next(s, step).links.Keys == s.links.Keys && OnItsWay(Next(s, step), c, id)
  {
    hide Responses, Deliver, Replay, Stamp, Received, Requested;
    NextKeepsClients(s, step);
    var key, s' := Key(c.server, c.number, id), Next(s, step);
    if InUplink(s.links[c], id) {
      UplinkEntryKept(s, step, c, id);
    } else if InPending(s.pending, key) {
      PendingKept(s, step, key);
    } else {
      var p :| 0 <= p < |s.log| && KeyOf(s.log[p]) == key;
      assert s'.log[p] == s.log[p];
    }
  }

  lemma UplinkEntryKept(s: System, step: Step, c: ClientName, id: nat)
    requires Enabled(s, step) && c in s.links && InUplink(s.links[c], id)
    requires !(step.LoseRequest? && step.c == c)
    ensures c in Next(s, step).links
    ensures InUplink(Next(s, step).links[c], id) || InPending(Next(s, step).pending, Key(c.server, c.number, id))
  {
    hide Responses, Replay, Stamp, Received, Requested, MessagesTo;
    NextKeepsClients(s, step);
    var s' := Next(s, step);
    var l, l' := s.links[c], s'.links[c];
    var i :| 0 <= i < |l.uplink| && l.uplink[i].id == id;
    if step == Submit(c) {
      if i == 0 {
        assert CommandOf(c, l.uplink[0]) in s'.pending;
      } else {
        assert l'.uplink[i - 1] == l.uplink[i];
      }
    } else {
      assert l'.uplink[i] == l.uplink[i];
    }
  }

  lemma PendingKept(s: System, step: Step, key: Key)
    requires Enabled(s, step) && InPending(s.pending, key)
    ensures InPending(Next(s, step).pending, key) || InLog(Next(s, step).log, key)
  {
    hide Responses, Replay, Stamp, Deliver, Received, Requested;
    var s' := Next(s, step);
    var a :| a in s.pending && KeyOf(a) == key;
    if step == Decide(a) {
      assert s'.log[|s.log|] == a;
    } else {
      assert a in s'.pending;
    }
  }

  lemma NewRequest(s: System, step: Step, c: ClientName)
    requires Enabled(s, step) && c in s.links && Next(s, step).links.Keys == s.links.Keys
    ensures Next(s, step).links[c].state.nextId <=
              s.links[c].state.nextId + if step.Send? && step.c == c then 1 else 0
    ensures step.Send? && step.c == c ==> InUplink(Next(s, step).links[c], s.links[c].state.nextId)
  {
    hide Responses, Replay, Stamp, MessagesTo;
    var l' := Next(s, step).links[c];
    if step.Send? && step.c == c {
      assert l'.uplink[|s.links[c].uplink|].id == s.links[c].state.nextId;
    }
  }

  lemma AccountedNext(s: System, step: Step, c: ClientName)
    requires Enabled(s, step) && c in s.links && Accounted(s, c)
    requires !(step.LoseRequest? && step.c == c)
    ensures Next(s, step).links.Keys == s.links.Keys && Accounted(Next(s, step), c)
  {
    hide Enabled, Next, OnItsWay;
    NextKeepsClients(s, step);
    NewRequest(s, step, c);
    var s' := Next(s, step);
    forall id: nat | id < s'.links[c].state.nextId
      ensures OnItsWay(s', c, id)
    {
      if id < s.links[c].state.nextId {
        OnItsWayKept(s, step, c, id);
      } else {
        OnItsWayNew(s', c, id);
      }
    }
  }

  lemma OnItsWayNew(s: System, c: ClientName, id: nat)
    requires c in s.links && InUplink(s.links[c], id)
    ensures OnItsWay(s, c, id)
  {
  }

  // ---- No response is lost on the way back ---------------------------------------------

  ghost predicate InDownlink(l: Link, id: nat) {
    exists i :: 0 <= i < |l.downlink| && MsgId(l.downlink[i]) == id
  }

  /** Every response handed over for the client is in its channel or has been received. */
  ghost predicate Handed(s: System, c: ClientName)
    requires c in s.links
  {
    && s.links[c].connected
    && forall m :: Sent(c.server, Outgoing(c.number, m)) in s.history ==>
         m in s.links[c].downlink || Answered(s.links[c].state, MsgId(m))
  }

  predicate Harms(step: Step, c: ClientName) {
    (step.LoseResponse? || step.Disconnect?) && step.c == c
  }

  /** What was sent before stays in the channel until it is received. */
  lemma ResponseKept(s: System, step: Step, c: ClientName, m: ServerMessage)
    requires Inv(s) && Enabled(s, step) && c in s.links && !Harms(step, c)
    requires m in s.links[c].downlink || Answered(s.links[c].state, MsgId(m))
    ensures c in Next(s, step).links
    ensures m in Next(s, step).links[c].downlink || Answered(Next(s, step).links[c].state, MsgId(m))
  {
    hide Responses, Replay, Stamp, MessagesTo, ReplicasOk, KeysOk, SentOk, InvokedOk, RealTime, InvokedFirst;
    NextKeepsClients(s, step);
    LinkFacts(s, c);
    hide Inv, OriginOk;
    if step.Receive? && step.c == c {
      ReceiveAnswers(s, c, step.now, m);
    }
  }

  /** Receiving answers the request that the head of the channel names, and takes nothing else
      off the channel. */
  lemma ReceiveAnswers(s: System, c: ClientName, now: int, m: ServerMessage)
    requires Enabled(s, Receive(c, now)) && StateOk(s.links[c].state) && DownlinkOk(s.links[c])
    ensures var l, l' := s.links[c], Next(s, Receive(c, now)).links[c];
            && Answered(l'.state, MsgId(l.downlink[0]))
            && l'.state.requests[MsgId(l.downlink[0])].responseTime == Some(now)
            && l'.downlink == l.downlink[1..]
            && (forall id: nat :: Answered(l.state, id) ==> Answered(l'.state, id))
            && (m in l.downlink ==> m in l'.downlink || Answered(l'.state, MsgId(m)))
  {
    var l := s.links[c];
    assert !l.downlink[0].StartSignal? && MsgId(l.downlink[0]) < |l.state.requests|;
    assert l.downlink == [l.downlink[0]] + l.downlink[1..];
  }

  /** Sending records the request under the next number and puts it on the channel with it. */
  lemma SendRecords(s: System, c: ClientName, write: bool, kv: KVCommand, now: int)
    requires Enabled(s, Send(c, write, kv, now)) && StateOk(s.links[c].state)
    ensures var l, l' := s.links[c], Next(s, Send(c, write, kv, now)).links[c];
            var id := l.state.nextId;
            && id == |l.state.requests| && l'.state.nextId == id + 1
            && l'.state.requests == l.state.requests + [RequestData(now, write, None)]
            && l'.uplink == l.uplink + [Append(id, kv)]
            && !Answered(l'.state, id) && l'.downlink == l.downlink
  {
  }

  /** A response that is new in the history is new in the channel of its client. */
  lemma ResponseArrives(s: System, step: Step, c: ClientName, m: ServerMessage)
    requires Enabled(s, step) && c in s.links && s.links[c].connected
    requires Sent(c.server, Outgoing(c.number, m)) in Next(s, step).history
    requires Sent(c.server, Outgoing(c.number, m)) !in s.history
    ensures c in Next(s, step).links && m in Next(s, step).links[c].downlink
  {
    hide Responses, Replay, MessagesTo, Received, Requested;
    NextKeepsClients(s, step);
    assert step.ApplyBatch?;
    var r := s.replicas[step.n];
    var out := Responses(step.n, r.db, s.log[r.idx..step.upTo]);
    assert step.n == c.server && Outgoing(c.number, m) in out;
    MessagesToMember(c.number, out, m);
  }

  lemma StaysConnected(s: System, step: Step, c: ClientName)
    requires Enabled(s, step) && c in s.links && s.links[c].connected && !Harms(step, c)
    ensures c in Next(s, step).links && Next(s, step).links[c].connected
  {
    hide Responses, Replay, MessagesTo, Received, Requested, Stamp;
  }

  lemma HandedNext(s: System, step: Step, c: ClientName)
    requires Inv(s) && Enabled(s, step) && c in s.links && Handed(s, c) && !Harms(step, c)
    ensures c in Next(s, step).links && Handed(Next(s, step), c)
  {
    hide Inv, Enabled, Next, Answered;
    StaysConnected(s, step, c);
    var s' := Next(s, step);
    forall m | Sent(c.server, Outgoing(c.number, m)) in s'.history
      ensures m in s'.links[c].downlink || Answered(s'.links[c].state, MsgId(m))
    {
      if Sent(c.server, Outgoing(c.number, m)) in s.history {
        ResponseKept(s, step, c, m);
      } else {
        ResponseArrives(s, step, c, m);
      }
    }
  }

  lemma HandedAtFirst(s: System, c: ClientName)
    requires Init(s) && c in s.links
    ensures Handed(s, c)
  {
  }

  /** In every execution, a response handed over for a client that is never disconnected and
      loses no response is in its channel or has answered its request. */
  lemma {:induction false} ResponsesArrive(states: seq<System>, steps: seq<Step>, t: nat, c: ClientName)
    requires Execution(states, steps) && t < |states| && c in states[0].links
    requires forall i :: 0 <= i < t ==> !Harms(steps[i], c)
    ensures c in states[t].links && Handed(states[t], c)
  {
    hide Inv, Enabled, Next, Handed, Init, Harms;
    if t > 0 {
      ResponsesArrive(states, steps, t - 1, c);
      Reachable(states, steps, t - 1);
      ExecutionStep(states, steps, t - 1);
      HandedNext(states[t - 1], steps[t - 1], c);
    } else {
      HandedAtFirst(states[0], c);
    }
  }

  /** A client whose connection is gone gets nothing new. */
  lemma {:induction false} GoneStaysGone(states: seq<System>, steps: seq<Step>, i: nat, j: nat, c: ClientName)
    requires Execution(states, steps) && i < j < |states| && c in states[0].links && steps[i] == Disconnect(c)
    ensures c in states[i].links && c in states[j].links && !states[j].links[c].connected
    ensures |states[j].links[c].downlink| <= |states[i].links[c].downlink|
  {
    SameClients(states, steps, i);
    hide Enabled, Next, Init;
    if j == i + 1 {
      ExecutionStep(states, steps, i);
      DisconnectCuts(states[i], c);
    } else {
      GoneStaysGone(states, steps, i, j - 1, c);
      ExecutionStep(states, steps, j - 1);
      GoneNext(states[j - 1], steps[j - 1], c);
    }
  }

  lemma DisconnectCuts(s: System, c: ClientName)
    requires Enabled(s, Disconnect(c))
    ensures Next(s, Disconnect(c)).links[c] == s.links[c].(connected := false)
  {
  }

  lemma GoneNext(s: System, step: Step, c: ClientName)
    requires Enabled(s, step) && c in s.links && !s.links[c].connected
    ensures c in Next(s, step).links && !Next(s, step).links[c].connected
    ensures |Next(s, step).links[c].downlink| <= |s.links[c].downlink|
  {
    hide Responses, Replay, MessagesTo, Received, Requested, Stamp;
  }

  // ---- A request is always in one place --------------------------------------------------

  datatype Place = Uplink | Pending | Decided | Downlink | Done

  ghost predicate At(s: System, c: ClientName, id: nat, place: Place)
    requires c in s.links && c.server in s.replicas
  {
    var key := Key(c.server, c.number, id);
    match place
    case Uplink => InUplink(s.links[c], id)
    case Pending => InPending(s.pending, key)
    case Decided => exists p :: s.replicas[c.server].idx <= p < |s.log| && KeyOf(s.log[p]) == key
    case Downlink => InDownlink(s.links[c], id)
    case Done => Answered(s.links[c].state, id)
  }

  /** How far along a place is: 0 in the channel, 1 with the library, 2 decided, 3 applied. */
  function Stage(place: Place): nat {
    match place
    case Uplink => 0
    case Pending => 1
    case Decided => 2
    case _ => 3
  }

  /** The stage can be told from the state without the place. */
  lemma StageOf(s: System, c: ClientName, id: nat, place: Place)
    requires Inv(s) && c in s.links && c.server in s.replicas && At(s, c, id, place)
    ensures var key := Key(c.server, c.number, id);
            Stage(place) == if id >= Ceiling(s.links[c]) then 0
                            else if !InLog(s.log, key) then 1
                            else if !Applied(s.log, s.replicas[c.server].idx, key) then 2
                            else 3
  {
    hide ReplicasOk, SentOk, InvokedOk, RealTime, InvokedFirst;
    LinkFacts(s, c);
    match place {
      case Uplink =>
      case Pending => PendingStage(s, c, id);
      case Decided => DecidedStage(s, c, id);
      case Downlink => AppliedStage(s, c, id);
      case Done => AppliedStage(s, c, id);
    }
  }

  lemma PendingStage(s: System, c: ClientName, id: nat)
    requires KeysOk(s.log, s.pending, s.links) && c in s.links && InPending(s.pending, Key(c.server, c.number, id))
    ensures id < Ceiling(s.links[c]) && !InLog(s.log, Key(c.server, c.number, id))
  {
  }

  lemma DecidedStage(s: System, c: ClientName, id: nat)
    requires KeysOk(s.log, s.pending, s.links) && c in s.links && c.server in s.replicas
    requires At(s, c, id, Decided)
    ensures id < Ceiling(s.links[c]) && InLog(s.log, Key(c.server, c.number, id))
    ensures !Applied(s.log, s.replicas[c.server].idx, Key(c.server, c.number, id))
  {
    hide Ceiling;
    var p :| s.replicas[c.server].idx <= p < |s.log| && KeyOf(s.log[p]) == Key(c.server, c.number, id);
    assert Issued(s.links, s.log[p]);
  }

  lemma AppliedStage(s: System, c: ClientName, id: nat)
    requires KeysOk(s.log, s.pending, s.links) && c in s.links && c.server in s.replicas
    requires OriginOk(s.log, s.replicas[c.server].idx, c, s.links[c])
    requires InDownlink(s.links[c], id) || Answered(s.links[c].state, id)
    ensures id < Ceiling(s.links[c]) && InLog(s.log, Key(c.server, c.number, id))
    ensures Applied(s.log, s.replicas[c.server].idx, Key(c.server, c.number, id))
  {
    hide Ceiling, Answered;
    assert Applied(s.log, s.replicas[c.server].idx, Key(c.server, c.number, id));
    var p :| 0 <= p < s.replicas[c.server].idx && p < |s.log| && KeyOf(s.log[p]) == Key(c.server, c.number, id);
    assert Issued(s.links, s.log[p]);
  }

  /** A request is never in two places. */
  lemma NotTwoPlaces(s: System, c: ClientName, id: nat, a: Place, b: Place)
    requires Inv(s) && c in s.links && c.server in s.replicas
    requires At(s, c, id, a) && At(s, c, id, b)
    ensures a == b
  {
    hide ReplicasOk, KeysOk, SentOk, InvokedOk, RealTime, InvokedFirst, Applied, InLog;
    StageOf(s, c, id, a);
    StageOf(s, c, id, b);
    LinkFacts(s, c);
    hide Inv;
  }

  /** A request that is on its way and whose answers reach the client has a place. */
  lemma HasPlace(s: System, c: ClientName, id: nat) returns (place: Place)
    requires Inv(s) && c in s.links && c.server in s.replicas && OnItsWay(s, c, id) && Handed(s, c)
    ensures At(s, c, id, place)
  {
    var key := Key(c.server, c.number, id);
    if InUplink(s.links[c], id) {
      place := Uplink;
    } else if InPending(s.pending, key) {
      place := Pending;
    } else {
      var p :| 0 <= p < |s.log| && KeyOf(s.log[p]) == key;
      if p >= s.replicas[c.server].idx {
        place := Decided;
      } else {
        place := AppliedPlace(s, c, p);
      }
    }
  }

  lemma AppliedPlace(s: System, c: ClientName, p: nat) returns (place: Place)
    requires Inv(s) && c in s.links && c.server in s.replicas && Handed(s, c)
    requires p < |s.log| && p < s.replicas[c.server].idx
    requires s.log[p].coordinatorId == c.server && s.log[p].clientId == c.number
    ensures At(s, c, s.log[p].id, place)
  {
    hide SequentialAnswer, Answered, KeysOk, LinksOk, InvokedOk, RealTime, InvokedFirst;
    AppliedIsAnswered(s, p);
    AnswerKey(s.log, p);
    hide Inv;
    var m := SequentialAnswer(s.log, p);
    if m in s.links[c].downlink {
      place := Downlink;
    } else {
      place := Done;
    }
  }

  /** The client is never disconnected and its channels lose nothing. */
  ghost predicate Spared(steps: seq<Step>, c: ClientName) {
    forall i :: 0 <= i < |steps| ==> !Harms(steps[i], c) && !(steps[i].LoseRequest? && steps[i].c == c)
  }

  lemma {:induction false} RequestsAccounted(states: seq<System>, steps: seq<Step>, t: nat, c: ClientName)
    requires Execution(states, steps) && t < |states| && c in states[0].links && Spared(steps, c)
    ensures c in states[t].links && Accounted(states[t], c)
  {
    if t > 0 {
      hide Enabled, Next, Accounted, Init;
      RequestsAccounted(states, steps, t - 1, c);
      ExecutionStep(states, steps, t - 1);
      AccountedNext(states[t - 1], steps[t - 1], c);
    }
  }

  /** Conservation: at any time a request that was sent is in exactly one place: the channel to
      the server, the consensus library, decided and not yet applied, the channel back, or
      answered. */
  lemma OnePlace(states: seq<System>, steps: seq<Step>, t: nat, c: ClientName, id: nat)
    requires Execution(states, steps) && t < |states| && c in states[t].links && Spared(steps, c)
    requires id < states[t].links[c].state.nextId
    ensures var s := states[t];
            c.server in s.replicas
            && exists place :: At(s, c, id, place) && forall other :: At(s, c, id, other) ==> other == place
  {
    hide Inv, At, OnItsWay, Handed, Init, Enabled, Next;
    var s := states[t];
    SameClients(states, steps, t);
    Reachable(states, steps, t);
    LinkFacts(s, c);
    RequestsAccounted(states, steps, t, c);
    ResponsesArrive(states, steps, t, c);
    var place := HasPlace(s, c, id);
    forall other | At(s, c, id, other)
      ensures other == place
    {
      NotTwoPlaces(s, c, id, other, place);
    }
  }

  // ---- Every request can be answered -----------------------------------------------------

  /** Nothing is left to do for the client. */
  predicate Quiet(s: System, c: ClientName)
    requires c in s.links && c.server in s.replicas
  {
    && s.links[c].uplink == [] && s.links[c].downlink == []
    && s.pending == {} && s.replicas[c.server].idx == |s.log|
  }

  /** When nothing is left to do, every request has been answered, and a client that has sent
      its last request is finished. */
  lemma QuietMeansAnswered(states: seq<System>, steps: seq<Step>, t: nat, c: ClientName)
    requires Execution(states, steps) && t < |states| && c in states[t].links && Spared(steps, c)
    requires c.server in states[t].replicas && Quiet(states[t], c)
    ensures var l := states[t].links[c];
            && (forall id: nat :: id < |l.state.requests| ==> Answered(l.state, id))
            && (l.state.finalCount.Some? ==> Finished(l.state))
  {
    hide Execution, Inv, Spared, Answered;
    var s := states[t];
    Reachable(states, steps, t);
    LinkFacts(s, c);
    forall id: nat | id < |s.links[c].state.requests|
      ensures Answered(s.links[c].state, id)
    {
      OnePlace(states, steps, t, c, id);
    }
    CountIsAll(s.links[c].state);
  }

  lemma Extend(states: seq<System>, steps: seq<Step>, step: Step)
    requires Execution(states, steps) && Enabled(states[|steps|], step)
    ensures Execution(states + [Next(states[|steps|], step)], steps + [step])
  {
    hide Enabled, Next, Init;
  }

  /** One step of work that is left for the client, and what it leaves alone. */
  lemma Work(s: System, c: ClientName) returns (step: Step)
    requires Inv(s) && c in s.links && c.server in s.replicas && !Quiet(s, c)
    ensures Enabled(s, step) && (step.Submit? || step.Decide? || step.ApplyBatch? || step.Receive?)
    ensures var s' := Next(s, step);
            && c in s'.links && c.server in s'.replicas
            && s'.links[c].state.finalCount == s.links[c].state.finalCount
            && s'.replicas[c.server].idx <= |s'.log|
            && s.replicas[c.server].idx <= |s.log|
            && (|s'.links[c].uplink| < |s.links[c].uplink|
                || (s'.links[c].uplink == s.links[c].uplink
                    && (|s'.pending| < |s.pending|
                        || (s'.pending == s.pending
                            && (|s'.log| - s'.replicas[c.server].idx < |s.log| - s.replicas[c.server].idx
                                || (s'.log == s.log && s'.replicas == s.replicas
                                    && |s'.links[c].downlink| < |s.links[c].downlink|))))))
  {
    hide Responses, Replay, MessagesTo, Stamp, Inv;
    ReplicaFacts(s, c.server);
    if s.links[c].uplink != [] {
      step := Submit(c);
    } else if cmd :| cmd in s.pending {
      step := Decide(cmd);
    } else if s.replicas[c.server].idx < |s.log| {
      step := ApplyBatch(c.server, |s.log|);
    } else {
      step := Receive(c, 0);
    }
  }

  /** Every run can be carried to a state where nothing is left to do for the client. */
  lemma {:induction false} Drain(states: seq<System>, steps: seq<Step>, c: ClientName)
    returns (states': seq<System>, steps': seq<Step>)
    requires Execution(states, steps) && Spared(steps, c)
    requires var s := states[|steps|]; c in s.links && c.server in s.replicas && s.replicas[c.server].idx <= |s.log|
    ensures Execution(states', steps') && states <= states' && steps <= steps' && Spared(steps', c)
    ensures var s, s' := states[|steps|], states'[|steps'|];
            && c in s'.links && c.server in s'.replicas && Quiet(s', c)
            && s'.links[c].state.finalCount == s.links[c].state.finalCount
    decreases |states[|steps|].links[c].uplink|, |states[|steps|].pending|,
              |states[|steps|].log| - states[|steps|].replicas[c.server].idx,
              |states[|steps|].links[c].downlink|
  {
    hide Inv, Enabled, Next, Init;
    var s := states[|steps|];
    if Quiet(s, c) {
      states', steps' := states, steps;
    } else {
      Reachable(states, steps, |steps|);
      var step := Work(s, c);
      Extend(states, steps, step);
      states', steps' := Drain(states + [Next(s, step)], steps + [step], c);
    }
  }

  /** However far a run has come, a client that is spared can still get all its answers and
      finish. */
  lemma ClientCanFinish(states: seq<System>, steps: seq<Step>, c: ClientName)
    returns (states': seq<System>, steps': seq<Step>)
    requires Execution(states, steps) && Spared(steps, c) && c in states[|steps|].links
    ensures Execution(states', steps') && states <= states' && steps <= steps'
    ensures c in states'[|steps'|].links && Finished(states'[|steps'|].links[c].state)
    ensures var l := states'[|steps'|].links[c].state; forall id: nat :: id < |l.requests| ==> Answered(l, id)
  {
    hide Inv, Answered, Finished, CountAnswered, Enabled, Next, Init, Quiet;
    var s := states[|steps|];
    var step := EndIntervals(c);
    EndKeeps(s, c);
    Extend(states, steps, step);
    Reachable(states, steps, |steps|);
    LinkFacts(s, c);
    ReplicaFacts(s, c.server);
    states', steps' := Drain(states + [Next(s, step)], steps + [step], c);
    QuietMeansAnswered(states', steps', |steps'|, c);
  }

  lemma EndKeeps(s: System, c: ClientName)
    requires c in s.links
    ensures Enabled(s, EndIntervals(c))
    ensures var s' := Next(s, EndIntervals(c));
            && s'.links.Keys == s.links.Keys && s'.replicas == s.replicas && s'.log == s.log
            && s'.links[c].state.finalCount.Some?
  {
  }
}
