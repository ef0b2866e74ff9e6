/** What the invariant means for observers, replicas and clients. */
module ClusterTheorems {
  import opened KeyValue
  import opened ServerModel
  import opened ClientModel
  import opened ClusterModel
  import opened ClusterInvariant

  // ---- Linearizability ----------------------------------------------------------

  /** The answer of one sequential store to the command at position `p` of the log: a Get
      returns the value of the latest earlier Put or Delete on its key. */
  function SequentialAnswer(log: seq<Command>, p: nat): ServerMessage
    requires p < |log|
  {
    match log[p].kv
    case Get(key) => Read(log[p].id, LatestWrite(map[], log[..p], key))
    case _ => Write(log[p].id)
  }

  ghost predicate Explained(log: seq<Command>, e: Event)
    requires e.Sent?
  {
    exists p :: 0 <= p < |log| && KeyOf(log[p]) == EventKey(e)
                && e.out == Outgoing(log[p].clientId, SequentialAnswer(log, p))
  }

  /** The log is a linearization of the history: one entry per command, each invoked; every
      response follows its invocation, is unique and is what a sequential store would answer
      at its position in the log; and the log order respects real time. */
  ghost predicate LinearizedBy(history: seq<Event>, log: seq<Command>) {
    && DistinctKeys(log)
    && (forall p :: 0 <= p < |log| ==> Invoked(log[p]) in history)
    && InvokedFirst(history)
    && (forall i :: 0 <= i < |history| && history[i].Sent? ==> Explained(log, history[i]))
    && (forall i, j :: 0 <= i < j < |history| && history[i].Sent? && history[j].Sent? ==>
          EventKey(history[i]) != EventKey(history[j]))
    && RealTime(history, log)
  }

  lemma ResponseIsSequential(log: seq<Command>, p: nat)
    requires p < |log|
    ensures ResponseTo(Replay(map[], log[..p]), log[p]) == SequentialAnswer(log, p)
  {
    if log[p].kv.Get? {
      ReplayIsLatestWrite(map[], log[..p], log[p].kv.key);
    }
  }

  lemma SentIsExplained(s: System, i: nat)
    requires Inv(s) && i < |s.history| && s.history[i].Sent?
    ensures Explained(s.log, s.history[i])
  {
    var p := SentIsApplied(s, i);
    ResponseIsSequential(s.log, p);
  }

  lemma DistinctPrefix(log: seq<Command>, n: nat)
    requires DistinctKeys(log) && n <= |log|
    ensures DistinctKeys(log[..n])
  {
  }

  /** No response is sent twice, by the same server or by two. */
  lemma SentOnce(s: System, i: nat, j: nat)
    requires Inv(s) && i < j < |s.history| && s.history[i].Sent? && s.history[j].Sent?
    ensures EventKey(s.history[i]) != EventKey(s.history[j])
  {
    hide LinksOk, InvokedOk, RealTime, InvokedFirst;
    var n := s.history[i].server;
    if s.history[j].server == n {
      var a := SentByIndex(s.history, n, i);
      var b := SentByIndex(s.history, n, j);
      SentByGrows(s.history, n, i, j);
      assert ReplicaOk(n, s.log, s.replicas[n]);
      DistinctPrefix(s.log, s.replicas[n].idx);
      ResponsesDistinct(n, map[], s.log[..s.replicas[n].idx], a, b);
    }
  }

  /** Every history of every execution is linearized by the decided log. */
  lemma Linearizable(states: seq<System>, steps: seq<Step>, t: nat)
    requires Execution(states, steps) && t < |states|
    ensures LinearizedBy(states[t].history, states[t].log)
  {
    hide Explained, RealTime, InvokedFirst, Execution, LinksOk, SentOk, ReplicasOk;
    Reachable(states, steps, t);
    var s := states[t];
    forall i | 0 <= i < |s.history| && s.history[i].Sent?
      ensures Explained(s.log, s.history[i])
    {
      SentIsExplained(s, i);
    }
    forall i, j | 0 <= i < j < |s.history| && s.history[i].Sent? && s.history[j].Sent?
      ensures EventKey(s.history[i]) != EventKey(s.history[j])
    {
      SentOnce(s, i, j);
    }
  }

  // ---- Replica agreement ----------------------------------------------------------

  lemma {:induction false} LogGrows(states: seq<System>, steps: seq<Step>, i: nat, j: nat)
    requires Execution(states, steps) && i <= j < |states|
    ensures states[i].log <= states[j].log
  {
    if i < j {
      LogGrows(states, steps, i, j - 1);
      ExecutionStep(states, steps, j - 1);
    }
  }

  /** Two servers that have applied equally many entries hold equal databases, even when
      they are looked at at different times. */
  lemma ReplicaAgreement(states: seq<System>, steps: seq<Step>, i: nat, m: nat, j: nat, n: nat)
    requires Execution(states, steps) && i <= j < |states|
    requires m in states[i].replicas && n in states[j].replicas
    requires states[i].replicas[m].idx == states[j].replicas[n].idx
    ensures var idx, log := states[j].replicas[n].idx, states[j].log;
            idx <= |log| && states[i].replicas[m].db == states[j].replicas[n].db == Replay(map[], log[..idx])
  {
    hide Execution, KeysOk, LinksOk, InvokedOk, RealTime, InvokedFirst, SentOk;
    Reachable(states, steps, i);
    Reachable(states, steps, j);
    LogGrows(states, steps, i, j);
    var idx := states[j].replicas[n].idx;
    assert ReplicaOk(m, states[i].log, states[i].replicas[m]);
    assert ReplicaOk(n, states[j].log, states[j].replicas[n]);
    assert states[i].log[..idx] == states[j].log[..idx];
  }

  /** Two executions, cut into batches in any way, that decide the same entries leave a
      server with the same database and the same sequence of responses. */
  lemma BatchingIsIrrelevant(states: seq<System>, steps: seq<Step>, i: nat,
                             states': seq<System>, steps': seq<Step>, i': nat, n: nat)
    requires Execution(states, steps) && i < |states| && n in states[i].replicas
    requires Execution(states', steps') && i' < |states'| && n in states'[i'].replicas
    requires states[i].replicas[n].idx == states'[i'].replicas[n].idx
    requires forall p :: 0 <= p < states[i].replicas[n].idx && p < |states[i].log| && p < |states'[i'].log| ==>
               states[i].log[p] == states'[i'].log[p]
    ensures states[i].replicas[n] == states'[i'].replicas[n]
    ensures SentBy(states[i].history, n) == SentBy(states'[i'].history, n)
  {
    hide Execution, KeysOk, LinksOk, InvokedOk, RealTime, InvokedFirst;
    Reachable(states, steps, i);
    Reachable(states', steps', i');
    var idx := states[i].replicas[n].idx;
    assert ReplicaOk(n, states[i].log, states[i].replicas[n]);
    assert ReplicaOk(n, states'[i'].log, states'[i'].replicas[n]);
    assert states[i].log[..idx] == states'[i'].log[..idx];
  }

  // ---- Response discipline ---------------------------------------------------------

  /** A server has handed over exactly the responses to its own commands among the entries
      it applied, in log order. */
  lemma ResponsesInLogOrder(states: seq<System>, steps: seq<Step>, t: nat, n: nat)
    requires Execution(states, steps) && t < |states| && n in states[t].replicas
    ensures var s := states[t];
            s.replicas[n].idx <= |s.log|
            && SentBy(s.history, n) == Responses(n, map[], s.log[..s.replicas[n].idx])
  {
    Reachable(states, steps, t);
    assert ReplicaOk(n, states[t].log, states[t].replicas[n]);
  }

  lemma AppliedIsAnswered(s: System, p: nat)
    requires ReplicasOk(s.log, s.replicas) && SentOk(s.history, s.replicas)
    requires p < |s.log| && var n := s.log[p].coordinatorId; n in s.replicas && p < s.replicas[n].idx
    ensures var cmd := s.log[p];
            Sent(cmd.coordinatorId, Outgoing(cmd.clientId, SequentialAnswer(s.log, p))) in s.history
  {
    hide SequentialAnswer, ResponseTo;
    var cmd := s.log[p];
    var n := cmd.coordinatorId;
    var prefix := s.log[..s.replicas[n].idx];
    assert ReplicaOk(n, s.log, s.replicas[n]);
    assert prefix[..p] == s.log[..p];
    ResponseIsSequential(s.log, p);
    PositionHasResponse(n, map[], prefix, p);
    var i := SentByMember(s.history, n, Outgoing(cmd.clientId, SequentialAnswer(s.log, p)));
  }

  lemma AnswersAtPosition(s: System, p: nat, i: nat)
    requires Inv(s) && p < |s.log|
    requires i < |s.history| && s.history[i].Sent? && EventKey(s.history[i]) == KeyOf(s.log[p])
    ensures var cmd := s.log[p];
            && s.history[i] == Sent(cmd.coordinatorId, Outgoing(cmd.clientId, SequentialAnswer(s.log, p)))
            && cmd.coordinatorId in s.replicas && p < s.replicas[cmd.coordinatorId].idx
  {
    hide LinksOk, InvokedOk, RealTime, InvokedFirst, SequentialAnswer, ResponseTo;
    var q := SentIsApplied(s, i);
    ResponseIsSequential(s.log, p);
  }

  /** The entry at `p` is answered once its coordinator has applied it, by the coordinator
      and by no other server, with the answer of a sequential store. */
  lemma AnsweredByCoordinator(states: seq<System>, steps: seq<Step>, t: nat, p: nat)
    requires Execution(states, steps) && t < |states| && p < |states[t].log|
    ensures var s, cmd := states[t], states[t].log[p];
            var n := cmd.coordinatorId;
            && (Sent(n, Outgoing(cmd.clientId, SequentialAnswer(s.log, p))) in s.history
                <==> n in s.replicas && p < s.replicas[n].idx)
            && (forall i :: 0 <= i < |s.history| && s.history[i].Sent? && EventKey(s.history[i]) == KeyOf(cmd) ==>
                  s.history[i] == Sent(n, Outgoing(cmd.clientId, SequentialAnswer(s.log, p))))
  {
    hide LinksOk, KeysOk, InvokedOk, RealTime, InvokedFirst, Execution, ReplicasOk, SentOk;
    Reachable(states, steps, t);
    var s, cmd := states[t], states[t].log[p];
    if cmd.coordinatorId in s.replicas && p < s.replicas[cmd.coordinatorId].idx {
      AppliedIsAnswered(s, p);
    }
    AnswerKey(s.log, p);
    hide SequentialAnswer, Inv;
    forall i | 0 <= i < |s.history| && s.history[i].Sent? && EventKey(s.history[i]) == KeyOf(cmd)
      ensures s.history[i] == Sent(cmd.coordinatorId, Outgoing(cmd.clientId, SequentialAnswer(s.log, p)))
      ensures cmd.coordinatorId in s.replicas && p < s.replicas[cmd.coordinatorId].idx
    {
      AnswersAtPosition(s, p, i);
    }
  }

  lemma AnswerKey(log: seq<Command>, p: nat)
    requires p < |log|
    ensures MsgId(SequentialAnswer(log, p)) == log[p].id
  {
  }

  // ---- Client accounting ------------------------------------------------------------

  /** No response is out of range, the response count is the number of answered requests,
      and a finished client has every request answered. */
  lemma ClientAccounting(states: seq<System>, steps: seq<Step>, t: nat, c: ClientName)
    requires Execution(states, steps) && t < |states| && c in states[t].links
    ensures var l := states[t].links[c];
            && !l.state.panicked
            && (forall i :: 0 <= i < |l.downlink| ==>
                  MsgId(l.downlink[i]) < |l.state.requests| && !Answered(l.state, MsgId(l.downlink[i])))
            && l.state.responseCount == CountAnswered(l.state.requests) <= |l.state.requests|
            && (Finished(l.state) <==>
                l.state.finalCount.Some? && forall id: nat :: id < |l.state.requests| ==> Answered(l.state, id))
  {
    hide Execution, ReplicasOk, KeysOk, SentOk, InvokedOk, RealTime, InvokedFirst;
    Reachable(states, steps, t);
    LinkFacts(states[t], c);
    CountIsAll(states[t].links[c].state);
    hide Answered, CountAnswered;
  }

  /** A request is answered only by a response that the client's own server sent to it. */
  lemma AnswersComeFromOwnServer(states: seq<System>, steps: seq<Step>, t: nat, c: ClientName, id: nat)
    requires Execution(states, steps) && t < |states| && c in states[t].links
    requires Answered(states[t].links[c].state, id)
    ensures exists p :: 0 <= p < |states[t].log|
              && KeyOf(states[t].log[p]) == Key(c.server, c.number, id)
              && Sent(c.server, Outgoing(c.number, SequentialAnswer(states[t].log, p))) in states[t].history
  {
    hide Execution, ReplicasOk, KeysOk, SentOk, InvokedOk, RealTime, InvokedFirst;
    Reachable(states, steps, t);
    var s := states[t];
    LinkFacts(s, c);
    assert Applied(s.log, s.replicas[c.server].idx, Key(c.server, c.number, id));
    var p :| 0 <= p < s.replicas[c.server].idx && p < |s.log| && KeyOf(s.log[p]) == Key(c.server, c.number, id);
    AnsweredByCoordinator(states, steps, t, p);
  }

  // ---- Command identity ----------------------------------------------------------------

  ghost predicate Present(s: System, cmd: Command) {
    cmd in s.log || cmd in s.pending
  }

  /** The pair (client, id) identifies a command of the cluster. */
  ghost predicate EntryIdsIdentify(s: System) {
    forall a, b :: Present(s, a) && Present(s, b) && a.clientId == b.clientId && a.id == b.id ==> a == b
  }

  /** No two servers give out one client number. */
  ghost predicate NumbersUnique(s: System) {
    forall c, d :: c in s.links && d in s.links && c.number == d.number ==> c == d
  }

  lemma {:induction false} SameClients(states: seq<System>, steps: seq<Step>, t: nat)
    requires Execution(states, steps) && t < |states|
    ensures states[t].links.Keys == states[0].links.Keys
  {
    if t > 0 {
      ExecutionStep(states, steps, t - 1);
      SameClients(states, steps, t - 1);
      NextKeepsClients(states[t - 1], steps[t - 1]);
    }
  }

  lemma NextKeepsClients(s: System, step: Step)
    requires Enabled(s, step)
    ensures Next(s, step).links.Keys == s.links.Keys
  {
  }

  lemma KeysIdentify(s: System, a: Command, b: Command)
    requires KeysOk(s.log, s.pending, s.links) && Present(s, a) && Present(s, b)
    ensures ClientName(a.coordinatorId, a.clientId) in s.links
    ensures KeyOf(a) == KeyOf(b) ==> a == b
  {
    assert Issued(s.links, a);
  }

  /** Two clients with one number on two servers append commands with the same pair. */
  lemma EntryIdsCollide(s0: System, c: ClientName, d: ClientName, a: KVCommand, b: KVCommand)
    returns (states: seq<System>, steps: seq<Step>)
    requires Init(s0) && c in s0.links && d in s0.links && c.number == d.number && c != d
    ensures Execution(states, steps) && states[0] == s0
    ensures var last := states[|states| - 1];
            Command(c.number, c.server, 0, a) in last.pending && Command(c.number, d.server, 0, b) in last.pending
  {
    steps := [Send(c, true, a, 0), Send(d, true, b, 0), Submit(c), Submit(d)];
    var s1 := Next(s0, steps[0]);
    var s2 := Next(s1, steps[1]);
    var s3 := Next(s2, steps[2]);
    var s4 := Next(s3, steps[3]);
    states := [s0, s1, s2, s3, s4];
  }

  /** The pair (client, id) identifies a command in every execution of a cluster if and only
      if client numbers are unique across its servers; every server numbers its clients from
      1, so the key of a command adds the coordinator. */
  lemma EntryIdsIdentifyIff(s0: System)
    requires Init(s0)
    ensures (forall states, steps, t: nat ::
               Execution(states, steps) && states[0] == s0 && t < |states| ==> EntryIdsIdentify(states[t]))
            <==> NumbersUnique(s0)
  {
    if NumbersUnique(s0) {
      forall states, steps, t: nat | Execution(states, steps) && states[0] == s0 && t < |states|
        ensures EntryIdsIdentify(states[t])
      {
        Reachable(states, steps, t);
        SameClients(states, steps, t);
        forall a, b | Present(states[t], a) && Present(states[t], b) && a.clientId == b.clientId && a.id == b.id
          ensures a == b
        {
          KeysIdentify(states[t], a, b);
          KeysIdentify(states[t], b, a);
        }
      }
    } else {
      var c, d :| c in s0.links && d in s0.links && c.number == d.number && c != d;
      var states, steps := EntryIdsCollide(s0, c, d, Get(""), Get(""));
      var last := states[|states| - 1];
      assert Present(last, Command(c.number, c.server, 0, Get("")));
      assert Present(last, Command(c.number, d.server, 0, Get("")));
      assert !EntryIdsIdentify(last);
    }
  }
}
