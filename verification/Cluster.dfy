/** The replicated store as a state machine: any number of servers and clients over
    one append-only decided log.

    The consensus library is represented by what it promises: the decided log only
    grows, only submitted commands enter it, each at most once, and a server sees a
    growing prefix. Requests may be lost, responses may be lost, and a client may be
    disconnected; nothing is duplicated. */
module ClusterModel {
  import opened KeyValue
  import opened ServerModel
  import opened ClientModel

  /** A client is known by its server and the number that server gave it: every server
      numbers its clients from 1. */
  datatype ClientName = ClientName(server: nat, number: nat)

  datatype Key = Key(coordinator: nat, client: nat, id: nat)

  function KeyOf(cmd: Command): Key {
    Key(cmd.coordinatorId, cmd.clientId, cmd.id)
  }

  datatype Replica = Replica(db: Store, idx: nat, sent: seq<Outgoing>)

  /** A client with its two channels; `connected` is the server's end of the connection. */
  datatype Link = Link(
    state: ClientState,
    uplink: seq<ClientMessage>,
    downlink: seq<ServerMessage>,
    connected: bool)

  /** What an observer sees: a client invokes a command, its server appends it, a server
      hands a response to `send_to_client`. */
  datatype Event = Invoked(cmd: Command) | Submitted(cmd: Command) | Sent(server: nat, out: Outgoing)

  datatype System = System(
    log: seq<Command>,
    pending: set<Command>,
    replicas: map<nat, Replica>,
    links: map<ClientName, Link>,
    history: seq<Event>)

  datatype Step =
    | Send(c: ClientName, write: bool, kv: KVCommand, now: int)
    | Submit(c: ClientName)
    | Decide(cmd: Command)
    | ApplyBatch(n: nat, upTo: nat)
    | Receive(c: ClientName, now: int)
    | EndIntervals(c: ClientName)
    | LoseRequest(c: ClientName, i: nat)
    | LoseResponse(c: ClientName, i: nat)
    | Disconnect(c: ClientName)

  ghost predicate Init(s: System) {
    && s.log == [] && s.pending == {} && s.history == []
    && (forall n :: n in s.replicas ==> s.replicas[n] == Replica(map[], 0, []))
    && (forall c :: c in s.links ==> s.links[c] == Link(Fresh, [], [], true) && c.server in s.replicas)
  }

  function CommandOf(c: ClientName, m: ClientMessage): Command {
    Command(c.number, c.server, m.id, m.kv)
  }

  predicate Enabled(s: System, step: Step) {
    match step
    case Send(c, _, _, _) => c in s.links && s.links[c].state.finalCount.None?
    case Submit(c) => c in s.links && s.links[c].uplink != []
    case Decide(cmd) => cmd in s.pending
    case ApplyBatch(n, upTo) => n in s.replicas && s.replicas[n].idx < upTo <= |s.log|
    case Receive(c, _) => c in s.links && s.links[c].downlink != []
    case EndIntervals(c) => c in s.links
    case LoseRequest(c, i) => c in s.links && i < |s.links[c].uplink|
    case LoseResponse(c, i) => c in s.links && i < |s.links[c].downlink|
    case Disconnect(c) => c in s.links
  }

  function Without<T>(q: seq<T>, i: nat): seq<T>
    requires i < |q|
  {
    q[..i] + q[i + 1..]
  }

  function MessagesTo(number: nat, out: seq<Outgoing>): seq<ServerMessage> {
    if out == [] then []
    else MessagesTo(number, out[..|out| - 1]) + if out[|out| - 1].to == number then [out[|out| - 1].msg] else []
  }

  /** `send_to_client` drops what is for a client that is gone. */
  function Deliver(l: Link, number: nat, out: seq<Outgoing>): Link {
    if l.connected then l.(downlink := l.downlink + MessagesTo(number, out)) else l
  }

  function Stamp(n: nat, out: seq<Outgoing>): seq<Event> {
    seq(|out|, i requires 0 <= i < |out| => Sent(n, out[i]))
  }

  function AfterSend(l: Link, write: bool, kv: KVCommand, now: int): Link {
    l.(state := Requested(l.state, write, now), uplink := l.uplink + [Append(l.state.nextId, kv)])
  }

  function Next(s: System, step: Step): System
    requires Enabled(s, step)
  {
    match step
    case Send(c, write, kv, now) =>
      var l := s.links[c];
      s.(links := s.links[c := AfterSend(l, write, kv, now)],
         history := s.history + [Invoked(CommandOf(c, Append(l.state.nextId, kv)))])
    case Submit(c) =>
      var l := s.links[c];
      var cmd := CommandOf(c, l.uplink[0]);
      s.(links := s.links[c := l.(uplink := l.uplink[1..])], pending := s.pending + {cmd},
         history := s.history + [Submitted(cmd)])
    case Decide(cmd) =>
      s.(log := s.log + [cmd], pending := s.pending - {cmd})
    case ApplyBatch(n, upTo) =>
      var r := s.replicas[n];
      var batch := s.log[r.idx..upTo];
      var out := Responses(n, r.db, batch);
      s.(replicas := s.replicas[n := Replica(Replay(r.db, batch), upTo, r.sent + out)],
         links := map c | c in s.links ::
           if c.server == n then Deliver(s.links[c], c.number, out) else s.links[c],
         history := s.history + Stamp(n, out))
    case Receive(c, now) =>
      var l := s.links[c];
      s.(links := s.links[c := l.(state := Received(l.state, l.downlink[0], now), downlink := l.downlink[1..])])
    case EndIntervals(c) =>
      var l := s.links[c];
      s.(links := s.links[c := l.(state := l.state.(finalCount := Some(|l.state.requests|)))])
    case LoseRequest(c, i) =>
      s.(links := s.links[c := s.links[c].(uplink := Without(s.links[c].uplink, i))])
    case LoseResponse(c, i) =>
      s.(links := s.links[c := s.links[c].(downlink := Without(s.links[c].downlink, i))])
    case Disconnect(c) =>
      s.(links := s.links[c := s.links[c].(connected := false)])
  }

  ghost predicate Execution(states: seq<System>, steps: seq<Step>) {
    && |states| == |steps| + 1 && Init(states[0])
    && forall i :: 0 <= i < |steps| ==> Enabled(states[i], steps[i]) && states[i + 1] == Next(states[i], steps[i])
  }

  // ---- What every step keeps --------------------------------------------------

  ghost predicate ReplicaOk(n: nat, log: seq<Command>, r: Replica) {
    && r.idx <= |log|
    && r.db == Replay(map[], log[..r.idx])
    && r.sent == Responses(n, map[], log[..r.idx])
  }

  ghost predicate ReplicasOk(log: seq<Command>, replicas: map<nat, Replica>) {
    forall n :: n in replicas ==> ReplicaOk(n, log, replicas[n])
  }

  ghost predicate DistinctKeys(log: seq<Command>) {
    forall i, j :: 0 <= i < j < |log| ==> KeyOf(log[i]) != KeyOf(log[j])
  }

  /** Every id a client has not yet got into its server is at least this. */
  function Ceiling(l: Link): nat {
    if l.uplink == [] then l.state.nextId else l.uplink[0].id
  }

  ghost predicate UplinkOk(l: Link) {
    && (forall i, j :: 0 <= i < j < |l.uplink| ==> l.uplink[i].id < l.uplink[j].id)
    && (forall i :: 0 <= i < |l.uplink| ==> l.uplink[i].id < l.state.nextId)
  }

  ghost predicate Issued(links: map<ClientName, Link>, cmd: Command) {
    var c := ClientName(cmd.coordinatorId, cmd.clientId);
    c in links && cmd.id < Ceiling(links[c])
  }

  ghost predicate KeysOk(log: seq<Command>, pending: set<Command>, links: map<ClientName, Link>) {
    && DistinctKeys(log)
    && (forall a, b :: a in pending && b in pending && KeyOf(a) == KeyOf(b) ==> a == b)
    && (forall a, i :: a in pending && 0 <= i < |log| ==> KeyOf(a) != KeyOf(log[i]))
    && (forall a :: a in pending ==> Issued(links, a))
    && (forall i :: 0 <= i < |log| ==> Issued(links, log[i]))
    && (forall c :: c in links ==> UplinkOk(links[c]))
  }

  function SentBy(history: seq<Event>, n: nat): seq<Outgoing> {
    if history == [] then []
    else
      var last := history[|history| - 1];
      SentBy(history[..|history| - 1], n) + if last.Sent? && last.server == n then [last.out] else []
  }

  ghost predicate SentOk(history: seq<Event>, replicas: map<nat, Replica>) {
    && (forall n :: n in replicas ==> SentBy(history, n) == replicas[n].sent)
    && (forall i :: 0 <= i < |history| && history[i].Sent? ==> history[i].server in replicas)
  }

  ghost predicate InvokedOk(s: System) {
    && (forall i :: 0 <= i < |s.log| ==> Invoked(s.log[i]) in s.history)
    && (forall a :: a in s.pending ==> Invoked(a) in s.history)
    && (forall c, i :: c in s.links && 0 <= i < |s.links[c].uplink| ==>
          Invoked(CommandOf(c, s.links[c].uplink[i])) in s.history)
  }

  function MsgId(m: ServerMessage): nat {
    match m
    case Write(id) => id
    case Read(id, _) => id
    case StartSignal(_) => 0
  }

  function EventKey(e: Event): Key {
    match e
    case Invoked(cmd) => KeyOf(cmd)
    case Submitted(cmd) => KeyOf(cmd)
    case Sent(n, out) => Key(n, out.to, MsgId(out.msg))
  }

  ghost predicate Applied(log: seq<Command>, idx: nat, key: Key) {
    exists p :: 0 <= p < idx && p < |log| && KeyOf(log[p]) == key
  }

  ghost predicate StateOk(c: ClientState) {
    && !c.panicked && |c.requests| == c.nextId
    && c.responseCount == CountAnswered(c.requests)
    && (c.finalCount.Some? ==> c.finalCount.value == c.nextId)
  }

  ghost predicate DownlinkOk(l: Link) {
    && (forall i :: 0 <= i < |l.downlink| ==>
          !l.downlink[i].StartSignal? && MsgId(l.downlink[i]) < l.state.nextId
          && !Answered(l.state, MsgId(l.downlink[i])))
    && (forall i, j :: 0 <= i < j < |l.downlink| ==> MsgId(l.downlink[i]) != MsgId(l.downlink[j]))
  }

  /** Every response in flight or received is for a command this client's server applied. */
  ghost predicate OriginOk(log: seq<Command>, idx: nat, c: ClientName, l: Link) {
    && (forall i :: 0 <= i < |l.downlink| ==> Applied(log, idx, Key(c.server, c.number, MsgId(l.downlink[i]))))
    && (forall id: nat :: Answered(l.state, id) ==> Applied(log, idx, Key(c.server, c.number, id)))
  }

  ghost predicate LinkOk(log: seq<Command>, idx: nat, c: ClientName, l: Link) {
    StateOk(l.state) && DownlinkOk(l) && OriginOk(log, idx, c, l)
  }

  ghost predicate LinksOk(log: seq<Command>, replicas: map<nat, Replica>, links: map<ClientName, Link>) {
    forall c :: c in links ==> c.server in replicas && LinkOk(log, replicas[c.server].idx, c, links[c])
  }

  /** A response sent before a command started puts its own command earlier in the log. */
  ghost predicate Before(history: seq<Event>, log: seq<Command>, i: nat, j: nat, p: nat, q: nat) {
    i < j < |history| && p < |log| && q < |log|
    && history[i].Sent? && !history[j].Sent?
    && KeyOf(log[p]) == EventKey(history[i]) && KeyOf(log[q]) == EventKey(history[j])
    ==> p < q
  }

  ghost predicate RealTime(history: seq<Event>, log: seq<Command>) {
    forall i: nat, j: nat, p: nat, q: nat :: Before(history, log, i, j, p, q)
  }

  ghost predicate InvokedBefore(history: seq<Event>, j: nat)
    requires j < |history|
  {
    exists i :: 0 <= i < j && history[i].Invoked? && EventKey(history[i]) == EventKey(history[j])
  }

  ghost predicate InvokedFirst(history: seq<Event>) {
    forall j :: 0 <= j < |history| && history[j].Sent? ==> InvokedBefore(history, j)
  }

  ghost predicate Inv(s: System) {
    && ReplicasOk(s.log, s.replicas)
    && KeysOk(s.log, s.pending, s.links)
    && SentOk(s.history, s.replicas)
    && InvokedOk(s)
    && LinksOk(s.log, s.replicas, s.links)
    && RealTime(s.history, s.log)
    && InvokedFirst(s.history)
  }

  // ---- Responses and log positions --------------------------------------------

  lemma {:induction false} ResponseHasPosition(n: nat, db: Store, cmds: seq<Command>, k: nat) returns (p: nat)
    requires k < |Responses(n, db, cmds)|
    ensures p < |cmds| && var out := Responses(n, db, cmds)[k];
            && KeyOf(cmds[p]) == Key(n, out.to, MsgId(out.msg))
            && out == Outgoing(cmds[p].clientId, ResponseTo(Replay(db, cmds[..p]), cmds[p]))
            && !out.msg.StartSignal?
  {
    var m := |cmds| - 1;
    var before := Responses(n, db, cmds[..m]);
    if k < |before| {
      p := ResponseHasPosition(n, db, cmds[..m], k);
      assert cmds[..m][..p] == cmds[..p];
    } else {
      p := m;
    }
  }

  lemma {:induction false} PositionHasResponse(n: nat, db: Store, cmds: seq<Command>, p: nat)
    requires p < |cmds| && cmds[p].coordinatorId == n
    ensures Outgoing(cmds[p].clientId, ResponseTo(Replay(db, cmds[..p]), cmds[p])) in Responses(n, db, cmds)
  {
    var m := |cmds| - 1;
    if p < m {
      PositionHasResponse(n, db, cmds[..m], p);
      assert cmds[..m][..p] == cmds[..p];
    }
  }

  lemma {:induction false} ResponsesDistinct(n: nat, db: Store, cmds: seq<Command>, a: nat, b: nat)
    requires DistinctKeys(cmds) && a < b < |Responses(n, db, cmds)|
    ensures var o := Responses(n, db, cmds); (o[a].to, MsgId(o[a].msg)) != (o[b].to, MsgId(o[b].msg))
  {
    var m := |cmds| - 1;
    var before := Responses(n, db, cmds[..m]);
    if b < |before| {
      ResponsesDistinct(n, db, cmds[..m], a, b);
    } else {
      var p := ResponseHasPosition(n, db, cmds[..m], a);
    }
  }

  /** The messages for one client: each has an index in `out`, increasing. */
  lemma {:induction false} MessageHasIndex(number: nat, out: seq<Outgoing>, i: nat) returns (k: nat)
    requires i < |MessagesTo(number, out)|
    ensures k < |out| && out[k] == Outgoing(number, MessagesTo(number, out)[i])
  {
    var m := |out| - 1;
    if i < |MessagesTo(number, out[..m])| {
      k := MessageHasIndex(number, out[..m], i);
    } else {
      k := m;
    }
  }

  lemma {:induction false} MessagesDistinct(number: nat, out: seq<Outgoing>, i: nat, j: nat)
    requires forall a, b :: 0 <= a < b < |out| ==> (out[a].to, MsgId(out[a].msg)) != (out[b].to, MsgId(out[b].msg))
    requires i < j < |MessagesTo(number, out)|
    ensures MsgId(MessagesTo(number, out)[i]) != MsgId(MessagesTo(number, out)[j])
  {
    var m := |out| - 1;
    if j < |MessagesTo(number, out[..m])| {
      MessagesDistinct(number, out[..m], i, j);
    } else {
      var k := MessageHasIndex(number, out[..m], i);
    }
  }

  lemma {:induction false} SentByStamp(history: seq<Event>, n: nat, out: seq<Outgoing>, m: nat)
    ensures SentBy(history + Stamp(n, out), m) == SentBy(history, m) + if m == n then out else []
  {
    if out == [] {
      assert history + Stamp(n, out) == history;
    } else {
      var k := |out| - 1;
      var all := history + Stamp(n, out);
      assert all[..|all| - 1] == history + Stamp(n, out[..k]);
      SentByStamp(history, n, out[..k], m);
      assert out == out[..k] + [out[k]];
    }
  }

  lemma {:induction false} SentByIndex(history: seq<Event>, n: nat, i: nat) returns (k: nat)
    requires i < |history| && history[i].Sent? && history[i].server == n
    ensures k < |SentBy(history, n)| && SentBy(history, n)[k] == history[i].out
    ensures k == |SentBy(history[..i], n)|
  {
    var m := |history| - 1;
    if i < m {
      k := SentByIndex(history[..m], n, i);
      assert history[..m][..i] == history[..i];
    } else {
      k := |SentBy(history[..m], n)|;
    }
  }

  lemma {:induction false} SentByGrows(history: seq<Event>, n: nat, i: nat, j: nat)
    requires i < j <= |history| && history[i].Sent? && history[i].server == n
    ensures |SentBy(history[..i], n)| < |SentBy(history[..j], n)|
  {
    assert history[..j][..j - 1] == history[..j - 1];
    if i < j - 1 {
      SentByGrows(history, n, i, j - 1);
    }
  }

  lemma {:induction false} SentByMember(history: seq<Event>, n: nat, out: Outgoing) returns (i: nat)
    requires out in SentBy(history, n)
    ensures i < |history| && history[i] == Sent(n, out)
  {
    var m := |history| - 1;
    if out in SentBy(history[..m], n) {
      i := SentByMember(history[..m], n, out);
    } else {
      i := m;
    }
  }

  /** Every response sent belongs to an entry its server has applied. */
  lemma SentIsApplied(s: System, i: nat) returns (p: nat)
    requires ReplicasOk(s.log, s.replicas) && SentOk(s.history, s.replicas)
    requires i < |s.history| && s.history[i].Sent?
    ensures var n := s.history[i].server;
            && n in s.replicas && p < s.replicas[n].idx <= |s.log|
            && KeyOf(s.log[p]) == EventKey(s.history[i])
            && s.history[i].out == Outgoing(s.log[p].clientId, ResponseTo(Replay(map[], s.log[..p]), s.log[p]))
  {
    var n := s.history[i].server;
    var prefix := s.log[..s.replicas[n].idx];
    assert ReplicaOk(n, s.log, s.replicas[n]);
    var k := SentByIndex(s.history, n, i);
    p := ResponseHasPosition(n, map[], prefix, k);
    assert prefix[..p] == s.log[..p];
  }
}
