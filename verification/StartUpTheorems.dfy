/** Where every interleaving of start-up ends: a complete mesh and one signal per client. */
module StartUpTheorems {
  import opened KeyValue
  import opened NetworkModel
  import opened StartUp

  lemma ExecutionStep(c: Config, worlds: seq<World>, steps: seq<Step>, t: nat)
    requires Execution(c, worlds, steps) && t < |steps|
    ensures ValidConfig(c)
    ensures Enabled(c, worlds[t], steps[t]) && worlds[t + 1] == Next(c, worlds[t], steps[t])
  {
  }

  lemma {:induction false} MeshReachable(c: Config, worlds: seq<World>, steps: seq<Step>, t: nat)
    requires Execution(c, worlds, steps) && t < |worlds|
    ensures MeshInv(c, worlds[t])
  {
    if t > 0 {
      MeshReachable(c, worlds, steps, t - 1);
      MeshNext(c, worlds[t - 1], steps[t - 1]);
    } else {
      forall n | n in worlds[0].servers
        ensures ServerOk(c, [], {}, n, worlds[0].servers[n])
      {
        assert Peers(c, n) == {} || exists p :: p in Peers(c, n);
      }
    }
  }

  // ---- Counting ------------------------------------------------------------------

  function OneTo(n: nat): (r: set<nat>)
    ensures forall i :: i in r <==> 1 <= i <= n
  {
    if n == 0 then {} else OneTo(n - 1) + {n}
  }

  function Below(n: nat): (r: set<nat>)
    ensures forall i :: i in r <==> 0 <= i < n
  {
    if n == 0 then {} else Below(n - 1) + {n - 1}
  }

  lemma {:induction false} OneToSize(n: nat)
    ensures |OneTo(n)| == n
  {
    if n > 0 {
      OneToSize(n - 1);
    }
  }

  lemma {:induction false} BelowSize(n: nat)
    ensures |Below(n)| == n
  {
    if n > 0 {
      BelowSize(n - 1);
    }
  }

  lemma SubsetSize<T>(a: set<T>, b: set<T>)
    requires a <= b
    ensures |a| <= |b| && (|a| == |b| ==> a == b)
  {
    assert b == a + (b - a);
  }

  lemma {:induction false} DistinctSize(xs: seq<nat>)
    requires Distinct(xs)
    ensures |Members(xs)| == |xs|
  {
    if xs != [] {
      var before, last := xs[..|xs| - 1], xs[|xs| - 1];
      DistinctSize(before);
      assert xs == before + [last];
      assert Members(xs) == Members(before) + {last};
    }
  }

  /** With at least `num` clients installed, the numbers are exactly 1 .. num and every
      process has one. */
  lemma ClientNumbers(num: nat, s: Server)
    requires ClientsOk(num, s) && |s.conns.clients| >= num
    ensures s.conns.clients == OneTo(num) && |s.registered| == num
    ensures forall j :: 0 <= j < num ==> j in s.registered
  {
    BelowSize(num);
    OneToSize(num);
    OneToSize(|s.registered|);
    DistinctSize(s.registered);
    SubsetSize(Members(s.registered), Below(num));
    SubsetSize(s.conns.clients, OneTo(|s.registered|));
    forall j | 0 <= j < num
      ensures j in s.registered
    {
      assert j in Below(num) && Below(num) == Members(s.registered);
    }
  }

  // ---- The mesh ------------------------------------------------------------------

  /** A server that has left the start-up loop holds, for each peer, the stream that joins
      them, and its clients are numbered 1 .. num_clients. */
  lemma ReadyServerIsConnected(c: Config, worlds: seq<World>, steps: seq<Step>, t: nat, n: nat)
    requires Execution(c, worlds, steps) && t < |worlds|
    requires n in worlds[t].servers && worlds[t].servers[n].ready
    ensures var w := worlds[t]; var s := w.servers[n];
            && s.conns.slots.Keys == Peers(c, n)
            && (forall p :: p in s.conns.slots ==>
                  s.conns.slots[p] < |w.streams| && Joins(w.streams[s.conns.slots[p]], n, p))
            && n in c.numClients && s.conns.clients == OneTo(c.numClients[n])
  {
    MeshReachable(c, worlds, steps, t);
    var w := worlds[t];
    assert ServerOk(c, w.streams, w.handshakes, n, w.servers[n]);
    ClientNumbers(c.numClients[n], w.servers[n]);
  }

  /** No handshake can make progress any more. */
  ghost predicate Settled(c: Config, w: World) {
    forall step :: Enabled(c, w, step) ==> step.LeaderReady? || step.HandleStart?
  }

  lemma NotEnabled(c: Config, w: World, step: Step)
    requires Settled(c, w) && !step.LeaderReady? && !step.HandleStart?
    ensures !Enabled(c, w, step)
  {
  }

  /** A stream of a settled world has been installed at both ends that are not ready. */
  lemma SettledEnd(c: Config, w: World, n: nat, p: nat, k: nat)
    requires MeshInv(c, w) && Settled(c, w)
    requires n in w.servers && !w.servers[n].ready && p in Peers(c, n)
    requires k < |w.streams| && Joins(w.streams[k], n, p)
    ensures p in w.servers[n].conns.slots
  {
    hide Settled, ServerOk, Peers;
    assert EndsOk(w, k);
    NotEnabled(c, w, Accept(k));
    NotEnabled(c, w, Install(n, ToPeer(p, k)));
  }

  lemma SettledPeers(c: Config, w: World, n: nat, p: nat)
    requires ValidConfig(c) && MeshInv(c, w) && Settled(c, w)
    requires n in w.servers && !w.servers[n].ready && p in Peers(c, n)
    ensures p in w.servers[n].conns.slots
  {
    hide Settled, ServerOk, StreamsOk;
    var st := if p < n then Stream(n, p) else Stream(p, n);
    NotEnabled(c, w, Dial(st.dialer, st.acceptor));
    var k :| 0 <= k < |w.streams| && w.streams[k] == st;
    SettledEnd(c, w, n, p, k);
  }

  lemma SettledClients(c: Config, w: World, n: nat)
    requires ValidConfig(c) && MeshInv(c, w) && Settled(c, w)
    requires n in w.servers && !w.servers[n].ready
    ensures n in c.numClients && |w.servers[n].conns.clients| >= c.numClients[n]
  {
    var s, num := w.servers[n], c.numClients[n];
    assert ServerOk(c, w.streams, w.handshakes, n, s);
    forall j | 0 <= j < num
      ensures j in s.registered
    {
      assert !Enabled(c, w, Register(n, j));
    }
    forall id | id in OneTo(|s.registered|)
      ensures id in s.conns.clients
    {
      assert !Enabled(c, w, Install(n, ToClient(id)));
    }
    BelowSize(num);
    OneToSize(num);
    OneToSize(|s.registered|);
    DistinctSize(s.registered);
    assert Below(num) <= Members(s.registered);
    SubsetSize(Below(num), Members(s.registered));
    SubsetSize(OneTo(|s.registered|), s.conns.clients);
  }

  /** However the handshakes interleave, they cannot get stuck: when none is left a server
      has finished start-up if and only if it has a peer or a client. A lone server without
      clients waits for a first connection for ever. */
  lemma ReadyIffNotIsolated(c: Config, worlds: seq<World>, steps: seq<Step>, t: nat, n: nat)
    requires Execution(c, worlds, steps) && t < |worlds| && Settled(c, worlds[t])
    requires n in worlds[t].servers
    ensures n in c.numClients && (worlds[t].servers[n].ready <==> !Isolated(c, n))
  {
    hide MeshInv, Settled, Execution, ServerOk, Isolated;
    MeshReachable(c, worlds, steps, t);
    ValidRun(c, worlds, steps);
    var w := worlds[t];
    var s := w.servers[n];
    ReadyTest(c, w, n);
    if !s.ready {
      SettledClients(c, w, n);
      forall p | p in Peers(c, n)
        ensures p in s.conns.slots
      {
        SettledPeers(c, w, n, p);
      }
      SlotsArePeers(c, w, n);
      assert s.conns.slots.Keys == Peers(c, n);
    }
  }

  lemma ValidRun(c: Config, worlds: seq<World>, steps: seq<Step>)
    requires Execution(c, worlds, steps)
    ensures ValidConfig(c)
  {
  }

  lemma ReadyTest(c: Config, w: World, n: nat)
    requires MeshInv(c, w) && n in w.servers
    ensures n in c.numClients
    ensures w.servers[n].ready <==> Complete(w.servers[n].conns, Peers(c, n), c.numClients[n]) && !Isolated(c, n)
  {
    assert ServerOk(c, w.streams, w.handshakes, n, w.servers[n]);
  }

  lemma SlotsArePeers(c: Config, w: World, n: nat)
    requires MeshInv(c, w) && n in w.servers
    ensures w.servers[n].conns.slots.Keys <= Peers(c, n)
  {
  }

  /** Every unordered pair of servers ends with exactly one stream, dialed by the larger id, and
      both hold it. */
  lemma OneStreamPerPair(c: Config, worlds: seq<World>, steps: seq<Step>, t: nat, a: nat, b: nat)
    requires Execution(c, worlds, steps) && t < |worlds| && Settled(c, worlds[t])
    requires a in worlds[t].servers && b in worlds[t].servers && a != b
    ensures var w := worlds[t];
            var sa, sb := w.servers[a].conns.slots, w.servers[b].conns.slots;
            && b in sa && a in sb && sa[b] == sb[a] < |w.streams|
            && w.streams[sa[b]].dialer == (if a > b then a else b)
            && w.streams[sa[b]].acceptor == (if a > b then b else a)
            && forall k :: 0 <= k < |w.streams| && Joins(w.streams[k], a, b) <==> k == sa[b]
  {
    MeshReachable(c, worlds, steps, t);
    var w := worlds[t];
    assert a in Peers(c, b) && b in Peers(c, a);
    ReadyIffNotIsolated(c, worlds, steps, t, a);
    ReadyIffNotIsolated(c, worlds, steps, t, b);
    ReadyServerIsConnected(c, worlds, steps, t, a);
    ReadyServerIsConnected(c, worlds, steps, t, b);
    var i, j := w.servers[a].conns.slots[b], w.servers[b].conns.slots[a];
    JoinsUnique(w, a, b, i, j);
    forall k: nat | k < |w.streams| && Joins(w.streams[k], a, b)
      ensures k == i
    {
      JoinsUnique(w, a, b, k, i);
    }
  }

  // ---- No step twice ----------------------------------------------------------------

  /** The step has been taken and cannot be taken again. */
  ghost predicate Done(c: Config, w: World, step: Step) {
    match step
    case Dial(a, b) => Stream(a, b) in w.streams
    case Accept(k) => k < |w.streams| && k !in w.handshakes
    case Register(n, j) => n in w.servers && j in w.servers[n].registered
    case Install(n, ToPeer(p, k)) => n in w.servers && p in w.servers[n].conns.slots
    case Install(n, ToClient(id)) => n in w.servers && id in w.servers[n].conns.clients
    case LeaderReady(_) => c.leader in w.servers && w.servers[c.leader].started
    case HandleStart(n) => c.leader in w.servers && w.servers[c.leader].started
                           && n in w.servers && w.servers[n].inbox == []
  }

  /** A connection that waits to be installed has no slot yet. */
  lemma QueuedIsNew(c: Config, w: World, n: nat, conn: NewConnection)
    requires MeshInv(c, w) && Enabled(c, w, Install(n, conn))
    ensures match conn
            case ToPeer(p, _) => p !in w.servers[n].conns.slots
            case ToClient(id) => id !in w.servers[n].conns.clients
  {
    assert ServerOk(c, w.streams, w.handshakes, n, w.servers[n]);
  }

  lemma DoneIsDisabled(c: Config, w: World, step: Step)
    requires MeshInv(c, w) && Done(c, w, step)
    ensures !Enabled(c, w, step)
  {
    hide MeshInv;
    if step.Install? && Enabled(c, w, step) {
      QueuedIsNew(c, w, step.n, step.conn);
    }
  }

  lemma DoneStaysDone(c: Config, w: World, done: Step, step: Step)
    requires MeshInv(c, w) && Enabled(c, w, step) && Done(c, w, done)
    ensures Done(c, Next(c, w, step), done)
  {
    hide MeshInv, Complete, Signal;
    NoHandshakeAhead(c, w);
  }

  lemma NoHandshakeAhead(c: Config, w: World)
    requires MeshInv(c, w)
    ensures |w.streams| !in w.handshakes
  {
  }

  // ---- Start signals ---------------------------------------------------------------

  /** The time of the last start announced by the leader. */
  function StartOf(steps: seq<Step>): Option<int> {
    if steps == [] then None else StartAfter(StartOf(steps[..|steps| - 1]), steps[|steps| - 1])
  }

  function StartAfter(start: Option<int>, step: Step): Option<int> {
    match step
    case LeaderReady(time) => Some(time)
    case _ => start
  }

  ghost predicate InboxOk(c: Config, n: nat, s: Server, start: Option<int>) {
    if n == c.leader then s.inbox == [] && (s.started <==> start.Some?)
    else if start.None? then s.inbox == [] && !s.started
    else s.inbox == if s.started then [] else [start.value]
  }

  ghost predicate SignalInv(c: Config, w: World, start: Option<int>) {
    && c.leader in w.servers
    && (forall n :: n in w.servers ==> InboxOk(c, n, w.servers[n], start))
    && (forall p :: p in w.signals <==> p.server in c.numClients && p.j < c.numClients[p.server])
    && (forall p :: p in w.signals && p.server in w.servers ==>
          w.signals[p] == if w.servers[p.server].started && start.Some? then [start.value] else [])
  }

  ghost predicate Early(xs: seq<nat>, count: nat, x: nat)
    requires count <= |xs|
  {
    x in xs[..count]
  }

  lemma EarlyNext(xs: seq<nat>, count: nat)
    requires Distinct(xs) && 0 < count <= |xs|
    ensures forall x :: Early(xs, count, x) <==> Early(xs, count - 1, x) || x == xs[count - 1]
    ensures !Early(xs, count - 1, xs[count - 1])
  {
    assert xs[..count] == xs[..count - 1] + [xs[count - 1]];
  }

  lemma SignalOneMore(n: nat, s: Server, signals: map<Process, seq<int>>, count: nat, time: int)
    requires 0 < count <= |s.registered| && count in s.conns.clients
    ensures var before, last := Signal(n, s, signals, count - 1, time), Process(n, s.registered[count - 1]);
            last in before ==>
              Signal(n, s, signals, count, time) == before[last := before[last] + [time]]
  {
  }

  lemma NoneSignalled(n: nat, s: Server, signals: map<Process, seq<int>>, time: int)
    ensures Signal(n, s, signals, 0, time) == signals
    ensures forall x :: !Early(s.registered, 0, x)
  {
  }

  /** Signalling numbers 1 .. count reaches the first `count` registered processes, each once. */
  lemma {:induction false} SignalReaches(n: nat, s: Server, signals: map<Process, seq<int>>, count: nat, time: int)
    requires Distinct(s.registered) && count <= |s.registered|
    requires forall id :: 1 <= id <= count ==> id in s.conns.clients
    requires forall j :: j in s.registered ==> Process(n, j) in signals
    ensures var after := Signal(n, s, signals, count, time);
            && after.Keys == signals.Keys
            && forall p :: p in signals ==>
                 after[p] == signals[p] + if p.server == n && Early(s.registered, count, p.j) then [time] else []
  {
    hide Distinct, Signal, Early;
    if count == 0 {
      NoneSignalled(n, s, signals, time);
    } else {
      SignalReaches(n, s, signals, count - 1, time);
      assert s.registered[count - 1] in s.registered;
      SignalOneMore(n, s, signals, count, time);
      EarlyNext(s.registered, count);
    }
  }

  lemma SignalEach(num: nat, n: nat, s: Server, signals: map<Process, seq<int>>, time: int)
    requires ClientsOk(num, s) && |s.conns.clients| >= num
    requires forall p :: p in signals && p.server == n ==> p.j < num
    requires forall j: nat :: j < num ==> Process(n, j) in signals
    ensures var after := Signal(n, s, signals, num, time);
            && after.Keys == signals.Keys
            && forall p :: p in signals ==> after[p] == signals[p] + if p.server == n then [time] else []
  {
    ClientNumbers(num, s);
    SignalReaches(n, s, signals, num, time);
    assert s.registered[..num] == s.registered;
    hide Signal, Distinct;
  }

  /** A ready server that signals its clients reaches every one of them once. */
  lemma SignalAll(c: Config, w: World, n: nat, time: int, start: Option<int>)
    requires MeshInv(c, w) && SignalInv(c, w, start) && n in w.servers && w.servers[n].ready
    ensures n in c.numClients
    ensures var after := Signal(n, w.servers[n], w.signals, c.numClients[n], time);
            && after.Keys == w.signals.Keys
            && forall p :: p in w.signals ==> after[p] == w.signals[p] + if p.server == n then [time] else []
  {
    var s := w.servers[n];
    assert ServerOk(c, w.streams, w.handshakes, n, s);
    hide MeshInv, InboxOk, ClientsOk, Signal;
    SignalEach(c.numClients[n], n, s, w.signals, time);
  }

  lemma LeaderInboxes(c: Config, w: World, time: int, start: Option<int>)
    requires ValidConfig(c) && w.servers.Keys == Members(c.nodes)
    requires SignalInv(c, w, start) && Enabled(c, w, LeaderReady(time))
    ensures start == None && Notify(c, w.servers, time).Keys == w.servers.Keys
    ensures forall n :: n in w.servers ==>
              n in Notify(c, w.servers, time) && InboxOk(c, n, Notify(c, w.servers, time)[n], Some(time))
              && (Notify(c, w.servers, time)[n].started <==> n == c.leader)
  {
  }

  /** Signals and inboxes fit together when the leader has just signalled its clients. */
  lemma SignalledOnce(c: Config, w: World, servers: map<nat, Server>, signals: map<Process, seq<int>>, time: int)
    requires SignalInv(c, w, None) && c.leader in w.servers && servers.Keys == w.servers.Keys
    requires forall n :: n in servers ==>
               InboxOk(c, n, servers[n], Some(time)) && (servers[n].started <==> n == c.leader)
    requires signals.Keys == w.signals.Keys
    requires forall p :: p in w.signals ==> signals[p] == w.signals[p] + if p.server == c.leader then [time] else []
    ensures SignalInv(c, w.(servers := servers, signals := signals), Some(time))
  {
  }

  lemma LeaderSignals(c: Config, w: World, time: int, start: Option<int>)
    requires ValidConfig(c) && MeshInv(c, w) && SignalInv(c, w, start) && Enabled(c, w, LeaderReady(time))
    ensures SignalInv(c, Next(c, w, LeaderReady(time)), Some(time))
  {
    hide Signal, SignalInv, InboxOk, Notify;
    assert w.servers.Keys == Members(c.nodes);
    hide MeshInv;
    SignalAll(c, w, c.leader, time, start);
    LeaderInboxes(c, w, time, start);
    SignalledOnce(c, w, Notify(c, w.servers, time),
                  Signal(c.leader, w.servers[c.leader], w.signals, c.numClients[c.leader], time), time);
  }

  /** The same for a follower that has taken the signal out of its inbox. */
  lemma FollowerSignalledOnce(c: Config, w: World, n: nat, s': Server, signals: map<Process, seq<int>>, start: Option<int>)
    requires SignalInv(c, w, start) && n in w.servers && !w.servers[n].started && start.Some?
    requires InboxOk(c, n, s', start) && s'.started && signals.Keys == w.signals.Keys
    requires forall p :: p in w.signals ==>
               signals[p] == w.signals[p] + if p.server == n then [start.value] else []
    ensures SignalInv(c, w.(servers := w.servers[n := s'], signals := signals), start)
  {
  }

  lemma FollowerInbox(c: Config, w: World, n: nat, start: Option<int>)
    requires SignalInv(c, w, start) && n in w.servers && w.servers[n].inbox != []
    ensures var s := w.servers[n];
            start.Some? && !s.started && s.inbox[0] == start.value
            && InboxOk(c, n, s.(inbox := s.inbox[1..], started := true), start)
  {
  }

  lemma FollowerSignals(c: Config, w: World, n: nat, start: Option<int>)
    requires ValidConfig(c) && MeshInv(c, w) && SignalInv(c, w, start) && Enabled(c, w, HandleStart(n))
    ensures SignalInv(c, Next(c, w, HandleStart(n)), start)
  {
    hide Signal, MeshInv, SignalInv, InboxOk;
    var s := w.servers[n];
    FollowerInbox(c, w, n, start);
    SignalAll(c, w, n, s.inbox[0], start);
    FollowerSignalledOnce(c, w, n, s.(inbox := s.inbox[1..], started := true),
                          Signal(n, s, w.signals, c.numClients[n], s.inbox[0]), start);
  }

  lemma HandshakeKeepsSignals(c: Config, w: World, step: Step, start: Option<int>)
    requires SignalInv(c, w, start) && Enabled(c, w, step) && !step.LeaderReady? && !step.HandleStart?
    ensures SignalInv(c, Next(c, w, step), start)
  {
  }

  lemma NoSignalsAtFirst(c: Config, w: World)
    requires ValidConfig(c) && Init(c, w)
    ensures SignalInv(c, w, None)
  {
  }

  lemma SignalNext(c: Config, w: World, step: Step, start: Option<int>)
    requires ValidConfig(c) && MeshInv(c, w) && SignalInv(c, w, start) && Enabled(c, w, step)
    ensures SignalInv(c, Next(c, w, step), StartAfter(start, step))
  {
    hide MeshInv, SignalInv, Next, Enabled, ValidConfig;
    match step {
      case LeaderReady(time) => LeaderSignals(c, w, time, start);
      case HandleStart(n) => FollowerSignals(c, w, n, start);
      case _ => HandshakeKeepsSignals(c, w, step, start);
    }
  }

  lemma {:induction false} SignalsReachable(c: Config, worlds: seq<World>, steps: seq<Step>, t: nat)
    requires Execution(c, worlds, steps) && t < |worlds|
    ensures SignalInv(c, worlds[t], StartOf(steps[..t]))
  {
    hide Init, ValidConfig, Enabled, Next, MeshInv, SignalInv, StartAfter;
    if t == 0 {
      NoSignalsAtFirst(c, worlds[0]);
    } else {
      ExecutionStep(c, worlds, steps, t - 1);
      MeshReachable(c, worlds, steps, t - 1);
      hide Execution;
      SignalsReachable(c, worlds, steps, t - 1);
      assert steps[..t][..t - 1] == steps[..t - 1];
      SignalNext(c, worlds[t - 1], steps[t - 1], StartOf(steps[..t - 1]));
    }
  }

  /** At no time has a client received two signals, and all signals carry one timestamp. */
  lemma AtMostOneSignal(c: Config, worlds: seq<World>, steps: seq<Step>, t: nat, p: Process)
    requires Execution(c, worlds, steps) && t < |worlds| && p in worlds[t].signals
    ensures worlds[t].signals[p] == [] ||
            (StartOf(steps[..t]).Some? && worlds[t].signals[p] == [StartOf(steps[..t]).value])
  {
    SignalsReachable(c, worlds, steps, t);
    MeshReachable(c, worlds, steps, t);
    assert p.server in worlds[t].servers;
  }

  /** When nothing is left to do, every client in the cluster has received exactly one start
      signal, and all of them the same one. */
  lemma ExactlyOneSignal(c: Config, worlds: seq<World>, steps: seq<Step>, t: nat, p: Process)
    requires Execution(c, worlds, steps) && t < |worlds|
    requires forall step :: !Enabled(c, worlds[t], step)
    requires p.server in c.numClients && p.j < c.numClients[p.server]
    ensures StartOf(steps[..t]).Some?
    ensures p in worlds[t].signals && worlds[t].signals[p] == [StartOf(steps[..t]).value]
  {
    var w, n := worlds[t], p.server;
    MeshReachable(c, worlds, steps, t);
    SignalsReachable(c, worlds, steps, t);
    assert n in w.servers && c.leader in w.servers;
    LeaderHasCompany(c, n);
    hide MeshInv, SignalInv, Enabled, Isolated;
    ReadyIffNotIsolated(c, worlds, steps, t, n);
    ReadyIffNotIsolated(c, worlds, steps, t, c.leader);
    assert !Enabled(c, w, LeaderReady(0)) && !Enabled(c, w, HandleStart(n));
    QuietServer(c, w, p, StartOf(steps[..t]));
  }

  lemma QuietServer(c: Config, w: World, p: Process, start: Option<int>)
    requires SignalInv(c, w, start) && p.server in c.numClients && p.j < c.numClients[p.server]
    requires c.leader in c.numClients && w.servers[c.leader].ready && !Enabled(c, w, LeaderReady(0))
    requires p.server in w.servers && w.servers[p.server].ready && !Enabled(c, w, HandleStart(p.server))
    ensures start.Some? && p in w.signals && w.signals[p] == [start.value]
  {
  }

  lemma LeaderHasCompany(c: Config, n: nat)
    requires ValidConfig(c) && n in c.numClients && c.numClients[n] > 0
    ensures c.leader in c.numClients && !Isolated(c, c.leader) && !Isolated(c, n)
  {
    if n != c.leader {
      assert n in Peers(c, c.leader);
    }
  }

  /** The two steps have one effect: a leader announces whatever the time, and a slot is
      filled by whatever stream. */
  predicate SameAct(a: Step, b: Step) {
    match a
    case LeaderReady(_) => b.LeaderReady?
    case Install(n, ToPeer(p, _)) => b.Install? && b.n == n && b.conn.ToPeer? && b.conn.peer == p
    case _ => a == b
  }

  lemma SameActDone(c: Config, w: World, a: Step, b: Step)
    requires Done(c, w, a) && SameAct(a, b)
    ensures Done(c, w, b)
  {
  }

  /** No dial, accept, registration or installation is done twice, the leader announces the
      start once, and each follower handles it once. */
  lemma NoStepTwice(c: Config, worlds: seq<World>, steps: seq<Step>, i: nat, j: nat)
    requires Execution(c, worlds, steps) && i < j < |steps|
    ensures !SameAct(steps[i], steps[j])
  {
    hide MeshInv, Enabled, Next, Init, Done, SameAct;
    DoneAfter(c, worlds, steps, i, j);
    MeshReachable(c, worlds, steps, j);
    ExecutionStep(c, worlds, steps, j);
    hide Execution;
    if SameAct(steps[i], steps[j]) {
      SameActDone(c, worlds[j], steps[i], steps[j]);
      DoneIsDisabled(c, worlds[j], steps[j]);
    }
  }

  lemma {:induction false} DoneAfter(c: Config, worlds: seq<World>, steps: seq<Step>, i: nat, j: nat)
    requires Execution(c, worlds, steps) && i < j < |worlds|
    ensures Done(c, worlds[j], steps[i])
  {
    hide MeshInv, SignalInv, Done, Init;
    MeshReachable(c, worlds, steps, j - 1);
    if j == i + 1 {
      SignalsReachable(c, worlds, steps, i);
      StepIsDone(c, worlds[i], steps[i], StartOf(steps[..i]));
    } else {
      DoneAfter(c, worlds, steps, i, j - 1);
      DoneStaysDone(c, worlds[j - 1], steps[i], steps[j - 1]);
    }
  }

  lemma StepIsDone(c: Config, w: World, step: Step, start: Option<int>)
    requires MeshInv(c, w) && SignalInv(c, w, start) && Enabled(c, w, step)
    ensures Done(c, Next(c, w, step), step)
  {
  }
}
