/** Every interleaving of start-up ends, and all that are carried to the end take equally
    many steps. */
module StartUpLength {
  import opened KeyValue
  import opened NetworkModel
  import opened StartUp
  import opened StartUpTheorems

  // ---- Progress ------------------------------------------------------------------

  /** What a server has behind it: registrations, installed connections, its start signal. */
  function Milestones(s: Server): nat {
    |s.registered| + |s.conns.slots| + |s.conns.clients| + if s.started then 1 else 0
  }

  function MilestonesAt(servers: map<nat, Server>, n: nat): nat {
    if n in servers then Milestones(servers[n]) else 0
  }

  function Total(nodes: seq<nat>, servers: map<nat, Server>): nat {
    if nodes == [] then 0
    else Total(nodes[..|nodes| - 1], servers) + MilestonesAt(servers, nodes[|nodes| - 1])
  }

  /** Dials, finished handshakes and milestones. */
  function Progress(c: Config, w: World): int {
    2 * |w.streams| - |w.handshakes| + Total(c.nodes, w.servers)
  }

  /** One server passes `d` milestones and the others none. */
  ghost predicate Moves(servers: map<nat, Server>, servers': map<nat, Server>, n: nat, d: nat) {
    forall m :: MilestonesAt(servers', m) == MilestonesAt(servers, m) + if m == n then d else 0
  }

  lemma {:induction false} TotalMoves(nodes: seq<nat>, servers: map<nat, Server>, servers': map<nat, Server>, n: nat, d: nat)
    requires Distinct(nodes) && Moves(servers, servers', n, d)
    ensures Total(nodes, servers') == Total(nodes, servers) + if n in nodes then d else 0
  {
    if nodes != [] {
      hide MilestonesAt;
      var before, last := nodes[..|nodes| - 1], nodes[|nodes| - 1];
      assert nodes == before + [last];
      TotalMoves(before, servers, servers', n, d);
    }
  }

  lemma DialCounts(c: Config, w: World, a: nat, b: nat)
    requires ValidConfig(c) && MeshInv(c, w) && Enabled(c, w, Dial(a, b))
    ensures Progress(c, Next(c, w, Dial(a, b))) == Progress(c, w) + 1
  {
    NoHandshakeAhead(c, w);
    hide MeshInv;
    TotalMoves(c.nodes, w.servers, Next(c, w, Dial(a, b)).servers, a, 0);
  }

  lemma AcceptCounts(c: Config, w: World, k: nat)
    requires ValidConfig(c) && Enabled(c, w, Accept(k))
    ensures Progress(c, Next(c, w, Accept(k))) == Progress(c, w) + 1
  {
    TotalMoves(c.nodes, w.servers, Next(c, w, Accept(k)).servers, w.streams[k].acceptor, 0);
  }

  lemma RegisterCounts(c: Config, w: World, n: nat, j: nat)
    requires ValidConfig(c) && MeshInv(c, w) && Enabled(c, w, Register(n, j))
    ensures Progress(c, Next(c, w, Register(n, j))) == Progress(c, w) + 1
  {
    assert n in c.nodes;
    hide MeshInv;
    TotalMoves(c.nodes, w.servers, Next(c, w, Register(n, j)).servers, n, 1);
  }

  lemma InstallPasses(c: Config, n: nat, s: Server, conn: NewConnection)
    requires n in c.numClients
    requires match conn
             case ToPeer(p, _) => p !in s.conns.slots
             case ToClient(id) => id !in s.conns.clients
    ensures Milestones(InstallOne(c, n, s, conn)) == Milestones(s) + 1
  {
    hide Complete;
  }

  lemma InstallCounts(c: Config, w: World, n: nat, conn: NewConnection)
    requires ValidConfig(c) && MeshInv(c, w) && Enabled(c, w, Install(n, conn))
    ensures Progress(c, Next(c, w, Install(n, conn))) == Progress(c, w) + 1
  {
    assert n in c.nodes;
    QueuedIsNew(c, w, n, conn);
    hide MeshInv, Complete, Milestones, InstallOne, Distinct;
    InstallPasses(c, n, w.servers[n], conn);
    TotalMoves(c.nodes, w.servers, Next(c, w, Install(n, conn)).servers, n, 1);
  }

  lemma LeaderCounts(c: Config, w: World, time: int)
    requires ValidConfig(c) && Enabled(c, w, LeaderReady(time))
    ensures Progress(c, Next(c, w, LeaderReady(time))) == Progress(c, w) + 1
  {
    TotalMoves(c.nodes, w.servers, Notify(c, w.servers, time), c.leader, 1);
  }

  lemma StartPasses(s: Server)
    requires !s.started && s.inbox != []
    ensures Milestones(s.(inbox := s.inbox[1..], started := true)) == Milestones(s) + 1
  {
  }

  lemma FollowerCounts(c: Config, w: World, n: nat)
    requires ValidConfig(c) && MeshInv(c, w) && Enabled(c, w, HandleStart(n)) && !w.servers[n].started
    ensures Progress(c, Next(c, w, HandleStart(n))) == Progress(c, w) + 1
  {
    assert n in c.nodes;
    hide MeshInv, Signal, Milestones, Distinct;
    StartPasses(w.servers[n]);
    TotalMoves(c.nodes, w.servers, Next(c, w, HandleStart(n)).servers, n, 1);
  }

  /** Every step adds one. */
  lemma StepCounts(c: Config, w: World, step: Step, start: Option<int>)
    requires ValidConfig(c) && MeshInv(c, w) && SignalInv(c, w, start) && Enabled(c, w, step)
    ensures Progress(c, Next(c, w, step)) == Progress(c, w) + 1
  {
    hide MeshInv, Next, SignalInv, Progress, ValidConfig;
    match step {
      case Dial(a, b) => DialCounts(c, w, a, b);
      case Accept(k) => AcceptCounts(c, w, k);
      case Register(n, j) => RegisterCounts(c, w, n, j);
      case Install(n, conn) => InstallCounts(c, w, n, conn);
      case LeaderReady(time) => LeaderCounts(c, w, time);
      case HandleStart(n) =>
        FollowerInbox(c, w, n, start);
        FollowerCounts(c, w, n);
    }
  }

  lemma {:induction false} NothingYet(nodes: seq<nat>, servers: map<nat, Server>)
    requires forall n :: MilestonesAt(servers, n) == 0
    ensures Total(nodes, servers) == 0
  {
    if nodes != [] {
      NothingYet(nodes[..|nodes| - 1], servers);
    }
  }

  lemma NoProgressAtFirst(c: Config, w: World)
    requires Init(c, w)
    ensures Progress(c, w) == 0
  {
    NothingYet(c.nodes, w.servers);
  }

  /** The length of a run can be read off the world it has reached. */
  lemma {:induction false} LengthIsProgress(c: Config, worlds: seq<World>, steps: seq<Step>, t: nat)
    requires Execution(c, worlds, steps) && t < |worlds|
    ensures Progress(c, worlds[t]) == t
  {
    hide MeshInv, SignalInv, Progress, Next, Enabled, Init, ValidConfig;
    if t == 0 {
      NoProgressAtFirst(c, worlds[0]);
    } else {
      MeshReachable(c, worlds, steps, t - 1);
      SignalsReachable(c, worlds, steps, t - 1);
      ExecutionStep(c, worlds, steps, t - 1);
      LengthIsProgress(c, worlds, steps, t - 1);
      hide Execution;
      StepCounts(c, worlds[t - 1], steps[t - 1], StartOf(steps[..t - 1]));
    }
  }

  // ---- The number of steps of a whole run --------------------------------------------

  function ClientsAt(numClients: map<nat, nat>, n: nat): nat {
    if n in numClients then numClients[n] else 0
  }

  function Sum(nodes: seq<nat>, numClients: map<nat, nat>): nat {
    if nodes == [] then 0 else Sum(nodes[..|nodes| - 1], numClients) + ClientsAt(numClients, nodes[|nodes| - 1])
  }

  /** Two for each pair of `m` servers. */
  function Ends(m: nat): int {
    m * (m - 1)
  }

  /** A dial, an accept and two installs for each pair of servers; a registration and an
      install for each client; one start per server. */
  function RunLength(c: Config): int {
    2 * Ends(|c.nodes|) + 2 * Sum(c.nodes, c.numClients) + |c.nodes|
  }

  /** The streams between `n` and the nodes of `others`. */
  function StreamsOf(n: nat, others: seq<nat>): (r: set<Stream>)
    requires Distinct(others) && n !in others
    ensures forall s :: s in r <==>
              (s.acceptor < s.dialer
               && ((s.dialer == n && s.acceptor in others) || (s.acceptor == n && s.dialer in others)))
    ensures |r| == |others|
  {
    if others == [] then {}
    else
      var before, last := others[..|others| - 1], others[|others| - 1];
      assert others == before + [last];
      StreamsOf(n, before) + {if last < n then Stream(n, last) else Stream(last, n)}
  }

  /** The streams a cluster can have, one for each pair of nodes. */
  function AllStreams(nodes: seq<nat>): (r: set<Stream>)
    requires Distinct(nodes)
    ensures forall s :: s in r <==> s.acceptor < s.dialer && s.acceptor in nodes && s.dialer in nodes
  {
    if nodes == [] then {}
    else
      var before, last := nodes[..|nodes| - 1], nodes[|nodes| - 1];
      assert nodes == before + [last];
      AllStreams(before) + StreamsOf(last, before)
  }

  lemma EndsNext(m: nat)
    ensures Ends(m + 1) == Ends(m) + 2 * m
  {
  }

  lemma NewStreams(before: seq<nat>, n: nat)
    requires Distinct(before) && n !in before
    ensures |AllStreams(before) + StreamsOf(n, before)| == |AllStreams(before)| + |before|
  {
    hide AllStreams, StreamsOf;
    assert AllStreams(before) !! StreamsOf(n, before);
  }

  lemma AllStreamsNext(nodes: seq<nat>)
    requires Distinct(nodes) && nodes != []
    ensures var before, last := nodes[..|nodes| - 1], nodes[|nodes| - 1];
            Distinct(before) && last !in before && AllStreams(nodes) == AllStreams(before) + StreamsOf(last, before)
  {
    assert nodes == nodes[..|nodes| - 1] + [nodes[|nodes| - 1]];
  }

  lemma {:induction false} AllStreamsSize(nodes: seq<nat>)
    requires Distinct(nodes)
    ensures 2 * |AllStreams(nodes)| == Ends(|nodes|)
  {
    if nodes != [] {
      hide AllStreams, StreamsOf, Ends, Distinct;
      AllStreamsNext(nodes);
      AllStreamsSize(nodes[..|nodes| - 1]);
      NewStreams(nodes[..|nodes| - 1], nodes[|nodes| - 1]);
      EndsNext(|nodes| - 1);
    }
  }

  lemma {:induction false} StreamCount(streams: seq<Stream>) returns (all: set<Stream>)
    requires forall i, j :: 0 <= i < j < |streams| ==> streams[i] != streams[j]
    ensures |all| == |streams| && forall s :: s in all <==> s in streams
  {
    if streams == [] {
      all := {};
    } else {
      var before, last := streams[..|streams| - 1], streams[|streams| - 1];
      assert streams == before + [last];
      all := StreamCount(before);
      all := all + {last};
    }
  }

  /** Streams without repetition are no more than the pairs of nodes, and as many if all
      are there. */
  lemma StreamBound(nodes: seq<nat>, streams: seq<Stream>)
    requires Distinct(nodes) && forall s :: s in streams ==> s in AllStreams(nodes)
    requires forall i, j :: 0 <= i < j < |streams| ==> streams[i] != streams[j]
    ensures 2 * |streams| <= Ends(|nodes|)
    ensures (forall s :: s in AllStreams(nodes) ==> s in streams) ==> 2 * |streams| == Ends(|nodes|)
  {
    hide AllStreams, Ends, Distinct;
    AllStreamsSize(nodes);
    var all := StreamCount(streams);
    SubsetSize(all, AllStreams(nodes));
    if forall s :: s in AllStreams(nodes) ==> s in streams {
      assert all == AllStreams(nodes);
    }
  }

  lemma StreamsJoinNodes(c: Config, w: World)
    requires ValidConfig(c) && MeshInv(c, w)
    ensures forall s :: s in w.streams ==> s in AllStreams(c.nodes)
    ensures forall i, j :: 0 <= i < j < |w.streams| ==> w.streams[i] != w.streams[j]
  {
  }

  lemma PeerCount(c: Config, n: nat)
    requires ValidConfig(c) && n in c.nodes
    ensures |Peers(c, n)| == |c.nodes| - 1
  {
    DistinctSize(c.nodes);
  }

  /** No server passes more milestones than it has peers, twice its clients, and its start. */
  lemma MilestoneBound(c: Config, w: World, n: nat)
    requires ValidConfig(c) && MeshInv(c, w) && n in c.nodes
    ensures MilestonesAt(w.servers, n) <= 2 * ClientsAt(c.numClients, n) + |c.nodes|
  {
    var s, num := w.servers[n], c.numClients[n];
    assert ServerOk(c, w.streams, w.handshakes, n, s);
    SlotsArePeers(c, w, n);
    hide MeshInv;
    PeerCount(c, n);
    SubsetSize(s.conns.slots.Keys, Peers(c, n));
    DistinctSize(s.registered);
    BelowSize(num);
    SubsetSize(Members(s.registered), Below(num));
    OneToSize(|s.registered|);
    SubsetSize(s.conns.clients, OneTo(|s.registered|));
  }

  lemma TimesNext(k: nat, m: nat)
    ensures (k + 1) * m == k * m + m
  {
  }

  lemma {:induction false} TotalBound(nodes: seq<nat>, servers: map<nat, Server>, numClients: map<nat, nat>, m: nat)
    requires forall n :: n in nodes ==> MilestonesAt(servers, n) <= 2 * ClientsAt(numClients, n) + m
    ensures Total(nodes, servers) <= 2 * Sum(nodes, numClients) + |nodes| * m
    ensures (forall n :: n in nodes ==> MilestonesAt(servers, n) == 2 * ClientsAt(numClients, n) + m) ==>
              Total(nodes, servers) == 2 * Sum(nodes, numClients) + |nodes| * m
  {
    hide MilestonesAt, ClientsAt;
    if nodes != [] {
      TotalBound(nodes[..|nodes| - 1], servers, numClients, m);
      TimesNext(|nodes| - 1, m);
    }
  }

  /** Every run of start-up is finite: none is longer than `RunLength`. */
  lemma RunIsBounded(c: Config, worlds: seq<World>, steps: seq<Step>)
    requires Execution(c, worlds, steps)
    ensures ValidConfig(c) && |steps| <= RunLength(c)
  {
    var w := worlds[|steps|];
    LengthIsProgress(c, worlds, steps, |steps|);
    MeshReachable(c, worlds, steps, |steps|);
    hide Execution, MeshInv;
    StreamsJoinNodes(c, w);
    StreamBound(c.nodes, w.streams);
    forall n | n in c.nodes
      ensures MilestonesAt(w.servers, n) <= 2 * ClientsAt(c.numClients, n) + |c.nodes|
    {
      MilestoneBound(c, w, n);
    }
    TotalBound(c.nodes, w.servers, c.numClients, |c.nodes|);
    assert |c.nodes| * |c.nodes| == Ends(|c.nodes|) + |c.nodes|;
  }

  /** Every run, however far it has come, can be carried to a world where nothing is left
      to do. */
  lemma {:induction false} RunCompletes(c: Config, worlds: seq<World>, steps: seq<Step>)
    returns (worlds': seq<World>, steps': seq<Step>)
    requires Execution(c, worlds, steps)
    ensures Execution(c, worlds', steps') && worlds <= worlds' && steps <= steps'
    ensures forall step :: !Enabled(c, worlds'[|steps'|], step)
    decreases RunLength(c) - |steps|
  {
    RunIsBounded(c, worlds, steps);
    hide Enabled, Next, Init;
    if step :| Enabled(c, worlds[|steps|], step) {
      var longer, more := worlds + [Next(c, worlds[|steps|], step)], steps + [step];
      assert Execution(c, longer, more);
      RunIsBounded(c, longer, more);
      worlds', steps' := RunCompletes(c, longer, more);
    } else {
      worlds', steps' := worlds, steps;
    }
  }

  /** Nothing can happen any more, and the cluster is not one lone server without clients. */
  ghost predicate Ended(c: Config, worlds: seq<World>, steps: seq<Step>) {
    && Execution(c, worlds, steps)
    && (forall step :: !Enabled(c, worlds[|steps|], step))
    && c.leader in c.numClients && !Isolated(c, c.leader)
  }

  lemma AllReady(c: Config, worlds: seq<World>, steps: seq<Step>, n: nat)
    requires Ended(c, worlds, steps) && n in c.nodes
    ensures var w := worlds[|steps|]; n in w.servers && w.servers[n].ready
  {
    MeshReachable(c, worlds, steps, |steps|);
    assert n != c.leader ==> c.leader in Peers(c, n);
    hide MeshInv, Enabled, Execution;
    ReadyIffNotIsolated(c, worlds, steps, |steps|, n);
  }

  lemma AllStarted(c: Config, worlds: seq<World>, steps: seq<Step>, n: nat)
    requires Ended(c, worlds, steps) && n in c.nodes
    ensures var w := worlds[|steps|]; n in w.servers && w.servers[n].started
  {
    var w := worlds[|steps|];
    AllReady(c, worlds, steps, n);
    assert c.leader in c.nodes;
    AllReady(c, worlds, steps, c.leader);
    SignalsReachable(c, worlds, steps, |steps|);
    assert !Enabled(c, w, LeaderReady(0)) && !Enabled(c, w, HandleStart(n));
    hide Execution, Ended;
    assert InboxOk(c, n, w.servers[n], StartOf(steps[..|steps|]));
    assert InboxOk(c, c.leader, w.servers[c.leader], StartOf(steps[..|steps|]));
  }

  lemma AllMilestones(c: Config, worlds: seq<World>, steps: seq<Step>, n: nat)
    requires Ended(c, worlds, steps) && n in c.nodes
    ensures MilestonesAt(worlds[|steps|].servers, n) == 2 * ClientsAt(c.numClients, n) + |c.nodes|
  {
    var w := worlds[|steps|];
    AllReady(c, worlds, steps, n);
    AllStarted(c, worlds, steps, n);
    MeshReachable(c, worlds, steps, |steps|);
    assert ServerOk(c, w.streams, w.handshakes, n, w.servers[n]);
    PeerCount(c, n);
    hide MeshInv, Execution, Ended, Peers, Complete;
    ClientNumbers(c.numClients[n], w.servers[n]);
    OneToSize(c.numClients[n]);
  }

  /** A server is not past start-up while a handshake with it is open. */
  lemma HandshakeIsAhead(c: Config, w: World, k: nat)
    requires MeshInv(c, w) && k in w.handshakes
    ensures Enabled(c, w, Accept(k))
  {
    var st := w.streams[k];
    var n, p := st.acceptor, st.dialer;
    assert ServerOk(c, w.streams, w.handshakes, n, w.servers[n]);
    assert p in Peers(c, n);
    if w.servers[n].ready {
      JoinsUnique(w, n, p, k, w.servers[n].conns.slots[p]);
    }
  }

  lemma DialIsAhead(c: Config, w: World, s: Stream)
    requires ValidConfig(c) && MeshInv(c, w) && s in AllStreams(c.nodes)
    ensures s in w.streams || Enabled(c, w, Dial(s.dialer, s.acceptor))
  {
  }

  lemma AllAccepted(c: Config, w: World)
    requires ValidConfig(c) && MeshInv(c, w) && forall step :: !Enabled(c, w, step)
    ensures w.handshakes == {} && forall s :: s in AllStreams(c.nodes) ==> s in w.streams
  {
    hide MeshInv, Enabled, AllStreams;
    forall k | k in w.handshakes
      ensures false
    {
      HandshakeIsAhead(c, w, k);
    }
    forall s | s in AllStreams(c.nodes)
      ensures s in w.streams
    {
      DialIsAhead(c, w, s);
    }
  }

  /** However the steps interleave, a run that has come to its end has taken `RunLength`. */
  lemma CompleteRunLength(c: Config, worlds: seq<World>, steps: seq<Step>)
    requires Ended(c, worlds, steps)
    ensures |steps| == RunLength(c)
  {
    var w := worlds[|steps|];
    LengthIsProgress(c, worlds, steps, |steps|);
    MeshReachable(c, worlds, steps, |steps|);
    AllAccepted(c, w);
    forall n | n in c.nodes
      ensures MilestonesAt(w.servers, n) == 2 * ClientsAt(c.numClients, n) + |c.nodes|
    {
      AllMilestones(c, worlds, steps, n);
    }
    assert ValidConfig(c);
    hide Ended, MeshInv, MilestonesAt;
    StreamsJoinNodes(c, w);
    StreamBound(c.nodes, w.streams);
    TotalBound(c.nodes, w.servers, c.numClients, |c.nodes|);
    assert |c.nodes| * |c.nodes| == Ends(|c.nodes|) + |c.nodes|;
  }
}
