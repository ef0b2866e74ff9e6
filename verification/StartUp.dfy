/** Cluster start-up without failures: servers dial every peer with a smaller id,
    clients register, handshakes are handled in any interleaving, and then the initial
    leader sets off one start signal per client. */
module StartUp {
  import opened KeyValue
  import opened NetworkModel

  /** `numClients[n]` client processes `0 .. numClients[n] - 1` connect to server `n`. */
  datatype Config = Config(nodes: seq<nat>, numClients: map<nat, nat>, leader: nat)

  ghost predicate ValidConfig(c: Config) {
    Distinct(c.nodes) && c.numClients.Keys == Members(c.nodes) && c.leader in c.nodes
  }

  function Peers(c: Config, n: nat): set<nat> {
    Members(c.nodes) - {n}
  }

  datatype Stream = Stream(dialer: nat, acceptor: nat)

  /** Server state. `registered[i]` is the process that got client number `i + 1`; `queue`
      holds connections on their way to the start-up loop, which arrive in any order. */
  datatype Server = Server(
    conns: Connections,
    registered: seq<nat>,
    queue: set<NewConnection>,
    ready: bool,
    inbox: seq<int>,
    started: bool)

  datatype Process = Process(server: nat, j: nat)

  /** Streams are named by their position in `streams`; `handshakes` are those whose acceptor
      has not read the registration yet; `signals` is what each client process received. */
  datatype World = World(
    streams: seq<Stream>,
    handshakes: set<nat>,
    servers: map<nat, Server>,
    signals: map<Process, seq<int>>)

  ghost predicate Init(c: Config, w: World) {
    && w.streams == [] && w.handshakes == {}
    && w.servers.Keys == Members(c.nodes)
    && (forall n :: n in w.servers ==>
          w.servers[n] == Server(Connections(map[], {}), [], {}, false, [], false))
    && (forall p :: p in w.signals <==> p.server in c.numClients && p.j < c.numClients[p.server])
    && (forall p :: p in w.signals ==> w.signals[p] == [])
  }

  datatype Step =
    | Dial(a: nat, b: nat)
    | Accept(k: nat)
    | Register(n: nat, j: nat)
    | Install(n: nat, conn: NewConnection)
    | LeaderReady(time: int)
    | HandleStart(n: nat)

  ghost predicate Enabled(c: Config, w: World, step: Step) {
    match step
    case Dial(a, b) => a in w.servers && b in w.servers && b < a && Stream(a, b) !in w.streams
    case Accept(k) => k in w.handshakes && k < |w.streams| && w.streams[k].acceptor in w.servers
                      && !w.servers[w.streams[k].acceptor].ready
    case Register(n, j) => n in w.servers && n in c.numClients && j < c.numClients[n]
                           && j !in w.servers[n].registered && !w.servers[n].ready
    case Install(n, conn) => n in w.servers && n in c.numClients
                             && conn in w.servers[n].queue && !w.servers[n].ready
    case LeaderReady(_) => c.leader in w.servers && c.leader in c.numClients
                           && w.servers[c.leader].ready && !w.servers[c.leader].started
    case HandleStart(n) => n in w.servers && n in c.numClients
                           && w.servers[n].ready && w.servers[n].inbox != []
  }

  /** `send_client_start_signals`: client numbers `1 .. count` in turn. */
  function Signal(n: nat, s: Server, signals: map<Process, seq<int>>, count: nat, time: int): map<Process, seq<int>> {
    if count == 0 then signals
    else
      var before := Signal(n, s, signals, count - 1, time);
      if count in s.conns.clients && count <= |s.registered| && Process(n, s.registered[count - 1]) in before then
        var p := Process(n, s.registered[count - 1]);
        before[p := before[p] + [time]]
      else before
  }

  function Queued(s: Server, conn: NewConnection): Server {
    s.(queue := s.queue + {conn})
  }

  function InstallOne(c: Config, n: nat, s: Server, conn: NewConnection): Server
    requires n in c.numClients
  {
    var conns := Installed(s.conns, conn);
    s.(queue := s.queue - {conn}, conns := conns, ready := Complete(conns, Peers(c, n), c.numClients[n]))
  }

  function Notify(c: Config, servers: map<nat, Server>, time: int): map<nat, Server> {
    map n | n in servers ::
      if n in Peers(c, c.leader) then servers[n].(inbox := servers[n].inbox + [time])
      else if n == c.leader then servers[n].(started := true)
      else servers[n]
  }

  ghost function Next(c: Config, w: World, step: Step): World
    requires Enabled(c, w, step)
  {
    match step
    case Dial(a, b) =>
      var k := |w.streams|;
      w.(streams := w.streams + [Stream(a, b)], handshakes := w.handshakes + {k},
         servers := w.servers[a := Queued(w.servers[a], ToPeer(b, k))])
    case Accept(k) =>
      var st := w.streams[k];
      w.(handshakes := w.handshakes - {k},
         servers := w.servers[st.acceptor := Queued(w.servers[st.acceptor], ToPeer(st.dialer, k))])
    case Register(n, j) =>
      var s := w.servers[n];
      w.(servers := w.servers[n := Queued(s.(registered := s.registered + [j]), ToClient(|s.registered| + 1))])
    case Install(n, conn) =>
      w.(servers := w.servers[n := InstallOne(c, n, w.servers[n], conn)])
    case LeaderReady(time) =>
      w.(servers := Notify(c, w.servers, time),
         signals := Signal(c.leader, w.servers[c.leader], w.signals, c.numClients[c.leader], time))
    case HandleStart(n) =>
      var s := w.servers[n];
      w.(servers := w.servers[n := s.(inbox := s.inbox[1..], started := true)],
         signals := Signal(n, s, w.signals, c.numClients[n], s.inbox[0]))
  }

  ghost predicate Execution(c: Config, worlds: seq<World>, steps: seq<Step>) {
    && ValidConfig(c) && |worlds| == |steps| + 1 && Init(c, worlds[0])
    && forall i :: 0 <= i < |steps| ==>
         Enabled(c, worlds[i], steps[i]) && worlds[i + 1] == Next(c, worlds[i], steps[i])
  }

  // ---- What every step keeps -----------------------------------------------------

  /** Stream `st` is the one between `n` and `p`: the larger id dialed. */
  predicate Joins(st: Stream, n: nat, p: nat) {
    st == if p < n then Stream(n, p) else Stream(p, n)
  }

  ghost predicate StreamsOk(w: World) {
    && (forall k :: 0 <= k < |w.streams| ==>
          w.streams[k].dialer in w.servers && w.streams[k].acceptor in w.servers
          && w.streams[k].acceptor < w.streams[k].dialer)
    && (forall i, j :: 0 <= i < j < |w.streams| ==> w.streams[i] != w.streams[j])
    && (forall k :: k in w.handshakes ==> k < |w.streams|)
  }

  /** Server `n` may have its end of stream `k` to `p`. */
  ghost predicate EndOk(streams: seq<Stream>, handshakes: set<nat>, n: nat, p: nat, k: nat) {
    k < |streams| && p != n && Joins(streams[k], n, p) && (streams[k].acceptor == n ==> k !in handshakes)
  }

  ghost predicate PeersOk(streams: seq<Stream>, handshakes: set<nat>, n: nat, s: Server) {
    && (forall p :: p in s.conns.slots ==> EndOk(streams, handshakes, n, p, s.conns.slots[p]))
    && (forall p, k :: ToPeer(p, k) in s.queue ==> EndOk(streams, handshakes, n, p, k) && p !in s.conns.slots)
  }

  ghost predicate ClientsOk(num: nat, s: Server) {
    && Distinct(s.registered) && (forall i :: 0 <= i < |s.registered| ==> s.registered[i] < num)
    && (forall id: nat :: id in s.conns.clients || ToClient(id) in s.queue <==> 1 <= id <= |s.registered|)
    && (forall id :: id in s.conns.clients ==> ToClient(id) !in s.queue)
  }

  /** A server with no peer and no client receives no connection at all. */
  predicate Isolated(c: Config, n: nat)
    requires n in c.numClients
  {
    Peers(c, n) == {} && c.numClients[n] == 0
  }

  ghost predicate ServerOk(c: Config, streams: seq<Stream>, handshakes: set<nat>, n: nat, s: Server)
    requires n in c.numClients
  {
    && PeersOk(streams, handshakes, n, s)
    && ClientsOk(c.numClients[n], s)
    && (s.ready <==> Complete(s.conns, Peers(c, n), c.numClients[n]) && !Isolated(c, n))
  }

  ghost predicate AtEnd(s: Server, p: nat, k: nat) {
    ToPeer(p, k) in s.queue || (p in s.conns.slots && s.conns.slots[p] == k)
  }

  /** The ends of stream `k` are where they should be. */
  ghost predicate EndsOk(w: World, k: nat)
    requires k < |w.streams|
    requires w.streams[k].dialer in w.servers && w.streams[k].acceptor in w.servers
  {
    var st := w.streams[k];
    && AtEnd(w.servers[st.dialer], st.acceptor, k)
    && (k in w.handshakes || AtEnd(w.servers[st.acceptor], st.dialer, k))
  }

  ghost predicate MeshInv(c: Config, w: World) {
    && w.servers.Keys == Members(c.nodes)
    && StreamsOk(w)
    && (forall n :: n in w.servers ==> n in c.numClients && ServerOk(c, w.streams, w.handshakes, n, w.servers[n]))
    && (forall k :: 0 <= k < |w.streams| ==> EndsOk(w, k))
  }

  lemma JoinsUnique(w: World, n: nat, p: nat, i: nat, j: nat)
    requires StreamsOk(w) && i < |w.streams| && j < |w.streams|
    requires Joins(w.streams[i], n, p) && Joins(w.streams[j], n, p)
    ensures i == j
  {
  }

  /** The other servers do not notice a new stream or a finished handshake. */
  lemma ServerUnaffected(c: Config, streams: seq<Stream>, handshakes: set<nat>,
                         streams': seq<Stream>, handshakes': set<nat>, n: nat, s: Server)
    requires n in c.numClients && ServerOk(c, streams, handshakes, n, s)
    requires streams <= streams' && forall k :: k in handshakes' ==> k in handshakes || k >= |streams|
    ensures ServerOk(c, streams', handshakes', n, s)
  {
  }

  lemma QueuePeer(c: Config, streams: seq<Stream>, handshakes: set<nat>, n: nat, s: Server, p: nat, k: nat)
    requires n in c.numClients && ServerOk(c, streams, handshakes, n, s)
    requires EndOk(streams, handshakes, n, p, k) && p !in s.conns.slots
    ensures ServerOk(c, streams, handshakes, n, Queued(s, ToPeer(p, k)))
  {
  }

  lemma DialKeeps(c: Config, w: World, a: nat, b: nat)
    requires ValidConfig(c) && MeshInv(c, w) && Enabled(c, w, Dial(a, b))
    ensures MeshInv(c, Next(c, w, Dial(a, b)))
  {
    hide ServerOk, Complete;
    var w' := Next(c, w, Dial(a, b));
    var k := |w.streams|;
    forall n | n in w'.servers
      ensures ServerOk(c, w'.streams, w'.handshakes, n, w'.servers[n])
    {
      ServerUnaffected(c, w.streams, w.handshakes, w'.streams, w'.handshakes, n, w.servers[n]);
      if n == a {
        NotDialedYet(c, w, a, b);
        QueuePeer(c, w'.streams, w'.handshakes, a, w.servers[a], b, k);
      }
    }
    forall i | 0 <= i < |w'.streams|
      ensures EndsOk(w', i)
    {
      if i < k {
        assert EndsOk(w, i);
      }
    }
  }

  lemma NotDialedYet(c: Config, w: World, a: nat, b: nat)
    requires MeshInv(c, w) && Enabled(c, w, Dial(a, b))
    ensures b !in w.servers[a].conns.slots
  {
  }

  lemma AcceptKeeps(c: Config, w: World, k: nat)
    requires ValidConfig(c) && MeshInv(c, w) && Enabled(c, w, Accept(k))
    ensures MeshInv(c, Next(c, w, Accept(k)))
  {
    hide ServerOk, Complete;
    var w' := Next(c, w, Accept(k));
    var st := w.streams[k];
    forall n | n in w'.servers
      ensures ServerOk(c, w'.streams, w'.handshakes, n, w'.servers[n])
    {
      ServerUnaffected(c, w.streams, w.handshakes, w'.streams, w'.handshakes, n, w.servers[n]);
      if n == st.acceptor {
        NotAcceptedYet(c, w, k);
        QueuePeer(c, w'.streams, w'.handshakes, n, w.servers[n], st.dialer, k);
      }
    }
    forall i | 0 <= i < |w'.streams|
      ensures EndsOk(w', i)
    {
      assert EndsOk(w, i);
    }
  }

  lemma NotAcceptedYet(c: Config, w: World, k: nat)
    requires MeshInv(c, w) && Enabled(c, w, Accept(k))
    ensures w.streams[k].dialer !in w.servers[w.streams[k].acceptor].conns.slots
  {
    var st := w.streams[k];
    var s := w.servers[st.acceptor];
    assert ServerOk(c, w.streams, w.handshakes, st.acceptor, s);
    if st.dialer in s.conns.slots {
      JoinsUnique(w, st.acceptor, st.dialer, k, s.conns.slots[st.dialer]);
    }
  }

  lemma RegisterKeepsClients(num: nat, s: Server, j: nat)
    requires ClientsOk(num, s) && j < num && j !in s.registered
    ensures ClientsOk(num, Queued(s.(registered := s.registered + [j]), ToClient(|s.registered| + 1)))
  {
  }

  lemma InstallKeepsServer(c: Config, w: World, n: nat, conn: NewConnection)
    requires ValidConfig(c) && MeshInv(c, w) && Enabled(c, w, Install(n, conn))
    ensures ServerOk(c, w.streams, w.handshakes, n, InstallOne(c, n, w.servers[n], conn))
  {
    var s := w.servers[n];
    assert ServerOk(c, w.streams, w.handshakes, n, s);
    hide MeshInv;
    InstallKeepsPeers(c, w, n, conn);
    InstallKeepsClients(c.numClients[n], s, conn, c, n);
    NotIsolated(c, w, n, conn);
  }

  lemma InstallKeepsPeers(c: Config, w: World, n: nat, conn: NewConnection)
    requires MeshInv(c, w) && Enabled(c, w, Install(n, conn))
    ensures PeersOk(w.streams, w.handshakes, n, InstallOne(c, n, w.servers[n], conn))
  {
    var s := w.servers[n];
    assert ServerOk(c, w.streams, w.handshakes, n, s);
    var s' := InstallOne(c, n, s, conn);
    forall p, k | ToPeer(p, k) in s'.queue
      ensures p !in s'.conns.slots
    {
      if conn.ToPeer? && conn.peer == p {
        JoinsUnique(w, n, p, k, conn.stream);
      }
    }
  }

  lemma InstallKeepsClients(num: nat, s: Server, conn: NewConnection, c: Config, n: nat)
    requires ClientsOk(num, s) && conn in s.queue && n in c.numClients
    ensures ClientsOk(num, InstallOne(c, n, s, conn))
  {
  }

  lemma NotIsolated(c: Config, w: World, n: nat, conn: NewConnection)
    requires MeshInv(c, w) && Enabled(c, w, Install(n, conn))
    ensures !Isolated(c, n)
  {
    var s := w.servers[n];
    assert ServerOk(c, w.streams, w.handshakes, n, s);
    match conn {
      case ToPeer(p, k) =>
        assert EndOk(w.streams, w.handshakes, n, p, k);
        assert p in Peers(c, n);
      case ToClient(id) =>
        assert s.registered[0] < c.numClients[n];
    }
  }

  /** Steps that change one server and none of its ends. */
  lemma OneServerKeeps(c: Config, w: World, n: nat, s: Server)
    requires ValidConfig(c) && MeshInv(c, w) && n in w.servers
    requires ServerOk(c, w.streams, w.handshakes, n, s)
    requires forall p, k :: AtEnd(w.servers[n], p, k) ==> AtEnd(s, p, k)
    ensures MeshInv(c, w.(servers := w.servers[n := s]))
  {
    hide ServerOk, AtEnd;
    var w' := w.(servers := w.servers[n := s]);
    forall k | 0 <= k < |w'.streams|
      ensures EndsOk(w', k)
    {
      assert EndsOk(w, k);
    }
  }

  lemma RegisterKeeps(c: Config, w: World, n: nat, j: nat)
    requires ValidConfig(c) && MeshInv(c, w) && Enabled(c, w, Register(n, j))
    ensures MeshInv(c, Next(c, w, Register(n, j)))
  {
    var s := w.servers[n];
    var s' := Queued(s.(registered := s.registered + [j]), ToClient(|s.registered| + 1));
    RegisterKeepsServer(c, w, n, j);
    OneServerKeeps(c, w, n, s') by {
      hide MeshInv, ServerOk;
    }
  }

  lemma RegisterKeepsServer(c: Config, w: World, n: nat, j: nat)
    requires MeshInv(c, w) && Enabled(c, w, Register(n, j))
    ensures var s := w.servers[n];
            ServerOk(c, w.streams, w.handshakes, n,
                     Queued(s.(registered := s.registered + [j]), ToClient(|s.registered| + 1)))
  {
    assert ServerOk(c, w.streams, w.handshakes, n, w.servers[n]);
    hide MeshInv;
    RegisterKeepsClients(c.numClients[n], w.servers[n], j);
  }

  lemma InstallKeeps(c: Config, w: World, n: nat, conn: NewConnection)
    requires ValidConfig(c) && MeshInv(c, w) && Enabled(c, w, Install(n, conn))
    ensures MeshInv(c, Next(c, w, Install(n, conn)))
  {
    InstallKeepsServer(c, w, n, conn);
    InstallKeepsEnds(c, w, n, conn);
    OneServerKeeps(c, w, n, InstallOne(c, n, w.servers[n], conn)) by {
      hide MeshInv, ServerOk;
    }
  }

  lemma InstallKeepsEnds(c: Config, w: World, n: nat, conn: NewConnection)
    requires MeshInv(c, w) && Enabled(c, w, Install(n, conn))
    ensures forall p, k :: AtEnd(w.servers[n], p, k) ==> AtEnd(InstallOne(c, n, w.servers[n], conn), p, k)
  {
  }

  lemma SameConnectionsKeep(c: Config, w: World, w': World)
    requires MeshInv(c, w)
    requires w'.streams == w.streams && w'.handshakes == w.handshakes && w'.servers.Keys == w.servers.Keys
    requires forall n :: n in w.servers ==>
               w'.servers[n] == w.servers[n].(inbox := w'.servers[n].inbox, started := w'.servers[n].started)
    ensures MeshInv(c, w')
  {
    hide ServerOk;
    forall n | n in w'.servers
      ensures n in c.numClients && ServerOk(c, w'.streams, w'.handshakes, n, w'.servers[n])
    {
      ServerIgnoresSignals(c, w.streams, w.handshakes, n, w.servers[n], w'.servers[n].inbox, w'.servers[n].started);
    }
    forall k | 0 <= k < |w'.streams|
      ensures EndsOk(w', k)
    {
      assert EndsOk(w, k);
    }
  }

  lemma ServerIgnoresSignals(c: Config, streams: seq<Stream>, handshakes: set<nat>, n: nat, s: Server,
                             inbox: seq<int>, started: bool)
    requires n in c.numClients && ServerOk(c, streams, handshakes, n, s)
    ensures ServerOk(c, streams, handshakes, n, s.(inbox := inbox, started := started))
  {
  }

  lemma SignalStepsKeep(c: Config, w: World, step: Step)
    requires ValidConfig(c) && MeshInv(c, w) && Enabled(c, w, step) && (step.LeaderReady? || step.HandleStart?)
    ensures MeshInv(c, Next(c, w, step))
  {
    hide MeshInv, Signal;
    SameConnectionsKeep(c, w, Next(c, w, step));
  }

  lemma MeshNext(c: Config, w: World, step: Step)
    requires ValidConfig(c) && MeshInv(c, w) && Enabled(c, w, step)
    ensures MeshInv(c, Next(c, w, step))
  {
    hide MeshInv, Enabled, Next;
    match step {
      case Dial(a, b) => DialKeeps(c, w, a, b);
      case Accept(k) => AcceptKeeps(c, w, k);
      case Register(n, j) => RegisterKeeps(c, w, n, j);
      case Install(n, conn) => InstallKeeps(c, w, n, conn);
      case LeaderReady(_) => SignalStepsKeep(c, w, step);
      case HandleStart(_) => SignalStepsKeep(c, w, step);
    }
  }
}
