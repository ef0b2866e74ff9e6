/** Validation of cluster configurations and the quorum sizes it lets through. */
module QuorumModel {
  import opened KeyValue

  datatype FlexibleQuorum = FlexibleQuorum(readSize: int, writeSize: int)

  datatype OmniConfig = OmniConfig(
    nodes: seq<int>,
    nodeAddrs: seq<string>,
    initialLeader: int,
    quorum: Option<FlexibleQuorum>)

  /** `servers[id]` is the number of clients of a server, `clients[id]` the server of a client. */
  datatype ClusterConfig = ClusterConfig(op: OmniConfig, servers: map<int, int>, clients: map<int, int>)

  datatype ConfigError =
    | ReadQuorumTooSmall | WriteQuorumTooSmall | NoOverlap
    | ClientWithoutServer | ClientCountMismatch | LeaderNotAServer | NodesMismatch

  datatype Result = Ok(config: ClusterConfig) | Err(error: ConfigError)

  /** `nodes` is the ascending list of `ids`. */
  predicate SortedListOf(nodes: seq<int>, ids: set<int>) {
    && (forall i, j :: 0 <= i < j < |nodes| ==> nodes[i] < nodes[j])
    && (set x | x in nodes) == ids
  }

  function ClientsOf(clients: map<int, int>, server: int): set<int> {
    set k | k in clients && clients[k] == server
  }

  /** The checks in the order in which the first failure is raised. */
  function Validate(c: ClusterConfig): Option<ConfigError> {
    var q := c.op.quorum;
    if q.Some? && q.value.readSize < 2 then Some(ReadQuorumTooSmall)
    else if q.Some? && q.value.writeSize < 2 then Some(WriteQuorumTooSmall)
    else if q.Some? && q.value.readSize + q.value.writeSize <= |c.op.nodes| then Some(NoOverlap)
    else if exists k :: k in c.clients && k !in c.servers then Some(ClientWithoutServer)
    else if exists s :: s in c.servers && c.servers[s] != |ClientsOf(c.clients, s)| then Some(ClientCountMismatch)
    else if c.op.initialLeader !in c.servers then Some(LeaderNotAServer)
    else if !SortedListOf(c.op.nodes, c.servers.Keys) then Some(NodesMismatch)
    else None
  }

  /** Construction runs the validation. */
  function Construct(c: ClusterConfig): Result {
    match Validate(c)
    case None => Ok(c)
    case Some(e) => Err(e)
  }

  /** The fields an update names; the others stay. */
  datatype Update = Update(
    nodes: Option<seq<int>>,
    nodeAddrs: Option<seq<string>>,
    initialLeader: Option<int>,
    quorum: Option<Option<FlexibleQuorum>>)

  function UpdateOmniPaxosConfig(c: ClusterConfig, u: Update): Result {
    var op := OmniConfig(
      if u.nodes.Some? then u.nodes.value else c.op.nodes,
      if u.nodeAddrs.Some? then u.nodeAddrs.value else c.op.nodeAddrs,
      if u.initialLeader.Some? then u.initialLeader.value else c.op.initialLeader,
      if u.quorum.Some? then u.quorum.value else c.op.quorum);
    Construct(c.(op := op))
  }

  /** The configuration in force after a chain of updates; one that is refused changes nothing. */
  function InForce(c: ClusterConfig, updates: seq<Update>): ClusterConfig {
    if updates == [] then c
    else
      var before := InForce(c, updates[..|updates| - 1]);
      match UpdateOmniPaxosConfig(before, updates[|updates| - 1])
      case Ok(after) => after
      case Err(_) => before
  }

  /** What a configuration must meet, in any order. */
  lemma AcceptedIff(c: ClusterConfig)
    ensures Construct(c) == Ok(c) || Construct(c).Err?
    ensures Construct(c).Ok? <==>
            && (c.op.quorum.Some? ==>
                  c.op.quorum.value.readSize >= 2 && c.op.quorum.value.writeSize >= 2
                  && c.op.quorum.value.readSize + c.op.quorum.value.writeSize > |c.op.nodes|)
            && (forall k :: k in c.clients ==> k in c.servers)
            && (forall s :: s in c.servers ==> c.servers[s] == |set k | k in c.clients && c.clients[k] == s|)
            && c.op.initialLeader in c.servers
            && (forall i, j :: 0 <= i < j < |c.op.nodes| ==> c.op.nodes[i] < c.op.nodes[j])
            && (forall s :: s in c.op.nodes <==> s in c.servers)
  {
    hide ClientsOf, SortedListOf;
    forall s
      ensures ClientsOf(c.clients, s) == set k | k in c.clients && c.clients[k] == s
    {
      ClientsRead(c.clients, s);
    }
    SortedListRead(c.op.nodes, c.servers.Keys);
  }

  lemma ClientsRead(clients: map<int, int>, server: int)
    ensures ClientsOf(clients, server) == set k | k in clients && clients[k] == server
  {
  }

  lemma SortedListRead(nodes: seq<int>, ids: set<int>)
    ensures SortedListOf(nodes, ids) <==>
            && (forall i, j :: 0 <= i < j < |nodes| ==> nodes[i] < nodes[j])
            && (forall s :: s in nodes <==> s in ids)
  {
    if forall s :: s in nodes <==> s in ids {
      assert (set x | x in nodes) == ids;
    }
  }

  /** The error raised is that of the first check that fails, in the order of the source. */
  lemma FirstFault(c: ClusterConfig)
    requires Construct(c).Err?
    ensures var e := Construct(c).error;
            var q := c.op.quorum;
            && (e == ReadQuorumTooSmall <==> q.Some? && q.value.readSize < 2)
            && (e == WriteQuorumTooSmall <==> q.Some? && q.value.readSize >= 2 && q.value.writeSize < 2)
            && (e == NoOverlap <==> q.Some? && q.value.readSize >= 2 && q.value.writeSize >= 2
                                    && q.value.readSize + q.value.writeSize <= |c.op.nodes|)
            && (e == ClientWithoutServer ==> exists k :: k in c.clients && k !in c.servers)
            && (e == ClientCountMismatch ==>
                  exists s :: s in c.servers && c.servers[s] != |set k | k in c.clients && c.clients[k] == s|)
            && (e in {ClientCountMismatch, LeaderNotAServer, NodesMismatch} ==>
                  forall k :: k in c.clients ==> k in c.servers)
            && (e == LeaderNotAServer ==> c.op.initialLeader !in c.servers)
            && (e == NodesMismatch ==> c.op.initialLeader in c.servers)
            && (e in {LeaderNotAServer, NodesMismatch} ==>
                  forall s :: s in c.servers ==> c.servers[s] == |set k | k in c.clients && c.clients[k] == s|)
  {
    hide ClientsOf, SortedListOf;
    forall s
      ensures ClientsOf(c.clients, s) == set k | k in c.clients && c.clients[k] == s
    {
      ClientsRead(c.clients, s);
    }
  }

  /** An accepted update replaces the fields it names and no other part of the configuration;
      a refused one leaves the configuration in force. */
  lemma UpdateTakesEffect(c: ClusterConfig, updates: seq<Update>, u: Update)
    ensures var before, after := InForce(c, updates), InForce(c, updates + [u]);
            if UpdateOmniPaxosConfig(before, u).Ok? then
              && after == UpdateOmniPaxosConfig(before, u).config
              && after.servers == before.servers && after.clients == before.clients
              && after.op.nodes == (match u.nodes case Some(x) => x case None => before.op.nodes)
              && after.op.nodeAddrs == (match u.nodeAddrs case Some(x) => x case None => before.op.nodeAddrs)
              && after.op.initialLeader == (match u.initialLeader case Some(x) => x case None => before.op.initialLeader)
              && after.op.quorum == (match u.quorum case Some(x) => x case None => before.op.quorum)
            else after == before
    ensures InForce(c, []) == c
  {
    assert (updates + [u])[..|updates|] == updates;
  }

  /** An update is accepted exactly when the configuration with the named fields is valid. */
  lemma UpdateAcceptedIff(c: ClusterConfig, u: Update)
    ensures UpdateOmniPaxosConfig(c, u).Ok? <==>
            Construct(ClusterConfig(
              OmniConfig(
                match u.nodes case Some(x) => x case None => c.op.nodes,
                match u.nodeAddrs case Some(x) => x case None => c.op.nodeAddrs,
                match u.initialLeader case Some(x) => x case None => c.op.initialLeader,
                match u.quorum case Some(x) => x case None => c.op.quorum),
              c.servers, c.clients)).Ok?
  {
  }

  /** Any read quorum meets any write quorum. */
  ghost predicate QuorumsMeet(nodes: set<int>, readSize: int, writeSize: int) {
    forall a: set<int>, b: set<int> ::
      a <= nodes && b <= nodes && |a| == readSize && |b| == writeSize ==> a * b != {}
  }

  lemma DisjointSizes(nodes: set<int>, a: set<int>, b: set<int>)
    requires a <= nodes && b <= nodes && a * b == {}
    ensures |a| + |b| <= |nodes|
  {
    assert |a + b| == |a| + |b|;
    assert nodes == (a + b) + (nodes - (a + b));
  }

  lemma {:induction false} SubsetOfSize(nodes: set<int>, n: nat) returns (a: set<int>)
    requires n <= |nodes|
    ensures a <= nodes && |a| == n
  {
    if n == 0 {
      a := {};
    } else {
      assert nodes != {} && exists x :: x in nodes by {
        assert (forall x :: x !in nodes) ==> nodes == {};
      }
      var x :| x in nodes;
      var rest := SubsetOfSize(nodes - {x}, n - 1);
      a := rest + {x};
    }
  }

  /** The overlap test is exact: quorums of these sizes always meet if and only if the sizes
      add up to more than the number of nodes. */
  lemma QuorumsMeetIff(nodes: set<int>, readSize: int, writeSize: int)
    requires readSize >= 0 && writeSize >= 0
    ensures QuorumsMeet(nodes, readSize, writeSize) <==> readSize + writeSize > |nodes|
  {
    if readSize + writeSize > |nodes| {
      forall a: set<int>, b: set<int> | a <= nodes && b <= nodes && |a| == readSize && |b| == writeSize
        ensures a * b != {}
      {
        if a * b == {} {
          DisjointSizes(nodes, a, b);
        }
      }
    } else {
      var a := SubsetOfSize(nodes, readSize);
      assert |nodes - a| == |nodes| - readSize;
      var b := SubsetOfSize(nodes - a, writeSize);
      assert a * b == {} && b <= nodes;
    }
  }

  lemma {:induction false} AscendingSize(nodes: seq<int>)
    requires forall i, j :: 0 <= i < j < |nodes| ==> nodes[i] < nodes[j]
    ensures |set x | x in nodes| == |nodes|
  {
    if nodes != [] {
      var before, last := nodes[..|nodes| - 1], nodes[|nodes| - 1];
      AscendingSize(before);
      assert nodes == before + [last];
      assert (set x | x in nodes) == (set x | x in before) + {last};
    }
  }

  lemma {:induction false} InForceIsValid(c: ClusterConfig, updates: seq<Update>)
    requires Construct(c).Ok?
    ensures Validate(InForce(c, updates)) == None
  {
    if updates != [] {
      InForceIsValid(c, updates[..|updates| - 1]);
    }
  }

  /** Whatever chain of updates a configuration has been through, every set of nodes of read
      quorum size meets every set of write quorum size. */
  lemma QuorumsAlwaysMeet(c: ClusterConfig, updates: seq<Update>)
    requires Construct(c).Ok? && InForce(c, updates).op.quorum.Some?
    ensures var now := InForce(c, updates);
            var q := now.op.quorum.value;
            QuorumsMeet(now.servers.Keys, q.readSize, q.writeSize)
            && (set x | x in now.op.nodes) == now.servers.Keys
  {
    var now := InForce(c, updates);
    InForceIsValid(c, updates);
    AscendingSize(now.op.nodes);
    QuorumsMeetIff(now.servers.Keys, now.op.quorum.value.readSize, now.op.quorum.value.writeSize);
  }

  /** Validation refuses sizes that could miss each other: without the other faults, it
      accepts exactly the sizes of two or more that always meet. */
  lemma AcceptedIffQuorumsMeet(c: ClusterConfig, q: FlexibleQuorum)
    requires Validate(c.(op := c.op.(quorum := None))) == None
    ensures Validate(c.(op := c.op.(quorum := Some(q)))) == None
            <==> q.readSize >= 2 && q.writeSize >= 2 && QuorumsMeet(c.servers.Keys, q.readSize, q.writeSize)
  {
    AscendingSize(c.op.nodes);
    if q.readSize >= 2 && q.writeSize >= 2 {
      QuorumsMeetIff(c.servers.Keys, q.readSize, q.writeSize);
    }
  }
}
