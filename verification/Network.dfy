/** The connections of one server: one slot per peer, in the order of the peer list,
    and one entry per client number. */
module NetworkModel {
  import opened KeyValue

  /** A connection is known by its stream. */
  datatype NewConnection = ToPeer(peer: nat, stream: nat) | ToClient(id: nat)

  function ClusterIdToIdx(peers: seq<nat>, id: nat): Option<nat> {
    if peers == [] then None
    else if peers[0] == id then Some(0)
    else
      match ClusterIdToIdx(peers[1..], id)
      case Some(i) => Some(i + 1)
      case None => None
  }

  /** The first position holding `id`, if there is one. */
  lemma {:induction false} IdxFindsFirst(peers: seq<nat>, id: nat)
    ensures match ClusterIdToIdx(peers, id)
            case Some(i) => i < |peers| && peers[i] == id && id !in peers[..i]
            case None => id !in peers
  {
    if peers != [] && peers[0] != id {
      IdxFindsFirst(peers[1..], id);
      if ClusterIdToIdx(peers, id).Some? {
        var i := ClusterIdToIdx(peers, id).value;
        assert peers[..i] == [peers[0]] + peers[1..][..i - 1];
      }
    }
  }

  ghost predicate Distinct(xs: seq<nat>) {
    forall i, j :: 0 <= i < j < |xs| ==> xs[i] != xs[j]
  }

  function Members(xs: seq<nat>): set<nat> {
    set x | x in xs
  }

  /** The connections of a server by peer and by client number, and the test that ends start-up. */
  datatype Connections = Connections(slots: map<nat, nat>, clients: set<nat>)

  function Installed(c: Connections, n: NewConnection): Connections {
    match n
    case ToPeer(peer, stream) => c.(slots := c.slots[peer := stream])
    case ToClient(id) => c.(clients := c.clients + {id})
  }

  predicate Complete(c: Connections, peers: set<nat>, numClients: nat) {
    c.slots.Keys == peers && |c.clients| >= numClients
  }

  function InstalledAll(c: Connections, source: seq<NewConnection>): Connections {
    if source == [] then c else Installed(InstalledAll(c, source[..|source| - 1]), source[|source| - 1])
  }

  predicate Reaches(n: NewConnection, peer: nat) {
    n.ToPeer? && n.peer == peer
  }

  /** `k` is the last connection to `peer`. */
  ghost predicate LastTo(source: seq<NewConnection>, peer: nat, k: nat) {
    k < |source| && Reaches(source[k], peer) && forall j :: k < j < |source| ==> !Reaches(source[j], peer)
  }

  /** Every client number that arrived is in; a slot holds the last stream that arrived for
      its peer, or what it held. */
  lemma {:induction false} InstalledAllAt(c: Connections, source: seq<NewConnection>)
    ensures InstalledAll(c, source).clients == c.clients + (set n | n in source && n.ToClient? :: n.id)
    ensures forall p: nat, k: nat :: LastTo(source, p, k) ==>
              p in InstalledAll(c, source).slots && InstalledAll(c, source).slots[p] == source[k].stream
    ensures forall p: nat :: (forall k :: 0 <= k < |source| ==> !Reaches(source[k], p)) ==>
              (p in InstalledAll(c, source).slots <==> p in c.slots)
              && (p in c.slots ==> InstalledAll(c, source).slots[p] == c.slots[p])
  {
    if source != [] {
      var before, last := source[..|source| - 1], source[|source| - 1];
      assert source == before + [last];
      InstalledAllAt(c, before);
      forall p: nat, k: nat | LastTo(source, p, k) && !Reaches(last, p)
        ensures LastTo(before, p, k)
      {
      }
      forall p: nat | forall k :: 0 <= k < |source| ==> !Reaches(source[k], p)
        ensures forall k :: 0 <= k < |before| ==> !Reaches(before[k], p)
        ensures !Reaches(last, p)
      {
        assert last == source[|source| - 1];
      }
      assert (set n | n in source && n.ToClient? :: n.id)
          == (set n | n in before && n.ToClient? :: n.id) + if last.ToClient? then {last.id} else {};
    }
  }

  /** Slot `i` belongs to peer `peers[i]`. */
  ghost function SlotsOf(peers: seq<nat>, connections: seq<Option<nat>>): map<nat, nat>
    requires Distinct(peers) && |connections| == |peers|
  {
    map i | 0 <= i < |peers| && connections[i].Some? :: peers[i] := connections[i].value
  }

  lemma SlotFilled(peers: seq<nat>, connections: seq<Option<nat>>, i: nat, stream: nat)
    requires Distinct(peers) && |connections| == |peers| && i < |peers|
    ensures SlotsOf(peers, connections[i := Some(stream)]) == SlotsOf(peers, connections)[peers[i] := stream]
  {
  }

  lemma SlotCleared(peers: seq<nat>, connections: seq<Option<nat>>, i: nat)
    requires Distinct(peers) && |connections| == |peers| && i < |peers|
    ensures SlotsOf(peers, connections[i := None]) == SlotsOf(peers, connections) - {peers[i]}
  {
  }

  lemma SlotsOfAt(peers: seq<nat>, connections: seq<Option<nat>>, i: nat)
    requires Distinct(peers) && |connections| == |peers| && i < |peers|
    ensures peers[i] in SlotsOf(peers, connections) <==> connections[i].Some?
    ensures connections[i].Some? ==> SlotsOf(peers, connections)[peers[i]] == connections[i].value
  {
  }

  lemma SlotsAreOfPeers(peers: seq<nat>, connections: seq<Option<nat>>)
    requires Distinct(peers) && |connections| == |peers|
    ensures forall p :: p in SlotsOf(peers, connections) ==> p in peers
  {
  }

  /** After these connections there are enough clients and no peer is missing. */
  ghost predicate Enough(peers: seq<nat>, connections: seq<Option<nat>>, clients: set<nat>,
                         source: seq<NewConnection>, numClients: nat)
    requires |connections| == |peers|
  {
    && |clients + (set n | n in source && n.ToClient? :: n.id)| >= numClients
    && forall i :: 0 <= i < |peers| ==>
         connections[i].Some? || exists j :: 0 <= j < |source| && source[j].ToPeer? && source[j].peer == peers[i]
  }

  lemma LastExists(source: seq<NewConnection>, peer: nat, j: nat) returns (k: nat)
    requires j < |source| && Reaches(source[j], peer)
    ensures LastTo(source, peer, k)
    decreases |source| - j
  {
    k := j;
    if i :| j < i < |source| && Reaches(source[i], peer) {
      k := LastExists(source, peer, i);
    }
  }

  lemma {:induction false} NoOtherSlots(c: Connections, source: seq<NewConnection>, peers: seq<nat>)
    requires forall p :: p in c.slots ==> p in peers
    requires forall j :: 0 <= j < |source| && source[j].ToPeer? ==> source[j].peer in peers
    ensures forall p :: p in InstalledAll(c, source).slots ==> p in peers
  {
    if source != [] {
      NoOtherSlots(c, source[..|source| - 1], peers);
    }
  }

  /** A peer has a slot iff it had one or a connection to it arrived. */
  lemma SlotIff(c: Connections, source: seq<NewConnection>, p: nat)
    ensures p in InstalledAll(c, source).slots <==> p in c.slots || exists j :: 0 <= j < |source| && Reaches(source[j], p)
  {
    InstalledAllAt(c, source);
    if j :| 0 <= j < |source| && Reaches(source[j], p) {
      var k := LastExists(source, p, j);
    }
  }

  lemma NothingInstalled(c: Connections)
    ensures InstalledAll(c, []) == c
  {
  }

  lemma InstalledNext(c: Connections, source: seq<NewConnection>, i: nat)
    requires i < |source|
    ensures InstalledAll(c, source[..i + 1]) == Installed(InstalledAll(c, source[..i]), source[i])
  {
    assert source[..i + 1][..i] == source[..i];
  }

  lemma CompleteTest(c: Connections, peers: set<nat>, numClients: nat)
    ensures Complete(c, peers, numClients) <==> c.slots.Keys == peers && |c.clients| >= numClients
  {
  }

  lemma CompleteIffEnough(peers: seq<nat>, connections: seq<Option<nat>>, clients: set<nat>,
                          source: seq<NewConnection>, numClients: nat)
    requires Distinct(peers) && |connections| == |peers|
    requires forall j :: 0 <= j < |source| && source[j].ToPeer? ==> source[j].peer in peers
    ensures Complete(InstalledAll(Connections(SlotsOf(peers, connections), clients), source), Members(peers), numClients)
            <==> Enough(peers, connections, clients, source, numClients)
  {
    var c := Connections(SlotsOf(peers, connections), clients);
    InstalledAllAt(c, source);
    NoOtherSlots(c, source, peers);
    forall i | 0 <= i < |peers|
      ensures peers[i] in InstalledAll(c, source).slots <==>
              connections[i].Some? || exists j :: 0 <= j < |source| && source[j].ToPeer? && source[j].peer == peers[i]
    {
      SlotsOfAt(peers, connections, i);
      SlotIff(c, source, peers[i]);
    }
    hide InstalledAll, SlotsOf;
    assert forall p :: p in peers ==> exists i :: 0 <= i < |peers| && peers[i] == p;
  }

  /** Each slot holds the stream of the last connection that arrived for its peer; without
      one it is as before. */
  ghost predicate FilledBy(peers: seq<nat>, before: seq<Option<nat>>, after: seq<Option<nat>>, source: seq<NewConnection>)
    requires |before| == |peers| == |after|
  {
    && (forall i, k ::
          (0 <= i < |peers| && 0 <= k < |source| && source[k].ToPeer? && source[k].peer == peers[i]
           && (forall j :: k < j < |source| ==> !(source[j].ToPeer? && source[j].peer == peers[i]))) ==>
          after[i] == Some(source[k].stream))
    && (forall i ::
          (0 <= i < |peers| && (forall j :: 0 <= j < |source| ==> !(source[j].ToPeer? && source[j].peer == peers[i]))) ==>
          after[i] == before[i])
  }

  lemma SlotsReadOff(peers: seq<nat>, before: seq<Option<nat>>, after: seq<Option<nat>>, clients: set<nat>,
                     source: seq<NewConnection>)
    requires Distinct(peers) && |before| == |peers| && |after| == |peers|
    requires SlotsOf(peers, after) == InstalledAll(Connections(SlotsOf(peers, before), clients), source).slots
    ensures FilledBy(peers, before, after, source)
    ensures InstalledAll(Connections(SlotsOf(peers, before), clients), source).clients
         == clients + (set n | n in source && n.ToClient? :: n.id)
  {
    var c := Connections(SlotsOf(peers, before), clients);
    InstalledAllAt(c, source);
    hide InstalledAll, SlotsOf;
    forall i, k | 0 <= i < |peers| && 0 <= k < |source| && source[k].ToPeer? && source[k].peer == peers[i]
      && (forall j :: k < j < |source| ==> !(source[j].ToPeer? && source[j].peer == peers[i]))
      ensures after[i] == Some(source[k].stream)
    {
      assert LastTo(source, peers[i], k);
      SlotsOfAt(peers, after, i);
    }
    forall i | 0 <= i < |peers| && (forall j :: 0 <= j < |source| ==> !(source[j].ToPeer? && source[j].peer == peers[i]))
      ensures after[i] == before[i]
    {
      SlotsOfAt(peers, before, i);
      SlotsOfAt(peers, after, i);
    }
  }

  /** No prefix shorter than `n` was complete, hence none was enough. */
  lemma NoneEnough(peers: seq<nat>, connections: seq<Option<nat>>, clients: set<nat>,
                   source: seq<NewConnection>, numClients: nat, n: nat)
    requires Distinct(peers) && |connections| == |peers| && n <= |source|
    requires forall j :: 0 <= j < |source| && source[j].ToPeer? ==> source[j].peer in peers
    requires forall k :: 0 < k <= n ==>
               !Complete(InstalledAll(Connections(SlotsOf(peers, connections), clients), source[..k]),
                         Members(peers), numClients)
    ensures forall k :: 0 < k <= n ==> !Enough(peers, connections, clients, source[..k], numClients)
  {
    hide Complete, Enough, InstalledAll, SlotsOf;
    forall k | 0 < k <= n
      ensures !Enough(peers, connections, clients, source[..k], numClients)
    {
      CompleteIffEnough(peers, connections, clients, source[..k], numClients);
    }
  }

  // ---- Sending -----------------------------------------------------------------

  datatype Recipient = PeerNode(id: nat) | ClientNode(id: nat)

  /** A message for `to`; `ok` tells whether its connection, if there is one, accepts it. */
  datatype Attempt = Attempt(to: Recipient, ok: bool)

  predicate Connected(c: Connections, to: Recipient) {
    match to
    case PeerNode(id) => id in c.slots
    case ClientNode(id) => id in c.clients
  }

  /** A connection that refuses a message is dropped. */
  function AfterAttempt(c: Connections, a: Attempt): Connections {
    if a.ok then c
    else
      match a.to
      case PeerNode(id) => c.(slots := c.slots - {id})
      case ClientNode(id) => c.(clients := c.clients - {id})
  }

  function AfterAttempts(c: Connections, attempts: seq<Attempt>): Connections {
    if attempts == [] then c
    else AfterAttempt(AfterAttempts(c, attempts[..|attempts| - 1]), attempts[|attempts| - 1])
  }

  predicate Delivered(c: Connections, a: Attempt) {
    Connected(c, a.to) && a.ok
  }

  lemma {:induction false} ConnectedAfter(c: Connections, attempts: seq<Attempt>, to: Recipient)
    ensures Connected(AfterAttempts(c, attempts), to) <==>
            Connected(c, to) && Attempt(to, false) !in attempts
  {
    if attempts != [] {
      var before := attempts[..|attempts| - 1];
      ConnectedAfter(c, before, to);
      assert attempts == before + [attempts[|attempts| - 1]];
    }
  }

  /** A recipient gets a prefix of what is sent to it: all up to the first refusal and
      nothing after it, whatever happens to other connections in between. */
  lemma DeliveredIff(c: Connections, attempts: seq<Attempt>, i: nat)
    requires i < |attempts|
    ensures Delivered(AfterAttempts(c, attempts[..i]), attempts[i]) <==>
            Connected(c, attempts[i].to) && Attempt(attempts[i].to, false) !in attempts[..i + 1]
  {
    ConnectedAfter(c, attempts[..i], attempts[i].to);
    assert attempts[..i + 1] == attempts[..i] + [attempts[i]];
  }

  class Network {
    const peers: seq<nat>
    var peerConnections: seq<Option<nat>>
    var clientConnections: set<nat>

    ghost predicate Valid()
      reads this
    {
      Distinct(peers) && |peerConnections| == |peers|
    }

    ghost function Slots(): map<nat, nat>
      reads this
      requires Valid()
    {
      SlotsOf(peers, peerConnections)
    }

    ghost function Abstract(): Connections
      reads this
      requires Valid()
    {
      Connections(Slots(), clientConnections)
    }

    constructor (peers: seq<nat>)
      requires Distinct(peers)
      ensures this.peers == peers
      ensures Valid() && Abstract() == Connections(map[], {})
    {
      this.peers := peers;
      peerConnections := seq(|peers|, _ => None);
      clientConnections := {};
    }

    /** One iteration of the start-up loop; a connection to an unknown peer would panic. */
    method Install(n: NewConnection)
      requires Valid() && (n.ToPeer? ==> n.peer in peers)
      modifies this
      ensures Valid() && Abstract() == Installed(old(Abstract()), n)
      ensures clientConnections == old(clientConnections) + if n.ToClient? then {n.id} else {}
      ensures forall i :: 0 <= i < |peers| ==>
                peerConnections[i] == if n.ToPeer? && n.peer == peers[i] then Some(n.stream) else old(peerConnections)[i]
    {
      match n {
        case ToPeer(peer, stream) =>
          IdxFindsFirst(peers, peer);
          var peerIdx := ClusterIdToIdx(peers, peer).value;
          SlotFilled(peers, peerConnections, peerIdx, stream);
          peerConnections := peerConnections[peerIdx := Some(stream)];
        case ToClient(id) =>
          clientConnections := clientConnections + {id};
      }
    }

    method AllClusterConnected() returns (all: bool)
      requires Valid()
      ensures all <==> Slots().Keys == Members(peers)
      ensures all <==> forall i :: 0 <= i < |peers| ==> peerConnections[i].Some?
    {
      all := true;
      for i := 0 to |peerConnections|
        invariant all <==> forall j :: 0 <= j < i ==> peerConnections[j].Some?
      {
        all := all && peerConnections[i].Some?;
      }
      if all {
        assert forall i :: 0 <= i < |peers| ==> peers[i] in Slots();
      } else {
        var j :| 0 <= j < |peerConnections| && !peerConnections[j].Some?;
        assert peers[j] !in Slots() && peers[j] in peers;
      }
    }

    /** Install connections as they arrive until the mesh and the clients are complete, that
        is, up to the first non-empty prefix of `source` that is enough. `taken` is how many
        were consumed; the rest of `source` is dropped. */
    method InitializeConnections(source: seq<NewConnection>, numClients: nat) returns (taken: nat, ready: bool)
      requires Valid()
      requires forall i :: 0 <= i < |source| && source[i].ToPeer? ==> source[i].peer in peers
      modifies this
      ensures Valid() && taken <= |source|
      ensures Abstract() == InstalledAll(old(Abstract()), source[..taken])
      ensures ready ==> taken > 0 && Complete(Abstract(), Members(peers), numClients)
      ensures !ready ==> taken == |source|
      ensures forall k :: 0 < k <= taken && (k < taken || !ready) ==>
                !Complete(InstalledAll(old(Abstract()), source[..k]), Members(peers), numClients)
      ensures clientConnections == old(clientConnections) + (set n | n in source[..taken] && n.ToClient? :: n.id)
      ensures FilledBy(peers, old(peerConnections), peerConnections, source[..taken])
      ensures ready ==> Enough(peers, old(peerConnections), old(clientConnections), source[..taken], numClients)
      ensures forall k :: 0 < k <= taken && (k < taken || !ready) ==>
                !Enough(peers, old(peerConnections), old(clientConnections), source[..k], numClients)
    {
      hide Complete, Enough, FilledBy, InstalledAll, SlotsOf, Installed;
      assert source[..0] == [];
      NothingInstalled(Abstract());
      taken, ready := 0, false;
      while taken < |source|
        invariant Valid() && taken <= |source| && !ready
        invariant Abstract() == InstalledAll(old(Abstract()), source[..taken])
        invariant forall k :: 0 < k <= taken ==>
                    !Complete(InstalledAll(old(Abstract()), source[..k]), Members(peers), numClients)
      {
        InstalledNext(old(Abstract()), source, taken);
        Install(source[taken]);
        taken := taken + 1;
        var allClientsConnected := |clientConnections| >= numClients;
        var allClusterConnected := AllClusterConnected();
        CompleteTest(Abstract(), Members(peers), numClients);
        if allClientsConnected && allClusterConnected {
          ready := true;
          break;
        }
      }
      SlotsReadOff(peers, old(peerConnections), peerConnections, old(clientConnections), source[..taken]);
      CompleteIffEnough(peers, old(peerConnections), old(clientConnections), source[..taken], numClients);
      NoneEnough(peers, old(peerConnections), old(clientConnections), source, numClients,
                 if ready then taken - 1 else taken);
    }

    /** Sending to a node that is no peer is only logged. */
    method SendToCluster(to: nat, ok: bool) returns (delivered: bool)
      requires Valid()
      modifies this
      ensures Valid() && Abstract() == AfterAttempt(old(Abstract()), Attempt(PeerNode(to), ok))
      ensures delivered <==> Delivered(old(Abstract()), Attempt(PeerNode(to), ok))
      ensures delivered <==> ok && exists i :: 0 <= i < |peers| && peers[i] == to && old(peerConnections)[i].Some?
      ensures clientConnections == old(clientConnections)
      ensures forall i :: 0 <= i < |peers| ==>
                peerConnections[i] == if peers[i] == to && !ok then None else old(peerConnections)[i]
    {
      hide SlotsOf;
      delivered := false;
      IdxFindsFirst(peers, to);
      SlotsAreOfPeers(peers, peerConnections);
      match ClusterIdToIdx(peers, to)
      case Some(idx) =>
        match peerConnections[idx] {
          case Some(_) =>
            SlotsOfAt(peers, peerConnections, idx);
            delivered := ok;
            if !ok {
              SlotCleared(peers, peerConnections, idx);
              peerConnections := peerConnections[idx := None];
            }
          case None =>
            SlotsOfAt(peers, peerConnections, idx);
        }
      case None =>
    }

    method SendToClient(to: nat, ok: bool) returns (delivered: bool)
      requires Valid()
      modifies this
      ensures Valid() && Abstract() == AfterAttempt(old(Abstract()), Attempt(ClientNode(to), ok))
      ensures delivered <==> Delivered(old(Abstract()), Attempt(ClientNode(to), ok))
      ensures delivered <==> ok && to in old(clientConnections)
      ensures peerConnections == old(peerConnections)
      ensures clientConnections == old(clientConnections) - if ok then {} else {to}
    {
      delivered := false;
      if to in clientConnections {
        delivered := ok;
        if !ok {
          clientConnections := clientConnections - {to};
        }
      }
    }
  }
}
