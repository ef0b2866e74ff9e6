/** One server: applying decided commands and answering its own clients. */
module ServerModel {
  import opened KeyValue

  datatype ServerMessage =
    | Write(id: nat)
    | Read(id: nat, value: Option<string>)
    | StartSignal(time: int)

  datatype ClientMessage = Append(id: nat, kv: KVCommand)

  /** `OmniPaxosMessage(decided)` stands for a message of the consensus library after which
      `decided` is the decided log this server sees. */
  datatype ClusterMessage = OmniPaxosMessage(decided: seq<Command>) | LeaderStartSignal(time: int)

  /** A message handed to `send_to_client`. */
  datatype Outgoing = Outgoing(to: nat, msg: ServerMessage)

  function ResponseTo(db: Store, cmd: Command): ServerMessage {
    match Answer(db, cmd.kv)
    case Some(result) => Read(cmd.id, result)
    case None => Write(cmd.id)
  }

  /** What server `self` hands to its clients while applying `cmds` to `db`, in order. */
  function Responses(self: nat, db: Store, cmds: seq<Command>): seq<Outgoing> {
    if cmds == [] then []
    else
      var before, last := cmds[..|cmds| - 1], cmds[|cmds| - 1];
      Responses(self, db, before) +
      if last.coordinatorId == self then [Outgoing(last.clientId, ResponseTo(Replay(db, before), last))] else []
  }

  /** A server answers its own commands and no others: a Get with what is stored under the
      key, a write with its id. */
  lemma ResponsesOfOne(self: nat, db: Store, cmd: Command)
    ensures Responses(self, db, [cmd]) ==
            if cmd.coordinatorId != self then []
            else if cmd.kv.Get? then
              [Outgoing(cmd.clientId, Read(cmd.id, if cmd.kv.key in db then Some(db[cmd.kv.key]) else None))]
            else [Outgoing(cmd.clientId, Write(cmd.id))]
  {
    assert [cmd][..0] == [];
  }

  /** Batch boundaries do not matter. */
  lemma {:induction false} ResponsesConcat(self: nat, db: Store, a: seq<Command>, b: seq<Command>)
    ensures Responses(self, db, a + b) == Responses(self, db, a) + Responses(self, Replay(db, a), b)
  {
    if b == [] {
      assert a + b == a;
    } else {
      var b', last := b[..|b| - 1], b[|b| - 1];
      assert (a + b)[..|a + b| - 1] == a + b';
      ResponsesConcat(self, db, a, b');
      ReplayConcat(db, a, b');
    }
  }

  /** The decided log after the library has handled the messages. */
  function DecidedAfter(log: seq<Command>, messages: seq<ClusterMessage>): seq<Command> {
    if messages == [] then log
    else
      match messages[|messages| - 1]
      case OmniPaxosMessage(decided) => decided
      case LeaderStartSignal(_) => DecidedAfter(log, messages[..|messages| - 1])
  }

  /** `i` is the last message of the consensus library. */
  ghost predicate LastOfLibrary(messages: seq<ClusterMessage>, i: nat) {
    i < |messages| && messages[i].OmniPaxosMessage?
    && forall j :: i < j < |messages| ==> messages[j].LeaderStartSignal?
  }

  lemma {:induction false} DecidedIsLast(log: seq<Command>, messages: seq<ClusterMessage>)
    ensures forall i: nat :: LastOfLibrary(messages, i) ==> DecidedAfter(log, messages) == messages[i].decided
    ensures (forall i :: 0 <= i < |messages| ==> messages[i].LeaderStartSignal?) ==> DecidedAfter(log, messages) == log
    ensures DecidedAfter(log, messages) == log
            || exists i: nat :: i < |messages| && messages[i].OmniPaxosMessage? && DecidedAfter(log, messages) == messages[i].decided
  {
    if messages != [] {
      var before := messages[..|messages| - 1];
      DecidedIsLast(log, before);
      forall i: nat | LastOfLibrary(messages, i) && i < |before|
        ensures LastOfLibrary(before, i)
      {
      }
    }
  }

  /** The library's log only grows. */
  ghost predicate Growing(log: seq<Command>, messages: seq<ClusterMessage>) {
    && (forall i :: 0 <= i < |messages| && messages[i].OmniPaxosMessage? ==> log <= messages[i].decided)
    && (forall i, j :: 0 <= i < j < |messages| && messages[i].OmniPaxosMessage? && messages[j].OmniPaxosMessage? ==>
          messages[i].decided <= messages[j].decided)
  }

  /** Start signals to clients `1 .. numClients`, in order. */
  function ClientSignals(numClients: nat, time: int): seq<(nat, int)> {
    seq(numClients, i => (i + 1, time))
  }

  function SignalsFor(numClients: nat, messages: seq<ClusterMessage>): seq<(nat, int)> {
    if messages == [] then []
    else
      SignalsFor(numClients, messages[..|messages| - 1]) +
      match messages[|messages| - 1]
      case LeaderStartSignal(time) => ClientSignals(numClients, time)
      case OmniPaxosMessage(_) => []
  }

  lemma {:induction false} SignalsForConcat(numClients: nat, a: seq<ClusterMessage>, b: seq<ClusterMessage>)
    ensures SignalsFor(numClients, a + b) == SignalsFor(numClients, a) + SignalsFor(numClients, b)
  {
    if b == [] {
      assert a + b == a;
    } else {
      assert (a + b)[..|a + b| - 1] == a + b[..|b| - 1];
      SignalsForConcat(numClients, a, b[..|b| - 1]);
    }
  }

  /** Each start signal makes the server signal the clients numbered from 1 up to `numClients`,
      between the signals for the messages before and after it; other messages cause none. */
  lemma SignalsOfMessage(numClients: nat, a: seq<ClusterMessage>, m: ClusterMessage, b: seq<ClusterMessage>)
    ensures SignalsFor(numClients, []) == []
    ensures SignalsFor(numClients, a + [m] + b) ==
            SignalsFor(numClients, a)
            + (if m.LeaderStartSignal? then seq(numClients, i => (i + 1, m.time)) else [])
            + SignalsFor(numClients, b)
  {
    SignalsForConcat(numClients, a + [m], b);
    SignalsForConcat(numClients, a, [m]);
    assert [m][..0] == [];
    assert SignalsFor(numClients, [m]) ==
           SignalsFor(numClients, []) + if m.LeaderStartSignal? then ClientSignals(numClients, m.time) else [];
  }

  lemma NoMessages(log: seq<Command>, numClients: nat)
    ensures DecidedAfter(log, []) == log && SignalsFor(numClients, []) == []
  {
  }

  /** What one more message adds. */
  lemma SignalsNext(numClients: nat, messages: seq<ClusterMessage>, i: nat)
    requires i < |messages|
    ensures SignalsFor(numClients, messages[..i + 1]) ==
            SignalsFor(numClients, messages[..i])
            + if messages[i].LeaderStartSignal? then ClientSignals(numClients, messages[i].time) else []
  {
    hide ClientSignals;
    assert messages[..i + 1][..i] == messages[..i];
  }

  lemma DecidedNext(log: seq<Command>, messages: seq<ClusterMessage>, i: nat)
    requires i < |messages|
    ensures DecidedAfter(log, messages[..i + 1]) ==
            if messages[i].OmniPaxosMessage? then messages[i].decided else DecidedAfter(log, messages[..i])
  {
    assert messages[..i + 1][..i] == messages[..i];
  }

  lemma DecidedGrows(log: seq<Command>, messages: seq<ClusterMessage>, i: nat)
    requires Growing(log, messages) && i < |messages| && messages[i].OmniPaxosMessage?
    ensures DecidedAfter(log, messages[..i]) <= messages[i].decided
  {
    hide DecidedAfter;
    DecidedIsLast(log, messages[..i]);
  }

  lemma DecidedReadOff(log: seq<Command>, messages: seq<ClusterMessage>)
    ensures forall i: nat ::
              (i < |messages| && messages[i].OmniPaxosMessage?
               && (forall j :: i < j < |messages| ==> messages[j].LeaderStartSignal?)) ==>
              DecidedAfter(log, messages) == messages[i].decided
    ensures (forall i :: 0 <= i < |messages| ==> messages[i].LeaderStartSignal?) ==> DecidedAfter(log, messages) == log
  {
    DecidedIsLast(log, messages);
    forall i: nat | i < |messages| && messages[i].OmniPaxosMessage?
      && (forall j :: i < j < |messages| ==> messages[j].LeaderStartSignal?)
      ensures DecidedAfter(log, messages) == messages[i].decided
    {
      assert LastOfLibrary(messages, i);
    }
  }

  class OmniPaxosServer {
    const id: nat
    const numClients: nat
    const peers: seq<nat>
    const database: Database
    var currentDecidedIdx: nat
    /** Calls of `send_to_client`, oldest first. */
    var sent: seq<Outgoing>
    /** Calls of `append_with_id`, oldest first. */
    var appended: seq<Command>
    /** Start signals sent to clients and to peers, oldest first. */
    var clientSignals: seq<(nat, int)>
    var peerSignals: seq<(nat, int)>

    constructor (id: nat, numClients: nat, peers: seq<nat>)
      ensures this.id == id && this.numClients == numClients && this.peers == peers && fresh(database)
      ensures currentDecidedIdx == 0 && sent == [] && appended == [] && database.db == map[]
      ensures clientSignals == [] && peerSignals == []
    {
      this.id, this.numClients, this.peers := id, numClients, peers;
      database := new Database();
      currentDecidedIdx, sent, appended := 0, [], [];
      clientSignals, peerSignals := [], [];
    }

    /** The server has applied exactly the first `currentDecidedIdx` entries of `log`. */
    ghost predicate AppliedPrefixOf(log: seq<Command>)
      reads this, database
    {
      && currentDecidedIdx <= |log|
      && database.db == Replay(map[], log[..currentDecidedIdx])
      && sent == Responses(id, map[], log[..currentDecidedIdx])
    }

    method UpdateDatabaseAndRespond(commands: seq<Command>)
      modifies this`sent, database
      ensures database.db == Replay(old(database.db), commands)
      ensures sent == old(sent) + Responses(id, old(database.db), commands)
    {
      ghost var db := database.db;
      for i := 0 to |commands|
        invariant database.db == Replay(db, commands[..i])
        invariant sent == old(sent) + Responses(id, db, commands[..i])
      {
        assert commands[..i + 1][..i] == commands[..i];
        var command := commands[i];
        var read := database.HandleCommand(command.kv);
        if command.coordinatorId == id {
          var response := match read
            case Some(readResult) => Read(command.id, readResult)
            case None => Write(command.id);
          sent := sent + [Outgoing(command.clientId, response)];
        }
      }
      assert commands[..|commands|] == commands;
    }

    /** `decided` is the decided log of the consensus library as this server sees it. */
    method HandleDecidedEntries(decided: seq<Command>)
      modifies this`sent, this`currentDecidedIdx, database
      ensures old(currentDecidedIdx) >= |decided| ==>
                unchanged(this) && unchanged(database)
      ensures old(currentDecidedIdx) < |decided| ==>
                && currentDecidedIdx == |decided|
                && database.db == Replay(old(database.db), decided[old(currentDecidedIdx)..])
                && sent == old(sent) + Responses(id, old(database.db), decided[old(currentDecidedIdx)..])
      ensures old(AppliedPrefixOf(decided)) ==> AppliedPrefixOf(decided) && currentDecidedIdx == |decided|
    {
      var newDecidedIdx := |decided|;
      if currentDecidedIdx < newDecidedIdx {
        var suffix := decided[currentDecidedIdx..];
        ghost var prefix := decided[..currentDecidedIdx];
        assert prefix + suffix == decided == decided[..newDecidedIdx];
        ReplayConcat(map[], prefix, suffix);
        ResponsesConcat(id, map[], prefix, suffix);
        currentDecidedIdx := newDecidedIdx;
        UpdateDatabaseAndRespond(suffix);
      } else {
        assert currentDecidedIdx == |decided| ==> decided[..currentDecidedIdx] == decided;
      }
    }

    method AppendToLog(from: nat, commandId: nat, kv: KVCommand)
      modifies this`appended
      ensures appended == old(appended) + [Command(from, id, commandId, kv)]
    {
      var command := Command(from, id, commandId, kv);
      appended := appended + [command];
    }

    /** Every buffered request is appended once, in order, stamped with its sender and this server. */
    method HandleClientMessages(messages: seq<(nat, ClientMessage)>)
      modifies this`appended
      ensures |appended| == |old(appended)| + |messages| && old(appended) <= appended
      ensures forall i :: 0 <= i < |messages| ==>
                appended[|old(appended)| + i]
                == Command(messages[i].0, id, messages[i].1.id, messages[i].1.kv)
    {
      for i := 0 to |messages|
        invariant |appended| == |old(appended)| + i && old(appended) <= appended
        invariant forall j :: 0 <= j < i ==>
                    appended[|old(appended)| + j]
                    == Command(messages[j].0, id, messages[j].1.id, messages[j].1.kv)
      {
        var (from, message) := messages[i];
        AppendToLog(from, message.id, message.kv);
      }
    }

    /** Every message moves the log on or relays the start; the result says whether a start
        signal was among them. */
    method HandleClusterMessages(messages: seq<ClusterMessage>, ghost log: seq<Command>) returns (start: bool)
      requires AppliedPrefixOf(log) && currentDecidedIdx == |log| && Growing(log, messages)
      modifies this`sent, this`currentDecidedIdx, this`clientSignals, database
      ensures AppliedPrefixOf(DecidedAfter(log, messages))
      ensures currentDecidedIdx == |DecidedAfter(log, messages)|
      ensures forall i: nat ::
                (i < |messages| && messages[i].OmniPaxosMessage?
                 && (forall j :: i < j < |messages| ==> messages[j].LeaderStartSignal?)) ==>
                AppliedPrefixOf(messages[i].decided) && currentDecidedIdx == |messages[i].decided|
      ensures (forall i :: 0 <= i < |messages| ==> messages[i].LeaderStartSignal?) ==>
                currentDecidedIdx == old(currentDecidedIdx) && database.db == old(database.db) && sent == old(sent)
      ensures clientSignals == old(clientSignals) + SignalsFor(numClients, messages)
      ensures start <==> exists i :: 0 <= i < |messages| && messages[i].LeaderStartSignal?
    {
      hide Replay, Responses, ClientSignals, DecidedAfter, SignalsFor;
      assert messages[..0] == [];
      NoMessages(log, numClients);
      start := false;
      for i := 0 to |messages|
        invariant AppliedPrefixOf(DecidedAfter(log, messages[..i]))
        invariant currentDecidedIdx == |DecidedAfter(log, messages[..i])|
        invariant clientSignals == old(clientSignals) + SignalsFor(numClients, messages[..i])
        invariant start <==> exists j :: 0 <= j < i && messages[j].LeaderStartSignal?
      {
        SignalsNext(numClients, messages, i);
        DecidedNext(log, messages, i);
        match messages[i] {
          case OmniPaxosMessage(decided) =>
            ghost var seen := DecidedAfter(log, messages[..i]);
            DecidedGrows(log, messages, i);
            assert decided[..|seen|] == seen == seen[..|seen|];
            HandleDecidedEntries(decided);
          case LeaderStartSignal(time) =>
            start := true;
            SendClientStartSignals(time);
        }
      }
      assert messages[..|messages|] == messages;
      DecidedReadOff(log, messages);
    }

    method SendClusterStartSignals(time: int)
      modifies this`peerSignals
      ensures |peerSignals| == |old(peerSignals)| + |peers| && old(peerSignals) <= peerSignals
      ensures forall i :: 0 <= i < |peers| ==> peerSignals[|old(peerSignals)| + i] == (peers[i], time)
    {
      for i := 0 to |peers|
        invariant |peerSignals| == |old(peerSignals)| + i && old(peerSignals) <= peerSignals
        invariant forall j :: 0 <= j < i ==> peerSignals[|old(peerSignals)| + j] == (peers[j], time)
      {
        peerSignals := peerSignals + [(peers[i], time)];
      }
    }

    method SendClientStartSignals(time: int)
      modifies this`clientSignals
      ensures clientSignals == old(clientSignals) + ClientSignals(numClients, time)
      ensures |clientSignals| == |old(clientSignals)| + numClients && old(clientSignals) <= clientSignals
      ensures forall i :: |old(clientSignals)| <= i < |clientSignals| ==>
                clientSignals[i] == (i - |old(clientSignals)| + 1, time)
    {
      for clientId := 1 to numClients + 1
        invariant clientSignals == old(clientSignals) + ClientSignals(clientId - 1, time)
      {
        assert ClientSignals(clientId, time) == ClientSignals(clientId - 1, time) + [(clientId, time)];
        clientSignals := clientSignals + [(clientId, time)];
      }
    }
  }
}
