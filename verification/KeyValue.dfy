/** Commands, the database they are applied to, and the meaning of a log. */
module KeyValue {
  datatype Option<+T> = None | Some(value: T)

  datatype KVCommand = Put(key: string, value: string) | Delete(key: string) | Get(key: string)

  datatype Command = Command(clientId: nat, coordinatorId: nat, id: nat, kv: KVCommand)

  type Store = map<string, string>

  function Lookup(db: Store, key: string): Option<string> {
    if key in db then Some(db[key]) else None
  }

  function Apply(db: Store, cmd: KVCommand): Store {
    match cmd
    case Put(k, v) => db[k := v]
    case Delete(k) => db - {k}
    case Get(_) => db
  }

  /** `None` for a write; for a Get, what the store holds under the key. */
  function Answer(db: Store, cmd: KVCommand): Option<Option<string>> {
    match cmd
    case Get(k) => Some(Lookup(db, k))
    case _ => None
  }

  /** The store after applying a log in order. */
  function Replay(db: Store, log: seq<Command>): Store {
    if log == [] then db else Apply(Replay(db, log[..|log| - 1]), log[|log| - 1].kv)
  }

  /** The value of the latest Put or Delete on `key` in `log`, found by scanning back. */
  function LatestWrite(db: Store, log: seq<Command>, key: string): Option<string> {
    if log == [] then Lookup(db, key)
    else
      match log[|log| - 1].kv
      case Put(k, v) => if k == key then Some(v) else LatestWrite(db, log[..|log| - 1], key)
      case Delete(k) => if k == key then None else LatestWrite(db, log[..|log| - 1], key)
      case Get(_) => LatestWrite(db, log[..|log| - 1], key)
  }

  lemma {:induction false} ReplayIsLatestWrite(db: Store, log: seq<Command>, key: string)
    ensures Lookup(Replay(db, log), key) == LatestWrite(db, log, key)
  {
    if log != [] {
      ReplayIsLatestWrite(db, log[..|log| - 1], key);
    }
  }

  lemma {:induction false} ReplayConcat(db: Store, a: seq<Command>, b: seq<Command>)
    ensures Replay(db, a + b) == Replay(Replay(db, a), b)
  {
    if b == [] {
      assert a + b == a;
    } else {
      assert (a + b)[..|a + b| - 1] == a + b[..|b| - 1];
      ReplayConcat(db, a, b[..|b| - 1]);
    }
  }

  lemma SameLookups(a: Store, b: Store)
    requires forall k :: Lookup(a, k) == Lookup(b, k)
    ensures a == b
  {
    forall k
      ensures k in a <==> k in b
      ensures k in a ==> a[k] == b[k]
    {
      assert Lookup(a, k) == Lookup(b, k);
    }
  }

  class Database {
    var db: Store

    constructor ()
      ensures db == map[]
    {
      db := map[];
    }

    method HandleCommand(command: KVCommand) returns (read: Option<Option<string>>)
      modifies this
      ensures db == Apply(old(db), command)
      ensures read == Answer(old(db), command)
      ensures command.Put? ==> db == old(db)[command.key := command.value] && read == None
      ensures command.Delete? ==> db == old(db) - {command.key} && read == None
      ensures command.Get? ==>
                db == old(db)
                && read == Some(if command.key in old(db) then Some(old(db)[command.key]) else None)
    {
      match command {
        case Put(key, value) =>
          db := db[key := value];
          read := None;
        case Delete(key) =>
          db := db - {key};
          read := None;
        case Get(key) =>
          read := Some(if key in db then Some(db[key]) else None);
      }
    }
  }
}
