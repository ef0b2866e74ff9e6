/** One client: numbering requests, matching responses, and deciding when it is done. */
module ClientModel {
  import opened KeyValue
  import opened ServerModel

  datatype RequestData = RequestData(requestTime: int, write: bool, responseTime: Option<int>)

  /** `panicked` records an index out of bounds in `new_response`. */
  datatype ClientState = ClientState(
    nextId: nat,
    requests: seq<RequestData>,
    responseCount: nat,
    finalCount: Option<nat>,
    panicked: bool)

  const Fresh := ClientState(0, [], 0, None, false)

  function Requested(c: ClientState, write: bool, now: int): ClientState {
    c.(nextId := c.nextId + 1, requests := c.requests + [RequestData(now, write, None)])
  }

  function Responded(c: ClientState, id: nat, now: int): ClientState {
    if id < |c.requests| then
      c.(requests := c.requests[id := c.requests[id].(responseTime := Some(now))],
         responseCount := c.responseCount + 1)
    else c.(panicked := true)
  }

  function Received(c: ClientState, msg: ServerMessage, now: int): ClientState {
    match msg
    case StartSignal(_) => c
    case Write(id) => Responded(c, id, now)
    case Read(id, _) => Responded(c, id, now)
  }

  /** A client goes down exactly on a response to a request it never sent. */
  lemma PanicsIff(c: ClientState, msg: ServerMessage, now: int)
    ensures Received(c, msg, now).panicked <==>
            c.panicked || (!msg.StartSignal? && msg.id >= |c.requests|)
  {
  }

  predicate Finished(c: ClientState) {
    c.finalCount.Some? && c.responseCount >= c.finalCount.value
  }

  predicate Answered(c: ClientState, id: nat) {
    id < |c.requests| && c.requests[id].responseTime.Some?
  }

  /** The number of requests with a response time. */
  function CountAnswered(requests: seq<RequestData>): nat {
    if requests == [] then 0
    else CountAnswered(requests[..|requests| - 1]) + if requests[|requests| - 1].responseTime.Some? then 1 else 0
  }

  lemma {:induction false} CountBounds(requests: seq<RequestData>)
    ensures CountAnswered(requests) <= |requests|
    ensures CountAnswered(requests) == |requests| <==>
            forall i :: 0 <= i < |requests| ==> requests[i].responseTime.Some?
  {
    if requests != [] {
      CountBounds(requests[..|requests| - 1]);
    }
  }

  lemma CountIsAll(c: ClientState)
    ensures CountAnswered(c.requests) <= |c.requests|
    ensures CountAnswered(c.requests) == |c.requests| <==> forall id: nat :: id < |c.requests| ==> Answered(c, id)
  {
    CountBounds(c.requests);
    if forall id: nat :: id < |c.requests| ==> Answered(c, id) {
      forall i | 0 <= i < |c.requests|
        ensures c.requests[i].responseTime.Some?
      {
        assert Answered(c, i);
      }
    }
  }

  lemma {:induction false} CountOneMore(requests: seq<RequestData>, id: nat, now: int)
    requires id < |requests| && requests[id].responseTime.None?
    ensures CountAnswered(requests[id := requests[id].(responseTime := Some(now))]) == CountAnswered(requests) + 1
  {
    var n, after := |requests| - 1, requests[id := requests[id].(responseTime := Some(now))];
    if id < n {
      CountOneMore(requests[..n], id, now);
      assert after[..n] == requests[..n][id := requests[id].(responseTime := Some(now))];
    } else {
      assert after[..n] == requests[..n];
    }
  }

  function Decimal(n: nat): string {
    if n < 10 then ["0123456789"[n]] else Decimal(n / 10) + ["0123456789"[n % 10]]
  }

  /** The number a string of digits stands for. */
  function ValueOf(digits: string): nat {
    if digits == "" then 0
    else 10 * ValueOf(digits[..|digits| - 1]) + DigitValue(digits[|digits| - 1])
  }

  function DigitValue(d: char): nat {
    if '0' <= d <= '9' then d as int - '0' as int else 0
  }

  lemma DigitHasValue(d: nat)
    requires d < 10
    ensures '0' <= "0123456789"[d] <= '9' && DigitValue("0123456789"[d]) == d
    ensures "0123456789"[d] == '0' <==> d == 0
  {
  }

  lemma ValueNext(digits: string, d: char)
    ensures ValueOf(digits + [d]) == 10 * ValueOf(digits) + DigitValue(d)
  {
    assert (digits + [d])[..|digits|] == digits;
  }

  /** The key of a request is the decimal numeral of its number, without leading zeros. */
  lemma {:induction false} DecimalIsNumeral(n: nat)
    ensures ValueOf(Decimal(n)) == n
    ensures Decimal(n) != "" && forall i :: 0 <= i < |Decimal(n)| ==> '0' <= Decimal(n)[i] <= '9'
    ensures Decimal(n)[0] == '0' ==> n == 0 && |Decimal(n)| == 1
  {
    DigitHasValue(n % 10);
    if n >= 10 {
      DecimalIsNumeral(n / 10);
      ValueNext(Decimal(n / 10), "0123456789"[n % 10]);
    } else {
      ValueNext("", "0123456789"[n]);
      assert "" + ["0123456789"[n]] == ["0123456789"[n]];
    }
  }

  /** Different requests use different keys. */
  lemma DecimalInjective(m: nat, n: nat)
    requires Decimal(m) == Decimal(n)
    ensures m == n
  {
    DecimalIsNumeral(m);
    DecimalIsNumeral(n);
  }

  class ClientData {
    var requestData: seq<RequestData>
    var responseCount: nat

    constructor ()
      ensures requestData == [] && responseCount == 0
    {
      requestData, responseCount := [], 0;
    }

    method NewRequest(isWrite: bool, now: int)
      modifies this`requestData
      ensures requestData == old(requestData) + [RequestData(now, isWrite, None)]
    {
      var data := RequestData(now, isWrite, None);
      requestData := requestData + [data];
    }

    /** An unknown id is an index out of bounds. */
    method NewResponse(commandId: nat, now: int)
      requires commandId < |requestData|
      modifies this
      ensures requestData == old(requestData[commandId := requestData[commandId].(responseTime := Some(now))])
      ensures responseCount == old(responseCount) + 1
    {
      requestData := requestData[commandId := requestData[commandId].(responseTime := Some(now))];
      responseCount := responseCount + 1;
    }

    function ResponseCount(): nat
      reads this
    {
      responseCount
    }

    function RequestCount(): nat
      reads this
    {
      |requestData|
    }
  }

  class Client {
    const clientData: ClientData
    var finalRequestCount: Option<nat>
    var nextRequestId: nat
    /** Messages sent to the server, oldest first. */
    var sent: seq<ClientMessage>

    function Abstract(): ClientState
      reads this, clientData
    {
      ClientState(nextRequestId, clientData.requestData, clientData.responseCount, finalRequestCount, false)
    }

    constructor ()
      ensures fresh(clientData) && Abstract() == Fresh && sent == []
    {
      clientData := new ClientData();
      finalRequestCount, nextRequestId, sent := None, 0, [];
    }

    method SendRequest(isWrite: bool, now: int)
      modifies this`sent, this`nextRequestId, clientData
      ensures Abstract() == Requested(old(Abstract()), isWrite, now)
      ensures nextRequestId == old(nextRequestId) + 1 && clientData.responseCount == old(clientData.responseCount)
      ensures clientData.requestData == old(clientData.requestData) + [RequestData(now, isWrite, None)]
      ensures var key := Decimal(old(nextRequestId));
              sent == old(sent) + [Append(old(nextRequestId), if isWrite then Put(key, key) else Get(key))]
    {
      var key := Decimal(nextRequestId);
      var cmd := if isWrite then Put(key, key) else Get(key);
      sent := sent + [Append(nextRequestId, cmd)];
      clientData.NewRequest(isWrite, now);
      nextRequestId := nextRequestId + 1;
    }

    method HandleServerMessage(msg: ServerMessage, now: int)
      requires msg.StartSignal? || msg.id < |clientData.requestData|
      modifies clientData
      ensures Abstract() == Received(old(Abstract()), msg, now)
      ensures msg.StartSignal? ==> Abstract() == old(Abstract())
      ensures !msg.StartSignal? ==>
                && |clientData.requestData| == |old(clientData.requestData)|
                && clientData.requestData[msg.id] == old(clientData.requestData[msg.id]).(responseTime := Some(now))
                && (forall i :: 0 <= i < |clientData.requestData| && i != msg.id ==>
                      clientData.requestData[i] == old(clientData.requestData)[i])
                && clientData.responseCount == old(clientData.responseCount) + 1
    {
      match msg {
        case StartSignal(_) =>
        case Write(id) => clientData.NewResponse(id, now);
        case Read(id, _) => clientData.NewResponse(id, now);
      }
    }

    /** The last request interval has ended: no request is sent any more. */
    method LastIntervalEnded()
      modifies this`finalRequestCount
      ensures Abstract() == old(Abstract()).(finalCount := Some(|clientData.requestData|))
    {
      finalRequestCount := Some(clientData.RequestCount());
    }

    method RunFinished() returns (done: bool)
      ensures done == Finished(Abstract())
      ensures done <==> finalRequestCount.Some? && clientData.responseCount >= finalRequestCount.value
    {
      if finalRequestCount.Some? {
        if clientData.ResponseCount() >= finalRequestCount.value {
          return true;
        }
      }
      return false;
    }
  }
}
