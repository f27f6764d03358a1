/**
 * The JSON-RPC client of python/playgodot/client.py.
 *
 * A client holds a request counter and a table from request id to the future
 * its `send` is awaiting. Replies are routed into that table by id. The
 * asyncio futures are modelled by their states (`Slot`), the WebSocket by
 * whether it exists and is open (`Socket`), and a `send`, which suspends
 * between writing its request and reading its future, by its two halves:
 * `BeginSend` and `EndSend`. Replies are decoded JSON values.
 */
module Client {
  import opened Wrappers
  import opened Json
  import Text

  const DefaultHost: string := "localhost"
  const DefaultPort: int := 9999

  /** The state of one response future. */
  datatype Slot = Pending | Resolved(result: Json) | Failed(message: Json, code: Json) | Cancelled
  {
    /** Python `future.done()`: a cancelled future is done too. */
    predicate Done()
    {
      !Pending?
    }
  }

  /** `_ws`: no connection object, or one that is open or has been closed by the peer. */
  datatype Socket = NoSocket | Open | Closed

  /** How `websockets.connect` ends. */
  datatype ConnectAttempt = Accepted | Refused | Expired

  /** The exceptions the client's coroutines raise to their callers. */
  datatype ClientError =
    | ConnectTimedOut(url: string, timeout: real)  // "Connection to {url} timed out after {timeout}s"
    | ConnectFailed(url: string)                   // "Failed to connect to {url}: {e}"
    | NotConnected                                 // "Not connected to Godot"
    | SocketClosed                                 // raised by `ws.send` on a closed socket
    | CommandError(command: string, message: Json, code: Json)
    | RequestTimedOut(command: string, timeout: real)  // "Request '{method}' timed out after {timeout}s"
    | RequestCancelled                             // the awaited future was cancelled

  /** The exceptions `_handle_response` lets escape; each one ends the receive loop. */
  datatype HandlerFault = DataNotAnObject | UnhashableId | ErrorNotAnObject

  /**
   * `_receive_task`: none, running, finished quietly because the peer closed
   * the connection, or finished with an exception `_handle_response` raised.
   */
  datatype Receiver = NoTask | Running | Ended | Crashed(fault: HandlerFault)

  /** What one inbound message does to the pending table. */
  datatype Routing = Ignore | Settle(id: nat, slot: Slot) | Fault(fault: HandlerFault)

  /** What a reply's `id` member finds when used as a key of the int-keyed table. */
  datatype KeyLookup = Unhashable | IntKey(k: int) | NoIntKey

  /** A request as `send` hands it to the socket, with the id it was given. */
  datatype Sent = Sent(id: nat, request: Json)

  /**
   * Python dictionary lookup with a decoded JSON key against `int` keys:
   * `2.0` and `True` hash and compare like `2` and `1`, a string matches
   * no `int`, and lists and dicts are unhashable.
   */
  function KeyOf(id: Json): (r: KeyLookup)
    ensures r.IntKey? ==> NumericValue(id) == Some(r.k as real)
    ensures NumericValue(id).Some? && NumericValue(id).value.Floor as real == NumericValue(id).value
            ==> r == IntKey(NumericValue(id).value.Floor)
  {
    match id
    case JBool(b) => IntKey(if b then 1 else 0)
    case JNum(n) => if n.Floor as real == n then IntKey(n.Floor) else NoIntKey
    case JArr(_) => Unhashable
    case JObj(_) => Unhashable
    case _ => NoIntKey
  }

  /** The `url` property. */
  function UrlOf(host: string, port: int): string
  {
    "ws://" + host + ":" + Text.IntToDecimal(port)
  }

  /**
   * Reads a host and a port back out of a `ws://host:port` URL, splitting at
   * the last colon, since a port never contains one.
   */
  function ParseUrl(url: string): Option<(string, int)>
  {
    if |url| >= 5 && url[..5] == "ws://" then
      var parts := Text.Split(url[5..], ':');
      if |parts| >= 2 then
        match Text.ParseInt(parts[|parts| - 1])
        case Some(p) => Some((Text.Join(parts[..|parts| - 1], ':'), p))
        case None => None
      else None
    else None
  }

  /** The URL names exactly the client's host and port. */
  lemma UrlRoundTrip(host: string, port: int)
    ensures ParseUrl(UrlOf(host, port)) == Some((host, port))
  {
    var digits := Text.IntToDecimal(port);
    var url := UrlOf(host, port);
    assert url[..5] == "ws://";
    assert url[5..] == host + [':'] + digits;
    assert ':' !in digits by {
      if port >= 0 {
        assert Text.IsDigits(digits);
      } else {
        assert digits == [digits[0]] + digits[1..];
        assert Text.IsDigits(digits[1..]);
      }
    }
    Text.SplitAround(host, digits, ':');
    Text.SplitWithoutSeparator(digits, ':');
    var parts := Text.Split(url[5..], ':');
    assert parts == Text.Split(host, ':') + [digits];
    assert parts[..|parts| - 1] == Text.Split(host, ':');
    Text.JoinSplit(host, ':');
    Text.IntRoundTrip(port);
  }

  /** Python `if params:` on `dict | None`. */
  predicate HasParams(params: Option<map<string, Json>>)
  {
    params.Some? && params.value != map[]
  }

  /**
   * The request dictionary `send` builds before encoding it: the protocol
   * version, the id and the method, and the parameters only when they are
   * truthy.
   */
  function RequestObject(id: nat, command: string, params: Option<map<string, Json>>): (r: Json)
    ensures r.JObj?
    ensures r.fields.Keys == {"jsonrpc", "id", "method"} + (if HasParams(params) then {"params"} else {})
    ensures r.fields["jsonrpc"] == JStr("2.0") && r.fields["id"] == JNum(id as real) && r.fields["method"] == JStr(command)
    ensures HasParams(params) ==> r.fields["params"] == JObj(params.value)
  {
    var base := map["jsonrpc" := JStr("2.0"), "id" := JNum(id as real), "method" := JStr(command)];
    JObj(if HasParams(params) then base["params" := JObj(params.value)] else base)
  }

  /** The members of a request object of section 4 of the JSON-RPC 2.0 specification. */
  datatype Call = Call(id: Json, command: string, params: Option<Json>)

  /**
   * Reads a JSON-RPC 2.0 request object (section 4 of that specification):
   * `jsonrpc` is exactly "2.0", `method` is a string, `id` (present, since
   * this is not a notification) is a number, a string or null, `params`
   * when present is an array or an object, and there are no other members.
   */
  function ReadCall(j: Json): Option<Call>
  {
    match j
    case JObj(f) =>
      if f.Keys <= {"jsonrpc", "id", "method", "params"}
         && "jsonrpc" in f && f["jsonrpc"] == JStr("2.0")
         && "method" in f && f["method"].JStr?
         && "id" in f && (f["id"].JNum? || f["id"].JStr? || f["id"].JNull?)
         && ("params" in f ==> f["params"].JArr? || f["params"].JObj?)
      then Some(Call(f["id"], f["method"].s, if "params" in f then Some(f["params"]) else None))
      else None
    case _ => None
  }

  /**
   * Every request `send` builds is a JSON-RPC 2.0 request object carrying
   * its id and method, and a `params` member exactly when the parameters
   * are present and non-empty.
   */
  lemma RequestIsJsonRpc(id: nat, command: string, params: Option<map<string, Json>>)
    ensures ReadCall(RequestObject(id, command, params))
            == Some(Call(JNum(id as real), command, if HasParams(params) then Some(JObj(params.value)) else None))
  {
    var f := RequestObject(id, command, params).fields;
    if HasParams(params) {
      assert f.Keys == {"jsonrpc", "id", "method", "params"};
    } else {
      assert f.Keys == {"jsonrpc", "id", "method"};
    }
  }

  /** Empty parameters and absent parameters build the same request. */
  lemma EmptyParamsOmitted(id: nat, command: string)
    ensures RequestObject(id, command, Some(map[])) == RequestObject(id, command, None)
    ensures "params" !in RequestObject(id, command, None).fields
  {
  }

  /** The slot a reply for a still-pending future settles it to. */
  function Settlement(fields: map<string, Json>): Routing
  {
    if "error" in fields then
      match fields["error"]
      case JObj(err) => Settle(0, Failed(GetOr(err, "message", JStr("Unknown error")), Get(err, "code")))
      case _ => Fault(ErrorNotAnObject)
    else Settle(0, Resolved(Get(fields, "result")))
  }

  /**
   * `_handle_response` on a decoded message, given the pending table: the id
   * is read with `data.get("id")`, looked up with Python's hashing, and only
   * a future that is in the table and not yet done is settled.
   */
  function Route(data: Json, table: map<nat, Slot>): (r: Routing)
    ensures r.Settle? ==> r.id in table && table[r.id] == Pending && r.slot.Done() && !r.slot.Cancelled?
  {
    match data
    case JObj(fields) =>
      var id := Get(fields, "id");
      if id == JNull then Ignore
      else
        (match KeyOf(id)
         case Unhashable => Fault(UnhashableId)
         case NoIntKey => Ignore
         case IntKey(k) =>
           if k < 0 || k as nat !in table || table[k as nat].Done() then Ignore
           else
             (match Settlement(fields)
              case Settle(_, slot) => Settle(k as nat, slot)
              case other => other))
    case _ => Fault(DataNotAnObject)
  }

  /** A reply without an id, or with id null, is a notification and changes nothing. */
  lemma NotificationIgnored(fields: map<string, Json>, table: map<nat, Slot>)
    requires "id" !in fields || fields["id"] == JNull
    ensures Route(JObj(fields), table) == Ignore
  {
  }

  /**
   * A reply whose id names no future in the table, or a future that is done
   * (for instance one cancelled when its request timed out), is dropped.
   */
  lemma LateReplyDropped(fields: map<string, Json>, table: map<nat, Slot>, id: nat)
    requires "id" in fields && fields["id"] == JNum(id as real)
    requires id !in table || table[id].Done()
    ensures Route(JObj(fields), table) == Ignore
  {
  }

  /**
   * More generally, a reply whose hashable id equals, in Python's `==`, the
   * id of no pending future is dropped: a string, negative, fractional or
   * boolean id included.
   */
  lemma UnmatchedReplyIgnored(fields: map<string, Json>, table: map<nat, Slot>)
    requires "id" in fields && !fields["id"].JArr? && !fields["id"].JObj?
    requires forall k: nat :: k in table && table[k] == Pending ==> !PyEq(fields["id"], JNum(k as real))
    ensures Route(JObj(fields), table) == Ignore
  {
  }

  /** Once a reply has settled a future, no later reply can settle it again. */
  lemma FirstReplyWins(first: Json, later: Json, table: map<nat, Slot>)
    requires Route(first, table).Settle?
    ensures var s := Route(first, table);
            !(Route(later, table[s.id := s.slot]).Settle? && Route(later, table[s.id := s.slot]).id == s.id)
  {
  }

  /**
   * A reply echoing the id of a pending request settles exactly that request:
   * with the error's `message` (or "Unknown error") and `code` when it carries
   * an `error` object, and otherwise with its `result` (or null).
   */
  lemma EchoedReplySettles(id: nat, command: string, params: Option<map<string, Json>>,
                           fields: map<string, Json>, table: map<nat, Slot>)
    requires "id" in fields && fields["id"] == RequestObject(id, command, params).fields["id"]
    requires id in table && table[id] == Pending
    requires "error" in fields ==> fields["error"].JObj?
    ensures Route(JObj(fields), table) ==
      if "error" in fields then
        Settle(id, Failed(GetOr(fields["error"].fields, "message", JStr("Unknown error")),
                          Get(fields["error"].fields, "code")))
      else Settle(id, Resolved(Get(fields, "result")))
  {
    assert KeyOf(JNum(id as real)) == IntKey(id);
  }

  /** An `error` member that is no object makes the handler raise, leaving the future pending. */
  lemma MalformedErrorFaults(id: nat, fields: map<string, Json>, table: map<nat, Slot>)
    requires "id" in fields && fields["id"] == JNum(id as real)
    requires id in table && table[id] == Pending
    requires "error" in fields && !fields["error"].JObj?
    ensures Route(JObj(fields), table) == Fault(ErrorNotAnObject)
  {
    assert KeyOf(JNum(id as real)) == IntKey(id);
  }

  /** How the `await` in `send` ends for a future in a given state when the wait is over. */
  function AwaitOutcome(slot: Slot, command: string, timeout: real): (r: Result<Json, ClientError>)
    ensures r.Ok? <==> slot.Resolved?
    ensures slot.Resolved? ==> r.value == slot.result
    ensures slot.Failed? ==> r == Err(CommandError("unknown", slot.message, slot.code))
    ensures slot.Pending? ==> r == Err(RequestTimedOut(command, timeout))
    ensures slot.Cancelled? ==> r == Err(RequestCancelled)
  {
    match slot
    case Resolved(v) => Ok(v)
    case Failed(m, c) => Err(CommandError("unknown", m, c))
    case Cancelled => Err(RequestCancelled)
    case Pending => Err(RequestTimedOut(command, timeout))
  }

  class Client {
    const host: string
    const port: int
    var socket: Socket
    var receiver: Receiver
    /** `_request_id`: the last request id issued. */
    var requestId: nat
    /** Every future a `send` has created, keyed by the request id it was created for. */
    var futures: map<nat, Slot>
    /** The keys of `_pending_requests`. */
    var pending: set<nat>

    ghost predicate Valid()
      reads this
    {
      && (forall i :: i in futures <==> 1 <= i <= requestId)
      && pending <= futures.Keys
    }

    /** `_pending_requests`: each pending id with the state of its future. */
    function Table(): (t: map<nat, Slot>)
      reads this
      ensures t.Keys == pending * futures.Keys
    {
      map i | i in pending && i in futures :: futures[i]
    }

    constructor (host: string, port: int)
      ensures this.host == host && this.port == port
      ensures socket == NoSocket && receiver == NoTask && requestId == 0 && futures == map[] && pending == {}
      ensures Valid() && !IsConnected()
    {
      this.host := host;
      this.port := port;
      socket := NoSocket;
      receiver := NoTask;
      requestId := 0;
      futures := map[];
      pending := {};
    }

    function Url(): (u: string)
      ensures ParseUrl(u) == Some((host, port))
    {
      UrlRoundTrip(host, port);
      UrlOf(host, port)
    }

    /** `is_connected`: a connection object exists and is still open. */
    predicate IsConnected(): (b: bool)
      reads this
      ensures b ==> socket != NoSocket
      ensures socket == Closed ==> !b
      ensures socket == Open ==> b
    {
      socket == Open
    }

    /**
     * `connect`: an accepted connection replaces `_ws` and starts a new receive
     * task; otherwise nothing changes.
     */
    method Connect(attempt: ConnectAttempt, timeout: real) returns (r: Result<(), ClientError>)
      requires Valid()
      modifies this
      ensures Valid()
      ensures requestId == old(requestId) && futures == old(futures) && pending == old(pending)
      ensures attempt == Accepted ==> socket == Open && receiver == Running && r == Ok(())
      ensures attempt != Accepted ==> socket == old(socket) && receiver == old(receiver)
      ensures attempt == Refused ==> r == Err(ConnectFailed(Url()))
      ensures attempt == Expired ==> r == Err(ConnectTimedOut(Url(), timeout))
    {
      match attempt
      case Accepted =>
        socket := Open;
        receiver := Running;
        r := Ok(());
      case Refused =>
        r := Err(ConnectFailed(Url()));
      case Expired =>
        r := Err(ConnectTimedOut(Url(), timeout));
    }

    /**
     * The peer closes the connection: the socket stays in place, closed, and a
     * running receive loop ends quietly. No future is touched.
     */
    method ConnectionLost()
      requires Valid()
      modifies this
      ensures Valid()
      ensures socket == (if old(socket) == Open then Closed else old(socket))
      ensures receiver == (if old(receiver) == Running then Ended else old(receiver))
      ensures requestId == old(requestId) && futures == old(futures) && pending == old(pending)
    {
      if socket == Open {
        socket := Closed;
      }
      if receiver == Running {
        receiver := Ended;
      }
    }

    /**
     * `disconnect`. Awaiting a receive task that ended with an exception
     * raises that exception again, before anything is closed or cancelled.
     * Otherwise it drops the receive task and the socket, cancels every future in the
     * table that is not done yet, leaves done ones as they are, and empties
     * the table.
     */
    method Disconnect() returns (r: Result<(), HandlerFault>)
      requires Valid()
      modifies this
      ensures Valid()
      ensures requestId == old(requestId)
      ensures old(receiver).Crashed? ==>
                && r == Err(old(receiver).fault)
                && receiver == old(receiver) && socket == old(socket)
                && futures == old(futures) && pending == old(pending)
      ensures !old(receiver).Crashed? ==>
                && r == Ok(())
                && receiver == NoTask && socket == NoSocket && pending == {}
                && futures.Keys == old(futures).Keys
                && forall i :: i in futures ==>
                     futures[i] == if i in old(pending) && !old(futures)[i].Done() then Cancelled else old(futures)[i]
    {
      if receiver.Crashed? {
        return Err(receiver.fault);
      }
      receiver := NoTask;
      socket := NoSocket;
      var todo := pending;
      while todo != {}
        invariant receiver == NoTask && socket == NoSocket
        invariant requestId == old(requestId) && pending == old(pending)
        invariant todo <= pending
        invariant futures.Keys == old(futures).Keys
        invariant forall i :: i in futures ==>
                    futures[i] == if i in pending - todo && !old(futures)[i].Done() then Cancelled else old(futures)[i]
        decreases todo
      {
        var i :| i in todo;
        if !futures[i].Done() {
          futures := futures[i := Cancelled];
        }
        todo := todo - {i};
      }
      pending := {};
      r := Ok(());
    }

    /**
     * The first half of `send`, up to and including writing the request: on a
     * client without a socket it raises and changes nothing; otherwise it
     * issues the next id, creates a pending future and registers it, and
     * writes the request, which raises (and unregisters the future) when the
     * socket has been closed.
     */
    method BeginSend(command: string, params: Option<map<string, Json>>) returns (r: Result<Sent, ClientError>)
      requires Valid()
      modifies this
      ensures Valid()
      ensures socket == old(socket) && receiver == old(receiver)
      ensures old(socket) == NoSocket ==>
                r == Err(NotConnected) && requestId == old(requestId) && futures == old(futures) && pending == old(pending)
      ensures old(socket) != NoSocket ==>
                && requestId == old(requestId) + 1
                && (forall i :: i in old(futures) ==> i < requestId)
                && futures == old(futures)[requestId := Pending]
      ensures old(socket) == Open ==>
                r == Ok(Sent(requestId, RequestObject(requestId, command, params))) && pending == old(pending) + {requestId}
      ensures old(socket) == Closed ==> r == Err(SocketClosed) && pending == old(pending)
    {
      if socket == NoSocket {
        return Err(NotConnected);
      }
      requestId := requestId + 1;
      var id := requestId;
      var request := RequestObject(id, command, params);
      futures := futures[id := Pending];
      pending := pending + {id};
      if socket == Closed {
        pending := pending - {id};
        return Err(SocketClosed);
      }
      r := Ok(Sent(id, request));
    }

    /**
     * The second half of `send`, once its wait is over: a done future yields
     * its result or raises its error; a future still pending means the wait
     * timed out, and `asyncio.wait_for` cancels it. In every case the id
     * leaves the table and no other entry changes.
     */
    method EndSend(id: nat, command: string, timeout: real) returns (r: Result<Json, ClientError>)
      requires Valid() && id in futures
      modifies this
      ensures Valid()
      ensures socket == old(socket) && receiver == old(receiver) && requestId == old(requestId)
      ensures pending == old(pending) - {id}
      ensures r == AwaitOutcome(old(futures)[id], command, timeout)
      ensures futures == if old(futures)[id] == Pending then old(futures)[id := Cancelled] else old(futures)
    {
      r := AwaitOutcome(futures[id], command, timeout);
      if futures[id] == Pending {
        futures := futures[id := Cancelled];
      }
      pending := pending - {id};
    }

    /**
     * One message read by the running receive loop and passed to
     * `_handle_response`, which applies its routing to the table. An exception
     * the handler raises ends the receive task with that exception, so no
     * further message is read.
     */
    method HandleResponse(data: Json) returns (r: Result<(), HandlerFault>)
      requires Valid() && receiver == Running
      modifies this
      ensures Valid()
      ensures socket == old(socket) && requestId == old(requestId) && pending == old(pending)
      ensures r.Err? <==> Route(data, old(Table())).Fault?
      ensures r.Err? ==> r.error == Route(data, old(Table())).fault && receiver == Crashed(r.error)
      ensures r.Ok? ==> receiver == Running
      ensures futures == match Route(data, old(Table()))
                         case Settle(i, s) => old(futures)[i := s]
                         case _ => old(futures)
    {
      match Route(data, Table())
      case Settle(i, s) =>
        futures := futures[i := s];
        r := Ok(());
      case Ignore =>
        r := Ok(());
      case Fault(f) =>
        receiver := Crashed(f);
        r := Err(f);
    }
  }

  /**
   * A message that is not an object ends the receive task with an
   * AttributeError. A later `disconnect` raises it again, so the socket stays
   * open and the request sent before it stays pending.
   */
  method FaultThenDisconnect() returns (d: Result<(), HandlerFault>, slot: Slot, connected: bool)
    ensures d == Err(DataNotAnObject) && slot == Pending && connected
  {
    var c := new Client(DefaultHost, DefaultPort);
    var _ := c.Connect(Accepted, 30.0);
    var sent := c.BeginSend("get_node", None);
    var h := c.HandleResponse(JArr([]));
    d := c.Disconnect();
    slot := c.futures[1];
    connected := c.IsConnected();
  }

  /** The client `Client(host="localhost", port=9999)` of the unit tests. */
  lemma DefaultUrl()
    ensures UrlOf(DefaultHost, DefaultPort) == "ws://localhost:9999"
    ensures UrlOf("192.168.1.1", 8888) == "ws://192.168.1.1:8888"
  {
    assert Text.NatToDecimal(9999) == "9999";
    assert Text.NatToDecimal(8888) == "8888";
  }
}
