/** The progress fan-out server: a registry from client id to connection,
    the per-connection message loop, the pub/sub listener that rebroadcasts
    progress, and the HTTP endpoints that publish it. Connections are
    abstract; whether a send succeeds is given by a `Network` value. */
module WsServer {
  import opened Common
  import opened Progress

  /** The registry after `send_to_client`: a `ConnectionClosed` unregisters
      the client, any other failure leaves it registered. */
  function AfterSend(clients: map<string, Conn>, clientId: string, net: Network): (r: map<string, Conn>)
    ensures forall id :: id in r ==> id in clients && r[id] == clients[id]
    ensures forall id :: id != clientId ==> (id in r <==> id in clients)
    ensures clientId in r <==> clientId in clients && Outcome(net, clients[clientId]) != ConnectionClosed
  {
    if clientId in clients && Outcome(net, clients[clientId]) == ConnectionClosed then clients - {clientId}
    else clients
  }

  /** The registry after `broadcast`: every client whose send raised,
      whatever the exception, is dropped. */
  function Surviving(clients: map<string, Conn>, net: Network): (r: map<string, Conn>)
    ensures forall id :: id in r <==> id in clients && Outcome(net, clients[id]) == Delivered
    ensures forall id :: id in r ==> r[id] == clients[id]
  {
    map id | id in clients && Outcome(net, clients[id]) == Delivered :: clients[id]
  }

  /** A message from a client, once `json.loads` has read it. */
  datatype ClientMessage =
    | Identify(clientId: Option<string>)
    | SubscribeJob(jobId: Option<string>)
    | OtherMessage
    | Unparseable

  /** What `handle_client` does with one message. */
  datatype Action = Register(clientId: string) | Subscribe(clientId: string, jobId: string) | Ignore | Stop

  /** The id given to a connection that identifies without one; `ws` plays
      the part of Python's `id(websocket)`. */
  function DefaultClientId(ws: Conn): string {
    "client_" + DecimalString(ws)
  }

  /** The dispatch in `handle_client`, given the id the connection has
      identified with so far. */
  function Dispatch(current: Option<string>, msg: ClientMessage, ws: Conn): (a: Action)
    ensures a.Stop? <==> msg.Unparseable?
    ensures a.Register? <==> msg.Identify?
    ensures a.Register? ==> a.clientId == if msg.clientId.Some? then msg.clientId.value else DefaultClientId(ws)
    ensures a.Subscribe? <==> msg.SubscribeJob? && Truthy(msg.jobId) && Truthy(current)
    ensures a.Subscribe? ==> a.clientId == current.value && a.jobId == msg.jobId.value
  {
    match msg
    case Identify(id) => Register(id.GetOr(DefaultClientId(ws)))
    case SubscribeJob(jobId) =>
      if Truthy(jobId) && Truthy(current) then Subscribe(current.value, jobId.value) else Ignore
    case OtherMessage => Ignore
    case Unparseable => Stop
  }

  /** The `finally` clause: a truthy client id is unregistered. */
  function Close(clients: map<string, Conn>, current: Option<string>): map<string, Conn> {
    if Truthy(current) then clients - {current.value} else clients
  }

  /** The registry at the end of a connection that sends `msgs`; `keys` are
      the status keys present in Redis. */
  function Session(clients: map<string, Conn>, current: Option<string>, msgs: seq<ClientMessage>,
                   ws: Conn, net: Network, keys: set<string>): map<string, Conn>
    decreases |msgs|
  {
    if msgs == [] then Close(clients, current)
    else
      match Dispatch(current, msgs[0], ws)
      case Stop => Close(clients, current)
      case Ignore => Session(clients, current, msgs[1..], ws, net, keys)
      case Register(c) => Session(AfterSend(clients[c := ws], c, net), Some(c), msgs[1..], ws, net, keys)
      case Subscribe(c, j) =>
        Session(if StatusKey(j) in keys then AfterSend(clients, c, net) else clients, current, msgs[1..], ws, net, keys)
  }

  /** The client id a connection ends with. */
  function FinalClientId(current: Option<string>, msgs: seq<ClientMessage>, ws: Conn): Option<string>
    decreases |msgs|
  {
    if msgs == [] then current
    else
      match Dispatch(current, msgs[0], ws)
      case Stop => current
      case Register(c) => FinalClientId(Some(c), msgs[1..], ws)
      case _ => FinalClientId(current, msgs[1..], ws)
  }

  predicate NoIdentify(msgs: seq<ClientMessage>) {
    forall i :: 0 <= i < |msgs| ==> !msgs[i].Identify?
  }

  /** A connection that sends no further `identify` while its id is missing
      or empty leaves the registry as it is: its subscriptions are all
      ignored and the `finally` clause removes nothing. With `current` =
      `None` this is a connection that never identifies. */
  lemma {:induction false} SessionWithoutIdentify(clients: map<string, Conn>, current: Option<string>,
                                                  msgs: seq<ClientMessage>, ws: Conn, net: Network, keys: set<string>)
    requires !Truthy(current)
    requires NoIdentify(msgs)
    ensures Session(clients, current, msgs, ws, net, keys) == clients
    decreases |msgs|
  {
    if msgs != [] {
      assert !msgs[0].Identify?;
      assert NoIdentify(msgs[1..]) by {
        forall i | 0 <= i < |msgs[1..]| ensures !msgs[1..][i].Identify? {
          assert msgs[1..][i] == msgs[i + 1];
        }
      }
      SessionWithoutIdentify(clients, current, msgs[1..], ws, net, keys);
    }
  }

  /** When a connection ends, the id it last identified with is no longer
      registered, provided that id is non-empty. */
  lemma {:induction false} SessionUnregistersFinalId(clients: map<string, Conn>, current: Option<string>,
                                                     msgs: seq<ClientMessage>, ws: Conn, net: Network, keys: set<string>)
    requires Truthy(FinalClientId(current, msgs, ws))
    ensures FinalClientId(current, msgs, ws).value !in Session(clients, current, msgs, ws, net, keys)
    decreases |msgs|
  {
    if msgs != [] {
      match Dispatch(current, msgs[0], ws)
      case Stop =>
      case Ignore => SessionUnregistersFinalId(clients, current, msgs[1..], ws, net, keys);
      case Register(c) =>
        SessionUnregistersFinalId(AfterSend(clients[c := ws], c, net), Some(c), msgs[1..], ws, net, keys);
      case Subscribe(c, j) =>
        SessionUnregistersFinalId(if StatusKey(j) in keys then AfterSend(clients, c, net) else clients,
                                  current, msgs[1..], ws, net, keys);
    }
  }

  /** A connection that identifies with an explicitly empty id, and whose
      greeting does not meet a closed connection, stays registered under
      `""` after it ends: the empty id is falsy, so the `finally` clause
      does not remove it, and its subscriptions are ignored. */
  lemma EmptyClientIdOutlivesSession(clients: map<string, Conn>, msgs: seq<ClientMessage>,
                                     ws: Conn, net: Network, keys: set<string>)
    requires NoIdentify(msgs)
    requires Outcome(net, ws) != ConnectionClosed
    ensures Session(clients, None, [Identify(Some(""))] + msgs, ws, net, keys) == clients["" := ws]
  {
    var all := [Identify(Some(""))] + msgs;
    assert Dispatch(None, all[0], ws) == Register("");
    assert all[1..] == msgs;
    assert AfterSend(clients["" := ws], "", net) == clients["" := ws];
    SessionWithoutIdentify(clients["" := ws], Some(""), msgs, ws, net, keys);
  }

  /** A request to `progress_endpoint`: a body that is not JSON, or one with
      an optional `job_id`. */
  datatype ProgressRequest = BadJson | JsonBody(jobId: Option<string>)

  /** The HTTP status and, when something was published, the channel. */
  datatype ProgressReply = ProgressReply(status: nat, published: Option<string>)

  /** `progress_endpoint`: a missing or empty `job_id` answers 400 and
      publishes nothing; a body that cannot be read answers 500; otherwise
      the payload is published on the job's channel, from which the listener
      reads the job id back. */
  function ProgressEndpoint(req: ProgressRequest): (r: ProgressReply)
    ensures r.status in {200, 400, 500}
    ensures r.published.Some? <==> r.status == 200
    ensures r.status == 400 <==> req.JsonBody? && !Truthy(req.jobId)
    ensures r.status == 500 <==> req.BadJson?
    ensures r.published.Some? ==> JobIdOfChannel(r.published.value) == req.jobId
    ensures r.published.Some? ==> r.published.value == ChannelFor(req.jobId.value)
    ensures r.published.Some? ==> StartsWith(r.published.value, "progress:")
  {
    match req
    case BadJson => ProgressReply(500, None)
    case JsonBody(jobId) =>
      if Truthy(jobId) then
        ChannelRoundTrip(jobId.value);
        ProgressReply(200, Some(ChannelFor(jobId.value)))
      else ProgressReply(400, None)
  }

  class WebSocketServer {
    var clients: map<string, Conn>

    constructor ()
      ensures clients == map[]
    {
      clients := map[];
    }

    /** `register_client`: stores the connection, overwriting any earlier one
        under the same id, then sends the `connection` greeting. */
    method RegisterClient(ws: Conn, clientId: string, net: Network)
      modifies this
      ensures clients == AfterSend(old(clients)[clientId := ws], clientId, net)
      ensures Outcome(net, ws) != ConnectionClosed ==> clientId in clients && clients[clientId] == ws
      ensures forall id :: id != clientId ==> (id in clients <==> id in old(clients))
    {
      clients := clients[clientId := ws];
      var _ := SendToClient(clientId, net);
    }

    /** `unregister_client`: removes the id if present, does nothing
        otherwise. */
    method UnregisterClient(clientId: string)
      modifies this
      ensures clients == old(clients) - {clientId}
      ensures clientId !in old(clients) ==> clients == old(clients)
    {
      if clientId in clients {
        clients := clients - {clientId};
      }
    }

    /** `send_to_client`: false for an unknown id; on `ConnectionClosed` the
        client is also unregistered; any other failure keeps it. */
    method SendToClient(clientId: string, net: Network) returns (sent: bool)
      modifies this
      ensures sent <==> clientId in old(clients) && Outcome(net, old(clients)[clientId]) == Delivered
      ensures clients == AfterSend(old(clients), clientId, net)
    {
      if clientId in clients {
        match Outcome(net, clients[clientId])
        case Delivered =>
          return true;
        case ConnectionClosed =>
          UnregisterClient(clientId);
          return false;
        case SendError =>
          return false;
      }
      return false;
    }

    /** `broadcast`: send to every client, collecting those whose send
        raised, then unregister exactly those. */
    method Broadcast(net: Network)
      modifies this
      ensures clients == Surviving(old(clients), net)
      ensures old(clients) == map[] ==> clients == old(clients)
    {
      if clients == map[] {
        return;
      }
      var pending := clients.Keys;
      var disconnected: seq<string> := [];
      while pending != {}
        invariant pending <= clients.Keys
        invariant clients == old(clients)
        invariant forall id :: id in disconnected <==> id in clients && id !in pending && Outcome(net, clients[id]) != Delivered
        decreases pending
      {
        var id :| id in pending;
        if Outcome(net, clients[id]) != Delivered {
          disconnected := disconnected + [id];
        }
        pending := pending - {id};
      }
      var i := 0;
      while i < |disconnected|
        invariant 0 <= i <= |disconnected|
        invariant clients == map id | id in old(clients) && id !in disconnected[..i] :: old(clients)[id]
      {
        UnregisterClient(disconnected[i]);
        assert disconnected[..i + 1] == disconnected[..i] + [disconnected[i]];
        i := i + 1;
      }
      assert disconnected[..i] == disconnected;
    }

    /** `subscribe_to_job_progress`: sends the stored status if the job has
        one. */
    method SubscribeToJobProgress(clientId: string, jobId: string, net: Network, keys: set<string>)
      modifies this
      ensures clients == if StatusKey(jobId) in keys then AfterSend(old(clients), clientId, net) else old(clients)
    {
      if StatusKey(jobId) in keys {
        var _ := SendToClient(clientId, net);
      }
    }

    /** `handle_client` for a connection that sends `msgs` and then closes. */
    method HandleClient(ws: Conn, msgs: seq<ClientMessage>, net: Network, keys: set<string>)
      modifies this
      ensures clients == Session(old(clients), None, msgs, ws, net, keys)
    {
      var clientId: Option<string> := None;
      var i := 0;
      while i < |msgs|
        invariant 0 <= i <= |msgs|
        invariant Session(clients, clientId, msgs[i..], ws, net, keys) == Session(old(clients), None, msgs, ws, net, keys)
      {
        var action := Dispatch(clientId, msgs[i], ws);
        match action {
          case Stop =>
            break;
          case Ignore =>
          case Register(c) =>
            clientId := Some(c);
            RegisterClient(ws, c, net);
          case Subscribe(c, j) =>
            SubscribeToJobProgress(c, j, net, keys);
        }
        assert msgs[i..][1..] == msgs[i + 1..];
        i := i + 1;
      }
      if Truthy(clientId) {
        UnregisterClient(clientId.value);
      }
    }

    /** One message of `redis_listener`: a `pmessage` whose channel has a
        colon and whose data parses is rebroadcast under the job id read
        from the channel; anything else is dropped. */
    method OnPubSubMessage(isPMessage: bool, channel: string, dataParses: bool, net: Network)
      returns (forwarded: Option<string>)
      modifies this
      ensures forwarded == if isPMessage && dataParses then JobIdOfChannel(channel) else None
      ensures clients == if forwarded.Some? then Surviving(old(clients), net) else old(clients)
    {
      forwarded := None;
      if isPMessage {
        var jobId := JobIdOfChannel(channel);
        if jobId.Some? && dataParses {
          Broadcast(net);
          forwarded := jobId;
        }
      }
    }

    /** `metrics_endpoint`: rebroadcasts a readable body and answers 200, or
        answers 500. */
    method MetricsEndpoint(bodyParses: bool, net: Network) returns (status: nat)
      modifies this
      ensures status == if bodyParses then 200 else 500
      ensures clients == if bodyParses then Surviving(old(clients), net) else old(clients)
    {
      if !bodyParses {
        return 500;
      }
      Broadcast(net);
      status := 200;
    }
  }
}
