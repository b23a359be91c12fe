/**
 * The three events a connection of server/index.js produces -- the
 * `connection` callback, a `message`, and `close` -- as functions from the
 * server's state before the event to its state after it.  The Node event
 * loop runs every handler to completion, so a run of the server is a
 * sequence of these steps.  `Server.Relay` carries out the same steps
 * statement by statement on mutable fields and is proved to agree with them.
 */
module Handlers {
  import opened Wrappers
  import opened Protocol
  import opened Registry

  /** Everything the server keeps, and everything it has sent. */
  datatype State = State(
    /** the module-level `users` object: key -> connection */
    users: map<string, ConnId>,
    /** the keys of `users` in the order they were added, which is the order `Object.values` lists them in */
    order: seq<string>,
    /** the `name` and `id` fields of every connection opened so far */
    conns: map<ConnId, Conn>,
    /** connections whose `close` event has fired */
    closed: set<ConnId>,
    /** every `send` made so far, in order */
    outbox: seq<(ConnId, Envelope)>,
    /** the next connection object the transport will create */
    nextConn: nat,
    /** the supply of fresh identifiers that stands for `uuidv4()` */
    nextId: nat)

  /** The server at start-up: no users, no connections, nothing sent. */
  const Initial: State := State(map[], [], map[], {}, [], 0, 0)

  /**
   * What holds between events: a well-formed registry whose connections all
   * logged in, connection numbers and ids below their counters, no id held by
   * two connections, and closes and sends only for connections that exist.
   */
  ghost predicate Invariant(s: State)
  {
    && WellFormed(s.order, s.users, s.conns)
    && (forall k :: k in s.users ==> s.conns[s.users[k]].id.Some?)
    && (forall c :: c in s.conns ==> c < s.nextConn)
    && (forall c :: c in s.conns && s.conns[c].id.Some? ==> s.conns[c].id.value < s.nextId)
    && (forall c, d :: c in s.conns && d in s.conns && c != d && s.conns[c].id.Some? ==> s.conns[c].id != s.conns[d].id)
    && s.closed <= s.conns.Keys
    && (forall p :: p in s.outbox ==> p.0 in s.conns)
  }

  /** `sendTo(connection, message)`. */
  function Send(s: State, c: ConnId, e: Envelope): State
  {
    s.(outbox := s.outbox + [(c, e)])
  }

  /**
   * `sendToAll(users, kind, who)`: `{ type: kind, user: { id, userName } }`
   * read from `who`'s fields, sent to every registered client, in key order,
   * whose current `name` is not `who`'s.
   */
  function SendAll(s: State, kind: Presence, who: Conn): State
    requires WellFormed(s.order, s.users, s.conns)
  {
    ValuesRegistered(s.order, s.users, s.conns);
    s.(outbox := s.outbox + Broadcast(Values(s.order, s.users), s.conns, who.name, Notice(kind, Info(who))))
  }

  /** The `users` list of a successful login reply: `{ id, userName }` of every value of `users`. */
  function LoginList(s: State): seq<UserInfo>
    requires WellFormed(s.order, s.users, s.conns)
  {
    ValuesRegistered(s.order, s.users, s.conns);
    Snapshot(Values(s.order, s.users), s.conns)
  }

  /** A new connection: the transport creates a fresh `ws`, with no `name` and no `id`, and the server greets it. */
  function OnConnection(s: State): State
  {
    var c := s.nextConn;
    Send(s.(conns := s.conns[c := Conn(None, None)], nextConn := c + 1), c, Connect(Greeting))
  }

  /**
   * The registration a login under a free key performs: `users[name] = ws`,
   * `ws.name = name`, `ws.id = id` with `id` fresh.
   */
  function Admitted(s: State, c: ConnId, name: Option<string>): (t: State)
    requires WellFormed(s.order, s.users, s.conns) && c in s.conns && JsString(name) !in s.users
    ensures WellFormed(t.order, t.users, t.conns) && c in t.conns
  {
    var key := JsString(name);
    var me := Conn(name, Some(s.nextId));
    Register(s.order, s.users, s.conns, key, c, me);
    s.(users := s.users[key := c], order := s.order + [key], conns := s.conns[c := me], nextId := s.nextId + 1)
  }

  /**
   * The `login` case: a key that is already present is refused; otherwise the
   * reply lists who was registered before, the sender is admitted, and the
   * arrival is announced.
   */
  function OnLogin(s: State, c: ConnId, name: Option<string>): State
    requires WellFormed(s.order, s.users, s.conns) && c in s.conns
  {
    if JsString(name) in s.users then
      Send(s, c, LoginFailure(Unavailable))
    else
      var admitted := Admitted(s, c, name);
      SendAll(Send(admitted, c, LoginSuccess(LoginList(s))), UpdateUsers, admitted.conns[c])
  }

  /**
   * The shape shared by `offer`, `answer` and `candidate`: when `users[name]`
   * is a connection the envelope goes there, otherwise an error goes back to
   * the sender.
   */
  function Forward(s: State, c: ConnId, name: Option<string>, e: Envelope): State
  {
    var key := JsString(name);
    if key in s.users then Send(s, s.users[key], e) else Send(s, c, Error(NoSuchUser(name)))
  }

  /** The `message` handler: decode (text that is not JSON is `{}`), then switch on `type`. */
  function OnMessage(s: State, c: ConnId, msg: Option<Inbound>): State
    requires WellFormed(s.order, s.users, s.conns) && c in s.conns
  {
    var data := Decode(msg);
    match Dispatch(data.kind)
    case LoginCase => OnLogin(s, c, data.name)
    case OfferCase => Forward(s, c, data.name, OfferEnvelope(data.offer, s.conns[c].name))
    case AnswerCase => Forward(s, c, data.name, AnswerEnvelope(data.answer))
    case CandidateCase => Forward(s, c, data.name, CandidateEnvelope(data.candidate))
    case LeaveCase => SendAll(s, Leave, s.conns[c])
    case DefaultCase => Send(s, c, Error(CommandNotFound(data.kind)))
  }

  /**
   * What `close` does to the registry: `delete users[ws.name]` -- the key
   * "undefined" for a connection that never logged in -- and the connection
   * is closed.
   */
  function Depart(s: State, c: ConnId): (t: State)
    requires WellFormed(s.order, s.users, s.conns) && c in s.conns
    ensures WellFormed(t.order, t.users, t.conns)
  {
    var key := JsString(s.conns[c].name);
    Unregister(s.order, s.users, s.conns, key);
    s.(users := s.users - {key}, order := Without(s.order, key), closed := s.closed + {c})
  }

  /** The `close` handler: the connection departs, then its departure is announced. */
  function OnClose(s: State, c: ConnId): State
    requires WellFormed(s.order, s.users, s.conns) && c in s.conns
  {
    SendAll(Depart(s, c), Leave, s.conns[c])
  }

  /** The step `OnMessage` takes for each arm of the switch. */
  lemma Dispatched(s: State, c: ConnId, msg: Option<Inbound>)
    requires WellFormed(s.order, s.users, s.conns) && c in s.conns
    ensures Dispatch(Decode(msg).kind) == LoginCase ==> OnMessage(s, c, msg) == OnLogin(s, c, Decode(msg).name)
    ensures Dispatch(Decode(msg).kind) == OfferCase ==>
      OnMessage(s, c, msg) == Forward(s, c, Decode(msg).name, OfferEnvelope(Decode(msg).offer, s.conns[c].name))
    ensures Dispatch(Decode(msg).kind) == AnswerCase ==>
      OnMessage(s, c, msg) == Forward(s, c, Decode(msg).name, AnswerEnvelope(Decode(msg).answer))
    ensures Dispatch(Decode(msg).kind) == CandidateCase ==>
      OnMessage(s, c, msg) == Forward(s, c, Decode(msg).name, CandidateEnvelope(Decode(msg).candidate))
    ensures Dispatch(Decode(msg).kind) == LeaveCase ==> OnMessage(s, c, msg) == SendAll(s, Leave, s.conns[c])
    ensures Dispatch(Decode(msg).kind) == DefaultCase ==>
      OnMessage(s, c, msg) == Send(s, c, Error(CommandNotFound(Decode(msg).kind)))
  {
  }

  // ---------------------------------------------------------------------
  // The invariant holds initially and every step keeps it.

  lemma InitialInvariant()
    ensures Invariant(Initial)
  {
  }

  lemma SendPreserves(s: State, c: ConnId, e: Envelope)
    requires Invariant(s) && c in s.conns
    ensures Invariant(Send(s, c, e))
  {
  }

  lemma SendAllPreserves(s: State, kind: Presence, who: Conn)
    requires Invariant(s)
    ensures Invariant(SendAll(s, kind, who))
  {
    BroadcastRegistered(s.order, s.users, s.conns, who.name, Notice(kind, Info(who)));
  }

  lemma OnConnectionPreserves(s: State)
    requires Invariant(s)
    ensures Invariant(OnConnection(s))
  {
    var c := s.nextConn;
    var greeted := s.(conns := s.conns[c := Conn(None, None)], nextConn := c + 1);
    assert c !in s.conns;
    assert Invariant(greeted);
    SendPreserves(greeted, c, Connect(Greeting));
  }

  lemma AdmittedPreserves(s: State, c: ConnId, name: Option<string>)
    requires Invariant(s) && c in s.conns && JsString(name) !in s.users
    ensures Invariant(Admitted(s, c, name))
  {
  }

  lemma OnLoginPreserves(s: State, c: ConnId, name: Option<string>)
    requires Invariant(s) && c in s.conns
    ensures Invariant(OnLogin(s, c, name))
  {
    if JsString(name) in s.users {
      SendPreserves(s, c, LoginFailure(Unavailable));
    } else {
      var admitted := Admitted(s, c, name);
      AdmittedPreserves(s, c, name);
      SendPreserves(admitted, c, LoginSuccess(LoginList(s)));
      SendAllPreserves(Send(admitted, c, LoginSuccess(LoginList(s))), UpdateUsers, admitted.conns[c]);
    }
  }

  lemma ForwardPreserves(s: State, c: ConnId, name: Option<string>, e: Envelope)
    requires Invariant(s) && c in s.conns
    ensures Invariant(Forward(s, c, name, e))
  {
    var key := JsString(name);
    if key in s.users {
      SendPreserves(s, s.users[key], e);
    } else {
      SendPreserves(s, c, Error(NoSuchUser(name)));
    }
  }

  lemma OnMessagePreserves(s: State, c: ConnId, msg: Option<Inbound>)
    requires Invariant(s) && c in s.conns
    ensures Invariant(OnMessage(s, c, msg))
  {
    var data := Decode(msg);
    match Dispatch(data.kind)
    case LoginCase => OnLoginPreserves(s, c, data.name);
    case OfferCase => ForwardPreserves(s, c, data.name, OfferEnvelope(data.offer, s.conns[c].name));
    case AnswerCase => ForwardPreserves(s, c, data.name, AnswerEnvelope(data.answer));
    case CandidateCase => ForwardPreserves(s, c, data.name, CandidateEnvelope(data.candidate));
    case LeaveCase => SendAllPreserves(s, Leave, s.conns[c]);
    case DefaultCase => SendPreserves(s, c, Error(CommandNotFound(data.kind)));
  }

  lemma OnClosePreserves(s: State, c: ConnId)
    requires Invariant(s) && c in s.conns
    ensures Invariant(OnClose(s, c))
  {
    assert Invariant(Depart(s, c));
    SendAllPreserves(Depart(s, c), Leave, s.conns[c]);
  }
}
