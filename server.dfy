/**
 * The signalling relay of server/index.js as the object the handlers mutate:
 * the `users` registry and the `name`/`id` fields of the connection objects
 * are fields updated in place, sending a frame appends to `outbox`, and
 * `sendToAll` is the `forEach` loop of the source.  Each event method is
 * proved to take the relay from `St()` to the state the matching function of
 * `Handlers` gives, and to keep `Handlers.Invariant`.
 */
module Server {
  import opened Wrappers
  import opened Protocol
  import opened Registry
  import opened Handlers

  class Relay {
    /** The module-level `users` object: key -> connection. */
    var users: map<string, ConnId>
    /** The keys of `users` in the order they were added. */
    var order: seq<string>
    /** The `name` and `id` fields of every connection opened so far. */
    var conns: map<ConnId, Conn>
    /** Connections whose `close` event has fired. */
    var closed: set<ConnId>
    /** Every `send` made so far, in order. */
    var outbox: seq<(ConnId, Envelope)>
    /** The next connection object the transport will create. */
    var nextConn: nat
    /** The supply of fresh identifiers that stands for `uuidv4()`. */
    var nextId: nat

    /** The relay's fields as one value. */
    ghost function St(): State
      reads this
    {
      State(users, order, conns, closed, outbox, nextConn, nextId)
    }

    ghost predicate Valid()
      reads this
    {
      Invariant(St())
    }

    /** The server at start-up. */
    constructor ()
      ensures Valid() && St() == Initial
    {
      users, order, conns, closed, outbox := map[], [], map[], {}, [];
      nextConn, nextId := 0, 0;
    }

    /** `sendTo(connection, message)`. */
    method SendTo(c: ConnId, e: Envelope)
      modifies this`outbox
      ensures St() == Send(old(St()), c, e)
    {
      outbox := outbox + [(c, e)];
    }

    /** `sendToAll(users, kind, who)`: `Object.values(users).forEach(...)`. */
    method SendToAll(kind: Presence, who: Conn)
      requires WellFormed(order, users, conns)
      modifies this`outbox
      ensures St() == SendAll(old(St()), kind, who)
    {
      var env := Notice(kind, Info(who));
      var clients := Values(order, users);
      ValuesRegistered(order, users, conns);
      var i := 0;
      while i < |clients|
        invariant 0 <= i <= |clients|
        invariant outbox == old(outbox) + Broadcast(clients[..i], conns, who.name, env)
      {
        var client := clients[i];
        assert clients[..i + 1][..i] == clients[..i];
        ghost var sent := Broadcast(clients[..i], conns, who.name, env);
        if conns[client].name != who.name {
          assert Broadcast(clients[..i + 1], conns, who.name, env) == sent + [(client, env)];
          outbox := outbox + [(client, env)];
        } else {
          assert Broadcast(clients[..i + 1], conns, who.name, env) == sent;
        }
        i := i + 1;
      }
      assert clients[..|clients|] == clients;
    }

    /** A new connection: the transport creates `ws` and the server greets it. */
    method Open() returns (c: ConnId)
      requires Valid()
      modifies this
      ensures Valid() && c == old(nextConn) && St() == OnConnection(old(St()))
    {
      c := nextConn;
      nextConn := nextConn + 1;
      conns := conns[c := Conn(None, None)];
      SendTo(c, Connect(Greeting));
      OnConnectionPreserves(old(St()));
    }

    /**
     * What a login under a free key does before it replies: `uuidv4()`, the
     * snapshot of `Object.values(users)`, then `users[name] = ws`,
     * `ws.name = name` and `ws.id = id`.
     */
    method Admit(c: ConnId, name: Option<string>) returns (loggedIn: seq<UserInfo>)
      requires WellFormed(order, users, conns) && c in conns && JsString(name) !in users
      modifies this`users, this`order, this`conns, this`nextId
      ensures loggedIn == LoginList(old(St())) && St() == Admitted(old(St()), c, name)
    {
      var key := JsString(name);
      var id := nextId;
      nextId := nextId + 1;
      ValuesRegistered(order, users, conns);
      loggedIn := Snapshot(Values(order, users), conns);
      users := users[key := c];
      order := order + [key];
      conns := conns[c := Conn(name, Some(id))];
    }

    /** A login under a free key: admitted, answered, and announced. */
    method Welcome(c: ConnId, name: Option<string>)
      requires WellFormed(order, users, conns) && c in conns && JsString(name) !in users
      modifies this`users, this`order, this`conns, this`nextId, this`outbox
      ensures St() == OnLogin(old(St()), c, name)
    {
      ghost var s := St();
      var loggedIn := Admit(c, name);
      ghost var admitted := St();
      SendTo(c, LoginSuccess(loggedIn));
      assert St() == Send(admitted, c, LoginSuccess(LoginList(s)));
      SendToAll(UpdateUsers, conns[c]);
    }

    /** The `login` case of the message handler. */
    method Login(c: ConnId, name: Option<string>)
      requires WellFormed(order, users, conns) && c in conns
      modifies this`users, this`order, this`conns, this`nextId, this`outbox
      ensures St() == OnLogin(old(St()), c, name)
    {
      if JsString(name) in users {
        SendTo(c, LoginFailure(Unavailable));
      } else {
        Welcome(c, name);
      }
    }

    /** The `message` handler: decode, then switch on `type`. */
    method HandleMessage(c: ConnId, msg: Option<Inbound>)
      requires Valid() && c in conns && c !in closed
      modifies this
      ensures Valid() && St() == OnMessage(old(St()), c, msg)
    {
      var data := Decode(msg);
      var key := JsString(data.name);
      match Dispatch(data.kind) {
        case LoginCase =>
          Login(c, data.name);
        case OfferCase =>
          if key in users {
            SendTo(users[key], OfferEnvelope(data.offer, conns[c].name));
          } else {
            SendTo(c, Error(NoSuchUser(data.name)));
          }
        case AnswerCase =>
          if key in users {
            SendTo(users[key], AnswerEnvelope(data.answer));
          } else {
            SendTo(c, Error(NoSuchUser(data.name)));
          }
        case CandidateCase =>
          if key in users {
            SendTo(users[key], CandidateEnvelope(data.candidate));
          } else {
            SendTo(c, Error(NoSuchUser(data.name)));
          }
        case LeaveCase =>
          SendToAll(Leave, conns[c]);
        case DefaultCase =>
          SendTo(c, Error(CommandNotFound(data.kind)));
      }
      OnMessagePreserves(old(St()), c, msg);
    }

    /** The `close` handler. */
    method Close(c: ConnId)
      requires Valid() && c in conns && c !in closed
      modifies this
      ensures Valid() && St() == OnClose(old(St()), c)
    {
      var key := JsString(conns[c].name);
      users := users - {key};
      order := Without(order, key);
      closed := closed + {c};
      assert St() == Depart(old(St()), c);
      SendToAll(Leave, conns[c]);
      OnClosePreserves(old(St()), c);
    }
  }
}
