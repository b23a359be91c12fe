/**
 * What each event of server/index.js does, as seen by every connection: who
 * receives which envelope (`SentTo` of the outbox before and after the
 * event), and what happens to the registry.  These are the promises of the
 * individual branches of the handlers, stated about the step functions of
 * `Handlers`; `Server.Relay` is proved to take exactly those steps.
 */
module Behaviour {
  import opened Wrappers
  import opened Protocol
  import opened Registry
  import opened Handlers

  /** `k` is a key of `users`, and the only one under which its connection is registered. */
  ghost predicate OnlyKey(users: map<string, ConnId>, k: string)
  {
    k in users && forall k' :: k' in users && users[k'] == users[k] ==> k' == k
  }

  /** `d` is not registered, or bears the name `name`: `sendToAll` for `name` passes it over. */
  ghost predicate PassedOver(s: State, name: Option<string>, d: ConnId)
  {
    d !in s.users.Values || (d in s.conns && s.conns[d].name == name)
  }

  /** Everything except the outbox is as it was: the registry, the connection fields, the closes, the counters. */
  ghost predicate Quiet(s: State, t: State)
  {
    && t.users == s.users && t.order == s.order && t.conns == s.conns && t.closed == s.closed
    && t.nextConn == s.nextConn && t.nextId == s.nextId
  }

  /** An outbox with no send addressed to `c` has delivered nothing to `c`. */
  lemma {:induction false} NeverSent(out: seq<(ConnId, Envelope)>, c: ConnId)
    requires forall p :: p in out ==> p.0 != c
    ensures SentTo(out, c) == []
  {
    if out != [] {
      assert out[|out| - 1] in out;
      NeverSent(out[..|out| - 1], c);
    }
  }

  /** `sendTo(connection, message)` reaches that connection, once, and nobody else. */
  lemma SendDelivers(s: State, c: ConnId, e: Envelope, d: ConnId)
    ensures Quiet(s, Send(s, c, e))
    ensures SentTo(Send(s, c, e).outbox, d) == SentTo(s.outbox, d) + (if d == c then [e] else [])
  {
    assert (s.outbox + [(c, e)])[..|s.outbox|] == s.outbox;
  }

  /**
   * `sendToAll(users, kind, who)` gives a client whose name is not `who`'s
   * one notice per key it is registered under, and leaves the registry
   * untouched.
   */
  lemma SendAllCounts(s: State, kind: Presence, who: Conn, d: ConnId)
    requires WellFormed(s.order, s.users, s.conns)
    ensures Quiet(s, SendAll(s, kind, who))
    ensures d in s.conns && s.conns[d].name != who.name ==>
      SentTo(SendAll(s, kind, who).outbox, d)
      == SentTo(s.outbox, d) + Repeat(Notice(kind, Info(who)), multiset(Values(s.order, s.users))[d])
  {
    ValuesRegistered(s.order, s.users, s.conns);
    var env := Notice(kind, Info(who));
    var vs := Values(s.order, s.users);
    SentToAppend(s.outbox, Broadcast(vs, s.conns, who.name, env), d);
    BroadcastSentTo(vs, s.conns, who.name, env, d);
  }

  /** So a client holding a single key, under another name than `who`'s, gets exactly one notice. */
  lemma SendAllReaches(s: State, kind: Presence, who: Conn, k: string)
    requires WellFormed(s.order, s.users, s.conns)
    requires OnlyKey(s.users, k) && s.conns[s.users[k]].name != who.name
    ensures SentTo(SendAll(s, kind, who).outbox, s.users[k]) == SentTo(s.outbox, s.users[k]) + [Notice(kind, Info(who))]
  {
    ValuesRegistered(s.order, s.users, s.conns);
    var env := Notice(kind, Info(who));
    SentToAppend(s.outbox, Broadcast(Values(s.order, s.users), s.conns, who.name, env), s.users[k]);
    BroadcastOnce(s.order, s.users, s.conns, who.name, env, k);
  }

  /** A client that is not registered, or that bears `who`'s name, gets nothing from `sendToAll`. */
  lemma SendAllSkips(s: State, kind: Presence, who: Conn, d: ConnId)
    requires WellFormed(s.order, s.users, s.conns) && PassedOver(s, who.name, d)
    ensures SentTo(SendAll(s, kind, who).outbox, d) == SentTo(s.outbox, d)
  {
    ValuesRegistered(s.order, s.users, s.conns);
    var env := Notice(kind, Info(who));
    SentToAppend(s.outbox, Broadcast(Values(s.order, s.users), s.conns, who.name, env), d);
    BroadcastSkips(s.order, s.users, s.conns, who.name, env, d);
  }

  /**
   * A new connection is one never seen before, has no name and no id, is not
   * closed, and its first frame is the greeting; nobody else hears anything.
   */
  lemma OpenGreets(s: State, d: ConnId)
    requires Invariant(s)
    ensures s.nextConn !in s.conns
    ensures OnConnection(s).conns == s.conns[s.nextConn := Conn(None, None)]
    ensures OnConnection(s).users == s.users && OnConnection(s).order == s.order
    ensures OnConnection(s).closed == s.closed && s.nextConn !in OnConnection(s).closed
    ensures OnConnection(s).nextConn == s.nextConn + 1 && OnConnection(s).nextId == s.nextId
    ensures SentTo(OnConnection(s).outbox, s.nextConn) == [Connect(Greeting)]
    ensures d != s.nextConn ==> SentTo(OnConnection(s).outbox, d) == SentTo(s.outbox, d)
  {
    var c := s.nextConn;
    var greeted := s.(conns := s.conns[c := Conn(None, None)], nextConn := c + 1);
    NeverSent(s.outbox, c);
    SendDelivers(greeted, c, Connect(Greeting), c);
    SendDelivers(greeted, c, Connect(Greeting), d);
  }

  /** A login under a key already in `users` is refused to the sender alone, and changes nothing else. */
  lemma LoginRefused(s: State, c: ConnId, name: Option<string>, d: ConnId)
    requires WellFormed(s.order, s.users, s.conns) && c in s.conns
    requires JsString(name) in s.users
    ensures Quiet(s, OnLogin(s, c, name))
    ensures SentTo(OnLogin(s, c, name).outbox, d)
         == SentTo(s.outbox, d) + (if d == c then [LoginFailure(Unavailable)] else [])
  {
    SendDelivers(s, c, LoginFailure(Unavailable), d);
  }

  /**
   * A login under a free key registers the sender under it (earlier keys,
   * including the sender's own, stay) and gives the sender the name and a
   * fresh id.
   */
  lemma LoginAccepted(s: State, c: ConnId, name: Option<string>)
    requires WellFormed(s.order, s.users, s.conns) && c in s.conns
    requires JsString(name) !in s.users
    ensures OnLogin(s, c, name).users == s.users[JsString(name) := c]
    ensures OnLogin(s, c, name).order == s.order + [JsString(name)]
    ensures OnLogin(s, c, name).conns == s.conns[c := Conn(name, Some(s.nextId))]
    ensures OnLogin(s, c, name).nextId == s.nextId + 1
    ensures OnLogin(s, c, name).closed == s.closed && OnLogin(s, c, name).nextConn == s.nextConn
  {
    var admitted := Admitted(s, c, name);
    var replied := Send(admitted, c, LoginSuccess(LoginList(s)));
    assert Quiet(replied, SendAll(replied, UpdateUsers, admitted.conns[c]));
  }

  /** The sender of a login under a free key is answered, alone, with the registry as it was before. */
  lemma LoginAnswered(s: State, c: ConnId, name: Option<string>)
    requires WellFormed(s.order, s.users, s.conns) && c in s.conns
    requires JsString(name) !in s.users
    ensures SentTo(OnLogin(s, c, name).outbox, c) == SentTo(s.outbox, c) + [LoginSuccess(LoginList(s))]
  {
    var admitted := Admitted(s, c, name);
    var reply := LoginSuccess(LoginList(s));
    SendDelivers(admitted, c, reply, c);
    SendAllSkips(Send(admitted, c, reply), UpdateUsers, admitted.conns[c], c);
  }

  /**
   * After a login under a free key, every other client holding a single key
   * under another name is told about the newcomer exactly once.
   */
  lemma LoginAnnounced(s: State, c: ConnId, name: Option<string>, k: string)
    requires WellFormed(s.order, s.users, s.conns) && c in s.conns && JsString(name) !in s.users
    requires OnlyKey(s.users, k) && s.users[k] != c && s.conns[s.users[k]].name != name
    ensures SentTo(OnLogin(s, c, name).outbox, s.users[k])
         == SentTo(s.outbox, s.users[k]) + [Notice(UpdateUsers, UserInfo(Some(s.nextId), name))]
  {
    var admitted := Admitted(s, c, name);
    var reply := LoginSuccess(LoginList(s));
    SendDelivers(admitted, c, reply, s.users[k]);
    SendAllReaches(Send(admitted, c, reply), UpdateUsers, admitted.conns[c], k);
  }

  /** A client other than the sender that is not registered, or bears the new name, is told nothing of a login. */
  lemma LoginUnannounced(s: State, c: ConnId, name: Option<string>, d: ConnId)
    requires WellFormed(s.order, s.users, s.conns) && c in s.conns && JsString(name) !in s.users
    requires d != c && PassedOver(s, name, d)
    ensures SentTo(OnLogin(s, c, name).outbox, d) == SentTo(s.outbox, d)
  {
    var admitted := Admitted(s, c, name);
    var reply := LoginSuccess(LoginList(s));
    SendDelivers(admitted, c, reply, d);
    EntryKept(s.users, JsString(name), c, d);
    SendAllSkips(Send(admitted, c, reply), UpdateUsers, admitted.conns[c], d);
  }

  /** Adding a fresh key for `c` keeps every other connection's keys as they were. */
  lemma EntryKept(users: map<string, ConnId>, key: string, c: ConnId, d: ConnId)
    requires key !in users && d != c
    ensures d !in users.Values ==> d !in users[key := c].Values
  {
    var added := users[key := c];
    if d !in users.Values {
      forall k' | k' in added ensures added[k'] != d {
        if k' != key {
          assert users[k'] in users.Values;
        }
      }
    }
  }

  /**
   * The `users` list of a successful login holds the `{ id, userName }` of
   * every registered connection, one per key, each with an id, and never the
   * id the newcomer is about to get.
   */
  lemma LoginListed(s: State, u: UserInfo)
    requires Invariant(s)
    ensures |LoginList(s)| == |s.users|
    ensures u in LoginList(s) <==> exists k :: k in s.users && u == Info(s.conns[s.users[k]])
    ensures u in LoginList(s) ==> u.id.Some? && u.id != Some(s.nextId)
  {
    SnapshotMembership(s.order, s.users, s.conns, u);
    SnapshotOmitsFresh(Values(s.order, s.users), s.conns, s.nextId);
  }

  /**
   * The routing `offer`, `answer` and `candidate` share: the envelope reaches
   * the connection registered under the target name, or, when there is none,
   * the sender alone gets the error; the registry is untouched.
   */
  lemma ForwardDelivers(s: State, c: ConnId, name: Option<string>, e: Envelope, d: ConnId)
    ensures Quiet(s, Forward(s, c, name, e))
    ensures JsString(name) in s.users ==>
      SentTo(Forward(s, c, name, e).outbox, d) == SentTo(s.outbox, d) + (if d == s.users[JsString(name)] then [e] else [])
    ensures JsString(name) !in s.users ==>
      SentTo(Forward(s, c, name, e).outbox, d) == SentTo(s.outbox, d) + (if d == c then [Error(NoSuchUser(name))] else [])
  {
    var key := JsString(name);
    if key in s.users {
      SendDelivers(s, s.users[key], e, d);
    } else {
      SendDelivers(s, c, Error(NoSuchUser(name)), d);
    }
  }

  /** `offer`: the payload goes, untouched and signed with the sender's current name, to the target. */
  lemma OfferRouted(s: State, c: ConnId, data: Inbound, d: ConnId)
    requires WellFormed(s.order, s.users, s.conns) && c in s.conns && data.kind == Some("offer")
    ensures Quiet(s, OnMessage(s, c, Some(data)))
    ensures JsString(data.name) in s.users ==>
      SentTo(OnMessage(s, c, Some(data)).outbox, d)
      == SentTo(s.outbox, d) + (if d == s.users[JsString(data.name)] then [OfferEnvelope(data.offer, s.conns[c].name)] else [])
    ensures JsString(data.name) !in s.users ==>
      SentTo(OnMessage(s, c, Some(data)).outbox, d)
      == SentTo(s.outbox, d) + (if d == c then [Error(NoSuchUser(data.name))] else [])
  {
    Dispatched(s, c, Some(data));
    ForwardDelivers(s, c, data.name, OfferEnvelope(data.offer, s.conns[c].name), d);
  }

  /** `answer`: the payload goes, untouched and with no sender attached, to the target. */
  lemma AnswerRouted(s: State, c: ConnId, data: Inbound, d: ConnId)
    requires WellFormed(s.order, s.users, s.conns) && c in s.conns && data.kind == Some("answer")
    ensures Quiet(s, OnMessage(s, c, Some(data)))
    ensures JsString(data.name) in s.users ==>
      SentTo(OnMessage(s, c, Some(data)).outbox, d)
      == SentTo(s.outbox, d) + (if d == s.users[JsString(data.name)] then [AnswerEnvelope(data.answer)] else [])
    ensures JsString(data.name) !in s.users ==>
      SentTo(OnMessage(s, c, Some(data)).outbox, d)
      == SentTo(s.outbox, d) + (if d == c then [Error(NoSuchUser(data.name))] else [])
  {
    Dispatched(s, c, Some(data));
    ForwardDelivers(s, c, data.name, AnswerEnvelope(data.answer), d);
  }

  /** `candidate`: the payload goes, untouched and with no sender attached, to the target. */
  lemma CandidateRouted(s: State, c: ConnId, data: Inbound, d: ConnId)
    requires WellFormed(s.order, s.users, s.conns) && c in s.conns && data.kind == Some("candidate")
    ensures Quiet(s, OnMessage(s, c, Some(data)))
    ensures JsString(data.name) in s.users ==>
      SentTo(OnMessage(s, c, Some(data)).outbox, d)
      == SentTo(s.outbox, d) + (if d == s.users[JsString(data.name)] then [CandidateEnvelope(data.candidate)] else [])
    ensures JsString(data.name) !in s.users ==>
      SentTo(OnMessage(s, c, Some(data)).outbox, d)
      == SentTo(s.outbox, d) + (if d == c then [Error(NoSuchUser(data.name))] else [])
  {
    Dispatched(s, c, Some(data));
    ForwardDelivers(s, c, data.name, CandidateEnvelope(data.candidate), d);
  }

  /**
   * `leave` announces the sender's departure once to every client holding a
   * single key under another name, and unregisters nobody.
   */
  lemma LeaveAnnounced(s: State, c: ConnId, data: Inbound, k: string)
    requires WellFormed(s.order, s.users, s.conns) && c in s.conns && data.kind == Some("leave")
    requires OnlyKey(s.users, k) && s.conns[s.users[k]].name != s.conns[c].name
    ensures Quiet(s, OnMessage(s, c, Some(data)))
    ensures SentTo(OnMessage(s, c, Some(data)).outbox, s.users[k])
         == SentTo(s.outbox, s.users[k]) + [Notice(Leave, Info(s.conns[c]))]
  {
    Dispatched(s, c, Some(data));
    SendAllCounts(s, Leave, s.conns[c], s.users[k]);
    SendAllReaches(s, Leave, s.conns[c], k);
  }

  /** `leave` unregisters nobody and changes no record, whoever is registered. */
  lemma LeaveQuiet(s: State, c: ConnId, data: Inbound)
    requires WellFormed(s.order, s.users, s.conns) && c in s.conns && data.kind == Some("leave")
    ensures Quiet(s, OnMessage(s, c, Some(data)))
  {
    Dispatched(s, c, Some(data));
    SendAllCounts(s, Leave, s.conns[c], c);
  }

  /** A client that is not registered, or bears the sender's name -- the sender among them -- hears nothing of a `leave`. */
  lemma LeaveUnannounced(s: State, c: ConnId, data: Inbound, d: ConnId)
    requires WellFormed(s.order, s.users, s.conns) && c in s.conns && data.kind == Some("leave")
    requires PassedOver(s, s.conns[c].name, d)
    ensures SentTo(OnMessage(s, c, Some(data)).outbox, d) == SentTo(s.outbox, d)
  {
    Dispatched(s, c, Some(data));
    SendAllSkips(s, Leave, s.conns[c], d);
  }

  /**
   * Any other `type`, an absent one included, is answered with one error to
   * the sender naming it; nothing else changes.
   */
  lemma UnknownRefused(s: State, c: ConnId, msg: Option<Inbound>, d: ConnId)
    requires WellFormed(s.order, s.users, s.conns) && c in s.conns && Dispatch(Decode(msg).kind) == DefaultCase
    ensures Quiet(s, OnMessage(s, c, msg))
    ensures SentTo(OnMessage(s, c, msg).outbox, d)
         == SentTo(s.outbox, d) + (if d == c then [Error(CommandNotFound(Decode(msg).kind))] else [])
  {
    Dispatched(s, c, msg);
    SendDelivers(s, c, Error(CommandNotFound(Decode(msg).kind)), d);
  }

  /** Text that is not JSON is read as `{}`, whose absent `type` prints as "undefined". */
  lemma Undecodable(s: State, c: ConnId)
    requires WellFormed(s.order, s.users, s.conns) && c in s.conns
    ensures OnMessage(s, c, None) == Send(s, c, Error("Command not found: undefined"))
  {
    Dispatched(s, c, None);
    AbsentCommand();
  }

  /**
   * `close` deletes the key of the connection's current name -- "undefined"
   * for one that never logged in -- and nothing else, and marks it closed.
   */
  lemma CloseUnregisters(s: State, c: ConnId)
    requires WellFormed(s.order, s.users, s.conns) && c in s.conns
    ensures OnClose(s, c).users == s.users - {JsString(s.conns[c].name)}
    ensures OnClose(s, c).order == Without(s.order, JsString(s.conns[c].name))
    ensures OnClose(s, c).conns == s.conns && OnClose(s, c).closed == s.closed + {c}
    ensures OnClose(s, c).nextConn == s.nextConn && OnClose(s, c).nextId == s.nextId
  {
    SendAllCounts(Depart(s, c), Leave, s.conns[c], c);
  }

  /** `close` announces the departure once to every client left under a single key and another name. */
  lemma CloseAnnounced(s: State, c: ConnId, k: string)
    requires WellFormed(s.order, s.users, s.conns) && c in s.conns
    requires OnlyKey(Depart(s, c).users, k) && s.conns[s.users[k]].name != s.conns[c].name
    ensures SentTo(OnClose(s, c).outbox, s.users[k]) == SentTo(s.outbox, s.users[k]) + [Notice(Leave, Info(s.conns[c]))]
  {
    SendAllReaches(Depart(s, c), Leave, s.conns[c], k);
  }

  /** A client left unregistered, or bearing the closed connection's name, hears nothing of a `close`. */
  lemma CloseUnannounced(s: State, c: ConnId, d: ConnId)
    requires WellFormed(s.order, s.users, s.conns) && c in s.conns
    requires PassedOver(Depart(s, c), s.conns[c].name, d)
    ensures SentTo(OnClose(s, c).outbox, d) == SentTo(s.outbox, d)
  {
    SendAllSkips(Depart(s, c), Leave, s.conns[c], d);
  }

  /** After `close`, a login under the name the connection held succeeds. */
  lemma CloseFreesName(s: State, c: ConnId, c2: ConnId)
    requires WellFormed(s.order, s.users, s.conns) && c in s.conns && c2 in s.conns
    ensures WellFormed(OnClose(s, c).order, OnClose(s, c).users, OnClose(s, c).conns)
    ensures OnLogin(OnClose(s, c), c2, s.conns[c].name).users
         == OnClose(s, c).users[JsString(s.conns[c].name) := c2]
  {
    CloseUnregisters(s, c);
    LoginAccepted(OnClose(s, c), c2, s.conns[c].name);
  }

  /**
   * `close` does not touch the other keys of a connection that logged in
   * twice: the closed connection stays registered under its earlier name.
   */
  lemma CloseKeepsEarlierKey(s: State, c: ConnId, k: string)
    requires WellFormed(s.order, s.users, s.conns) && c in s.conns && k in s.users && s.users[k] == c
    requires k != JsString(s.conns[c].name)
    ensures c in OnClose(s, c).closed && k in OnClose(s, c).users && OnClose(s, c).users[k] == c
  {
    CloseUnregisters(s, c);
  }
}
