/**
 * Two participants meeting through the relay, derived from the general
 * lemmas of `Behaviour`: alice connects and logs in, a second connection is
 * refused the same name, bob logs in and is shown alice while alice is told
 * about bob, then alice's connection closes, bob is told, and the name
 * "alice" can be taken again.  Each stage is stated for every state of the
 * shape it needs, and `AliceIn`, `SecondAlice`, `BobIn` and `AliceGone` string
 * the stages together from start-up, where connections are numbered in the
 * order they open: alice is 0, the refused one 1, bob 2.
 */
module Scenario {
  import opened Wrappers
  import opened Protocol
  import opened Registry
  import opened Handlers
  import opened Behaviour

  /**
   * A fresh connection opens and logs in as `name`: the `login` arm of the
   * message handler, which `Protocol.Dispatch` selects for `{"type":"login"}`.
   */
  ghost function JoinAs(s: State, name: string): State
    requires WellFormed(s.order, s.users, s.conns)
  {
    OnLogin(OnConnection(s), s.nextConn, Some(name))
  }

  /** Opening a connection and logging in on it keeps the invariant. */
  lemma JoinKeeps(s: State, name: string)
    requires Invariant(s)
    ensures Invariant(JoinAs(s, name))
  {
    OnConnectionPreserves(s);
    OnLoginPreserves(OnConnection(s), s.nextConn, Some(name));
  }

  /** Connection `c` closes. */
  ghost function HangUp(s: State, c: ConnId): (t: State)
    requires Invariant(s) && c in s.conns
    ensures Invariant(t)
  {
    OnClosePreserves(s, c);
    OnClose(s, c)
  }

  /** alice, and only alice, is registered: connection 0, id 0. */
  ghost predicate AliceAlone(s: State)
  {
    && Invariant(s)
    && s.users == map["alice" := 0] && s.order == ["alice"]
    && 0 in s.conns && s.conns[0] == Conn(Some("alice"), Some(0)) && s.nextId == 1
  }

  /** alice (connection 0, id 0) and bob (connection `b`, id 1) are registered. */
  ghost predicate AliceAndBob(s: State, b: ConnId)
  {
    && Invariant(s) && b != 0
    && s.users == map["alice" := 0, "bob" := b] && s.order == ["alice", "bob"]
    && 0 in s.conns && s.conns[0] == Conn(Some("alice"), Some(0))
    && b in s.conns && s.conns[b] == Conn(Some("bob"), Some(1))
  }

  /** bob alone is registered, on connection `b`. */
  ghost predicate BobAlone(s: State, b: ConnId)
  {
    Invariant(s) && s.users == map["bob" := b] && s.order == ["bob"]
  }

  /** The relay as it starts: nobody registered, no connection opened, no id handed out. */
  ghost predicate Empty(s: State)
  {
    Invariant(s) && s.users == map[] && s.order == [] && s.nextConn == 0 && s.nextId == 0
  }

  /** alice, first on an empty relay, is registered alone. */
  lemma AliceFirst(s: State)
    requires Empty(s)
    ensures AliceAlone(JoinAs(s, "alice")) && JoinAs(s, "alice").nextConn == 1
  {
    JoinKeeps(s, "alice");
    OpenGreets(s, 0);
    LoginAccepted(OnConnection(s), 0, Some("alice"));
  }

  /** alice is greeted and told that nobody else is there. */
  lemma AliceGreeted(s: State)
    requires Empty(s)
    ensures SentTo(JoinAs(s, "alice").outbox, 0) == [Connect(Greeting), LoginSuccess([])]
  {
    var o := OnConnection(s);
    OpenGreets(s, 0);
    assert LoginList(o) == [];
    LoginAnswered(o, 0, Some("alice"));
  }

  /** A second "alice" is refused and nothing about the registry changes. */
  lemma NameTaken(s: State)
    requires AliceAlone(s)
    ensures AliceAlone(JoinAs(s, "alice")) && JoinAs(s, "alice").nextConn == s.nextConn + 1
  {
    JoinKeeps(s, "alice");
    OpenGreets(s, 0);
    LoginRefused(OnConnection(s), s.nextConn, Some("alice"), 0);
  }

  /** The refused connection hears the greeting and the refusal; alice hears nothing. */
  lemma NameTakenReplies(s: State)
    requires AliceAlone(s)
    ensures SentTo(JoinAs(s, "alice").outbox, s.nextConn) == [Connect(Greeting), LoginFailure(Unavailable)]
    ensures SentTo(JoinAs(s, "alice").outbox, 0) == SentTo(s.outbox, 0)
  {
    var o := OnConnection(s);
    OpenGreets(s, 0);
    LoginRefused(o, s.nextConn, Some("alice"), 0);
    LoginRefused(o, s.nextConn, Some("alice"), s.nextConn);
  }

  /** The reply to a login while alice alone is registered lists her. */
  lemma AliceListed(s: State)
    requires WellFormed(s.order, s.users, s.conns)
    requires s.order == ["alice"] && s.users == map["alice" := 0] && 0 in s.conns
    requires s.conns[0] == Conn(Some("alice"), Some(0))
    ensures LoginList(s) == [UserInfo(Some(0), Some("alice"))]
  {
    assert s.order[..0] == [];
    assert Values(s.order, s.users) == Values([], s.users) + [0];
    assert [0][..0] == [];
    assert Snapshot([0], s.conns) == Snapshot([], s.conns) + [Info(s.conns[0])];
  }

  /** bob is registered next to alice, under the next id. */
  lemma BobJoins(s: State)
    requires AliceAlone(s)
    ensures AliceAndBob(JoinAs(s, "bob"), s.nextConn)
  {
    JoinKeeps(s, "bob");
    OpenGreets(s, 0);
    LoginAccepted(OnConnection(s), s.nextConn, Some("bob"));
  }

  /** bob is greeted and shown alice. */
  lemma BobShownAlice(s: State)
    requires AliceAlone(s)
    ensures SentTo(JoinAs(s, "bob").outbox, s.nextConn) == [Connect(Greeting), LoginSuccess([UserInfo(Some(0), Some("alice"))])]
  {
    var o := OnConnection(s);
    OpenGreets(s, 0);
    AliceListed(o);
    LoginAnswered(o, s.nextConn, Some("bob"));
  }

  /** alice is told, once, that bob arrived. */
  lemma AliceToldOfBob(s: State)
    requires AliceAlone(s)
    ensures SentTo(JoinAs(s, "bob").outbox, 0) == SentTo(s.outbox, 0) + [Notice(UpdateUsers, UserInfo(Some(1), Some("bob")))]
  {
    var o := OnConnection(s);
    OpenGreets(s, 0);
    LoginAnnounced(o, s.nextConn, Some("bob"), "alice");
  }

  lemma AliceRemoved()
    ensures Without(["alice", "bob"], "alice") == ["bob"]
  {
    assert ["alice", "bob"][..1] == ["alice"];
    assert ["alice"][..0] == [];
  }

  /** alice's connection closes: only bob stays registered. */
  lemma AliceHangsUp(s: State, b: ConnId)
    requires AliceAndBob(s, b)
    ensures BobAlone(HangUp(s, 0), b) && HangUp(s, 0).nextConn == s.nextConn
  {
    CloseUnregisters(s, 0);
    AliceRemoved();
  }

  /** bob is told, once, that alice left. */
  lemma BobToldAliceLeft(s: State, b: ConnId)
    requires AliceAndBob(s, b)
    ensures SentTo(HangUp(s, 0).outbox, b) == SentTo(s.outbox, b) + [Notice(Leave, UserInfo(Some(0), Some("alice")))]
  {
    assert Depart(s, 0).users == map["bob" := b];
    CloseAnnounced(s, 0, "bob");
  }

  /** Once alice is gone her name is free: the next connection takes it. */
  lemma AliceReturns(s: State, b: ConnId)
    requires BobAlone(s, b)
    ensures JoinAs(s, "alice").users == map["bob" := b, "alice" := s.nextConn]
  {
    OpenGreets(s, 0);
    LoginAccepted(OnConnection(s), s.nextConn, Some("alice"));
  }

  // ---------------------------------------------------------------------
  // A sequence of logins under distinct names.

  /** A fresh connection logs in under each of `names`, in turn. */
  ghost function JoinAll(s: State, names: seq<string>): (t: State)
    requires Invariant(s)
    ensures Invariant(t)
    decreases |names|
  {
    if names == [] then s
    else
      var before := JoinAll(s, names[..|names| - 1]);
      JoinKeeps(before, names[|names| - 1]);
      JoinAs(before, names[|names| - 1])
  }

  /**
   * `t` is `s` after the `i`-th of `names` logged in on connection
   * `s.nextConn + i` and was given id `s.nextId + i`, each under its own key
   * and after the keys already present; the earlier keys keep their
   * connections.
   */
  ghost predicate Joined(s: State, names: seq<string>, t: State)
  {
    && t.nextConn == s.nextConn + |names| && t.nextId == s.nextId + |names|
    && t.order == s.order + names
    && (forall k :: k in t.users <==> k in s.users || k in names)
    && (forall k :: k in s.users ==> k in t.users && t.users[k] == s.users[k])
    && (forall i :: 0 <= i < |names| ==> names[i] in t.users && t.users[names[i]] == s.nextConn + i)
    && (forall i :: 0 <= i < |names| ==> Bears(t, s.nextConn + i, names[i], s.nextId + i))
  }

  /** Connection `c` of `t` has logged in under `name` and holds id `id`. */
  ghost predicate Bears(t: State, c: ConnId, name: string, id: Id)
  {
    c in t.conns && t.conns[c] == Conn(Some(name), Some(id))
  }

  /** A login on a fresh connection under a name nobody holds registers the name, as the last key, for that connection. */
  lemma JoinFresh(t: State, n: string)
    requires WellFormed(t.order, t.users, t.conns) && n !in t.users && t.nextConn !in t.conns
    ensures JoinAs(t, n).users == t.users[n := t.nextConn] && JoinAs(t, n).order == t.order + [n]
  {
    Connected(t);
    LoginAccepted(OnConnection(t), t.nextConn, Some(n));
  }

  /** That login gives the connection the name and the next id, and advances both counters. */
  lemma JoinRecord(t: State, n: string)
    requires WellFormed(t.order, t.users, t.conns) && n !in t.users && t.nextConn !in t.conns
    ensures JoinAs(t, n).conns == t.conns[t.nextConn := Conn(Some(n), Some(t.nextId))]
    ensures JoinAs(t, n).nextConn == t.nextConn + 1 && JoinAs(t, n).nextId == t.nextId + 1
  {
    Connected(t);
    LoginAccepted(OnConnection(t), t.nextConn, Some(n));
  }

  /** A new connection changes the registry only by the fresh, unnamed connection. */
  lemma Connected(t: State)
    requires WellFormed(t.order, t.users, t.conns)
    ensures WellFormed(OnConnection(t).order, OnConnection(t).users, OnConnection(t).conns)
    ensures OnConnection(t).users == t.users && OnConnection(t).order == t.order
    ensures OnConnection(t).conns == t.conns[t.nextConn := Conn(None, None)]
    ensures OnConnection(t).nextConn == t.nextConn + 1 && OnConnection(t).nextId == t.nextId
  {
  }

  /** Registering one more name on the next connection, with the next id, extends a run of logins. */
  lemma JoinedExtend(s: State, names: seq<string>, t: State, n: string, u: State)
    requires Joined(s, names, t) && n !in t.users
    requires u.users == t.users[n := t.nextConn] && u.order == t.order + [n]
    requires u.conns == t.conns[t.nextConn := Conn(Some(n), Some(t.nextId))]
    requires u.nextConn == t.nextConn + 1 && u.nextId == t.nextId + 1
    ensures Joined(s, names + [n], u)
  {
    var all := names + [n];
    assert u.order == s.order + all;
    forall k
      ensures k in u.users <==> k in s.users || k in all
    {
      assert k in all <==> k in names || k == n;
    }
    forall k | k in s.users
      ensures k in u.users && u.users[k] == s.users[k]
    {
      assert k in t.users && k != n;
    }
    forall i | 0 <= i < |all|
      ensures all[i] in u.users && u.users[all[i]] == s.nextConn + i
    {
      if i < |names| {
        assert all[i] == names[i] && names[i] in t.users;
      }
    }
    forall i | 0 <= i < |all|
      ensures Bears(u, s.nextConn + i, all[i], s.nextId + i)
    {
      if i < |names| {
        assert all[i] == names[i] && s.nextConn + i != t.nextConn;
      }
    }
  }

  /**
   * Logins under distinct names nobody holds all succeed: afterwards each
   * name is registered to the connection that chose it, which bears that
   * name and its own fresh id, and every earlier key is kept.
   */
  lemma {:induction false} Logins(s: State, names: seq<string>)
    requires Invariant(s) && NoDuplicates(names) && forall n :: n in names ==> n !in s.users
    ensures Joined(s, names, JoinAll(s, names))
  {
    if names != [] {
      var init := names[..|names| - 1];
      var n := names[|names| - 1];
      DropLast(names);
      Logins(s, init);
      assert init + [n] == names;
      LoginsStep(s, init, n, JoinAll(s, init), JoinAll(s, names));
    }
  }

  /** One more login, under a name not yet registered, extends the run. */
  lemma LoginsStep(s: State, init: seq<string>, n: string, t: State, u: State)
    requires Invariant(t) && Joined(s, init, t) && n !in s.users && n !in init
    requires u == JoinAs(t, n)
    ensures Joined(s, init + [n], u)
  {
    assert n !in t.users;
    JoinFresh(t, n);
    JoinRecord(t, n);
    JoinedExtend(s, init, t, n, u);
  }

  /** The login list has one entry per key. */
  lemma ListedLength(t: State)
    requires WellFormed(t.order, t.users, t.conns)
    ensures |LoginList(t)| == |t.order|
  {
    ValuesRegistered(t.order, t.users, t.conns);
    ValuesIndex(t.order, t.users);
    SnapshotIndex(Values(t.order, t.users), t.conns);
  }

  /** Entry `j` of the login list is the `{ id, userName }` of the connection under the `j`-th key. */
  lemma ListedAt(t: State, j: nat, c: ConnId, who: Conn)
    requires WellFormed(t.order, t.users, t.conns) && j < |t.order|
    requires t.users[t.order[j]] == c && c in t.conns && t.conns[c] == who
    ensures j < |LoginList(t)| && LoginList(t)[j] == Info(who)
  {
    ValuesRegistered(t.order, t.users, t.conns);
    ValuesIndex(t.order, t.users);
    SnapshotIndex(Values(t.order, t.users), t.conns);
  }

  /** The login list of a registry a run of logins produced from `s`. */
  lemma JoinedListed(s: State, names: seq<string>, t: State)
    requires WellFormed(s.order, s.users, s.conns) && WellFormed(t.order, t.users, t.conns)
    requires Joined(s, names, t)
    ensures |LoginList(t)| == |s.users| + |names|
    ensures forall i :: 0 <= i < |names| ==> LoginList(t)[|s.users| + i] == UserInfo(Some(s.nextId + i), Some(names[i]))
  {
    DistinctLength(s.order, s.users);
    ListedEntries(s, names, t);
  }

  /** The entries of the login list that the run of logins added. */
  lemma ListedEntries(s: State, names: seq<string>, t: State)
    requires WellFormed(t.order, t.users, t.conns) && |s.order| == |s.users| && Joined(s, names, t)
    ensures |LoginList(t)| == |s.users| + |names|
    ensures forall i :: 0 <= i < |names| ==> LoginList(t)[|s.users| + i] == UserInfo(Some(s.nextId + i), Some(names[i]))
  {
    ListedLength(t);
    forall i | 0 <= i < |names|
      ensures LoginList(t)[|s.users| + i] == UserInfo(Some(s.nextId + i), Some(names[i]))
    {
      ListedEntry(s, names, t, i);
    }
  }

  /** The entry of the `i`-th name of the run. */
  lemma ListedEntry(s: State, names: seq<string>, t: State, i: nat)
    requires WellFormed(t.order, t.users, t.conns) && |s.order| == |s.users| && t.order == s.order + names
    requires i < |names| && names[i] in t.users && t.users[names[i]] == s.nextConn + i
    requires Bears(t, s.nextConn + i, names[i], s.nextId + i)
    ensures |s.users| + i < |LoginList(t)| && LoginList(t)[|s.users| + i] == UserInfo(Some(s.nextId + i), Some(names[i]))
  {
    assert t.order[|s.order| + i] == names[i];
    ListedAt(t, |s.order| + i, s.nextConn + i, Conn(Some(names[i]), Some(s.nextId + i)));
  }

  /**
   * After such a run of logins the login list holds, after the users who
   * were there before, the `i`-th name with the id `s.nextId + i`, in the
   * order they logged in; so the new names appear once each with distinct ids.
   */
  lemma LoginsListed(s: State, names: seq<string>)
    requires Invariant(s) && NoDuplicates(names) && forall n :: n in names ==> n !in s.users
    ensures Joined(s, names, JoinAll(s, names))
    ensures |LoginList(JoinAll(s, names))| == |s.users| + |names|
    ensures forall i :: 0 <= i < |names| ==>
      LoginList(JoinAll(s, names))[|s.users| + i] == UserInfo(Some(s.nextId + i), Some(names[i]))
  {
    Logins(s, names);
    JoinedListed(s, names, JoinAll(s, names));
  }

  // ---------------------------------------------------------------------
  // The stages from start-up.

  ghost function AliceIn(): (t: State)
    ensures AliceAlone(t) && t.nextConn == 1
  {
    InitialInvariant();
    AliceFirst(Initial);
    JoinAs(Initial, "alice")
  }

  ghost function SecondAlice(): (t: State)
    ensures AliceAlone(t) && t.nextConn == 2
  {
    NameTaken(AliceIn());
    JoinAs(AliceIn(), "alice")
  }

  ghost function BobIn(): (t: State)
    ensures AliceAndBob(t, 2) && t.nextConn == 3
  {
    BobJoins(SecondAlice());
    JoinAs(SecondAlice(), "bob")
  }

  ghost function AliceGone(): (t: State)
    ensures BobAlone(t, 2) && t.nextConn == 3
  {
    AliceHangsUp(BobIn(), 2);
    HangUp(BobIn(), 0)
  }

  /** alice hears the greeting and an empty list of users. */
  lemma AliceHearsWelcome()
    ensures SentTo(AliceIn().outbox, 0) == [Connect(Greeting), LoginSuccess([])]
  {
    InitialInvariant();
    AliceGreeted(Initial);
  }

  /** The second connection hears the greeting and the refusal. */
  lemma SecondAliceHearsRefusal()
    ensures SentTo(SecondAlice().outbox, 1) == [Connect(Greeting), LoginFailure(Unavailable)]
  {
    NameTakenReplies(AliceIn());
  }

  /** By the time bob is in, alice has heard exactly the greeting, her reply, and bob's arrival. */
  lemma AliceHearsBob()
    ensures SentTo(BobIn().outbox, 0)
         == [Connect(Greeting), LoginSuccess([]), Notice(UpdateUsers, UserInfo(Some(1), Some("bob")))]
  {
    var a := AliceIn();
    var r := SecondAlice();
    AliceHearsWelcome();
    NameTakenReplies(a);
    assert SentTo(r.outbox, 0) == SentTo(a.outbox, 0);
    AliceToldOfBob(r);
  }

  /** By the time alice is gone, bob has heard exactly the greeting, his reply listing alice, and her departure. */
  lemma BobHearsAliceLeave()
    ensures SentTo(AliceGone().outbox, 2)
         == [Connect(Greeting), LoginSuccess([UserInfo(Some(0), Some("alice"))]), Notice(Leave, UserInfo(Some(0), Some("alice")))]
  {
    BobHearsAlice();
    BobToldAliceLeft(BobIn(), 2);
  }

  /** Once logged in, bob has heard the greeting and a list holding alice alone. */
  lemma BobHearsAlice()
    ensures SentTo(BobIn().outbox, 2) == [Connect(Greeting), LoginSuccess([UserInfo(Some(0), Some("alice"))])]
  {
    BobShownAlice(SecondAlice());
  }

  /** After alice is gone, the next connection, 3, logs in as "alice". */
  lemma AliceTakesNameAgain()
    ensures JoinAs(AliceGone(), "alice").users == map["bob" := 2, "alice" := 3]
  {
    AliceReturns(AliceGone(), 2);
  }
}
