/**
 * The registry of server/index.js as values: the `users` object (name ->
 * connection), the order in which its keys were added (which is the order
 * `Object.values` enumerates), and the `name`/`id` fields each connection
 * object carries.  The functions here are what `Object.values`, the login
 * snapshot and `sendToAll` compute; the lemmas say what those results mean.
 */
module Registry {
  import opened Wrappers
  import opened Protocol

  /** The mutable fields `ws.name` and `ws.id` of one connection object. */
  datatype Conn = Conn(name: Option<string>, id: Option<Id>)

  /** The `{ id, userName }` view of a connection, read from its current fields. */
  function Info(c: Conn): UserInfo
  {
    UserInfo(c.id, c.name)
  }

  ghost predicate NoDuplicates<T>(s: seq<T>)
  {
    forall i, j :: 0 <= i < j < |s| ==> s[i] != s[j]
  }

  /**
   * A well-formed registry: `order` lists every key of `users` exactly once,
   * and every registered connection has a record.
   */
  ghost predicate WellFormed(order: seq<string>, users: map<string, ConnId>, conns: map<ConnId, Conn>)
  {
    && NoDuplicates(order)
    && (forall k :: k in order <==> k in users)
    && (forall k :: k in users ==> users[k] in conns)
  }

  /** `users[key] = c` with `c`'s fields set to `me`, for a key not yet present, keeps the registry well formed. */
  lemma Register(
    order: seq<string>, users: map<string, ConnId>, conns: map<ConnId, Conn>, key: string, c: ConnId, me: Conn)
    requires WellFormed(order, users, conns)
    requires key !in users && c in conns
    ensures WellFormed(order + [key], users[key := c], conns[c := me])
  {
    assert key !in order;
  }

  /** `delete users[key]` keeps the registry well formed. */
  lemma Unregister(order: seq<string>, users: map<string, ConnId>, conns: map<ConnId, Conn>, key: string)
    requires WellFormed(order, users, conns)
    ensures WellFormed(Without(order, key), users - {key}, conns)
  {
    WithoutMembership(order, key);
  }

  /** `Object.values(users)`: the registered connections, one per key, in key order. */
  function Values(order: seq<string>, users: map<string, ConnId>): seq<ConnId>
    requires forall k :: k in order ==> k in users
  {
    if order == [] then []
    else Values(order[..|order| - 1], users) + [users[order[|order| - 1]]]
  }

  /** Position `i` of `Object.values(users)` is the connection under the `i`-th key. */
  lemma {:induction false} ValuesIndex(order: seq<string>, users: map<string, ConnId>)
    requires forall k :: k in order ==> k in users
    ensures |Values(order, users)| == |order|
    ensures forall i :: 0 <= i < |order| ==> Values(order, users)[i] == users[order[i]]
  {
    if order != [] {
      ValuesIndex(order[..|order| - 1], users);
    }
  }

  /** Every connection `Object.values(users)` lists has a record. */
  lemma ValuesRegistered(order: seq<string>, users: map<string, ConnId>, conns: map<ConnId, Conn>)
    requires WellFormed(order, users, conns)
    ensures forall d :: d in Values(order, users) ==> d in conns
  {
    var vs := Values(order, users);
    ValuesIndex(order, users);
    forall d | d in vs ensures d in conns {
      var i :| 0 <= i < |vs| && vs[i] == d;
    }
  }

  /** Every send of a broadcast over the registry is addressed to a connection that has a record. */
  lemma BroadcastRegistered(
    order: seq<string>, users: map<string, ConnId>, conns: map<ConnId, Conn>, userName: Option<string>, env: Envelope)
    requires WellFormed(order, users, conns)
    ensures forall d :: d in Values(order, users) ==> d in conns
    ensures forall p :: p in Broadcast(Values(order, users), conns, userName, env) ==> p.0 in conns
  {
    ValuesRegistered(order, users, conns);
    BroadcastSound(Values(order, users), conns, userName, env);
  }

  /** The key order after `delete users[key]`. */
  function Without(order: seq<string>, key: string): seq<string>
  {
    if order == [] then []
    else
      var rest := Without(order[..|order| - 1], key);
      var last := order[|order| - 1];
      if last == key then rest else rest + [last]
  }

  /**
   * Deleting `key` removes it, keeps the other keys and their order free of
   * repeats, and deleting a key that is not there changes nothing.
   */
  lemma {:induction false} WithoutMembership(order: seq<string>, key: string)
    ensures forall k :: k in Without(order, key) <==> k in order && k != key
    ensures NoDuplicates(order) ==> NoDuplicates(Without(order, key))
    ensures key !in order ==> Without(order, key) == order
  {
    if order != [] {
      var init := order[..|order| - 1];
      var last := order[|order| - 1];
      WithoutMembership(init, key);
      assert order == init + [last];
      assert NoDuplicates(order) ==> NoDuplicates(init) && last !in init;
    }
  }

  /** Deleting the key at position `p` leaves the keys before and after it, in their order. */
  lemma {:induction false} WithoutAt(order: seq<string>, key: string, p: nat)
    requires NoDuplicates(order) && p < |order| && order[p] == key
    ensures Without(order, key) == order[..p] + order[p + 1..]
  {
    var init := order[..|order| - 1];
    var last := order[|order| - 1];
    DropLast(order);
    if p == |order| - 1 {
      WithoutMembership(init, key);
      assert order[..p] == init;
    } else {
      assert last != key;
      WithoutAt(init, key, p);
      assert order[..p] == init[..p];
      assert order[p + 1..] == init[p + 1..] + [last];
    }
  }

  /** `clients.map(({ id, name: userName }) => ({ id, userName }))`. */
  function Snapshot(clients: seq<ConnId>, conns: map<ConnId, Conn>): seq<UserInfo>
    requires forall c :: c in clients ==> c in conns
  {
    if clients == [] then []
    else Snapshot(clients[..|clients| - 1], conns) + [Info(conns[clients[|clients| - 1]])]
  }

  /** Entry `i` of the snapshot is the `{ id, userName }` of client `i`. */
  lemma {:induction false} SnapshotIndex(clients: seq<ConnId>, conns: map<ConnId, Conn>)
    requires forall c :: c in clients ==> c in conns
    ensures |Snapshot(clients, conns)| == |clients|
    ensures forall i :: 0 <= i < |clients| ==> Snapshot(clients, conns)[i] == Info(conns[clients[i]])
  {
    if clients != [] {
      SnapshotIndex(clients[..|clients| - 1], conns);
    }
  }

  /**
   * The sends `sendToAll` makes: `env` to each client, in order, whose current
   * `name` differs from `userName`.
   */
  function Broadcast(clients: seq<ConnId>, conns: map<ConnId, Conn>, userName: Option<string>, env: Envelope)
    : seq<(ConnId, Envelope)>
    requires forall c :: c in clients ==> c in conns
  {
    if clients == [] then []
    else
      var rest := Broadcast(clients[..|clients| - 1], conns, userName, env);
      var last := clients[|clients| - 1];
      if conns[last].name != userName then rest + [(last, env)] else rest
  }

  /** Every send of a broadcast carries `env` to one of the clients whose name is not `userName`. */
  lemma {:induction false} BroadcastSound(
    clients: seq<ConnId>, conns: map<ConnId, Conn>, userName: Option<string>, env: Envelope)
    requires forall c :: c in clients ==> c in conns
    ensures forall p :: p in Broadcast(clients, conns, userName, env) ==>
      p.0 in clients && conns[p.0].name != userName && p.1 == env
  {
    if clients != [] {
      var init := clients[..|clients| - 1];
      BroadcastSound(init, conns, userName, env);
      assert clients == init + [clients[|clients| - 1]];
    }
  }

  /** The envelopes in `out` addressed to connection `c`, in the order they were sent. */
  function SentTo(out: seq<(ConnId, Envelope)>, c: ConnId): seq<Envelope>
  {
    if out == [] then []
    else SentTo(out[..|out| - 1], c) + (if out[|out| - 1].0 == c then [out[|out| - 1].1] else [])
  }

  function Repeat(env: Envelope, n: nat): (r: seq<Envelope>)
    ensures |r| == n && forall i :: 0 <= i < n ==> r[i] == env
  {
    if n == 0 then [] else Repeat(env, n - 1) + [env]
  }

  /** What a connection receives from a sequence of sends is what it receives from each part. */
  lemma {:induction false} SentToAppend(a: seq<(ConnId, Envelope)>, b: seq<(ConnId, Envelope)>, c: ConnId)
    ensures SentTo(a + b, c) == SentTo(a, c) + SentTo(b, c)
  {
    if b == [] {
      assert a + b == a;
    } else {
      var b' := b[..|b| - 1];
      assert (a + b)[..|a + b| - 1] == a + b';
      SentToAppend(a, b', c);
    }
  }

  /**
   * `sendToAll` delivers to `c` one copy of the envelope per time `c` occurs
   * among the clients, unless `c`'s name is the excluded one; then nothing.
   */
  lemma {:induction false} BroadcastSentTo(
    clients: seq<ConnId>, conns: map<ConnId, Conn>, userName: Option<string>, env: Envelope, c: ConnId)
    requires forall d :: d in clients ==> d in conns
    ensures SentTo(Broadcast(clients, conns, userName, env), c)
         == if c in conns && conns[c].name == userName then [] else Repeat(env, multiset(clients)[c])
  {
    if clients != [] {
      var init := clients[..|clients| - 1];
      var last := clients[|clients| - 1];
      CountLast(clients, c);
      BroadcastSentTo(init, conns, userName, env, c);
      if conns[last].name != userName {
        SentToAppend(Broadcast(init, conns, userName, env), [(last, env)], c);
        assert [(last, env)][..0] == [];
      }
    }
  }

  /** Occurrences of `c` in a non-empty sequence: those before the last element, plus the last. */
  lemma CountLast(s: seq<ConnId>, c: ConnId)
    requires s != []
    ensures multiset(s)[c] == multiset(s[..|s| - 1])[c] + (if s[|s| - 1] == c then 1 else 0)
  {
    assert s == s[..|s| - 1] + [s[|s| - 1]];
  }

  /** A connection occurs in `Object.values(users)` exactly when some key maps to it. */
  lemma {:induction false} ValuesMembership(order: seq<string>, users: map<string, ConnId>, c: ConnId)
    requires forall k :: k in order ==> k in users
    ensures c in Values(order, users) <==> exists k :: k in order && users[k] == c
  {
    var vs := Values(order, users);
    ValuesIndex(order, users);
    if c in vs {
      var i :| 0 <= i < |vs| && vs[i] == c;
      assert order[i] in order && users[order[i]] == c;
    }
    if exists k :: k in order && users[k] == c {
      var k :| k in order && users[k] == c;
      var i :| 0 <= i < |order| && order[i] == k;
      assert vs[i] == c;
    }
  }

  /** A connection registered under one key only occurs once in `Object.values(users)`. */
  lemma {:induction false} ValuesOnce(order: seq<string>, users: map<string, ConnId>, k: string)
    requires NoDuplicates(order)
    requires forall k' :: k' in order ==> k' in users
    requires k in order
    requires forall k' :: k' in order && users[k'] == users[k] ==> k' == k
    ensures multiset(Values(order, users))[users[k]] == 1
  {
    var init := order[..|order| - 1];
    var last := order[|order| - 1];
    assert order == init + [last];
    assert NoDuplicates(init);
    assert Values(order, users) == Values(init, users) + [users[last]];
    if last == k {
      assert k !in init;
      ValuesMembership(init, users, users[k]);
      assert users[k] !in Values(init, users);
    } else {
      assert k in init;
      ValuesOnce(init, users, k);
    }
  }

  /**
   * The login reply lists exactly the `{ id, userName }` of the connections
   * registered when it is built, one entry per key.
   */
  lemma {:induction false} SnapshotMembership(
    order: seq<string>, users: map<string, ConnId>, conns: map<ConnId, Conn>, u: UserInfo)
    requires WellFormed(order, users, conns)
    ensures forall d :: d in Values(order, users) ==> d in conns
    ensures |Snapshot(Values(order, users), conns)| == |users|
    ensures u in Snapshot(Values(order, users), conns) <==> exists k :: k in users && u == Info(conns[users[k]])
  {
    var vs := Values(order, users);
    ValuesRegistered(order, users, conns);
    var snap := Snapshot(vs, conns);
    DistinctLength(order, users);
    ValuesIndex(order, users);
    SnapshotIndex(vs, conns);
    if u in snap {
      var i :| 0 <= i < |snap| && snap[i] == u;
      assert order[i] in users && u == Info(conns[users[order[i]]]);
    }
    if exists k :: k in users && u == Info(conns[users[k]]) {
      var k :| k in users && u == Info(conns[users[k]]);
      assert k in order;
      var i :| 0 <= i < |order| && order[i] == k;
      assert snap[i] == u;
    }
  }

  /** Dropping the last element of a sequence without repeats leaves one without repeats that lacks it. */
  lemma DropLast<T>(s: seq<T>)
    requires NoDuplicates(s) && s != []
    ensures NoDuplicates(s[..|s| - 1]) && s[|s| - 1] !in s[..|s| - 1]
  {
  }

  /** A duplicate-free key order as long as the key set has as many elements as the map has keys. */
  lemma {:induction false} DistinctLength(order: seq<string>, users: map<string, ConnId>)
    requires NoDuplicates(order)
    requires forall k :: k in order <==> k in users
    ensures |order| == |users|
  {
    if order == [] {
      assert users.Keys == {};
    } else {
      var last := order[|order| - 1];
      var init := order[..|order| - 1];
      DropLast(order);
      var rest := users - {last};
      assert forall k :: k in order <==> k in init || k == last;
      DistinctLength(init, rest);
      assert |rest| == |users| - 1;
    }
  }

  /**
   * An id no registered connection holds never appears in a snapshot: the
   * user being admitted is not in the list it is sent.
   */
  lemma SnapshotOmitsFresh(clients: seq<ConnId>, conns: map<ConnId, Conn>, next: Id)
    requires forall c :: c in clients ==> c in conns
    requires forall c :: c in conns && conns[c].id.Some? ==> conns[c].id.value < next
    ensures forall u :: u in Snapshot(clients, conns) ==> u.id != Some(next)
  {
    var snap := Snapshot(clients, conns);
    SnapshotIndex(clients, conns);
    forall u | u in snap ensures u.id != Some(next) {
      var i :| 0 <= i < |snap| && snap[i] == u;
    }
  }

  /**
   * In a well-formed registry, a client registered under a single key whose
   * name differs from `userName` receives the broadcast exactly once.
   */
  lemma BroadcastOnce(
    order: seq<string>, users: map<string, ConnId>, conns: map<ConnId, Conn>,
    userName: Option<string>, env: Envelope, k: string)
    requires WellFormed(order, users, conns)
    requires k in users && conns[users[k]].name != userName
    requires forall k' :: k' in users && users[k'] == users[k] ==> k' == k
    ensures forall d :: d in Values(order, users) ==> d in conns
    ensures SentTo(Broadcast(Values(order, users), conns, userName, env), users[k]) == [env]
  {
    var vs := Values(order, users);
    ValuesRegistered(order, users, conns);
    ValuesOnce(order, users, k);
    BroadcastSentTo(vs, conns, userName, env, users[k]);
    assert Repeat(env, 1) == [env];
  }

  /**
   * No broadcast ever reaches a connection that is not registered, nor one
   * whose name is the excluded name (the sender itself, after a login).
   */
  lemma BroadcastSkips(
    order: seq<string>, users: map<string, ConnId>, conns: map<ConnId, Conn>,
    userName: Option<string>, env: Envelope, c: ConnId)
    requires WellFormed(order, users, conns)
    requires c !in users.Values || conns[c].name == userName
    ensures forall d :: d in Values(order, users) ==> d in conns
    ensures SentTo(Broadcast(Values(order, users), conns, userName, env), c) == []
  {
    var vs := Values(order, users);
    ValuesRegistered(order, users, conns);
    ValuesMembership(order, users, c);
    BroadcastSentTo(vs, conns, userName, env, c);
  }
}
