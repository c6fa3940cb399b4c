/** The broker's connection registry: one dictionary by connection id, one by user. */
module Registry {
  import opened Basics

  type ConnId = string
  type UserId = string

  datatype Conn = Conn(id: ConnId, user: UserId)

  datatype Index = Index(byId: map<ConnId, Conn>, byUser: map<UserId, set<ConnId>>)

  function Ids(x: Index, user: UserId): set<ConnId> {
    if user in x.byUser then x.byUser[user] else {}
  }

  function Added(x: Index, conn: Conn): Index {
    Index(x.byId[conn.id := conn], x.byUser[conn.user := Ids(x, conn.user) + {conn.id}])
  }

  function Removed(x: Index, id: ConnId): Index {
    if id !in x.byId then x
    else
      var user := x.byId[id].user;
      var ids := Ids(x, user) - {id};
      Index(x.byId - {id}, if ids == {} then x.byUser - {user} else x.byUser[user := ids])
  }

  /** Both dictionaries describe the same connections, and no user has an empty entry. */
  ghost predicate Agree(x: Index) {
    (forall id :: id in x.byId ==> x.byId[id].id == id)
    && (forall user :: user in x.byUser ==> x.byUser[user] != {})
    && (forall user, id :: id in Ids(x, user) <==> id in x.byId && x.byId[id].user == user)
  }

  function Connections(x: Index, user: UserId): set<Conn> {
    set id | id in Ids(x, user) && id in x.byId :: x.byId[id]
  }

  // ------------------------------------------------------------------ runs

  datatype Op = Add(conn: Conn) | Remove(id: ConnId)

  function Do(x: Index, op: Op): Index {
    match op
    case Add(conn) => Added(x, conn)
    case Remove(id) => Removed(x, id)
  }

  function After(ops: seq<Op>): Index {
    if ops == [] then Index(map[], map[]) else Do(After(ops[..|ops| - 1]), ops[|ops| - 1])
  }

  /** What a connection's own history says: it is live from its last `add` to the next `remove`. */
  ghost predicate Live(ops: seq<Op>, conn: Conn) {
    exists i :: 0 <= i < |ops| && ops[i] == Add(conn)
                && forall k :: i < k < |ops| ==> ops[k] != Remove(conn.id) && !(ops[k].Add? && ops[k].conn.id == conn.id)
  }

  /** An id that is live is not added again for another user. */
  ghost predicate FreshIds(ops: seq<Op>) {
    forall i :: 0 <= i < |ops| && ops[i].Add? ==>
      forall c :: Live(ops[..i], c) && c.id == ops[i].conn.id ==> c.user == ops[i].conn.user
  }

  lemma LiveAfter(ops: seq<Op>, op: Op, conn: Conn)
    ensures Live(ops + [op], conn) <==>
            op == Add(conn) || (Live(ops, conn) && op != Remove(conn.id) && !(op.Add? && op.conn.id == conn.id))
  {
    var all := ops + [op];
    if op == Add(conn) { assert all[|ops|] == Add(conn); }
    if Live(ops, conn) && op != Remove(conn.id) && !(op.Add? && op.conn.id == conn.id) {
      var i :| 0 <= i < |ops| && ops[i] == Add(conn)
               && forall k :: i < k < |ops| ==> ops[k] != Remove(conn.id) && !(ops[k].Add? && ops[k].conn.id == conn.id);
      assert all[i] == Add(conn);
    }
    if Live(all, conn) && op != Add(conn) {
      var i :| 0 <= i < |all| && all[i] == Add(conn)
               && forall k :: i < k < |all| ==> all[k] != Remove(conn.id) && !(all[k].Add? && all[k].conn.id == conn.id);
      assert ops[i] == Add(conn) && all[|ops|] == op;
      forall k | i < k < |ops| ensures ops[k] != Remove(conn.id) && !(ops[k].Add? && ops[k].conn.id == conn.id) {
        assert all[k] == ops[k];
      }
    }
  }

  /** Theorem: whatever was added and removed, the index by id holds exactly the live connections. */
  lemma {:induction false} ByIdIsLive(ops: seq<Op>, conn: Conn)
    ensures (conn.id in After(ops).byId && After(ops).byId[conn.id] == conn) <==> Live(ops, conn)
  {
    if ops != [] {
      var before, op := ops[..|ops| - 1], ops[|ops| - 1];
      assert ops == before + [op];
      ByIdIsLive(before, conn);
      LiveAfter(before, op, conn);
    }
  }

  lemma {:induction false} KeyedById(ops: seq<Op>)
    ensures forall id :: id in After(ops).byId ==> After(ops).byId[id].id == id
  {
    if ops != [] { KeyedById(ops[..|ops| - 1]); }
  }

  /** `add` keeps the two dictionaries in agreement if and only if the id is not taken by another user. */
  lemma AddKeepsIff(x: Index, conn: Conn)
    requires Agree(x)
    ensures Agree(Added(x, conn)) <==> (conn.id in x.byId ==> x.byId[conn.id].user == conn.user)
  {
    var y := Added(x, conn);
    if conn.id in x.byId && x.byId[conn.id].user != conn.user {
      var first := x.byId[conn.id].user;
      assert conn.id in Ids(x, first);
      assert conn.id in Ids(y, first) && y.byId[conn.id] == conn;
      assert !Agree(y);
    } else {
      forall user, id
        ensures id in Ids(y, user) <==> id in y.byId && y.byId[id].user == user
      {
        assert id in Ids(x, user) <==> id in x.byId && x.byId[id].user == user;
      }
    }
  }

  lemma RemoveKeeps(x: Index, id: ConnId)
    requires Agree(x)
    ensures Agree(Removed(x, id))
  {
    if id in x.byId {
      var user := x.byId[id].user;
      var y := Removed(x, id);
      forall u, i ensures i in Ids(y, u) <==> i in y.byId && y.byId[i].user == u {
        assert i in Ids(x, u) <==> i in x.byId && x.byId[i].user == u;
        assert u == user ==> Ids(y, u) == Ids(x, user) - {id};
      }
    }
  }

  /** Theorem: after any interleaving of adds with fresh ids and removes, both dictionaries hold
      the live connections, and each user's list is exactly that user's live connections. */
  lemma {:induction false} RegistryIsLive(ops: seq<Op>)
    requires FreshIds(ops)
    ensures Agree(After(ops))
    ensures forall user, conn :: conn in Connections(After(ops), user) <==> Live(ops, conn) && conn.user == user
    ensures forall user :: user in After(ops).byUser <==> exists conn :: Live(ops, conn) && conn.user == user
  {
    IndexesAgree(ops);
    var x := After(ops);
    forall user, conn
      ensures conn in Connections(x, user) <==> Live(ops, conn) && conn.user == user
    {
      ByIdIsLive(ops, conn);
      assert conn.id in Ids(x, user) <==> conn.id in x.byId && x.byId[conn.id].user == user;
    }
    forall user
      ensures user in x.byUser <==> exists conn :: Live(ops, conn) && conn.user == user
    {
      if user in x.byUser {
        var id :| id in Ids(x, user);
        assert x.byId[id] in Connections(x, user);
        assert Live(ops, x.byId[id]);
      }
      if conn :| Live(ops, conn) && conn.user == user {
        assert conn in Connections(x, user);
      }
    }
  }

  lemma {:induction false} IndexesAgree(ops: seq<Op>)
    requires FreshIds(ops)
    ensures Agree(After(ops))
  {
    if ops != [] {
      var before, op := ops[..|ops| - 1], ops[|ops| - 1];
      assert FreshIds(before) by {
        forall i | 0 <= i < |before| && before[i].Add?
          ensures forall c :: Live(before[..i], c) && c.id == before[i].conn.id ==> c.user == before[i].conn.user
        {
          assert before[..i] == ops[..i] && ops[i] == before[i];
        }
      }
      IndexesAgree(before);
      if op.Add? {
        var x := After(before);
        AddKeepsIff(x, op.conn);
        if op.conn.id in x.byId {
          ByIdIsLive(before, x.byId[op.conn.id]);
          assert ops[..|ops| - 1] == before;
        }
      } else {
        RemoveKeeps(After(before), op.id);
      }
    }
  }

  /** An id that comes back under another user misroutes: what is sent to the first user reaches
      the second, and after the connection is gone the first user still seems to exist. */
  lemma ReusedIdMisroutes(x: Index, conn: Conn)
    requires Agree(x) && conn.id in x.byId && x.byId[conn.id].user != conn.user
    ensures var first := x.byId[conn.id].user;
      conn in Connections(Added(x, conn), first)
      && first in Removed(Added(x, conn), conn.id).byUser
      && conn.id in Ids(Removed(Added(x, conn), conn.id), first) && conn.id !in Removed(Added(x, conn), conn.id).byId
  {
    var first := x.byId[conn.id].user;
    var y := Added(x, conn);
    assert conn.id in Ids(x, first);
    assert conn.id in Ids(y, first) && y.byId[conn.id] == conn;
    assert conn.id in Ids(Removed(y, conn.id), first);
  }

  // ----------------------------------------------------------------- class

  class ConnectionRegistry {
    var byId: map<ConnId, Conn>
    var byUser: map<UserId, set<ConnId>>

    ghost function Contents(): Index
      reads this
    {
      Index(byId, byUser)
    }

    constructor ()
      ensures Contents() == After([])
    {
      byId, byUser := map[], map[];
    }

    method Add(conn: Conn)
      modifies this
      ensures Contents() == Added(old(Contents()), conn)
    {
      byId := byId[conn.id := conn];
      if conn.user !in byUser { byUser := byUser[conn.user := {}]; }
      byUser := byUser[conn.user := byUser[conn.user] + {conn.id}];
    }

    method Remove(id: ConnId) returns (popped: Option<Conn>)
      modifies this
      ensures Contents() == Removed(old(Contents()), id)
      ensures popped == if id in old(byId) then Some(old(byId)[id]) else None
    {
      if id !in byId { return None; }
      var conn := byId[id];
      byId := byId - {id};
      if conn.user in byUser {
        var ids := byUser[conn.user] - {id};
        byUser := byUser[conn.user := ids];
        if ids == {} { byUser := byUser - {conn.user}; }
      }
      popped := Some(conn);
    }

    /** Each connection of the user once. */
    method ConnectionsForUser(user: UserId) returns (conns: seq<Conn>)
      requires forall id :: id in byId ==> byId[id].id == id
      ensures forall c :: c in conns <==> c in Connections(Contents(), user)
      ensures forall i, k :: 0 <= i < k < |conns| ==> conns[i] != conns[k]
    {
      conns := [];
      var all := if user in byUser then byUser[user] else {};
      var ids := all;
      while ids != {}
        invariant ids <= all
        invariant forall c :: c in conns <==> c.id in all - ids && c.id in byId && byId[c.id] == c
        invariant forall i, k :: 0 <= i < k < |conns| ==> conns[i] != conns[k]
        decreases ids
      {
        var id :| id in ids;
        ids := ids - {id};
        if id in byId { conns := conns + [byId[id]]; }
      }
    }

    predicate UserExists(user: UserId)
      reads this
    {
      user in byUser && byUser[user] != {}
    }

    function Total(): nat
      reads this
    {
      |byId|
    }
  }
}
