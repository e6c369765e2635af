/** The JPA repositories the services call, as maps keyed by id: the
    record repositories (`findById`, `existsById`, `findByUserId`, `save`,
    `deleteById`) and the user repository (`findById`, `findByUsername`,
    `save`). A UUID is a number here; `findByUserId` promises no order, and
    the model scans ids in ascending order. */
module Store {
  import opened Wrappers

  type Uuid = nat

  /** A stored record: its id, the id of the user it belongs to, and the
      fields the request can set. */
  datatype Row<D> = Row(id: Uuid, user: Uuid, data: D)

  /** A stored user; the password is kept only as the encoder's output. */
  datatype User = User(id: Uuid, username: string, passwordHash: string)

  /** The smallest id of a non-empty set. */
  ghost function MinKey(s: set<Uuid>): (m: Uuid)
    requires s != {}
    ensures m in s && forall x :: x in s ==> m <= x
  {
    MinExists(s);
    var m :| m in s && forall x :: x in s ==> m <= x; m
  }

  /** The least element of a set is `MinKey` of it. */
  lemma MinIsMinKey(s: set<Uuid>, k: Uuid)
    requires k in s && forall x :: x in s ==> k <= x
    ensures k == MinKey(s)
  {
    var m := MinKey(s);
    assert m <= k && k <= m;
  }

  lemma MinExists(s: set<Uuid>)
    requires s != {}
    ensures exists m :: m in s && forall x :: x in s ==> m <= x
  {
    var m := Least(s);
    assert m in s && forall x :: x in s ==> m <= x;
  }

  /** A least element of a non-empty set of ids, found by taking one element
      out and comparing it with the least of the rest. */
  lemma Least(s: set<Uuid>) returns (m: Uuid)
    requires s != {}
    ensures m in s && forall x :: x in s ==> m <= x
    decreases |s|
  {
    var y :| y in s;
    var rest := s - {y};
    if rest == {} {
      assert s == {y};
      return y;
    }
    var r := Least(rest);
    m := if y < r then y else r;
    forall x | x in s ensures m <= x {
      if x != y {
        assert x in rest;
      }
    }
  }

  /** The records among `keys` that belong to `user`, in ascending id order. */
  ghost function Scan<D>(rows: map<Uuid, Row<D>>, keys: set<Uuid>, user: Uuid): seq<Row<D>>
    decreases keys
  {
    if keys == {} then []
    else
      var k := MinKey(keys);
      (if k in rows && rows[k].user == user then [rows[k]] else []) + Scan(rows, keys - {k}, user)
  }

  /** What `findByUserId` answers: every record of `user`, each once. */
  ghost function OfUser<D>(rows: map<Uuid, Row<D>>, user: Uuid): seq<Row<D>>
  {
    Scan(rows, rows.Keys, user)
  }

  /** Every stored record sits under its own id. */
  ghost predicate Keyed<D>(rows: map<Uuid, Row<D>>)
  {
    forall id :: id in rows ==> rows[id].id == id
  }

  /** The scan lists exactly the records of `user` among `keys`, in strictly
      ascending id order. */
  lemma {:induction false} ScanMembers<D>(rows: map<Uuid, Row<D>>, keys: set<Uuid>, user: Uuid)
    requires Keyed(rows)
    ensures forall i :: 0 <= i < |Scan(rows, keys, user)| ==>
      Scan(rows, keys, user)[i].id in keys && Scan(rows, keys, user)[i].id in rows
      && rows[Scan(rows, keys, user)[i].id] == Scan(rows, keys, user)[i] && Scan(rows, keys, user)[i].user == user
    decreases keys
  {
    if keys != {} {
      var k := MinKey(keys);
      var others := keys - {k};
      ScanMembers(rows, others, user);
      var head: seq<Row<D>> := if k in rows && rows[k].user == user then [rows[k]] else [];
      var rest := Scan(rows, others, user);
      var s := Scan(rows, keys, user);
      assert s == head + rest;
      forall i | 0 <= i < |s|
        ensures s[i].id in keys && s[i].id in rows && rows[s[i].id] == s[i] && s[i].user == user
      {
        if i >= |head| {
          assert s[i] == rest[i - |head|];
        }
      }
    }
  }

  lemma {:induction false} ScanComplete<D>(rows: map<Uuid, Row<D>>, keys: set<Uuid>, user: Uuid)
    ensures forall id :: id in keys && id in rows && rows[id].user == user ==> rows[id] in Scan(rows, keys, user)
    decreases keys
  {
    if keys != {} {
      var k := MinKey(keys);
      var others := keys - {k};
      ScanComplete(rows, others, user);
      var head: seq<Row<D>> := if k in rows && rows[k].user == user then [rows[k]] else [];
      var rest := Scan(rows, others, user);
      var s := Scan(rows, keys, user);
      assert s == head + rest;
      forall id | id in keys && id in rows && rows[id].user == user ensures rows[id] in s {
        if id != k {
          assert id in others;
          assert rows[id] in rest;
        }
      }
    }
  }

  lemma {:induction false} ScanAscending<D>(rows: map<Uuid, Row<D>>, keys: set<Uuid>, user: Uuid)
    requires Keyed(rows)
    ensures forall i, j :: 0 <= i < j < |Scan(rows, keys, user)| ==> Scan(rows, keys, user)[i].id < Scan(rows, keys, user)[j].id
    decreases keys
  {
    if keys != {} {
      var k := MinKey(keys);
      var others := keys - {k};
      ScanAscending(rows, others, user);
      ScanMembers(rows, others, user);
      var head: seq<Row<D>> := if k in rows && rows[k].user == user then [rows[k]] else [];
      var rest := Scan(rows, others, user);
      var s := Scan(rows, keys, user);
      assert s == head + rest;
      forall i, j | 0 <= i < j < |s| ensures s[i].id < s[j].id {
        assert s[j] == rest[j - |head|];
        assert rest[j - |head|].id in others;
        if i >= |head| {
          assert s[i] == rest[i - |head|];
        }
      }
    }
  }

  /** `findByUserId` lists exactly the stored records of `user`, each once. */
  lemma OfUserFacts<D>(rows: map<Uuid, Row<D>>, user: Uuid)
    requires Keyed(rows)
    ensures forall r :: r in OfUser(rows, user) <==> r in rows.Values && r.user == user
    ensures forall i, j :: 0 <= i < j < |OfUser(rows, user)| ==> OfUser(rows, user)[i] != OfUser(rows, user)[j]
  {
    var s := OfUser(rows, user);
    ScanMembers(rows, rows.Keys, user);
    ScanComplete(rows, rows.Keys, user);
    ScanAscending(rows, rows.Keys, user);
    forall r ensures r in s <==> r in rows.Values && r.user == user {
      if r in s {
        var i :| 0 <= i < |s| && s[i] == r;
        assert rows[r.id] == r;
      }
      if r in rows.Values && r.user == user {
        var id :| id in rows && rows[id] == r;
      }
    }
    forall i, j | 0 <= i < j < |s| ensures s[i] != s[j] {
      assert s[i].id < s[j].id;
    }
  }

  /** A record repository where every record belongs to a stored user: the
      `user_id` join column is not nullable. */
  ghost predicate Owned<D>(rows: map<Uuid, Row<D>>, users: map<Uuid, User>)
  {
    forall id :: id in rows ==> rows[id].user in users
  }

  /** The `EntityNotFoundException`s the services throw: no user, or no
      record, with that id. */
  datatype Missing = MissingUser(id: Uuid) | MissingRecord(id: Uuid)

  /** Saving a record under a new id adds it to its owner's listing and to no
      other. */
  lemma SaveNewListing<D>(rows: map<Uuid, Row<D>>, row: Row<D>, u: Uuid)
    requires Keyed(rows) && row.id !in rows
    ensures forall x :: x in OfUser(rows[row.id := row], u) <==> x in OfUser(rows, u) || (x == row && row.user == u)
  {
    var after := rows[row.id := row];
    OfUserFacts(rows, u);
    OfUserFacts(after, u);
    forall x ensures x in after.Values <==> x in rows.Values || x == row {
      if x == row {
        assert after[row.id] == row;
      }
      if x in rows.Values {
        var id :| id in rows && rows[id] == x;
        assert after[id] == x;
      }
      if x in after.Values && x != row {
        var id :| id in after && after[id] == x;
        assert rows[id] == x;
      }
    }
  }

  /** Overwriting the fields of a record, keeping its id and its owner,
      swaps it for its new version in its owner's listing and changes no other
      listing. */
  lemma ReplaceListing<D>(rows: map<Uuid, Row<D>>, id: Uuid, data: D, u: Uuid)
    requires Keyed(rows) && id in rows
    ensures forall x :: x in OfUser(rows[id := Row(id, rows[id].user, data)], u) <==>
      (x in OfUser(rows, u) && x.id != id) || (x == Row(id, rows[id].user, data) && rows[id].user == u)
  {
    var row := Row(id, rows[id].user, data);
    var after := rows[id := row];
    OfUserFacts(rows, u);
    OfUserFacts(after, u);
    forall x ensures x in after.Values <==> (x in rows.Values && x.id != id) || x == row {
      if x == row {
        assert after[id] == row;
      }
      if x in rows.Values && x.id != id {
        var k :| k in rows && rows[k] == x;
        assert after[k] == x;
      }
      if x in after.Values && x != row {
        var k :| k in after && after[k] == x;
        assert k != id && rows[k] == x && x.id == k;
      }
    }
  }

  /** Deleting an id takes that record, and nothing else, out of every listing. */
  lemma DeleteListing<D>(rows: map<Uuid, Row<D>>, id: Uuid, u: Uuid)
    requires Keyed(rows)
    ensures forall x :: x in OfUser(rows - {id}, u) <==> x in OfUser(rows, u) && x.id != id
  {
    var after := rows - {id};
    OfUserFacts(rows, u);
    OfUserFacts(after, u);
    forall x ensures x in after.Values <==> x in rows.Values && x.id != id {
      if x in rows.Values && x.id != id {
        var k :| k in rows && rows[k] == x;
        assert after[k] == x;
      }
    }
  }

  /** A user repository whose usernames are all different. */
  ghost predicate UniqueUsernames(users: map<Uuid, User>)
  {
    forall a, b :: a in users && b in users && users[a].username == users[b].username ==> a == b
  }

  /** A record repository: `JpaRepository<Entity, UUID>`. */
  class Repository<D(==)> {
    var rows: map<Uuid, Row<D>>

    ghost predicate Valid()
      reads this
    {
      Keyed(rows)
    }

    constructor ()
      ensures Valid() && rows == map[]
    {
      rows := map[];
    }

    /** `findById`. */
    method FindById(id: Uuid) returns (r: Option<Row<D>>)
      ensures r == if id in rows then Some(rows[id]) else None
    {
      if id in rows {
        r := Some(rows[id]);
      } else {
        r := None;
      }
    }

    /** `existsById`. */
    method ExistsById(id: Uuid) returns (b: bool)
      ensures b <==> id in rows
    {
      b := id in rows;
    }

    /** `findByUserId`: one pass over the ids, smallest first, keeping the
        records of `user`. */
    method FindByUserId(user: Uuid) returns (r: seq<Row<D>>)
      requires Valid()
      ensures r == OfUser(rows, user)
      ensures forall x :: x in r <==> x in rows.Values && x.user == user
    {
      r := [];
      var keys := rows.Keys;
      while keys != {}
        invariant r + Scan(rows, keys, user) == OfUser(rows, user)
        decreases keys
      {
        MinExists(keys);
        var k :| k in keys && forall x :: x in keys ==> k <= x;
        MinIsMinKey(keys, k);
        ghost var step := if k in rows && rows[k].user == user then [rows[k]] else [];
        assert Scan(rows, keys, user) == step + Scan(rows, keys - {k}, user);
        ghost var before := r;
        if k in rows && rows[k].user == user {
          r := r + [rows[k]];
        }
        assert r == before + step;
        assert r + Scan(rows, keys - {k}, user) == before + (step + Scan(rows, keys - {k}, user));
        keys := keys - {k};
      }
      OfUserFacts(rows, user);
    }

    /** `save` of a record that carries its id: it is stored under that id,
        replacing any record there. */
    method Save(row: Row<D>)
      requires Valid()
      modifies this
      ensures Valid() && rows == old(rows)[row.id := row]
    {
      rows := rows[row.id := row];
    }

    /** `deleteById`. */
    method DeleteById(id: Uuid)
      requires Valid()
      modifies this
      ensures Valid() && rows == old(rows) - {id}
    {
      rows := rows - {id};
    }
  }

  /** The user repository. */
  class UserRepository {
    var users: map<Uuid, User>

    ghost predicate Valid()
      reads this
    {
      forall id :: id in users ==> users[id].id == id
    }

    constructor ()
      ensures Valid() && users == map[]
    {
      users := map[];
    }

    /** `findById`. */
    method FindById(id: Uuid) returns (r: Option<User>)
      ensures r == if id in users then Some(users[id]) else None
    {
      if id in users {
        r := Some(users[id]);
      } else {
        r := None;
      }
    }

    /** `findByUsername`: the stored user of that name, if there is one; with
        unique usernames it is the only one. */
    method FindByUsername(username: string) returns (r: Option<User>)
      requires Valid()
      ensures r.Some? ==> r.value.id in users && users[r.value.id] == r.value && r.value.username == username
      ensures r.None? <==> forall id :: id in users ==> users[id].username != username
    {
      var keys := users.Keys;
      while keys != {}
        invariant keys <= users.Keys
        invariant forall id :: id in users && id !in keys ==> users[id].username != username
        decreases keys
      {
        var k :| k in keys;
        if users[k].username == username {
          return Some(users[k]);
        }
        keys := keys - {k};
      }
      return None;
    }

    /** `save` of a user that carries its id. */
    method Save(user: User)
      requires Valid()
      modifies this
      ensures Valid() && users == old(users)[user.id := user]
    {
      users := users[user.id := user];
    }
  }
}
