/**
 * The `seed-db` command: for each of the three fixed roles, add it unless a
 * role with that name already exists, then commit. Each query after an
 * addition autoflushes the roles added so far, so a constraint violation can
 * surface at a later query or at the commit; either way it is raised out of
 * the command and the transaction stores nothing.
 */
module Commands {
  import opened Wrappers

  datatype Role = Role(id: int, name: string, description: Option<string>)

  /** The fixed list `seed_db` walks, in order. */
  const SeedRoles: seq<Role> := [
    Role(1, "Admin", Some("Admin role")),
    Role(2, "User", Some("User role")),
    Role(3, "Customer", Some("Customer role"))
  ]

  /** The `role` table keyed by primary key, with its UNIQUE names. */
  predicate TableValid(rows: map<int, Role>)
  {
    && (forall k :: k in rows ==> rows[k].id == k)
    && (forall k1, k2 :: k1 in rows && k2 in rows && rows[k1].name == rows[k2].name ==> k1 == k2)
  }

  /** `Role.query.filter_by(name=name).first()` finds a row. */
  predicate NameIn(rows: map<int, Role>, name: string)
  {
    exists k :: k in rows && rows[k].name == name
  }

  /** Some role already added to the session in this run carries `name`. */
  predicate NamePending(pending: seq<Role>, name: string)
  {
    exists i :: 0 <= i < |pending| && pending[i].name == name
  }

  /** The roles of `roles` whose name the table lacks, in order. */
  function Missing(rows: map<int, Role>, roles: seq<Role>): (r: seq<Role>)
    ensures forall p :: p in r <==> p in roles && !NameIn(rows, p.name)
  {
    if roles == [] then []
    else
      var init, last := roles[..|roles| - 1], roles[|roles| - 1];
      assert roles == init + [last];
      Missing(rows, init) + if NameIn(rows, last.name) then [] else [last]
  }

  /** Extending the list by one role extends the missing roles by that role when its name is absent. */
  lemma MissingSnoc(rows: map<int, Role>, roles: seq<Role>, role: Role)
    ensures Missing(rows, roles + [role]) == Missing(rows, roles) + if NameIn(rows, role.name) then [] else [role]
  {
    assert (roles + [role])[..|roles|] == roles;
  }

  /** When every name of the list is in the table, nothing is missing. */
  lemma {:induction false} MissingNone(rows: map<int, Role>, roles: seq<Role>)
    requires forall p :: p in roles ==> NameIn(rows, p.name)
    ensures Missing(rows, roles) == []
  {
    if roles != [] {
      var init, last := roles[..|roles| - 1], roles[|roles| - 1];
      assert roles == init + [last];
      MissingNone(rows, init);
      assert last in roles;
    }
  }

  /** When no name of the list is in the table, the whole list is missing. */
  lemma {:induction false} MissingAll(rows: map<int, Role>, roles: seq<Role>)
    requires forall p :: p in roles ==> !NameIn(rows, p.name)
    ensures Missing(rows, roles) == roles
  {
    if roles != [] {
      var init, last := roles[..|roles| - 1], roles[|roles| - 1];
      assert roles == init + [last];
      MissingAll(rows, init);
      assert last in roles;
    }
  }

  /** No role listed before position `i` shares the name of the role at `i`. */
  lemma NotPendingYet(rows: map<int, Role>, i: int)
    requires 0 <= i < |SeedRoles|
    ensures !NamePending(Missing(rows, SeedRoles[..i]), SeedRoles[i].name)
  {
    var pending := Missing(rows, SeedRoles[..i]);
    forall j | 0 <= j < |pending|
      ensures pending[j].name != SeedRoles[i].name
    {
      assert pending[j] in pending;
      var m :| 0 <= m < i && SeedRoles[..i][m] == pending[j];
      assert SeedRoles[m] == pending[j];
    }
  }

  /**
   * The loop of `seed_db`: the roles it adds to the session. Because the
   * session flushes before each query, a role added earlier in the run
   * counts as existing.
   */
  method PlanSeed(rows: map<int, Role>) returns (pending: seq<Role>)
    ensures pending == Missing(rows, SeedRoles)
    ensures forall p :: p in pending <==> p in SeedRoles && !NameIn(rows, p.name)
  {
    pending := [];
    for i := 0 to |SeedRoles|
      invariant pending == Missing(rows, SeedRoles[..i])
    {
      var role := SeedRoles[i];
      assert SeedRoles[..i + 1] == SeedRoles[..i] + [role];
      MissingSnoc(rows, SeedRoles[..i], role);
      NotPendingYet(rows, i);
      if !NameIn(rows, role.name) && !NamePending(pending, role.name) {
        pending := pending + [role];
      }
    }
    assert SeedRoles[..|SeedRoles|] == SeedRoles;
  }

  /** Inserting `pending` in order breaks neither the primary key nor the UNIQUE name. */
  predicate Fits(rows: map<int, Role>, pending: seq<Role>)
  {
    forall i :: 0 <= i < |pending| ==>
      && pending[i].id !in rows && !NameIn(rows, pending[i].name)
      && forall j :: 0 <= j < i ==> pending[j].id != pending[i].id && pending[j].name != pending[i].name
  }

  /**
   * Writing the pending roles in order, by the autoflush before a later
   * query or by `db.session.commit()`: a row whose id or name is already
   * taken raises, the transaction fails, and then nothing is stored.
   */
  function Commit(rows: map<int, Role>, pending: seq<Role>): (r: Option<map<int, Role>>)
    requires TableValid(rows)
    decreases |pending|
    ensures r.Some? ==> TableValid(r.value)
    ensures r.Some? ==> forall k :: k in rows ==> k in r.value && r.value[k] == rows[k]
    ensures r.Some? ==> forall p :: p in pending ==> p.id in r.value && r.value[p.id] == p
    ensures r.Some? ==> forall k :: k in r.value ==> k in rows || r.value[k] in pending
    ensures forall p :: p in pending && (p.id in rows || NameIn(rows, p.name)) ==> r.None?
  {
    if pending == [] then Some(rows)
    else
      var p := pending[0];
      if p.id in rows || NameIn(rows, p.name) then None
      else
        var r := Commit(rows[p.id := p], pending[1..]);
        assert forall q :: q in pending ==> q == p || q in pending[1..];
        r
  }

  /** Roles that break neither constraint are all committed. */
  lemma {:induction false} CommitSucceeds(rows: map<int, Role>, pending: seq<Role>)
    requires TableValid(rows) && Fits(rows, pending)
    ensures Commit(rows, pending).Some?
    decreases |pending|
  {
    if pending != [] {
      var p, rest := pending[0], pending[1..];
      var next := rows[p.id := p];
      forall i | 0 <= i < |rest|
        ensures rest[i].id !in next && !NameIn(next, rest[i].name)
        ensures forall j :: 0 <= j < i ==> rest[j].id != rest[i].id && rest[j].name != rest[i].name
      {
        assert rest[i] == pending[i + 1];
        forall j | 0 <= j < i
          ensures rest[j].id != rest[i].id && rest[j].name != rest[i].name
        {
          assert rest[j] == pending[j + 1];
        }
      }
      CommitSucceeds(next, rest);
    }
  }

  /** What one run of `seed_db` does to the table: `None` when the transaction fails. */
  function Seed(rows: map<int, Role>): (r: Option<map<int, Role>>)
    requires TableValid(rows)
    ensures r.Some? ==> TableValid(r.value) && forall k :: k in rows ==> k in r.value && r.value[k] == rows[k]
  {
    Commit(rows, Missing(rows, SeedRoles))
  }

  /** After a successful run, Admin, User and Customer all exist. */
  lemma SeedProvidesAll(rows: map<int, Role>)
    requires TableValid(rows) && Seed(rows).Some?
    ensures forall role :: role in SeedRoles ==> NameIn(Seed(rows).value, role.name)
  {
    var r := Seed(rows).value;
    forall role | role in SeedRoles
      ensures NameIn(r, role.name)
    {
      if NameIn(rows, role.name) {
        var k :| k in rows && rows[k].name == role.name;
        assert r[k] == rows[k];
      } else {
        assert role in Missing(rows, SeedRoles);
        assert r[role.id] == role;
      }
    }
  }

  /** Existing rows, in the list or not, are neither removed nor modified; every new row is a listed role. */
  lemma SeedOnlyAddsListed(rows: map<int, Role>)
    requires TableValid(rows) && Seed(rows).Some?
    ensures forall k :: k in rows ==> k in Seed(rows).value && Seed(rows).value[k] == rows[k]
    ensures forall k :: k in Seed(rows).value && k !in rows ==>
              Seed(rows).value[k] in SeedRoles && !NameIn(rows, Seed(rows).value[k].name)
  {
  }

  /** A second run adds nothing: seeding is idempotent. */
  lemma SeedIdempotent(rows: map<int, Role>)
    requires TableValid(rows) && Seed(rows).Some?
    ensures TableValid(Seed(rows).value)
    ensures Seed(Seed(rows).value) == Seed(rows)
  {
    var r := Seed(rows).value;
    SeedProvidesAll(rows);
    MissingNone(r, SeedRoles);
  }

  /** The listed roles have distinct ids and distinct names. */
  lemma SeedRolesFitEmpty()
    ensures Fits(map[], SeedRoles)
  {
    var a, u, c := SeedRoles[0], SeedRoles[1], SeedRoles[2];
    assert a.name != u.name && a.name != c.name && u.name != c.name by {
      assert a.name[0] == 'A' && u.name[0] == 'U' && c.name[0] == 'C';
    }
  }

  /** On an empty table the three roles are inserted with the listed ids, names and descriptions. */
  lemma SeedEmptyTable()
    ensures Seed(map[]).Some?
    ensures forall role :: role in SeedRoles ==> Seed(map[]).value[role.id] == role
    ensures forall k :: k in Seed(map[]).value ==> Seed(map[]).value[k] in SeedRoles
  {
    var empty: map<int, Role> := map[];
    MissingAll(empty, SeedRoles);
    SeedRolesFitEmpty();
    CommitSucceeds(empty, SeedRoles);
  }

  /**
   * A renamed role holding a listed id makes the transaction fail (at the
   * autoflush before the next query, or at the commit when the clashing role
   * is the last one added), so nothing at all is added.
   */
  lemma SeedIdClash()
    ensures Seed(map[1 := Role(1, "Administrator", None)]) == None
  {
    var rows := map[1 := Role(1, "Administrator", None)];
    assert !NameIn(rows, "Admin");
    assert SeedRoles[0] in Missing(rows, SeedRoles);
  }

  /** The role table that `seed_db` writes through the database session. */
  class RoleTable {
    var rows: map<int, Role>

    ghost predicate Valid()
      reads this
    {
      TableValid(rows)
    }

    constructor (rows: map<int, Role>)
      requires TableValid(rows)
      ensures Valid() && this.rows == rows
    {
      this.rows := rows;
    }

    /** `seed_db`: plan the additions, then write them in one transaction; a failed transaction leaves the table as it was. */
    method SeedDb() returns (ok: bool)
      requires Valid()
      modifies this
      ensures Valid()
      ensures ok <==> Seed(old(rows)).Some?
      ensures ok ==> rows == Seed(old(rows)).value
      ensures !ok ==> rows == old(rows)
    {
      var pending := PlanSeed(rows);
      var committed := Commit(rows, pending);
      ok := committed.Some?;
      if ok {
        rows := committed.value;
      }
    }
  }
}
