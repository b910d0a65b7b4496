/** The invariant behind `DatabaseMine` and what one Database pass keeps. */
module DatabaseSafety {
  import opened SqlText
  import opened SqlStatements
  import opened SqlTexts
  import opened Model
  import opened Ownership
  import opened Safety
  import opened DatabaseReconciler

  /**
   * A ledger row of this object names its schema; with a name that can be quoted, that schema exists and
   * was made for it.
   */
  ghost predicate DatabaseInv(s: Server, k: Key, d: Database) {
    && d.spec.name != []
    && (d.status.name == [] || d.status.name == d.spec.name)
    && (d.uid in s.managedDatabases ==>
          s.managedDatabases[d.uid] == Row(k, d.spec.name) && (Quotable(d.spec.name) ==> OwnsSchema(s, d.spec.name, Actor(k, d))))
  }

  /** Every schema made for this object is the one it names, and the ledger knows it. */
  ghost predicate NoStray(s: Server, k: Key, d: Database) {
    forall n :: OwnsSchema(s, n, Actor(k, d)) ==> n == d.spec.name && d.uid in s.managedDatabases
  }

  lemma MineIsOwned(s: Server, k: Key, d: Database)
    requires DatabaseInv(s, k, d) && Quotable(d.spec.name)
    requires DatabaseMine(s, k, d)
    ensures d.spec.name in s.schemas ==> OwnsSchema(s, d.spec.name, Actor(k, d))
  {
  }

  /** Same object, up to the observed character set and collation and the recorded name. */
  predicate SameObject(d: Database, d': Database) {
    && d'.uid == d.uid && d'.spec == d.spec && d'.finalizer == d.finalizer && d'.deleting == d.deleting
    && (d'.status.name == d.status.name || d'.status.name == d.spec.name)
  }

  // ---------------------------------------------------------------- names that can be quoted do not stray

  /** What a pass over an object of its own sends about a quotable name concerns nobody else. */
  lemma QuotableStays(s: Server, k: Key, d: Database, env: Env)
    requires DatabaseInv(s, k, d) && Quotable(d.spec.name) && Literate(env.reader) && LookupsOk(env)
    ensures PassText(s, k, d, env).Some? ==> !Stray(s, Actor(k, d), PassText(s, k, d, env).value, env)
  {
    var n := d.spec.name;
    assert SchemaSeen(s, n, env, 0) == SchemaSeen(s, n, env, 1) == SchemaExists(s, n);
    if PassText(s, k, d, env).Some? {
      var text := PassText(s, k, d, env).value;
      var d1 := Started(s, d, env);
      if text == CreateText(d1) && !d.deleting && !SchemaExists(s, n) {
        assert ReadAsCreate(env.reader(text), n, d.spec.characterSet, d.spec.collate);
      } else if d.deleting {
        assert ReadAsDrop(env.reader(text), n);
        assert SchemaExists(s, n) ==> OwnsSchema(s, n, Actor(k, d));
      } else {
        assert ReadAsAlter(env.reader(text), n, Change(d.spec.characterSet, d1.status.characterSet), Change(d.spec.collate, d1.status.collate));
        assert OwnsSchema(s, n, Actor(k, d));
      }
    }
  }

  // ---------------------------------------------------------------- the parts of a pass

  lemma DatabaseFrameReflexive(s: Server, a: Creator)
    requires a.Cr?
    ensures DatabaseFrame(s, s, a)
  {
  }

  lemma RowKeepsFrame(s: Server, s1: Server, k: Key, d: Database)
    requires DatabaseFrame(s, s1, Actor(k, d))
    ensures DatabaseFrame(s, WithRow(s1, k, d), Actor(k, d))
  {
  }

  /** A CREATE of one schema: the others stay as they are. */
  lemma CreateExec(s: Server, a: Creator, stmt: Stmt, reached: bool)
    requires stmt.CreateDatabase?
    ensures var (s1, sent) := Exec(s, a, stmt, reached);
            && s1.managedDatabases == s.managedDatabases
            && (sent ==> OwnsSchema(s1, stmt.name, a))
            && (forall n :: n != stmt.name && n in s1.schemas ==> n in s.schemas && s1.schemas[n] == s.schemas[n])
            && (!sent ==> s1.schemas == s.schemas)
  {
  }

  lemma CreateReceived(s: Server, k: Key, d: Database, env: Env)
    requires !SchemaExists(s, d.spec.name) && d.spec.name != []
    requires Literate(env.reader) && !Stray(s, Actor(k, d), CreateText(d), env)
    ensures var (s1, sent) := Receive(s, Actor(k, d), CreateText(d), env, env.ok(SendCreate));
            && DatabaseFrame(s, s1, Actor(k, d)) && s1.managedDatabases == s.managedDatabases
            && (sent && Quotable(d.spec.name) ==>
                  && OwnsSchema(s1, d.spec.name, Actor(k, d))
                  && (forall n :: n != d.spec.name && n in s1.schemas ==> n in s.schemas && s1.schemas[n] == s.schemas[n]))
            && (!sent ==> s1.schemas == s.schemas)
  {
    var r := env.reader(CreateText(d));
    assert ReadAsCreate(r, d.spec.name, d.spec.characterSet, d.spec.collate);
    DatabaseReceiveFrame(s, Actor(k, d), CreateText(d), env, env.ok(SendCreate));
    if r.Some? {
      CreateExec(s, Actor(k, d), r.value, env.ok(SendCreate));
    }
  }

  lemma CreateSafe(s: Server, k: Key, d: Database, env: Env)
    requires DatabaseInv(s, k, d) && !SchemaExists(s, d.spec.name)
    requires Literate(env.reader) && !Stray(s, Actor(k, d), CreateText(d), env)
    ensures var (s1, d1) := Create(s, k, d, env);
            DatabaseFrame(s, s1, Actor(k, d)) && DatabaseInv(s1, k, d) && SameObject(d, d1)
  {
    CreateReceived(s, k, d, env);
    var (s1, sent) := Receive(s, Actor(k, d), CreateText(d), env, env.ok(SendCreate));
    RowKeepsFrame(s, s1, k, d);
    assert WithRow(s1, k, Create(s, k, d, env).1) == WithRow(s1, k, d);
    assert Create(s, k, d, env).0 in {s1, WithRow(s1, k, d)};
    assert Create(s, k, d, env).0 == WithRow(s1, k, d) ==> sent || s1 == WithRow(s1, k, d);
  }

  lemma CreateNoStray(s: Server, k: Key, d: Database, env: Env)
    requires NoStray(s, k, d) && env.ok(InsertRow) && !SchemaExists(s, d.spec.name) && d.spec.name != []
    requires Literate(env.reader) && !Stray(s, Actor(k, d), CreateText(d), env) && Quotable(d.spec.name)
    ensures NoStray(Create(s, k, d, env).0, k, d)
  {
    CreateReceived(s, k, d, env);
    var a := Actor(k, d);
    var (s1, sent) := Receive(s, a, CreateText(d), env, env.ok(SendCreate));
    var s2 := Create(s, k, d, env).0;
    assert s2.schemas == s1.schemas && (sent ==> d.uid in s2.managedDatabases) && (!sent ==> s2 == s1);
    forall n | OwnsSchema(s2, n, a) ensures n == d.spec.name && d.uid in s2.managedDatabases {
      if !sent || n != d.spec.name {
        assert OwnsSchema(s, n, a);
      }
    }
  }

  lemma AlterExec(s: Server, a: Creator, stmt: Stmt, reached: bool)
    requires stmt.AlterDatabase?
    ensures var s1 := Exec(s, a, stmt, reached).0;
            && s1.managedDatabases == s.managedDatabases && s1.schemas.Keys == s.schemas.Keys
            && (forall n :: n in s.schemas ==> s1.schemas[n].creator == s.schemas[n].creator)
  {
  }

  lemma AlterReceived(s: Server, k: Key, d: Database, env: Env)
    requires Literate(env.reader) && !Stray(s, Actor(k, d), AlterText(d), env)
    ensures var s1 := Receive(s, Actor(k, d), AlterText(d), env, env.ok(SendAlter)).0;
            && DatabaseFrame(s, s1, Actor(k, d)) && s1.managedDatabases == s.managedDatabases
            && s1.schemas.Keys == s.schemas.Keys
            && (forall n :: n in s.schemas ==> s1.schemas[n].creator == s.schemas[n].creator)
  {
    var r := env.reader(AlterText(d));
    assert ReadAsAlter(r, d.spec.name, Change(d.spec.characterSet, d.status.characterSet), Change(d.spec.collate, d.status.collate));
    DatabaseReceiveFrame(s, Actor(k, d), AlterText(d), env, env.ok(SendAlter));
    if r.Some? {
      AlterExec(s, Actor(k, d), r.value, env.ok(SendAlter));
    }
  }

  lemma UpdateSafe(s: Server, k: Key, d: Database, env: Env)
    requires DatabaseInv(s, k, d)
    requires Literate(env.reader) && (NeedsAlter(d) ==> !Stray(s, Actor(k, d), AlterText(d), env))
    ensures var (s1, d1) := Update(s, k, d, env);
            && DatabaseFrame(s, s1, Actor(k, d)) && DatabaseInv(s1, k, d) && SameObject(d, d1)
            && s1.schemas.Keys == s.schemas.Keys && s1.managedDatabases == s.managedDatabases
            && (forall n :: n in s.schemas ==> s1.schemas[n].creator == s.schemas[n].creator)
  {
    DatabaseFrameReflexive(s, Actor(k, d));
    if NeedsAlter(d) {
      AlterReceived(s, k, d, env);
    }
  }

  /** A pass over a live object touches no schema of anybody else and keeps the invariant. */
  lemma ConvergeSafe(s: Server, k: Key, d: Database, env: Env)
    requires DatabaseInv(s, k, d) && Literate(env.reader) && LookupsOk(env)
    requires ConvergeText(s, k, d, env).Some? ==> !Stray(s, Actor(k, d), ConvergeText(s, k, d, env).value, env)
    ensures var (s1, d1) := Converge(s, k, d, env);
            DatabaseFrame(s, s1, Actor(k, d)) && DatabaseInv(s1, k, d) && DatabaseInv(s1, k, d1) && SameObject(d, d1)
  {
    var d1 := Started(s, d, env);
    assert SameObject(d, d1) && Actor(k, d1) == Actor(k, d);
    DatabaseFrameReflexive(s, Actor(k, d));
    assert SchemaSeen(s, d.spec.name, env, 0) == SchemaExists(s, d.spec.name);
    if !SchemaExists(s, d.spec.name) {
      CreateSafe(s, k, d1, env);
    } else if DecidesDatabase(s, k, d1, env, 1) {
      UpdateSafe(s, k, d1, env);
    }
  }

  lemma ConvergeNoStray(s: Server, k: Key, d: Database, env: Env)
    requires NoStray(s, k, d) && env.ok(InsertRow) && DatabaseInv(s, k, d) && Quotable(d.spec.name)
    requires Literate(env.reader) && LookupsOk(env)
    requires ConvergeText(s, k, d, env).Some? ==> !Stray(s, Actor(k, d), ConvergeText(s, k, d, env).value, env)
    ensures NoStray(Converge(s, k, d, env).0, k, d)
  {
    var d1 := Started(s, d, env);
    assert SameObject(d, d1) && Actor(k, d1) == Actor(k, d);
    assert NoStray(s, k, d1);
    assert SchemaSeen(s, d.spec.name, env, 0) == SchemaExists(s, d.spec.name);
    if !SchemaExists(s, d.spec.name) {
      CreateNoStray(s, k, d1, env);
    } else if DecidesDatabase(s, k, d1, env, 1) {
      UpdateSafe(s, k, d1, env);
      var s1 := Update(s, k, d1, env).0;
      forall n | OwnsSchema(s1, n, Actor(k, d)) ensures n == d.spec.name && d.uid in s1.managedDatabases {
        assert OwnsSchema(s, n, Actor(k, d1));
      }
    }
  }

  lemma RowGoneKeepsFrame(s: Server, s1: Server, a: Creator)
    requires DatabaseFrame(s, s1, a)
    ensures DatabaseFrame(s, s1.(managedDatabases := s1.managedDatabases - {a.uid}), a)
  {
  }

  lemma DropReceived(s: Server, k: Key, d: Database, env: Env)
    requires Literate(env.reader) && !Stray(s, Actor(k, d), DropText(d), env)
    ensures var s1 := Receive(s, Actor(k, d), DropText(d), env, env.ok(SendDrop)).0;
            && DatabaseFrame(s, s1, Actor(k, d)) && s1.managedDatabases == s.managedDatabases
            && (forall n :: n in s1.schemas ==> n in s.schemas && s1.schemas[n] == s.schemas[n])
            && (Quotable(d.spec.name) && env.ok(SendDrop) ==> d.spec.name !in s1.schemas)
            && (Quotable(d.spec.name) ==> forall n :: n != d.spec.name && n in s.schemas ==> n in s1.schemas)
  {
    assert ReadAsDrop(env.reader(DropText(d)), d.spec.name);
    DatabaseReceiveFrame(s, Actor(k, d), DropText(d), env, env.ok(SendDrop));
  }

  /** A finalizer drops only what was made for its object; when the statements succeed nothing of it is left. */
  lemma FinalizeSafe(s: Server, k: Key, d: Database, env: Env)
    requires DatabaseInv(s, k, d) && env.ok(DeleteRow)
    requires Literate(env.reader) && !Stray(s, Actor(k, d), DropText(d), env)
    ensures var s1 := Finalize(s, k, d, env);
            && DatabaseFrame(s, s1, Actor(k, d)) && DatabaseInv(s1, k, d)
            && d.uid !in s1.managedDatabases
            && (NoStray(s, k, d) && env.ok(SendDrop) && Quotable(d.spec.name) ==> forall n :: !OwnsSchema(s1, n, Actor(k, d)))
  {
    var s1 := Receive(s, Actor(k, d), DropText(d), env, env.ok(SendDrop)).0;
    DropReceived(s, k, d, env);
    RowGoneKeepsFrame(s, s1, Actor(k, d));
    var s2 := Finalize(s, k, d, env);
    if NoStray(s, k, d) && env.ok(SendDrop) && Quotable(d.spec.name) {
      forall n ensures !OwnsSchema(s2, n, Actor(k, d)) {
        assert OwnsSchema(s2, n, Actor(k, d)) ==> OwnsSchema(s, n, Actor(k, d));
      }
    }
  }
}
