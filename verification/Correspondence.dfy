/** Schemas, ledger rows and Database objects stay in one-to-one correspondence: a vanished object leaves nothing. */
module Correspondence {
  import opened SqlText
  import opened SqlTexts
  import opened Model
  import opened Ownership
  import opened Safety
  import opened Runs
  import opened IssuedLog
  import US = UserSafety
  import DS = DatabaseSafety
  import DP = DatabaseReconciler
  import UP = UserPasses

  /** The live Database object behind a ledger row: finalizer set, same identity, same schema name. */
  ghost predicate Backed(w: World, uid: Uid, row: Row) {
    && row.owner in w.databases
    && w.databases[row.owner].uid == uid && w.databases[row.owner].finalizer
    && w.databases[row.owner].spec.name == row.target
  }

  ghost predicate Corresponds(w: World) {
    && (forall n :: n in w.server.schemas && w.server.schemas[n].creator.Cr? ==>
          var c := w.server.schemas[n].creator;
          && c.uid in w.server.managedDatabases
          && w.server.managedDatabases[c.uid].target == n
          && w.server.managedDatabases[c.uid].owner.namespace == c.namespace)
    && (forall uid :: uid in w.server.managedDatabases ==>
          var row := w.server.managedDatabases[uid];
          OwnsSchema(w.server, row.target, Cr(uid, row.owner.namespace)) && Backed(w, uid, row))
  }

  /**
   * Every ledger statement, and every DROP, that the server receives is carried out, and names that need
   * no quoting are the only ones asked for.
   */
  ghost predicate Faithful(w: World, step: Step) {
    && Benign(w, step)
    && (step.ReconcileDatabase? ==>
          step.env.ok(InsertRow) && step.env.ok(SendDrop) && forall round :: step.env.ok(LookupSchemaRow(round)))
    && (step.CreateDatabaseObject? ==> Quotable(step.spec.name))
  }

  ghost predicate FaithfulRun(w: World, steps: seq<Step>)
    decreases |steps|
  {
    steps == [] || (Faithful(w, steps[0]) && FaithfulRun(Next(w, steps[0]), steps[1..]))
  }

  // ---------------------------------------------------------------- the databases' part of the invariant

  /** The database half of the invariant, with names that can be quoted; nothing about accounts is needed here. */
  ghost predicate Side(w: World) {
    && DatabaseIdentities(w) && US.DatabasesInv(w.server, w.databases)
    && forall k :: k in w.databases ==> Quotable(w.databases[k].spec.name)
  }

  lemma OwnDatabaseStepSide(w: World, w': World, k: Key)
    requires Side(w) && k in w.databases && OwnDatabaseStep(w, w', k)
    requires k in w'.databases ==> w'.databases[k].spec == w.databases[k].spec
    ensures Side(w')
  {
    forall x | x in w'.databases ensures DS.DatabaseInv(w'.server, x, w'.databases[x]) && Quotable(w'.databases[x].spec.name) {
      if x != k {
        OtherDatabaseStays(w.server, w'.server, DP.Actor(k, w.databases[k]), x, w.databases[x]);
      }
    }
  }

  /** Replacing, adding or removing one Database object outside a pass. */
  lemma StoreSide(w: World, w': World, k: Key)
    requires Side(w) && SameBut(w.databases, w'.databases, k) && w'.server == w.server && w.uids <= w'.uids
    requires k in w'.databases ==>
               && w'.databases[k].uid in w'.uids && DS.DatabaseInv(w.server, k, w'.databases[k]) && Quotable(w'.databases[k].spec.name)
               && if k in w.databases then w'.databases[k].uid == w.databases[k].uid else w'.databases[k].uid !in w.uids
    ensures Side(w')
  {
    forall x | x in w'.databases ensures DS.DatabaseInv(w.server, x, w'.databases[x]) && Quotable(w'.databases[x].spec.name) {
      if x != k {
        assert DS.DatabaseInv(w.server, x, w.databases[x]);
      }
    }
  }

  lemma DatabaseObjectSide(w: World, step: Step)
    requires Side(w) && (step.CreateDatabaseObject? ==> Quotable(step.spec.name))
    requires step.CreateDatabaseObject? || step.EditDatabaseObject? || step.DeleteDatabaseObject?
    ensures Side(ObjectStep(w, step))
  {
    var w' := ObjectStep(w, step);
    if w' != w {
      if step.CreateDatabaseObject? {
        NameOkNonempty(step.spec.name);
        StoreSide(w, w', step.key);
      } else {
        assert DS.DatabaseInv(w.server, step.key, w.databases[step.key]);
        StoreSide(w, w', step.key);
      }
    }
  }

  lemma ObjectStepSide(w: World, step: Step)
    requires Side(w) && (step.CreateDatabaseObject? ==> Quotable(step.spec.name))
    ensures Side(ObjectStep(w, step))
  {
    if step.CreateDatabaseObject? || step.EditDatabaseObject? || step.DeleteDatabaseObject? {
      DatabaseObjectSide(w, step);
    } else {
      var w' := ObjectStep(w, step);
      assert w'.server == w.server && w'.databases == w.databases && w.uids <= w'.uids;
    }
  }

  lemma OutsideStepSide(w: World, step: Step)
    requires Side(w) && IsOutside(step) && BenignOutside(w, step)
    ensures Side(OutsideStep(w, step))
  {
    OutsideKeepsOwners(w, step);
    var s' := OutsideStep(w, step).server;
    forall k | k in w.databases ensures DS.DatabaseInv(s', k, w.databases[k]) {
      assert DS.DatabaseInv(w.server, k, w.databases[k]);
    }
  }

  /** Quotable names, under the invariant, are never misplaced. */
  lemma PassOwn(w: World, k: Key, env: Env)
    requires Side(w) && k in w.databases && Benign(w, ReconcileDatabase(k, env))
    ensures OwnDatabaseStep(w, DP.DatabasePass(w, k, env), k)
    ensures var text := DP.PassText(w.server, k, w.databases[k], env);
            text.Some? ==> !Stray(w.server, DP.Actor(k, w.databases[k]), text.value, env)
  {
    DS.QuotableStays(w.server, k, w.databases[k], env);
    DatabasePassOwn(w, k, env);
  }

  lemma PassKeepsSpec(w: World, k: Key, env: Env)
    requires k in w.databases
    ensures var w' := DP.DatabasePass(w, k, env);
            k in w'.databases ==> w'.databases[k].spec == w.databases[k].spec && (w.databases[k].finalizer ==> w'.databases[k].finalizer)
  {
  }

  // ---------------------------------------------------------------- the correspondence

  lemma NothingStray(w: World, k: Key)
    requires Side(w) && Corresponds(w) && k in w.databases
    ensures DS.NoStray(w.server, k, w.databases[k])
  {
    var d := w.databases[k];
    forall n | OwnsSchema(w.server, n, DP.Actor(k, d)) ensures n == d.spec.name && d.uid in w.server.managedDatabases {
      var row := w.server.managedDatabases[d.uid];
      assert Backed(w, d.uid, row);
    }
  }

  /** What is left to show for the object of the pass itself. */
  lemma OwnPassCorresponds(w: World, w': World, k: Key)
    requires Side(w) && Corresponds(w) && Side(w') && k in w.databases && OwnDatabaseStep(w, w', k)
    requires DS.NoStray(w'.server, k, w.databases[k])
    requires w.databases[k].uid in w'.server.managedDatabases ==>
               k in w'.databases && w'.databases[k].finalizer && w'.databases[k].spec == w.databases[k].spec
    ensures Corresponds(w')
  {
    var d, s, s' := w.databases[k], w.server, w'.server;
    var a := DP.Actor(k, d);
    if d.uid in s'.managedDatabases {
      assert DS.DatabaseInv(s', k, w'.databases[k]);
    }
    forall uid | uid in s'.managedDatabases
      ensures var row := s'.managedDatabases[uid]; OwnsSchema(s', row.target, Cr(uid, row.owner.namespace)) && Backed(w', uid, row)
    {
      if uid != d.uid {
        var row := s.managedDatabases[uid];
        assert Backed(w, uid, row) && OwnsSchema(s, row.target, Cr(uid, row.owner.namespace));
        assert row.owner != k;
      }
    }
    forall n | n in s'.schemas && s'.schemas[n].creator.Cr?
      ensures var c := s'.schemas[n].creator;
              && c.uid in s'.managedDatabases && s'.managedDatabases[c.uid].target == n
              && s'.managedDatabases[c.uid].owner.namespace == c.namespace
    {
      var c := s'.schemas[n].creator;
      if c == a {
        assert OwnsSchema(s', n, a);
      } else {
        assert n in s.schemas && s.schemas[n].creator == c;
        var row := s.managedDatabases[c.uid];
        assert Backed(w, c.uid, row);
        assert c.uid != d.uid;
      }
    }
  }

  lemma DeletionCorresponds(w: World, k: Key, env: Env)
    requires Side(w) && Corresponds(w) && k in w.databases && Faithful(w, ReconcileDatabase(k, env))
    requires w.databases[k].deleting
    ensures var w' := DP.DatabasePass(w, k, env);
            && DS.NoStray(w'.server, k, w.databases[k])
            && (w.databases[k].uid in w'.server.managedDatabases ==> k in w'.databases && w'.databases[k].finalizer)
  {
    var d, s := w.databases[k], w.server;
    NothingStray(w, k);
    PassOwn(w, k, env);
    assert DS.DatabaseInv(s, k, d);
    assert d.uid in s.managedDatabases ==> Backed(w, d.uid, s.managedDatabases[d.uid]);
    if d.finalizer && DP.Connected(d, env) {
      assert SchemaSeen(s, d.spec.name, env, 1) == SchemaExists(s, d.spec.name);
      if DecidesDatabase(s, k, d, env, 1) {
        DS.FinalizeSafe(s, k, d, env);
      } else {
        assert d.uid !in s.managedDatabases;
      }
    }
  }

  lemma LiveCorresponds(w: World, k: Key, env: Env)
    requires Side(w) && Corresponds(w) && k in w.databases && Faithful(w, ReconcileDatabase(k, env))
    requires !w.databases[k].deleting
    ensures var w' := DP.DatabasePass(w, k, env);
            && DS.NoStray(w'.server, k, w.databases[k])
            && k in w'.databases
            && (w.databases[k].uid in w'.server.managedDatabases ==> w'.databases[k].finalizer)
  {
    var d, s := w.databases[k], w.server;
    NothingStray(w, k);
    PassOwn(w, k, env);
    assert DS.DatabaseInv(s, k, d);
    assert d.uid in s.managedDatabases ==> Backed(w, d.uid, s.managedDatabases[d.uid]);
    DatabaseLiveCases(w, k, env);
    if DP.Connected(d, env) && d.finalizer {
      DS.ConvergeNoStray(s, k, d, env);
      DS.ConvergeSafe(s, k, d, env);
    }
  }

  lemma DatabasePassCorresponds(w: World, k: Key, env: Env)
    requires Side(w) && Corresponds(w) && k in w.databases && Faithful(w, ReconcileDatabase(k, env))
    ensures Side(DP.DatabasePass(w, k, env)) && Corresponds(DP.DatabasePass(w, k, env))
  {
    var w' := DP.DatabasePass(w, k, env);
    PassOwn(w, k, env);
    PassKeepsSpec(w, k, env);
    OwnDatabaseStepSide(w, w', k);
    if w.databases[k].deleting {
      DeletionCorresponds(w, k, env);
    } else {
      LiveCorresponds(w, k, env);
    }
    OwnPassCorresponds(w, w', k);
  }

  /** What keeps the correspondence: the same ledger, the same schemas of ours, and the same objects behind the rows. */
  ghost predicate Undisturbed(w: World, w': World) {
    && w'.server.managedDatabases == w.server.managedDatabases
    && (forall n :: n in w.server.schemas && w.server.schemas[n].creator.Cr? ==>
          n in w'.server.schemas && w'.server.schemas[n].creator == w.server.schemas[n].creator)
    && (forall n :: n in w'.server.schemas && w'.server.schemas[n].creator.Cr? ==>
          n in w.server.schemas && w'.server.schemas[n].creator == w.server.schemas[n].creator)
    && (forall k :: k in w.databases && w.databases[k].finalizer ==>
          && k in w'.databases && w'.databases[k].finalizer && w'.databases[k].uid == w.databases[k].uid
          && w'.databases[k].spec.name == w.databases[k].spec.name)
  }

  lemma UndisturbedCorresponds(w: World, w': World)
    requires Corresponds(w) && Undisturbed(w, w')
    ensures Corresponds(w')
  {
    forall uid | uid in w.server.managedDatabases
      ensures var row := w.server.managedDatabases[uid];
              OwnsSchema(w'.server, row.target, Cr(uid, row.owner.namespace)) && Backed(w', uid, row)
    {
      assert Backed(w, uid, w.server.managedDatabases[uid]);
    }
  }

  /** Whatever a user pass sends, it is about accounts. */
  lemma UserPassUndisturbed(w: World, k: Key, env: Env)
    requires Literate(env.reader)
    ensures var w' := UP.UserPass(w, k, env);
            w'.databases == w.databases && w'.uids == w.uids && SchemasStay(w.server, w'.server)
  {
    if k in w.users {
      UserPassLogs(w, k, env);
      UserPassCases(w, k, env);
    }
  }

  lemma SchemasStaySide(w: World, w': World)
    requires Side(w) && Corresponds(w)
    requires w'.databases == w.databases && w'.uids == w.uids && SchemasStay(w.server, w'.server)
    ensures Side(w') && Corresponds(w')
  {
    US.DatabasesStay(w.server, w'.server, w.databases);
    UndisturbedCorresponds(w, w');
  }

  lemma ObjectStepUndisturbed(w: World, step: Step)
    ensures Undisturbed(w, ObjectStep(w, step))
  {
  }

  /** Others drop no schema of ours. */
  lemma OutsideStepUndisturbed(w: World, step: Step)
    requires BenignOutside(w, step)
    ensures Undisturbed(w, OutsideStep(w, step))
  {
  }

  lemma NextCorresponds(w: World, step: Step)
    requires Side(w) && Corresponds(w) && Faithful(w, step)
    ensures Side(Next(w, step)) && Corresponds(Next(w, step))
  {
    if step.ReconcileDatabase? {
      if step.key in w.databases {
        DatabasePassCorresponds(w, step.key, step.env);
      }
    } else if step.ReconcileUser? {
      UserPassUndisturbed(w, step.key, step.env);
      SchemasStaySide(w, UP.UserPass(w, step.key, step.env));
    } else if IsOutside(step) {
      OutsideStepSide(w, step);
      OutsideStepUndisturbed(w, step);
      UndisturbedCorresponds(w, OutsideStep(w, step));
    } else {
      ObjectStepSide(w, step);
      ObjectStepUndisturbed(w, step);
      UndisturbedCorresponds(w, ObjectStep(w, step));
    }
  }

  lemma {:induction false} RunCorresponds(w: World, steps: seq<Step>)
    requires Side(w) && Corresponds(w) && FaithfulRun(w, steps)
    ensures Side(Run(w, steps)) && Corresponds(Run(w, steps))
    decreases |steps|
  {
    if steps != [] {
      NextCorresponds(w, steps[0]);
      RunCorresponds(Next(w, steps[0]), steps[1..]);
    }
  }

  /**
   * No leak: at every point of a run in which ledger statements and drops are carried out, each schema
   * made for a custom resource has its ledger row, and each row its schema and a Database object with
   * finalizer, identity and schema name, so an identity no object carries any more has neither schema
   * nor row.
   */
  lemma NoLeak(w: World, steps: seq<Step>)
    requires Initial(w) && FaithfulRun(w, steps)
    ensures Corresponds(Run(w, steps))
    ensures forall uid, namespace, n ::
              (forall k :: k in Run(w, steps).databases ==> Run(w, steps).databases[k].uid != uid) ==>
                uid !in Run(w, steps).server.managedDatabases && !OwnsSchema(Run(w, steps).server, n, Cr(uid, namespace))
  {
    RunCorresponds(w, steps);
    var r := Run(w, steps);
    forall uid, namespace, n | forall k :: k in r.databases ==> r.databases[k].uid != uid
      ensures uid !in r.server.managedDatabases && !OwnsSchema(r.server, n, Cr(uid, namespace))
    {
      assert uid in r.server.managedDatabases ==> Backed(r, uid, r.server.managedDatabases[uid]);
    }
  }

  /**
   * Why quotable names: a CREATE that goes through leaves nothing stray exactly when the name holds no
   * back-tick, since what the text is read as creates a schema of another name.
   */
  lemma CreateLeaksExactly(s: Server, k: Key, d: Database, env: Env)
    requires DS.NoStray(s, k, d) && env.ok(InsertRow) && !SchemaExists(s, d.spec.name) && d.spec.name != []
    requires Literate(env.reader) && !Stray(s, DP.Actor(k, d), DP.CreateText(d), env)
    requires DP.Accepted(s, DP.CreateText(d), env, env.ok(SendCreate))
    ensures DS.NoStray(DP.Create(s, k, d, env).0, k, d) <==> Quotable(d.spec.name)
  {
    var r := env.reader(DP.CreateText(d));
    assert ReadAsCreate(r, d.spec.name, d.spec.characterSet, d.spec.collate);
    if Quotable(d.spec.name) {
      DS.CreateNoStray(s, k, d, env);
    } else {
      DS.CreateExec(s, DP.Actor(k, d), r.value, env.ok(SendCreate));
      assert OwnsSchema(DP.Create(s, k, d, env).0, r.value.name, DP.Actor(k, d));
    }
  }
}
