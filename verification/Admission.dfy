/**
 * The webhook decides on the index the admin connection published. Over runs: as long as every index it is
 * asked with lists the server's own rows, each stored specification can be carried out; an object admitted
 * on another index can be one that never settles.
 */
module Admission {
  import opened Basics
  import opened SqlText
  import opened SqlTexts
  import opened Model
  import opened Ownership
  import opened Charsets
  import opened Runs
  import opened Descent
  import opened IssuedLog
  import opened OwnershipTheorems
  import opened Scenarios
  import DC = DatabaseConvergence
  import DP = DatabaseReconciler

  // ---------------------------------------------------------------- an index of the server's own rows

  /** The index lists collation rows of this catalog. */
  ghost predicate Current(c: Catalog, a: AdminStatus) {
    exists rows :: IsIndex(a.availableCharsets, rows) && DC.CatalogMatches(c, rows)
  }

  /** Whenever the webhook is asked, it is with a current index. */
  ghost predicate AsksCurrent(c: Catalog, step: Step) {
    (step.CreateDatabaseObject? || step.EditDatabaseObject?) && step.connection.Found? ==> Current(c, step.connection.status)
  }

  ghost predicate AllCompatible(w: World) {
    forall k :: k in w.databases && w.databases[k].spec.connection != [] ==> DC.Compatible(w.server.catalog, w.databases[k].spec)
  }

  lemma CurrentAdmits(c: Catalog, spec: DatabaseSpec, connection: Connection)
    requires Admits(ValidateCombination(spec, connection)) && spec.connection != []
    requires connection.Found? ==> Current(c, connection.status)
    ensures DC.Compatible(c, spec)
  {
    var rows :| IsIndex(connection.status.availableCharsets, rows) && DC.CatalogMatches(c, rows);
    DC.AdmittedIsCompatible(c, spec, connection.status, rows);
  }

  lemma CreateKeepsCatalog(s: Server, k: Key, d: Database, env: Env)
    ensures DP.Create(s, k, d, env).0.catalog == s.catalog
  {
  }

  lemma UpdateKeepsCatalog(s: Server, k: Key, d: Database, env: Env)
    ensures DP.Update(s, k, d, env).0.catalog == s.catalog
  {
  }

  lemma ConvergeKeepsCatalog(s: Server, k: Key, d: Database, env: Env)
    ensures DP.Converge(s, k, d, env).0.catalog == s.catalog
  {
    CreateKeepsCatalog(s, k, DP.Started(s, d, env), env);
    UpdateKeepsCatalog(s, k, DP.Started(s, d, env), env);
  }

  lemma FinalizeKeepsCatalog(s: Server, k: Key, d: Database, env: Env)
    ensures DP.Finalize(s, k, d, env).catalog == s.catalog
  {
  }

  lemma DatabasePassKeepsCatalog(w: World, k: Key, env: Env)
    ensures DP.DatabasePass(w, k, env).server.catalog == w.server.catalog
  {
    if k in w.databases {
      FinalizeKeepsCatalog(w.server, k, w.databases[k], env);
      ConvergeKeepsCatalog(w.server, k, w.databases[k], env);
      if !w.databases[k].deleting {
        DatabaseLiveCases(w, k, env);
      }
    }
  }

  lemma PassKeepsCatalog(w: World, step: Step)
    requires step.ReconcileDatabase? || (step.ReconcileUser? && Literate(step.env.reader))
    ensures Next(w, step).server.catalog == w.server.catalog
  {
    if step.ReconcileDatabase? {
      DatabasePassKeepsCatalog(w, step.key, step.env);
    } else if step.key in w.users {
      UserPassLogs(w, step.key, step.env);
    }
  }

  lemma SpecsKeptCompatible(w: World, w': World)
    requires AllCompatible(w) && SpecsKept(w, w') && w'.server.catalog == w.server.catalog
    ensures AllCompatible(w')
  {
  }

  lemma AdmittedStep(w: World, step: Step)
    requires AllCompatible(w) && AsksCurrent(w.server.catalog, step)
    requires step.CreateDatabaseObject? || step.EditDatabaseObject?
    ensures AllCompatible(ObjectStep(w, step)) && ObjectStep(w, step).server == w.server
  {
    if step.spec.connection != [] && Admits(ValidateCombination(step.spec, step.connection)) {
      CurrentAdmits(w.server.catalog, step.spec, step.connection);
    }
  }

  lemma OtherObjectStep(w: World, step: Step)
    requires AllCompatible(w) && !step.CreateDatabaseObject? && !step.EditDatabaseObject?
    ensures AllCompatible(ObjectStep(w, step)) && ObjectStep(w, step).server == w.server
  {
  }

  lemma OutsideCompatible(w: World, step: Step)
    requires AllCompatible(w)
    ensures AllCompatible(OutsideStep(w, step)) && OutsideStep(w, step).server.catalog == w.server.catalog
  {
  }

  lemma NextCompatible(w: World, step: Step)
    requires AllCompatible(w) && AsksCurrent(w.server.catalog, step) && (step.ReconcileUser? ==> Literate(step.env.reader))
    ensures AllCompatible(Next(w, step)) && Next(w, step).server.catalog == w.server.catalog
  {
    if step.ReconcileDatabase? {
      DatabasePassSpecs(w, step.key, step.env);
      PassKeepsCatalog(w, step);
      SpecsKeptCompatible(w, Next(w, step));
    } else if step.ReconcileUser? {
      UserPassSpecs(w, step.key, step.env);
      PassKeepsCatalog(w, step);
      SpecsKeptCompatible(w, Next(w, step));
    } else if IsOutside(step) {
      OutsideCompatible(w, step);
    } else if step.CreateDatabaseObject? || step.EditDatabaseObject? {
      AdmittedStep(w, step);
    } else {
      OtherObjectStep(w, step);
    }
  }

  ghost predicate AlwaysCurrent(c: Catalog, steps: seq<Step>) {
    forall i :: 0 <= i < |steps| ==> AsksCurrent(c, steps[i])
  }

  /** In such a run every object that names a connection can be served as far as character set and collation go. */
  lemma {:induction false} RunCompatible(w: World, steps: seq<Step>)
    requires AllCompatible(w) && BenignRun(w, steps) && AlwaysCurrent(w.server.catalog, steps)
    ensures AllCompatible(Run(w, steps)) && Run(w, steps).server.catalog == w.server.catalog
    decreases |steps|
  {
    if steps != [] {
      assert AsksCurrent(w.server.catalog, steps[0]);
      NextCompatible(w, steps[0]);
      RunCompatible(Next(w, steps[0]), steps[1..]);
    }
  }

  // ---------------------------------------------------------------- an index of other rows

  /** The object is its own, its schema is there, and its pair is one the server knows but cannot combine. */
  ghost predicate Flapping(w: World, k: Key) {
    && k in w.databases && DC.DefaultsOk(w.server.catalog)
    && var d, s := w.databases[k], w.server;
       && !d.deleting && d.finalizer && d.spec.connection != [] && Quotable(d.spec.name)
       && SchemaExists(s, d.spec.name) && DatabaseMine(s, k, d) && DC.SchemaOk(s.catalog, s.schemas[d.spec.name])
       && DC.Known(s.catalog, d.spec) && !DC.Compatible(s.catalog, d.spec)
  }

  /** In the same position, with this specification and so many statements in the log. */
  ghost predicate FlapsWith(w: World, k: Key, spec: DatabaseSpec, sent: nat) {
    Flapping(w, k) && w.databases[k].spec == spec && |w.server.issued| == sent
  }

  /** Every pass, whatever it records, sends one ALTER more and leaves the object in the same position. */
  lemma FlappingPass(w: World, k: Key, env: Env, spec: DatabaseSpec, sent: nat)
    requires FlapsWith(w, k, spec, sent) && AllSucceed(env)
    ensures FlapsWith(DP.DatabasePass(w, k, env), k, spec, sent + 1)
  {
    var d := w.databases[k];
    DatabaseLiveCases(w, k, env);
    DC.ConvergeKeepsObject(w.server, k, d, env);
    DC.IncompatibleNeverSettles(w.server, k, d, env);
  }

  ghost function FlapsOf(k: Key, spec: DatabaseSpec): (World, nat) -> bool { (x: World, sent: nat) => FlapsWith(x, k, spec, sent) }

  lemma FlapsRaise(k: Key, env: Env, spec: DatabaseSpec)
    requires AllSucceed(env)
    ensures Raises(DC.PassOf(k, env), FlapsOf(k, spec))
  {
    forall x: World, sent: nat | FlapsWith(x, k, spec, sent) ensures FlapsWith(DP.DatabasePass(x, k, env), k, spec, sent + 1) {
      FlappingPass(x, k, env, spec, sent);
    }
  }

  lemma FlapsForever(w: World, k: Key, env: Env, spec: DatabaseSpec, sent: nat, n: nat)
    requires FlapsOf(k, spec)(w, sent) && AllSucceed(env)
    ensures FlapsOf(k, spec)(Iterate(DC.PassOf(k, env), w, n), sent + n)
  {
    FlapsRaise(k, env, spec);
    RaisedBy(DC.PassOf(k, env), FlapsOf(k, spec), w, sent, n);
  }

  lemma {:induction false} RunDatabasePasses(w: World, k: Key, env: Env, n: nat)
    requires AllSucceed(env)
    ensures Leads(w, Repeat(ReconcileDatabase(k, env), n), Iterate(DC.PassOf(k, env), w, n))
    decreases n
  {
    if n > 0 {
      var step := ReconcileDatabase(k, env);
      var w1 := DP.DatabasePass(w, k, env);
      DatabaseStep(w, k, env);
      RunDatabasePasses(w1, k, env, n - 1);
      Compose(w, [step], w1, Repeat(step, n - 1), Iterate(DC.PassOf(k, env), w1, n - 1));
      assert Repeat(step, n) == [step] + Repeat(step, n - 1);
    }
  }

  function StaleSteps(k: Key, uid: Uid, spec: DatabaseSpec, c: Connection, spec': DatabaseSpec, c': Connection, env: Env): seq<Step> {
    MakeDatabaseSteps(k, uid, spec, c, env) + [EditDatabaseObject(k, spec', c')]
  }

  /**
   * An object made with a character set alone and edited to a collation of another one, which an index
   * of other rows lists under it: the edit is admitted, and every pass from then on sends an ALTER.
   */
  lemma StaleIndexRun(w: World, k: Key, uid: Uid, spec: DatabaseSpec, c: Connection, co: Bytes, c': Connection, env: Env, n: nat)
    requires Initial(w) && AllSucceed(env) && uid !in w.uids && DC.DefaultsOk(w.server.catalog)
    requires Admits(ValidateCreate(spec, c)) && spec.connection != [] && spec.name !in w.server.schemas && Quotable(spec.name)
    requires spec.characterSet != [] && spec.collate == [] && spec.characterSet in w.server.catalog.defaultOf
    requires co != [] && co in w.server.catalog.charsetOf && w.server.catalog.charsetOf[co] != spec.characterSet
    requires Admits(ValidateCombination(spec.(collate := co), c'))
    ensures !(c'.Found? && Current(w.server.catalog, c'.status))
    ensures var steps := StaleSteps(k, uid, spec, c, spec.(collate := co), c', env) + Repeat(ReconcileDatabase(k, env), n);
            && BenignRun(w, steps)
            && |Run(w, steps).server.issued| == 1 + n
            && spec.name in Run(w, steps).server.schemas
            && !DC.AsSpecified(spec.(collate := co), Run(w, steps).server.schemas[spec.name])
  {
    var spec' := spec.(collate := co);
    var c0 := w.server.catalog;
    if c'.Found? && Current(c0, c'.status) {
      CurrentAdmits(c0, spec', c');
    }
    MakeDatabaseRun(w, k, uid, spec, c, env);
    NameOkNonempty(spec.name);
    var w1 := MadeDatabase(w, k, uid, spec, spec.characterSet, c0.defaultOf[spec.characterSet]);
    var w2 := ObjectStep(w1, EditDatabaseObject(k, spec', c'));
    ObjectStepLeads(w1, EditDatabaseObject(k, spec', c'));
    Compose(w, MakeDatabaseSteps(k, uid, spec, c, env), w1, [EditDatabaseObject(k, spec', c')], w2);
    assert Flapping(w2, k);
    FlapsForever(w2, k, env, spec', 1, n);
    RunDatabasePasses(w2, k, env, n);
    var w3 := Iterate(DC.PassOf(k, env), w2, n);
    Compose(w, StaleSteps(k, uid, spec, c, spec', c', env), w2, Repeat(ReconcileDatabase(k, env), n), w3);
    FlappingUnserved(w3, k);
  }

  lemma FlappingUnserved(w: World, k: Key)
    requires Flapping(w, k)
    ensures var d := w.databases[k]; !DC.AsSpecified(d.spec, w.server.schemas[d.spec.name])
  {
  }

  /** There is such an index. */
  lemma StaleIndexAdmits(spec: DatabaseSpec, a: AdminStatus)
    requires spec.connection != [] && spec.characterSet != [] && spec.collate != []
    requires a.availableCharsets == [Charset(spec.characterSet, [Collation(spec.collate, false)])]
    ensures ValidateCombination(spec, Found(a)) == AcceptedNotDefault
  {
    assert Search(a.availableCharsets, spec.characterSet, spec.collate) == AcceptedNotDefault;
  }
}
