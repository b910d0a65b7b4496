/**
 * Repeated passes over one Database object: character set and collation settle in one pass when the pair
 * is admissible, and never when it is not.
 */
module DatabaseConvergence {
  import opened Basics
  import opened SqlText
  import opened SqlStatements
  import opened SqlTexts
  import opened Model
  import opened Ownership
  import opened Safety
  import opened DatabaseReconciler
  import opened Charsets
  import opened Descent

  // ---------------------------------------------------------------- catalog, webhook and server

  /** The published rows are the server's, and each default collation belongs to its character set. */
  ghost predicate CatalogMatches(c: Catalog, rows: seq<CollationRow>) {
    && (forall i :: 0 <= i < |rows| ==>
          && rows[i].collation in c.charsetOf && c.charsetOf[rows[i].collation] == rows[i].charset
          && rows[i].charset in c.defaultOf)
  }

  /** Each default collation belongs to its character set, and the names are plain words, as all of MySQL's are. */
  ghost predicate DefaultsOk(c: Catalog) {
    && (forall cs :: cs in c.defaultOf ==>
          PlainOption(cs) && c.defaultOf[cs] in c.charsetOf && c.charsetOf[c.defaultOf[cs]] == cs)
    && (forall co :: co in c.charsetOf ==> PlainOption(co))
    && c.collation in c.charsetOf && c.charsetOf[c.collation] == c.characterSet
  }

  /** A schema's collation belongs to its character set. */
  predicate SchemaOk(c: Catalog, x: Schema) {
    x.collation in c.charsetOf && c.charsetOf[x.collation] == x.characterSet
  }

  /** The server knows what the specification names, and a collation given with a character set belongs to it. */
  predicate Compatible(c: Catalog, spec: DatabaseSpec) {
    && (spec.characterSet != [] ==> spec.characterSet in c.defaultOf)
    && (spec.collate != [] ==> spec.collate in c.charsetOf)
    && (spec.characterSet != [] && spec.collate != [] ==> c.charsetOf[spec.collate] == spec.characterSet)
  }

  predicate AsSpecified(spec: DatabaseSpec, x: Schema) {
    && (spec.characterSet != [] ==> x.characterSet == spec.characterSet)
    && (spec.collate != [] ==> x.collation == spec.collate)
  }

  /** What the webhook admits against an index of the server's rows, the server can carry out. */
  lemma AdmittedIsCompatible(c: Catalog, spec: DatabaseSpec, a: AdminStatus, rows: seq<CollationRow>)
    requires IsIndex(a.availableCharsets, rows) && CatalogMatches(c, rows)
    requires Admits(ValidateCombination(spec, Found(a))) && spec.connection != []
    ensures Compatible(c, spec)
  {
    SearchAgrees(a.availableCharsets, rows, Effective(spec.characterSet, a.characterSet), Effective(spec.collate, a.collation));
  }

  // ---------------------------------------------------------------- one pass

  /** The clauses the ALTER mentions. */
  function Changes(d: Database, x: Schema): (Bytes, Bytes) {
    (Change(d.spec.characterSet, x.characterSet), Change(d.spec.collate, x.collation))
  }

  /** The environment answers every lookup, and the name is read as meant. */
  ghost predicate Answers(env: Env, d: Database) {
    Literate(env.reader) && LookupsOk(env) && (forall round :: env.ok(LookupSchemaRow(round))) && Quotable(d.spec.name)
  }

  /** The server knows what the specification names. */
  predicate Known(c: Catalog, spec: DatabaseSpec) {
    && (spec.characterSet != [] ==> spec.characterSet in c.defaultOf)
    && (spec.collate != [] ==> spec.collate in c.charsetOf)
  }

  lemma StartedAs(s: Server, k: Key, d: Database, env: Env)
    requires SchemaExists(s, d.spec.name) && Answers(env, d)
    ensures Started(s, d, env) ==
            d.(status := DatabaseStatus(d.spec.name, s.schemas[d.spec.name].characterSet, s.schemas[d.spec.name].collation))
    ensures SchemaSeen(s, d.spec.name, env, 0) && SchemaSeen(s, d.spec.name, env, 1)
  {
  }

  /** The pass sends an ALTER exactly when the schema is not as specified. */
  lemma OwnedPass(s: Server, k: Key, d: Database, env: Env)
    requires SchemaExists(s, d.spec.name) && DatabaseMine(s, k, d) && Answers(env, d)
    requires DefaultsOk(s.catalog) && Known(s.catalog, d.spec)
    ensures var x := s.schemas[d.spec.name];
            var (cs, co) := Changes(d, x);
            && (AsSpecified(d.spec, x) <==> cs == [] && co == [])
            && Converge(s, k, d, env).0 ==
                 if AsSpecified(d.spec, x) then s
                 else Exec(s, Actor(k, d), AlterDatabase(d.spec.name, cs, co), env.ok(SendAlter)).0
  {
    var x := s.schemas[d.spec.name];
    var (cs, co) := Changes(d, x);
    StartedAs(s, k, d, env);
    assert PlainOption(cs) && PlainOption(co);
    if !AsSpecified(d.spec, x) {
      var text := AlterText(Started(s, d, env));
      assert ReadAsAlter(env.reader(text), d.spec.name, cs, co);
    }
  }

  /** A compatible pair: the ALTER is accepted, whichever clauses it needs, and the schema ends up as specified. */
  lemma CompatibleAlter(s: Server, k: Key, d: Database, env: Env)
    requires SchemaExists(s, d.spec.name) && DatabaseMine(s, k, d) && env.ok(SendAlter) && Answers(env, d)
    requires DefaultsOk(s.catalog) && SchemaOk(s.catalog, s.schemas[d.spec.name]) && Compatible(s.catalog, d.spec)
    ensures var s1 := Converge(s, k, d, env).0;
            && s1.catalog == s.catalog && s1.managedDatabases == s.managedDatabases
            && s1.schemas.Keys == s.schemas.Keys
            && s1.schemas[d.spec.name].creator == s.schemas[d.spec.name].creator
            && AsSpecified(d.spec, s1.schemas[d.spec.name]) && SchemaOk(s.catalog, s1.schemas[d.spec.name])
  {
    OwnedPass(s, k, d, env);
    var x := s.schemas[d.spec.name];
    var (cs, co) := Changes(d, x);
    if !AsSpecified(d.spec, x) {
      assert Resolve(s.catalog, cs, co).Some?;
    }
  }

  /** Nothing is sent for a schema as specified, whatever status is stored. */
  lemma QuietWhenAsSpecified(s: Server, k: Key, d: Database, env: Env)
    requires SchemaExists(s, d.spec.name) && DatabaseMine(s, k, d) && Answers(env, d)
    requires DefaultsOk(s.catalog) && Known(s.catalog, d.spec)
    ensures Converge(s, k, d, env).0 == s <==> AsSpecified(d.spec, s.schemas[d.spec.name])
  {
    OwnedPass(s, k, d, env);
    if !AsSpecified(d.spec, s.schemas[d.spec.name]) {
      assert |Converge(s, k, d, env).0.issued| == |s.issued| + 1;
    }
  }

  /**
   * One-pass convergence from admission: once the webhook accepted the specification against the
   * server's own rows, a pass whose ALTER goes through makes every later pass silent, for each presence
   * of character set and collation and whichever status got stored.
   */
  lemma OnePassAfterAdmission(s: Server, k: Key, d: Database, env: Env, a: AdminStatus, rows: seq<CollationRow>, d': Database, env': Env)
    requires IsIndex(a.availableCharsets, rows) && CatalogMatches(s.catalog, rows) && DefaultsOk(s.catalog)
    requires Admits(ValidateCombination(d.spec, Found(a))) && d.spec.connection != []
    requires Answers(env, d) && Answers(env', d)
    requires SchemaExists(s, d.spec.name) && DatabaseMine(s, k, d) && env.ok(SendAlter)
    requires SchemaOk(s.catalog, s.schemas[d.spec.name])
    requires d'.uid == d.uid && d'.spec == d.spec
    ensures var s1 := Converge(s, k, d, env).0;
            && SchemaExists(s1, d.spec.name) && AsSpecified(d.spec, s1.schemas[d.spec.name])
            && Converge(s1, k, d', env').0 == s1
  {
    AdmittedIsCompatible(s.catalog, d.spec, a, rows);
    CompatibleAlter(s, k, d, env);
    QuietWhenAsSpecified(Converge(s, k, d, env).0, k, d', env');
  }

  /** Whether the server carries out the ALTER of this pass, if there is one. */
  predicate AlterAccepted(s: Server, d: Database)
    requires d.spec.name in s.schemas
  {
    var x := s.schemas[d.spec.name];
    var (cs, co) := Changes(d, x);
    AsSpecified(d.spec, x) || Resolve(s.catalog, cs, co).Some?
  }

  /** Without admission: a pass whose ALTER goes through silences the next exactly when the pair is compatible. */
  lemma SettlesIffCompatible(s: Server, k: Key, d: Database, env: Env, env': Env)
    requires SchemaExists(s, d.spec.name) && DatabaseMine(s, k, d) && env.ok(SendAlter) && Answers(env, d) && Answers(env', d)
    requires DefaultsOk(s.catalog) && SchemaOk(s.catalog, s.schemas[d.spec.name]) && AlterAccepted(s, d)
    requires Known(s.catalog, d.spec)
    ensures var s1 := Converge(s, k, d, env).0;
            && SchemaExists(s1, d.spec.name) && DatabaseMine(s1, k, d) && SchemaOk(s1.catalog, s1.schemas[d.spec.name])
            && (Converge(s1, k, d, env').0 == s1 <==> Compatible(s.catalog, d.spec))
  {
    OwnedPass(s, k, d, env);
    var s1 := Converge(s, k, d, env).0;
    QuietWhenAsSpecified(s1, k, d, env');
    if Compatible(s.catalog, d.spec) {
      CompatibleAlter(s, k, d, env);
    }
  }

  /** An incompatible pair never settles: in every state of the schema, a pass sends one more ALTER. */
  lemma IncompatibleNeverSettles(s: Server, k: Key, d: Database, env: Env)
    requires SchemaExists(s, d.spec.name) && DatabaseMine(s, k, d) && Answers(env, d)
    requires DefaultsOk(s.catalog) && SchemaOk(s.catalog, s.schemas[d.spec.name]) && !Compatible(s.catalog, d.spec)
    requires Known(s.catalog, d.spec)
    ensures var s1 := Converge(s, k, d, env).0;
            && |s1.issued| == |s.issued| + 1
            && s1.catalog == s.catalog && SchemaExists(s1, d.spec.name) && DatabaseMine(s1, k, d)
            && SchemaOk(s1.catalog, s1.schemas[d.spec.name])
  {
    OwnedPass(s, k, d, env);
  }

  // ---------------------------------------------------------------- convergence over passes

  ghost predicate WellFormed(w: World, k: Key) {
    && DefaultsOk(w.server.catalog) && k in w.databases
    && var d, s := w.databases[k], w.server;
       && !d.deleting && d.spec.name != [] && Quotable(d.spec.name) && d.spec.connection != [] && Compatible(s.catalog, d.spec)
       && (d.spec.name in s.schemas ==>
             && DatabaseMine(s, k, d) && OwnsSchema(s, d.spec.name, Actor(k, d)) && SchemaOk(s.catalog, s.schemas[d.spec.name]))
       && (d.uid in s.managedDatabases ==> s.managedDatabases[d.uid] == Row(k, d.spec.name))
  }

  /** The status bears the specified name and what the schema of that name has. */
  predicate Recorded(s: Server, d: Database) {
    && d.status.name == d.spec.name && d.spec.name in s.schemas
    && d.status.characterSet == s.schemas[d.spec.name].characterSet && d.status.collate == s.schemas[d.spec.name].collation
  }

  /** The schema exists, is ours in fact and in the ledger, is as specified, and the status says so. */
  ghost predicate Matches(w: World, k: Key) {
    && k in w.databases
    && var d, s := w.databases[k], w.server;
       && OwnsSchema(s, d.spec.name, Actor(k, d)) && RowIs(s.managedDatabases, d.uid, k, d.spec.name)
       && AsSpecified(d.spec, s.schemas[d.spec.name]) && Recorded(s, d)
  }

  function Stage(w: World, k: Key): nat {
    if k !in w.databases then 0
    else
      var d := w.databases[k];
      if !d.finalizer then 3
      else if d.spec.name !in w.server.schemas then 2
      else if !AsSpecified(d.spec, w.server.schemas[d.spec.name]) || !Recorded(w.server, d) then 1
      else 0
  }

  ghost predicate Good(w: World, k: Key, env: Env) { WellFormed(w, k) && AllSucceed(env) }

  lemma CreatedAsSpecified(s: Server, k: Key, d: Database, env: Env)
    requires AllSucceed(env) && d.spec.name != [] && Quotable(d.spec.name) && d.spec.name !in s.schemas
    requires DefaultsOk(s.catalog) && Compatible(s.catalog, d.spec)
    requires d.uid in s.managedDatabases ==> s.managedDatabases[d.uid] == Row(k, d.spec.name)
    ensures var (s1, d1) := Converge(s, k, d, env);
            && d1.spec == d.spec && d1.uid == d.uid && d1.finalizer == d.finalizer && d1.deleting == d.deleting
            && s1.catalog == s.catalog
            && OwnsSchema(s1, d.spec.name, Actor(k, d)) && RowIs(s1.managedDatabases, d.uid, k, d.spec.name)
            && AsSpecified(d.spec, s1.schemas[d.spec.name]) && SchemaOk(s.catalog, s1.schemas[d.spec.name])
            && Recorded(s1, d1)
  {
    var d1 := Started(s, d, env);
    assert Resolve(s.catalog, d.spec.characterSet, d.spec.collate).Some?;
    assert Converge(s, k, d, env) == Create(s, k, d1, env);
    ReadsCreate(s.catalog, d1, env);
    CreateResult(s, k, d1, env);
  }

  lemma ReadsCreate(c: Catalog, d: Database, env: Env)
    requires Literate(env.reader) && Quotable(d.spec.name) && DefaultsOk(c) && Compatible(c, d.spec)
    ensures env.reader(CreateText(d)) == Some(CreateDatabase(d.spec.name, d.spec.characterSet, d.spec.collate))
  {
    assert PlainOption(d.spec.characterSet) && PlainOption(d.spec.collate);
    assert ReadAsCreate(env.reader(CreateText(d)), d.spec.name, d.spec.characterSet, d.spec.collate);
  }

  lemma CreateResult(s: Server, k: Key, d: Database, env: Env)
    requires env.ok(SendCreate) && env.ok(InsertRow) && d.spec.name !in s.schemas
    requires env.reader(CreateText(d)) == Some(CreateDatabase(d.spec.name, d.spec.characterSet, d.spec.collate))
    requires Resolve(s.catalog, d.spec.characterSet, d.spec.collate).Some?
    ensures var (s1, d1) := Create(s, k, d, env);
            var r := Resolve(s.catalog, d.spec.characterSet, d.spec.collate).value;
            && d1.spec == d.spec && d1.uid == d.uid && d1.finalizer == d.finalizer && d1.deleting == d.deleting
            && s1.catalog == s.catalog && (d.spec.name != [] && env.ok(LookupSchema(2)) ==> d1.status == DatabaseStatus(d.status.name, r.0, r.1))
            && s1.schemas == s.schemas[d.spec.name := Schema(Actor(k, d), r.0, r.1)]
            && s1.managedDatabases == if d.uid in s.managedDatabases then s.managedDatabases else s.managedDatabases[d.uid := Row(k, d.spec.name)]
  {
  }

  /** The in-memory object of a pass differs from the stored one in its status only. */
  lemma ConvergeKeepsObject(s: Server, k: Key, d: Database, env: Env)
    ensures var d1 := Converge(s, k, d, env).1;
            d1.spec == d.spec && d1.uid == d.uid && d1.finalizer == d.finalizer && d1.deleting == d.deleting
  {
  }

  /** A pass over a schema of ours ends by reading it back. */
  lemma OwnedRecorded(s: Server, k: Key, d: Database, env: Env)
    requires SchemaExists(s, d.spec.name) && DatabaseMine(s, k, d) && env.ok(SendAlter) && Answers(env, d)
    requires DefaultsOk(s.catalog) && SchemaOk(s.catalog, s.schemas[d.spec.name]) && Compatible(s.catalog, d.spec)
    ensures Recorded(Converge(s, k, d, env).0, Converge(s, k, d, env).1)
  {
    StartedAs(s, k, d, env);
    UpdateRecorded(s, k, Started(s, d, env), env);
  }

  lemma UpdateRecorded(s: Server, k: Key, d: Database, env: Env)
    requires SchemaExists(s, d.spec.name) && Recorded(s, d) && env.ok(SendAlter) && Answers(env, d)
    requires DefaultsOk(s.catalog) && SchemaOk(s.catalog, s.schemas[d.spec.name]) && Compatible(s.catalog, d.spec)
    ensures Recorded(Update(s, k, d, env).0, Update(s, k, d, env).1)
  {
    var x := s.schemas[d.spec.name];
    var (cs, co) := Changes(d, x);
    if NeedsAlter(d) {
      assert PlainOption(cs) && PlainOption(co);
      assert ReadAsAlter(env.reader(AlterText(d)), d.spec.name, cs, co);
      assert Resolve(s.catalog, cs, co).Some?;
      AlterExec(s, k, d, cs, co, env);
    }
  }

  lemma AlterExec(s: Server, k: Key, d: Database, cs: Bytes, co: Bytes, env: Env)
    requires SchemaExists(s, d.spec.name) && d.status.name == d.spec.name && NeedsAlter(d) && env.ok(SendAlter) && env.ok(LookupSchema(2))
    requires env.reader(AlterText(d)) == Some(AlterDatabase(d.spec.name, cs, co)) && Resolve(s.catalog, cs, co).Some?
    ensures Recorded(Update(s, k, d, env).0, Update(s, k, d, env).1)
  {
  }

  /**
   * Every pass over a live object with finalizer and connection whose status can be stored records the name,
   * whether it makes the schema, takes care of it or leaves it alone, and whatever earlier passes recorded.
   */
  lemma PassRecordsName(w: World, k: Key, env: Env)
    requires k in w.databases && !w.databases[k].deleting && w.databases[k].finalizer
    requires env.connect && w.databases[k].spec.connection != [] && env.ok(UpdateStatus)
    ensures var d, w' := w.databases[k], DatabasePass(w, k, env);
            && k in w'.databases && w'.databases[k].spec == d.spec && w'.databases[k].uid == d.uid
            && w'.databases[k].status.name == d.spec.name
  {
  }

  /** A schema that is not under management is left alone, and its attributes are recorded. */
  lemma LeftAlone(w: World, k: Key, env: Env)
    requires k in w.databases && !w.databases[k].deleting && w.databases[k].finalizer
    requires env.connect && w.databases[k].spec.connection != [] && env.ok(UpdateStatus) && LookupsOk(env)
    requires SchemaExists(w.server, w.databases[k].spec.name)
    requires var d, rows := w.databases[k], w.server.managedDatabases;
             !(d.uid in rows && rows[d.uid].target == d.spec.name && rows[d.uid].owner == k)
    ensures var w' := DatabasePass(w, k, env);
            w'.server == w.server && k in w'.databases && Recorded(w.server, w'.databases[k])
  {
  }

  lemma PassFalls(w: World, k: Key, env: Env)
    requires Good(w, k, env)
    ensures var w' := DatabasePass(w, k, env);
            && Good(w', k, env)
            && (if Stage(w, k) == 0 then Stage(w', k) == 0 && w'.server == w.server else Stage(w', k) < Stage(w, k))
  {
    var d, s := w.databases[k], w.server;
    ConvergeKeepsObject(s, k, d, env);
    if Stage(w, k) == 2 {
      CreatedAsSpecified(s, k, d, env);
    } else if Stage(w, k) < 2 {
      CompatibleAlter(s, k, d, env);
      OwnedPass(s, k, d, env);
      OwnedRecorded(s, k, d, env);
    }
  }

  function PassOf(k: Key, env: Env): World -> World { x => DatabasePass(x, k, env) }

  ghost function GoodOf(k: Key, env: Env): World -> bool { x => Good(x, k, env) }

  function StageOf(k: Key): World -> nat { x => Stage(x, k) }

  lemma PassesFall(k: Key, env: Env)
    ensures Falls(PassOf(k, env), GoodOf(k, env), StageOf(k))
    ensures forall x: World {:trigger PassOf(k, env)(x)} :: GoodOf(k, env)(x) && StageOf(k)(x) == 0 ==> ServerOf()(PassOf(k, env)(x)) == ServerOf()(x)
  {
    forall x: World | Good(x, k, env)
      ensures var x' := DatabasePass(x, k, env);
              && Good(x', k, env)
              && (if Stage(x, k) == 0 then Stage(x', k) == 0 && x'.server == x.server else Stage(x', k) < Stage(x, k))
    {
      PassFalls(x, k, env);
    }
  }

  /** Convergence: at most three quiet passes make the schema, in the ledger and as specified; after them nothing is sent. */
  lemma Converges(w: World, k: Key, env: Env, n: nat)
    requires Good(w, k, env) && n >= Stage(w, k)
    ensures Stage(w, k) <= 3
    ensures Matches(Iterate(PassOf(k, env), w, n), k)
    ensures Iterate(PassOf(k, env), w, n).server == Iterate(PassOf(k, env), w, Stage(w, k)).server
  {
    PassesFall(k, env);
    assert GoodOf(k, env)(w) && StageOf(k)(w) == Stage(w, k);
    Settles(PassOf(k, env), GoodOf(k, env), StageOf(k), ServerOf(), w, n);
    assert Good(Iterate(PassOf(k, env), w, n), k, env) && Stage(Iterate(PassOf(k, env), w, n), k) == 0;
  }
}
