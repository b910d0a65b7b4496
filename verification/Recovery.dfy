/**
 * What passes repair and what they do not: objects dropped by others, names handed from one resource to
 * another, and the cases in which the code does not meet its promise, each with its exact condition.
 */
module Recovery {
  import opened Basics
  import opened SqlText
  import opened SqlStatements
  import opened SqlTexts
  import opened Model
  import opened Ownership
  import opened Safety
  import opened Runs
  import US = UserSafety
  import DS = DatabaseSafety
  import DP = DatabaseReconciler
  import DC = DatabaseConvergence
  import UP = UserPasses
  import SC = Scenarios

  // ---------------------------------------------------------------- databases

  /** The statements about this database are read as meant. */
  predicate ReadAsMeant(spec: DatabaseSpec) {
    Quotable(spec.name) && PlainOption(spec.characterSet) && PlainOption(spec.collate)
  }

  /**
   * Somebody drops an owned schema and nobody takes the name: the next pass makes it again. The ledger
   * row is still there, so the duplicate insert fails harmlessly, and the invariant holds again.
   */
  lemma DatabaseRecovers(w: World, k: Key, env: Env)
    requires Inv(w) && k in w.databases && !w.databases[k].deleting && w.databases[k].finalizer
    requires w.databases[k].uid in w.server.managedDatabases
    requires DP.Connected(w.databases[k], env) && env.ok(SendCreate) && Literate(env.reader) && LookupsOk(env)
    requires ReadAsMeant(w.databases[k].spec)
    requires Resolve(w.server.catalog, w.databases[k].spec.characterSet, w.databases[k].spec.collate).Some?
    ensures var d := w.databases[k];
            var w1 := OutsideStep(w, OutsideDropSchema(d.spec.name));
            var w2 := DP.DatabasePass(w1, k, env);
            && OwnsSchema(w2.server, d.spec.name, DP.Actor(k, d)) && DatabaseMine(w2.server, k, w2.databases[k]) && Inv(w2)
  {
    var d := w.databases[k];
    var w1 := OutsideStep(w, OutsideDropSchema(d.spec.name));
    assert DS.DatabaseInv(w.server, k, d);
    MadeAgain(w1, k, env);
    LostSchemaInv(w, DP.DatabasePass(w1, k, env), k);
  }

  /** The pass over a missing schema whose row is there. */
  lemma MadeAgain(w: World, k: Key, env: Env)
    requires k in w.databases && !w.databases[k].deleting && w.databases[k].finalizer && DP.Connected(w.databases[k], env)
    requires env.ok(SendCreate) && Literate(env.reader) && ReadAsMeant(w.databases[k].spec)
    requires w.databases[k].spec.name != [] && w.databases[k].spec.name !in w.server.schemas && w.databases[k].uid in w.server.managedDatabases
    requires Resolve(w.server.catalog, w.databases[k].spec.characterSet, w.databases[k].spec.collate).Some?
    ensures var d, s := w.databases[k], w.server;
            var w2 := DP.DatabasePass(w, k, env);
            && OwnsSchema(w2.server, d.spec.name, DP.Actor(k, d))
            && w2.server == s.(schemas := s.schemas[d.spec.name := w2.server.schemas[d.spec.name]],
                               issued := s.issued + [Issued(DP.Actor(k, d), CreateDatabase(d.spec.name, d.spec.characterSet, d.spec.collate), {}, {})])
            && w2.users == w.users && w2.uids == w.uids
            && SameBut(w.databases, w2.databases, k) && k in w2.databases && DS.SameObject(d, w2.databases[k])
  {
    var d := w.databases[k];
    var d1 := d.(status := d.status.(name := d.spec.name));
    assert DP.Converge(w.server, k, d, env) == DP.Create(w.server, k, d1, env);
    CreateAgain(w.server, k, d1, env);
    DatabaseLiveCases(w, k, env);
  }

  /** Creating a schema whose row is already there: only the schema and the log change. */
  lemma CreateAgain(s: Server, k: Key, d: Database, env: Env)
    requires d.spec.name !in s.schemas && d.uid in s.managedDatabases && d.spec.name != []
    requires env.ok(SendCreate) && Resolve(s.catalog, d.spec.characterSet, d.spec.collate).Some?
    requires Literate(env.reader) && ReadAsMeant(d.spec)
    ensures var (s1, d1) := DP.Create(s, k, d, env);
            && OwnsSchema(s1, d.spec.name, DP.Actor(k, d)) && DS.SameObject(d, d1)
            && s1 == s.(schemas := s.schemas[d.spec.name := s1.schemas[d.spec.name]],
                        issued := s.issued + [Issued(DP.Actor(k, d), CreateDatabase(d.spec.name, d.spec.characterSet, d.spec.collate), {}, {})])
  {
    assert ReadAsCreate(env.reader(DP.CreateText(d)), d.spec.name, d.spec.characterSet, d.spec.collate);
  }

  lemma LostSchemaInv(w: World, w2: World, k: Key)
    requires Inv(w) && k in w.databases
    requires var d := w.databases[k];
             && w2.users == w.users && w2.uids == w.uids && w2.server.accounts == w.server.accounts
             && w2.server.managedUsers == w.server.managedUsers && w2.server.managedDatabases == w.server.managedDatabases
             && SameBut(w.databases, w2.databases, k) && k in w2.databases && DS.SameObject(d, w2.databases[k])
             && OwnsSchema(w2.server, d.spec.name, DP.Actor(k, d))
             && (forall n :: n in w.server.schemas && n != d.spec.name ==> n in w2.server.schemas && w2.server.schemas[n] == w.server.schemas[n])
             && |w2.server.issued| == |w.server.issued| + 1 && w2.server.issued[..|w.server.issued|] == w.server.issued
             && Permitted(w2.server.issued[|w.server.issued|], true)
             && d.uid in w.server.managedDatabases && Quotable(d.spec.name)
    ensures Inv(w2)
  {
    var d := w.databases[k];
    forall x | x in w2.databases ensures DS.DatabaseInv(w2.server, x, w2.databases[x]) {
      assert DS.DatabaseInv(w.server, x, w.databases[x]) && DS.DatabaseInv(w.server, k, d);
    }
    forall x | x in w2.users ensures US.UserInv(w2.server, x, w2.users[x]) {
      assert US.UserInv(w.server, x, w.users[x]);
    }
    OneMoreLogged(w.server, w2.server);
  }

  lemma OneMoreLogged(s: Server, s2: Server)
    requires LogInv(s) && |s2.issued| == |s.issued| + 1 && s2.issued[..|s.issued|] == s.issued && Permitted(s2.issued[|s.issued|], true)
    ensures LogInv(s2)
  {
    forall i | 0 <= i < |s2.issued| ensures Permitted(s2.issued[i], true) {
      if i < |s.issued| {
        assert s2.issued[i] == s2.issued[..|s.issued|][i];
      }
    }
  }

  /** The deletion pass of one object that may drop its schema. */
  ghost predicate Finalizes(w: World, k: Key, env: Env) {
    && k in w.databases && w.databases[k].deleting && w.databases[k].finalizer && DP.Connected(w.databases[k], env)
    && Quotable(w.databases[k].spec.name) && DecidesDatabase(w.server, k, w.databases[k], env, 1)
    && env.ok(SendDrop) && env.ok(DeleteRow) && Literate(env.reader) && LookupsOk(env)
  }

  lemma FinalizedSchema(w: World, k: Key, env: Env)
    requires Inv(w) && Finalizes(w, k, env)
    ensures var w1 := DP.DatabasePass(w, k, env);
            && Inv(w1) && w.databases[k].spec.name !in w1.server.schemas && w1.server.catalog == w.server.catalog
            && w1.server.managedDatabases == w.server.managedDatabases - {w.databases[k].uid}
            && (forall x :: x in w.databases && x != k ==> x in w1.databases && w1.databases[x] == w.databases[x])
  {
    FinalizedInv(w, k, env);
    SC.DropPass(w, k, env);
  }

  lemma FinalizedInv(w: World, k: Key, env: Env)
    requires Inv(w) && Finalizes(w, k, env)
    ensures Inv(DP.DatabasePass(w, k, env))
  {
    assert DS.DatabaseInv(w.server, k, w.databases[k]);
    DS.QuotableStays(w.server, k, w.databases[k], env);
    NextInv(w, ReconcileDatabase(k, env));
  }

  /** A second object of the name has no row while the first may drop. */
  lemma SecondHasNoRow(w: World, k: Key, k': Key, env: Env)
    requires Inv(w) && Finalizes(w, k, env) && k' in w.databases && k' != k && w.databases[k'].spec.name == w.databases[k].spec.name
    ensures w.databases[k'].uid !in w.server.managedDatabases
  {
    var d, d' := w.databases[k], w.databases[k'];
    assert DS.DatabaseInv(w.server, k, d) && DS.DatabaseInv(w.server, k', d');
    assert SchemaSeen(w.server, d.spec.name, env, 1) == SchemaExists(w.server, d.spec.name);
  }

  lemma TakenOver(w: World, k: Key, env: Env)
    requires Inv(w) && k in w.databases && !w.databases[k].deleting && w.databases[k].finalizer && DP.Connected(w.databases[k], env)
    requires env.ok(SendCreate) && env.ok(InsertRow) && env.ok(DeleteRow) && Literate(env.reader) && LookupsOk(env)
    requires ReadAsMeant(w.databases[k].spec) && w.databases[k].spec.name !in w.server.schemas
    requires w.databases[k].uid !in w.server.managedDatabases
    requires Resolve(w.server.catalog, w.databases[k].spec.characterSet, w.databases[k].spec.collate).Some?
    ensures var d := w.databases[k];
            var w2 := DP.DatabasePass(w, k, env);
            && OwnsSchema(w2.server, d.spec.name, DP.Actor(k, d)) && Inv(w2)
            && k in w2.databases && DatabaseMine(w2.server, k, w2.databases[k])
  {
    var d := w.databases[k];
    assert DS.DatabaseInv(w.server, k, d);
    DS.QuotableStays(w.server, k, d, env);
    NextInv(w, ReconcileDatabase(k, env));
    var d1 := DP.Started(w.server, d, env);
    assert ReadAsCreate(env.reader(DP.CreateText(d1)), d.spec.name, d.spec.characterSet, d.spec.collate);
    DC.CreateResult(w.server, k, d1, env);
    DatabaseLiveCases(w, k, env);
  }

  /**
   * Two objects ask for one schema and the first has it. When the first is deleted, the other's next pass
   * makes the schema anew and ownership is the other's.
   */
  lemma SchemaHandedOver(w: World, k: Key, k': Key, env: Env, env': Env)
    requires Inv(w) && Finalizes(w, k, env) && k' in w.databases && k' != k && w.databases[k'].spec.name == w.databases[k].spec.name
    requires !w.databases[k'].deleting && w.databases[k'].finalizer && DP.Connected(w.databases[k'], env')
    requires env'.ok(SendCreate) && env'.ok(InsertRow) && env'.ok(DeleteRow) && Literate(env'.reader) && LookupsOk(env')
    requires ReadAsMeant(w.databases[k'].spec)
    requires Resolve(w.server.catalog, w.databases[k'].spec.characterSet, w.databases[k'].spec.collate).Some?
    ensures var d' := w.databases[k'];
            var w2 := DP.DatabasePass(DP.DatabasePass(w, k, env), k', env');
            && OwnsSchema(w2.server, d'.spec.name, DP.Actor(k', d')) && Inv(w2)
            && k' in w2.databases && DatabaseMine(w2.server, k', w2.databases[k'])
  {
    FinalizedSchema(w, k, env);
    SecondHasNoRow(w, k, k', env);
    TakenOver(DP.DatabasePass(w, k, env), k', env');
  }

  // ---------------------------------------------------------------- accounts

  /** A pass over this object gets as far as the server. */
  predicate ReachesServer(w: World, k: Key, env: Env) {
    && k in w.users && !w.users[k].deleting && w.users[k].finalizer && w.users[k].status.username != []
    && env.connect && env.ok(GetSecret)
    && (UP.SecretKey(k, w.users[k]).Some? ==> UP.SecretOf(w, k, w.users[k]).Some?)
    && UP.SecretOwnershipOk(UP.SecretOf(w, k, w.users[k]), w.users[k])
  }

  lemma PassIsServerPass(w: World, k: Key, env: Env)
    requires ReachesServer(w, k, env)
    ensures UP.UserPass(w, k, env) == UP.ServerPass(w, k, env)
    ensures UP.LoopStart(w, k, env) == UP.ConvergeStart(w.server, w.users[k], k, UP.SecretOf(w, k, w.users[k]), env)
  {
  }

  /** An object that is found and decided to be its own: the pass is an update of it. */
  lemma PassUpdates(w: World, k: Key, env: Env)
    requires ReachesServer(w, k, env) && UP.Seen(w.server, w.users[k], env)
    requires DecidesUser(w.server, k, UP.Observed(w.server, w.users[k], env), env, 2)
    ensures var u1 := UP.Observed(w.server, w.users[k], env);
            var secret := UP.SecretOf(w, k, w.users[k]);
            var o := UP.UserUpdate(w.server, u1, k, w.databases, secret, env);
            && UP.UserPass(w, k, env) ==
               (if o.ok && env.ok(UpdateStatus) then UP.StoreUser(w.(server := o.server), k, o.user) else w.(server := o.server))
            && UP.LoopStart(w, k, env) == UP.UpdateStart(w.server, u1, k, secret, env)
  {
    PassIsServerPass(w, k, env);
  }

  ghost predicate CanCreate(w: World, k: Key, env: Env)
    requires k in w.users
  {
    && env.ok(SendCreate) && env.ok(SaveCreatedRow) && UP.DetailsFor(w.users[k], UP.SecretOf(w, k, w.users[k]), true, env).Some?
    && Literate(env.reader) && LookupsOk(env)
    && US.StartsClean(UP.CreateStart(w.server, w.users[k], k, UP.SecretOf(w, k, w.users[k]), env), k, w.databases, env)
  }

  /**
   * A pass that finds the claimed name free makes the account, and from then on it is this object's; it
   * passes the ownership decision exactly when the claimed name is the one in the specification, since
   * the ledger row records the latter.
   */
  lemma FreeNameCreated(w: World, k: Key, env: Env)
    requires InvExcept(w, k) && ReachesServer(w, k, env) && CanCreate(w, k, env)
    requires w.users[k].status.username !in w.server.accounts && w.users[k].spec.username != []
    requires w.users[k].uid in w.server.managedUsers ==>
               w.server.managedUsers[w.users[k].uid].owner == k && w.server.managedUsers[w.users[k].uid].target != []
    ensures var u := w.users[k];
            var w2 := UP.UserPass(w, k, env);
            && OwnsAccount(w2.server, u.status.username, UP.Actor(k, u)) && Inv(w2) && k in w2.users
            && (UserMine(w2.server, k, w2.users[k]) <==> u.spec.username == u.status.username)
  {
    var u, s := w.users[k], w.server;
    var secret := UP.SecretOf(w, k, u);
    var o := UP.UserCreate(s, u, k, w.databases, secret, env);
    CreatedOutcome(s, u, k, w.databases, secret, env);
    FreeNamePass(w, k, env);
    var w2 := UP.UserPass(w, k, env);
    KeptStep(w, w2, k, o);
    OwnUserStepInv(w, w2, k, false);
    CreatedMine(o.server, w2.users[k], k);
  }

  /** What a kept outcome means for the world, stored or not. */
  lemma KeptStep(w: World, w2: World, k: Key, o: UP.Outcome)
    requires k in w.users && US.Kept(w.server, w.users[k], o, k)
    requires w2.server == o.server && w2.databases == w.databases && w2.uids == w.uids
    requires w2.users == w.users || (o.ok && w2.users == w.users[k := o.user])
    ensures OwnUserStep(w, w2, k, false) && k in w2.users && w2.users[k].uid == w.users[k].uid && w2.users[k].spec == w.users[k].spec
  {
  }

  /** The object owns its claimed name and the row holds the specified one. */
  lemma CreatedMine(s: Server, u: DatabaseUser, k: Key)
    requires u.status.username != [] && u.status.username in s.accounts
    requires RowIs(s.managedUsers, u.uid, k, u.spec.username)
    ensures UserMine(s, k, u) <==> u.spec.username == u.status.username
  {
    BothNamed(u);
    assert AccountExists(s, u.status.username);
  }

  /** What the pass over a free name does to the world, given what the creation does to the server. */
  lemma FreeNamePass(w: World, k: Key, env: Env)
    requires ReachesServer(w, k, env) && LookupsOk(env) && w.users[k].status.username !in w.server.accounts
    ensures var u := w.users[k];
            var o := UP.UserCreate(w.server, u, k, w.databases, UP.SecretOf(w, k, u), env);
            var w2 := UP.UserPass(w, k, env);
            && w2.server == o.server && w2.databases == w.databases && w2.uids == w.uids
            && (w2.users == w.users || (o.ok && w2.users == w.users[k := o.user]))
  {
    PassIsServerPass(w, k, env);
  }

  lemma CreatedOutcome(s: Server, u: DatabaseUser, k: Key, databases: map<Key, Database>, secret: Option<Secret>, env: Env)
    requires u.spec.username != [] && Literate(env.reader)
    requires US.StartsClean(UP.CreateStart(s, u, k, secret, env), k, databases, env)
    requires u.status.username != [] && u.status.username !in s.accounts
    requires env.ok(SendCreate) && env.ok(SaveCreatedRow) && UP.DetailsFor(u, secret, true, env).Some?
    requires u.uid in s.managedUsers ==> s.managedUsers[u.uid].owner == k && s.managedUsers[u.uid].target != []
    ensures var o := UP.UserCreate(s, u, k, databases, secret, env);
            && US.Kept(s, u, o, k) && US.SameUser(u, o.user)
            && OwnsAccount(o.server, u.status.username, UP.Actor(k, u)) && RowIs(o.server.managedUsers, u.uid, k, u.spec.username)
            && (forall n, a :: OwnsAccount(s, n, a) && n != u.status.username && n != [] ==> OwnsAccount(o.server, n, a))
  {
    var (d, u1) := UP.DetailsFor(u, secret, true, env).value;
    US.CreatedOwned(s, u, k, d, env.ok(SendCreate));
    var (s1, sent) := UP.Send(s, k, u, CreateUser(u.status.username, d), env.ok(SendCreate));
    US.GrantedKept(s, s1, u, UP.Tracking(u1, []), k, databases, env);
    CreatedRow(s, s1, u, UP.Tracking(u1, []), k, databases, env);
    assert forall n, a :: OwnsAccount(s, n, a) && n != u.status.username ==> OwnsAccount(s1, n, a);
  }

  lemma CreatedRow(s: Server, s1: Server, u: DatabaseUser, u1: DatabaseUser, k: Key, databases: map<Key, Database>, env: Env)
    requires OwnsAccount(s1, u.status.username, UP.Actor(k, u)) && US.SameUser(u, u1)
    requires Literate(env.reader) && !US.LoopStrays(s1, u1, k, databases, 0, env)
    requires env.ok(SaveCreatedRow)
    ensures var g := UP.GrantAll(s1, u1, k, databases, env);
            var s2 := UP.SaveUserRow(g.server, k, u, env.ok(SaveCreatedRow));
            && OwnsAccount(s2, u.status.username, UP.Actor(k, u)) && RowIs(s2.managedUsers, u.uid, k, u.spec.username)
            && US.SameUser(u, g.user)
            && (forall n, a :: OwnsAccount(s1, n, a) ==> OwnsAccount(s2, n, a))
  {
    US.GrantAllTame(s1, u1, k, databases, env);
  }

  /** The account of a live object is dropped by somebody else and nobody takes the name: the next pass makes it again. */
  lemma AccountRecovers(w: World, k: Key, env: Env)
    requires Inv(w) && ReachesServer(w, k, env)
    requires CanCreate(OutsideStep(w, OutsideDropAccount(w.users[k].status.username)), k, env)
    requires OwnsAccount(w.server, w.users[k].status.username, UP.Actor(k, w.users[k]))
    ensures var u := w.users[k];
            var w2 := UP.UserPass(OutsideStep(w, OutsideDropAccount(u.status.username)), k, env);
            && OwnsAccount(w2.server, u.status.username, UP.Actor(k, u)) && Inv(w2) && k in w2.users
            && (UserMine(w2.server, k, w2.users[k]) <==> u.spec.username == u.status.username)
  {
    DroppedInv(w, k);
    DroppedReady(w, k, env);
    FreeNameCreated(OutsideStep(w, OutsideDropAccount(w.users[k].status.username)), k, env);
  }

  lemma StillReaches(w: World, k: Key, n: Bytes, env: Env)
    requires ReachesServer(w, k, env)
    ensures var w1 := OutsideStep(w, OutsideDropAccount(n));
            && ReachesServer(w1, k, env) && w1.users == w.users && w1.databases == w.databases && n !in w1.server.accounts
            && UP.SecretOf(w1, k, w.users[k]) == UP.SecretOf(w, k, w.users[k])
  {
  }

  lemma DroppedReady(w: World, k: Key, env: Env)
    requires ReachesServer(w, k, env) && US.UserInv(w.server, k, w.users[k])
    ensures var u := w.users[k];
            var w1 := OutsideStep(w, OutsideDropAccount(u.status.username));
            && ReachesServer(w1, k, env) && w1.users == w.users && u.status.username !in w1.server.accounts && u.spec.username != []
            && (u.uid in w1.server.managedUsers ==>
                  w1.server.managedUsers[u.uid].owner == k && w1.server.managedUsers[u.uid].target != [])
  {
    StillReaches(w, k, w.users[k].status.username, env);
  }

  /** Dropping an object's account leaves the invariant for all the others. */
  lemma DroppedInv(w: World, k: Key)
    requires Inv(w) && k in w.users && OwnsAccount(w.server, w.users[k].status.username, UP.Actor(k, w.users[k]))
    ensures InvExcept(OutsideStep(w, OutsideDropAccount(w.users[k].status.username)), k)
  {
    var w1 := OutsideStep(w, OutsideDropAccount(w.users[k].status.username));
    forall x | x in w1.users && x != k ensures US.UserInv(w1.server, x, w1.users[x]) {
      assert US.UserInv(w.server, x, w.users[x]);
    }
    US.DatabasesStay(w.server, w1.server, w.databases);
  }

  /**
   * Two objects claim one name and the first owns it. When the first is deleted, the other's next pass
   * makes the account anew and ownership is the other's.
   */
  lemma NameHandedOver(w: World, k: Key, k': Key, env: Env, env': Env)
    requires Inv(w) && k in w.users && k' in w.users && k != k'
    requires var u := w.users[k];
             && u.deleting && u.finalizer && u.status.username != [] && DecidesUser(w.server, k, u, env, 0)
             && env.connect && env.ok(SendDrop) && env.ok(DeleteRow) && Literate(env.reader) && LookupsOk(env)
    requires ReachesServer(w, k', env') && k' in UP.UserPass(w, k, env).users && CanCreate(UP.UserPass(w, k, env), k', env')
    requires w.users[k'].status.username == w.users[k].status.username == w.users[k'].spec.username
    ensures var w2 := UP.UserPass(UP.UserPass(w, k, env), k', env');
            && OwnsAccount(w2.server, w.users[k'].spec.username, UP.Actor(k', w.users[k']))
            && Inv(w2) && k' in w2.users && UserMine(w2.server, k', w2.users[k'])
  {
    var w1 := UP.UserPass(w, k, env);
    NextInv(w, ReconcileUser(k, env));
    DeletionDrops(w, k, env);
    assert Inv(w1) && US.UserInv(w1.server, k', w1.users[k']);
    FreeNameCreated(w1, k', env');
  }

  lemma DeletionDrops(w: World, k: Key, env: Env)
    requires k in w.users && w.users[k].deleting && w.users[k].finalizer && DecidesUser(w.server, k, w.users[k], env, 0)
    requires env.connect && env.ok(SendDrop) && env.ok(DeleteRow)
    ensures var w1 := UP.UserPass(w, k, env);
            && w.users[k].status.username !in w1.server.accounts
            && w1.secrets == w.secrets && w1.databases == w.databases
            && (w1.users == w.users || w1.users == w.users - {k})
  {
  }

  // ---------------------------------------------------------------- where the promise is not met

  /**
   * REQUIRE SSL is only sent when specification and status differ and there is an identification. An
   * account that a pass makes requires TLS as specified exactly under this condition; a status left over
   * from an account that somebody dropped violates it.
   */
  lemma {:induction false} CreatedTls(s: Server, u: DatabaseUser, k: Key, databases: map<Key, Database>, secret: Option<Secret>, env: Env)
    requires u.status.username !in s.accounts && u.status.username != []
    requires env.ok(SendCreate) && UP.DetailsFor(u, secret, true, env).Some? && Literate(env.reader)
    ensures var o := UP.UserCreate(s, u, k, databases, secret, env);
            && u.status.username in o.server.accounts
            && (o.server.accounts[u.status.username].tls == u.spec.tls <==>
                  (u.spec.tls ==> u.spec.identification.Some? && !u.status.tls))
  {
    var (d, u1) := UP.DetailsFor(u, secret, true, env).value;
    var s1 := UP.Send(s, k, u, CreateUser(u.status.username, d), env.ok(SendCreate)).0;
    SentTls(s, k, u, d, env.ok(SendCreate));
    CreatedServer(s, u, k, databases, secret, env);
    GrantsKeepTls(s1, UP.Tracking(u1, []), k, databases, 0, env);
  }

  lemma SentTls(s: Server, k: Key, u: DatabaseUser, d: Details, reached: bool)
    requires u.status.username !in s.accounts && reached
    ensures var (s1, sent) := UP.Send(s, k, u, CreateUser(u.status.username, d), reached);
            && sent && u.status.username in s1.accounts
            && s1.accounts[u.status.username].tls == (d.tls == Some(true))
  {
  }

  lemma CreatedServer(s: Server, u: DatabaseUser, k: Key, databases: map<Key, Database>, secret: Option<Secret>, env: Env)
    requires u.status.username !in s.accounts && env.ok(SendCreate) && UP.DetailsFor(u, secret, true, env).Some?
    ensures var (d, u1) := UP.DetailsFor(u, secret, true, env).value;
            var s1 := UP.Send(s, k, u, CreateUser(u.status.username, d), env.ok(SendCreate)).0;
            UP.UserCreate(s, u, k, databases, secret, env).server.accounts ==
              UP.GrantFrom(s1, UP.Tracking(u1, []), k, databases, 0, env).0.accounts
  {
  }

  lemma GrantOneKeepsTls(s: Server, u: DatabaseUser, k: Key, databases: map<Key, Database>, i: nat, env: Env)
    requires i < |u.spec.databaseList| && Literate(env.reader)
    ensures var s1 := UP.GrantOne(s, u, k, databases, i, env);
            s1.accounts.Keys == s.accounts.Keys && forall n :: n in s.accounts ==> s1.accounts[n].tls == s.accounts[n].tls
  {
    if UP.DecidesGrant(s, databases, k, u.spec.databaseList[i], env, i) {
      US.GrantOneReads(u, k, databases, i, env);
      GrantKeepsTls(s, UP.Actor(k, u), UP.GrantOneText(u, k, databases, i), env, env.ok(SendGrant(i)));
    }
  }

  lemma GrantKeepsTls(s: Server, a: Creator, text: Bytes, env: Env, reached: bool)
    requires env.reader(text).Some? ==> env.reader(text).value.Grant?
    ensures var s1 := Receive(s, a, text, env, reached).0;
            s1.accounts.Keys == s.accounts.Keys && forall n :: n in s.accounts ==> s1.accounts[n].tls == s.accounts[n].tls
  {
  }

  lemma {:induction false} GrantsKeepTls(s: Server, u: DatabaseUser, k: Key, databases: map<Key, Database>, i: nat, env: Env)
    requires i <= |u.spec.databaseList| && u.status.username in s.accounts && Literate(env.reader)
    ensures var s1 := UP.GrantFrom(s, u, k, databases, i, env).0;
            u.status.username in s1.accounts && s1.accounts[u.status.username].tls == s.accounts[u.status.username].tls
    decreases |u.spec.databaseList| - i
  {
    if i < |u.spec.databaseList| {
      GrantOneKeepsTls(s, u, k, databases, i, env);
      GrantsKeepTls(UP.GrantOne(s, u, k, databases, i, env), u, k, databases, i + 1, env);
    }
  }
}
