/**
 * What `Benign` asks of the calls and of other people is needed: for each part, exactly when going without
 * it hands somebody else's schema or account to an object, and a run in which that happens.
 */
module Assumptions {
  import opened Basics
  import opened SqlText
  import opened SqlTexts
  import opened Model
  import opened Ownership
  import opened Safety
  import opened Charsets
  import opened Runs
  import opened Recovery
  import opened LostStatus
  import opened Scenarios
  import US = UserSafety
  import DS = DatabaseSafety
  import UP = UserPasses
  import DP = DatabaseReconciler

  // ---------------------------------------------------------------- existence lookups

  /** A deletion pass drops a schema that is not its object's exactly when it fails to find it. */
  lemma MissedSchemaDropped(w: World, k: Key, env: Env)
    requires k in w.databases && DS.DatabaseInv(w.server, k, w.databases[k])
    requires var d := w.databases[k];
             && d.deleting && d.finalizer && DP.Connected(d, env) && Quotable(d.spec.name)
             && d.spec.name in w.server.schemas && !OwnsSchema(w.server, d.spec.name, DP.Actor(k, d))
    requires Literate(env.reader) && env.ok(SendDrop)
    ensures w.databases[k].spec.name !in DP.DatabasePass(w, k, env).server.schemas <==> !env.ok(LookupSchema(1))
  {
    DropPass(w, k, env);
  }

  /** The specified name, if it is another one, does not keep the object from its drop. */
  predicate OtherNameOk(s: Server, k: Key, u: DatabaseUser, env: Env) {
    |Names(u)| == 2 && AccountSeen(s, u.spec.username, env, 0, 0) ==>
      env.ok(LookupAccountRow(0, 0)) && RowIs(s.managedUsers, u.uid, k, u.spec.username)
  }

  /** The same for the claimed account. */
  lemma MissedAccountDropped(w: World, k: Key, env: Env)
    requires k in w.users && US.UserInv(w.server, k, w.users[k])
    requires var u := w.users[k];
             && u.deleting && u.finalizer && env.connect && u.status.username != []
             && u.status.username in w.server.accounts && !OwnsAccount(w.server, u.status.username, UP.Actor(k, u))
    requires env.ok(SendDrop)
    ensures var u := w.users[k];
            u.status.username !in UP.UserPass(w, k, env).server.accounts <==>
              !env.ok(LookupAccount(0, |Names(u)| - 1)) && OtherNameOk(w.server, k, u, env)
  {
    var u := w.users[k];
    DropUserPass(w, k, env);
    assert Names(u)[|Names(u)| - 1] == u.status.username;
    assert !RowIs(w.server.managedUsers, u.uid, k, u.status.username);
  }

  /** Somebody's schema: an object asks for the name, is deleted, and the deletion pass does not find it. */
  function MissedSchemaSteps(k: Key, uid: Uid, spec: DatabaseSpec, c: Connection, env: Env): seq<Step> {
    [CreateDatabaseObject(k, uid, spec, c)] + [ReconcileDatabase(k, env)] + [DeleteDatabaseObject(k)]
    + [ReconcileDatabase(k, Without(env, {LookupSchema(1)}))]
  }

  lemma MissedSchemaRun(w: World, k: Key, uid: Uid, spec: DatabaseSpec, c: Connection, env: Env)
    requires Initial(w) && AllSucceed(env) && k !in w.databases && uid !in w.uids
    requires Admits(ValidateCreate(spec, c)) && spec.connection != [] && Quotable(spec.name) && spec.name in w.server.schemas
    ensures w.server.schemas[spec.name].creator == Foreign
    ensures spec.name !in Run(w, MissedSchemaSteps(k, uid, spec, c, env)).server.schemas
  {
    var env' := Without(env, {LookupSchema(1)});
    var d := Database(uid, spec, NEW_DATABASE_STATUS, true, false);
    var w1 := ObjectStep(w, CreateDatabaseObject(k, uid, spec, c));
    var w2 := w1.(databases := w.databases[k := d]);
    var w3 := w1.(databases := w.databases[k := d.(deleting := true)]);
    NameOkNonempty(spec.name);
    NewDatabase(w, k, uid, spec, c, d);
    DatabaseFinalizerPass(w1, k, env);
    AnyStep(w, CreateDatabaseObject(k, uid, spec, c));
    AnyStep(w1, ReconcileDatabase(k, env));
    DeleteDatabase(w2, k);
    assert w2.databases[k := d.(deleting := true)] == w3.databases;
    AnyStep(w3, ReconcileDatabase(k, env'));
    MissedSchemaDropped(w3, k, env');
    GoFour(w, [CreateDatabaseObject(k, uid, spec, c)], w1, [ReconcileDatabase(k, env)], w2, [DeleteDatabaseObject(k)], w3,
           [ReconcileDatabase(k, env')], DP.DatabasePass(w3, k, env'));
  }

  lemma DeleteDatabase(w: World, k: Key)
    requires k in w.databases && w.databases[k].finalizer
    ensures Goes(w, [DeleteDatabaseObject(k)], w.(databases := w.databases[k := w.databases[k].(deleting := true)]))
  {
    AnyStep(w, DeleteDatabaseObject(k));
  }

  lemma DeleteUser(w: World, k: Key)
    requires k in w.users && w.users[k].finalizer
    ensures Goes(w, [DeleteUserObject(k)], w.(users := w.users[k := w.users[k].(deleting := true)]))
  {
    AnyStep(w, DeleteUserObject(k));
  }

  /** Somebody's account: an object claims the name it fails to find, is deleted, and fails to find it once more. */
  function MissedAccountSteps(k: Key, uid: Uid, spec: UserSpec, env: Env): seq<Step> {
    var env' := Without(env, {LookupAccount(0, 0)});
    ([CreateUserObject(k, uid, spec)] + ([ReconcileUser(k, env')] + [ReconcileUser(k, env)]))
    + [DeleteUserObject(k)] + [ReconcileUser(k, env')]
  }

  lemma MissedPasses(w: World, k: Key, env: Env)
    requires AllSucceed(env) && k in w.users && !w.users[k].deleting && !w.users[k].finalizer
    requires Bare(w.users[k].spec) && w.users[k].status == NEW_USER_STATUS
    ensures Goes(w, [ReconcileUser(k, Without(env, {LookupAccount(0, 0)}))] + [ReconcileUser(k, env)],
                 w.(users := w.users[k := w.users[k].(status := ClaimedStatus(w.users[k].spec.username), finalizer := true)]))
  {
    var env' := Without(env, {LookupAccount(0, 0)});
    var u := w.users[k];
    assert Names(u) == [u.spec.username] && DecidesUser(w.server, k, u, env', 0);
    ClaimPass(w, k, env');
    AnyStep(w, ReconcileUser(k, env'));
    var w1 := UP.UserPass(w, k, env');
    FinalizerPass(w1, k, env);
    AnyStep(w1, ReconcileUser(k, env));
    GoOn(w, [ReconcileUser(k, env')], w1, [ReconcileUser(k, env)], UP.UserPass(w1, k, env));
  }

  lemma MissedClaim(w: World, k: Key, uid: Uid, spec: UserSpec, env: Env)
    requires AllSucceed(env) && k !in w.users && uid !in w.uids && Bare(spec)
    ensures Goes(w, [CreateUserObject(k, uid, spec)] + ([ReconcileUser(k, Without(env, {LookupAccount(0, 0)}))] + [ReconcileUser(k, env)]),
                 NewUser(w, k, uid, spec, spec.username))
  {
    var w1 := ObjectStep(w, CreateUserObject(k, uid, spec));
    AnyStep(w, CreateUserObject(k, uid, spec));
    MissedPasses(w1, k, env);
    GoOn(w, [CreateUserObject(k, uid, spec)], w1, [ReconcileUser(k, Without(env, {LookupAccount(0, 0)}))] + [ReconcileUser(k, env)],
         NewUser(w, k, uid, spec, spec.username));
  }

  lemma MissedAccountRun(w: World, k: Key, uid: Uid, spec: UserSpec, env: Env)
    requires Initial(w) && AllSucceed(env) && k !in w.users && uid !in w.uids && Bare(spec) && spec.username in w.server.accounts
    ensures w.server.accounts[spec.username].creator == Foreign
    ensures spec.username !in Run(w, MissedAccountSteps(k, uid, spec, env)).server.accounts
  {
    var env' := Without(env, {LookupAccount(0, 0)});
    var w1 := NewUser(w, k, uid, spec, spec.username);
    var w2 := w1.(users := w1.users[k := w1.users[k].(deleting := true)]);
    MissedClaim(w, k, uid, spec, env);
    DeleteUser(w1, k);
    AnyStep(w2, ReconcileUser(k, env'));
    assert Names(w2.users[k]) == [spec.username];
    MissedAccountDropped(w2, k, env');
    GoThree(w, [CreateUserObject(k, uid, spec)] + ([ReconcileUser(k, env')] + [ReconcileUser(k, env)]), w1, [DeleteUserObject(k)], w2,
            [ReconcileUser(k, env')], UP.UserPass(w2, k, env'));
  }

  // ---------------------------------------------------------------- the row that should go with a drop

  /**
   * A deletion pass drops the schema but cannot remove the finalizer; somebody makes a schema of that
   * name; the deletion pass is tried again. It drops that schema too exactly when the row stayed behind.
   */
  lemma LostRowDrops(w: World, k: Key, env: Env, env': Env, cs: Bytes, co: Bytes)
    requires k in w.databases && DS.DatabaseInv(w.server, k, w.databases[k]) && w.databases[k].uid in w.server.managedDatabases
    requires var d := w.databases[k];
             d.deleting && d.finalizer && DP.Connected(d, env) && DP.Connected(d, env') && Quotable(d.spec.name)
    requires Literate(env.reader) && LookupsOk(env) && env.ok(LookupSchemaRow(1)) && env.ok(SendDrop) && !env.ok(UpdateFinalizer)
    requires Literate(env'.reader) && LookupsOk(env') && env'.ok(LookupSchemaRow(1)) && env'.ok(SendDrop)
    ensures var n := w.databases[k].spec.name;
            var w2 := OutsideStep(DP.DatabasePass(w, k, env), OutsideCreateSchema(n, cs, co));
            && n in w2.server.schemas && w2.server.schemas[n].creator == Foreign
            && (n !in DP.DatabasePass(w2, k, env').server.schemas <==> !env.ok(DeleteRow))
  {
    var d := w.databases[k];
    DropPass(w, k, env);
    var w2 := OutsideStep(DP.DatabasePass(w, k, env), OutsideCreateSchema(d.spec.name, cs, co));
    assert w2.databases == w.databases;
    DropPass(w2, k, env');
  }

  lemma LostUserRowDrops(w: World, k: Key, env: Env, env': Env, a: Account)
    requires k in w.users && RowIs(w.server.managedUsers, w.users[k].uid, k, w.users[k].status.username)
    requires var u := w.users[k];
             && u.deleting && u.finalizer && env.connect && env'.connect && u.status.username != []
             && u.spec.username == u.status.username
    requires LookupsOk(env) && env.ok(LookupAccountRow(0, 0)) && env.ok(SendDrop) && !env.ok(UpdateFinalizer)
    requires LookupsOk(env') && env'.ok(LookupAccountRow(0, 0)) && env'.ok(SendDrop)
    ensures var n := w.users[k].status.username;
            var w2 := OutsideStep(UP.UserPass(w, k, env), OutsideCreateAccount(n, a));
            && n in w2.server.accounts && w2.server.accounts[n].creator == Foreign
            && (n !in UP.UserPass(w2, k, env').server.accounts <==> !env.ok(DeleteRow))
  {
    var u := w.users[k];
    assert Names(u) == [u.status.username];
    DropUserPass(w, k, env);
    var w2 := OutsideStep(UP.UserPass(w, k, env), OutsideCreateAccount(u.status.username, a));
    assert w2.users == w.users;
    DropUserPass(w2, k, env');
  }

  /** The object's own schema is made, the object deleted, row and finalizer stay, the name is taken, the pass is tried again. */
  function LostRowSteps(k: Key, uid: Uid, spec: DatabaseSpec, c: Connection, env: Env, cs: Bytes, co: Bytes): seq<Step> {
    (MakeDatabaseSteps(k, uid, spec, c, env) + [DeleteDatabaseObject(k)])
    + RetrySteps(k, spec.name, env, cs, co)
  }

  function RetrySteps(k: Key, n: Bytes, env: Env, cs: Bytes, co: Bytes): seq<Step> {
    [ReconcileDatabase(k, Without(env, {DeleteRow, UpdateFinalizer}))] + [OutsideCreateSchema(n, cs, co)] + [ReconcileDatabase(k, env)]
  }

  lemma Retry(w: World, k: Key, env: Env, cs: Bytes, co: Bytes)
    requires AllSucceed(env) && k in w.databases && DS.DatabaseInv(w.server, k, w.databases[k]) && w.databases[k].uid in w.server.managedDatabases
    requires var d := w.databases[k]; d.deleting && d.finalizer && d.spec.connection != [] && Quotable(d.spec.name)
    ensures w.databases[k].spec.name !in Run(w, RetrySteps(k, w.databases[k].spec.name, env, cs, co)).server.schemas
  {
    var env' := Without(env, {DeleteRow, UpdateFinalizer});
    var n := w.databases[k].spec.name;
    LostRowDrops(w, k, env', env, cs, co);
    var w1 := DP.DatabasePass(w, k, env');
    var w2 := OutsideStep(w1, OutsideCreateSchema(n, cs, co));
    AnyStep(w, ReconcileDatabase(k, env'));
    AnyStep(w1, OutsideCreateSchema(n, cs, co));
    AnyStep(w2, ReconcileDatabase(k, env));
    GoThree(w, [ReconcileDatabase(k, env')], w1, [OutsideCreateSchema(n, cs, co)], w2, [ReconcileDatabase(k, env)], DP.DatabasePass(w2, k, env));
  }

  lemma LostRowRun(w: World, k: Key, uid: Uid, spec: DatabaseSpec, c: Connection, env: Env, cs: Bytes, co: Bytes)
    requires Initial(w) && AllSucceed(env) && k !in w.databases && uid !in w.uids
    requires Admits(ValidateCreate(spec, c)) && spec.connection != [] && spec.name !in w.server.schemas
    requires Quotable(spec.name) && PlainOption(spec.characterSet) && PlainOption(spec.collate)
    requires Resolve(w.server.catalog, spec.characterSet, spec.collate).Some?
    ensures spec.name !in Run(w, LostRowSteps(k, uid, spec, c, env, cs, co)).server.schemas
  {
    var (cs0, co0) := Resolve(w.server.catalog, spec.characterSet, spec.collate).value;
    var w1 := MadeDatabase(w, k, uid, spec, cs0, co0);
    var w2 := w1.(databases := w1.databases[k := w1.databases[k].(deleting := true)]);
    NameOkNonempty(spec.name);
    MakeDatabaseRun(w, k, uid, spec, c, env);
    DeleteDatabase(w1, k);
    GoOn(w, MakeDatabaseSteps(k, uid, spec, c, env), w1, [DeleteDatabaseObject(k)], w2);
    Retry(w2, k, env, cs, co);
    RunParts(w, MakeDatabaseSteps(k, uid, spec, c, env) + [DeleteDatabaseObject(k)], RetrySteps(k, spec.name, env, cs, co));
  }

  // ---------------------------------------------------------------- other people

  /** Somebody drops an owned schema and makes one of that name: the ledger still says it is ours. */
  lemma RecreatedOutside(w: World, k: Key, characterSet: Bytes, collation: Bytes)
    requires Inv(w) && k in w.databases && w.databases[k].uid in w.server.managedDatabases && Quotable(w.databases[k].spec.name)
    ensures var n := w.databases[k].spec.name;
            var w2 := OutsideStep(OutsideStep(w, OutsideDropSchema(n)), OutsideCreateSchema(n, characterSet, collation));
            && DatabaseMine(w2.server, k, w2.databases[k])
            && n in w2.server.schemas && w2.server.schemas[n].creator == Foreign
            && !Benign(w, OutsideDropSchema(n))
  {
    assert DS.DatabaseInv(w.server, k, w.databases[k]);
  }

  /** The same for an account. */
  lemma RecreatedAccountOutside(w: World, k: Key, a: Account)
    requires k in w.users && RowIs(w.server.managedUsers, w.users[k].uid, k, w.users[k].status.username)
    requires var u := w.users[k];
             u.spec.username == u.status.username && u.status.username != [] && OwnsAccount(w.server, u.status.username, UP.Actor(k, u))
    ensures var n := w.users[k].status.username;
            var w2 := OutsideStep(OutsideStep(w, OutsideDropAccount(n)), OutsideCreateAccount(n, a));
            && UserMine(w2.server, k, w2.users[k])
            && n in w2.server.accounts && w2.server.accounts[n].creator == Foreign
            && !Benign(w, OutsideDropAccount(n))
  {
    assert Names(w.users[k]) == [w.users[k].spec.username];
  }

  // ---------------------------------------------------------------- the row that should follow a rename

  /** The pass renames: the object is its own, and the statement goes through. */
  ghost predicate RenamesNow(w: World, k: Key, env: Env) {
    && ReachesServer(w, k, env) && LookupsOk(env) && (forall round, i :: env.ok(LookupAccountRow(round, i))) && env.ok(SendRename)
    && RenameDue(w, k) && UserMine(w.server, k, w.users[k]) && w.users[k].spec.username != []
  }

  lemma RenameNow(w: World, k: Key, env: Env)
    requires RenamesNow(w, k, env)
    ensures var u, s := w.users[k], w.server;
            var row := if env.ok(SaveRenamedRow) then s.managedUsers[u.uid := Row(k, u.spec.username)] else s.managedUsers;
            var w1 := UP.UserPass(w, k, env);
            && w1.server.managedUsers == row && (!env.ok(UpdateStatus) ==> w1 == w.(server := w1.server))
            && w1.server.accounts == (s.accounts - {u.status.username})[u.spec.username := s.accounts[u.status.username]]
  {
    var u, s := w.users[k], w.server;
    SeenAsMine(s, k, u, env);
    PassUpdates(w, k, env);
    BothNamed(u);
    MineNamesOneAccount(s, k, u);
  }

  /**
   * A rename whose status write fails; somebody takes the name it left; the specification moves on to a
   * free name. The decision about the other one's account is positive exactly when the ledger write
   * failed, too: then the row still holds the name that was left.
   */
  lemma RenameRowLost(w: World, k: Key, env: Env, a: Account, spec: UserSpec)
    requires RenamesNow(w, k, env) && !env.ok(UpdateStatus)
    requires spec.username != [] && spec.username !in UP.UserPass(w, k, env).server.accounts && spec.username != w.users[k].status.username
    ensures var n := w.users[k].status.username;
            var w2 := OutsideStep(UP.UserPass(w, k, env), OutsideCreateAccount(n, a));
            var w3 := ObjectStep(w2, EditUserObject(k, spec));
            && n in w3.server.accounts && w3.server.accounts[n] == a.(creator := Foreign)
            && w3 == w2.(users := w2.users[k := w.users[k].(spec := spec)]) && w2.users == w.users && w2.secrets == w.secrets
            && spec.username !in w3.server.accounts
            && (UserMine(w3.server, k, w3.users[k]) <==> !env.ok(SaveRenamedRow))
  {
    var u, s := w.users[k], w.server;
    RenameNow(w, k, env);
    BothNamed(u);
    MineNamesOneAccount(s, k, u);
    BothNamed(u.(spec := spec));
  }

  /** The object made under one name, edited to a second, renamed unnoticed, and, with the first name taken, edited to a third. */
  function LostRenameSteps(k: Key, uid: Uid, spec: UserSpec, n2: Bytes, a: Account, n3: Bytes, env: Env): seq<Step> {
    (MakeSteps(k, uid, spec, env) + [EditUserObject(k, spec.(username := n2))])
    + ([ReconcileUser(k, Without(env, {SaveRenamedRow, UpdateStatus}))] + [OutsideCreateAccount(spec.username, a)]
       + [EditUserObject(k, spec.(username := n3))] + [ReconcileUser(k, env)])
  }

  /** Somebody else's account ends up under the third name. */
  lemma LostRenameRun(w: World, k: Key, uid: Uid, spec: UserSpec, n2: Bytes, a: Account, n3: Bytes, env: Env)
    requires Initial(w) && AllSucceed(env) && k !in w.users && uid !in w.uids && Bare(spec)
    requires n2 != [] && n3 != [] && spec.username !in w.server.accounts && n2 !in w.server.accounts && n3 !in w.server.accounts
    requires spec.username != n2 && spec.username != n3 && n2 != n3
    ensures var w' := Run(w, LostRenameSteps(k, uid, spec, n2, a, n3, env));
            && spec.username !in w'.server.accounts
            && n3 in w'.server.accounts && w'.server.accounts[n3] == a.(creator := Foreign)
  {
    var w1 := Made(w, k, uid, spec);
    var w2 := w1.(users := w1.users[k := w1.users[k].(spec := spec.(username := n2))]);
    MakeRun(w, k, uid, spec, env);
    EditLeads(w1, k, spec.(username := n2));
    GoOn(w, MakeSteps(k, uid, spec, env), w1, [EditUserObject(k, spec.(username := n2))], w2);
    BothNamed(w2.users[k]);
    LostRenameEnd(w2, k, spec, a, n3, env);
    RunParts(w, MakeSteps(k, uid, spec, env) + [EditUserObject(k, spec.(username := n2))],
             [ReconcileUser(k, Without(env, {SaveRenamedRow, UpdateStatus}))] + [OutsideCreateAccount(spec.username, a)]
             + [EditUserObject(k, spec.(username := n3))] + [ReconcileUser(k, env)]);
  }

  /** The object claims a name its row holds, and its specification has another, free one. */
  ghost predicate BareRenameDue(w: World, k: Key, spec: UserSpec) {
    && k in w.users && w.users[k].status == ClaimedStatus(spec.username)
    && var u := w.users[k];
       && !u.deleting && u.finalizer && Bare(u.spec) && Bare(spec) && u.spec == spec.(username := u.spec.username)
       && u.spec.username != spec.username
       && spec.username in w.server.accounts && u.spec.username !in w.server.accounts
       && RowIs(w.server.managedUsers, u.uid, k, spec.username)
  }

  lemma BareRenames(w: World, k: Key, spec: UserSpec, env: Env)
    requires BareRenameDue(w, k, spec) && env.connect && LookupsOk(env) && env.ok(GetSecret) && env.ok(SendRename)
    requires forall round, i :: env.ok(LookupAccountRow(round, i))
    ensures RenamesNow(w, k, env)
  {
  }

  lemma LostRenameMiddle(w: World, k: Key, spec: UserSpec, a: Account, n3: Bytes, env: Env)
    requires AllSucceed(env) && BareRenameDue(w, k, spec)
    requires n3 !in w.server.accounts && n3 != [] && n3 != w.users[k].spec.username && n3 != spec.username
    ensures var w1 := UP.UserPass(w, k, Without(env, {SaveRenamedRow, UpdateStatus}));
            var w3 := ObjectStep(OutsideStep(w1, OutsideCreateAccount(spec.username, a)), EditUserObject(k, spec.(username := n3)));
            && BareRenameDue(w3, k, spec) && w3.server.accounts[spec.username] == a.(creator := Foreign)
            && w3.users[k].spec.username == n3
  {
    var env' := Without(env, {SaveRenamedRow, UpdateStatus});
    BareRenames(w, k, spec, env');
    RenameNow(w, k, env');
    RenameRowLost(w, k, env', a, spec.(username := n3));
  }

  lemma LostRenameEnd(w: World, k: Key, spec: UserSpec, a: Account, n3: Bytes, env: Env)
    requires AllSucceed(env) && BareRenameDue(w, k, spec)
    requires n3 !in w.server.accounts && n3 != [] && n3 != w.users[k].spec.username && n3 != spec.username
    ensures var w' := Run(w, [ReconcileUser(k, Without(env, {SaveRenamedRow, UpdateStatus}))] + [OutsideCreateAccount(spec.username, a)]
                             + [EditUserObject(k, spec.(username := n3))] + [ReconcileUser(k, env)]);
            && spec.username !in w'.server.accounts
            && n3 in w'.server.accounts && w'.server.accounts[n3] == a.(creator := Foreign)
  {
    var env' := Without(env, {SaveRenamedRow, UpdateStatus});
    var spec' := spec.(username := n3);
    var w1 := UP.UserPass(w, k, env');
    var w2 := OutsideStep(w1, OutsideCreateAccount(spec.username, a));
    var w3 := ObjectStep(w2, EditUserObject(k, spec'));
    LostRenameMiddle(w, k, spec, a, n3, env);
    BareRenames(w3, k, spec, env);
    RenameNow(w3, k, env);
    AnyStep(w, ReconcileUser(k, env'));
    AnyStep(w1, OutsideCreateAccount(spec.username, a));
    AnyStep(w2, EditUserObject(k, spec'));
    AnyStep(w3, ReconcileUser(k, env));
    GoFour(w, [ReconcileUser(k, env')], w1, [OutsideCreateAccount(spec.username, a)], w2, [EditUserObject(k, spec')], w3,
           [ReconcileUser(k, env)], UP.UserPass(w3, k, env));
  }
}
