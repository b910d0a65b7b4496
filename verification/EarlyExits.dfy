/**
 * Where a pass stops and what it leaves alone, for every state of the stores and, unless said otherwise, for
 * every pattern of failing calls.
 */
module EarlyExits {
  import opened Basics
  import opened SqlStatements
  import opened Model
  import opened Ownership
  import opened Runs
  import US = UserSafety
  import DP = DatabaseReconciler
  import UP = UserPasses

  /** Without a connection, and for a Database object that names none, a pass does nothing at all. */
  lemma Disconnected(w: World, k: Key, env: Env)
    ensures !env.connect ==> UP.UserPass(w, k, env) == w && DP.DatabasePass(w, k, env) == w
    ensures k in w.databases && w.databases[k].spec.connection == [] ==> DP.DatabasePass(w, k, env) == w
  {
  }

  // ---------------------------------------------------------------- what is not ours

  /** The ledger does not have this name for the object, under its identity, name and namespace. */
  predicate NotRecorded(rows: map<Uid, Row>, uid: Uid, k: Key, n: Bytes) {
    !(uid in rows && rows[uid].target == n && rows[uid].owner.name == k.name && rows[uid].owner.namespace == k.namespace)
  }

  /** One of the names of the object is taken by an account the ledger does not have for it. */
  predicate TakenByOthers(w: World, k: Key)
    requires k in w.users
  {
    var u, s := w.users[k], w.server;
    || (u.spec.username != [] && u.spec.username in s.accounts && NotRecorded(s.managedUsers, u.uid, k, u.spec.username))
    || (u.status.username != [] && u.status.username in s.accounts && NotRecorded(s.managedUsers, u.uid, k, u.status.username))
  }

  lemma TakenIsNotMine(w: World, k: Key, env: Env, round: nat)
    requires k in w.users && LookupsOk(env)
    ensures TakenByOthers(w, k) ==> !DecidesUser(w.server, k, w.users[k], env, round)
  {
    BothNamed(w.users[k]);
    DecidesTruly(w.server, k, w.users[k], env, round);
  }

  /** With working lookups, a pass over an object whose claimed account exists sends nothing while one of its names is taken by others. */
  lemma AccountLeftAlone(w: World, k: Key, env: Env)
    requires k in w.users && !w.users[k].deleting && LookupsOk(env)
    requires w.users[k].status.username != [] && w.users[k].status.username in w.server.accounts && TakenByOthers(w, k)
    ensures UP.UserPass(w, k, env).server == w.server
  {
    var u := w.users[k];
    var u1 := UP.Observed(w.server, u, env);
    assert Names(u1) == Names(u);
    TakenIsNotMine(w, k, env, 2);
    assert !DecidesUser(w.server, k, u1, env, 2);
    LiveCases(w, k, env);
  }

  /** Neither does a deletion; the object goes all the same. */
  lemma DeletionLeavesAlone(w: World, k: Key, env: Env)
    requires k in w.users && w.users[k].deleting && w.users[k].finalizer && env.connect && LookupsOk(env) && TakenByOthers(w, k)
    ensures var w' := UP.UserPass(w, k, env);
            w'.server == w.server && (env.ok(UpdateFinalizer) ==> w'.users == w.users - {k})
  {
    TakenIsNotMine(w, k, env, 0);
  }

  lemma SchemaDeletionLeavesAlone(w: World, k: Key, env: Env)
    requires k in w.databases && w.databases[k].deleting && w.databases[k].finalizer && LookupsOk(env)
    requires env.connect && w.databases[k].spec.connection != []
    requires var d, s := w.databases[k], w.server;
             d.spec.name != [] && d.spec.name in s.schemas && NotRecorded(s.managedDatabases, d.uid, k, d.spec.name)
    ensures var w' := DP.DatabasePass(w, k, env);
            w'.server == w.server && (env.ok(UpdateFinalizer) ==> w'.databases == w.databases - {k})
  {
  }

  /** The deletion of an object whose schema is gone already clears its ledger row. */
  lemma SchemaDeletionClears(w: World, k: Key, env: Env)
    requires k in w.databases && w.databases[k].deleting && w.databases[k].finalizer
    requires env.connect && w.databases[k].spec.connection != [] && env.ok(DeleteRow)
    requires w.databases[k].spec.name !in w.server.schemas
    ensures w.databases[k].uid !in DP.DatabasePass(w, k, env).server.managedDatabases
  {
  }

  /** So does that of an object neither of whose accounts is there. */
  lemma DeletionClears(w: World, k: Key, env: Env)
    requires k in w.users && w.users[k].deleting && w.users[k].finalizer && env.connect && env.ok(DeleteRow)
    requires w.users[k].spec.username !in w.server.accounts && w.users[k].status.username !in w.server.accounts
    ensures w.users[k].uid !in UP.UserPass(w, k, env).server.managedUsers
  {
    assert forall n :: n in Names(w.users[k]) ==> n !in w.server.accounts;
  }

  /** The object claims no name yet, and the one it asks for is an account the ledger does not have for it. */
  ghost predicate Refused(w: World, k: Key) {
    && k in w.users && !w.users[k].deleting && w.users[k].status.username == []
    && w.users[k].spec.username != [] && w.users[k].spec.username in w.server.accounts
    && NotRecorded(w.server.managedUsers, w.users[k].uid, k, w.users[k].spec.username)
  }

  lemma RefusedPass(w: World, k: Key, env: Env)
    requires Refused(w, k) && LookupsOk(env)
    ensures var w' := UP.UserPass(w, k, env);
            w'.server == w.server && Refused(w', k) && w'.users[k].status == w.users[k].status && w'.users[k].uid == w.users[k].uid
  {
    TakenIsNotMine(w, k, env, 0);
    LiveCases(w, k, env);
    NotClaimed(w, k, env);
  }

  lemma NotClaimed(w: World, k: Key, env: Env)
    requires k in w.users && !w.users[k].deleting && w.users[k].status.username == [] && !DecidesUser(w.server, k, w.users[k], env, 0)
    ensures var w' := UP.UserPass(w, k, env);
            k in w'.users && w'.users[k] == w.users[k].(finalizer := w'.users[k].finalizer)
  {
    if env.connect && UP.WithSecret(w, k, w.users[k], env).Some? {
      WithSecretOnly(w, k, w.users[k], env);
      NotClaimedLive(w, UP.WithSecret(w, k, w.users[k], env).value, k, env);
    }
  }

  lemma NotClaimedLive(w: World, w1: World, k: Key, env: Env)
    requires k in w.users && UP.WithSecret(w, k, w.users[k], env) == Some(w1) && w1.users == w.users
    requires w.users[k].status.username == [] && !DecidesUser(w.server, k, w.users[k], env, 0)
    ensures var w' := UP.LivePass(w, k, env);
            k in w'.users && w'.users[k] == w.users[k].(finalizer := w'.users[k].finalizer)
  {
    WithSecretOnly(w1, k, w.users[k], env);
  }

  /** A name somebody else has is never claimed, however many passes follow, and nothing is sent. */
  lemma {:induction false} NeverClaimed(w: World, k: Key, steps: seq<Step>)
    requires Refused(w, k)
    requires forall i :: 0 <= i < |steps| ==> steps[i].ReconcileUser? && steps[i].key == k && LookupsOk(steps[i].env)
    ensures Run(w, steps).server == w.server && k in Run(w, steps).users && Run(w, steps).users[k].status == w.users[k].status
    decreases |steps|
  {
    if steps != [] {
      RefusedPass(w, k, steps[0].env);
      NeverClaimed(Next(w, steps[0]), k, steps[1..]);
    }
  }

  // ---------------------------------------------------------------- credentials that cannot be read

  /** The identification leads to no auth string: it names none, or the secret that is there lacks the key, or reading fails. */
  predicate Unreadable(w: World, k: Key, env: Env)
    requires k in w.users
  {
    var u := w.users[k];
    && u.spec.identification.Some?
    && var r := u.spec.identification.value.authString;
       r.Some? ==>
         || !env.ok(ReadAuthString)
         || (Key(k.namespace, r.value.name) in w.secrets && r.value.key !in w.secrets[Key(k.namespace, r.value.name)].data)
  }

  /** Then a pass with nothing to rename sends nothing. */
  lemma UnreadableBlocks(w: World, k: Key, env: Env)
    requires k in w.users && !w.users[k].deleting && Unreadable(w, k, env)
    requires w.users[k].spec.username == w.users[k].status.username || w.users[k].status.username !in w.server.accounts
    ensures UP.UserPass(w, k, env).server == w.server
  {
    LiveCases(w, k, env);
    if UP.ServerDue(w, k, env) {
      var u1 := UP.Observed(w.server, w.users[k], env);
      var secret := UP.SecretOf(UP.WithSecret(w, k, w.users[k], env).value, k, w.users[k]);
      assert UP.DetailsFor(u1, secret, true, env).None? && UP.DetailsFor(u1, secret, false, env).None?;
    }
  }

  // ---------------------------------------------------------------- the grant loop

  /** The Database object the entry names, in the object's namespace, can be read. */
  predicate EntryRead(databases: map<Key, Database>, k: Key, p: Permission, i: nat, env: Env) {
    env.ok(FetchDatabase(i)) && Key(k.namespace, p.database) in databases
  }

  ghost predicate AllRead(databases: map<Key, Database>, k: Key, u: DatabaseUser, env: Env) {
    forall i :: 0 <= i < |u.spec.databaseList| ==> EntryRead(databases, k, u.spec.databaseList[i], i, env)
  }

  function Cut(u: DatabaseUser, j: nat): DatabaseUser
    requires j <= |u.spec.databaseList|
  {
    u.(spec := u.spec.(databaseList := u.spec.databaseList[..j]))
  }

  /** At the first entry whose Database object cannot be read the loop ends in an error, with the entries before it granted and no other. */
  lemma {:induction false} LoopStopsAt(s: Server, u: DatabaseUser, k: Key, databases: map<Key, Database>, i: nat, j: nat, env: Env)
    requires i <= j < |u.spec.databaseList| && !EntryRead(databases, k, u.spec.databaseList[j], j, env)
    requires forall x :: 0 <= x < j ==> EntryRead(databases, k, u.spec.databaseList[x], x, env)
    ensures UP.GrantFrom(s, u, k, databases, i, env) == (UP.GrantFrom(s, Cut(u, j), k, databases, i, env).0, false)
    ensures UP.GrantFrom(s, Cut(u, j), k, databases, i, env).1
    decreases j - i
  {
    if i < j {
      LoopStopsAt(UP.GrantOne(s, u, k, databases, i, env), u, k, databases, i + 1, j, env);
    }
  }

  lemma {:induction false} ReadWhenDone(s: Server, u: DatabaseUser, k: Key, databases: map<Key, Database>, i: nat, env: Env)
    requires i <= |u.spec.databaseList| && UP.GrantFrom(s, u, k, databases, i, env).1
    ensures forall x :: i <= x < |u.spec.databaseList| ==> EntryRead(databases, k, u.spec.databaseList[x], x, env)
    decreases |u.spec.databaseList| - i
  {
    if i < |u.spec.databaseList| {
      ReadWhenDone(UP.GrantOne(s, u, k, databases, i, env), u, k, databases, i + 1, env);
    }
  }

  /** A step that ends well has the list as it was, or has granted all of the specified one. */
  ghost predicate Lists(u: DatabaseUser, o: UP.Outcome, k: Key, databases: map<Key, Database>, env: Env) {
    o.ok ==>
      || o.user.status.databaseList == u.status.databaseList
      || (o.user.status.databaseList == u.spec.databaseList && AllRead(databases, k, u, env))
  }

  lemma GrantAllLists(s: Server, u: DatabaseUser, k: Key, databases: map<Key, Database>, env: Env)
    ensures var o := UP.GrantAll(s, u, k, databases, env);
            o.ok ==> o.user.status.databaseList == u.spec.databaseList && AllRead(databases, k, u, env)
  {
    if UP.GrantFrom(s, u, k, databases, 0, env).1 {
      ReadWhenDone(s, u, k, databases, 0, env);
    }
  }

  lemma ClearedUser(s: Server, u: DatabaseUser, k: Key, env: Env)
    ensures US.Cleared(s, u, k, env).user.spec == u.spec
    ensures UP.GrantStatusUpdate(s, u, false, 0, env).0.status.databaseList == u.status.databaseList
  {
  }

  lemma PermissionsList(s: Server, u: DatabaseUser, k: Key, databases: map<Key, Database>, env: Env)
    ensures Lists(u, UP.UpdatePermissions(s, u, k, databases, env), k, databases, env)
  {
    var r := US.Cleared(s, u, k, env);
    US.UpdatePermissionsCases(s, u, k, databases, env);
    ClearedUser(s, u, k, env);
    GrantAllLists(r.server, r.user, k, databases, env);
  }

  lemma UpdateLists(s: Server, u: DatabaseUser, k: Key, databases: map<Key, Database>, secret: Option<Secret>, env: Env)
    ensures Lists(u, UP.UserUpdate(s, u, k, databases, secret, env), k, databases, env)
  {
    if u.spec.username == u.status.username {
      US.UpdateCases(s, u, k, databases, secret, env);
      match UP.DetailsFor(u, secret, false, env)
      case None =>
      case Some((d, u1)) =>
        assert u1.spec == u.spec && u1.status.databaseList == u.status.databaseList;
        PermissionsList(s, u1, k, databases, env);
    }
  }

  lemma CreateLists(s: Server, u: DatabaseUser, k: Key, databases: map<Key, Database>, secret: Option<Secret>, env: Env)
    ensures Lists(u, UP.UserCreate(s, u, k, databases, secret, env), k, databases, env)
  {
    match UP.DetailsFor(u, secret, true, env)
    case None =>
    case Some((d, u1)) =>
      var (s1, sent) := UP.Send(s, k, u, CreateUser(u.status.username, d), env.ok(SendCreate));
      GrantAllLists(s1, UP.Tracking(u1, []), k, databases, env);
  }

  lemma ConvergeLists(s: Server, u: DatabaseUser, k: Key, databases: map<Key, Database>, secret: Option<Secret>, env: Env)
    ensures Lists(u, UP.Converge(s, u, k, databases, secret, env), k, databases, env)
  {
    var u1 := UP.Observed(s, u, env);
    assert u1.spec == u.spec && u1.status.databaseList == u.status.databaseList;
    CreateLists(s, u1, k, databases, secret, env);
    UpdateLists(s, u1, k, databases, secret, env);
  }

  /** A pass records another list than before only if it is the specified one and each of its Database objects could be read. */
  lemma ListRecorded(w: World, k: Key, env: Env)
    requires k in w.users && !w.users[k].deleting
    ensures var u, w' := w.users[k], UP.UserPass(w, k, env);
            && w'.databases == w.databases && k in w'.users && w'.users[k].spec == u.spec && !w'.users[k].deleting
            && (w'.users[k].status.databaseList == u.status.databaseList
                || (w'.users[k].status.databaseList == u.spec.databaseList && AllRead(w.databases, k, u, env)))
  {
    var u := w.users[k];
    LiveCases(w, k, env);
    if UP.ServerDue(w, k, env) {
      var secret := UP.SecretOf(UP.WithSecret(w, k, u, env).value, k, u);
      ConvergeLists(w.server, u, k, w.databases, secret, env);
      US.ConvergeOnlyStatus(w.server, u, k, w.databases, secret, env);
    }
  }

  /** The object lists a Database object that is not there, and has not recorded this list. */
  ghost predicate ListsMissing(w: World, k: Key) {
    && k in w.users && !w.users[k].deleting && w.users[k].status.databaseList != w.users[k].spec.databaseList
    && exists i :: 0 <= i < |w.users[k].spec.databaseList| && Key(k.namespace, w.users[k].spec.databaseList[i].database) !in w.databases
  }

  /**
   * As long as a listed Database object is missing, the list stays unrecorded and so the permissions
   * pending, after any number of passes and with whatever calls failing.
   */
  lemma {:induction false} MissingStaysPending(w: World, k: Key, steps: seq<Step>)
    requires ListsMissing(w, k)
    requires forall i :: 0 <= i < |steps| ==> steps[i].ReconcileUser? && steps[i].key == k
    ensures ListsMissing(Run(w, steps), k)
    decreases |steps|
  {
    if steps != [] {
      var i :| 0 <= i < |w.users[k].spec.databaseList| && Key(k.namespace, w.users[k].spec.databaseList[i].database) !in w.databases;
      ListRecorded(w, k, steps[0].env);
      assert !EntryRead(w.databases, k, w.users[k].spec.databaseList[i], i, steps[0].env);
      MissingStaysPending(Next(w, steps[0]), k, steps[1..]);
    }
  }
}
