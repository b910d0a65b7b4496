/** What a single pass with working calls achieves, beyond bringing its object one step further. */
module OnePass {
  import opened Basics
  import opened SqlStatements
  import opened Model
  import opened Ownership
  import opened GrantConvergence
  import opened UserConvergence
  import US = UserSafety
  import DP = DatabaseReconciler
  import DC = DatabaseConvergence
  import UP = UserPasses

  // ---------------------------------------------------------------- schemas

  /**
   * Once the finalizer is there one pass is enough, from every well-formed state: the schema is made, or
   * altered, or left, and is then as specified, the ledger has it and the status tells what it is.
   */
  lemma DatabaseServedAtOnce(w: World, k: Key, env: Env)
    requires DC.WellFormed(w, k) && AllSucceed(env) && w.databases[k].finalizer
    ensures DC.Matches(DP.DatabasePass(w, k, env), k)
  {
    var d, s := w.databases[k], w.server;
    DC.ConvergeKeepsObject(s, k, d, env);
    if d.spec.name !in s.schemas {
      DC.CreatedAsSpecified(s, k, d, env);
    } else {
      DC.CompatibleAlter(s, k, d, env);
      DC.OwnedRecorded(s, k, d, env);
    }
  }

  // ---------------------------------------------------------------- accounts

  /** What the CREATE records leaves no details to send. */
  lemma NothingToAlter(s: Server, u: DatabaseUser, u1: DatabaseUser, d: Details, secret: Option<Secret>, env: Env)
    requires AllSucceed(env) && Readable(u, secret) && UP.DetailsFor(u, secret, true, env) == Some((d, u1))
    requires AccountExists(s, u.status.username)
    requires exists a0: Account :: s.accounts[u.status.username].auth == Authenticate(a0.auth, d.auth)
    ensures !AuthPending(s, u1, secret, env)
  {
    if u.spec.identification.Some? {
      var id := u.spec.identification.value;
      var auth := secret.value.data[id.authString.value.key];
      assert d.auth == UP.AuthFor(id, auth);
      assert id.plugin != [] ==> s.accounts[u.status.username].auth.plugin == id.plugin;
    }
  }

  /** Two objects that agree in what concerns the authentication. */
  predicate AgreesInAuth(u: DatabaseUser, u1: DatabaseUser) {
    && u1.spec == u.spec && u1.status.username == u.status.username && u1.status.identification == u.status.identification
    && u1.status.identificationVersion == u.status.identificationVersion && u1.status.tls == u.status.tls
  }

  lemma SameDetails(u: DatabaseUser, u1: DatabaseUser, secret: Option<Secret>, env: Env)
    requires AgreesInAuth(u, u1)
    ensures var d, d1 := UP.DetailsFor(u, secret, false, env), UP.DetailsFor(u1, secret, false, env);
            d.Some? == d1.Some? && (d.Some? ==> d1.value.0 == d.value.0)
  {
  }

  lemma SameAuth(s: Server, u: DatabaseUser, s1: Server, u1: DatabaseUser, secret: Option<Secret>, env: Env)
    requires AccountExists(s, u.status.username) && AccountExists(s1, u.status.username)
    requires s1.accounts[u.status.username].auth == s.accounts[u.status.username].auth
    requires AgreesInAuth(u, u1)
    ensures AuthPending(s1, u1, secret, env) == AuthPending(s, u, secret, env)
  {
    SameObserved(s, u, s1, u1, env);
    SameDetails(UP.Observed(s, u, env), UP.Observed(s1, u1, env), secret, env);
  }

  lemma SameObserved(s: Server, u: DatabaseUser, s1: Server, u1: DatabaseUser, env: Env)
    requires AccountExists(s, u.status.username) && AccountExists(s1, u.status.username)
    requires s1.accounts[u.status.username].auth == s.accounts[u.status.username].auth
    requires AgreesInAuth(u, u1)
    ensures AgreesInAuth(UP.Observed(s, u, env), UP.Observed(s1, u1, env))
  {
  }

  lemma CreationLeavesNothing(s: Server, u: DatabaseUser, k: Key, databases: map<Key, Database>, secret: Option<Secret>, env: Env)
    requires AllSucceed(env) && Readable(u, secret) && ServerReady(s, u, secret, databases, k, env)
    requires u.status.username != [] && u.status.username !in s.accounts
    ensures var o := UP.UserCreate(s, u, k, databases, secret, env);
            !AuthPending(o.server, o.user, secret, env) && !GrantsPending(o.server, o.user, env)
  {
    var (d, u1) := UP.DetailsFor(u, secret, true, env).value;
    var s1 := UP.Send(s, k, u, CreateUser(u.status.username, d), true).0;
    var u2 := UP.Tracking(u1, []);
    var o := UP.UserCreate(s, u, k, databases, secret, env);
    US.CreateGoesThrough(s, u, k, databases, secret, env);
    CreateStartReady(s, u, k, databases, secret, env);
    GrantedFresh(s1, u2, k, databases, env);
    GrantsSettleIff(s1, u2, k, databases, env);
    var g := UP.GrantAll(s1, u2, k, databases, env);
    DatabasesStayReady(s1, g.server, databases, k, u2.spec.databaseList);
    SamePending(g.server, o.server, g.user, o.user, env);
    NothingToAlter(s1, u, u1, d, secret, env);
    SameAuth(s1, u1, o.server, o.user, secret, env);
  }

  /**
   * The pass that makes the account makes it complete: nothing is left to alter or to grant. In particular
   * the account is never there without the credential and the privileges it is specified to have.
   */
  lemma AccountMadeComplete(w: World, k: Key, env: Env)
    requires WellFormed(w, k, env) && AllSucceed(env) && Stage(w, k, env) == 4
    ensures var w' := UP.UserPass(w, k, env);
            && WellFormed(w', k, env) && Stage(w', k, env) == 0 && MatchesInPart(w', k, env)
  {
    ServerStagePass(w, k, env);
    var u := w.users[k];
    var secret := UP.SecretOf(w, k, u);
    var o := UP.UserCreate(w.server, u, k, w.databases, secret, env);
    CreateReady(w.server, u, k, w.databases, secret, env);
    CreationLeavesNothing(w.server, u, k, w.databases, secret, env);
    StoredSettled(w, k, o, env);
    SettledMatches(UP.UserPass(w, k, env), k, env);
  }

  lemma StoredSettled(w: World, k: Key, o: UP.Outcome, env: Env)
    requires WellFormed(w, k, env) && Stage(w, k, env) == 4
    requires Recorded(w.users[k], o.user, UP.SecretOf(w, k, w.users[k]))
    requires ServerReady(o.server, o.user, UP.SecretOf(w, k, w.users[k]), w.databases, k, env)
    requires o.user.status.username == o.user.spec.username && o.user.spec.username in o.server.accounts
    requires !AuthPending(o.server, o.user, UP.SecretOf(w, k, w.users[k]), env) && !GrantsPending(o.server, o.user, env)
    ensures var w' := UP.StoreUser(w.(server := o.server), k, o.user);
            WellFormed(w', k, env) && Stage(w', k, env) == 0
  {
    StoredWellFormed(w, k, o, env);
  }
}
