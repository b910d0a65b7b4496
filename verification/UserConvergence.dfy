/**
 * Repeated passes over one DatabaseUser object in a quiet environment: a stage that only falls, and the
 * server in agreement with the specification when it reaches zero.
 */
module UserConvergence {
  import opened Basics
  import opened SqlStatements
  import opened Model
  import opened Ownership
  import opened Safety
  import opened UserPasses
  import opened Grants
  import opened GrantConvergence
  import opened Descent
  import US = UserSafety

  // ---------------------------------------------------------------- what is pending

  predicate SecretPending(w: World, k: Key, u: DatabaseUser) {
    SecretKey(k, u).Some? && (SecretOf(w, k, u).None? || SecretOf(w, k, u).value.controller != Some(u.uid))
  }

  predicate AuthPending(s: Server, u: DatabaseUser, secret: Option<Secret>, env: Env) {
    var d := DetailsFor(Observed(s, u, env), secret, false, env);
    d.Some? && d.value.0 != NO_DETAILS
  }

  /** Which branch the next pass takes; zero when there is nothing left to do. */
  function Stage(w: World, k: Key, env: Env): nat
    requires k in w.users
  {
    var u, s := w.users[k], w.server;
    if u.status.username == [] then 7
    else if SecretPending(w, k, u) then 6
    else if !u.finalizer then 5
    else if u.status.username !in s.accounts then 4
    else if u.spec.username != u.status.username then 3
    else if AuthPending(s, u, SecretOf(w, k, u), env) then 2
    else if GrantsPending(s, u, env) then 1
    else 0
  }

  // ---------------------------------------------------------------- what the specification asks for

  ghost predicate AuthMatches(a: Account, id: Identification, auth: Bytes) {
    && (id.plugin != [] ==> a.auth.plugin == id.plugin)
    && (auth != [] ==> a.auth.credential == Some(CredentialOf(!id.clearText, auth)))
    && (id.plugin != [] && auth == [] ==> a.auth.credential == None)
  }

  /**
   * The account bears the name in the specification, is ours in fact and in the ledger, and is as specified
   * in its authentication and in what it was granted name by name.
   */
  ghost predicate MatchesInPart(w: World, k: Key, env: Env) {
    && k in w.users
    && var u, s := w.users[k], w.server;
       && u.status.username == u.spec.username
       && OwnsAccount(s, u.spec.username, Actor(k, u)) && RowIs(s.managedUsers, u.uid, k, u.spec.username)
       && (u.spec.identification.Some? ==>
             && AuthString(u.spec.identification.value, SecretOf(w, k, u), env).Some?
             && AuthMatches(s.accounts[u.spec.username], u.spec.identification.value,
                            AuthString(u.spec.identification.value, SecretOf(w, k, u), env).value))
       && ExactGrants(s, u.spec.username, w.databases, k, u)
  }

  /** Moreover TLS is as specified and nothing is held on all schemas, which no specification can ask for. */
  ghost predicate Matches(w: World, k: Key, env: Env) {
    && MatchesInPart(w, k, env)
    && w.server.accounts[w.users[k].spec.username].tls == w.users[k].spec.tls
    && w.server.accounts[w.users[k].spec.username].everywhere == {}
  }

  /**
   * Whether TLS will be as specified: the source sends REQUIRE only for an object with an identification,
   * so without one the account keeps what it has, or does without when it is yet to be made.
   */
  predicate TlsServed(s: Server, u: DatabaseUser) {
    || u.spec.identification.Some?
    || u.spec.tls == (AccountExists(s, u.status.username) && s.accounts[u.status.username].tls)
  }

  /** The list of lines the permission pass will start from, under the name in the specification. */
  function KnownThen(s: Server, u: DatabaseUser, env: Env): seq<GrantLine>
    requires u.status.username in s.accounts
  {
    Refresh(u.status.grants, Lines(s.accounts[u.status.username].privileges, u.spec.username, env))
  }

  /** A permission pass is due and will send a REVOKE. */
  predicate RevokeDue(s: Server, u: DatabaseUser, env: Env)
    requires u.status.username in s.accounts
  {
    var all := KnownThen(s, u, env);
    all != [] && (all != u.status.grants || |all| != |u.spec.databaseList| || u.spec.databaseList != u.status.databaseList)
  }

  /**
   * Whether nothing will be held on all schemas: SHOW GRANTS tells of it in the line that is dropped, so
   * it goes only with a REVOKE that other lines or another list bring about, or with the account.
   */
  predicate EverywhereCleared(s: Server, u: DatabaseUser, env: Env) {
    AccountExists(s, u.status.username) ==> s.accounts[u.status.username].everywhere == {} || RevokeDue(s, u, env)
  }

  /** What stays from pass to pass: specification, identity, whether TLS is served and whether nothing will be held on all schemas. */
  datatype Fate = Fate(spec: UserSpec, uid: Uid, served: bool, cleared: bool)

  function FateOf(s: Server, u: DatabaseUser, env: Env): Fate {
    Fate(u.spec, u.uid, TlsServed(s, u), EverywhereCleared(s, u, env))
  }

  // ---------------------------------------------------------------- well-formed states

  /** The referenced secret, if it is there, can be controlled and read. */
  ghost predicate SecretReady(w: World, k: Key, u: DatabaseUser) {
    && (u.spec.identification.Some? ==> u.spec.identification.value.authString.Some?)
    && (SecretOf(w, k, u).Some? ==>
          var secret := SecretOf(w, k, u).value;
          && (secret.controller == None || secret.controller == Some(u.uid)) && secret.version <= w.lastVersion
          && u.spec.identification.value.authString.value.key in secret.data)
    && u.status.identificationVersion <= w.lastVersion
  }

  /** The claimed name is free, or the account is ours; a free claimed name is the one in the specification. */
  ghost predicate NameReady(s: Server, k: Key, u: DatabaseUser) {
    && u.spec.username != []
    && (u.status.username == [] ==> u.spec.username !in s.accounts)
    && (u.status.username != [] ==>
          if u.status.username in s.accounts then UserMine(s, k, u) && OwnsAccount(s, u.status.username, Actor(k, u))
          else u.status.username == u.spec.username)
  }

  /** Where the status says an attribute is in place, it is. */
  ghost predicate AuthTruth(s: Server, u: DatabaseUser, secret: Option<Secret>) {
    u.spec.identification.Some? && u.spec.identification.value.authString.Some? ==>
      var id := u.spec.identification.value;
      if AccountExists(s, u.status.username) then
        var a := s.accounts[u.status.username];
        && a.tls == u.status.tls
        && (secret.Some? && id.authString.value.key in secret.value.data
            && u.status.identificationVersion == secret.value.version && (id.plugin == [] || a.auth.plugin == id.plugin) ==>
              AuthMatches(a, id, secret.value.data[id.authString.value.key]))
      else u.spec.tls ==> !u.status.tls
  }

  ghost predicate GrantsTruth(s: Server, u: DatabaseUser, databases: map<Key, Database>, k: Key, env: Env) {
    && NoDuplicates(u.status.grants)
    && (AccountExists(s, u.status.username) && !GrantsPending(s, u, env) ==> ExactGrants(s, u.status.username, databases, k, u))
    && (u.status.username != u.spec.username ==> forall g :: g in u.status.grants ==> g.grantee != u.spec.username)
  }

  ghost predicate WellFormed(w: World, k: Key, env: Env) {
    && k in w.users && !w.users[k].deleting
    && var u, s := w.users[k], w.server;
       && DatabasesReady(s, w.databases, k, u.spec.databaseList)
       && SecretReady(w, k, u) && NameReady(s, k, u)
       && AuthTruth(s, u, SecretOf(w, k, u)) && GrantsTruth(s, u, w.databases, k, env)
  }

  // ---------------------------------------------------------------- the stages before the server

  ghost predicate Progress(w: World, w': World, k: Key, env: Env)
    requires k in w.users
  {
    WellFormed(w', k, env) && Stage(w', k, env) < Stage(w, k, env) && w'.databases == w.databases
    && FateOf(w'.server, w'.users[k], env) == FateOf(w.server, w.users[k], env)
  }

  /** The secret phase leaves a well-formed world, with the secret in place. */
  lemma SecretPhase(w: World, k: Key, env: Env)
    requires WellFormed(w, k, env) && AllSucceed(env)
    ensures var r := WithSecret(w, k, w.users[k], env);
            && r.Some? && WellFormed(r.value, k, env)
            && r.value.server == w.server && r.value.users == w.users && r.value.databases == w.databases
            && (SecretKey(k, w.users[k]).Some? ==> SecretOf(r.value, k, w.users[k]).Some?)
            && SecretPending(r.value, k, w.users[k]) == SecretPending(w, k, w.users[k])
            && (!SecretPending(w, k, w.users[k]) ==> r.value == w)
  {
  }

  lemma ClaimPass(w: World, k: Key, env: Env)
    requires WellFormed(w, k, env) && AllSucceed(env) && Stage(w, k, env) == 7
    ensures var u, r := w.users[k], WithSecret(w, k, w.users[k], env);
            r.Some? && UserPass(w, k, env) == StoreUser(r.value, k, u.(status := u.status.(username := u.spec.username)))
  {
    SecretPhase(w, k, env);
    var u := w.users[k];
    assert UserMine(w.server, k, u);
    DecidesTruly(w.server, k, u, env, 0);
  }

  /** Claiming a free name. */
  lemma ClaimWellFormed(w: World, k: Key, env: Env)
    requires WellFormed(w, k, env) && w.users[k].status.username == []
    ensures var u := w.users[k];
            var w' := StoreUser(w, k, u.(status := u.status.(username := u.spec.username)));
            && WellFormed(w', k, env) && FateOf(w'.server, w'.users[k], env) == FateOf(w.server, u, env)
  {
  }

  lemma Claimed(w: World, k: Key, env: Env)
    requires WellFormed(w, k, env) && AllSucceed(env) && Stage(w, k, env) == 7
    ensures Progress(w, UserPass(w, k, env), k, env)
  {
    SecretPhase(w, k, env);
    ClaimPass(w, k, env);
    ClaimWellFormed(WithSecret(w, k, w.users[k], env).value, k, env);
  }

  lemma TakePass(w: World, k: Key, env: Env)
    requires WellFormed(w, k, env) && AllSucceed(env) && Stage(w, k, env) == 6
    ensures var r := WithSecret(w, k, w.users[k], env);
            r.Some? && UserPass(w, k, env) == TakeSecret(r.value, k, w.users[k], env)
  {
    SecretPhase(w, k, env);
  }

  /** Taking control of the secret gives it a new version, which is more to send and never less. */
  lemma TakeWellFormed(w: World, k: Key, env: Env)
    requires WellFormed(w, k, env) && AllSucceed(env)
    requires SecretPending(w, k, w.users[k]) && SecretOf(w, k, w.users[k]).Some?
    ensures var w' := TakeSecret(w, k, w.users[k], env);
            && WellFormed(w', k, env) && w'.users == w.users && w'.server == w.server && w'.databases == w.databases
            && !SecretPending(w', k, w.users[k])
  {
  }

  lemma SecretTaken(w: World, k: Key, env: Env)
    requires WellFormed(w, k, env) && AllSucceed(env) && Stage(w, k, env) == 6
    ensures Progress(w, UserPass(w, k, env), k, env)
  {
    SecretPhase(w, k, env);
    TakePass(w, k, env);
    TakeWellFormed(WithSecret(w, k, w.users[k], env).value, k, env);
  }

  lemma FinalizerPass(w: World, k: Key, env: Env)
    requires WellFormed(w, k, env) && AllSucceed(env) && Stage(w, k, env) == 5
    ensures UserPass(w, k, env) == StoreUser(w, k, w.users[k].(finalizer := true))
  {
    SecretPhase(w, k, env);
  }

  /** Nothing that makes a world well-formed depends on the finalizer. */
  lemma FinalizerWellFormed(w: World, k: Key, env: Env)
    requires WellFormed(w, k, env)
    ensures var w' := StoreUser(w, k, w.users[k].(finalizer := true));
            && WellFormed(w', k, env) && FateOf(w'.server, w'.users[k], env) == FateOf(w.server, w.users[k], env)
            && SecretPending(w', k, w'.users[k]) == SecretPending(w, k, w.users[k])
  {
    var u := w.users[k];
    assert Names(u.(finalizer := true)) == Names(u);
    SameFate(w.server, u, u.(finalizer := true), env);
  }

  lemma FinalizerAdded(w: World, k: Key, env: Env)
    requires WellFormed(w, k, env) && AllSucceed(env) && Stage(w, k, env) == 5
    ensures Progress(w, UserPass(w, k, env), k, env)
  {
    FinalizerPass(w, k, env);
    FinalizerWellFormed(w, k, env);
  }

  // ---------------------------------------------------------------- the stages on the server

  /** The auth string of a well-formed object whose secret is in place. */
  ghost predicate Readable(u: DatabaseUser, secret: Option<Secret>) {
    u.spec.identification.Some? ==>
      && u.spec.identification.value.authString.Some? && secret.Some?
      && u.spec.identification.value.authString.value.key in secret.value.data
  }

  lemma AuthForMatches(a: Account, id: Identification, auth: Bytes, tls: Option<bool>)
    ensures AuthMatches(WithDetails(a, Details(AuthFor(id, auth), tls)), id, auth)
  {
  }

  /** What the passes on the server must establish for the object afterwards. */
  ghost predicate ServerReady(s: Server, u: DatabaseUser, secret: Option<Secret>, databases: map<Key, Database>, k: Key, env: Env) {
    && DatabasesReady(s, databases, k, u.spec.databaseList)
    && NameReady(s, k, u) && AuthTruth(s, u, secret) && GrantsTruth(s, u, databases, k, env)
  }

  /** Same object with a status whose version is the old one or the secret's. */
  predicate Recorded(u: DatabaseUser, u': DatabaseUser, secret: Option<Secret>) {
    && u'.uid == u.uid && u'.spec == u.spec && u'.finalizer == u.finalizer && u'.deleting == u.deleting
    && (u'.status.identificationVersion == u.status.identificationVersion ||
        (secret.Some? && u'.status.identificationVersion == secret.value.version))
  }

  /** After the CREATE: the grants and the saved row complete the account. */
  lemma CompleteReady(s1: Server, u: DatabaseUser, k: Key, databases: map<Key, Database>, secret: Option<Secret>, env: Env)
    requires AllSucceed(env) && u.status.username == u.spec.username && u.status.grants == []
    requires AccountExists(s1, u.status.username) && s1.accounts[u.status.username].privileges == map[]
    requires OwnsAccount(s1, u.status.username, Actor(k, u))
    requires DatabasesReady(s1, databases, k, u.spec.databaseList) && AuthTruth(s1, u, secret)
    ensures var g := GrantAll(s1, u, k, databases, env);
            var s3 := SaveUserRow(g.server, k, u, true);
            && g.ok && g.user.(status := u.status) == u && g.user.status.username == u.spec.username
            && g.user.status.identificationVersion == u.status.identificationVersion
            && u.spec.username in s3.accounts && ServerReady(s3, g.user, secret, databases, k, env)
            && s3.accounts[u.spec.username].tls == s1.accounts[u.spec.username].tls
            && s3.accounts[u.spec.username].everywhere == s1.accounts[u.spec.username].everywhere
  {
    GrantedFresh(s1, u, k, databases, env);
    GrantedFreshExactly(s1, u, k, databases, env);
    var g := GrantAll(s1, u, k, databases, env);
    var s3 := SaveUserRow(g.server, k, u, true);
    DatabasesStayReady(s1, s3, databases, k, u.spec.databaseList);
    SameEntitlement(g.server, s3, databases, k, u.spec.databaseList);
    assert ExactGrants(s3, u.status.username, databases, k, g.user);
    assert forall n :: n in Names(g.user) ==> n == u.spec.username;
    assert AuthTruth(s3, g.user, secret);
  }

  /** Where the grant loop of a CREATE starts from. */
  lemma CreateStartReady(s: Server, u: DatabaseUser, k: Key, databases: map<Key, Database>, secret: Option<Secret>, env: Env)
    requires AllSucceed(env) && Readable(u, secret)
    requires ServerReady(s, u, secret, databases, k, env)
    requires u.status.username != [] && u.status.username !in s.accounts
    ensures DetailsFor(u, secret, true, env).Some? && u.status.username == u.spec.username
    ensures var (d, u1) := DetailsFor(u, secret, true, env).value;
            var s1 := Send(s, k, u, CreateUser(u.status.username, d), true).0;
            var u2 := Tracking(u1, []);
            && Recorded(u, u2, secret) && u2.status.username == u.status.username
            && AccountExists(s1, u.status.username) && s1.accounts[u.status.username].privileges == map[]
            && OwnsAccount(s1, u.status.username, Actor(k, u2))
            && DatabasesReady(s1, databases, k, u2.spec.databaseList) && AuthTruth(s1, u2, secret)
            && (u.spec.identification.None? ==> !s1.accounts[u.status.username].tls)
            && s1.accounts[u.status.username].everywhere == {}
  {
    var (d, u1) := DetailsFor(u, secret, true, env).value;
    var s1 := Send(s, k, u, CreateUser(u.status.username, d), true).0;
    US.CreateGoesThrough(s, u, k, databases, secret, env);
    DatabasesStayReady(s, s1, databases, k, u.spec.databaseList);
    CreatedAuth(s1, u, Tracking(u1, []), k, secret, d, env);
  }

  lemma CreateReady(s: Server, u: DatabaseUser, k: Key, databases: map<Key, Database>, secret: Option<Secret>, env: Env)
    requires AllSucceed(env) && Readable(u, secret)
    requires ServerReady(s, u, secret, databases, k, env)
    requires u.status.username != [] && u.status.username !in s.accounts
    ensures var o := UserCreate(s, u, k, databases, secret, env);
            && o.ok && Recorded(u, o.user, secret) && o.user.status.username == u.spec.username
            && o.user.status.username in o.server.accounts
            && ServerReady(o.server, o.user, secret, databases, k, env)
            && FateOf(o.server, o.user, env) == FateOf(s, u, env)
  {
    var (d, u1) := DetailsFor(u, secret, true, env).value;
    CreateStartReady(s, u, k, databases, secret, env);
    US.CreateGoesThrough(s, u, k, databases, secret, env);
    CompleteReady(Send(s, k, u, CreateUser(u.status.username, d), true).0, Tracking(u1, []), k, databases, secret, env);
  }

  /** The account made with these details matches the specification, and the recorded status says so. */
  lemma CreatedAuth(s: Server, u: DatabaseUser, u': DatabaseUser, k: Key, secret: Option<Secret>, d: Details, env: Env)
    requires AllSucceed(env) && Readable(u, secret)
    requires DetailsFor(u, secret, true, env).Some? && DetailsFor(u, secret, true, env).value.0 == d
    requires u.spec.identification.Some? ==> (u.spec.tls ==> !u.status.tls)
    requires u'.spec == u.spec && u'.status.username == u.status.username && AccountExists(s, u.status.username)
    requires u'.status.tls == DetailsFor(u, secret, true, env).value.1.status.tls
    requires exists a0: Account :: !a0.tls && s.accounts[u.status.username] == WithDetails(a0, d)
    ensures AuthTruth(s, u', secret)
  {
    if u.spec.identification.Some? {
      var id := u.spec.identification.value;
      var auth := secret.value.data[id.authString.value.key];
      var a0: Account :| !a0.tls && s.accounts[u.status.username] == WithDetails(a0, d);
      AuthForMatches(a0, id, auth, d.tls);
    }
  }

  /** The fate does not depend on what is recorded of the authentication. */
  lemma SameFate(s: Server, u: DatabaseUser, u1: DatabaseUser, env: Env)
    requires u1.spec == u.spec && u1.uid == u.uid && u1.status.username == u.status.username
    requires u1.status.grants == u.status.grants && u1.status.databaseList == u.status.databaseList
    ensures FateOf(s, u1, env) == FateOf(s, u, env)
  {
  }

  /** The object as read back keeps everything but the recorded identification. */
  lemma ObservedReady(s: Server, u: DatabaseUser, secret: Option<Secret>, databases: map<Key, Database>, k: Key, env: Env)
    requires ServerReady(s, u, secret, databases, k, env)
    ensures ServerReady(s, Observed(s, u, env), secret, databases, k, env)
    ensures Observed(s, u, env).(status := u.status) == u
    ensures Observed(s, u, env).status.(identification := u.status.identification) == u.status
    ensures UserMine(s, k, Observed(s, u, env)) == UserMine(s, k, u)
    ensures GrantsPending(s, Observed(s, u, env), env) == GrantsPending(s, u, env)
    ensures FateOf(s, Observed(s, u, env), env) == FateOf(s, u, env)
  {
    ObservedShape(s, u, env);
    ObservedPending(s, u, env);
    SameFate(s, u, Observed(s, u, env), env);
  }

  lemma ObservedShape(s: Server, u: DatabaseUser, env: Env)
    ensures var u1 := Observed(s, u, env);
            u1.(status := u.status) == u && u1.status.(identification := u.status.identification) == u.status && Names(u1) == Names(u)
  {
  }

  lemma ObservedPending(s: Server, u: DatabaseUser, env: Env)
    ensures GrantsPending(s, Observed(s, u, env), env) == GrantsPending(s, u, env)
  {
  }

  /** After a rename the lines name another account: what is not pending under the new name was not pending before. */
  lemma RenamedGrants(s: Server, s1: Server, u: DatabaseUser, u1: DatabaseUser, databases: map<Key, Database>, k: Key, env: Env)
    requires AllSucceed(env) && GrantsTruth(s, u, databases, k, env)
    requires AccountExists(s, u.status.username) && u.spec.username != u.status.username && u.spec.username != []
    requires u1.spec == u.spec && u1.status.username == u.spec.username
    requires u1.status.grants == u.status.grants && u1.status.databaseList == u.status.databaseList
    requires u.spec.username in s1.accounts && s1.accounts[u.spec.username] == s.accounts[u.status.username]
    requires s1.schemas == s.schemas && s1.managedDatabases == s.managedDatabases
    ensures GrantsTruth(s1, u1, databases, k, env)
  {
    var p := s.accounts[u.status.username].privileges;
    var lines, lines1 := Lines(p, u.status.username, env), Lines(p, u.spec.username, env);
    LinesDistinct(p, u.status.username, env);
    LinesDistinct(p, u.spec.username, env);
    RefreshTracks(u.status.grants, lines1);
    assert lines1 != [] ==> lines1[0].grantee == u.spec.username;
    if !GrantsPending(s1, u1, env) {
      assert lines1 == [] && lines == [];
      assert !GrantsPending(s, u, env);
      forall schema, word ensures Holds(s1, u.spec.username, schema, word) <==> Entitled(s1, databases, k, u1.spec.databaseList, 0, schema, word) {
        assert Holds(s1, u.spec.username, schema, word) == Holds(s, u.status.username, schema, word);
        assert forall x :: Gives(s1, databases, k, x, schema, word) <==> Gives(s, databases, k, x, schema, word);
      }
    }
  }

  lemma RenameReady(s: Server, u: DatabaseUser, k: Key, databases: map<Key, Database>, secret: Option<Secret>, env: Env)
    requires AllSucceed(env) && ServerReady(s, u, secret, databases, k, env)
    requires AccountExists(s, u.status.username) && u.spec.username != u.status.username
    ensures var o := Rename(s, u, k, env);
            && o.ok && Recorded(u, o.user, secret) && o.user.status.username == u.spec.username
            && u.spec.username in o.server.accounts
            && ServerReady(o.server, o.user, secret, databases, k, env)
            && FateOf(o.server, o.user, env) == FateOf(s, u, env)
  {
    MineNamesOneAccount(s, k, u);
    assert u.spec.username !in s.accounts;
    var o := Rename(s, u, k, env);
    assert o.ok;
    RenamedGrants(s, o.server, u, o.user, databases, k, env);
    DatabasesStayReady(s, o.server, databases, k, u.spec.databaseList);
    RenamedName(s, o.server, k, u, o.user);
    assert AuthTruth(o.server, o.user, secret);
  }

  lemma RenamedName(s: Server, s1: Server, k: Key, u: DatabaseUser, u1: DatabaseUser)
    requires NameReady(s, k, u) && AccountExists(s, u.status.username) && u.spec.username !in s.accounts
    requires u1 == u.(status := u.status.(username := u.spec.username))
    requires OwnsAccount(s1, u.spec.username, Actor(k, u)) && RowIs(s1.managedUsers, u.uid, k, u.spec.username)
    ensures NameReady(s1, k, u1)
  {
    assert forall n :: n in Names(u1) ==> n == u.spec.username;
  }

  /** Sending the details makes the account match, and the recorded status needs no more of them. */
  lemma AlterReady(s: Server, u: DatabaseUser, k: Key, databases: map<Key, Database>, secret: Option<Secret>, env: Env)
    requires AllSucceed(env) && Readable(u, secret) && ServerReady(s, u, secret, databases, k, env)
    requires AccountExists(s, u.status.username) && u.spec.username == u.status.username
    requires u == Observed(s, u, env) && AuthPending(s, u, secret, env)
    ensures var o := UserUpdate(s, u, k, databases, secret, env);
            && o.ok && Recorded(u, o.user, secret) && o.user.status.username == u.spec.username
            && u.spec.username in o.server.accounts
            && ServerReady(o.server, o.user, secret, databases, k, env)
            && !AuthPending(o.server, o.user, secret, env)
            && FateOf(o.server, o.user, env) == FateOf(s, u, env)
  {
    var (d, u1) := DetailsFor(u, secret, false, env).value;
    var o := UserUpdate(s, u, k, databases, secret, env);
    AlterOutcome(s, u, k, databases, secret, env);
    AlteredAuth(s, o.server, u, u1, d, secret, env);
    AlteredReady(s, o.server, u, u1, d, k, databases, secret, env);
  }

  /** Everything but the authentication stays as it is. */
  lemma AlteredReady(s: Server, s1: Server, u: DatabaseUser, u1: DatabaseUser, d: Details, k: Key, databases: map<Key, Database>,
                     secret: Option<Secret>, env: Env)
    requires AllSucceed(env) && ServerReady(s, u, secret, databases, k, env)
    requires AccountExists(s, u.status.username) && u.spec.username == u.status.username
    requires US.SameUser(u, u1) && u1.status.grants == u.status.grants && u1.status.databaseList == u.status.databaseList
    requires s1 == s.(accounts := s.accounts[u.status.username := WithDetails(s.accounts[u.status.username], d)], issued := s1.issued)
    requires AuthTruth(s1, u1, secret) && TlsServed(s1, u1) == TlsServed(s, u)
    ensures ServerReady(s1, u1, secret, databases, k, env) && FateOf(s1, u1, env) == FateOf(s, u, env)
  {
    DatabasesStayReady(s, s1, databases, k, u.spec.databaseList);
    PrivilegesStay(s, s1, u, u1, databases, k, env);
    AlteredName(s, s1, u, u1, d, k);
    AlteredCleared(s, s1, u, u1, d, env);
  }

  lemma AlteredName(s: Server, s1: Server, u: DatabaseUser, u1: DatabaseUser, d: Details, k: Key)
    requires NameReady(s, k, u) && AccountExists(s, u.status.username) && US.SameUser(u, u1)
    requires s1 == s.(accounts := s.accounts[u.status.username := WithDetails(s.accounts[u.status.username], d)], issued := s1.issued)
    ensures NameReady(s1, k, u1)
  {
    assert Names(u1) == Names(u);
  }

  lemma AlteredCleared(s: Server, s1: Server, u: DatabaseUser, u1: DatabaseUser, d: Details, env: Env)
    requires AccountExists(s, u.status.username) && US.SameUser(u, u1)
    requires u1.status.grants == u.status.grants && u1.status.databaseList == u.status.databaseList
    requires s1.accounts == s.accounts[u.status.username := WithDetails(s.accounts[u.status.username], d)]
    ensures EverywhereCleared(s1, u1, env) == EverywhereCleared(s, u, env)
  {
  }

  lemma AlterOutcome(s: Server, u: DatabaseUser, k: Key, databases: map<Key, Database>, secret: Option<Secret>, env: Env)
    requires u.spec.username == u.status.username && u.status.username in s.accounts && env.ok(SendAlter)
    requires DetailsFor(u, secret, false, env).Some? && DetailsFor(u, secret, false, env).value.0 != NO_DETAILS
    ensures var (d, u1) := DetailsFor(u, secret, false, env).value;
            var n, o := u.status.username, UserUpdate(s, u, k, databases, secret, env);
            && o.ok && o.user == u1 && US.SameUser(u, u1)
            && o.server == s.(accounts := s.accounts[n := WithDetails(s.accounts[n], d)], issued := o.server.issued)
            && u1.status.grants == u.status.grants && u1.status.databaseList == u.status.databaseList
  {
    US.UpdateCases(s, u, k, databases, secret, env);
  }

  lemma AlteredAuth(s: Server, s1: Server, u: DatabaseUser, u1: DatabaseUser, d: Details, secret: Option<Secret>, env: Env)
    requires AllSucceed(env) && Readable(u, secret) && AuthTruth(s, u, secret)
    requires AccountExists(s, u.status.username) && u == Observed(s, u, env)
    requires DetailsFor(u, secret, false, env) == Some((d, u1))
    requires s1.accounts == s.accounts[u.status.username := WithDetails(s.accounts[u.status.username], d)]
    ensures AuthTruth(s1, u1, secret) && !AuthPending(s1, u1, secret, env)
  {
    if u.spec.identification.Some? {
      var id := u.spec.identification.value;
      var auth := secret.value.data[id.authString.value.key];
      var a := s.accounts[u.status.username];
      AuthForMatches(a, id, auth, d.tls);
      assert u.status.identification.value.plugin == a.auth.plugin;
    }
  }

  /** Privileges, tracked list and schemas unchanged: the truth about the grants is unchanged. */
  lemma PrivilegesStay(s: Server, s1: Server, u: DatabaseUser, u1: DatabaseUser, databases: map<Key, Database>, k: Key, env: Env)
    requires GrantsTruth(s, u, databases, k, env) && AccountExists(s, u.status.username)
    requires u1.spec == u.spec && u1.status.username == u.status.username
    requires u1.status.grants == u.status.grants && u1.status.databaseList == u.status.databaseList
    requires u.status.username in s1.accounts && s1.accounts[u.status.username].privileges == s.accounts[u.status.username].privileges
    requires s1.schemas == s.schemas && s1.managedDatabases == s.managedDatabases
    ensures GrantsTruth(s1, u1, databases, k, env)
    ensures GrantsPending(s1, u1, env) == GrantsPending(s, u, env)
  {
    SamePending(s, s1, u, u1, env);
    if !GrantsPending(s1, u1, env) {
      SameExact(s, s1, u.status.username, databases, k, u, u1);
    }
  }

  lemma SamePending(s: Server, s1: Server, u: DatabaseUser, u1: DatabaseUser, env: Env)
    requires AccountExists(s, u.status.username)
    requires u1.spec == u.spec && u1.status.username == u.status.username
    requires u1.status.grants == u.status.grants && u1.status.databaseList == u.status.databaseList
    requires u.status.username in s1.accounts && s1.accounts[u.status.username].privileges == s.accounts[u.status.username].privileges
    ensures GrantsPending(s1, u1, env) == GrantsPending(s, u, env)
  {
    PendingMeans(s, u, env);
    PendingMeans(s1, u1, env);
  }

  lemma PendingMeans(s: Server, u: DatabaseUser, env: Env)
    requires AccountExists(s, u.status.username)
    ensures GrantsPending(s, u, env) <==>
              var lines := Lines(s.accounts[u.status.username].privileges, u.status.username, env);
              var all := if env.ok(ShowGrants(0)) then Refresh(u.status.grants, lines) else u.status.grants;
              all != u.status.grants || |all| != |u.spec.databaseList| || u.spec.databaseList != u.status.databaseList
  {
  }

  lemma SameExact(s: Server, s1: Server, n: Bytes, databases: map<Key, Database>, k: Key, u: DatabaseUser, u1: DatabaseUser)
    requires ExactGrants(s, n, databases, k, u) && u1.spec == u.spec
    requires n in s.accounts && n in s1.accounts && s1.accounts[n].privileges == s.accounts[n].privileges
    requires s1.schemas == s.schemas && s1.managedDatabases == s.managedDatabases
    ensures ExactGrants(s1, n, databases, k, u1)
  {
    forall schema, word ensures Holds(s1, n, schema, word) <==> Entitled(s1, databases, k, u1.spec.databaseList, 0, schema, word) {
      assert Holds(s1, n, schema, word) == Holds(s, n, schema, word);
      assert forall x :: Gives(s1, databases, k, x, schema, word) <==> Gives(s, databases, k, x, schema, word);
    }
  }

  /** Granting afresh to the cleared account. */
  lemma RegrantReady(s: Server, u: DatabaseUser, r: Outcome, k: Key, databases: map<Key, Database>, secret: Option<Secret>, env: Env)
    requires AllSucceed(env) && ServerReady(s, u, secret, databases, k, env)
    requires AccountExists(s, u.status.username) && u.spec.username == u.status.username
    requires OnlyPrivileges(s, r.server, u.status.username) && r.server.accounts[u.status.username].privileges == map[]
    requires r.user == u.(status := u.status.(grants := [], databaseList := r.user.status.databaseList))
    ensures var o := GrantAll(r.server, r.user, k, databases, env);
            && o.ok && OnlyPrivileges(s, o.server, u.status.username)
            && o.user == u.(status := u.status.(grants := o.user.status.grants, databaseList := o.user.status.databaseList))
            && ServerReady(o.server, o.user, secret, databases, k, env)
            && !GrantsPending(o.server, o.user, env)
            && o.server.accounts[u.status.username].everywhere == r.server.accounts[u.status.username].everywhere
  {
    DatabasesStayReady(s, r.server, databases, k, u.spec.databaseList);
    GrantedFresh(r.server, r.user, k, databases, env);
    GrantedFreshExactly(r.server, r.user, k, databases, env);
    GrantsSettleIff(r.server, r.user, k, databases, env);
    var o := GrantAll(r.server, r.user, k, databases, env);
    DatabasesStayReady(r.server, o.server, databases, k, u.spec.databaseList);
    DatabasesStayReady(s, o.server, databases, k, u.spec.databaseList);
    assert Names(o.user) == Names(u);
    assert NameReady(o.server, k, o.user) && AuthTruth(o.server, o.user, secret);
  }

  lemma GrantReady(s: Server, u: DatabaseUser, k: Key, databases: map<Key, Database>, secret: Option<Secret>, env: Env)
    requires AllSucceed(env) && ServerReady(s, u, secret, databases, k, env)
    requires AccountExists(s, u.status.username) && u.spec.username == u.status.username
    requires GrantsPending(s, u, env)
    ensures var o := UpdatePermissions(s, u, k, databases, env);
            && o.ok && OnlyPrivileges(s, o.server, u.status.username)
            && o.user == u.(status := u.status.(grants := o.user.status.grants, databaseList := o.user.status.databaseList))
            && ServerReady(o.server, o.user, secret, databases, k, env)
            && !GrantsPending(o.server, o.user, env)
            && FateOf(o.server, o.user, env) == FateOf(s, u, env)
  {
    ClearedForGrant(s, u, k, env);
    US.UpdatePermissionsCases(s, u, k, databases, env);
    RegrantReady(s, u, US.Cleared(s, u, k, env), k, databases, secret, env);
    RevokeDueMeans(s, u, env);
    var o := UpdatePermissions(s, u, k, databases, env);
    RevokeDueMeans(o.server, o.user, env);
  }

  /** Under its final name: a REVOKE is due when a difference is found and the list is not empty. */
  lemma RevokeDueMeans(s: Server, u: DatabaseUser, env: Env)
    requires AllSucceed(env) && AccountExists(s, u.status.username) && u.spec.username == u.status.username
    ensures RevokeDue(s, u, env) <==> GrantsPending(s, u, env) && Known(s, u, env) != []
  {
  }

  /** Nothing pending about the authentication: the details are empty and the status is recorded. */
  lemma NoDetails(s: Server, u: DatabaseUser, secret: Option<Secret>, databases: map<Key, Database>, k: Key, env: Env)
    requires AllSucceed(env) && Readable(u, secret) && ServerReady(s, u, secret, databases, k, env)
    requires u == Observed(s, u, env) && AccountExists(s, u.status.username) && !AuthPending(s, u, secret, env)
    ensures var d := DetailsFor(u, secret, false, env);
            && d.Some? && d.value.0 == NO_DETAILS && Recorded(u, d.value.1, secret)
            && d.value.1.status.(identification := u.status.identification,
                                 identificationVersion := u.status.identificationVersion,
                                 tls := u.status.tls) == u.status
            && d.value.1.status.tls == u.status.tls
            && ServerReady(s, d.value.1, secret, databases, k, env)
            && (GrantsPending(s, d.value.1, env) <==> GrantsPending(s, u, env))
  {
    var u1 := DetailsFor(u, secret, false, env).value.1;
    QuietAuth(s, u, u1, secret, env);
    PrivilegesStay(s, s, u, u1, databases, k, env);
    assert Names(u1) == Names(u);
  }

  lemma QuietAuth(s: Server, u: DatabaseUser, u1: DatabaseUser, secret: Option<Secret>, env: Env)
    requires AllSucceed(env) && Readable(u, secret) && AuthTruth(s, u, secret)
    requires u == Observed(s, u, env) && AccountExists(s, u.status.username) && !AuthPending(s, u, secret, env)
    requires DetailsFor(u, secret, false, env).Some? && DetailsFor(u, secret, false, env).value.1 == u1
    ensures AuthTruth(s, u1, secret) && u1.status.tls == u.status.tls
    ensures DetailsFor(u, secret, false, env).value.0 == NO_DETAILS
    ensures u.spec.identification.Some? ==>
              && s.accounts[u.status.username].tls == u.spec.tls
              && AuthMatches(s.accounts[u.status.username], u.spec.identification.value,
                             secret.value.data[u.spec.identification.value.authString.value.key])
  {
  }

  // ---------------------------------------------------------------- one pass, stage by stage

  /** From stage four on, the pass is the server part, and its outcome is stored. */
  lemma ServerStagePass(w: World, k: Key, env: Env)
    requires WellFormed(w, k, env) && AllSucceed(env) && Stage(w, k, env) <= 4
    ensures var u := w.users[k];
            var secret := SecretOf(w, k, u);
            var o := Converge(w.server, u, k, w.databases, secret, env);
            && Readable(u, secret) && ServerReady(w.server, u, secret, w.databases, k, env)
            && (o.ok ==> UserPass(w, k, env) == StoreUser(w.(server := o.server), k, o.user))
            && (u.status.username in w.server.accounts ==>
                  o == UserUpdate(w.server, Observed(w.server, u, env), k, w.databases, secret, env))
  {
    SecretPhase(w, k, env);
    var u := w.users[k];
    ObservedReady(w.server, u, SecretOf(w, k, u), w.databases, k, env);
    DecidesTruly(w.server, k, u, env, 0);
    DecidesTruly(w.server, k, Observed(w.server, u, env), env, 2);
  }

  /** What a server pass established carries over to the stored world. */
  lemma StoredWellFormed(w: World, k: Key, o: Outcome, env: Env)
    requires WellFormed(w, k, env) && Stage(w, k, env) <= 4
    requires Recorded(w.users[k], o.user, SecretOf(w, k, w.users[k]))
    requires ServerReady(o.server, o.user, SecretOf(w, k, w.users[k]), w.databases, k, env)
    requires o.user.status.username == o.user.spec.username && o.user.spec.username in o.server.accounts
    ensures var w' := StoreUser(w.(server := o.server), k, o.user);
            && WellFormed(w', k, env) && Stage(w', k, env) <= 2 && SecretOf(w', k, o.user) == SecretOf(w, k, w.users[k])
  {
  }

  /** A server pass that leaves nothing pending of what it took care of lowers the stage. */
  lemma StoredProgress(w: World, k: Key, o: Outcome, env: Env)
    requires WellFormed(w, k, env) && 1 <= Stage(w, k, env) <= 4
    requires Recorded(w.users[k], o.user, SecretOf(w, k, w.users[k]))
    requires ServerReady(o.server, o.user, SecretOf(w, k, w.users[k]), w.databases, k, env)
    requires o.user.status.username == o.user.spec.username && o.user.spec.username in o.server.accounts
    requires Stage(w, k, env) <= 2 ==> !AuthPending(o.server, o.user, SecretOf(w, k, w.users[k]), env)
    requires Stage(w, k, env) == 1 ==> !GrantsPending(o.server, o.user, env)
    requires FateOf(o.server, o.user, env) == FateOf(w.server, w.users[k], env)
    ensures Progress(w, StoreUser(w.(server := o.server), k, o.user), k, env)
  {
    StoredWellFormed(w, k, o, env);
  }

  lemma Created(w: World, k: Key, env: Env)
    requires WellFormed(w, k, env) && AllSucceed(env) && Stage(w, k, env) == 4
    ensures Progress(w, UserPass(w, k, env), k, env)
  {
    ServerStagePass(w, k, env);
    var u := w.users[k];
    var secret := SecretOf(w, k, u);
    CreateReady(w.server, u, k, w.databases, secret, env);
    StoredProgress(w, k, UserCreate(w.server, u, k, w.databases, secret, env), env);
  }

  lemma Renamed(w: World, k: Key, env: Env)
    requires WellFormed(w, k, env) && AllSucceed(env) && Stage(w, k, env) == 3
    ensures Progress(w, UserPass(w, k, env), k, env)
  {
    ServerStagePass(w, k, env);
    var u := w.users[k];
    var secret := SecretOf(w, k, u);
    ObservedReady(w.server, u, secret, w.databases, k, env);
    RenameReady(w.server, Observed(w.server, u, env), k, w.databases, secret, env);
    StoredProgress(w, k, Rename(w.server, Observed(w.server, u, env), k, env), env);
  }

  lemma Altered(w: World, k: Key, env: Env)
    requires WellFormed(w, k, env) && AllSucceed(env) && Stage(w, k, env) == 2
    ensures Progress(w, UserPass(w, k, env), k, env)
  {
    ServerStagePass(w, k, env);
    var u1, secret := Observed(w.server, w.users[k], env), SecretOf(w, k, w.users[k]);
    AlterStage(w, k, env);
    AlterReady(w.server, u1, k, w.databases, secret, env);
    StoredProgress(w, k, UserUpdate(w.server, u1, k, w.databases, secret, env), env);
  }

  lemma AlterStage(w: World, k: Key, env: Env)
    requires WellFormed(w, k, env) && AllSucceed(env) && Stage(w, k, env) == 2
    ensures var u, u1, secret := w.users[k], Observed(w.server, w.users[k], env), SecretOf(w, k, w.users[k]);
            && Recorded(u, u1, secret) && Readable(u1, secret) && ServerReady(w.server, u1, secret, w.databases, k, env)
            && AccountExists(w.server, u1.status.username) && u1.spec.username == u1.status.username
            && u1 == Observed(w.server, u1, env) && AuthPending(w.server, u1, secret, env)
            && FateOf(w.server, u1, env) == FateOf(w.server, u, env)
  {
    var u, secret := w.users[k], SecretOf(w, k, w.users[k]);
    ServerStagePass(w, k, env);
    ObservedReady(w.server, u, secret, w.databases, k, env);
    ObservedAgain(w.server, u, secret, env);
  }

  /** Looking twice is looking once. */
  lemma ObservedAgain(s: Server, u: DatabaseUser, secret: Option<Secret>, env: Env)
    ensures var u1 := Observed(s, u, env);
            u1 == Observed(s, u1, env) && (AuthPending(s, u1, secret, env) <==> AuthPending(s, u, secret, env))
  {
  }

  /** The object after the empty details of a pass with nothing to alter. */
  function Recording(w: World, k: Key, env: Env): DatabaseUser
    requires k in w.users
  {
    var u1 := Observed(w.server, w.users[k], env);
    var d := DetailsFor(u1, SecretOf(w, k, w.users[k]), false, env);
    if d.Some? then d.value.1 else u1
  }

  /** With nothing to alter an update looks after the permissions of the object as recorded. */
  lemma PermissionReady(s: Server, u: DatabaseUser, secret: Option<Secret>, databases: map<Key, Database>, k: Key, env: Env)
    requires AllSucceed(env) && Readable(u, secret) && ServerReady(s, u, secret, databases, k, env)
    requires u.spec.username == u.status.username && AccountExists(s, u.status.username) && !AuthPending(s, u, secret, env)
    ensures var d := DetailsFor(Observed(s, u, env), secret, false, env);
            && d.Some?
            && UserUpdate(s, Observed(s, u, env), k, databases, secret, env) == UpdatePermissions(s, d.value.1, k, databases, env)
            && Recorded(u, d.value.1, secret) && ServerReady(s, d.value.1, secret, databases, k, env)
            && d.value.1.status.username == u.status.username && FateOf(s, d.value.1, env) == FateOf(s, u, env)
            && GrantsPending(s, d.value.1, env) == GrantsPending(s, u, env) && !AuthPending(s, d.value.1, secret, env)
  {
    var u1 := Observed(s, u, env);
    ObservedReady(s, u, secret, databases, k, env);
    NoDetails(s, u1, secret, databases, k, env);
    US.UpdateCases(s, u1, k, databases, secret, env);
    RecordedNotPending(s, u, secret, env);
    SameFate(s, u1, DetailsFor(u1, secret, false, env).value.1, env);
  }

  lemma PermissionStage(w: World, k: Key, env: Env)
    requires WellFormed(w, k, env) && AllSucceed(env) && Stage(w, k, env) <= 1
    ensures var u, secret := Recording(w, k, env), SecretOf(w, k, w.users[k]);
            && Converge(w.server, w.users[k], k, w.databases, secret, env) == UpdatePermissions(w.server, u, k, w.databases, env)
            && Recorded(w.users[k], u, secret) && ServerReady(w.server, u, secret, w.databases, k, env)
            && u.status.username == u.spec.username && AccountExists(w.server, u.spec.username)
            && FateOf(w.server, u, env) == FateOf(w.server, w.users[k], env)
            && GrantsPending(w.server, u, env) == GrantsPending(w.server, w.users[k], env)
            && !AuthPending(w.server, u, secret, env)
  {
    ServerStagePass(w, k, env);
    PermissionReady(w.server, w.users[k], SecretOf(w, k, w.users[k]), w.databases, k, env);
  }

  /** Recording the empty details keeps them empty. */
  lemma RecordedNotPending(s: Server, u: DatabaseUser, secret: Option<Secret>, env: Env)
    requires AllSucceed(env) && Readable(u, secret) && AccountExists(s, u.status.username)
    requires !AuthPending(s, u, secret, env)
    ensures DetailsFor(Observed(s, u, env), secret, false, env).Some?
    ensures !AuthPending(s, DetailsFor(Observed(s, u, env), secret, false, env).value.1, secret, env)
  {
  }

  lemma Granted(w: World, k: Key, env: Env)
    requires WellFormed(w, k, env) && AllSucceed(env) && Stage(w, k, env) == 1
    ensures Progress(w, UserPass(w, k, env), k, env)
  {
    ServerStagePass(w, k, env);
    PermissionStage(w, k, env);
    var u, secret := Recording(w, k, env), SecretOf(w, k, w.users[k]);
    GrantReady(w.server, u, k, w.databases, secret, env);
    var o := UpdatePermissions(w.server, u, k, w.databases, env);
    SameAuthPending(w.server, o.server, u, o.user, secret, env);
    StoredProgress(w, k, o, env);
  }

  lemma SameAuthPending(s: Server, s1: Server, u: DatabaseUser, u1: DatabaseUser, secret: Option<Secret>, env: Env)
    requires OnlyPrivileges(s, s1, u.status.username)
    requires u1 == u.(status := u.status.(grants := u1.status.grants, databaseList := u1.status.databaseList))
    ensures AuthPending(s1, u1, secret, env) == AuthPending(s, u, secret, env)
  {
  }

  /** With nothing pending a pass sends nothing and leaves nothing pending. */
  lemma Settled(w: World, k: Key, env: Env)
    requires WellFormed(w, k, env) && AllSucceed(env) && Stage(w, k, env) == 0
    ensures var w' := UserPass(w, k, env);
            && w'.server == w.server && w'.databases == w.databases
            && WellFormed(w', k, env) && Stage(w', k, env) == 0
            && FateOf(w'.server, w'.users[k], env) == FateOf(w.server, w.users[k], env)
  {
    ServerStagePass(w, k, env);
    PermissionStage(w, k, env);
    var u, secret := Recording(w, k, env), SecretOf(w, k, w.users[k]);
    var o := UpdatePermissions(w.server, u, k, w.databases, env);
    assert o == Outcome(w.server, u, true);
    StoredWellFormed(w, k, o, env);
  }

  /**
   * Stage zero is what the specification asks for; TLS included exactly when it is served, and nothing
   * held on all schemas exactly when that was cleared.
   */
  lemma SettledMatches(w: World, k: Key, env: Env)
    requires WellFormed(w, k, env) && AllSucceed(env) && Stage(w, k, env) == 0
    ensures MatchesInPart(w, k, env)
    ensures Matches(w, k, env) <==> TlsServed(w.server, w.users[k]) && EverywhereCleared(w.server, w.users[k], env)
    ensures EverywhereCleared(w.server, w.users[k], env) <==> w.server.accounts[w.users[k].spec.username].everywhere == {}
  {
    var u := w.users[k];
    SettledAttributes(w, k, env);
    RevokeDueMeans(w.server, u, env);
    SettledNames(w, k, env);
  }

  /** The account's attributes are those of the identification, if there is one. */
  lemma SettledAttributes(w: World, k: Key, env: Env)
    requires WellFormed(w, k, env) && AllSucceed(env) && Stage(w, k, env) == 0
    ensures var u, s := w.users[k], w.server;
            && AccountExists(s, u.status.username) && u.status.username == u.spec.username
            && Readable(u, SecretOf(w, k, u))
            && (u.spec.identification.Some? ==>
                  && s.accounts[u.status.username].tls == u.spec.tls
                  && AuthMatches(s.accounts[u.status.username], u.spec.identification.value,
                                 SecretOf(w, k, u).value.data[u.spec.identification.value.authString.value.key]))
  {
    ServerStagePass(w, k, env);
    var u := w.users[k];
    var secret := SecretOf(w, k, u);
    ObservedReady(w.server, u, secret, w.databases, k, env);
    var u1 := Observed(w.server, u, env);
    QuietAuth(w.server, u1, DetailsFor(u1, secret, false, env).value.1, secret, env);
  }

  /** Name, ledger and what was granted on names. */
  lemma SettledNames(w: World, k: Key, env: Env)
    requires WellFormed(w, k, env) && AllSucceed(env) && Stage(w, k, env) == 0
    ensures var u, s := w.users[k], w.server;
            && OwnsAccount(s, u.spec.username, Actor(k, u)) && RowIs(s.managedUsers, u.uid, k, u.spec.username)
            && ExactGrants(s, u.spec.username, w.databases, k, u)
  {
    BothNamed(w.users[k]);
  }

  // ---------------------------------------------------------------- convergence

  /** A successful pass over a well-formed object that is not settled lowers the stage. */
  lemma StageFalls(w: World, k: Key, env: Env)
    requires WellFormed(w, k, env) && AllSucceed(env) && Stage(w, k, env) > 0
    ensures Progress(w, UserPass(w, k, env), k, env)
  {
    match Stage(w, k, env)
    case 7 => Claimed(w, k, env);
    case 6 => SecretTaken(w, k, env);
    case 5 => FinalizerAdded(w, k, env);
    case 4 => Created(w, k, env);
    case 3 => Renamed(w, k, env);
    case 2 => Altered(w, k, env);
    case _ => Granted(w, k, env);
  }

  /** Any number of passes over one object with nobody else at work. */
  function Passes(w: World, k: Key, env: Env, n: nat): World {
    Iterate(PassOf(k, env), w, n)
  }

  function PassOf(k: Key, env: Env): World -> World { x => UserPass(x, k, env) }

  ghost predicate Good(w: World, k: Key, env: Env, fate: Fate) {
    WellFormed(w, k, env) && AllSucceed(env) && FateOf(w.server, w.users[k], env) == fate
  }

  ghost function GoodOf(k: Key, env: Env, fate: Fate): World -> bool {
    x => Good(x, k, env, fate)
  }

  ghost function StageFor(k: Key, env: Env): World -> nat { x => StageOf(x, k, env) }

  ghost function StageOf(w: World, k: Key, env: Env): nat {
    if k in w.users then Stage(w, k, env) else 0
  }

  lemma PassFalls(w: World, k: Key, env: Env, fate: Fate)
    requires Good(w, k, env, fate)
    ensures Good(UserPass(w, k, env), k, env, fate)
    ensures if StageOf(w, k, env) == 0 then StageOf(UserPass(w, k, env), k, env) == 0
            else StageOf(UserPass(w, k, env), k, env) < StageOf(w, k, env)
    ensures StageOf(w, k, env) == 0 ==> UserPass(w, k, env).server == w.server
  {
    if StageOf(w, k, env) == 0 {
      Settled(w, k, env);
    } else {
      StageFalls(w, k, env);
    }
  }

  lemma PassesFall(k: Key, env: Env, fate: Fate)
    ensures Falls(PassOf(k, env), GoodOf(k, env, fate), StageFor(k, env))
    ensures forall x: World {:trigger PassOf(k, env)(x)} ::
              GoodOf(k, env, fate)(x) && StageFor(k, env)(x) == 0 ==> ServerOf()(PassOf(k, env)(x)) == ServerOf()(x)
  {
    forall x: World | Good(x, k, env, fate)
      ensures Good(UserPass(x, k, env), k, env, fate)
      ensures if StageOf(x, k, env) == 0 then StageOf(UserPass(x, k, env), k, env) == 0
              else StageOf(UserPass(x, k, env), k, env) < StageOf(x, k, env)
      ensures StageOf(x, k, env) == 0 ==> UserPass(x, k, env).server == x.server
    {
      PassFalls(x, k, env, fate);
    }
  }

  lemma PassesSettle(w: World, k: Key, env: Env, n: nat, fate: Fate)
    requires GoodOf(k, env, fate)(w) && n >= StageFor(k, env)(w)
    ensures GoodOf(k, env, fate)(Passes(w, k, env, n)) && StageFor(k, env)(Passes(w, k, env, n)) == 0
    ensures ServerOf()(Passes(w, k, env, n)) == ServerOf()(Passes(w, k, env, StageFor(k, env)(w)))
  {
    PassesFall(k, env, fate);
    Settles(PassOf(k, env), GoodOf(k, env, fate), StageFor(k, env), ServerOf(), w, n);
  }

  /** As many passes as the stage says, or more, lead to a settled state with the same specification. */
  lemma PassesReachSettled(w: World, k: Key, env: Env, n: nat)
    requires WellFormed(w, k, env) && AllSucceed(env) && n >= Stage(w, k, env)
    ensures var w' := Passes(w, k, env, n);
            && WellFormed(w', k, env) && Stage(w', k, env) == 0
            && FateOf(w'.server, w'.users[k], env) == FateOf(w.server, w.users[k], env)
            && w'.server == Passes(w, k, env, Stage(w, k, env)).server
  {
    var fate := FateOf(w.server, w.users[k], env);
    assert Good(w, k, env, fate);
    PassesSettle(w, k, env, n, fate);
    assert Good(Passes(w, k, env, n), k, env, fate);
  }

  /**
   * Convergence: from a well-formed state, as many quiet passes as the stage says (at most seven), or any
   * number more, leave the server as the unchanged specification asks: TLS included if and only if the
   * object has an identification or the account's TLS is as specified already, and nothing held on all
   * schemas if and only if nothing was or a REVOKE is due; no pass after those sends a writing statement.
   */
  lemma Converges(w: World, k: Key, env: Env, n: nat)
    requires WellFormed(w, k, env) && AllSucceed(env) && n >= Stage(w, k, env)
    ensures Stage(w, k, env) <= 7
    ensures MatchesInPart(Passes(w, k, env, n), k, env) && Passes(w, k, env, n).users[k].spec == w.users[k].spec
    ensures Matches(Passes(w, k, env, n), k, env) <==> TlsServed(w.server, w.users[k]) && EverywhereCleared(w.server, w.users[k], env)
    ensures Passes(w, k, env, n).server == Passes(w, k, env, Stage(w, k, env)).server
  {
    PassesReachSettled(w, k, env, n);
    SettledMatches(Passes(w, k, env, n), k, env);
  }
}
