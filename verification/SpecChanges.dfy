/** From the moment an object is created or edited to the server in agreement with it. */
module SpecChanges {
  import opened Basics
  import opened Model
  import opened Ownership
  import opened Runs
  import opened UserConvergence
  import opened SqlText
  import opened SqlTexts
  import opened Grants
  import opened GrantConvergence
  import UP = UserPasses
  import DP = DatabaseReconciler
  import DS = DatabaseSafety
  import DC = DatabaseConvergence
  import opened Charsets
  import opened Descent

  /** What a specification needs from the world: grantable databases, and a secret that is absent or free to take. */
  ghost predicate Servable(w: World, k: Key, u: DatabaseUser) {
    && DatabasesReady(w.server, w.databases, k, u.spec.databaseList)
    && (u.spec.identification.Some? ==> u.spec.identification.value.authString.Some?)
    && (UP.SecretOf(w, k, u).Some? ==>
          var secret := UP.SecretOf(w, k, u).value;
          && secret.controller == None && secret.version <= w.lastVersion
          && u.spec.identification.value.authString.value.key in secret.data)
  }

  /**
   * A new object that asks for a free name is served within seven passes; TLS is, if and only if the
   * object has an identification or does not ask for it.
   */
  lemma NewObjectConverges(w: World, k: Key, uid: Uid, spec: UserSpec, env: Env, n: nat)
    requires k !in w.users && uid !in w.uids
    requires spec.username != [] && spec.username !in w.server.accounts
    requires Servable(w, k, DatabaseUser(uid, spec, NEW_USER_STATUS, false, false))
    requires AllSucceed(env) && n >= 7
    ensures var w1 := ObjectStep(w, CreateUserObject(k, uid, spec));
            var w2 := Passes(w1, k, env, n);
            && MatchesInPart(w2, k, env) && w2.users[k].spec == spec
            && w2.server.accounts[spec.username].everywhere == {}
            && (Matches(w2, k, env) <==> spec.identification.Some? || !spec.tls)
            && WellFormed(w2, k, env) && Stage(w2, k, env) == 0
  {
    var w1 := ObjectStep(w, CreateUserObject(k, uid, spec));
    assert w1.users[k] == DatabaseUser(uid, spec, NEW_USER_STATUS, false, false) && w1.server == w.server;
    assert WellFormed(w1, k, env);
    PassesReachSettled(w1, k, env, n);
    SettledMatches(Passes(w1, k, env, n), k, env);
  }

  /**
   * A new Database object that the webhook admits against the server's own rows is served within three
   * passes if and only if its name holds no back-tick.
   */
  lemma NewDatabaseConverges(w: World, k: Key, uid: Uid, spec: DatabaseSpec, a: AdminStatus, rows: seq<CollationRow>, env: Env, n: nat)
    requires Inv(w) && k !in w.databases && uid !in w.uids && spec.name !in w.server.schemas
    requires IsIndex(a.availableCharsets, rows) && DC.CatalogMatches(w.server.catalog, rows) && DC.DefaultsOk(w.server.catalog)
    requires spec.connection != [] && Admits(ValidateCreate(spec, Found(a)))
    requires AllSucceed(env) && n >= 3
    ensures var w1 := ObjectStep(w, CreateDatabaseObject(k, uid, spec, Found(a)));
            DC.Matches(Iterate(DC.PassOf(k, env), w1, n), k) <==> Quotable(spec.name)
  {
    var w1 := ObjectStep(w, CreateDatabaseObject(k, uid, spec, Found(a)));
    NameOkNonempty(spec.name);
    DC.AdmittedIsCompatible(w.server.catalog, spec, a, rows);
    if Quotable(spec.name) {
      assert DC.Good(w1, k, env);
      DC.Converges(w1, k, env, n);
    } else {
      AbsentForever(w1, k, spec.name, env, n);
    }
  }

  /** The object asks for this name, and no schema has it. */
  ghost predicate Absent(w: World, k: Key, name: Bytes) {
    k in w.databases && w.databases[k].spec.name == name && !w.databases[k].deleting && name !in w.server.schemas
  }

  /**
   * A Database object that is served can be granted: a permission of its namespace that names it gives
   * exactly the words it asks for, on the schema of the specified name and on no other.
   */
  lemma ServedIsGrantable(w: World, dk: Key, k: Key, p: Permission)
    requires DC.Matches(w, dk) && w.databases[dk].spec.name != [] && dk == Key(k.namespace, p.database)
    ensures UP.Grantable(w.server, w.databases, k, p)
    ensures forall schema, word :: Gives(w.server, w.databases, k, p, schema, word) <==>
              schema == w.databases[dk].spec.name && Asked(p, word)
  {
  }

  /** No pass makes a schema of a name that cannot be quoted. */
  lemma AbsentForever(w: World, k: Key, name: Bytes, env: Env, n: nat)
    requires Absent(w, k, name) && !Quotable(name) && Literate(env.reader)
    ensures Absent(Iterate(DC.PassOf(k, env), w, n), k, name)
  {
    forall x: World | Absent(x, k, name) ensures Absent(DP.DatabasePass(x, k, env), k, name) {
      AbsentStays(x, k, name, env);
    }
    KeptBy(DC.PassOf(k, env), AbsentOf(k, name), w, n);
  }

  ghost function AbsentOf(k: Key, name: Bytes): World -> bool { (x: World) => Absent(x, k, name) }

  lemma AbsentStays(w: World, k: Key, name: Bytes, env: Env)
    requires Absent(w, k, name) && !Quotable(name) && Literate(env.reader)
    ensures Absent(DP.DatabasePass(w, k, env), k, name)
  {
    var d := w.databases[k];
    var d1 := DP.Started(w.server, d, env);
    var r := env.reader(DP.CreateText(d1));
    assert ReadAsCreate(r, name, d.spec.characterSet, d.spec.collate);
    DatabaseLiveCases(w, k, env);
    DC.ConvergeKeepsObject(w.server, k, d, env);
    if r.Some? {
      DS.CreateExec(w.server, DP.Actor(k, d1), r.value, env.ok(SendCreate));
    }
  }

  /** The specification still uses the recorded version of the secret as before, perhaps with another plugin. */
  predicate SameUse(u: DatabaseUser, spec: UserSpec) {
    match u.spec.identification
    case None => spec.identification == None
    case Some(id) =>
      && spec.identification.Some? && spec.identification.value.(plugin := id.plugin) == id
      && (id.plugin == [] ==> spec.identification.value.plugin == [])
  }

  /** Its secret, if it has one, is yet to be made or is of a version the status has not recorded. */
  predicate NewSecret(w: World, k: Key, u: DatabaseUser) {
    UP.SecretOf(w, k, u).Some? ==> UP.SecretOf(w, k, u).value.version != u.status.identificationVersion
  }

  /**
   * The edits a settled object takes up: another name, other databases, another plugin, TLS on or off,
   * another secret, an identification added or taken away.
   */
  ghost predicate Tractable(w: World, k: Key, u: DatabaseUser, spec: UserSpec) {
    && spec.username != []
    && (spec.username != u.spec.username ==>
          spec.username !in w.server.accounts && forall g :: g in u.status.grants ==> g.grantee != spec.username)
    && DatabasesReady(w.server, w.databases, k, spec.databaseList)
    && SecretReady(w, k, u.(spec := spec))
    && (SameUse(u, spec) || NewSecret(w, k, u.(spec := spec)))
    && (u.spec.identification.None? && u.spec.username in w.server.accounts ==> w.server.accounts[u.spec.username].tls == u.status.tls)
  }

  /** The world after the edit. */
  function Respecified(w: World, k: Key, spec: UserSpec): World
    requires k in w.users
  {
    w.(users := w.users[k := w.users[k].(spec := spec)])
  }

  lemma EditIs(w: World, k: Key, spec: UserSpec)
    requires k in w.users && spec.username != []
    ensures ObjectStep(w, EditUserObject(k, spec)) == Respecified(w, k, spec)
  {
  }

  lemma EditedWellFormed(w: World, k: Key, spec: UserSpec, env: Env)
    requires WellFormed(w, k, env) && AllSucceed(env) && Stage(w, k, env) == 0
    requires Tractable(w, k, w.users[k], spec)
    ensures WellFormed(Respecified(w, k, spec), k, env)
  {
    var u, s := w.users[k], w.server;
    var u' := u.(spec := spec);
    SettledMatches(w, k, env);
    EditedMine(s, k, u, spec);
    EditedGrants(w, k, spec, env);
    EditedAuth(w, k, spec, env);
    assert UP.SecretOf(Respecified(w, k, spec), k, u') == UP.SecretOf(w, k, u');
  }

  lemma EditedMine(s: Server, k: Key, u: DatabaseUser, spec: UserSpec)
    requires UserMine(s, k, u) && u.status.username == u.spec.username && AccountExists(s, u.spec.username)
    requires spec.username != u.spec.username ==> spec.username !in s.accounts
    ensures UserMine(s, k, u.(spec := spec))
  {
    BothNamed(u);
    forall n | n in Names(u.(spec := spec)) && AccountExists(s, n) ensures RowIs(s.managedUsers, u.uid, k, n) {
      assert n == u.status.username;
    }
  }

  lemma EditedAuth(w: World, k: Key, spec: UserSpec, env: Env)
    requires WellFormed(w, k, env) && AllSucceed(env) && Stage(w, k, env) == 0
    requires Tractable(w, k, w.users[k], spec)
    ensures AuthTruth(w.server, w.users[k].(spec := spec), UP.SecretOf(w, k, w.users[k].(spec := spec)))
  {
    var u := w.users[k];
    SettledMatches(w, k, env);
    if SameUse(u, spec) {
      assert UP.SecretOf(w, k, u.(spec := spec)) == UP.SecretOf(w, k, u);
    }
  }

  /** The recorded list is the old one: it equals the edited one only when that is the old one too. */
  lemma EditedGrants(w: World, k: Key, spec: UserSpec, env: Env)
    requires WellFormed(w, k, env) && AllSucceed(env) && Stage(w, k, env) == 0
    requires Tractable(w, k, w.users[k], spec)
    ensures GrantsTruth(w.server, w.users[k].(spec := spec), w.databases, k, env)
  {
    var u, s := w.users[k], w.server;
    var u' := u.(spec := spec);
    if !GrantsPending(s, u', env) {
      assert u.status.databaseList == u.spec.databaseList == spec.databaseList;
    }
  }

  lemma EditedServed(w: World, k: Key, spec: UserSpec, env: Env)
    requires WellFormed(w, k, env) && AllSucceed(env) && Stage(w, k, env) == 0
    ensures var u := w.users[k];
            && AccountExists(w.server, u.spec.username) && u.status.username == u.spec.username
            && (TlsServed(w.server, u.(spec := spec)) <==>
                  spec.identification.Some? || w.server.accounts[u.spec.username].tls == spec.tls)
  {
    SettledMatches(w, k, env);
  }

  /** The edit that makes a pass send a REVOKE: databases were listed, and they or the name are edited. */
  predicate RevokingEdit(u: DatabaseUser, spec: UserSpec) {
    u.spec.databaseList != [] && (spec.databaseList != u.spec.databaseList || spec.username != u.spec.username)
  }

  /** Granting something leaves the account holding something by name. */
  lemma ListedHolds(s: Server, databases: map<Key, Database>, k: Key, u: DatabaseUser)
    requires u.spec.databaseList != [] && DatabasesReady(s, databases, k, u.spec.databaseList)
    requires u.spec.username in s.accounts && ExactGrants(s, u.spec.username, databases, k, u)
    ensures s.accounts[u.spec.username].privileges != map[]
  {
    var perms := u.spec.databaseList;
    var name := databases[UP.Listed(k, perms[0])].status.name;
    var word := UP.PrivilegeList(perms[0])[0];
    GivesAsGranted(s, databases, k, perms[0], name, word);
    assert Entitled(s, databases, k, perms, 0, name, word) && Holds(s, u.spec.username, name, word);
  }

  /** A settled object's list is that of its lines, and it is as long as the specified one. */
  lemma SettledList(w: World, k: Key, env: Env)
    requires WellFormed(w, k, env) && AllSucceed(env) && Stage(w, k, env) == 0
    ensures var u := w.users[k];
            && AccountExists(w.server, u.spec.username)
            && var p := w.server.accounts[u.spec.username].privileges;
               && Known(w.server, u, env) == u.status.grants && |u.status.grants| == |u.spec.databaseList|
               && u.status.databaseList == u.spec.databaseList
               && Known(w.server, u, env) == UP.Refresh(u.status.grants, UP.Lines(p, u.spec.username, env))
               && (u.spec.databaseList == [] <==> p == map[])
  {
    var u := w.users[k];
    SettledMatches(w, k, env);
    if u.spec.databaseList == [] {
      EmptyListMeansNoNames(w.server, u, env);
    } else {
      ListedHolds(w.server, w.databases, k, u);
    }
  }

  lemma EditedCleared(w: World, k: Key, spec: UserSpec, env: Env)
    requires WellFormed(w, k, env) && AllSucceed(env) && Stage(w, k, env) == 0
    requires Tractable(w, k, w.users[k], spec)
    ensures AccountExists(w.server, w.users[k].spec.username)
    ensures EverywhereCleared(w.server, w.users[k].(spec := spec), env) <==>
              w.server.accounts[w.users[k].spec.username].everywhere == {} || RevokingEdit(w.users[k], spec)
  {
    var u := w.users[k];
    SettledList(w, k, env);
    RenamedList(w, k, spec, env);
  }

  /** What the list becomes under the edited name. */
  lemma RenamedList(w: World, k: Key, spec: UserSpec, env: Env)
    requires WellFormed(w, k, env) && AllSucceed(env) && Stage(w, k, env) == 0
    requires Tractable(w, k, w.users[k], spec)
    ensures AccountExists(w.server, w.users[k].status.username)
    ensures RevokeDue(w.server, w.users[k].(spec := spec), env) <==> RevokingEdit(w.users[k], spec)
  {
    var u := w.users[k];
    SettledList(w, k, env);
    var p := w.server.accounts[u.spec.username].privileges;
    var lines := UP.Lines(p, spec.username, env);
    LinesDistinct(p, spec.username, env);
    RefreshTracks(u.status.grants, lines);
    RefreshGrows(u.status.grants, lines);
    if spec.username != u.spec.username && lines != [] {
      assert lines[0].grantee == spec.username && lines[0] !in u.status.grants;
    }
  }

  /**
   * A settled object that is edited settles again within seven passes, on the edited specification: TLS
   * included if and only if that has an identification or the account's TLS is as it asks, and nothing
   * held on all schemas if and only if nothing was or the edit makes a pass revoke.
   */
  lemma EditedObjectConverges(w: World, k: Key, spec: UserSpec, env: Env, n: nat)
    requires WellFormed(w, k, env) && AllSucceed(env) && Stage(w, k, env) == 0
    requires Tractable(w, k, w.users[k], spec) && n >= 7
    ensures AccountExists(w.server, w.users[k].spec.username)
    ensures var w1 := ObjectStep(w, EditUserObject(k, spec));
            var w2 := Passes(w1, k, env, n);
            var a := w.server.accounts[w.users[k].spec.username];
            && MatchesInPart(w2, k, env) && w2.users[k].spec == spec
            && (Matches(w2, k, env) <==>
                  (spec.identification.Some? || a.tls == spec.tls) && (a.everywhere == {} || RevokingEdit(w.users[k], spec)))
  {
    EditedWellFormed(w, k, spec, env);
    EditIs(w, k, spec);
    EditedServed(w, k, spec, env);
    EditedCleared(w, k, spec, env);
    Converges(Respecified(w, k, spec), k, env, n);
  }

  /** A secret written anew, with the key still in it, reaches the account within seven passes. */
  lemma RotatedSecretConverges(w: World, k: Key, data: map<Bytes, Bytes>, env: Env, n: nat)
    requires WellFormed(w, k, env) && AllSucceed(env) && Stage(w, k, env) == 0
    requires UP.SecretKey(k, w.users[k]).Some? && w.users[k].spec.identification.value.authString.value.key in data && n >= 7
    ensures AccountExists(w.server, w.users[k].spec.username)
    ensures var u := w.users[k];
            var w2 := Passes(ObjectStep(w, WriteSecret(UP.SecretKey(k, u).value, data)), k, env, n);
            && MatchesInPart(w2, k, env) && w2.users[k].spec == u.spec
            && (Matches(w2, k, env) <==> w.server.accounts[u.spec.username].everywhere == {})
  {
    var u := w.users[k];
    var w1 := ObjectStep(w, WriteSecret(UP.SecretKey(k, u).value, data));
    SettledMatches(w, k, env);
    RotatedWellFormed(w, k, data, env);
    Converges(w1, k, env, n);
  }

  lemma RotatedWellFormed(w: World, k: Key, data: map<Bytes, Bytes>, env: Env)
    requires WellFormed(w, k, env) && AllSucceed(env) && Stage(w, k, env) == 0
    requires UP.SecretKey(k, w.users[k]).Some? && w.users[k].spec.identification.value.authString.value.key in data
    ensures var w1 := ObjectStep(w, WriteSecret(UP.SecretKey(k, w.users[k]).value, data));
            && WellFormed(w1, k, env) && w1.users == w.users && w1.server == w.server && w1.databases == w.databases
  {
    var u := w.users[k];
    var w1 := ObjectStep(w, WriteSecret(UP.SecretKey(k, u).value, data));
    assert UP.SecretOf(w1, k, u).value.version == w.lastVersion + 1 && UP.SecretOf(w1, k, u).value.data == data;
  }

  // ---------------------------------------------------------------- edits that are not taken up

  /** A pass over this object finds nothing to do, whether or not the account is as specified. */
  ghost predicate Idle(w: World, k: Key, env: Env) {
    && AllSucceed(env) && k in w.users && !w.users[k].deleting && w.users[k].finalizer
    && var u, s := w.users[k], w.server;
       && AccountExists(s, u.spec.username) && u.status.username == u.spec.username && UserMine(s, k, u)
       && (UP.SecretKey(k, u).Some? ==> UP.SecretOf(w, k, u).Some?)
       && UP.SecretOwnershipOk(UP.SecretOf(w, k, u), u)
       && UP.DetailsFor(u, UP.SecretOf(w, k, u), false, env).Some?
       && !AuthPending(s, u, UP.SecretOf(w, k, u), env) && !GrantsPending(s, u, env)
  }

  /** Still so, and only the status of the object is another than in `w`. */
  ghost predicate IdleSince(w: World, w1: World, k: Key, env: Env)
    requires k in w.users
  {
    && Idle(w1, k, env) && w1.server == w.server && w1.secrets == w.secrets && w1.databases == w.databases
    && w1.users[k].spec == w.users[k].spec && w1.users[k].uid == w.users[k].uid
  }

  ghost function IdleSinceOf(w: World, k: Key, env: Env): World -> bool
    requires k in w.users
  {
    (x: World) => IdleSince(w, x, k, env)
  }

  lemma IdlePass(w: World, k: Key, env: Env)
    requires Idle(w, k, env)
    ensures IdleSince(w, UP.UserPass(w, k, env), k, env)
  {
    var u, s := w.users[k], w.server;
    var secret := UP.SecretOf(w, k, u);
    var u1 := UP.Observed(s, u, env);
    assert Names(u1) == Names(u);
    DecidesTruly(s, k, u, env, 0);
    DecidesTruly(s, k, u1, env, 2);
    var u2 := UP.DetailsFor(u1, secret, false, env).value.1;
    IdleGrants(s, u, u2, env);
    assert UP.Converge(s, u, k, w.databases, secret, env) == UP.Outcome(s, u2, true);
    assert UP.UserPass(w, k, env) == UP.StoreUser(w, k, u2);
    assert Names(u2) == Names(u);
  }

  lemma IdleGrants(s: Server, u: DatabaseUser, u2: DatabaseUser, env: Env)
    requires AllSucceed(env) && AccountExists(s, u.status.username) && !GrantsPending(s, u, env)
    requires u2.spec == u.spec && u2.status.username == u.status.username
    requires u2.status.grants == u.status.grants && u2.status.databaseList == u.status.databaseList
    ensures !GrantsPending(s, u2, env)
    ensures UP.GrantStatusUpdate(s, u2, false, 0, env) == (u2, false, true)
  {
  }

  lemma IdleForever(w: World, k: Key, env: Env, n: nat)
    requires Idle(w, k, env)
    ensures IdleSince(w, Passes(w, k, env, n), k, env)
  {
    forall x: World | IdleSince(w, x, k, env) ensures IdleSince(w, UP.UserPass(x, k, env), k, env) {
      IdlePass(x, k, env);
    }
    KeptBy(PassOf(k, env), IdleSinceOf(w, k, env), w, n);
  }

  /**
   * The object asks for another way of using the secret version it has recorded: another key, or clear
   * text instead of a hash or the reverse.
   */
  ghost predicate SameSecret(w: World, k: Key, u: DatabaseUser, id: Identification) {
    && u.spec.identification.Some? && id.plugin == u.spec.identification.value.plugin
    && id.authString.Some? && u.spec.identification.value.authString.Some?
    && id.authString.value.name == u.spec.identification.value.authString.value.name
    && UP.SecretOf(w, k, u).Some? && id.authString.value.key in UP.SecretOf(w, k, u).value.data
    && u.status.identificationVersion == UP.SecretOf(w, k, u).value.version
  }

  lemma EditedIdle(w: World, k: Key, id: Identification, env: Env)
    requires WellFormed(w, k, env) && AllSucceed(env) && Stage(w, k, env) == 0
    requires SameSecret(w, k, w.users[k], id)
    ensures Idle(Respecified(w, k, w.users[k].spec.(identification := Some(id))), k, env)
  {
    var u := w.users[k];
    var w1 := Respecified(w, k, w.users[k].spec.(identification := Some(id)));
    SettledMatches(w, k, env);
    BothNamed(u);
    assert Names(w1.users[k]) == Names(u);
    assert UP.SecretOf(w1, k, w1.users[k]) == UP.SecretOf(w, k, u);
  }

  /** The two uses of one secret give the same credential, or the new one asks for none where none was set. */
  predicate SameCredential(id0: Identification, auth0: Bytes, id1: Identification, auth1: Bytes) {
    if auth1 == [] then id1.plugin == [] || auth0 == [] else auth0 == auth1 && id0.clearText == id1.clearText
  }

  /**
   * Only a new version of the secret or another plugin makes a pass send the credential. An edit of the
   * key or of clear text alone reaches the account, after however many passes, exactly when it makes no
   * difference to the credential; for an object that has set neither plugin nor credential so far,
   * exactly when it sets none now or the account happens to have it. Nothing is revoked by it either.
   */
  lemma IdentificationEdit(w: World, k: Key, id: Identification, env: Env, n: nat)
    requires WellFormed(w, k, env) && AllSucceed(env) && Stage(w, k, env) == 0
    requires SameSecret(w, k, w.users[k], id)
    ensures var u := w.users[k];
            var id0 := u.spec.identification.value;
            var data := UP.SecretOf(w, k, u).value.data;
            var w1 := ObjectStep(w, EditUserObject(k, u.spec.(identification := Some(id))));
            && id0.authString.value.key in data
            && var auth0, auth1 := data[id0.authString.value.key], data[id.authString.value.key];
               Matches(Passes(w1, k, env, n), k, env) <==>
                 && w.server.accounts[u.spec.username].everywhere == {}
                 && if auth0 != [] || id0.plugin != [] then SameCredential(id0, auth0, id, auth1)
                 else auth1 == [] || w.server.accounts[u.spec.username].auth.credential == Some(CredentialOf(!id.clearText, auth1))
  {
    var u := w.users[k];
    SettledAuth(w, k, env);
    EditedMatches(w, k, id, env, n);
    EditIs(w, k, u.spec.(identification := Some(id)));
    CredentialDecides(w.server.accounts[u.spec.username], u.spec.identification.value,
                      UP.SecretOf(w, k, u).value.data[u.spec.identification.value.authString.value.key],
                      id, UP.SecretOf(w, k, u).value.data[id.authString.value.key]);
  }

  /** After the edit nothing is sent; what is there matches or not. */
  lemma EditedMatches(w: World, k: Key, id: Identification, env: Env, n: nat)
    requires WellFormed(w, k, env) && AllSucceed(env) && Stage(w, k, env) == 0
    requires SameSecret(w, k, w.users[k], id)
    ensures var u := w.users[k];
            && u.spec.username in w.server.accounts
            && (Matches(Passes(Respecified(w, k, w.users[k].spec.(identification := Some(id))), k, env, n), k, env) <==>
                  w.server.accounts[u.spec.username].everywhere == {} && AuthMatches(w.server.accounts[u.spec.username], id, UP.SecretOf(w, k, u).value.data[id.authString.value.key]))
  {
    SettledAuth(w, k, env);
    EditedIdle(w, k, id, env);
    IdleForever(Respecified(w, k, w.users[k].spec.(identification := Some(id))), k, env, n);
    IdleMatches(w, Passes(Respecified(w, k, w.users[k].spec.(identification := Some(id))), k, env, n), k, id, env);
  }

  lemma SettledAuth(w: World, k: Key, env: Env)
    requires WellFormed(w, k, env) && AllSucceed(env) && Stage(w, k, env) == 0
    requires var u := w.users[k]; u.spec.identification.Some? && u.spec.identification.value.authString.Some? && UP.SecretOf(w, k, u).Some?
    ensures var u := w.users[k];
            var id := u.spec.identification.value;
            var data := UP.SecretOf(w, k, u).value.data;
            && id.authString.value.key in data && u.spec.username in w.server.accounts
            && AuthMatches(w.server.accounts[u.spec.username], id, data[id.authString.value.key])
            && MatchesInPart(w, k, env) && w.server.accounts[u.spec.username].tls == u.spec.tls
  {
    SettledMatches(w, k, env);
    SettledAttributes(w, k, env);
  }

  lemma IdleMatches(w: World, w2: World, k: Key, id: Identification, env: Env)
    requires AllSucceed(env) && MatchesInPart(w, k, env) && SameSecret(w, k, w.users[k], id)
    requires w.server.accounts[w.users[k].spec.username].tls == w.users[k].spec.tls
    requires Idle(w2, k, env) && w2.server == w.server && w2.secrets == w.secrets && w2.databases == w.databases
    requires w2.users[k].uid == w.users[k].uid && w2.users[k].spec == w.users[k].spec.(identification := Some(id))
    ensures var u := w.users[k];
            Matches(w2, k, env) <==>
              && w.server.accounts[u.spec.username].everywhere == {}
              && AuthMatches(w.server.accounts[u.spec.username], id, UP.SecretOf(w, k, u).value.data[id.authString.value.key])
  {
    assert UP.SecretOf(w2, k, w2.users[k]) == UP.SecretOf(w, k, w.users[k]);
  }

  lemma CredentialDecides(a: Account, id0: Identification, auth0: Bytes, id1: Identification, auth1: Bytes)
    requires AuthMatches(a, id0, auth0) && id1.plugin == id0.plugin
    ensures AuthMatches(a, id1, auth1) <==>
              if auth0 != [] || id0.plugin != [] then SameCredential(id0, auth0, id1, auth1)
              else auth1 == [] || a.auth.credential == Some(CredentialOf(!id1.clearText, auth1))
  {
  }
}
