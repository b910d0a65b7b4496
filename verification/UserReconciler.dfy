/**
 * The DatabaseUser reconciler as the source writes it: an object whose methods change the in-memory
 * resource, send statement texts to the server and write back to the API store. Every method is
 * proved equal to the corresponding step of `UserPasses`.
 */
module UserReconciler {
  import opened Basics
  import opened SqlText
  import opened SqlStatements
  import opened SqlTexts
  import opened SqlPhrases
  import opened Model
  import opened Ownership
  import opened UserPasses
  import PW = Passwords

  method Contains(a: seq<GrantLine>, x: GrantLine) returns (found: bool)
    ensures found == (x in a)
  {
    for i := 0 to |a|
      invariant x !in a[..i]
    {
      if x == a[i] {
        return true;
      }
    }
    assert a[..|a|] == a;
    return false;
  }

  method ToUpper(s: Bytes) returns (r: Bytes)
    ensures r == Upper(s)
  {
    r := [];
    for i := 0 to |s|
      invariant |r| == i
      invariant forall j :: 0 <= j < i ==> r[j] == UpperByte(s[j])
    {
      r := r + [UpperByte(s[i])];
    }
  }

  /** One more word, with the separator unless it is the first. */
  lemma {:induction false} JoinedMore(ws: seq<Bytes>, i: nat)
    requires i < |ws|
    ensures Joined(ws[..i + 1]) == (if i > 0 then Joined(ws[..i]) + Ascii(", ") else Joined(ws[..i])) + ws[i]
    decreases |ws|
  {
    assert Ascii(", ") == [COMMA, SPACE];
    if i > 0 {
      var others := ws[1..];
      JoinedMore(others, i - 1);
      assert ws[..i + 1][1..] == others[..i] && ws[..i][1..] == others[..i - 1];
      if i > 1 {
        Regrouped(ws[0], Joined(others[..i - 1]), ws[i]);
      } else {
        assert others[..0] == [];
      }
    }
  }

  lemma Regrouped(a: Bytes, b: Bytes, c: Bytes)
    ensures a + [COMMA, SPACE] + ((b + [COMMA, SPACE]) + c) == (a + [COMMA, SPACE] + b) + [COMMA, SPACE] + c
  {
  }

  lemma RefreshStep(grants: seq<GrantLine>, lines: seq<GrantLine>, i: nat)
    requires i < |lines|
    ensures Refresh(grants, lines[i..]) == Refresh(if lines[i] in grants then grants else grants + [lines[i]], lines[i + 1..])
  {
    assert lines[i..][1..] == lines[i + 1..];
  }

  /** The generated password of this pass is the one these random choices make. */
  predicate Generates(env: Env, c: PW.Choices) {
    var q := PW.Request(24, 1, 1, 1);
    PW.Possible(c, q) && env.password == Ascii(PW.Generated(c, q))
  }

  class Reconciler {
    var server: Server
    var instance: DatabaseUser
    var secret: Option<Secret>
    var users: map<Key, DatabaseUser>
    var secrets: map<Key, Secret>
    var lastVersion: nat
    const base: World
    const key: Key
    const env: Env
    const choices: PW.Choices

    /** The stored world: everything this reconciler does not write is as in `base`. */
    function State(): World
      reads this
    {
      base.(server := server, users := users, secrets := secrets, lastVersion := lastVersion)
    }

    constructor (w: World, key: Key, env: Env, choices: PW.Choices, instance: DatabaseUser)
      ensures base == w && this.key == key && this.env == env && this.choices == choices && this.instance == instance && State() == w
    {
      server := w.server;
      users := w.users;
      secrets := w.secrets;
      lastVersion := w.lastVersion;
      base := w;
      this.key := key;
      this.env := env;
      this.choices := choices;
      this.instance := instance;
      secret := None;
    }

    method RunStmt(query: Bytes, reached: bool) returns (sent: bool)
      modifies this`server
      ensures (server, sent) == Receive(old(server), UserPasses.Actor(key, instance), query, env, reached)
    {
      var r := Receive(server, UserPasses.Actor(key, instance), query, env, reached);
      server := r.0;
      sent := r.1;
    }

    method RefreshGrants(empty: bool, round: nat) returns (update: bool, ok: bool)
      modifies this`instance
      ensures (instance, update, ok) == GrantStatusUpdate(server, old(instance), empty, round, env)
    {
      var name := instance.status.username;
      if empty {
        instance := Tracking(instance, []);
      }
      update := false;
      if !env.ok(ShowGrants(round)) || name !in server.accounts {
        instance := Tracking(instance, instance.status.grants);
        return false, false;
      }
      ghost var known := instance.status.grants;
      ghost var lines := Lines(server.accounts[name].privileges, name, env);
      var results := [GrantLine([], {}, name)] + Lines(server.accounts[name].privileges, name, env);
      for i := 0 to |results|
        invariant instance == Tracking(old(instance), instance.status.grants)
        invariant i == 0 ==> instance.status.grants == known
        invariant i > 0 ==> Refresh(known, lines) == Refresh(instance.status.grants, lines[i - 1..])
        invariant known <= instance.status.grants
        invariant update <==> |instance.status.grants| > |known|
      {
        if i > 0 {
          var found := Contains(instance.status.grants, results[i]);
          RefreshStep(instance.status.grants, lines, i - 1);
          if !found {
            update := true;
            instance := Tracking(instance, instance.status.grants + [results[i]]);
          }
        }
      }
      assert lines[|lines|..] == [];
      return update, true;
    }

    method UserDetailString(create: bool) returns (fragment: Bytes, ok: bool)
      modifies this`instance
      ensures ok == DetailsFor(old(instance), secret, create, env).Some?
      ensures !ok ==> instance == old(instance)
      ensures ok ==> fragment == Tail(DetailTokens(DetailsFor(old(instance), secret, create, env).value.0))
      ensures ok ==> instance == DetailsFor(old(instance), secret, create, env).value.1
    {
      fragment := [];
      if instance.spec.identification.None? {
        return [], true;
      }
      var id := instance.spec.identification.value;
      if id.authString.None? || secret.None? || !env.ok(ReadAuthString) || id.authString.value.key !in secret.value.data {
        return [], false;
      }
      var auth := secret.value.data[id.authString.value.key];
      var passwordUpdated := instance.status.identificationVersion != secret.value.version;
      var pluginsDiff := instance.status.identification.Some? &&
        id.plugin != instance.status.identification.value.plugin && id.plugin != [];
      ghost var clause, tls: Option<bool> := NoAuth, None;
      if passwordUpdated || pluginsDiff || create {
        fragment := IdentifiedClause(id, auth);
        clause := AuthFor(id, auth);
      }
      if instance.spec.tls != instance.status.tls {
        fragment := fragment + Ascii(if instance.spec.tls then " REQUIRE SSL" else " REQUIRE NONE");
        tls := Some(instance.spec.tls);
        TlsText(instance.spec.tls);
      }
      DetailText(Details(clause, tls));
      instance := instance.(status := instance.status.(identificationVersion := secret.value.version,
                                                       identification := Some(id),
                                                       tls := instance.spec.tls));
      return fragment, true;
    }

    /** The privilege words as the loop appends them. */
    method PrivilegeClause(p: Permission) returns (grantQuery: Bytes)
      ensures grantQuery == Joined(PrivilegeList(p))
    {
      if |p.grants| == 0 {
        return Ascii("ALL");
      }
      ghost var ws := PrivilegeList(p);
      grantQuery := [];
      for i := 0 to |p.grants|
        invariant grantQuery == Joined(ws[..i])
      {
        var word := ToUpper(p.grants[i]);
        JoinedMore(ws, i);
        if i > 0 {
          grantQuery := grantQuery + Ascii(", ");
        }
        grantQuery := grantQuery + word;
      }
      assert ws[..|ws|] == ws;
    }

    method GrantPermissions() returns (ok: bool)
      modifies this`server, this`instance
      ensures Outcome(server, instance, ok) == GrantAll(old(server), old(instance), key, base.databases, env)
    {
      ghost var u := instance;
      for i := 0 to |instance.spec.databaseList|
        invariant instance == u
        invariant GrantFrom(server, u, key, base.databases, i, env) == GrantFrom(old(server), u, key, base.databases, 0, env)
      {
        var permission := instance.spec.databaseList[i];
        var databaseName := Key(key.namespace, permission.database);
        if !env.ok(FetchDatabase(i)) || databaseName !in base.databases {
          return false;
        }
        var database := base.databases[databaseName];
        var mine := IsDatabaseMine(server, databaseName, database, env, i);
        if mine && database.status.name != [] {
          var words := PrivilegeClause(permission);
          var name := Escape(instance.status.username);
          var grantQuery := Ascii("GRANT ") + words + Ascii(" ON `") + database.status.name + Ascii("`.* TO '") + name + [QUOTE];
          assert grantQuery == GrantOneText(u, key, base.databases, i);
          var _ := RunStmt(grantQuery, env.ok(SendGrant(i)));
        }
      }
      instance := instance.(status := instance.status.(databaseList := instance.spec.databaseList));
      var _, shown := RefreshGrants(false, 2);
      return shown;
    }

    method RevokePermissions() returns (ok: bool)
      requires ReadsAccounts(env.reader)
      modifies this`server, this`instance
      ensures Outcome(server, instance, ok) == Revoke(old(server), old(instance), key, env)
    {
      var name := Escape(instance.status.username);
      assert env.reader(SqlTexts.RevokeText(instance.status.username)) == Some(OnAccount(RevokeAll(instance.status.username)));
      var sent := RunStmt(Ascii("REVOKE ALL PRIVILEGES, GRANT OPTION FROM '") + name + [QUOTE], env.ok(SendRevoke));
      if !sent {
        return false;
      }
      instance := instance.(status := instance.status.(databaseList := []));
      var _, shown := RefreshGrants(true, 1);
      return shown;
    }

    method SaveManagedUser(saved: bool)
      modifies this`server
      ensures server == SaveUserRow(old(server), key, instance, saved)
    {
      if saved {
        server := server.(managedUsers := server.managedUsers[instance.uid := Row(key, instance.spec.username)]);
      }
    }

    method SendCreateUser(fragment: Bytes, ghost d: Details) returns (sent: bool)
      requires fragment == Tail(DetailTokens(d)) && ReadsAccounts(env.reader)
      modifies this`server
      ensures (server, sent) == Send(old(server), key, instance, CreateUser(instance.status.username, d), env.ok(SendCreate))
    {
      var name := Escape(instance.status.username);
      assert env.reader(CreateUserText(instance.status.username, d)) == Some(OnAccount(CreateUser(instance.status.username, d)));
      sent := RunStmt(Ascii("CREATE USER '") + name + [QUOTE] + fragment, env.ok(SendCreate));
    }

    method CreateAccount() returns (ok: bool)
      requires ReadsAccounts(env.reader)
      modifies this`server, this`instance
      ensures Outcome(server, instance, ok) == UserCreate(old(server), old(instance), key, base.databases, secret, env)
    {
      ghost var u := instance;
      ghost var details := DetailsFor(u, secret, true, env);
      var fragment, built := UserDetailString(true);
      if !built {
        return false;
      }
      var sent := SendCreateUser(fragment, details.value.0);
      if !sent {
        return false;
      }
      instance := Tracking(instance, []);
      ok := GrantPermissions();
      SaveManagedUser(env.ok(SaveCreatedRow));
    }

    method UpdateAccount() returns (ok: bool)
      requires ReadsAccounts(env.reader)
      modifies this`server, this`instance
      ensures Outcome(server, instance, ok) == UserUpdate(old(server), old(instance), key, base.databases, secret, env)
    {
      if instance.spec.username != instance.status.username {
        ok := RenameAccount();
        return;
      }
      var name := Escape(instance.status.username);
      ghost var details := DetailsFor(instance, secret, false, env);
      var fragment, built := UserDetailString(false);
      if !built {
        return false;
      }
      DetailText(details.value.0);
      if fragment != [] {
        assert env.reader(AlterUserText(instance.status.username, details.value.0))
            == Some(OnAccount(AlterUser(instance.status.username, details.value.0)));
        ok := RunStmt(Ascii("ALTER USER '") + name + [QUOTE] + fragment, env.ok(SendAlter));
        return;
      }
      ok := SynchronizePermissions();
    }

    method RenameAccount() returns (ok: bool)
      requires ReadsAccounts(env.reader)
      modifies this`server, this`instance
      ensures Outcome(server, instance, ok) == Rename(old(server), old(instance), key, env)
    {
      var name := Escape(instance.status.username);
      var target := Escape(instance.spec.username);
      assert env.reader(RenameUserText(instance.status.username, instance.spec.username))
          == Some(OnAccount(RenameUser(instance.status.username, instance.spec.username)));
      var sent := RunStmt(Ascii("RENAME USER '") + name + [QUOTE] + (Ascii(" TO '") + target + [QUOTE]), env.ok(SendRename));
      if !sent {
        return false;
      }
      instance := instance.(status := instance.status.(username := instance.spec.username));
      SaveManagedUser(env.ok(SaveRenamedRow));
      return true;
    }

    method SynchronizePermissions() returns (ok: bool)
      requires ReadsAccounts(env.reader)
      modifies this`server, this`instance
      ensures Outcome(server, instance, ok) == UpdatePermissions(old(server), old(instance), key, base.databases, env)
    {
      var permsDiff, shown := RefreshGrants(false, 0);
      if !shown {
        return false;
      }
      if !permsDiff && |instance.status.grants| == |instance.spec.databaseList| && instance.spec.databaseList == instance.status.databaseList {
        return true;
      }
      ok := true;
      if |instance.status.grants| > 0 {
        ok := RevokePermissions();
      }
      if ok {
        ok := GrantPermissions();
      }
    }

    method DropAccount()
      requires ReadsAccounts(env.reader)
      modifies this`server
      ensures server == FinalizeUser(old(server), instance, key, env)
    {
      var name := Escape(instance.status.username);
      assert env.reader(DropUserText(instance.status.username)) == Some(OnAccount(DropUser(instance.status.username)));
      var _ := RunStmt(Ascii("DROP USER IF EXISTS '") + name + [QUOTE], env.ok(SendDrop));
      if env.ok(DeleteRow) {
        server := server.(managedUsers := server.managedUsers - {instance.uid});
      }
    }

    method UserExists() returns (found: bool)
      modifies this`instance
      ensures found == Seen(server, old(instance), env)
      ensures instance == UserPasses.Observed(server, old(instance), env)
    {
      if !AccountSeen(server, instance.status.username, env, 1, 0) {
        return false;
      }
      var plugin := server.accounts[instance.status.username].auth.plugin;
      if instance.status.identification.None? {
        instance := instance.(status := instance.status.(identification := Some(Identification(plugin, None, false))));
      } else {
        instance := instance.(status := instance.status.(identification := Some(instance.status.identification.value.(plugin := plugin))));
      }
      return true;
    }

    method ReconcileDeletion()
      requires ReadsAccounts(env.reader)
      requires State() == base
      requires key in users && users[key].deleting
      modifies this
      ensures State() == DeletionPass(base, key, env)
    {
      instance := users[key];
      if instance.finalizer {
        if !env.connect {
          return;
        }
        var mine := IsUserMine(server, key, instance, env, 0);
        if mine {
          DropAccount();
        }
        if env.ok(UpdateFinalizer) {
          users := users - {key};
        }
      }
    }

    /** Fetches the referenced secret, creating it with a generated password when there is none. */
    method GetOrCreateSecret() returns (ok: bool)
      requires State() == base && Generates(env, choices)
      modifies this`secret, this`secrets, this`lastVersion
      ensures ok == WithSecret(base, key, instance, env).Some?
      ensures !ok ==> State() == base
      ensures ok ==> State() == WithSecret(base, key, instance, env).value
      ensures ok ==> secret == SecretOf(State(), key, instance)
    {
      secret := None;
      if instance.spec.identification.Some? && instance.spec.identification.value.authString.Some? {
        var ref := instance.spec.identification.value.authString.value;
        var name := Key(key.namespace, ref.name);
        if !env.ok(GetSecret) {
          return false;
        }
        if name !in secrets {
          if !env.ok(CreateSecret) {
            return false;
          }
          var password := PW.GeneratePassword(PW.Request(24, 1, 1, 1), choices);
          lastVersion := lastVersion + 1;
          secrets := secrets[name := Secret(map[ref.key := Ascii(password)], None, lastVersion)];
        }
        secret := Some(secrets[name]);
      }
      return true;
    }

    method TakeOwnership()
      requires instance.spec.identification.Some? && instance.spec.identification.value.authString.Some?
      requires secret == SecretOf(State(), key, instance) && secret.Some?
      modifies this`secret, this`secrets, this`lastVersion
      ensures State() == TakeSecret(old(State()), key, instance, env)
      ensures secret == SecretOf(State(), key, instance)
    {
      var name := Key(key.namespace, instance.spec.identification.value.authString.value.name);
      if secret.value.controller == None && env.ok(UpdateSecret) {
        lastVersion := lastVersion + 1;
        secret := Some(secret.value.(controller := Some(instance.uid), version := lastVersion));
        secrets := secrets[name := secret.value];
      }
    }

    method ReconcileServer()
      requires ReadsAccounts(env.reader)
      requires key in users && instance == users[key]
      requires secret == SecretOf(State(), key, instance)
      modifies this`server, this`instance, this`users
      ensures State() == ServerPass(old(State()), key, env)
    {
      var ok := true;
      var found := UserExists();
      if !found {
        ok := CreateAccount();
      } else {
        var mine := IsUserMine(server, key, instance, env, 2);
        if mine {
          ok := UpdateAccount();
        }
      }
      if ok && env.ok(UpdateStatus) {
        users := users[key := instance];
      }
    }

    /**
     * The whole pass equals its specification, for every world and every pattern of failing calls, on a
     * server that reads the account statements as the language defines them.
     */
    method Reconcile()
      requires ReadsAccounts(env.reader)
      requires State() == base && Generates(env, choices)
      modifies this
      ensures State() == UserPass(base, key, env)
    {
      if key !in users {
        return;
      }
      instance := users[key];
      if instance.deleting {
        ReconcileDeletion();
        return;
      }
      if !env.connect {
        return;
      }
      var ok := GetOrCreateSecret();
      if !ok {
        return;
      }
      var mine := IsUserMine(server, key, instance, env, 0);
      if instance.status.username == [] && mine {
        instance := instance.(status := instance.status.(username := instance.spec.username));
        if env.ok(UpdateStatus) {
          users := users[key := instance];
        }
      } else if secret.Some? && secret.value.controller != Some(instance.uid) {
        TakeOwnership();
      } else if !instance.finalizer {
        instance := instance.(finalizer := true);
        if env.ok(UpdateFinalizer) {
          users := users[key := instance];
        }
      } else if instance.status.username != [] {
        ReconcileServer();
      }
    }
  }

  method IdentifiedClause(id: Identification, auth: Bytes) returns (fragment: Bytes)
    ensures fragment == Tail(AuthTokens(AuthFor(id, auth)))
  {
    fragment := [];
    var authString := Escape(auth);
    var authPlugin := Escape(id.plugin);
    EscapedEmpty(auth);
    EscapedEmpty(id.plugin);
    if authPlugin != [] {
      fragment := Ascii(" IDENTIFIED WITH '") + authPlugin + [QUOTE];
      WithPluginText(id.plugin);
      if authString != [] {
        fragment := fragment + (Ascii(if id.clearText then " BY '" else " AS '") + authString + [QUOTE]);
        WithPluginAuthText(id.plugin, !id.clearText, auth);
      }
    } else if authString != [] {
      fragment := Ascii(if id.clearText then " IDENTIFIED BY '" else " IDENTIFIED BY PASSWORD '") + authString + [QUOTE];
      ByAuthText(!id.clearText, auth);
    }
  }
}
