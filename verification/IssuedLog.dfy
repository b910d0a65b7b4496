/** The log of statements only grows, whatever is sent, and a statement that strays shows in it. */
module IssuedLog {
  import opened Basics
  import opened SqlStatements
  import opened SqlTexts
  import opened Model
  import opened Safety
  import opened UserPasses
  import opened UserSafety
  import DP = DatabaseReconciler

  /** The log holds a statement about what is not its sender's. */
  ghost predicate Stained(s: Server) {
    exists i :: 0 <= i < |s.issued| && !Authorised(s.issued[i])
  }

  predicate SchemasStay(s: Server, s': Server) {
    s'.schemas == s.schemas && s'.managedDatabases == s.managedDatabases && s'.catalog == s.catalog
  }

  lemma StainStays(s: Server, s': Server)
    requires Appends(s, s') && Stained(s)
    ensures Stained(s')
  {
    var i :| 0 <= i < |s.issued| && !Authorised(s.issued[i]);
    assert s'.issued[i] == s'.issued[..|s.issued|][i];
  }

  lemma ReceiveAppends(s: Server, a: Creator, text: Bytes, env: Env, reached: bool)
    ensures Appends(s, Receive(s, a, text, env, reached).0)
    ensures Stray(s, a, text, env) ==> Stained(Receive(s, a, text, env, reached).0)
  {
    if env.reader(text).Some? {
      var s1 := Receive(s, a, text, env, reached).0;
      assert s1.issued[|s.issued|] == Entry(s, a, env.reader(text).value);
    }
  }

  // ---------------------------------------------------------------- database passes

  lemma DatabaseConvergeLogs(s: Server, k: Key, d: Database, env: Env)
    ensures var s1 := DP.Converge(s, k, d, env).0;
            var text := DP.ConvergeText(s, k, d, env);
            Appends(s, s1) && (text.Some? && Stray(s, DP.Actor(k, d), text.value, env) ==> Stained(s1))
  {
    var d1 := DP.Started(s, d, env);
    ReceiveAppends(s, DP.Actor(k, d1), DP.CreateText(d1), env, env.ok(SendCreate));
    ReceiveAppends(s, DP.Actor(k, d1), DP.AlterText(d1), env, env.ok(SendAlter));
  }

  lemma DatabasePassLogs(w: World, k: Key, env: Env)
    requires k in w.databases
    ensures var s1 := DP.DatabasePass(w, k, env).server;
            var text := DP.PassText(w.server, k, w.databases[k], env);
            Appends(w.server, s1) && (text.Some? && Stray(w.server, DP.Actor(k, w.databases[k]), text.value, env) ==> Stained(s1))
  {
    var d := w.databases[k];
    DatabaseConvergeLogs(w.server, k, d, env);
    ReceiveAppends(w.server, DP.Actor(k, d), DP.DropText(d), env, env.ok(SendDrop));
  }

  // ---------------------------------------------------------------- the grant loop

  lemma GrantOneOwners(s: Server, u: DatabaseUser, k: Key, databases: map<Key, Database>, i: nat, env: Env)
    requires i < |u.spec.databaseList| && Literate(env.reader)
    ensures var s1 := GrantOne(s, u, k, databases, i, env);
            && Appends(s, s1) && SameOwners(s, s1) && s1.schemas == s.schemas && s1.managedDatabases == s.managedDatabases
            && (GrantStrays(s, u, k, databases, i, env) ==> Stained(s1))
  {
    if DecidesGrant(s, databases, k, u.spec.databaseList[i], env, i) {
      var text := GrantOneText(u, k, databases, i);
      GrantOneReads(u, k, databases, i, env);
      ReceiveAppends(s, Actor(k, u), text, env, env.ok(SendGrant(i)));
      ReceivedOwners(s, Actor(k, u), text, env, env.ok(SendGrant(i)));
    }
  }

  lemma ReceivedOwners(s: Server, a: Creator, text: Bytes, env: Env, reached: bool)
    requires env.reader(text).Some? ==> env.reader(text).value.Grant?
    ensures var s1 := Receive(s, a, text, env, reached).0;
            SameOwners(s, s1) && s1.schemas == s.schemas && s1.managedDatabases == s.managedDatabases
  {
    if env.reader(text).Some? {
      GrantOwners(s, a, env.reader(text).value, reached);
    }
  }

  lemma GrantOwners(s: Server, a: Creator, stmt: Stmt, reached: bool)
    requires stmt.Grant?
    ensures var s1 := Exec(s, a, stmt, reached).0;
            SameOwners(s, s1) && s1.schemas == s.schemas && s1.managedDatabases == s.managedDatabases
  {
  }

  /** The loop only appends, and a GRANT that strays, once reached, shows. */
  lemma {:induction false} GrantFromLogs(s: Server, u: DatabaseUser, k: Key, databases: map<Key, Database>, i: nat, env: Env)
    requires i <= |u.spec.databaseList| && Literate(env.reader)
    ensures var s1 := GrantFrom(s, u, k, databases, i, env).0;
            Appends(s, s1) && SchemasStay(s, s1) && (LoopStrays(s, u, k, databases, i, env) ==> Stained(s1))
    decreases |u.spec.databaseList| - i
  {
    if i < |u.spec.databaseList| && Fetched(u, k, databases, i, env) {
      var s1 := GrantOne(s, u, k, databases, i, env);
      var s2 := GrantFrom(s1, u, k, databases, i + 1, env).0;
      GrantOneOwners(s, u, k, databases, i, env);
      GrantFromLogs(s1, u, k, databases, i + 1, env);
      AppendsTransitive(s, s1, s2);
      if GrantStrays(s, u, k, databases, i, env) {
        StainStays(s1, s2);
      } else if LoopStrays(s, u, k, databases, i, env) {
        LaterStrays(s, s1, u, k, databases, i, env);
      }
    }
  }

  lemma LaterStrays(s: Server, s1: Server, u: DatabaseUser, k: Key, databases: map<Key, Database>, i: nat, env: Env)
    requires i < |u.spec.databaseList| && Literate(env.reader)
    requires s1.schemas == s.schemas && s1.managedDatabases == s.managedDatabases && SameOwners(s, s1)
    requires LoopStrays(s, u, k, databases, i, env) && !GrantStrays(s, u, k, databases, i, env)
    ensures LoopStrays(s1, u, k, databases, i + 1, env)
  {
    var j :| i <= j < |u.spec.databaseList| && Reaches(u, k, databases, i, j, env) && GrantStrays(s, u, k, databases, j, env);
    assert j != i;
    StraysStays(s, s1, u, k, databases, j, env);
    assert Reaches(u, k, databases, i + 1, j, env);
  }

  lemma GrantAllLogs(s: Server, u: DatabaseUser, k: Key, databases: map<Key, Database>, env: Env)
    requires Literate(env.reader)
    ensures var s1 := GrantAll(s, u, k, databases, env).server;
            Appends(s, s1) && SchemasStay(s, s1) && (LoopStrays(s, u, k, databases, 0, env) ==> Stained(s1))
  {
    GrantFromLogs(s, u, k, databases, 0, env);
  }

  // ---------------------------------------------------------------- the parts of a user pass

  /** The step only appends and leaves the schemas alone, and if it starts a loop that strays, this shows. */
  ghost predicate Logs(s: Server, s1: Server, start: Option<(Server, DatabaseUser)>, k: Key, databases: map<Key, Database>, env: Env) {
    Appends(s, s1) && SchemasStay(s, s1) && (!StartsClean(start, k, databases, env) ==> Stained(s1))
  }

  lemma SendAppends(s: Server, k: Key, u: DatabaseUser, stmt: AccountStmt, reached: bool)
    ensures Appends(s, Send(s, k, u, stmt, reached).0) && SchemasStay(s, Send(s, k, u, stmt, reached).0)
  {
  }

  lemma LoopLogs(s: Server, s1: Server, u: DatabaseUser, k: Key, databases: map<Key, Database>, env: Env)
    requires Literate(env.reader) && Appends(s, s1) && SchemasStay(s, s1)
    ensures Logs(s, GrantAll(s1, u, k, databases, env).server, Some((s1, u)), k, databases, env)
  {
    GrantAllLogs(s1, u, k, databases, env);
    AppendsTransitive(s, s1, GrantAll(s1, u, k, databases, env).server);
  }

  lemma CreateLogs(s: Server, u: DatabaseUser, k: Key, databases: map<Key, Database>, secret: Option<Secret>, env: Env)
    requires Literate(env.reader)
    ensures Logs(s, UserCreate(s, u, k, databases, secret, env).server, CreateStart(s, u, k, secret, env), k, databases, env)
  {
    match DetailsFor(u, secret, true, env)
    case None =>
    case Some((d, u1)) =>
      var (s1, sent) := Send(s, k, u, CreateUser(u.status.username, d), env.ok(SendCreate));
      SendAppends(s, k, u, CreateUser(u.status.username, d), env.ok(SendCreate));
      if sent {
        LoopLogs(s, s1, Tracking(u1, []), k, databases, env);
        SavedLogs(s, GrantAll(s1, Tracking(u1, []), k, databases, env).server, u, k, Some((s1, Tracking(u1, []))), databases, env);
      }
  }

  lemma SavedLogs(s: Server, s1: Server, u: DatabaseUser, k: Key, start: Option<(Server, DatabaseUser)>, databases: map<Key, Database>, env: Env)
    requires Logs(s, s1, start, k, databases, env)
    ensures Logs(s, SaveUserRow(s1, k, u, env.ok(SaveCreatedRow)), start, k, databases, env)
  {
    var s2 := SaveUserRow(s1, k, u, env.ok(SaveCreatedRow));
    assert s2.issued == s1.issued;
    if Stained(s1) {
      StainStays(s1, s2);
    }
  }

  lemma PermissionsLogs(s: Server, u: DatabaseUser, k: Key, databases: map<Key, Database>, env: Env)
    requires Literate(env.reader)
    ensures Logs(s, UpdatePermissions(s, u, k, databases, env).server, PermissionStart(s, u, k, env), k, databases, env)
  {
    var r := Cleared(s, u, k, env);
    UpdatePermissionsCases(s, u, k, databases, env);
    ClearedLogs(s, u, k, env);
    if PermissionStart(s, u, k, env).Some? {
      LoopLogs(s, r.server, r.user, k, databases, env);
    }
  }

  lemma ClearedLogs(s: Server, u: DatabaseUser, k: Key, env: Env)
    ensures Appends(s, Cleared(s, u, k, env).server) && SchemasStay(s, Cleared(s, u, k, env).server)
  {
    var u1 := GrantStatusUpdate(s, u, false, 0, env).0;
    SendAppends(s, k, u1, RevokeAll(u1.status.username), env.ok(SendRevoke));
  }

  lemma RenameLogs(s: Server, u: DatabaseUser, k: Key, env: Env)
    ensures Appends(s, Rename(s, u, k, env).server) && SchemasStay(s, Rename(s, u, k, env).server)
  {
    SendAppends(s, k, u, RenameUser(u.status.username, u.spec.username), env.ok(SendRename));
  }

  lemma UpdateLogs(s: Server, u: DatabaseUser, k: Key, databases: map<Key, Database>, secret: Option<Secret>, env: Env)
    requires Literate(env.reader)
    ensures Logs(s, UserUpdate(s, u, k, databases, secret, env).server, UpdateStart(s, u, k, secret, env), k, databases, env)
  {
    if u.spec.username != u.status.username {
      RenameLogs(s, u, k, env);
    } else {
      match DetailsFor(u, secret, false, env)
      case None =>
      case Some((d, u1)) =>
        SendAppends(s, k, u, AlterUser(u.status.username, d), env.ok(SendAlter));
        PermissionsLogs(s, u1, k, databases, env);
    }
  }

  lemma ConvergeLogs(s: Server, u: DatabaseUser, k: Key, databases: map<Key, Database>, secret: Option<Secret>, env: Env)
    requires Literate(env.reader)
    ensures Logs(s, Converge(s, u, k, databases, secret, env).server, ConvergeStart(s, u, k, secret, env), k, databases, env)
  {
    var u1 := Observed(s, u, env);
    CreateLogs(s, u1, k, databases, secret, env);
    UpdateLogs(s, u1, k, databases, secret, env);
  }

  // ---------------------------------------------------------------- user passes

  lemma DeletionLogs(w: World, k: Key, env: Env)
    requires k in w.users && w.users[k].deleting
    ensures Appends(w.server, UserPass(w, k, env).server) && SchemasStay(w.server, UserPass(w, k, env).server)
  {
    SendAppends(w.server, k, w.users[k], DropUser(w.users[k].status.username), env.ok(SendDrop));
  }

  /** A live pass changes the server only through its server part. */
  lemma LiveServer(w: World, k: Key, env: Env)
    requires k in w.users && !w.users[k].deleting
    ensures UserPass(w, k, env).server ==
            if ServerDue(w, k, env) then
              Converge(w.server, w.users[k], k, w.databases, SecretOf(WithSecret(w, k, w.users[k], env).value, k, w.users[k]), env).server
            else w.server
  {
  }

  lemma UserPassLogs(w: World, k: Key, env: Env)
    requires k in w.users && Literate(env.reader)
    ensures Logs(w.server, UserPass(w, k, env).server, LoopStart(w, k, env), k, w.databases, env)
  {
    if w.users[k].deleting {
      DeletionLogs(w, k, env);
    } else {
      LiveServer(w, k, env);
      if ServerDue(w, k, env) {
        ConvergeLogs(w.server, w.users[k], k, w.databases, SecretOf(WithSecret(w, k, w.users[k], env).value, k, w.users[k]), env);
      }
    }
  }
}
