/** What the status of a DatabaseUser object says after a pass that could store it. */
module Reports {
  import opened Basics
  import opened SqlStatements
  import opened Model
  import opened Ownership
  import opened Runs
  import opened GrantConvergence
  import US = UserSafety
  import UP = UserPasses

  // ---------------------------------------------------------------- authentication and TLS

  /** With an identification the status has it, the version of its secret and the TLS asked for; without, the plugin found on the server. */
  ghost predicate ReportsAuth(w: World, k: Key, u: DatabaseUser, status: UserStatus)
    requires u.status.username in w.server.accounts
  {
    match u.spec.identification
    case Some(id) =>
      && id.authString.Some?
      && var sk := Key(k.namespace, id.authString.value.name);
         && sk in w.secrets && status.identificationVersion == w.secrets[sk].version
         && status.identification == Some(id) && status.tls == u.spec.tls
    case None =>
      && status.identificationVersion == u.status.identificationVersion && status.tls == u.status.tls
      && var plugin := w.server.accounts[u.status.username].auth.plugin;
         status.identification ==
           Some(if u.status.identification.None? then Identification(plugin, None, false) else u.status.identification.value.(plugin := plugin))
  }

  /** The object owns the account it claims and specifies. */
  predicate Owns(w: World, k: Key) {
    && k in w.users
    && var u := w.users[k];
       && u.status.username != [] && u.spec.username == u.status.username && u.status.username in w.server.accounts
       && u.uid in w.server.managedUsers && w.server.managedUsers[u.uid] == Row(k, u.status.username)
  }

  lemma PermissionsKeepRest(s: Server, u: DatabaseUser, k: Key, databases: map<Key, Database>, env: Env)
    ensures var u' := UP.UpdatePermissions(s, u, k, databases, env).user;
            u' == u.(status := u.status.(grants := u'.status.grants, databaseList := u'.status.databaseList))
  {
    var r := US.Cleared(s, u, k, env);
    US.UpdatePermissionsCases(s, u, k, databases, env);
    ClearedKeepsRest(s, u, k, env);
    GrantsKeepRest(r.server, r.user, k, databases, env);
  }

  lemma ClearedKeepsRest(s: Server, u: DatabaseUser, k: Key, env: Env)
    ensures var u' := US.Cleared(s, u, k, env).user;
            u' == u.(status := u.status.(grants := u'.status.grants, databaseList := u'.status.databaseList))
    ensures var u' := UP.GrantStatusUpdate(s, u, false, 0, env).0;
            u' == u.(status := u.status.(grants := u'.status.grants))
  {
  }

  lemma GrantsKeepRest(s: Server, u: DatabaseUser, k: Key, databases: map<Key, Database>, env: Env)
    ensures var u' := UP.GrantAll(s, u, k, databases, env).user;
            u' == u.(status := u.status.(grants := u'.status.grants, databaseList := u'.status.databaseList))
  {
  }

  lemma UpdateReports(w: World, k: Key, secret: Option<Secret>, env: Env)
    requires Owns(w, k) && (secret.Some? ==> secret == UP.SecretOf(w, k, w.users[k]))
    ensures var u := w.users[k];
            var o := UP.UserUpdate(w.server, UP.Observed(w.server, u, env), k, w.databases, secret, env);
            o.ok && env.ok(LookupAccount(1, 0)) ==> ReportsAuth(w, k, u, o.user.status)
  {
    var u1 := UP.Observed(w.server, w.users[k], env);
    US.UpdateCases(w.server, u1, k, w.databases, secret, env);
    var d := UP.DetailsFor(u1, secret, false, env);
    if d.Some? {
      PermissionsKeepRest(w.server, d.value.1, k, w.databases, env);
    }
  }

  /**
   * With working lookups: a pass over an object that owns its account, if it stores another status at all,
   * stores one that tells what was looked at and asked for.
   */
  lemma PassReports(w: World, k: Key, env: Env)
    requires Owns(w, k) && !w.users[k].deleting && LookupsOk(env) && forall round, i :: env.ok(LookupAccountRow(round, i))
    ensures var u, w' := w.users[k], UP.UserPass(w, k, env);
            k in w'.users && (w'.users[k].status != u.status ==> ReportsAuth(w, k, u, w'.users[k].status))
  {
    var u := w.users[k];
    LiveCases(w, k, env);
    if UP.ServerDue(w, k, env) {
      ServerReports(w, k, env);
    }
  }

  lemma ServerReports(w: World, k: Key, env: Env)
    requires Owns(w, k) && UP.ServerDue(w, k, env) && LookupsOk(env) && forall round, i :: env.ok(LookupAccountRow(round, i))
    ensures var u := w.users[k];
            var secret := UP.SecretOf(UP.WithSecret(w, k, u, env).value, k, u);
            var o := UP.Converge(w.server, u, k, w.databases, secret, env);
            o.ok ==> ReportsAuth(w, k, u, o.user.status)
  {
    var u := w.users[k];
    var secret := UP.SecretOf(UP.WithSecret(w, k, u, env).value, k, u);
    var u1 := UP.Observed(w.server, u, env);
    assert Names(u1) == [u.spec.username];
    DecidesTruly(w.server, k, u1, env, 2);
    UpdateReports(w, k, secret, env);
  }

  // ---------------------------------------------------------------- what was granted to a new account

  /** The tracked list is what the server lists for the account, name by name, in its order, and nothing else. */
  ghost predicate ReportsGrants(s: Server, n: Bytes, status: UserStatus, env: Env) {
    && n in s.accounts
    && var p := s.accounts[n].privileges;
       && |status.grants| == |env.order(p)| == |p|
       && forall i :: 0 <= i < |env.order(p)| && env.order(p)[i] in p ==> status.grants[i] == GrantLine(env.order(p)[i], p[env.order(p)[i]], n)
  }

  /** Whatever an earlier account of the name left in the tracked list is forgotten when the account is made. */
  lemma CreationReports(w: World, k: Key, env: Env)
    requires k in w.users && !w.users[k].deleting && AllButGrants(env)
    requires w.users[k].status.username != [] && w.users[k].status.username !in w.server.accounts
    requires Grantworthy(w.databases, k, w.users[k].spec.databaseList)
    ensures var u, w' := w.users[k], UP.UserPass(w, k, env);
            && k in w'.users
            && (w'.users[k].status != u.status ==>
                  ReportsGrants(w'.server, u.status.username, w'.users[k].status, env)
                  && w'.users[k].status.databaseList == u.spec.databaseList)
  {
    var u := w.users[k];
    LiveCases(w, k, env);
    if UP.ServerDue(w, k, env) {
      CreateReports(w.server, u, k, w.databases, UP.SecretOf(UP.WithSecret(w, k, u, env).value, k, u), env);
    }
  }

  lemma CreateReports(s: Server, u: DatabaseUser, k: Key, databases: map<Key, Database>, secret: Option<Secret>, env: Env)
    requires AllButGrants(env) && u.status.username != [] && u.status.username !in s.accounts && Grantworthy(databases, k, u.spec.databaseList)
    ensures var o := UP.Converge(s, u, k, databases, secret, env);
            o.ok ==> ReportsGrants(o.server, u.status.username, o.user.status, env) && o.user.status.databaseList == u.spec.databaseList
  {
    var d := UP.DetailsFor(u, secret, true, env);
    if d.Some? {
      var (s1, _) := UP.Send(s, k, u, CreateUser(u.status.username, d.value.0), env.ok(SendCreate));
      US.CreateGoesThrough(s, u, k, databases, secret, env);
      GrantedFresh(s1, UP.Tracking(d.value.1, []), k, databases, env);
    }
  }
}
