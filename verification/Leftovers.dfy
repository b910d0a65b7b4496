/**
 * What an account holds on all schemas outlives the specification: a run from a fresh start in which the
 * list of databases is emptied and nothing is revoked.
 */
module Leftovers {
  import opened Basics
  import opened SqlText
  import opened SqlStatements
  import opened SqlTexts
  import opened Model
  import opened Ownership
  import opened Safety
  import opened Charsets
  import opened Runs
  import opened UserConvergence
  import opened Scenarios
  import opened Misreadings
  import US = UserSafety
  import UP = UserPasses

  /** The grant loop with one entry that is read as a GRANT on all schemas, and the listing after it. */
  lemma OneEverywhere(s: Server, u: DatabaseUser, k: Key, databases: map<Key, Database>, dk: Key, words: seq<Bytes>, ws: set<Bytes>, env: Env)
    requires AllSucceed(env) && AsksOne(u.spec, dk, words) && dk.namespace == k.namespace
    requires UP.Grantable(s, databases, k, u.spec.databaseList[0])
    requires u.status.username in s.accounts && s.accounts[u.status.username].privileges == map[] && u.status.grants == []
    requires env.reader(UP.GrantOneText(u, k, databases, 0)) == Some(Grant(ws, Everywhere, u.status.username))
    ensures UP.GrantAll(s, u, k, databases, env) ==
              UP.Outcome(Exec(s, UP.Actor(k, u), Grant(ws, Everywhere, u.status.username), true).0,
                         u.(status := u.status.(databaseList := u.spec.databaseList)), true)
  {
    var stmt := Grant(ws, Everywhere, u.status.username);
    OneGrant(s, u, k, databases, dk, words, stmt, env);
    OneReached(s, u, k, databases, dk, words, env);
    var s1 := Exec(s, UP.Actor(k, u), stmt, true).0;
    var u1 := u.(status := u.status.(databaseList := u.spec.databaseList));
    ShowsNothing(s1, u1, env);
  }

  lemma OneReached(s: Server, u: DatabaseUser, k: Key, databases: map<Key, Database>, dk: Key, words: seq<Bytes>, env: Env)
    requires AllSucceed(env) && AsksOne(u.spec, dk, words) && dk.namespace == k.namespace && dk in databases
    ensures UP.GrantFrom(s, u, k, databases, 0, env).1
  {
    assert UP.Listed(k, u.spec.databaseList[0]) == dk;
    assert UP.GrantFrom(s, u, k, databases, 0, env) == UP.GrantFrom(UP.GrantOne(s, u, k, databases, 0, env), u, k, databases, 1, env);
  }

  /** An account that holds nothing by name has no line after the first. */
  lemma ShowsNothing(s: Server, u: DatabaseUser, env: Env)
    requires AllSucceed(env) && u.status.username in s.accounts && s.accounts[u.status.username].privileges == map[] && u.status.grants == []
    ensures UP.GrantStatusUpdate(s, u, false, 2, env) == (u, false, true)
    ensures UP.Lines(map[], u.status.username, env) == []
  {
    assert |env.order(map[])| == 0;
    assert UP.Lines(map[], u.status.username, env) == [];
    assert UP.Tracking(u, []) == u;
  }

  /** The pass that makes the account and grants it words on all schemas. */
  lemma EverywhereCreated(s: Server, u: DatabaseUser, k: Key, databases: map<Key, Database>, dk: Key, words: seq<Bytes>, ws: set<Bytes>, env: Env)
    requires AllSucceed(env) && AsksOne(u.spec, dk, words) && dk.namespace == k.namespace
    requires u.status == ClaimedStatus(u.spec.username) && u.spec.username !in s.accounts
    requires UP.Grantable(s, databases, k, u.spec.databaseList[0])
    requires env.reader(UP.GrantOneText(u, k, databases, 0)) == Some(Grant(ws, Everywhere, u.spec.username))
    ensures var o := UP.Converge(s, u, k, databases, None, env);
            && o.ok && o.user == u.(status := u.status.(databaseList := u.spec.databaseList))
            && o.server.accounts == s.accounts[u.spec.username := NewAccount(s, k, u).(everywhere := ws)]
            && RowIs(o.server.managedUsers, u.uid, k, u.spec.username)
  {
    US.CreateGoesThrough(s, u, k, databases, None, env);
    NotSeen(s, u, k, databases, env);
    assert UP.Tracking(u, []) == u;
    var s1 := UP.Send(s, k, u, CreateUser(u.status.username, NO_DETAILS), true).0;
    OneEverywhere(s1, u, k, databases, dk, words, ws, env);
    GrantedEverywhere(s, s1, u, k, ws);
  }

  lemma GrantedEverywhere(s: Server, s1: Server, u: DatabaseUser, k: Key, ws: set<Bytes>)
    requires s1.accounts == s.accounts[u.spec.username := NewAccount(s, k, u)]
    ensures Exec(s1, UP.Actor(k, u), Grant(ws, Everywhere, u.spec.username), true).0.accounts
            == s.accounts[u.spec.username := NewAccount(s, k, u).(everywhere := ws)]
  {
    assert NewAccount(s, k, u).everywhere + ws == ws;
  }

  /** The stored world after such a pass. */
  lemma EverywherePass(w: World, k: Key, dk: Key, words: seq<Bytes>, ws: set<Bytes>, env: Env)
    requires AllSucceed(env) && k in w.users && !w.users[k].deleting && w.users[k].finalizer
    requires AsksOne(w.users[k].spec, dk, words) && dk.namespace == k.namespace
    requires w.users[k].status == ClaimedStatus(w.users[k].spec.username) && w.users[k].spec.username !in w.server.accounts
    requires UP.Grantable(w.server, w.databases, k, w.users[k].spec.databaseList[0])
    requires env.reader(UP.GrantOneText(w.users[k], k, w.databases, 0)) == Some(Grant(ws, Everywhere, w.users[k].spec.username))
    ensures var u, w' := w.users[k], UP.UserPass(w, k, env);
            && k in w'.users && w'.users[k] == u.(status := u.status.(databaseList := u.spec.databaseList))
            && w'.server.accounts == w.server.accounts[u.spec.username := NewAccount(w.server, k, u).(everywhere := ws)]
            && RowIs(w'.server.managedUsers, u.uid, k, u.spec.username)
  {
    EverywhereCreated(w.server, w.users[k], k, w.databases, dk, words, ws, env);
    LiveCases(w, k, env);
  }

  /** The object asks for no database any more, and its account holds words on all schemas and nothing by name. */
  ghost predicate Emptied(w: World, k: Key) {
    && k in w.users && !w.users[k].deleting && w.users[k].finalizer && Bare(w.users[k].spec)
    && var u, s := w.users[k], w.server;
       && u.status.username == u.spec.username && u.status.grants == [] && u.status.identificationVersion == 0
       && u.status.databaseList != []
       && OwnsAccount(s, u.spec.username, UP.Actor(k, u)) && RowIs(s.managedUsers, u.uid, k, u.spec.username)
       && s.accounts[u.spec.username].privileges == map[] && s.accounts[u.spec.username].everywhere != {}
  }

  lemma EmptiedWellFormed(w: World, k: Key, env: Env)
    requires Emptied(w, k) && AllSucceed(env)
    ensures WellFormed(w, k, env) && !EverywhereCleared(w.server, w.users[k], env)
  {
    var u := w.users[k];
    ShowsNothing(w.server, u, env);
    assert Names(u) == [u.spec.username];
  }

  /** No number of passes revokes them. */
  lemma EmptiedKeeps(w: World, k: Key, env: Env, n: nat)
    requires Emptied(w, k) && AllSucceed(env) && n >= 7
    ensures var w' := Passes(w, k, env, n);
            && k in w'.users && w'.users[k].spec == w.users[k].spec && OwnsAccount(w'.server, w.users[k].spec.username, UP.Actor(k, w.users[k]))
            && w'.server.accounts[w.users[k].spec.username].everywhere != {}
  {
    EmptiedWellFormed(w, k, env);
    PassesReachSettled(w, k, env, n);
    SettledMatches(Passes(w, k, env, n), k, env);
  }

  function EmptiedSteps(dk: Key, duid: Uid, dspec: DatabaseSpec, c: Connection, k: Key, uid: Uid, spec: UserSpec, env: Env): seq<Step> {
    GrantSteps(dk, duid, dspec, c, k, uid, spec, env) + [EditUserObject(k, spec.(databaseList := []))]
  }

  /** The world after the object is served, with its list emptied. */
  lemma EverywhereReached(w: World, dk: Key, duid: Uid, dspec: DatabaseSpec, c: Connection, k: Key, uid: Uid, spec: UserSpec, env: Env)
    requires GrantScene(w, dk, duid, dspec, c, k, uid, spec, [Scoped([66])]) && AllSucceed(env) && env.reader == Parse
    requires spec.username == [66] && NEWLINE !in dspec.name
    ensures var w1 := UP.UserPass(BeforeGrant(w, dk, duid, dspec, k, uid, spec), k, env);
            && k in w1.users && w1.users[k].spec == spec && w1.users[k].uid == uid
            && Emptied(w1.(users := w1.users[k := w1.users[k].(spec := spec.(databaseList := []))]), k)
  {
    ScopedRead(dk, dspec.name, spec.username);
    GrantDue(w, dk, duid, dspec, c, k, uid, spec, [Scoped([66])]);
    EverywherePass(BeforeGrant(w, dk, duid, dspec, k, uid, spec), k, dk, [Scoped([66])], {Ascii("SELECT")}, env);
  }

  lemma EmptiedBegins(w: World, dk: Key, duid: Uid, dspec: DatabaseSpec, c: Connection, k: Key, uid: Uid, spec: UserSpec, env: Env)
    requires GrantScene(w, dk, duid, dspec, c, k, uid, spec, [Scoped([66])]) && AllSucceed(env)
    ensures Leads(w, GrantSteps(dk, duid, dspec, c, k, uid, spec, env), UP.UserPass(BeforeGrant(w, dk, duid, dspec, k, uid, spec), k, env))
  {
    var w0 := BeforeGrant(w, dk, duid, dspec, k, uid, spec);
    GrantBegins(w, dk, duid, dspec, c, k, uid, spec, [Scoped([66])], env);
    UserStep(w0, k, env);
    Compose(w, MakeDatabaseSteps(dk, duid, dspec, c, env) + ClaimSteps(k, uid, spec, env), w0, [ReconcileUser(k, env)], UP.UserPass(w0, k, env));
  }

  lemma ScopedRead(dk: Key, n: Bytes, user: Bytes)
    requires NEWLINE !in n
    ensures Parse(GrantText(UP.PrivilegeList(Permission(dk.name, [Scoped([66])])), n, user)) == Some(Grant({Ascii("SELECT")}, Everywhere, [66]))
  {
    UpperScoped();
    assert UP.PrivilegeList(Permission(dk.name, [Scoped([66])])) == [Scoped([66])];
    ScopedGrant([66], n, user);
  }

  /**
   * An object whose one privilege word grants its own account a word on all schemas, with the list of
   * databases emptied afterwards: whatever passes follow, the account keeps the word.
   */
  lemma EmptiedListKeepsEverywhere(w: World, dk: Key, duid: Uid, dspec: DatabaseSpec, c: Connection, k: Key, uid: Uid, spec: UserSpec,
                                   env: Env, n: nat)
    requires GrantScene(w, dk, duid, dspec, c, k, uid, spec, [Scoped([66])]) && AllSucceed(env) && env.reader == Parse
    requires spec.username == [66] && NEWLINE !in dspec.name && n >= 7
    ensures var steps := EmptiedSteps(dk, duid, dspec, c, k, uid, spec, env) + Repeat(ReconcileUser(k, env), n);
            var w' := Run(w, steps);
            && BenignRun(w, steps)
            && k in w'.users && w'.users[k].spec == spec.(databaseList := [])
            && OwnsAccount(w'.server, [66], Cr(uid, k.namespace)) && w'.server.accounts[[66]].everywhere != {}
  {
    var w1 := UP.UserPass(BeforeGrant(w, dk, duid, dspec, k, uid, spec), k, env);
    EmptiedBegins(w, dk, duid, dspec, c, k, uid, spec, env);
    EverywhereReached(w, dk, duid, dspec, c, k, uid, spec, env);
    var edited := spec.(databaseList := []);
    var w2 := w1.(users := w1.users[k := w1.users[k].(spec := edited)]);
    EditLeads(w1, k, edited);
    Compose(w, GrantSteps(dk, duid, dspec, c, k, uid, spec, env), w1, [EditUserObject(k, edited)], w2);
    EmptiedKeeps(w2, k, env, n);
    RunPasses(w2, k, env, n);
    Compose(w, EmptiedSteps(dk, duid, dspec, c, k, uid, spec, env), w2, Repeat(ReconcileUser(k, env), n), Passes(w2, k, env, n));
  }
}
