/** The exception that remains when every text is read as meant: a run in which the anonymous account is dropped. */
module Exceptions {
  import opened Basics
  import opened SqlStatements
  import opened Model
  import opened Ownership
  import opened Safety
  import opened Runs
  import opened OwnershipTheorems
  import opened Scenarios
  import UP = UserPasses

  /** An account made by somebody else. */
  const SOMEBODY: Account := Account(Foreign, Auth([1], None), false, map[], {})

  // ---------------------------------------------------------------- the anonymous drop

  const NAME: Bytes := [98]

  const KEY: Key := Key([110], [117])

  /** A server with an anonymous account and one named account, both made by others. */
  function AnonymousStart(): World {
    World(Server(map[], map[[] := SOMEBODY, NAME := SOMEBODY], map[], map[],
                 Catalog(map[], map[], [2], [3]), [1], []),
          map[], map[], map[], {}, 0)
  }

  const SPEC: UserSpec := UserSpec(NAME, None, [], false)

  /** The object at two points of the run. */
  const WAITING: DatabaseUser := DatabaseUser(1, SPEC, NEW_USER_STATUS, true, false)

  function AnonymousBegin(env: Env): seq<Step> {
    [CreateUserObject(KEY, 1, SPEC)] + [ReconcileUser(KEY, env)]
  }

  /** An object asks for the taken name, gets its finalizer, the name's owner leaves, the object is deleted. */
  function AnonymousSteps(env: Env): seq<Step> {
    AnonymousBegin(env) + ([OutsideDropAccount(NAME)] + ([DeleteUserObject(KEY)] + [ReconcileUser(KEY, env)]))
  }

  /** The pass over the new object only adds the finalizer: the name is taken and not ours. */
  lemma AnonymousFirst(w: World, env: Env)
    requires AllSucceed(env)
    requires w.server == AnonymousStart().server && w.users == map[KEY := WAITING.(finalizer := false)]
    ensures UP.UserPass(w, KEY, env) == w.(users := map[KEY := WAITING])
  {
    var u := w.users[KEY];
    assert AccountSeen(w.server, Names(u)[0], env, 0, 0);
    assert !DecidesUser(w.server, KEY, u, env, 0);
  }

  lemma AnonymousBegins(env: Env)
    requires AllSucceed(env)
    ensures Leads(AnonymousStart(), AnonymousBegin(env), AnonymousStart().(users := map[KEY := WAITING], uids := {1}))
  {
    var w0 := AnonymousStart();
    var w1 := w0.(users := map[KEY := WAITING.(finalizer := false)], uids := {1});
    assert ObjectStep(w0, CreateUserObject(KEY, 1, SPEC)) == w1;
    ObjectStepLeads(w0, CreateUserObject(KEY, 1, SPEC));
    AnonymousFirst(w1, env);
    UserStep(w1, KEY, env);
    Compose(w0, [CreateUserObject(KEY, 1, SPEC)], w1, [ReconcileUser(KEY, env)], w1.(users := map[KEY := WAITING]));
  }

  /** The name's owner leaves and the object is deleted. */
  lemma AnonymousLeft(w: World)
    requires w.server == AnonymousStart().server && w.users == map[KEY := WAITING]
    ensures Leads(w, [OutsideDropAccount(NAME)], w.(server := w.server.(accounts := map[[] := SOMEBODY])))
    ensures var w1 := w.(server := w.server.(accounts := map[[] := SOMEBODY]));
            Leads(w1, [DeleteUserObject(KEY)], w1.(users := map[KEY := WAITING.(deleting := true)]))
  {
    assert w.server.accounts - {NAME} == map[[] := SOMEBODY];
    OutsideStepLeads(w, OutsideDropAccount(NAME));
    var w1 := w.(server := w.server.(accounts := map[[] := SOMEBODY]));
    assert w1.users[KEY := WAITING.(deleting := true)] == map[KEY := WAITING.(deleting := true)];
    ObjectStepLeads(w1, DeleteUserObject(KEY));
  }

  lemma AnonymousLast(w: World, env: Env)
    requires AllSucceed(env)
    requires w.server == AnonymousStart().server.(accounts := map[[] := SOMEBODY])
    requires w.users == map[KEY := WAITING.(deleting := true)]
    ensures [] !in UP.UserPass(w, KEY, env).server.accounts
    ensures !AllAuthorised(UP.UserPass(w, KEY, env).server)
  {
    DropUserPass(w, KEY, env);
    var s1 := UP.UserPass(w, KEY, env).server;
    assert Names(w.users[KEY]) == [NAME] && !AccountExists(w.server, NAME);
    assert s1.issued[0] == Entry(w.server, UP.Actor(KEY, w.users[KEY]), OnAccount(DropUser([])));
    assert Foreign in s1.issued[0].accounts;
  }

  /**
   * With every call succeeding, a run in which nobody touches what the operator made ends with somebody
   * else's anonymous account dropped: the deletion pass names the account by the empty status name.
   */
  lemma AnonymousAccountDropped(env: Env)
    requires AllSucceed(env)
    ensures Initial(AnonymousStart()) && BenignRun(AnonymousStart(), AnonymousSteps(env))
    ensures AnonymousStart().server.accounts[[]].creator == Foreign
    ensures [] !in Run(AnonymousStart(), AnonymousSteps(env)).server.accounts
    ensures !AllAuthorised(Run(AnonymousStart(), AnonymousSteps(env)).server)
  {
    var w0 := AnonymousStart();
    var w2 := w0.(users := map[KEY := WAITING], uids := {1});
    var w3 := w2.(server := w2.server.(accounts := map[[] := SOMEBODY]));
    var w4 := w3.(users := map[KEY := WAITING.(deleting := true)]);
    AnonymousBegins(env);
    AnonymousLeft(w2);
    AnonymousLast(w4, env);
    UserStep(w4, KEY, env);
    var w5 := UP.UserPass(w4, KEY, env);
    Compose(w3, [DeleteUserObject(KEY)], w4, [ReconcileUser(KEY, env)], w5);
    Compose(w2, [OutsideDropAccount(NAME)], w3, [DeleteUserObject(KEY)] + [ReconcileUser(KEY, env)], w5);
    Compose(w0, AnonymousBegin(env), w2, [OutsideDropAccount(NAME)] + ([DeleteUserObject(KEY)] + [ReconcileUser(KEY, env)]), w5);
  }
}
