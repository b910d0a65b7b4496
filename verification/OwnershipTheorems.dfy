/**
 * What the README promises of the ledger: objects that existed before, or were made for others, are
 * "not overridden, commandeered or inadvertently removed", over every run.
 */
module OwnershipTheorems {
  import opened Basics
  import opened SqlText
  import opened SqlStatements
  import opened SqlTexts
  import opened Model
  import opened Ownership
  import opened Safety
  import opened GrantSafety
  import opened IssuedLog
  import opened Runs
  import US = UserSafety
  import DS = DatabaseSafety
  import DP = DatabaseReconciler
  import UP = UserPasses

  ghost predicate AllAuthorised(s: Server) {
    forall i :: 0 <= i < |s.issued| ==> Authorised(s.issued[i])
  }

  // ---------------------------------------------------------------- every statement of every run

  /** The pass drops the anonymous account of somebody else. */
  predicate HitsAnonymous(w: World, step: Step) {
    && step.ReconcileUser? && AnonymousDue(w, step.key, step.env)
    && [] in w.server.accounts && w.server.accounts[[]].creator != UP.Actor(step.key, w.users[step.key])
  }

  /** The two ways in which a pass reaches what is not its object's. */
  predicate Strays(w: World, step: Step) {
    HitsAnonymous(w, step) || Misplaced(w, step)
  }

  predicate NeverStrays(w: World, steps: seq<Step>)
    decreases |steps|
  {
    steps == [] || (!Strays(w, steps[0]) && NeverStrays(Next(w, steps[0]), steps[1..]))
  }

  /** Users, other people and passes over objects that are gone send nothing for the operator. */
  lemma OthersLogNothing(w: World, step: Step)
    requires step.ReconcileUser? ==> step.key !in w.users
    requires step.ReconcileDatabase? ==> step.key !in w.databases
    ensures Next(w, step).server.issued == w.server.issued
  {
  }

  lemma LogGrows(w: World, step: Step)
    requires Benign(w, step)
    ensures Appends(w.server, Next(w, step).server)
  {
    if step.ReconcileUser? && step.key in w.users {
      UserPassLogs(w, step.key, step.env);
    } else if step.ReconcileDatabase? && step.key in w.databases {
      DatabasePassLogs(w, step.key, step.env);
    } else {
      OthersLogNothing(w, step);
    }
  }

  lemma AnonymousEntry(w: World, k: Key, env: Env)
    requires AnonymousDue(w, k, env)
    ensures UP.UserPass(w, k, env).server.issued ==
            w.server.issued + [Entry(w.server, UP.Actor(k, w.users[k]), OnAccount(DropUser([])))]
  {
  }

  lemma AnonymousStepAuthorised(w: World, step: Step)
    requires AllAuthorised(w.server)
    requires step.ReconcileUser? && AnonymousDue(w, step.key, step.env)
    ensures AllAuthorised(Next(w, step).server) <==> !HitsAnonymous(w, step)
  {
    var s, s' := w.server, Next(w, step).server;
    var e := Entry(s, UP.Actor(step.key, w.users[step.key]), OnAccount(DropUser([])));
    AnonymousEntry(w, step.key, step.env);
    assert s'.issued[|s.issued|] == e;
    assert Authorised(e) <==> !HitsAnonymous(w, step);
    assert forall i :: 0 <= i < |s.issued| ==> s'.issued[i] == s.issued[i];
  }

  lemma LoggedAuthorised(s: Server, s': Server, a: Creator)
    requires Logged(s, s', a, false) && AllAuthorised(s)
    ensures AllAuthorised(s')
  {
    forall i | 0 <= i < |s'.issued| ensures Authorised(s'.issued[i]) {
      if i < |s.issued| {
        assert s'.issued[i] == s'.issued[..|s.issued|][i];
      }
    }
  }

  /** Any other step adds authorised statements only, unless it misplaces one. */
  lemma QuietStepAuthorised(w: World, step: Step)
    requires Inv(w) && Benign(w, step) && AllAuthorised(w.server) && !Misplaced(w, step)
    requires step.ReconcileUser? ==> !AnonymousDue(w, step.key, step.env)
    ensures AllAuthorised(Next(w, step).server)
  {
    if step.ReconcileUser? && step.key in w.users {
      UserPassOwn(w, step.key, step.env);
      LoggedAuthorised(w.server, Next(w, step).server, UP.Actor(step.key, w.users[step.key]));
    } else if step.ReconcileDatabase? && step.key in w.databases {
      DatabasePassOwn(w, step.key, step.env);
      LoggedAuthorised(w.server, Next(w, step).server, DP.Actor(step.key, w.databases[step.key]));
    } else {
      OthersLogNothing(w, step);
    }
  }

  lemma MisplacedShows(w: World, step: Step)
    requires Benign(w, step) && Misplaced(w, step)
    ensures Stained(Next(w, step).server)
  {
    if step.ReconcileUser? {
      UserPassLogs(w, step.key, step.env);
    } else {
      DatabasePassLogs(w, step.key, step.env);
    }
  }

  /** A step keeps to its own objects exactly when it does not stray. */
  lemma StepAuthorised(w: World, step: Step)
    requires Inv(w) && Benign(w, step) && AllAuthorised(w.server)
    ensures AllAuthorised(Next(w, step).server) <==> !Strays(w, step)
  {
    if step.ReconcileUser? && AnonymousDue(w, step.key, step.env) {
      AnonymousStepAuthorised(w, step);
      assert !Misplaced(w, step);
    } else if Misplaced(w, step) {
      MisplacedShows(w, step);
    } else {
      QuietStepAuthorised(w, step);
    }
  }

  lemma {:induction false} StainedStays(w: World, steps: seq<Step>)
    requires BenignRun(w, steps) && Stained(w.server)
    ensures Stained(Run(w, steps).server)
    decreases |steps|
  {
    if steps != [] {
      LogGrows(w, steps[0]);
      StainStays(w.server, Next(w, steps[0]).server);
      StainedStays(Next(w, steps[0]), steps[1..]);
    }
  }

  /** From any state the invariant allows: a run stays within its own objects exactly when no pass strays. */
  lemma {:induction false} RunAuthorised(w: World, steps: seq<Step>)
    requires Inv(w) && BenignRun(w, steps) && AllAuthorised(w.server)
    ensures AllAuthorised(Run(w, steps).server) <==> NeverStrays(w, steps)
    decreases |steps|
  {
    if steps != [] {
      var w1 := Next(w, steps[0]);
      StepAuthorised(w, steps[0]);
      if Strays(w, steps[0]) {
        assert Stained(w1.server);
        StainedStays(w1, steps[1..]);
      } else {
        NextInv(w, steps[0]);
        RunAuthorised(w1, steps[1..]);
      }
    }
  }

  /**
   * Ownership safety over all runs: every CREATE, ALTER, RENAME, GRANT, REVOKE and DROP of a run named,
   * among existing accounts and schemas, only ones made for that custom resource (a GRANT: covered only
   * schemas made for its namespace) if and only if no pass dropped somebody's anonymous account and none
   * sent a text whose unescaped name or words are read as concerning others. Where the texts are read as
   * meant, the DROP USER of the empty name is the one exception.
   */
  lemma OwnershipSafety(w: World, steps: seq<Step>)
    requires Initial(w) && BenignRun(w, steps)
    ensures AllAuthorised(Run(w, steps).server) <==> NeverStrays(w, steps)
    ensures NeverMisplaced(w, steps) ==>
              forall i :: 0 <= i < |Run(w, steps).server.issued| ==>
                var e := Run(w, steps).server.issued[i]; Authorised(e) || AnonymousDrop(e)
  {
    InitialInv(w);
    RunAuthorised(w, steps);
    if NeverMisplaced(w, steps) {
      RunInv(w, steps);
      assert LogInv(Run(w, steps).server);
    }
  }

  // ---------------------------------------------------------------- what users can do to stay safe

  /** A database name that is quoted as it is and is no pattern. */
  predicate PlainName(n: Bytes) {
    Quotable(n) && Literal(n)
  }

  predicate PlainUser(spec: UserSpec) {
    forall i :: 0 <= i < |spec.databaseList| ==> PlainPrivileges(UP.PrivilegeList(spec.databaseList[i]))
  }

  /** The objects users write hold plain database names and plain privilege words. */
  predicate PlainStep(step: Step) {
    match step
    case CreateDatabaseObject(_, _, spec, _) => PlainName(spec.name)
    case CreateUserObject(_, _, spec) => PlainUser(spec)
    case EditUserObject(_, spec) => PlainUser(spec)
    case _ => true
  }

  ghost predicate PlainWorld(w: World) {
    && (forall k :: k in w.databases ==> PlainName(w.databases[k].spec.name))
    && (forall k :: k in w.users ==> PlainUser(w.users[k].spec))
  }

  /** Objects come out of a pass with the specification they went in with, or not at all. */
  ghost predicate SpecsKept(w: World, w': World) {
    && (forall k :: k in w'.databases ==> k in w.databases && w'.databases[k].spec == w.databases[k].spec)
    && (forall k :: k in w'.users ==> k in w.users && w'.users[k].spec == w.users[k].spec)
  }

  lemma DatabasePassSpecs(w: World, k: Key, env: Env)
    ensures SpecsKept(w, DP.DatabasePass(w, k, env))
  {
    if k in w.databases && !w.databases[k].deleting {
      DatabaseLiveCases(w, k, env);
    }
  }

  lemma UserPassSpecs(w: World, k: Key, env: Env)
    ensures SpecsKept(w, UP.UserPass(w, k, env))
  {
    if k in w.users {
      UserPassCases(w, k, env);
    }
  }

  lemma PlainNext(w: World, step: Step)
    requires PlainWorld(w) && PlainStep(step)
    ensures PlainWorld(Next(w, step))
  {
    if step.ReconcileDatabase? {
      DatabasePassSpecs(w, step.key, step.env);
    } else if step.ReconcileUser? {
      UserPassSpecs(w, step.key, step.env);
    } else if !IsOutside(step) {
      PlainObjectStep(w, step);
    }
  }

  lemma PlainObjectStep(w: World, step: Step)
    requires PlainWorld(w) && PlainStep(step)
    ensures PlainWorld(ObjectStep(w, step))
  {
  }

  /** The object the grant loop works with is the pass's own, and its account is the object's. */
  lemma StartOwns(w: World, k: Key, env: Env)
    requires Inv(w) && k in w.users && Benign(w, ReconcileUser(k, env)) && UP.LoopStart(w, k, env).Some?
    ensures var (s1, u1) := UP.LoopStart(w, k, env).value;
            && u1.spec == w.users[k].spec && UP.Actor(k, u1) == UP.Actor(k, w.users[k])
            && s1.schemas == w.server.schemas && s1.managedDatabases == w.server.managedDatabases
            && OwnsAccount(s1, u1.status.username, UP.Actor(k, u1))
  {
    var u, s := w.users[k], w.server;
    var secret := UP.SecretOf(UP.WithSecret(w, k, u, env).value, k, u);
    assert US.UserInv(s, k, u);
    var u1 := UP.Observed(s, u, env);
    if UP.Seen(s, u, env) && DecidesUser(s, k, u1, env, 2) {
      DecidesTruly(s, k, u1, env, 2);
      BothNamed(u1);
      US.MineIsOwned(s, k, u1, u1.status.username);
      UpdateOwns(s, u1, k, secret, env);
    }
  }

  lemma PermissionOwns(s: Server, u: DatabaseUser, k: Key, env: Env)
    requires OwnsAccount(s, u.status.username, UP.Actor(k, u)) && UP.PermissionStart(s, u, k, env).Some?
    ensures var (s1, u1) := UP.PermissionStart(s, u, k, env).value;
            && u1.spec == u.spec && u1.uid == u.uid && s1.schemas == s.schemas && s1.managedDatabases == s.managedDatabases
            && OwnsAccount(s1, u1.status.username, UP.Actor(k, u1))
  {
    US.ClearedTame(s, u, k, env);
  }

  lemma UpdateOwns(s: Server, u: DatabaseUser, k: Key, secret: Option<Secret>, env: Env)
    requires OwnsAccount(s, u.status.username, UP.Actor(k, u)) && UP.UpdateStart(s, u, k, secret, env).Some?
    ensures var (s1, u1) := UP.UpdateStart(s, u, k, secret, env).value;
            && u1.spec == u.spec && u1.uid == u.uid && s1.schemas == s.schemas && s1.managedDatabases == s.managedDatabases
            && OwnsAccount(s1, u1.status.username, UP.Actor(k, u1))
  {
    PermissionOwns(s, UP.DetailsFor(u, secret, false, env).value.1, k, env);
  }

  /** With plain names and words nothing is misplaced. */
  lemma PlainNotMisplaced(w: World, step: Step)
    requires Inv(w) && PlainWorld(w) && Benign(w, step)
    ensures !Misplaced(w, step)
  {
    if step.ReconcileDatabase? && step.key in w.databases {
      DS.QuotableStays(w.server, step.key, w.databases[step.key], step.env);
    } else if step.ReconcileUser? && step.key in w.users && UP.LoopStart(w, step.key, step.env).Some? {
      var k, env := step.key, step.env;
      var (s1, u1) := UP.LoopStart(w, k, env).value;
      StartOwns(w, k, env);
      US.DatabasesStay(w.server, s1, w.databases);
      forall p | p in u1.spec.databaseList ensures PlainPrivileges(UP.PrivilegeList(p)) {
        assert PlainUser(w.users[k].spec);
      }
      LoopStaysLiteral(s1, u1, k, w.databases, env);
    }
  }

  ghost predicate PlainRun(steps: seq<Step>) {
    forall i :: 0 <= i < |steps| ==> PlainStep(steps[i])
  }

  lemma {:induction false} PlainNeverMisplaced(w: World, steps: seq<Step>)
    requires Inv(w) && PlainWorld(w) && BenignRun(w, steps) && PlainRun(steps)
    ensures NeverMisplaced(w, steps)
    decreases |steps|
  {
    if steps != [] {
      assert PlainStep(steps[0]);
      PlainNotMisplaced(w, steps[0]);
      NextInv(w, steps[0]);
      PlainNext(w, steps[0]);
      PlainNeverMisplaced(Next(w, steps[0]), steps[1..]);
    }
  }

  /**
   * When the objects hold only database names without back-tick and pattern bytes and privilege words of
   * capital letters, every statement of every run is authorised, the DROP USER of the empty name aside.
   */
  lemma PlainRunsAreSafe(w: World, steps: seq<Step>)
    requires Initial(w) && BenignRun(w, steps) && PlainRun(steps)
    ensures NeverMisplaced(w, steps)
    ensures forall i :: 0 <= i < |Run(w, steps).server.issued| ==>
              var e := Run(w, steps).server.issued[i]; Authorised(e) || AnonymousDrop(e)
  {
    InitialInv(w);
    PlainNeverMisplaced(w, steps);
    OwnershipSafety(w, steps);
  }

  // ---------------------------------------------------------------- one pass

  /** Accounts and schemas of others come out of a pass exactly as they went in, and none appears in their name. */
  lemma PassLeavesOthersAlone(w: World, step: Step, n: Bytes)
    requires Inv(w) && Benign(w, step) && !Misplaced(w, step)
    requires (step.ReconcileUser? && step.key in w.users) || (step.ReconcileDatabase? && step.key in w.databases)
    ensures var a := if step.ReconcileUser? then UP.Actor(step.key, w.users[step.key]) else DP.Actor(step.key, w.databases[step.key]);
            var s, s' := w.server, Next(w, step).server;
            && (n != [] && n in s.accounts && s.accounts[n].creator != a ==> n in s'.accounts && s'.accounts[n] == s.accounts[n])
            && (n in s.schemas && s.schemas[n].creator != a ==> n in s'.schemas && s'.schemas[n] == s.schemas[n])
            && (n != [] && n in s'.accounts && n !in s.accounts ==> s'.accounts[n].creator == a)
            && (n in s'.schemas && n !in s.schemas ==> s'.schemas[n].creator == a)
  {
    if step.ReconcileUser? {
      UserPassOwn(w, step.key, step.env);
    } else {
      DatabasePassOwn(w, step.key, step.env);
    }
  }

  // ---------------------------------------------------------------- exclusive ownership

  /** In every reachable state at most one DatabaseUser object passes `UserMine` for an existing account it names. */
  lemma ExclusiveAccount(w: World, steps: seq<Step>, k: Key, k': Key, n: Bytes)
    requires Initial(w) && BenignRun(w, steps) && NeverMisplaced(w, steps)
    requires k in Run(w, steps).users && k' in Run(w, steps).users
    requires var r := Run(w, steps);
             && UserMine(r.server, k, r.users[k]) && UserMine(r.server, k', r.users[k'])
             && n in Names(r.users[k]) && n in Names(r.users[k']) && AccountExists(r.server, n)
    ensures k == k'
    ensures OwnsAccount(Run(w, steps).server, n, UP.Actor(k, Run(w, steps).users[k]))
  {
    InitialInv(w);
    RunInv(w, steps);
    var r := Run(w, steps);
    assert US.UserInv(r.server, k, r.users[k]) && US.UserInv(r.server, k', r.users[k']);
    US.MineIsOwned(r.server, k, r.users[k], n);
    US.MineIsOwned(r.server, k', r.users[k'], n);
  }

  /** The same for schemas; the decision alone, by the full row, already excludes a second object. */
  lemma ExclusiveSchema(w: World, steps: seq<Step>, k: Key, k': Key)
    requires Initial(w) && BenignRun(w, steps) && NeverMisplaced(w, steps)
    requires k in Run(w, steps).databases && k' in Run(w, steps).databases
    requires var r := Run(w, steps);
             && DatabaseMine(r.server, k, r.databases[k]) && DatabaseMine(r.server, k', r.databases[k'])
             && r.databases[k].spec.name == r.databases[k'].spec.name && SchemaExists(r.server, r.databases[k].spec.name)
             && Quotable(r.databases[k].spec.name)
    ensures k == k'
    ensures OwnsSchema(Run(w, steps).server, Run(w, steps).databases[k].spec.name, DP.Actor(k, Run(w, steps).databases[k]))
  {
    InitialInv(w);
    RunInv(w, steps);
    var r := Run(w, steps);
    assert DS.DatabaseInv(r.server, k, r.databases[k]) && DS.DatabaseInv(r.server, k', r.databases[k']);
    DS.MineIsOwned(r.server, k, r.databases[k]);
    DS.MineIsOwned(r.server, k', r.databases[k']);
  }

  /** A rename in a reachable state never finds its target taken, and leaves ledger and server in agreement. */
  lemma RenameIsSound(w: World, steps: seq<Step>, k: Key, env: Env)
    requires Initial(w) && BenignRun(w, steps) && NeverMisplaced(w, steps)
    requires var r := Run(w, steps);
             && RenameDue(r, k) && UserMine(r.server, k, r.users[k]) && r.users[k].status.username != []
             && env.ok(SendRename) && env.ok(SaveRenamedRow)
    ensures var r := Run(w, steps); var u := r.users[k]; var o := UP.Rename(r.server, u, k, env);
            && u.spec.username !in r.server.accounts && o.ok
            && OwnsAccount(o.server, u.spec.username, UP.Actor(k, u))
            && o.server.accounts[u.spec.username] == r.server.accounts[u.status.username]
            && u.status.username !in o.server.accounts
            && o.server.managedUsers[u.uid] == Row(k, u.spec.username) && o.user.status.username == u.spec.username
  {
    InitialInv(w);
    RunInv(w, steps);
    var r := Run(w, steps);
    var u := r.users[k];
    assert US.UserInv(r.server, k, u);
    US.RenameKept(r.server, u, k, env);
    BothNamed(u);
    US.MineIsOwned(r.server, k, u, u.status.username);
  }
}
