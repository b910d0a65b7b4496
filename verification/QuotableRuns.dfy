/**
 * Ownership over runs in terms of what users write: with names that can be quoted and plain privilege
 * words, a run keeps to its own objects exactly when no anonymous account is hit and no GRANT is sent on
 * a name that, as a pattern, covers a schema of others.
 */
module QuotableRuns {
  import opened Basics
  import opened SqlText
  import opened SqlTexts
  import opened Model
  import opened Ownership
  import opened Safety
  import opened GrantSafety
  import opened Runs
  import opened OwnershipTheorems
  import US = UserSafety
  import DS = DatabaseSafety
  import UP = UserPasses

  // ---------------------------------------------------------------- what users write

  /** Database names without back-tick and privilege words of capital letters; names may be patterns. */
  predicate QuotableStep(step: Step) {
    match step
    case CreateDatabaseObject(_, _, spec, _) => Quotable(spec.name)
    case CreateUserObject(_, _, spec) => PlainUser(spec)
    case EditUserObject(_, spec) => PlainUser(spec)
    case _ => true
  }

  ghost predicate QuotableRun(steps: seq<Step>) {
    forall i :: 0 <= i < |steps| ==> QuotableStep(steps[i])
  }

  ghost predicate QuotableWorld(w: World) {
    && (forall k :: k in w.databases ==> Quotable(w.databases[k].spec.name))
    && (forall k :: k in w.users ==> PlainUser(w.users[k].spec))
  }

  lemma KeptQuotable(w: World, w': World)
    requires QuotableWorld(w) && SpecsKept(w, w')
    ensures QuotableWorld(w')
  {
  }

  lemma QuotableObjectStep(w: World, step: Step)
    requires QuotableWorld(w) && QuotableStep(step)
    ensures QuotableWorld(ObjectStep(w, step))
  {
  }

  lemma QuotableNext(w: World, step: Step)
    requires QuotableWorld(w) && QuotableStep(step)
    ensures QuotableWorld(Next(w, step))
  {
    if step.ReconcileDatabase? {
      DatabasePassSpecs(w, step.key, step.env);
      KeptQuotable(w, Next(w, step));
    } else if step.ReconcileUser? {
      UserPassSpecs(w, step.key, step.env);
      KeptQuotable(w, Next(w, step));
    } else if !IsOutside(step) {
      QuotableObjectStep(w, step);
    }
  }

  // ---------------------------------------------------------------- one grant loop

  /** Entry `j` may be granted, and the ledger answers when it is asked. */
  predicate Granted(w: World, k: Key, env: Env, j: nat)
    requires k in w.users && j < |w.users[k].spec.databaseList|
  {
    var p := w.users[k].spec.databaseList[j];
    && UP.Grantable(w.server, w.databases, k, p)
    && (SchemaExists(w.server, w.databases[UP.Listed(k, p)].spec.name) ==> env.ok(LookupSchemaRow(j)))
  }

  /** The loop reaches entry `j`, grants it, and its name covers a schema not made for the namespace. */
  ghost predicate EntryCovers(w: World, k: Key, env: Env, j: nat)
    requires k in w.users && j < |w.users[k].spec.databaseList|
  {
    && US.Reaches(w.users[k], k, w.databases, 0, j, env) && Granted(w, k, env, j)
    && CoversOthers(w.server, k, w.databases[UP.Listed(k, w.users[k].spec.databaseList[j])].status.name)
  }

  /** A pass that starts the grant loop and comes to such an entry. */
  ghost predicate LoopCovers(w: World, step: Step) {
    && step.ReconcileUser? && step.key in w.users && UP.LoopStart(w, step.key, step.env).Some?
    && exists j :: 0 <= j < |w.users[step.key].spec.databaseList| && EntryCovers(w, step.key, step.env, j)
  }

  lemma DecidesAsGranted(w: World, k: Key, env: Env, j: nat)
    requires Inv(w) && LookupsOk(env) && k in w.users && j < |w.users[k].spec.databaseList|
    ensures UP.DecidesGrant(w.server, w.databases, k, w.users[k].spec.databaseList[j], env, j) <==> Granted(w, k, env, j)
  {
  }

  /** The entries that may be granted have plain words and names that can be quoted. */
  ghost predicate SpelledLoop(w: World, k: Key, env: Env)
    requires k in w.users
  {
    forall j :: 0 <= j < |w.users[k].spec.databaseList| && Granted(w, k, env, j) ==>
      var p := w.users[k].spec.databaseList[j];
      PlainPrivileges(UP.PrivilegeList(p)) && Quotable(w.databases[UP.Listed(k, p)].status.name)
  }

  lemma QuotableSpelled(w: World, k: Key, env: Env)
    requires Inv(w) && QuotableWorld(w) && k in w.users
    ensures SpelledLoop(w, k, env)
  {
    forall j | 0 <= j < |w.users[k].spec.databaseList| && Granted(w, k, env, j)
      ensures var p := w.users[k].spec.databaseList[j];
              PlainPrivileges(UP.PrivilegeList(p)) && Quotable(w.databases[UP.Listed(k, p)].status.name)
    {
      var dk := UP.Listed(k, w.users[k].spec.databaseList[j]);
      assert DS.DatabaseInv(w.server, dk, w.databases[dk]) && PlainUser(w.users[k].spec);
    }
  }

  /** Where the loop starts, schemas, their ledger and the specification are those of the stored world. */
  ghost predicate StartsAs(w: World, k: Key, s1: Server, u1: DatabaseUser)
    requires k in w.users
  {
    && u1.spec == w.users[k].spec && UP.Actor(k, u1) == UP.Actor(k, w.users[k])
    && s1.schemas == w.server.schemas && s1.managedDatabases == w.server.managedDatabases
    && OwnsAccount(s1, u1.status.username, UP.Actor(k, u1))
  }

  lemma EntryStraysIff(w: World, k: Key, env: Env, s1: Server, u1: DatabaseUser, j: nat)
    requires Inv(w) && Literate(env.reader) && LookupsOk(env) && k in w.users && SpelledLoop(w, k, env) && StartsAs(w, k, s1, u1)
    requires j < |w.users[k].spec.databaseList|
    ensures US.GrantStrays(s1, u1, k, w.databases, j, env) <==>
              Granted(w, k, env, j) && CoversOthers(w.server, k, w.databases[UP.Listed(k, w.users[k].spec.databaseList[j])].status.name)
  {
    var p := w.users[k].spec.databaseList[j];
    DecidesAsGranted(w, k, env, j);
    assert UP.DecidesGrant(s1, w.databases, k, p, env, j) == UP.DecidesGrant(w.server, w.databases, k, p, env, j);
    if Granted(w, k, env, j) {
      var dk := UP.Listed(k, p);
      GrantStraysExactly(s1, u1, k, w.databases, j, env);
      assert CoversOthers(s1, k, w.databases[dk].status.name) == CoversOthers(w.server, k, w.databases[dk].status.name);
    }
  }

  lemma SameReach(u: DatabaseUser, u1: DatabaseUser, k: Key, databases: map<Key, Database>, j: nat, env: Env)
    requires u1.spec == u.spec && j < |u.spec.databaseList|
    ensures US.Reaches(u1, k, databases, 0, j, env) <==> US.Reaches(u, k, databases, 0, j, env)
  {
    assert forall x :: 0 <= x <= j ==> (UP.Fetched(u1, k, databases, x, env) <==> UP.Fetched(u, k, databases, x, env));
  }

  lemma LoopStraysIff(w: World, k: Key, env: Env, s1: Server, u1: DatabaseUser)
    requires Inv(w) && Literate(env.reader) && LookupsOk(env) && k in w.users && SpelledLoop(w, k, env) && StartsAs(w, k, s1, u1)
    ensures US.LoopStrays(s1, u1, k, w.databases, 0, env) <==>
              exists j :: 0 <= j < |w.users[k].spec.databaseList| && EntryCovers(w, k, env, j)
  {
    forall j | 0 <= j < |w.users[k].spec.databaseList|
      ensures US.Reaches(u1, k, w.databases, 0, j, env) && US.GrantStrays(s1, u1, k, w.databases, j, env) <==> EntryCovers(w, k, env, j)
    {
      EntryStraysIff(w, k, env, s1, u1, j);
      SameReach(w.users[k], u1, k, w.databases, j, env);
    }
  }

  /** One step: a text is misplaced exactly when it is a GRANT that covers a schema of others. */
  lemma MisplacedIff(w: World, step: Step)
    requires Inv(w) && QuotableWorld(w) && Benign(w, step)
    ensures Misplaced(w, step) <==> LoopCovers(w, step)
  {
    if step.ReconcileDatabase? && step.key in w.databases {
      DS.QuotableStays(w.server, step.key, w.databases[step.key], step.env);
    } else if step.ReconcileUser? && step.key in w.users && UP.LoopStart(w, step.key, step.env).Some? {
      var (s1, u1) := UP.LoopStart(w, step.key, step.env).value;
      StartOwns(w, step.key, step.env);
      QuotableSpelled(w, step.key, step.env);
      LoopStraysIff(w, step.key, step.env, s1, u1);
    }
  }

  // ---------------------------------------------------------------- every run

  /** The pass drops somebody's anonymous account, or grants on a name that covers a schema of others. */
  ghost predicate ReachesOthers(w: World, step: Step) {
    HitsAnonymous(w, step) || LoopCovers(w, step)
  }

  ghost predicate NeverReaches(w: World, steps: seq<Step>)
    decreases |steps|
  {
    steps == [] || (!ReachesOthers(w, steps[0]) && NeverReaches(Next(w, steps[0]), steps[1..]))
  }

  ghost predicate NeverCovers(w: World, steps: seq<Step>)
    decreases |steps|
  {
    steps == [] || (!LoopCovers(w, steps[0]) && NeverCovers(Next(w, steps[0]), steps[1..]))
  }

  lemma {:induction false} NeverMisplacedIff(w: World, steps: seq<Step>)
    requires Inv(w) && QuotableWorld(w) && BenignRun(w, steps) && QuotableRun(steps)
    ensures NeverMisplaced(w, steps) <==> NeverCovers(w, steps)
    decreases |steps|
  {
    if steps != [] {
      assert QuotableStep(steps[0]);
      MisplacedIff(w, steps[0]);
      if !LoopCovers(w, steps[0]) {
        NextInv(w, steps[0]);
        QuotableNext(w, steps[0]);
        NeverMisplacedIff(Next(w, steps[0]), steps[1..]);
      }
    }
  }

  lemma {:induction false} NeverStraysIff(w: World, steps: seq<Step>)
    requires Inv(w) && QuotableWorld(w) && BenignRun(w, steps) && QuotableRun(steps)
    ensures NeverStrays(w, steps) <==> NeverReaches(w, steps)
    decreases |steps|
  {
    if steps != [] {
      assert QuotableStep(steps[0]);
      MisplacedIff(w, steps[0]);
      if !ReachesOthers(w, steps[0]) {
        NextInv(w, steps[0]);
        QuotableNext(w, steps[0]);
        NeverStraysIff(Next(w, steps[0]), steps[1..]);
      }
    }
  }

  /**
   * Over every run in which users write names that can be quoted and plain words: every statement keeps to
   * the objects made for its custom resource, or for its namespace, if and only if no pass drops somebody's
   * anonymous account and no grant loop comes to a grantable entry whose name covers a schema of others.
   */
  lemma QuotableRunsExactly(w: World, steps: seq<Step>)
    requires Initial(w) && BenignRun(w, steps) && QuotableRun(steps)
    ensures AllAuthorised(Run(w, steps).server) <==> NeverReaches(w, steps)
    ensures NeverMisplaced(w, steps) <==> NeverCovers(w, steps)
  {
    InitialInv(w);
    NeverStraysIff(w, steps);
    NeverMisplacedIff(w, steps);
    OwnershipSafety(w, steps);
  }
}
