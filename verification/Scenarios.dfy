/**
 * Building blocks for concrete runs: what it takes, step by step, to make an account or a schema for a new
 * object, and runs put together from parts.
 */
module Scenarios {
  import opened Basics
  import opened SqlText
  import opened SqlStatements
  import opened SqlTexts
  import opened Model
  import opened Ownership
  import opened Safety
  import opened Runs
  import opened Charsets
  import US = UserSafety
  import UP = UserPasses
  import UC = UserConvergence
  import DP = DatabaseReconciler

  // ---------------------------------------------------------------- runs in parts

  lemma {:induction false} RunParts(w: World, a: seq<Step>, b: seq<Step>)
    ensures Run(w, a + b) == Run(Run(w, a), b)
    ensures BenignRun(w, a) && BenignRun(Run(w, a), b) ==> BenignRun(w, a + b)
    decreases |a|
  {
    if a == [] {
      assert a + b == b;
    } else {
      assert (a + b)[1..] == a[1..] + b;
      RunParts(Next(w, a[0]), a[1..], b);
    }
  }

  /** The steps lead from one world to the other, and everything a run relies on holds on the way. */
  ghost predicate Leads(w: World, steps: seq<Step>, w': World) {
    Run(w, steps) == w' && BenignRun(w, steps)
  }

  lemma Compose(w: World, a: seq<Step>, w1: World, b: seq<Step>, w2: World)
    requires Leads(w, a, w1) && Leads(w1, b, w2)
    ensures Leads(w, a + b, w2)
  {
    RunParts(w, a, b);
  }

  /** The same without the assumptions. */
  ghost predicate Goes(w: World, steps: seq<Step>, w': World) {
    Run(w, steps) == w'
  }

  lemma GoOn(w: World, a: seq<Step>, w1: World, b: seq<Step>, w2: World)
    requires Goes(w, a, w1) && Goes(w1, b, w2)
    ensures Goes(w, a + b, w2)
  {
    RunParts(w, a, b);
  }

  lemma GoThree(w: World, a: seq<Step>, w1: World, b: seq<Step>, w2: World, c: seq<Step>, w3: World)
    requires Goes(w, a, w1) && Goes(w1, b, w2) && Goes(w2, c, w3)
    ensures Goes(w, a + b + c, w3)
  {
    GoOn(w, a, w1, b, w2);
    GoOn(w, a + b, w2, c, w3);
  }

  lemma GoFour(w: World, a: seq<Step>, w1: World, b: seq<Step>, w2: World, c: seq<Step>, w3: World, d: seq<Step>, w4: World)
    requires Goes(w, a, w1) && Goes(w1, b, w2) && Goes(w2, c, w3) && Goes(w3, d, w4)
    ensures Goes(w, a + b + c + d, w4)
  {
    GoThree(w, a, w1, b, w2, c, w3);
    GoOn(w, a + b + c, w3, d, w4);
  }

  lemma AnyStep(w: World, step: Step)
    ensures Goes(w, [step], Next(w, step))
  {
    assert [step][1..] == [];
  }

  /** The environment, but for these calls, which fail. */
  function Without(env: Env, calls: set<Call>): Env {
    env.(ok := (c: Call) => c !in calls && env.ok(c))
  }

  lemma OneStep(w: World, step: Step)
    requires Benign(w, step)
    ensures Leads(w, [step], Next(w, step))
  {
    assert [step][1..] == [];
  }

  lemma UserStep(w: World, k: Key, env: Env)
    requires AllSucceed(env)
    ensures Leads(w, [ReconcileUser(k, env)], UP.UserPass(w, k, env))
  {
    OneStep(w, ReconcileUser(k, env));
  }

  lemma DatabaseStep(w: World, k: Key, env: Env)
    requires AllSucceed(env)
    ensures Leads(w, [ReconcileDatabase(k, env)], DP.DatabasePass(w, k, env))
  {
    OneStep(w, ReconcileDatabase(k, env));
  }

  lemma ObjectStepLeads(w: World, step: Step)
    requires !step.ReconcileUser? && !step.ReconcileDatabase? && !IsOutside(step)
    ensures Leads(w, [step], ObjectStep(w, step))
  {
    OneStep(w, step);
  }

  lemma EditLeads(w: World, k: Key, spec: UserSpec)
    requires k in w.users && spec.username != []
    ensures Leads(w, [EditUserObject(k, spec)], w.(users := w.users[k := w.users[k].(spec := spec)]))
  {
    ObjectStepLeads(w, EditUserObject(k, spec));
  }

  lemma OutsideStepLeads(w: World, step: Step)
    requires IsOutside(step) && BenignOutside(w, step)
    ensures Leads(w, [step], OutsideStep(w, step))
  {
    OneStep(w, step);
  }

  function Repeat(step: Step, n: nat): seq<Step> { seq(n, i => step) }

  /** Passes over one object as a run. */
  lemma {:induction false} RunPasses(w: World, k: Key, env: Env, n: nat)
    requires AllSucceed(env)
    ensures Leads(w, Repeat(ReconcileUser(k, env), n), UC.Passes(w, k, env, n))
    decreases n
  {
    if n > 0 {
      var step := ReconcileUser(k, env);
      UserStep(w, k, env);
      RunPasses(UP.UserPass(w, k, env), k, env, n - 1);
      Compose(w, [step], UP.UserPass(w, k, env), Repeat(step, n - 1), UC.Passes(UP.UserPass(w, k, env), k, env, n - 1));
      assert Repeat(step, n) == [step] + Repeat(step, n - 1);
    }
  }

  // ---------------------------------------------------------------- a new account

  predicate Unidentified(spec: UserSpec) {
    spec.username != [] && spec.identification.None?
  }

  /** An object that asks for an account and nothing else. */
  predicate Bare(spec: UserSpec) {
    Unidentified(spec) && spec.databaseList == []
  }

  function ClaimedStatus(n: Bytes): UserStatus { UserStatus(n, [], [], None, 0, false) }

  function NewAccount(s: Server, k: Key, u: DatabaseUser): Account {
    Account(UP.Actor(k, u), Auth(s.defaultPlugin, None), false, map[], {})
  }

  /** The account of the claimed name made, and the specified name recorded. */
  function WithNewAccount(s: Server, k: Key, u: DatabaseUser): Server {
    s.(accounts := s.accounts[u.status.username := NewAccount(s, k, u)],
       managedUsers := s.managedUsers[u.uid := Row(k, u.spec.username)],
       issued := s.issued + [Issued(UP.Actor(k, u), OnAccount(CreateUser(u.status.username, NO_DETAILS)), {}, {})])
  }

  lemma ClaimPass(w: World, k: Key, env: Env)
    requires k in w.users && !w.users[k].deleting && Unidentified(w.users[k].spec) && w.users[k].status == NEW_USER_STATUS
    requires env.connect && env.ok(UpdateStatus) && DecidesUser(w.server, k, w.users[k], env, 0)
    ensures UP.UserPass(w, k, env) == w.(users := w.users[k := w.users[k].(status := ClaimedStatus(w.users[k].spec.username))])
  {
  }

  lemma FinalizerPass(w: World, k: Key, env: Env)
    requires AllSucceed(env) && k in w.users && !w.users[k].deleting && !w.users[k].finalizer && w.users[k].spec.identification.None?
    requires w.users[k].status.username != []
    ensures UP.UserPass(w, k, env) == w.(users := w.users[k := w.users[k].(finalizer := true)])
  {
  }

  lemma GrantNothing(s: Server, u: DatabaseUser, k: Key, databases: map<Key, Database>, env: Env)
    requires AllSucceed(env) && Bare(u.spec) && u.status.grants == [] && u.status.databaseList == []
    requires u.status.username in s.accounts && s.accounts[u.status.username].privileges == map[]
    ensures UP.GrantAll(s, u, k, databases, env) == UP.Outcome(s, u, true)
  {
    assert |env.order(map[])| == 0;
    assert UP.Lines(map[], u.status.username, env) == [];
  }

  lemma NotSeen(s: Server, u: DatabaseUser, k: Key, databases: map<Key, Database>, env: Env)
    requires u.status.username !in s.accounts
    ensures UP.Converge(s, u, k, databases, None, env) == UP.UserCreate(s, u, k, databases, None, env)
  {
  }

  lemma CreateBare(s: Server, u: DatabaseUser, k: Key, databases: map<Key, Database>, env: Env)
    requires AllSucceed(env) && Bare(u.spec) && u.status.username != [] && u.status == ClaimedStatus(u.status.username)
    requires u.status.username !in s.accounts
    ensures UP.Converge(s, u, k, databases, None, env) == UP.Outcome(WithNewAccount(s, k, u), u, true)
  {
    US.CreateGoesThrough(s, u, k, databases, None, env);
    assert UP.Tracking(u, []) == u;
    GrantNothing(UP.Send(s, k, u, CreateUser(u.status.username, NO_DETAILS), true).0, u, k, databases, env);
    NotSeen(s, u, k, databases, env);
  }

  lemma ServerPart(w: World, k: Key, env: Env)
    requires AllSucceed(env) && k in w.users && !w.users[k].deleting && w.users[k].finalizer
    requires w.users[k].spec.identification.None? && w.users[k].status.username != []
    ensures UP.UserPass(w, k, env).server == UP.Converge(w.server, w.users[k], k, w.databases, None, env).server
  {
  }

  /** The pass that finds the claimed name free makes the account. */
  lemma CreatePass(w: World, k: Key, env: Env)
    requires AllSucceed(env) && k in w.users && !w.users[k].deleting && w.users[k].finalizer && Bare(w.users[k].spec)
    requires w.users[k].status.username != [] && w.users[k].status == ClaimedStatus(w.users[k].status.username)
    requires w.users[k].status.username !in w.server.accounts
    ensures UP.UserPass(w, k, env) == w.(server := WithNewAccount(w.server, k, w.users[k]))
  {
    var u := w.users[k];
    CreateBare(w.server, u, k, w.databases, env);
    assert w.users[k := u] == w.users;
  }

  function NewUser(w: World, k: Key, uid: Uid, spec: UserSpec, claimed: Bytes): World {
    w.(users := w.users[k := DatabaseUser(uid, spec, ClaimedStatus(claimed), true, false)], uids := w.uids + {uid})
  }

  function ClaimSteps(k: Key, uid: Uid, spec: UserSpec, env: Env): seq<Step> {
    [CreateUserObject(k, uid, spec)] + ([ReconcileUser(k, env)] + [ReconcileUser(k, env)])
  }

  lemma NewObject(w: World, k: Key, uid: Uid, spec: UserSpec, u: DatabaseUser)
    requires k !in w.users && uid !in w.uids && spec.username != []
    ensures var w1 := ObjectStep(w, CreateUserObject(k, uid, spec));
            && k in w1.users && w1.users[k] == DatabaseUser(uid, spec, NEW_USER_STATUS, false, false)
            && w1 == w.(users := w1.users, uids := w.uids + {uid})
            && w1.users[k := u] == w.users[k := u]
  {
  }

  /** Creation of the object and two passes: name claimed, finalizer set. */
  lemma ClaimRun(w: World, k: Key, uid: Uid, spec: UserSpec, env: Env)
    requires AllSucceed(env) && k !in w.users && uid !in w.uids && Unidentified(spec) && spec.username !in w.server.accounts
    ensures Leads(w, ClaimSteps(k, uid, spec, env), NewUser(w, k, uid, spec, spec.username))
  {
    var w1 := ObjectStep(w, CreateUserObject(k, uid, spec));
    ObjectStepLeads(w, CreateUserObject(k, uid, spec));
    NewObject(w, k, uid, spec, DatabaseUser(uid, spec, ClaimedStatus(spec.username), true, false));
    ClaimTwoPasses(w1, k, env);
    Compose(w, [CreateUserObject(k, uid, spec)], w1, [ReconcileUser(k, env)] + [ReconcileUser(k, env)], NewUser(w, k, uid, spec, spec.username));
  }

  lemma ClaimTwoPasses(w: World, k: Key, env: Env)
    requires AllSucceed(env) && k in w.users && !w.users[k].deleting && !w.users[k].finalizer && Unidentified(w.users[k].spec)
    requires w.users[k].status == NEW_USER_STATUS && w.users[k].spec.username !in w.server.accounts
    ensures Leads(w, [ReconcileUser(k, env)] + [ReconcileUser(k, env)],
                  w.(users := w.users[k := w.users[k].(status := ClaimedStatus(w.users[k].spec.username), finalizer := true)]))
  {
    assert Names(w.users[k]) == [w.users[k].spec.username];
    ClaimPass(w, k, env);
    UserStep(w, k, env);
    var w1 := UP.UserPass(w, k, env);
    FinalizerPass(w1, k, env);
    UserStep(w1, k, env);
    Compose(w, [ReconcileUser(k, env)], w1, [ReconcileUser(k, env)], UP.UserPass(w1, k, env));
  }

  /** The world with the object served: account, ledger row, claimed name and finalizer. */
  function Made(w: World, k: Key, uid: Uid, spec: UserSpec): World {
    var w1 := NewUser(w, k, uid, spec, spec.username);
    w1.(server := WithNewAccount(w.server, k, w1.users[k]))
  }

  function MakeSteps(k: Key, uid: Uid, spec: UserSpec, env: Env): seq<Step> {
    ClaimSteps(k, uid, spec, env) + [ReconcileUser(k, env)]
  }

  lemma MakeRun(w: World, k: Key, uid: Uid, spec: UserSpec, env: Env)
    requires AllSucceed(env) && k !in w.users && uid !in w.uids && Bare(spec) && spec.username !in w.server.accounts
    ensures Leads(w, MakeSteps(k, uid, spec, env), Made(w, k, uid, spec))
  {
    var w1 := NewUser(w, k, uid, spec, spec.username);
    ClaimRun(w, k, uid, spec, env);
    CreatePass(w1, k, env);
    UserStep(w1, k, env);
    Compose(w, ClaimSteps(k, uid, spec, env), w1, [ReconcileUser(k, env)], Made(w, k, uid, spec));
  }

  // ---------------------------------------------------------------- a new schema

  /** The schema made, its row saved and its attributes read back. */
  function WithNewSchema(s: Server, k: Key, uid: Uid, spec: DatabaseSpec, cs: Bytes, co: Bytes): Server {
    s.(schemas := s.schemas[spec.name := Schema(Cr(uid, k.namespace), cs, co)],
       managedDatabases := s.managedDatabases[uid := Row(k, spec.name)],
       issued := s.issued + [Issued(Cr(uid, k.namespace), CreateDatabase(spec.name, spec.characterSet, spec.collate), {}, {})])
  }

  function MadeDatabase(w: World, k: Key, uid: Uid, spec: DatabaseSpec, cs: Bytes, co: Bytes): World {
    w.(server := WithNewSchema(w.server, k, uid, spec, cs, co),
       databases := w.databases[k := Database(uid, spec, DatabaseStatus(spec.name, cs, co), true, false)],
       uids := w.uids + {uid})
  }

  function MakeDatabaseSteps(k: Key, uid: Uid, spec: DatabaseSpec, c: Connection, env: Env): seq<Step> {
    [CreateDatabaseObject(k, uid, spec, c)] + ([ReconcileDatabase(k, env)] + [ReconcileDatabase(k, env)])
  }

  lemma CreateSchema(s: Server, k: Key, d: Database, env: Env)
    requires AllSucceed(env) && Quotable(d.spec.name) && PlainOption(d.spec.characterSet) && PlainOption(d.spec.collate)
    requires d.spec.name != [] && d.spec.name !in s.schemas && d.uid !in s.managedDatabases
    requires Resolve(s.catalog, d.spec.characterSet, d.spec.collate).Some?
    ensures var (cs, co) := Resolve(s.catalog, d.spec.characterSet, d.spec.collate).value;
            DP.Converge(s, k, d, env) == (WithNewSchema(s, k, d.uid, d.spec, cs, co), d.(status := DatabaseStatus(d.spec.name, cs, co)))
  {
    var d1 := DP.Started(s, d, env);
    assert ReadAsCreate(env.reader(DP.CreateText(d1)), d.spec.name, d.spec.characterSet, d.spec.collate);
    assert DP.Converge(s, k, d, env) == DP.Create(s, k, d1, env);
  }

  lemma CreateSchemaPass(w: World, k: Key, env: Env)
    requires AllSucceed(env) && k in w.databases && !w.databases[k].deleting && w.databases[k].finalizer
    requires var d := w.databases[k];
             && d.spec.connection != [] && Quotable(d.spec.name) && PlainOption(d.spec.characterSet) && PlainOption(d.spec.collate)
             && d.spec.name != [] && d.spec.name !in w.server.schemas && d.uid !in w.server.managedDatabases
             && Resolve(w.server.catalog, d.spec.characterSet, d.spec.collate).Some?
    ensures var d := w.databases[k];
            var (cs, co) := Resolve(w.server.catalog, d.spec.characterSet, d.spec.collate).value;
            DP.DatabasePass(w, k, env) == w.(server := WithNewSchema(w.server, k, d.uid, d.spec, cs, co),
                                             databases := w.databases[k := d.(status := DatabaseStatus(d.spec.name, cs, co))])
  {
    CreateSchema(w.server, k, w.databases[k], env);
  }

  lemma DatabaseFinalizerPass(w: World, k: Key, env: Env)
    requires AllSucceed(env) && k in w.databases && !w.databases[k].deleting && !w.databases[k].finalizer
    requires w.databases[k].spec.connection != []
    ensures DP.DatabasePass(w, k, env) == w.(databases := w.databases[k := w.databases[k].(finalizer := true)])
  {
  }

  lemma MakeTwoPasses(w: World, k: Key, env: Env)
    requires AllSucceed(env) && k in w.databases && !w.databases[k].deleting && !w.databases[k].finalizer
    requires var d := w.databases[k];
             && d.spec.connection != [] && Quotable(d.spec.name) && PlainOption(d.spec.characterSet) && PlainOption(d.spec.collate)
             && d.spec.name != [] && d.spec.name !in w.server.schemas && d.uid !in w.server.managedDatabases
             && Resolve(w.server.catalog, d.spec.characterSet, d.spec.collate).Some?
    ensures var d := w.databases[k];
            var (cs, co) := Resolve(w.server.catalog, d.spec.characterSet, d.spec.collate).value;
            Leads(w, [ReconcileDatabase(k, env)] + [ReconcileDatabase(k, env)],
                  w.(server := WithNewSchema(w.server, k, d.uid, d.spec, cs, co),
                     databases := w.databases[k := d.(status := DatabaseStatus(d.spec.name, cs, co), finalizer := true)]))
  {
    DatabaseFinalizerPass(w, k, env);
    DatabaseStep(w, k, env);
    var w1 := DP.DatabasePass(w, k, env);
    CreateSchemaPass(w1, k, env);
    DatabaseStep(w1, k, env);
    Compose(w, [ReconcileDatabase(k, env)], w1, [ReconcileDatabase(k, env)], DP.DatabasePass(w1, k, env));
  }

  lemma NewDatabase(w: World, k: Key, uid: Uid, spec: DatabaseSpec, c: Connection, d: Database)
    requires k !in w.databases && uid !in w.uids && Admits(ValidateCreate(spec, c))
    ensures var w1 := ObjectStep(w, CreateDatabaseObject(k, uid, spec, c));
            && k in w1.databases && w1.databases[k] == Database(uid, spec, NEW_DATABASE_STATUS, false, false)
            && w1 == w.(databases := w1.databases, uids := w.uids + {uid})
            && w1.databases[k := d] == w.databases[k := d]
  {
  }

  /** Creation of the object and two passes: finalizer set, schema made. */
  lemma MakeDatabaseRun(w: World, k: Key, uid: Uid, spec: DatabaseSpec, c: Connection, env: Env)
    requires AllSucceed(env) && k !in w.databases && uid !in w.uids && uid !in w.server.managedDatabases
    requires Admits(ValidateCreate(spec, c)) && spec.connection != [] && spec.name !in w.server.schemas
    requires Quotable(spec.name) && PlainOption(spec.characterSet) && PlainOption(spec.collate)
    requires Resolve(w.server.catalog, spec.characterSet, spec.collate).Some?
    ensures var (cs, co) := Resolve(w.server.catalog, spec.characterSet, spec.collate).value;
            Leads(w, MakeDatabaseSteps(k, uid, spec, c, env), MadeDatabase(w, k, uid, spec, cs, co))
  {
    NameOkNonempty(spec.name);
    var (cs, co) := Resolve(w.server.catalog, spec.characterSet, spec.collate).value;
    var w1 := ObjectStep(w, CreateDatabaseObject(k, uid, spec, c));
    ObjectStepLeads(w, CreateDatabaseObject(k, uid, spec, c));
    NewDatabase(w, k, uid, spec, c, Database(uid, spec, DatabaseStatus(spec.name, cs, co), true, false));
    MakeTwoPasses(w1, k, env);
    Compose(w, [CreateDatabaseObject(k, uid, spec, c)], w1, [ReconcileDatabase(k, env)] + [ReconcileDatabase(k, env)],
            MadeDatabase(w, k, uid, spec, cs, co));
  }

  // ---------------------------------------------------------------- deletion passes

  /** What a deletion pass that decides to drop, and whose text names `n`, leaves of the server. */
  function Dropped(s: Server, k: Key, d: Database, n: Bytes, env: Env): Server {
    s.(schemas := s.schemas - {n},
       managedDatabases := if env.ok(DeleteRow) then s.managedDatabases - {d.uid} else s.managedDatabases,
       issued := s.issued + [Entry(s, DP.Actor(k, d), DropDatabase(n))])
  }

  function Gone<T>(m: map<Key, T>, k: Key, gone: bool): map<Key, T> { if gone then m - {k} else m }

  lemma DropReadPass(w: World, k: Key, n: Bytes, env: Env)
    requires k in w.databases && w.databases[k].deleting && w.databases[k].finalizer && DP.Connected(w.databases[k], env)
    requires env.reader(DP.DropText(w.databases[k])) == Some(DropDatabase(n)) && env.ok(SendDrop)
    ensures var d := w.databases[k];
            DP.DatabasePass(w, k, env) ==
              w.(server := if DecidesDatabase(w.server, k, d, env, 1) then Dropped(w.server, k, d, n, env) else w.server,
                 databases := Gone(w.databases, k, env.ok(UpdateFinalizer)))
  {
  }

  lemma DropPass(w: World, k: Key, env: Env)
    requires k in w.databases && w.databases[k].deleting && w.databases[k].finalizer && DP.Connected(w.databases[k], env)
    requires Quotable(w.databases[k].spec.name) && Literate(env.reader) && env.ok(SendDrop)
    ensures var d := w.databases[k];
            DP.DatabasePass(w, k, env) ==
              w.(server := if DecidesDatabase(w.server, k, d, env, 1) then Dropped(w.server, k, d, d.spec.name, env) else w.server,
                 databases := Gone(w.databases, k, env.ok(UpdateFinalizer)))
  {
    assert ReadAsDrop(env.reader(DP.DropText(w.databases[k])), w.databases[k].spec.name);
    DropReadPass(w, k, w.databases[k].spec.name, env);
  }

  function DroppedUser(s: Server, k: Key, u: DatabaseUser, env: Env): Server {
    s.(accounts := s.accounts - {u.status.username},
       managedUsers := if env.ok(DeleteRow) then s.managedUsers - {u.uid} else s.managedUsers,
       issued := s.issued + [Entry(s, UP.Actor(k, u), OnAccount(DropUser(u.status.username)))])
  }

  lemma DropUserPass(w: World, k: Key, env: Env)
    requires k in w.users && w.users[k].deleting && w.users[k].finalizer && env.connect && env.ok(SendDrop)
    ensures var u := w.users[k];
            UP.UserPass(w, k, env) ==
              w.(server := if DecidesUser(w.server, k, u, env, 0) then DroppedUser(w.server, k, u, env) else w.server,
                 users := Gone(w.users, k, env.ok(UpdateFinalizer)))
  {
  }
}
