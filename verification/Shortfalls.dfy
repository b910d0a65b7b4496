/**
 * Runs from a fresh start, with nobody else at work, in which a specification is not served: TLS without
 * an identification, a name edited before its account is made, another use of the same secret, and a
 * rename whose status write is lost.
 */
module Shortfalls {
  import opened Basics
  import opened Model
  import opened Ownership
  import opened Safety
  import opened Runs
  import opened OwnershipTheorems
  import opened UserConvergence
  import opened SpecChanges
  import opened Recovery
  import opened LostStatus
  import opened Scenarios
  import US = UserSafety
  import UP = UserPasses
  import opened Secrets

  // ---------------------------------------------------------------- TLS

  function CreateAndPasses(k: Key, uid: Uid, spec: UserSpec, env: Env, n: nat): seq<Step> {
    [CreateUserObject(k, uid, spec)] + Repeat(ReconcileUser(k, env), n)
  }

  lemma CreateAndPassesLead(w: World, k: Key, uid: Uid, spec: UserSpec, env: Env, n: nat)
    requires AllSucceed(env)
    ensures Leads(w, CreateAndPasses(k, uid, spec, env, n), Passes(ObjectStep(w, CreateUserObject(k, uid, spec)), k, env, n))
  {
    var w1 := ObjectStep(w, CreateUserObject(k, uid, spec));
    ObjectStepLeads(w, CreateUserObject(k, uid, spec));
    RunPasses(w1, k, env, n);
    Compose(w, [CreateUserObject(k, uid, spec)], w1, Repeat(ReconcileUser(k, env), n), Passes(w1, k, env, n));
  }

  /** A new object without identification that asks for TLS: after any number of passes its account goes without. */
  lemma TlsIgnoredRun(w: World, k: Key, uid: Uid, spec: UserSpec, env: Env, n: nat)
    requires Initial(w) && AllSucceed(env) && uid !in w.uids && Bare(spec) && spec.tls && spec.username !in w.server.accounts && n >= 7
    ensures BenignRun(w, CreateAndPasses(k, uid, spec, env, n))
    ensures var w' := Run(w, CreateAndPasses(k, uid, spec, env, n));
            && k in w'.users && w'.users[k].spec == spec
            && spec.username in w'.server.accounts && !w'.server.accounts[spec.username].tls
  {
    CreateAndPassesLead(w, k, uid, spec, env, n);
    NewObjectConverges(w, k, uid, spec, env, n);
  }

  /** A settled object's status says what its account requires, and the pass reaches the server. */
  lemma SettledTls(w: World, k: Key, env: Env)
    requires WellFormed(w, k, env) && AllSucceed(env) && Stage(w, k, env) == 0 && w.users[k].spec.identification.Some?
    ensures var u := w.users[k];
            && u.status.tls == u.spec.tls && u.status.username == u.spec.username && u.status.username != []
            && ReachesServer(w, k, env) && UP.DetailsFor(u, UP.SecretOf(w, k, u), true, env).Some?
  {
    SettledMatches(w, k, env);
  }

  /** Somebody drops the account of a settled object with an identification that asks for TLS: it comes back without. */
  lemma RecreatedWithoutTls(w: World, k: Key, env: Env)
    requires WellFormed(w, k, env) && AllSucceed(env) && Stage(w, k, env) == 0
    requires w.users[k].spec.identification.Some? && w.users[k].spec.tls
    ensures var n := w.users[k].spec.username;
            var w2 := UP.UserPass(OutsideStep(w, OutsideDropAccount(n)), k, env);
            n in w2.server.accounts && !w2.server.accounts[n].tls
  {
    var u := w.users[k];
    SettledTls(w, k, env);
    var w1 := OutsideStep(w, OutsideDropAccount(u.spec.username));
    StillReaches(w, k, u.spec.username, env);
    FreeNamePass(w1, k, env);
    CreatedTls(w1.server, u, k, w1.databases, UP.SecretOf(w1, k, u), env);
  }

  /** The same as a run; only the drop is nothing a run relies on others not to do. */
  lemma TlsLostRun(w: World, k: Key, uid: Uid, spec: UserSpec, env: Env, n: nat)
    requires AllSucceed(env) && k !in w.users && uid !in w.uids && spec.username != [] && spec.username !in w.server.accounts
    requires spec.identification.Some? && spec.tls && Servable(w, k, DatabaseUser(uid, spec, NEW_USER_STATUS, false, false)) && n >= 7
    ensures BenignRun(w, CreateAndPasses(k, uid, spec, env, n))
    ensures var w' := Run(w, CreateAndPasses(k, uid, spec, env, n) + [OutsideDropAccount(spec.username)] + [ReconcileUser(k, env)]);
            spec.username in w'.server.accounts && !w'.server.accounts[spec.username].tls
  {
    var w1 := Passes(ObjectStep(w, CreateUserObject(k, uid, spec)), k, env, n);
    var w2 := OutsideStep(w1, OutsideDropAccount(spec.username));
    CreateAndPassesLead(w, k, uid, spec, env, n);
    NewObjectConverges(w, k, uid, spec, env, n);
    RecreatedWithoutTls(w1, k, env);
    AnyStep(w1, OutsideDropAccount(spec.username));
    AnyStep(w2, ReconcileUser(k, env));
    GoThree(w, CreateAndPasses(k, uid, spec, env, n), w1, [OutsideDropAccount(spec.username)], w2, [ReconcileUser(k, env)], UP.UserPass(w2, k, env));
  }

  // ---------------------------------------------------------------- a name edited before its account is made

  /** The object claims an account that exists while its row holds the name it asks for now. */
  ghost predicate Deadlocked(w: World, k: Key, a: Bytes, b: Bytes) {
    && k in w.users && a != [] && b != [] && a != b
    && w.users[k].status.username == a && w.users[k].spec.username == b
    && a in w.server.accounts && RowIs(w.server.managedUsers, w.users[k].uid, k, b)
  }

  lemma DeadlockedPass(w: World, k: Key, a: Bytes, b: Bytes, env: Env)
    requires Deadlocked(w, k, a, b) && LookupsOk(env)
    ensures UP.UserPass(w, k, env).server == w.server
    ensures k in UP.UserPass(w, k, env).users ==> Deadlocked(UP.UserPass(w, k, env), k, a, b)
  {
    var u := w.users[k];
    NeverMine(w.server, k, u, b, env, 0);
    NeverMine(w.server, k, UP.Observed(w.server, u, env), b, env, 2);
    OwnPassServer(w, k, env);
    UserPassSpecs(w, k, env);
  }

  /** The server as it is, and the object deadlocked or gone. */
  ghost predicate LeftBehind(w: World, s: Server, k: Key, a: Bytes, b: Bytes) {
    w.server == s && (k in w.users ==> Deadlocked(w, k, a, b))
  }

  lemma LeftBehindPass(w: World, s: Server, k: Key, a: Bytes, b: Bytes, env: Env)
    requires LeftBehind(w, s, k, a, b) && LookupsOk(env)
    ensures LeftBehind(UP.UserPass(w, k, env), s, k, a, b)
  {
    if k in w.users {
      DeadlockedPass(w, k, a, b, env);
    }
  }

  lemma {:induction false} LeftBehindForever(w: World, s: Server, k: Key, a: Bytes, b: Bytes, env: Env, n: nat)
    requires LeftBehind(w, s, k, a, b) && LookupsOk(env)
    ensures LeftBehind(Passes(w, k, env, n), s, k, a, b)
    decreases n
  {
    if n > 0 {
      LeftBehindPass(w, s, k, a, b, env);
      LeftBehindForever(UP.UserPass(w, k, env), s, k, a, b, env, n - 1);
    }
  }

  /** A name is claimed, the object edited to another one, and the next pass makes the account. */
  function EarlyEditSteps(k: Key, uid: Uid, spec: UserSpec, b: Bytes, env: Env): seq<Step> {
    ClaimSteps(k, uid, spec, env) + [EditUserObject(k, spec.(username := b))] + [ReconcileUser(k, env)]
  }

  /** The world after it: the account bears the name claimed, the row the name asked for. */
  function EarlyEdited(w: World, k: Key, uid: Uid, spec: UserSpec, b: Bytes): World {
    var w1 := NewUser(w, k, uid, spec.(username := b), spec.username);
    w1.(server := WithNewAccount(w.server, k, w1.users[k]))
  }

  lemma ComposeThree(w: World, a: seq<Step>, w1: World, b: seq<Step>, w2: World, c: seq<Step>, w3: World)
    requires Leads(w, a, w1) && Leads(w1, b, w2) && Leads(w2, c, w3)
    ensures Leads(w, a + b + c, w3)
  {
    Compose(w, a, w1, b, w2);
    Compose(w, a + b, w2, c, w3);
  }

  lemma EarlyEditRun(w: World, k: Key, uid: Uid, spec: UserSpec, b: Bytes, env: Env)
    requires AllSucceed(env) && k !in w.users && uid !in w.uids && Bare(spec) && b != [] && spec.username !in w.server.accounts
    ensures Leads(w, EarlyEditSteps(k, uid, spec, b, env), EarlyEdited(w, k, uid, spec, b))
  {
    var w1 := NewUser(w, k, uid, spec, spec.username);
    var w2 := NewUser(w, k, uid, spec.(username := b), spec.username);
    ClaimRun(w, k, uid, spec, env);
    EditLeads(w1, k, spec.(username := b));
    assert w1.users[k := w1.users[k].(spec := spec.(username := b))] == w2.users;
    CreatePass(w2, k, env);
    UserStep(w2, k, env);
    ComposeThree(w, ClaimSteps(k, uid, spec, env), w1, [EditUserObject(k, spec.(username := b))], w2, [ReconcileUser(k, env)],
                 EarlyEdited(w, k, uid, spec, b));
  }

  lemma ThenPasses(w: World, a: seq<Step>, w1: World, k: Key, env: Env, n: nat)
    requires Leads(w, a, w1) && AllSucceed(env)
    ensures Leads(w, a + Repeat(ReconcileUser(k, env), n), Passes(w1, k, env, n))
  {
    RunPasses(w1, k, env, n);
    Compose(w, a, w1, Repeat(ReconcileUser(k, env), n), Passes(w1, k, env, n));
  }

  lemma EarlyEditedBehind(w: World, k: Key, uid: Uid, spec: UserSpec, b: Bytes)
    requires Bare(spec) && b != [] && b != spec.username
    ensures var w1 := EarlyEdited(w, k, uid, spec, b);
            && LeftBehind(w1, w1.server, k, spec.username, b)
            && LeftBehind(ObjectStep(w1, DeleteUserObject(k)), w1.server, k, spec.username, b)
            && OwnsAccount(w1.server, spec.username, Cr(uid, k.namespace))
            && (b !in w.server.accounts ==> b !in w1.server.accounts)
  {
  }

  /** The account made under the claimed name is never renamed, and the name asked for never made. */
  lemma EarlyEditDeadlocks(w: World, k: Key, uid: Uid, spec: UserSpec, b: Bytes, env: Env, n: nat)
    requires Initial(w) && AllSucceed(env) && uid !in w.uids && Bare(spec)
    requires b != [] && b != spec.username && spec.username !in w.server.accounts && b !in w.server.accounts
    ensures var steps := EarlyEditSteps(k, uid, spec, b, env) + Repeat(ReconcileUser(k, env), n);
            && BenignRun(w, steps)
            && OwnsAccount(Run(w, steps).server, spec.username, Cr(uid, k.namespace)) && b !in Run(w, steps).server.accounts
  {
    var w1 := EarlyEdited(w, k, uid, spec, b);
    EarlyEditRun(w, k, uid, spec, b, env);
    EarlyEditedBehind(w, k, uid, spec, b);
    LeftBehindForever(w1, w1.server, k, spec.username, b, env, n);
    ThenPasses(w, EarlyEditSteps(k, uid, spec, b, env), w1, k, env, n);
  }

  /** When the object is deleted, the account stays behind. */
  lemma EarlyEditLeaks(w: World, k: Key, uid: Uid, spec: UserSpec, b: Bytes, env: Env, n: nat)
    requires Initial(w) && AllSucceed(env) && uid !in w.uids && Bare(spec)
    requires b != [] && b != spec.username && spec.username !in w.server.accounts
    ensures var steps := EarlyEditSteps(k, uid, spec, b, env) + [DeleteUserObject(k)] + Repeat(ReconcileUser(k, env), n);
            && BenignRun(w, steps)
            && OwnsAccount(Run(w, steps).server, spec.username, Cr(uid, k.namespace))
  {
    var w1 := EarlyEdited(w, k, uid, spec, b);
    var w2 := ObjectStep(w1, DeleteUserObject(k));
    EarlyEditRun(w, k, uid, spec, b, env);
    EarlyEditedBehind(w, k, uid, spec, b);
    ObjectStepLeads(w1, DeleteUserObject(k));
    Compose(w, EarlyEditSteps(k, uid, spec, b, env), w1, [DeleteUserObject(k)], w2);
    LeftBehindForever(w2, w1.server, k, spec.username, b, env, n);
    ThenPasses(w, EarlyEditSteps(k, uid, spec, b, env) + [DeleteUserObject(k)], w2, k, env, n);
  }

  // ---------------------------------------------------------------- a rename whose status write is lost

  function LostStatusSteps(k: Key, uid: Uid, spec: UserSpec, b: Bytes, env: Env): seq<Step> {
    (MakeSteps(k, uid, spec, env) + [EditUserObject(k, spec.(username := b))])
    + ([ReconcileUser(k, Without(env, {UpdateStatus}))] + [ReconcileUser(k, env)])
  }

  /** The world in which the rename is due. */
  function RenameAsked(w: World, k: Key, uid: Uid, spec: UserSpec, b: Bytes): World {
    var w1 := Made(w, k, uid, spec);
    w1.(users := w1.users[k := w1.users[k].(spec := spec.(username := b))])
  }

  lemma RenameAskedRun(w: World, k: Key, uid: Uid, spec: UserSpec, b: Bytes, env: Env)
    requires AllSucceed(env) && k !in w.users && uid !in w.uids && Bare(spec) && b != [] && spec.username !in w.server.accounts
    ensures Leads(w, MakeSteps(k, uid, spec, env) + [EditUserObject(k, spec.(username := b))], RenameAsked(w, k, uid, spec, b))
  {
    var w1 := Made(w, k, uid, spec);
    MakeRun(w, k, uid, spec, env);
    EditLeads(w1, k, spec.(username := b));
    Compose(w, MakeSteps(k, uid, spec, env), w1, [EditUserObject(k, spec.(username := b))], RenameAsked(w, k, uid, spec, b));
  }

  /** With one bare object and no Database objects the invariant can be read off. */
  lemma RenameAskedInv(w: World, k: Key, uid: Uid, spec: UserSpec, b: Bytes)
    requires Initial(w) && uid !in w.uids && Bare(spec) && b != [] && spec.username !in w.server.accounts
    ensures Inv(RenameAsked(w, k, uid, spec, b)) && PlainWorld(RenameAsked(w, k, uid, spec, b))
  {
  }

  lemma BareStartsClean(s: Server, u: DatabaseUser, k: Key, databases: map<Key, Database>, secret: Option<Secret>, env: Env)
    requires Bare(u.spec)
    ensures US.StartsClean(UP.CreateStart(s, u, k, secret, env), k, databases, env)
  {
  }

  /** The rename pass of a bare object, status lost, and what the next pass needs. */
  lemma LostStatusPass(w: World, k: Key, env: Env)
    requires Inv(w) && PlainWorld(w) && AllSucceed(env) && k in w.users && Bare(w.users[k].spec)
    requires !w.users[k].deleting && w.users[k].finalizer && RenameDue(w, k) && UserMine(w.server, k, w.users[k])
    ensures var env' := Without(env, {UpdateStatus});
            var w1 := UP.UserPass(w, k, env');
            && Benign(w, ReconcileUser(k, env')) && Renames(w, k, env')
            && k in w1.users && ReachesServer(w1, k, env) && !Misplaced(w1, ReconcileUser(k, env)) && CanCreate(w1, k, env)
  {
    var env' := Without(env, {UpdateStatus});
    RenamePass(w, k, env');
    var w1 := UP.UserPass(w, k, env');
    NextInv(w, ReconcileUser(k, env'));
    PlainNext(w, ReconcileUser(k, env'));
    BareCanCreate(w1, k, env);
  }

  lemma BareCanCreate(w: World, k: Key, env: Env)
    requires Inv(w) && PlainWorld(w) && AllSucceed(env) && k in w.users && Bare(w.users[k].spec)
    ensures !Misplaced(w, ReconcileUser(k, env)) && CanCreate(w, k, env)
  {
    PlainNotMisplaced(w, ReconcileUser(k, env));
    BareStartsClean(w.server, w.users[k], k, w.databases, UP.SecretOf(w, k, w.users[k]), env);
  }

  lemma LostStatusEnds(w: World, k: Key, env: Env)
    requires Inv(w) && PlainWorld(w) && AllSucceed(env) && k in w.users && Bare(w.users[k].spec)
    requires !w.users[k].deleting && w.users[k].finalizer && RenameDue(w, k) && UserMine(w.server, k, w.users[k])
    ensures var steps := [ReconcileUser(k, Without(env, {UpdateStatus}))] + [ReconcileUser(k, env)];
            var u := w.users[k];
            && BenignRun(w, steps) && Inv(Run(w, steps))
            && Stranded(Run(w, steps), k, u.uid, u.status.username, u.spec.username)
  {
    var env' := Without(env, {UpdateStatus});
    LostStatusPass(w, k, env);
    RenamedThenMine(w, k, env', env);
    var w1 := UP.UserPass(w, k, env');
    OneStep(w, ReconcileUser(k, env'));
    UserStep(w1, k, env);
    Compose(w, [ReconcileUser(k, env')], w1, [ReconcileUser(k, env)], UP.UserPass(w1, k, env));
  }

  lemma LostStatusLeads(w: World, k: Key, uid: Uid, spec: UserSpec, b: Bytes, env: Env)
    requires Initial(w) && AllSucceed(env) && uid !in w.uids && Bare(spec)
    requires b != [] && b != spec.username && spec.username !in w.server.accounts && b !in w.server.accounts
    ensures var steps := LostStatusSteps(k, uid, spec, b, env);
            BenignRun(w, steps) && Inv(Run(w, steps)) && Stranded(Run(w, steps), k, uid, spec.username, b)
  {
    var w1 := RenameAsked(w, k, uid, spec, b);
    RenameAskedRun(w, k, uid, spec, b, env);
    RenameAskedInv(w, k, uid, spec, b);
    BothNamed(w1.users[k]);
    LostStatusEnds(w1, k, env);
    var last := [ReconcileUser(k, Without(env, {UpdateStatus}))] + [ReconcileUser(k, env)];
    Compose(w, MakeSteps(k, uid, spec, env) + [EditUserObject(k, spec.(username := b))], w1, last, Run(w1, last));
  }

  /**
   * An object is served, edited to another free name, renamed with the status write lost, and looked at
   * once more: two accounts are stranded, whatever follows.
   */
  lemma LostStatusRun(w: World, k: Key, uid: Uid, spec: UserSpec, b: Bytes, env: Env, more: seq<Step>)
    requires Initial(w) && AllSucceed(env) && uid !in w.uids && Bare(spec)
    requires b != [] && b != spec.username && spec.username !in w.server.accounts && b !in w.server.accounts
    requires var w1 := Run(w, LostStatusSteps(k, uid, spec, b, env)); BenignRun(w1, more) && NeverMisplaced(w1, more)
    ensures BenignRun(w, LostStatusSteps(k, uid, spec, b, env))
    ensures Stranded(Run(w, LostStatusSteps(k, uid, spec, b, env) + more), k, uid, spec.username, b)
  {
    LostStatusLeads(w, k, uid, spec, b, env);
    StrandedForever(Run(w, LostStatusSteps(k, uid, spec, b, env)), more, k, uid, spec.username, b);
    RunParts(w, LostStatusSteps(k, uid, spec, b, env), more);
  }

  // ---------------------------------------------------------------- another use of the same secret

  /** A settled object with a credential has recorded the version of its secret. */
  lemma SettledVersion(w: World, k: Key, env: Env)
    requires WellFormed(w, k, env) && AllSucceed(env) && Stage(w, k, env) == 0
    requires var u := w.users[k];
             && u.spec.identification.Some? && u.spec.identification.value.authString.Some? && UP.SecretOf(w, k, u).Some?
             && var id := u.spec.identification.value;
                var data := UP.SecretOf(w, k, u).value.data;
                id.authString.value.key in data && data[id.authString.value.key] != []
    ensures w.users[k].status.identificationVersion == UP.SecretOf(w, k, w.users[k]).value.version
  {
    assert !AuthPending(w.server, w.users[k], UP.SecretOf(w, k, w.users[k]), env);
  }

  /** An identification by one key of a secret, without a plugin. */
  function ByKey(name: Bytes, key: Bytes, clearText: bool): Identification {
    Identification([], Some(SecretRef(name, key)), clearText)
  }

  function OtherKeySteps(k: Key, uid: Uid, spec: UserSpec, id: Identification, env: Env, m: nat, n: nat): seq<Step> {
    CreateAndPasses(k, uid, spec, env, m) + [EditUserObject(k, spec.(identification := Some(id)))] + Repeat(ReconcileUser(k, env), n)
  }

  /** An object that names nobody's secret with both keys in it, and asks for a free name. */
  ghost predicate TwoKeys(w: World, k: Key, uid: Uid, spec: UserSpec, name: Bytes, key: Bytes, key': Bytes, clearText: bool) {
    && k !in w.users && uid !in w.uids && spec.username != [] && spec.username !in w.server.accounts
    && spec.databaseList == [] && spec.identification == Some(ByKey(name, key, clearText))
    && var sk := Key(k.namespace, name);
       && sk in w.secrets && w.secrets[sk].controller == None && w.secrets[sk].version <= w.lastVersion
       && key in w.secrets[sk].data && key' in w.secrets[sk].data
       && w.secrets[sk].data[key] != [] && w.secrets[sk].data[key'] != [] && w.secrets[sk].data[key] != w.secrets[sk].data[key']
  }

  /** Settled on the first key, with both keys in the secret. */
  ghost predicate OnFirstKey(w: World, k: Key, spec: UserSpec, name: Bytes, key: Bytes, key': Bytes, clearText: bool, env: Env) {
    && WellFormed(w, k, env) && Stage(w, k, env) == 0 && w.users[k].spec == spec
    && spec.identification == Some(ByKey(name, key, clearText))
    && var sk := Key(k.namespace, name);
       && sk in w.secrets && key in w.secrets[sk].data && key' in w.secrets[sk].data
       && w.secrets[sk].data[key] != [] && w.secrets[sk].data[key'] != [] && w.secrets[sk].data[key] != w.secrets[sk].data[key']
  }

  lemma TwoKeysServable(w: World, k: Key, uid: Uid, spec: UserSpec, name: Bytes, key: Bytes, key': Bytes, clearText: bool)
    requires TwoKeys(w, k, uid, spec, name, key, key', clearText)
    ensures Servable(w, k, DatabaseUser(uid, spec, NEW_USER_STATUS, false, false))
  {
  }

  lemma TwoKeysSettle(w: World, k: Key, uid: Uid, spec: UserSpec, name: Bytes, key: Bytes, key': Bytes, clearText: bool, env: Env, m: nat)
    requires TwoKeys(w, k, uid, spec, name, key, key', clearText) && AllSucceed(env) && m >= 7
    ensures var w1 := Passes(ObjectStep(w, CreateUserObject(k, uid, spec)), k, env, m);
            WellFormed(w1, k, env) && Stage(w1, k, env) == 0 && w1.users[k].spec == spec
  {
    TwoKeysServable(w, k, uid, spec, name, key, key', clearText);
    NewObjectConverges(w, k, uid, spec, env, m);
  }

  /** The object is served with the first key. */
  lemma FirstKeyServed(w: World, k: Key, uid: Uid, spec: UserSpec, name: Bytes, key: Bytes, key': Bytes, clearText: bool, env: Env, m: nat)
    requires TwoKeys(w, k, uid, spec, name, key, key', clearText) && AllSucceed(env) && m >= 7
    ensures OnFirstKey(Passes(ObjectStep(w, CreateUserObject(k, uid, spec)), k, env, m), k, spec, name, key, key', clearText, env)
  {
    var w0 := ObjectStep(w, CreateUserObject(k, uid, spec));
    TwoKeysSettle(w, k, uid, spec, name, key, key', clearText, env, m);
    PassesKeepData(w0, k, Key(k.namespace, name), env, m);
  }

  lemma FirstKeyRecorded(w: World, k: Key, spec: UserSpec, name: Bytes, key: Bytes, key': Bytes, clearText: bool, env: Env)
    requires OnFirstKey(w, k, spec, name, key, key', clearText, env) && AllSucceed(env)
    ensures SameSecret(w, k, w.users[k], ByKey(name, key', clearText))
  {
    assert UP.SecretKey(k, w.users[k]) == Some(Key(k.namespace, name));
    SettledVersion(w, k, env);
  }

  lemma OtherKeyUnserved(w: World, k: Key, spec: UserSpec, name: Bytes, key: Bytes, key': Bytes, clearText: bool, env: Env, n: nat)
    requires OnFirstKey(w, k, spec, name, key, key', clearText, env) && AllSucceed(env)
    ensures var w1 := ObjectStep(w, EditUserObject(k, spec.(identification := Some(ByKey(name, key', clearText)))));
            !Matches(Passes(w1, k, env, n), k, env)
  {
    FirstKeyRecorded(w, k, spec, name, key, key', clearText, env);
    IdentificationEdit(w, k, ByKey(name, key', clearText), env, n);
  }

  /** The edit to the second key is not taken up, however many passes follow. */
  lemma OtherKeyRun(w: World, k: Key, uid: Uid, spec: UserSpec, name: Bytes, key: Bytes, key': Bytes, clearText: bool, env: Env,
                    m: nat, n: nat)
    requires TwoKeys(w, k, uid, spec, name, key, key', clearText) && AllSucceed(env) && m >= 7
    ensures var steps := OtherKeySteps(k, uid, spec, ByKey(name, key', clearText), env, m, n);
            BenignRun(w, steps) && !Matches(Run(w, steps), k, env)
  {
    var w1 := Passes(ObjectStep(w, CreateUserObject(k, uid, spec)), k, env, m);
    var edit := EditUserObject(k, spec.(identification := Some(ByKey(name, key', clearText))));
    CreateAndPassesLead(w, k, uid, spec, env, m);
    FirstKeyServed(w, k, uid, spec, name, key, key', clearText, env, m);
    OtherKeyUnserved(w1, k, spec, name, key, key', clearText, env, n);
    ObjectStepLeads(w1, edit);
    Compose(w, CreateAndPasses(k, uid, spec, env, m), w1, [edit], ObjectStep(w1, edit));
    ThenPasses(w, CreateAndPasses(k, uid, spec, env, m) + [edit], ObjectStep(w1, edit), k, env, n);
  }
}
