/**
 * Runs of the whole system: passes of both reconcilers in any order and with any failing calls, custom
 * resources created, edited and deleted, secrets written, and anybody else working on the server.
 */
module Runs {
  import opened Basics
  import opened SqlTexts
  import opened Model
  import opened Ownership
  import opened Safety
  import DS = DatabaseSafety
  import US = UserSafety
  import DP = DatabaseReconciler
  import UP = UserPasses
  import opened Charsets

  datatype Step =
    | ReconcileDatabase(key: Key, env: Env)
    | ReconcileUser(key: Key, env: Env)
    | CreateDatabaseObject(key: Key, uid: Uid, spec: DatabaseSpec, connection: Connection)
    | EditDatabaseObject(key: Key, spec: DatabaseSpec, connection: Connection)
    | DeleteDatabaseObject(key: Key)
    | CreateUserObject(key: Key, uid: Uid, userSpec: UserSpec)
    | EditUserObject(key: Key, userSpec: UserSpec)
    | DeleteUserObject(key: Key)
    | WriteSecret(key: Key, data: map<Bytes, Bytes>)
    | DeleteSecret(key: Key)
    | OutsideCreateSchema(name: Bytes, characterSet: Bytes, collation: Bytes)
    | OutsideAlterSchema(name: Bytes, characterSet: Bytes, collation: Bytes)
    | OutsideDropSchema(name: Bytes)
    | OutsideCreateAccount(name: Bytes, account: Account)
    | OutsideAlterAccount(name: Bytes, account: Account)
    | OutsideDropAccount(name: Bytes)

  function WithSchema(w: World, n: Bytes, x: Schema): World {
    w.(server := w.server.(schemas := w.server.schemas[n := x]))
  }

  function WithAccount(w: World, n: Bytes, x: Account): World {
    w.(server := w.server.(accounts := w.server.accounts[n := x]))
  }

  /** Custom resources and secrets written by users. The webhook guards Database objects, the schema of the resource guards user names. */
  function ObjectStep(w: World, step: Step): World {
    match step
    case CreateDatabaseObject(k, uid, spec, c) =>
      if k !in w.databases && uid !in w.uids && Admits(ValidateCreate(spec, c)) then
        w.(databases := w.databases[k := Database(uid, spec, NEW_DATABASE_STATUS, false, false)], uids := w.uids + {uid})
      else w
    case EditDatabaseObject(k, spec, c) =>
      if k in w.databases && Admits(ValidateUpdate(w.databases[k].spec, spec, c)) then
        w.(databases := w.databases[k := w.databases[k].(spec := spec)])
      else w
    case DeleteDatabaseObject(k) =>
      if k !in w.databases then w
      else if w.databases[k].finalizer then w.(databases := w.databases[k := w.databases[k].(deleting := true)])
      else w.(databases := w.databases - {k})
    case CreateUserObject(k, uid, spec) =>
      if k !in w.users && uid !in w.uids && spec.username != [] then
        w.(users := w.users[k := DatabaseUser(uid, spec, NEW_USER_STATUS, false, false)], uids := w.uids + {uid})
      else w
    case EditUserObject(k, spec) =>
      if k in w.users && spec.username != [] then w.(users := w.users[k := w.users[k].(spec := spec)]) else w
    case DeleteUserObject(k) =>
      if k !in w.users then w
      else if w.users[k].finalizer then w.(users := w.users[k := w.users[k].(deleting := true)])
      else w.(users := w.users - {k})
    case WriteSecret(k, data) =>
      var owner := if k in w.secrets then w.secrets[k].controller else None;
      w.(secrets := w.secrets[k := Secret(data, owner, w.lastVersion + 1)], lastVersion := w.lastVersion + 1)
    case DeleteSecret(k) => w.(secrets := w.secrets - {k})
    case _ => w
  }

  /** Somebody else at work on the server. */
  function OutsideStep(w: World, step: Step): World {
    match step
    case OutsideCreateSchema(n, cs, co) =>
      if n in w.server.schemas then w else WithSchema(w, n, Schema(Foreign, cs, co))
    case OutsideAlterSchema(n, cs, co) =>
      if n !in w.server.schemas then w else WithSchema(w, n, Schema(w.server.schemas[n].creator, cs, co))
    case OutsideDropSchema(n) => w.(server := w.server.(schemas := w.server.schemas - {n}))
    case OutsideCreateAccount(n, a) =>
      if n in w.server.accounts then w else WithAccount(w, n, a.(creator := Foreign))
    case OutsideAlterAccount(n, a) =>
      if n !in w.server.accounts then w else WithAccount(w, n, a.(creator := w.server.accounts[n].creator))
    case OutsideDropAccount(n) => w.(server := w.server.(accounts := w.server.accounts - {n}))
    case _ => w
  }

  predicate IsOutside(step: Step) {
    step.OutsideCreateSchema? || step.OutsideAlterSchema? || step.OutsideDropSchema? ||
    step.OutsideCreateAccount? || step.OutsideAlterAccount? || step.OutsideDropAccount?
  }

  /** One step; a step that does not apply changes nothing. */
  function Next(w: World, step: Step): World {
    if step.ReconcileDatabase? then DP.DatabasePass(w, step.key, step.env)
    else if step.ReconcileUser? then UP.UserPass(w, step.key, step.env)
    else if IsOutside(step) then OutsideStep(w, step)
    else ObjectStep(w, step)
  }

  function Run(w: World, steps: seq<Step>): World
    decreases |steps|
  {
    if steps == [] then w else Run(Next(w, steps[0]), steps[1..])
  }

  predicate RenameDue(w: World, k: Key) {
    && k in w.users && !w.users[k].deleting
    && AccountExists(w.server, w.users[k].status.username) && w.users[k].spec.username != w.users[k].status.username
  }

  /** Nobody else drops what the operator made. */
  predicate BenignOutside(w: World, step: Step) {
    && (step.OutsideDropSchema? && step.name in w.server.schemas ==> w.server.schemas[step.name].creator == Foreign)
    && (step.OutsideDropAccount? && step.name in w.server.accounts ==> w.server.accounts[step.name].creator == Foreign)
  }

  /**
   * What the code relies on: existence lookups and the server's reader answer correctly, a ledger write
   * that follows a RENAME or a DROP succeeds, and nobody else drops what the operator made.
   */
  ghost predicate Benign(w: World, step: Step) {
    match step
    case ReconcileDatabase(_, env) => Literate(env.reader) && LookupsOk(env) && env.ok(DeleteRow)
    case ReconcileUser(k, env) =>
      Literate(env.reader) && LookupsOk(env) && env.ok(DeleteRow) && (RenameDue(w, k) ==> env.ok(SaveRenamedRow))
    case _ => BenignOutside(w, step)
  }

  ghost predicate BenignRun(w: World, steps: seq<Step>)
    decreases |steps|
  {
    steps == [] || (Benign(w, steps[0]) && BenignRun(Next(w, steps[0]), steps[1..]))
  }

  /**
   * The pass sends a text that is read as a statement about what is not its object's: a database name or
   * a privilege word put into the text unescaped, or a database name that is also a pattern.
   */
  predicate Misplaced(w: World, step: Step) {
    match step
    case ReconcileDatabase(k, env) =>
      && k in w.databases
      && var text := DP.PassText(w.server, k, w.databases[k], env);
         text.Some? && Stray(w.server, DP.Actor(k, w.databases[k]), text.value, env)
    case ReconcileUser(k, env) => k in w.users && !US.StartsClean(UP.LoopStart(w, k, env), k, w.databases, env)
    case _ => false
  }

  /** Before the operator starts: any server contents made by others, an empty ledger, no custom resources. */
  ghost predicate Initial(w: World) {
    && w.databases == map[] && w.users == map[]
    && w.server.managedDatabases == map[] && w.server.managedUsers == map[] && w.server.issued == []
    && (forall n :: n in w.server.schemas ==> w.server.schemas[n].creator == Foreign)
    && (forall n :: n in w.server.accounts ==> w.server.accounts[n].creator == Foreign)
  }

  // ---------------------------------------------------------------- the invariant

  ghost predicate DatabaseIdentities(w: World) {
    && (forall k :: k in w.databases ==> w.databases[k].uid in w.uids)
    && (forall k, k' :: k in w.databases && k' in w.databases && k != k' ==> w.databases[k].uid != w.databases[k'].uid)
    && (forall u :: u in w.server.managedDatabases ==> u in w.uids)
  }

  ghost predicate Identities(w: World) {
    && DatabaseIdentities(w)
    && (forall k :: k in w.users ==> w.users[k].uid in w.uids)
    && (forall k, k' :: k in w.users && k' in w.users && k != k' ==> w.users[k].uid != w.users[k'].uid)
    && (forall k, k' :: k in w.users && k' in w.databases ==> w.users[k].uid != w.databases[k'].uid)
    && (forall u :: u in w.server.managedUsers ==> u in w.uids)
  }

  ghost predicate UsersInv(w: World) {
    forall k :: k in w.users ==> US.UserInv(w.server, k, w.users[k])
  }

  ghost predicate LogInv(s: Server) {
    forall i :: 0 <= i < |s.issued| ==> Permitted(s.issued[i], true)
  }

  ghost predicate Inv(w: World) {
    Identities(w) && UsersInv(w) && US.DatabasesInv(w.server, w.databases) && LogInv(w.server)
  }

  lemma InitialInv(w: World)
    requires Initial(w)
    ensures Inv(w)
  {
  }

  // ---------------------------------------------------------------- passes keep it

  /** Another object's ownership facts survive a step that frames everything but `a`. */
  lemma OtherUserStays(s: Server, s': Server, a: Creator, k: Key, u: DatabaseUser)
    requires UserFrame(s, s', a, true) && US.UserInv(s, k, u) && u.uid != a.uid
    ensures US.UserInv(s', k, u)
  {
  }

  lemma OtherDatabaseStays(s: Server, s': Server, a: Creator, k: Key, d: Database)
    requires DatabaseFrame(s, s', a) && DS.DatabaseInv(s, k, d) && d.uid != a.uid
    ensures DS.DatabaseInv(s', k, d)
  {
  }

  lemma LogStays(s: Server, s': Server, a: Creator)
    requires Logged(s, s', a, true) && LogInv(s)
    ensures LogInv(s')
  {
    forall i | 0 <= i < |s'.issued| ensures Permitted(s'.issued[i], true) {
      if i < |s.issued| {
        assert s'.issued[i] == s'.issued[..|s.issued|][i];
      }
    }
  }

  /** The two maps agree away from `k`. */
  ghost predicate SameBut<T>(m: map<Key, T>, m': map<Key, T>, k: Key) {
    && (forall x :: x in m && x != k ==> x in m' && m'[x] == m[x])
    && (forall x :: x in m' && x != k ==> x in m)
  }

  /** World-level effect of a user pass: the server is framed, only entry `k` and the secrets may change. */
  ghost predicate OwnUserStep(w: World, w': World, k: Key, anonymous: bool)
    requires k in w.users
  {
    && UserFrame(w.server, w'.server, UP.Actor(k, w.users[k]), anonymous)
    && w'.databases == w.databases && w'.uids == w.uids
    && SameBut(w.users, w'.users, k)
    && (k in w'.users ==> w'.users[k].uid == w.users[k].uid && US.UserInv(w'.server, k, w'.users[k]))
  }

  /** The invariant, but for object `k`, whose account somebody may just have dropped. */
  ghost predicate InvExcept(w: World, k: Key) {
    && Identities(w) && US.DatabasesInv(w.server, w.databases) && LogInv(w.server)
    && (forall x :: x in w.users && x != k ==> US.UserInv(w.server, x, w.users[x]))
  }

  lemma OwnUserStepInv(w: World, w': World, k: Key, anonymous: bool)
    requires InvExcept(w, k) && k in w.users && OwnUserStep(w, w', k, anonymous)
    ensures Inv(w')
  {
    var a := UP.Actor(k, w.users[k]);
    LogStays(w.server, w'.server, a);
    forall x | x in w'.users ensures US.UserInv(w'.server, x, w'.users[x]) {
      if x != k {
        OtherUserStays(w.server, w'.server, a, x, w.users[x]);
      }
    }
    US.DatabasesStay(w.server, w'.server, w.databases);
  }

  /** A deletion pass that finds the object its own while the status holds no name. */
  predicate AnonymousDue(w: World, k: Key, env: Env) {
    && k in w.users && w.users[k].deleting && w.users[k].finalizer && env.connect
    && w.users[k].status.username == [] && DecidesUser(w.server, k, w.users[k], env, 0)
  }

  /** What is left of a deletion pass once the server part is done. */
  lemma DeletionStepOwn(w: World, s1: Server, k: Key, env: Env, anonymous: bool)
    requires Inv(w) && k in w.users
    requires UserFrame(w.server, s1, UP.Actor(k, w.users[k]), anonymous) && US.UserInv(s1, k, w.users[k])
    ensures OwnUserStep(w, w.(server := s1), k, anonymous)
    ensures OwnUserStep(w, w.(server := s1, users := w.users - {k}), k, anonymous)
  {
  }

  lemma DeletionPassOwn(w: World, k: Key, env: Env)
    requires Inv(w) && k in w.users && w.users[k].deleting && env.ok(DeleteRow) && LookupsOk(env)
    ensures OwnUserStep(w, UP.DeletionPass(w, k, env), k, AnonymousDue(w, k, env))
  {
    var u := w.users[k];
    assert US.UserInv(w.server, k, u);
    if u.finalizer && env.connect && DecidesUser(w.server, k, u, env, 0) {
      DecidesTruly(w.server, k, u, env, 0);
      US.FinalizeKept(w.server, u, k, env);
      DeletionStepOwn(w, UP.FinalizeUser(w.server, u, k, env), k, env, AnonymousDue(w, k, env));
    } else {
      US.UserFrameReflexive(w.server, UP.Actor(k, u));
      DeletionStepOwn(w, w.server, k, env, AnonymousDue(w, k, env));
    }
  }

  lemma UserPassOwn(w: World, k: Key, env: Env)
    requires Inv(w) && k in w.users && Benign(w, ReconcileUser(k, env)) && !Misplaced(w, ReconcileUser(k, env))
    ensures OwnUserStep(w, UP.UserPass(w, k, env), k, AnonymousDue(w, k, env))
  {
    if w.users[k].deleting {
      DeletionPassOwn(w, k, env);
    } else if env.connect {
      LivePassOwn(w, k, env);
    } else {
      assert US.UserInv(w.server, k, w.users[k]);
      QuietStepOwn(w, w, k);
    }
  }

  /** The outcomes of a user pass for the stored objects. */
  lemma UserPassCases(w: World, k: Key, env: Env)
    requires k in w.users
    ensures var w', u := UP.UserPass(w, k, env), w.users[k];
            && w'.databases == w.databases
            && (w'.users == w.users || w'.users == w.users - {k}
                || (k in w'.users && w'.users == w.users[k := w'.users[k]] && US.OnlyStatus(u.(finalizer := w'.users[k].finalizer), w'.users[k])))
  {
    var u := w.users[k];
    if !u.deleting {
      LiveCases(w, k, env);
      if UP.ServerDue(w, k, env) {
        US.ConvergeOnlyStatus(w.server, u, k, w.databases, UP.SecretOf(UP.WithSecret(w, k, u, env).value, k, u), env);
      }
    }
  }

  lemma DuePass(w: World, k: Key, env: Env)
    requires k in w.users && UP.ServerDue(w, k, env)
    ensures UP.UserPass(w, k, env) == UP.ServerPass(UP.WithSecret(w, k, w.users[k], env).value, k, env)
  {
  }

  lemma ServerPassShape(w: World, k: Key, env: Env)
    requires k in w.users
    ensures var o := UP.Converge(w.server, w.users[k], k, w.databases, UP.SecretOf(w, k, w.users[k]), env);
            var w' := UP.ServerPass(w, k, env);
            && w'.server == o.server && w'.uids == w.uids && w'.databases == w.databases
            && w'.users == if o.ok && env.ok(UpdateStatus) then w.users[k := o.user] else w.users
  {
  }

  lemma QuietPass(w: World, k: Key, env: Env)
    requires k in w.users && !w.users[k].deleting && !UP.ServerDue(w, k, env)
    ensures var u, w' := w.users[k], UP.UserPass(w, k, env);
            && w'.uids == w.uids && w'.server == w.server && w'.databases == w.databases
            && k in w'.users && w'.users == w.users[k := w'.users[k]]
            && (w'.users[k] == u || w'.users[k] == u.(finalizer := true)
                || (u.status.username == [] && w'.users[k] == u.(status := u.status.(username := u.spec.username))))
  {
    if env.connect && UP.WithSecret(w, k, w.users[k], env).Some? {
      WithSecretOnly(w, k, w.users[k], env);
      QuietLive(w, UP.WithSecret(w, k, w.users[k], env).value, k, env);
    }
  }

  lemma QuietLive(w: World, w1: World, k: Key, env: Env)
    requires k in w.users && UP.WithSecret(w, k, w.users[k], env) == Some(w1)
    requires w1.(secrets := w.secrets, lastVersion := w.lastVersion) == w
    requires var u := w.users[k]; !u.finalizer || u.status.username == [] || !UP.SecretOwnershipOk(UP.SecretOf(w1, k, u), u)
    ensures var u, w' := w.users[k], UP.LivePass(w, k, env);
            && w'.uids == w.uids && w'.server == w.server && w'.databases == w.databases
            && k in w'.users && w'.users == w.users[k := w'.users[k]]
            && (w'.users[k] == u || w'.users[k] == u.(finalizer := true)
                || (u.status.username == [] && w'.users[k] == u.(status := u.status.(username := u.spec.username))))
  {
    WithSecretOnly(w1, k, w.users[k], env);
  }

  /** What a pass over a live object leaves: its server part, or the server as it is and one small change to the object. */
  lemma LiveCases(w: World, k: Key, env: Env)
    requires k in w.users && !w.users[k].deleting
    ensures var u, w' := w.users[k], UP.UserPass(w, k, env);
            && w'.uids == w.uids && w'.databases == w.databases
            && if UP.ServerDue(w, k, env) then
                 var o := UP.Converge(w.server, u, k, w.databases, UP.SecretOf(UP.WithSecret(w, k, u, env).value, k, u), env);
                 w'.server == o.server && w'.users == if o.ok && env.ok(UpdateStatus) then w.users[k := o.user] else w.users
               else
                 && w'.server == w.server && k in w'.users && w'.users == w.users[k := w'.users[k]]
                 && (w'.users[k] == u || w'.users[k] == u.(finalizer := true)
                     || (u.status.username == [] && w'.users[k] == u.(status := u.status.(username := u.spec.username))))
  {
    if UP.ServerDue(w, k, env) {
      DuePass(w, k, env);
      WithSecretOnly(w, k, w.users[k], env);
      ServerPassShape(UP.WithSecret(w, k, w.users[k], env).value, k, env);
    } else {
      QuietPass(w, k, env);
    }
  }

  lemma ServerPassOwn(w: World, k: Key, env: Env)
    requires Inv(w) && k in w.users && w.users[k].status.username != [] && !w.users[k].deleting
    requires Literate(env.reader) && LookupsOk(env)
    requires US.StartsClean(UP.ConvergeStart(w.server, w.users[k], k, UP.SecretOf(w, k, w.users[k]), env), k, w.databases, env)
    requires RenameDue(w, k) ==> env.ok(SaveRenamedRow)
    ensures OwnUserStep(w, UP.ServerPass(w, k, env), k, false)
  {
    var u := w.users[k];
    assert US.UserInv(w.server, k, u);
    var secret := UP.SecretOf(w, k, u);
    US.ConvergeKept(w.server, u, k, w.databases, secret, env);
    var o := UP.Converge(w.server, u, k, w.databases, secret, env);
    assert US.Kept(w.server, u, o, k);
  }

  lemma WithSecretOnly(w: World, k: Key, u: DatabaseUser, env: Env)
    ensures var r := UP.WithSecret(w, k, u, env);
            r.Some? ==> r.value.(secrets := w.secrets, lastVersion := w.lastVersion) == w
    ensures UP.TakeSecret(w, k, u, env).(secrets := w.secrets, lastVersion := w.lastVersion) == w
  {
  }

  /** A pass that leaves the server alone and at most updates its own entry. */
  lemma QuietStepOwn(w: World, w': World, k: Key)
    requires Inv(w) && k in w.users
    requires w'.server == w.server && w'.databases == w.databases && w'.uids == w.uids
    requires w'.users == w.users || (k in w'.users && w'.users == w.users[k := w'.users[k]])
    requires k in w'.users && w'.users[k].uid == w.users[k].uid && US.UserInv(w.server, k, w'.users[k])
    ensures OwnUserStep(w, w', k, false)
  {
    US.UserFrameReflexive(w.server, UP.Actor(k, w.users[k]));
  }

  lemma LivePassOwn(w: World, k: Key, env: Env)
    requires Inv(w) && k in w.users && !w.users[k].deleting && Benign(w, ReconcileUser(k, env)) && env.connect
    requires !Misplaced(w, ReconcileUser(k, env))
    ensures OwnUserStep(w, UP.LivePass(w, k, env), k, false)
  {
    var u := w.users[k];
    assert US.UserInv(w.server, k, u);
    WithSecretOnly(w, k, u, env);
    var r := UP.WithSecret(w, k, u, env);
    var w' := UP.LivePass(w, k, env);
    if r.None? {
      QuietStepOwn(w, w', k);
    } else {
      var w1 := r.value;
      WithSecretOnly(w1, k, u, env);
      if u.status.username == [] && DecidesUser(w.server, k, u, env, 0) {
        ClaimKeeps(w.server, k, u);
        QuietStepOwn(w, w', k);
      } else if UP.SecretOwnershipOk(UP.SecretOf(w1, k, u), u) && u.finalizer && u.status.username != [] {
        assert Inv(w1);
        assert UP.ServerDue(w, k, env);
        ServerPassOwn(w1, k, env);
      } else {
        QuietStepOwn(w, w', k);
      }
    }
  }

  /** Claiming the name in the specification: an object without a status name has no ledger row. */
  lemma ClaimKeeps(s: Server, k: Key, u: DatabaseUser)
    requires US.UserInv(s, k, u) && u.status.username == []
    ensures US.UserInv(s, k, u.(status := u.status.(username := u.spec.username)))
    ensures u.uid !in s.managedUsers
  {
  }

  ghost predicate OwnDatabaseStep(w: World, w': World, k: Key)
    requires k in w.databases
  {
    && DatabaseFrame(w.server, w'.server, DP.Actor(k, w.databases[k]))
    && w'.users == w.users && w'.uids == w.uids
    && SameBut(w.databases, w'.databases, k)
    && (k in w'.databases ==> w'.databases[k].uid == w.databases[k].uid && DS.DatabaseInv(w'.server, k, w'.databases[k]))
  }

  lemma OwnDatabaseStepInv(w: World, w': World, k: Key)
    requires Inv(w) && k in w.databases && OwnDatabaseStep(w, w', k)
    ensures Inv(w')
  {
    var a := DP.Actor(k, w.databases[k]);
    LogStays(w.server, w'.server, a);
    forall x | x in w'.databases ensures DS.DatabaseInv(w'.server, x, w'.databases[x]) {
      if x != k {
        OtherDatabaseStays(w.server, w'.server, a, x, w.databases[x]);
      }
    }
    assert UsersInv(w') by {
      assert forall x :: x in w.users ==> US.UserInv(w.server, x, w.users[x]);
    }
  }

  lemma DatabaseDeletionOwn(w: World, k: Key, env: Env)
    requires k in w.databases && DS.DatabaseInv(w.server, k, w.databases[k]) && Benign(w, ReconcileDatabase(k, env)) && !Misplaced(w, ReconcileDatabase(k, env))
    requires w.databases[k].deleting
    ensures OwnDatabaseStep(w, DP.DatabasePass(w, k, env), k)
  {
    var d := w.databases[k];
    DS.DatabaseFrameReflexive(w.server, DP.Actor(k, d));
    if d.finalizer && DP.Connected(d, env) && DecidesDatabase(w.server, k, d, env, 1) {
      DS.FinalizeSafe(w.server, k, d, env);
    }
  }

  /** What is left of a pass over a live object once the server part is done. */
  lemma DatabaseStepOwn(w: World, s1: Server, d1: Database, k: Key)
    requires k in w.databases && d1.uid == w.databases[k].uid
    requires DatabaseFrame(w.server, s1, DP.Actor(k, w.databases[k]))
    requires DS.DatabaseInv(s1, k, w.databases[k]) && DS.DatabaseInv(s1, k, d1)
    ensures OwnDatabaseStep(w, w.(server := s1, databases := w.databases[k := d1]), k)
    ensures OwnDatabaseStep(w, w.(server := s1), k)
  {
  }

  lemma DatabaseLiveCases(w: World, k: Key, env: Env)
    requires k in w.databases && !w.databases[k].deleting
    ensures var d := w.databases[k];
            var w' := DP.DatabasePass(w, k, env);
            var (s1, d1) := DP.Converge(w.server, k, d, env);
            if !DP.Connected(d, env) then w' == w
            else if !d.finalizer then w' == w || w' == w.(databases := w.databases[k := d.(finalizer := true)])
            else w' == w.(server := s1) || w' == w.(server := s1, databases := w.databases[k := d1])
  {
  }

  lemma DatabasePassOwn(w: World, k: Key, env: Env)
    requires k in w.databases && DS.DatabaseInv(w.server, k, w.databases[k]) && Benign(w, ReconcileDatabase(k, env)) && !Misplaced(w, ReconcileDatabase(k, env))
    ensures OwnDatabaseStep(w, DP.DatabasePass(w, k, env), k)
  {
    var d := w.databases[k];
    if d.deleting {
      DatabaseDeletionOwn(w, k, env);
    } else {
      DS.DatabaseFrameReflexive(w.server, DP.Actor(k, d));
      DatabaseLiveCases(w, k, env);
      DatabaseStepOwn(w, w.server, d.(finalizer := true), k);
      if DP.Connected(d, env) && d.finalizer {
        DS.ConvergeSafe(w.server, k, d, env);
        DatabaseStepOwn(w, DP.Converge(w.server, k, d, env).0, DP.Converge(w.server, k, d, env).1, k);
      }
    }
  }

  // ---------------------------------------------------------------- the environment keeps it

  /** Accounts may appear, change or disappear outside as long as those of known creators keep their creator. */
  ghost predicate OwnersKept(s: Server, s': Server) {
    && (forall n :: n in s.accounts && s.accounts[n].creator != Foreign ==> n in s'.accounts && s'.accounts[n].creator == s.accounts[n].creator)
    && (forall n :: n in s.schemas && s.schemas[n].creator != Foreign ==> n in s'.schemas && s'.schemas[n].creator == s.schemas[n].creator)
    && s'.managedUsers == s.managedUsers && s'.managedDatabases == s.managedDatabases && s'.issued == s.issued
  }

  lemma OutsideKeeps(w: World, s': Server)
    requires Inv(w) && OwnersKept(w.server, s')
    ensures Inv(w.(server := s'))
  {
    forall k | k in w.users ensures US.UserInv(s', k, w.users[k]) {
      assert US.UserInv(w.server, k, w.users[k]);
    }
    forall k | k in w.databases ensures DS.DatabaseInv(s', k, w.databases[k]) {
      assert DS.DatabaseInv(w.server, k, w.databases[k]);
    }
  }

  /** Replacing, adding or removing one DatabaseUser object outside a pass. */
  lemma UserStoreInv(w: World, w': World, k: Key)
    requires Inv(w) && SameBut(w.users, w'.users, k)
    requires w'.server == w.server && w'.databases == w.databases && w.uids <= w'.uids
    requires k in w'.users ==> w'.users[k].uid in w'.uids && US.UserInv(w.server, k, w'.users[k])
    requires k in w'.users ==> if k in w.users then w'.users[k].uid == w.users[k].uid else w'.users[k].uid !in w.uids
    ensures Inv(w')
  {
    forall x | x in w'.users ensures US.UserInv(w.server, x, w'.users[x]) {
      if x != k {
        assert US.UserInv(w.server, x, w.users[x]);
      }
    }
  }

  lemma DatabaseStoreInv(w: World, w': World, k: Key)
    requires Inv(w) && SameBut(w.databases, w'.databases, k)
    requires w'.server == w.server && w'.users == w.users && w.uids <= w'.uids
    requires k in w'.databases ==> w'.databases[k].uid in w'.uids && DS.DatabaseInv(w.server, k, w'.databases[k])
    requires k in w'.databases ==> if k in w.databases then w'.databases[k].uid == w.databases[k].uid else w'.databases[k].uid !in w.uids
    ensures Inv(w')
  {
    forall x | x in w'.databases ensures DS.DatabaseInv(w.server, x, w'.databases[x]) {
      if x != k {
        assert DS.DatabaseInv(w.server, x, w.databases[x]);
      }
    }
  }

  lemma UserCreatedInv(w: World, k: Key, uid: Uid, spec: UserSpec)
    requires Inv(w)
    ensures Inv(ObjectStep(w, CreateUserObject(k, uid, spec)))
  {
    if k !in w.users && uid !in w.uids && spec.username != [] {
      UserStoreInv(w, ObjectStep(w, CreateUserObject(k, uid, spec)), k);
    }
  }

  lemma UserEditedInv(w: World, k: Key, spec: UserSpec)
    requires Inv(w)
    ensures Inv(ObjectStep(w, EditUserObject(k, spec)))
  {
    if k in w.users && spec.username != [] {
      assert US.UserInv(w.server, k, w.users[k]);
      UserStoreInv(w, ObjectStep(w, EditUserObject(k, spec)), k);
    }
  }

  lemma UserDeletedInv(w: World, k: Key)
    requires Inv(w)
    ensures Inv(ObjectStep(w, DeleteUserObject(k)))
  {
    if k in w.users {
      assert US.UserInv(w.server, k, w.users[k]);
      UserStoreInv(w, ObjectStep(w, DeleteUserObject(k)), k);
    }
  }

  lemma NameOkNonempty(n: Bytes)
    requires NameOk(n)
    ensures n != []
  {
  }

  lemma DatabaseCreatedInv(w: World, k: Key, uid: Uid, spec: DatabaseSpec, c: Connection)
    requires Inv(w)
    ensures Inv(ObjectStep(w, CreateDatabaseObject(k, uid, spec, c)))
  {
    var w' := ObjectStep(w, CreateDatabaseObject(k, uid, spec, c));
    if w' != w {
      NameOkNonempty(spec.name);
      DatabaseStoreInv(w, w', k);
    }
  }

  lemma DatabaseEditedInv(w: World, k: Key, spec: DatabaseSpec, c: Connection)
    requires Inv(w)
    ensures Inv(ObjectStep(w, EditDatabaseObject(k, spec, c)))
  {
    var w' := ObjectStep(w, EditDatabaseObject(k, spec, c));
    if k in w.databases && Admits(ValidateUpdate(w.databases[k].spec, spec, c)) {
      assert DS.DatabaseInv(w.server, k, w.databases[k]);
      DatabaseStoreInv(w, w', k);
    }
  }

  lemma DatabaseDeletedInv(w: World, k: Key)
    requires Inv(w)
    ensures Inv(ObjectStep(w, DeleteDatabaseObject(k)))
  {
    var w' := ObjectStep(w, DeleteDatabaseObject(k));
    if k in w.databases {
      assert DS.DatabaseInv(w.server, k, w.databases[k]);
      DatabaseStoreInv(w, w', k);
    }
  }

  lemma ObjectStepInv(w: World, step: Step)
    requires Inv(w)
    ensures Inv(ObjectStep(w, step))
    ensures ObjectStep(w, step).server == w.server
  {
    if step.CreateUserObject? {
      UserCreatedInv(w, step.key, step.uid, step.userSpec);
    } else if step.EditUserObject? {
      UserEditedInv(w, step.key, step.userSpec);
    } else if step.DeleteUserObject? {
      UserDeletedInv(w, step.key);
    } else if step.CreateDatabaseObject? {
      DatabaseCreatedInv(w, step.key, step.uid, step.spec, step.connection);
    } else if step.EditDatabaseObject? {
      DatabaseEditedInv(w, step.key, step.spec, step.connection);
    } else if step.DeleteDatabaseObject? {
      DatabaseDeletedInv(w, step.key);
    }
  }

  lemma OutsideKeepsOwners(w: World, step: Step)
    requires IsOutside(step) && BenignOutside(w, step)
    ensures OwnersKept(w.server, OutsideStep(w, step).server)
    ensures OutsideStep(w, step) == w.(server := OutsideStep(w, step).server)
  {
  }

  lemma OutsideStepInv(w: World, step: Step)
    requires Inv(w) && IsOutside(step) && BenignOutside(w, step)
    ensures Inv(OutsideStep(w, step))
  {
    OutsideKeepsOwners(w, step);
    OutsideKeeps(w, OutsideStep(w, step).server);
  }

  /** Every step of a run that misplaces nothing keeps the invariant. */
  lemma NextInv(w: World, step: Step)
    requires Inv(w) && Benign(w, step) && !Misplaced(w, step)
    ensures Inv(Next(w, step))
  {
    if step.ReconcileDatabase? {
      if step.key in w.databases {
        DatabasePassOwn(w, step.key, step.env);
        OwnDatabaseStepInv(w, DP.DatabasePass(w, step.key, step.env), step.key);
      }
    } else if step.ReconcileUser? {
      if step.key in w.users {
        UserPassOwn(w, step.key, step.env);
        OwnUserStepInv(w, UP.UserPass(w, step.key, step.env), step.key, AnonymousDue(w, step.key, step.env));
      }
    } else if IsOutside(step) {
      OutsideStepInv(w, step);
    } else {
      ObjectStepInv(w, step);
    }
  }

  predicate NeverMisplaced(w: World, steps: seq<Step>)
    decreases |steps|
  {
    steps == [] || (!Misplaced(w, steps[0]) && NeverMisplaced(Next(w, steps[0]), steps[1..]))
  }

  lemma {:induction false} RunInv(w: World, steps: seq<Step>)
    requires Inv(w) && BenignRun(w, steps) && NeverMisplaced(w, steps)
    ensures Inv(Run(w, steps))
    decreases |steps|
  {
    if steps != [] {
      NextInv(w, steps[0]);
      RunInv(Next(w, steps[0]), steps[1..]);
    }
  }
}
