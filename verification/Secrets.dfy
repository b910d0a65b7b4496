/**
 * The secret a DatabaseUser object names for its credential: who controls it, whose passes may send what is
 * in it, and what is in one that a pass makes.
 */
module Secrets {
  import opened Basics
  import opened SqlStatements
  import opened SqlTexts
  import opened Model
  import opened Ownership
  import opened Runs
  import opened Safety
  import opened IssuedLog
  import opened UserConvergence
  import opened SpecChanges
  import DP = DatabaseReconciler
  import UP = UserPasses
  import US = UserSafety
  import UR = UserReconciler
  import PW = Passwords

  /** The object takes its credential from this secret of its namespace. */
  predicate NamesSecret(k: Key, u: DatabaseUser, sk: Key) {
    && u.spec.identification.Some? && u.spec.identification.value.authString.Some?
    && sk == Key(k.namespace, u.spec.identification.value.authString.value.name)
  }

  predicate Controls(w: World, sk: Key, uid: Uid) {
    sk in w.secrets && w.secrets[sk].controller == Some(uid)
  }

  // ---------------------------------------------------------------- what is in a secret stays

  ghost predicate DataKept(w: World, w': World, sk: Key) {
    sk in w.secrets ==> sk in w'.secrets && w'.secrets[sk].data == w.secrets[sk].data
  }

  lemma SecretPartsKeepData(w: World, k: Key, u: DatabaseUser, sk: Key, env: Env)
    ensures UP.WithSecret(w, k, u, env).Some? ==> DataKept(w, UP.WithSecret(w, k, u, env).value, sk)
    ensures DataKept(w, UP.TakeSecret(w, k, u, env), sk)
  {
  }

  /** Where the secrets of a pass come from. */
  lemma PassSecrets(w: World, k: Key, env: Env)
    requires k in w.users
    ensures var r := UP.WithSecret(w, k, w.users[k], env);
            var secrets := UP.UserPass(w, k, env).secrets;
            || secrets == w.secrets
            || (r.Some? && (secrets == r.value.secrets || secrets == UP.TakeSecret(r.value, k, w.users[k], env).secrets))
  {
    if !w.users[k].deleting {
      LiveSecrets(w, k, env);
    }
  }

  lemma LiveSecrets(w: World, k: Key, env: Env)
    requires k in w.users
    ensures var r := UP.WithSecret(w, k, w.users[k], env);
            var secrets := UP.LivePass(w, k, env).secrets;
            || secrets == w.secrets
            || (r.Some? && (secrets == r.value.secrets || secrets == UP.TakeSecret(r.value, k, w.users[k], env).secrets))
  {
    if UP.WithSecret(w, k, w.users[k], env).Some? {
      ServerPassSecrets(UP.WithSecret(w, k, w.users[k], env).value, k, env);
    }
  }

  lemma ServerPassSecrets(w: World, k: Key, env: Env)
    requires k in w.users
    ensures UP.ServerPass(w, k, env).secrets == w.secrets
  {
  }

  /** A pass writes to an existing secret only who controls it. */
  lemma PassKeepsData(w: World, k: Key, sk: Key, env: Env)
    requires sk in w.secrets
    ensures sk in UP.UserPass(w, k, env).secrets && UP.UserPass(w, k, env).secrets[sk].data == w.secrets[sk].data
  {
    if k in w.users {
      var u := w.users[k];
      var r := UP.WithSecret(w, k, u, env);
      PassSecrets(w, k, env);
      SecretPartsKeepData(w, k, u, sk, env);
      if r.Some? {
        SecretPartsKeepData(r.value, k, u, sk, env);
      }
    }
  }

  lemma {:induction false} PassesKeepData(w: World, k: Key, sk: Key, env: Env, n: nat)
    requires sk in w.secrets
    ensures sk in Passes(w, k, env, n).secrets && Passes(w, k, env, n).secrets[sk].data == w.secrets[sk].data
    decreases n
  {
    if n > 0 {
      PassKeepsData(w, k, sk, env);
      PassesKeepData(UP.UserPass(w, k, env), k, sk, env, n - 1);
    }
  }

  // ---------------------------------------------------------------- somebody else's secret

  /** What a pass may have changed: the name the object claims. */
  ghost predicate OnlyClaims(w: World, w': World, k: Key)
    requires k in w.users
  {
    && w'.server == w.server && w'.secrets == w.secrets && w'.databases == w.databases
    && k in w'.users && w'.users == w.users[k := w'.users[k]]
    && w'.users[k] == w.users[k].(status := w.users[k].status.(username := w'.users[k].status.username))
  }

  /** The secret the live object names is controlled by another object. */
  ghost predicate Withheld(w: World, k: Key, sk: Key) {
    && k in w.users && !w.users[k].deleting && NamesSecret(k, w.users[k], sk)
    && sk in w.secrets && w.secrets[sk].controller.Some? && w.secrets[sk].controller.value != w.users[k].uid
  }

  lemma WithheldPass(w: World, k: Key, sk: Key, env: Env)
    requires Withheld(w, k, sk)
    ensures OnlyClaims(w, UP.UserPass(w, k, env), k)
  {
  }

  /**
   * While another object controls the secret an object names, its passes, any number of them and with
   * whatever calls failing, send nothing, leave the secret alone and do not even set the finalizer.
   */
  lemma {:induction false} WithheldForever(w: World, k: Key, sk: Key, steps: seq<Step>)
    requires Withheld(w, k, sk)
    requires forall i :: 0 <= i < |steps| ==> steps[i].ReconcileUser? && steps[i].key == k
    ensures OnlyClaims(w, Run(w, steps), k)
    decreases |steps|
  {
    if steps != [] {
      WithheldPass(w, k, sk, steps[0].env);
      WithheldForever(Next(w, steps[0]), k, sk, steps[1..]);
    }
  }

  // ---------------------------------------------------------------- who controls a secret

  /**
   * Only the pass of a live object that names the secret sets its controller, to that object, and only where
   * none is set; nothing but the removal of the secret unsets it.
   */
  lemma ControllerChanges(w: World, step: Step, sk: Key)
    requires sk in w.secrets && step != DeleteSecret(sk)
    ensures sk in Next(w, step).secrets
    ensures Next(w, step).secrets[sk].controller != w.secrets[sk].controller ==>
              && w.secrets[sk].controller == None
              && step.ReconcileUser? && step.key in w.users && !w.users[step.key].deleting && NamesSecret(step.key, w.users[step.key], sk)
              && Next(w, step).secrets[sk].controller == Some(w.users[step.key].uid)
  {
    if step.ReconcileUser? && step.key in w.users {
      PassSecrets(w, step.key, step.env);
    }
  }

  lemma {:induction false} ControllerStays(w: World, steps: seq<Step>, sk: Key, uid: Uid)
    requires Controls(w, sk, uid) && forall i :: 0 <= i < |steps| ==> steps[i] != DeleteSecret(sk)
    ensures Controls(Run(w, steps), sk, uid)
    decreases |steps|
  {
    if steps != [] {
      ControllerChanges(w, steps[0], sk);
      ControllerStays(Next(w, steps[0]), steps[1..], sk, uid);
    }
  }

  // ---------------------------------------------------------------- credentials are sent under control

  /** A statement that can carry a credential. */
  predicate Carries(e: Issued) {
    e.stmt.OnAccount? && (e.stmt.account.CreateUser? || e.stmt.account.AlterUser?)
  }

  /** The credential it carries, if any. */
  function Credential(e: Issued): Option<Bytes>
    requires Carries(e)
  {
    match e.stmt.account.details.auth
    case WithPluginAuth(_, _, v) => Some(v)
    case ByAuth(_, v) => Some(v)
    case _ => None
  }

  /** What the secret that the object names holds under the key it names. */
  function ValueNamed(w: World, k: Key, u: DatabaseUser): Option<Bytes> {
    match u.spec.identification
    case None => None
    case Some(id) =>
      match id.authString
      case None => None
      case Some(r) =>
        var sk := Key(k.namespace, r.name);
        if sk in w.secrets && r.key in w.secrets[sk].data then Some(w.secrets[sk].data[r.key]) else None
  }

  /**
   * The statement was sent in a pass of an object that controls the secret it names, if it names any, for
   * the account it claims; and a credential in it is the value of that secret, and not empty.
   */
  ghost predicate RightlySent(w: World, step: Step, e: Issued)
    requires Carries(e)
  {
    && step.ReconcileUser? && step.key in w.users
    && var u := w.users[step.key];
       && (forall sk :: NamesSecret(step.key, u, sk) ==> Controls(w, sk, u.uid))
       && e.stmt.account.name == u.status.username
       && (Credential(e).Some? ==> Credential(e) == ValueNamed(w, step.key, u) && Credential(e).value != [])
  }

  /** So was the statement at place `i` of the log by the step of the run that sent it. */
  ghost predicate SentRightly(w: World, steps: seq<Step>, i: nat)
    decreases |steps|
  {
    && steps != []
    && var s1 := Next(w, steps[0]).server;
       if i < |s1.issued| then Carries(s1.issued[i]) && RightlySent(w, steps[0], s1.issued[i])
       else SentRightly(Next(w, steps[0]), steps[1..], i)
  }

  /** Database texts are read as statements about databases, if any, and GRANT texts as GRANTs. */
  ghost predicate Read(step: Step) {
    step.ReconcileDatabase? || step.ReconcileUser? ==> Literate(step.env.reader)
  }

  /** Database statements carry no credential. */
  lemma DatabaseSends(s: Server, a: Creator, text: Bytes, env: Env, reached: bool, i: nat)
    requires env.reader(text).Some? ==> !env.reader(text).value.OnAccount?
    requires |s.issued| <= i < |Receive(s, a, text, env, reached).0.issued|
    ensures !Carries(Receive(s, a, text, env, reached).0.issued[i])
  {
  }

  lemma DatabasePassSends(w: World, k: Key, env: Env, i: nat)
    requires Literate(env.reader) && |w.server.issued| <= i < |DP.DatabasePass(w, k, env).server.issued|
    ensures !Carries(DP.DatabasePass(w, k, env).server.issued[i])
  {
    var s, d := w.server, w.databases[k];
    var d1 := DP.Started(s, d, env);
    var a := DP.Actor(k, d);
    assert ReadAsCreate(env.reader(DP.CreateText(d1)), d1.spec.name, d1.spec.characterSet, d1.spec.collate);
    assert ReadAsDrop(env.reader(DP.DropText(d)), d.spec.name);
    AlterRead(d1, env);
    if d.deleting {
      DatabaseSends(s, a, DP.DropText(d), env, env.ok(SendDrop), i);
    } else if !SchemaSeen(s, d.spec.name, env, 0) {
      DatabaseSends(s, a, DP.CreateText(d1), env, env.ok(SendCreate), i);
    } else {
      DatabaseSends(s, a, DP.AlterText(d1), env, env.ok(SendAlter), i);
    }
  }

  lemma AlterRead(d: Database, env: Env)
    requires Literate(env.reader)
    ensures env.reader(DP.AlterText(d)).Some? ==> env.reader(DP.AlterText(d)).value.AlterDatabase?
  {
    var cs, co := DP.Change(d.spec.characterSet, d.status.characterSet), DP.Change(d.spec.collate, d.status.collate);
    assert ReadAsAlter(env.reader(DP.AlterText(d)), d.spec.name, cs, co);
  }

  /** Nothing that can carry a credential was sent. */
  ghost predicate NoneSent(s: Server, s1: Server) {
    Appends(s, s1) && forall i :: |s.issued| <= i < |s1.issued| ==> !Carries(s1.issued[i])
  }

  /** What was sent that can carry one is for this account, and a credential in it is this value, not empty. */
  ghost predicate OnlySent(s: Server, s1: Server, n: Bytes, v: Option<Bytes>) {
    && Appends(s, s1)
    && forall i :: |s.issued| <= i < |s1.issued| && Carries(s1.issued[i]) ==>
         && s1.issued[i].stmt.account.name == n
         && (Credential(s1.issued[i]).Some? ==> Credential(s1.issued[i]) == v && Credential(s1.issued[i]).value != [])
  }

  lemma NoneThen(s: Server, s1: Server, s2: Server, n: Bytes, v: Option<Bytes>)
    requires OnlySent(s, s1, n, v) && NoneSent(s1, s2)
    ensures OnlySent(s, s2, n, v)
  {
    AppendsTransitive(s, s1, s2);
    forall i | |s.issued| <= i < |s1.issued| ensures s2.issued[i] == s1.issued[i] {
      assert s2.issued[..|s1.issued|][i] == s2.issued[i];
    }
  }

  lemma NoneTransitive(s: Server, s1: Server, s2: Server)
    requires NoneSent(s, s1) && NoneSent(s1, s2)
    ensures NoneSent(s, s2)
  {
    AppendsTransitive(s, s1, s2);
    forall i | |s.issued| <= i < |s1.issued| ensures s2.issued[i] == s1.issued[i] {
      assert s2.issued[..|s1.issued|][i] == s2.issued[i];
    }
  }

  lemma ExecSends(s: Server, a: Creator, stmt: Stmt, reached: bool)
    ensures var s1 := Exec(s, a, stmt, reached).0;
            |s1.issued| == |s.issued| + 1 && s1.issued[..|s.issued|] == s.issued && s1.issued[|s.issued|].stmt == stmt
  {
  }

  lemma GrantOneSends(s: Server, u: DatabaseUser, k: Key, databases: map<Key, Database>, i: nat, env: Env)
    requires i < |u.spec.databaseList| && Literate(env.reader)
    ensures NoneSent(s, UP.GrantOne(s, u, k, databases, i, env))
  {
    if UP.DecidesGrant(s, databases, k, u.spec.databaseList[i], env, i) {
      var text := UP.GrantOneText(u, k, databases, i);
      US.GrantOneReads(u, k, databases, i, env);
      if env.reader(text).Some? {
        ExecSends(s, UP.Actor(k, u), env.reader(text).value, env.ok(SendGrant(i)));
      }
    }
  }

  lemma {:induction false} GrantFromSends(s: Server, u: DatabaseUser, k: Key, databases: map<Key, Database>, i: nat, env: Env)
    requires i <= |u.spec.databaseList| && Literate(env.reader)
    ensures NoneSent(s, UP.GrantFrom(s, u, k, databases, i, env).0)
    decreases |u.spec.databaseList| - i
  {
    if i < |u.spec.databaseList| && UP.Fetched(u, k, databases, i, env) {
      var s1 := UP.GrantOne(s, u, k, databases, i, env);
      GrantOneSends(s, u, k, databases, i, env);
      GrantFromSends(s1, u, k, databases, i + 1, env);
      NoneTransitive(s, s1, UP.GrantFrom(s, u, k, databases, i, env).0);
    }
  }

  lemma PermissionsSend(s: Server, u: DatabaseUser, k: Key, databases: map<Key, Database>, env: Env)
    requires Literate(env.reader)
    ensures NoneSent(s, UP.UpdatePermissions(s, u, k, databases, env).server)
  {
    var r := US.Cleared(s, u, k, env);
    US.UpdatePermissionsCases(s, u, k, databases, env);
    ClearedSends(s, u, k, env);
    GrantFromSends(r.server, r.user, k, databases, 0, env);
    NoneTransitive(s, r.server, UP.GrantAll(r.server, r.user, k, databases, env).server);
  }

  lemma ClearedSends(s: Server, u: DatabaseUser, k: Key, env: Env)
    ensures NoneSent(s, US.Cleared(s, u, k, env).server)
  {
    var u1 := UP.GrantStatusUpdate(s, u, false, 0, env).0;
    ExecSends(s, UP.Actor(k, u1), OnAccount(RevokeAll(u1.status.username)), env.ok(SendRevoke));
  }

  /** What is made of the auth string read from this secret. */
  function Value(u: DatabaseUser, secret: Option<Secret>): Option<Bytes> {
    match u.spec.identification
    case None => None
    case Some(id) =>
      if id.authString.Some? && secret.Some? && id.authString.value.key in secret.value.data then
        Some(secret.value.data[id.authString.value.key])
      else None
  }

  lemma DetailsCarry(u: DatabaseUser, secret: Option<Secret>, create: bool, env: Env, e: Issued)
    requires UP.DetailsFor(u, secret, create, env).Some? && Carries(e) && e.stmt.account.details == UP.DetailsFor(u, secret, create, env).value.0
    ensures Credential(e).Some? ==> Credential(e) == Value(u, secret) && Credential(e).value != []
  {
  }

  lemma SendCarries(s: Server, u: DatabaseUser, k: Key, secret: Option<Secret>, create: bool, env: Env, reached: bool)
    requires UP.DetailsFor(u, secret, create, env).Some?
    ensures var d := UP.DetailsFor(u, secret, create, env).value.0;
            var stmt := if create then CreateUser(u.status.username, d) else AlterUser(u.status.username, d);
            OnlySent(s, UP.Send(s, k, u, stmt, reached).0, u.status.username, Value(u, secret))
  {
    var d := UP.DetailsFor(u, secret, create, env).value.0;
    var stmt := if create then CreateUser(u.status.username, d) else AlterUser(u.status.username, d);
    ExecSends(s, UP.Actor(k, u), OnAccount(stmt), reached);
    DetailsCarry(u, secret, create, env, UP.Send(s, k, u, stmt, reached).0.issued[|s.issued|]);
  }

  lemma CreateSends(s: Server, u: DatabaseUser, k: Key, databases: map<Key, Database>, secret: Option<Secret>, env: Env)
    requires Literate(env.reader)
    ensures OnlySent(s, UP.UserCreate(s, u, k, databases, secret, env).server, u.status.username, Value(u, secret))
  {
    match UP.DetailsFor(u, secret, true, env)
    case None =>
    case Some((d, u1)) =>
      var (s1, sent) := UP.Send(s, k, u, CreateUser(u.status.username, d), env.ok(SendCreate));
      SendCarries(s, u, k, secret, true, env, env.ok(SendCreate));
      if sent {
        var g := UP.GrantAll(s1, UP.Tracking(u1, []), k, databases, env).server;
        GrantFromSends(s1, UP.Tracking(u1, []), k, databases, 0, env);
        NoneThen(s, s1, g, u.status.username, Value(u, secret));
        SavingSends(g, u, k, env.ok(SaveCreatedRow));
        NoneThen(s, g, UP.SaveUserRow(g, k, u, env.ok(SaveCreatedRow)), u.status.username, Value(u, secret));
      }
  }

  lemma SavingSends(s: Server, u: DatabaseUser, k: Key, saved: bool)
    ensures NoneSent(s, UP.SaveUserRow(s, k, u, saved))
  {
  }

  lemma RenameSends(s: Server, u: DatabaseUser, k: Key, env: Env)
    ensures NoneSent(s, UP.Rename(s, u, k, env).server)
  {
    ExecSends(s, UP.Actor(k, u), OnAccount(RenameUser(u.status.username, u.spec.username)), env.ok(SendRename));
  }

  lemma UpdateSends(s: Server, u: DatabaseUser, k: Key, databases: map<Key, Database>, secret: Option<Secret>, env: Env)
    requires Literate(env.reader)
    ensures OnlySent(s, UP.UserUpdate(s, u, k, databases, secret, env).server, u.status.username, Value(u, secret))
  {
    if u.spec.username != u.status.username {
      RenameSends(s, u, k, env);
    } else {
      US.UpdateCases(s, u, k, databases, secret, env);
      match UP.DetailsFor(u, secret, false, env)
      case None =>
      case Some((d, u1)) =>
        SendCarries(s, u, k, secret, false, env, env.ok(SendAlter));
        PermissionsSend(s, u1, k, databases, env);
    }
  }

  lemma ConvergeSends(s: Server, u: DatabaseUser, k: Key, databases: map<Key, Database>, secret: Option<Secret>, env: Env)
    requires Literate(env.reader)
    ensures OnlySent(s, UP.Converge(s, u, k, databases, secret, env).server, u.status.username, Value(u, secret))
  {
    var u1 := UP.Observed(s, u, env);
    assert Value(u1, secret) == Value(u, secret) && u1.status.username == u.status.username;
    CreateSends(s, u1, k, databases, secret, env);
    UpdateSends(s, u1, k, databases, secret, env);
  }

  /** The secret the server part of a pass works with is one that the object controlled before the pass. */
  lemma DueUnderControl(w: World, k: Key, env: Env)
    requires k in w.users && UP.ServerDue(w, k, env)
    ensures var u := w.users[k];
            && (forall sk :: NamesSecret(k, u, sk) ==> Controls(w, sk, u.uid))
            && Value(u, UP.SecretOf(UP.WithSecret(w, k, u, env).value, k, u)) == ValueNamed(w, k, u)
  {
  }

  lemma UserPassSends(w: World, k: Key, env: Env, i: nat)
    requires k in w.users && Literate(env.reader)
    requires |w.server.issued| <= i < |UP.UserPass(w, k, env).server.issued| && Carries(UP.UserPass(w, k, env).server.issued[i])
    ensures RightlySent(w, ReconcileUser(k, env), UP.UserPass(w, k, env).server.issued[i])
  {
    if w.users[k].deleting {
      DeletionSends(w, k, env);
    } else {
      LiveCases(w, k, env);
      if UP.ServerDue(w, k, env) {
        var u := w.users[k];
        DueUnderControl(w, k, env);
        ConvergeSends(w.server, u, k, w.databases, UP.SecretOf(UP.WithSecret(w, k, u, env).value, k, u), env);
      }
    }
  }

  lemma DeletionSends(w: World, k: Key, env: Env)
    requires k in w.users && w.users[k].deleting
    ensures forall i :: |w.server.issued| <= i < |UP.UserPass(w, k, env).server.issued| ==> !Carries(UP.UserPass(w, k, env).server.issued[i])
  {
  }

  lemma StepSends(w: World, step: Step, i: nat)
    requires Read(step) && |w.server.issued| <= i < |Next(w, step).server.issued| && Carries(Next(w, step).server.issued[i])
    ensures RightlySent(w, step, Next(w, step).server.issued[i])
  {
    if step.ReconcileDatabase? {
      DatabasePassSends(w, step.key, step.env, i);
    } else if step.ReconcileUser? && step.key in w.users {
      UserPassSends(w, step.key, step.env, i);
    }
  }

  lemma StepAppends(w: World, step: Step)
    requires Read(step)
    ensures Appends(w.server, Next(w, step).server)
  {
    if step.ReconcileUser? && step.key in w.users {
      UserPassLogs(w, step.key, step.env);
    } else if step.ReconcileDatabase? && step.key in w.databases {
      DatabasePassLogs(w, step.key, step.env);
    }
  }

  lemma {:induction false} RunAppends(w: World, steps: seq<Step>)
    requires forall j :: 0 <= j < |steps| ==> Read(steps[j])
    ensures Appends(w.server, Run(w, steps).server)
    decreases |steps|
  {
    if steps != [] {
      StepAppends(w, steps[0]);
      RunAppends(Next(w, steps[0]), steps[1..]);
      AppendsTransitive(w.server, Next(w, steps[0]).server, Run(w, steps).server);
    }
  }

  /**
   * Over every run, from any state and with whatever calls failing: each CREATE USER or ALTER USER was sent
   * in a pass of an object that, at that time, controlled the secret it names, if it names any, for the
   * account it claimed; and the credential in it, if any, was what that secret held under the named key.
   */
  lemma {:induction false} CredentialsRightlySent(w: World, steps: seq<Step>, i: nat)
    requires forall j :: 0 <= j < |steps| ==> Read(steps[j])
    requires |w.server.issued| <= i < |Run(w, steps).server.issued| && Carries(Run(w, steps).server.issued[i])
    ensures SentRightly(w, steps, i)
    decreases |steps|
  {
    var w1 := Next(w, steps[0]);
    if i < |w1.server.issued| {
      RunAppends(w1, steps[1..]);
      assert Run(w, steps).server.issued[..|w1.server.issued|][i] == Run(w, steps).server.issued[i];
      StepSends(w, steps[0], i);
    } else {
      CredentialsRightlySent(w1, steps[1..], i);
    }
  }

  // ---------------------------------------------------------------- the secret a pass makes

  /** The pass of a live object that finds no secret under the name. */
  ghost predicate Makes(w: World, k: Key, sk: Key, env: Env) {
    && k in w.users && !w.users[k].deleting && env.connect && NamesSecret(k, w.users[k], sk)
    && sk !in w.secrets && env.ok(GetSecret) && env.ok(CreateSecret)
  }

  /** The secret made holds the generated password under the key the object names, and nothing else; no statement is sent yet. */
  lemma MakesSecret(w: World, k: Key, sk: Key, env: Env)
    requires Makes(w, k, sk, env)
    ensures var w' := UP.UserPass(w, k, env);
            && sk in w'.secrets && w'.secrets[sk].data == map[w.users[k].spec.identification.value.authString.value.key := env.password]
            && w'.server == w.server
  {
    QuietPass(w, k, env);
    MadeSecrets(w, k, sk, env);
  }

  lemma MadeSecrets(w: World, k: Key, sk: Key, env: Env)
    requires Makes(w, k, sk, env)
    ensures var w' := UP.UserPass(w, k, env);
            sk in w'.secrets && w'.secrets[sk].data == map[w.users[k].spec.identification.value.authString.value.key := env.password]
  {
    var r := UP.WithSecret(w, k, w.users[k], env);
    assert r.Some? && r.value.secrets[sk].controller == None;
  }

  /** A generated password: 24 characters, of which at least one special, one digit and one capital, all from the alphabet. */
  lemma GeneratedMeets(env: Env, c: PW.Choices) returns (password: string)
    requires UR.Generates(env, c)
    ensures PW.Meets(password, PW.Request(24, 1, 1, 1)) && |password| == 24 && env.password == Ascii(password)
  {
    var q := PW.Request(24, 1, 1, 1);
    password := PW.Generated(c, q);
    PW.EveryPasswordMeets(c, q);
  }

  /**
   * A new object whose secret is not there yet: after seven passes the secret holds exactly the password
   * generated when the object was first looked at, and the account has it as its credential.
   */
  lemma NewSecretServes(w: World, k: Key, uid: Uid, spec: UserSpec, sk: Key, env: Env, n: nat)
    requires k !in w.users && uid !in w.uids
    requires spec.username != [] && spec.username !in w.server.accounts
    requires Servable(w, k, DatabaseUser(uid, spec, NEW_USER_STATUS, false, false))
    requires NamesSecret(k, DatabaseUser(uid, spec, NEW_USER_STATUS, false, false), sk) && sk !in w.secrets
    requires AllSucceed(env) && env.password != [] && n >= 7
    ensures var id := spec.identification.value;
            var w2 := Passes(ObjectStep(w, CreateUserObject(k, uid, spec)), k, env, n);
            && sk in w2.secrets && w2.secrets[sk].data == map[id.authString.value.key := env.password]
            && spec.username in w2.server.accounts
            && w2.server.accounts[spec.username].auth.credential == Some(if id.clearText then Clear(env.password) else Hashed(env.password))
  {
    var w1 := ObjectStep(w, CreateUserObject(k, uid, spec));
    var w2 := Passes(w1, k, env, n);
    NewObjectConverges(w, k, uid, spec, env, n);
    MakesSecret(w1, k, sk, env);
    PassesKeepData(UP.UserPass(w1, k, env), k, sk, env, n - 1);
    assert w2 == Passes(UP.UserPass(w1, k, env), k, env, n - 1);
    CredentialFromSecret(w2, k, sk, env);
  }

  lemma CredentialFromSecret(w: World, k: Key, sk: Key, env: Env)
    requires MatchesInPart(w, k, env) && AllSucceed(env) && NamesSecret(k, w.users[k], sk) && sk in w.secrets
    requires var key := w.users[k].spec.identification.value.authString.value.key;
             key in w.secrets[sk].data && w.secrets[sk].data[key] != []
    ensures var u := w.users[k];
            var id := u.spec.identification.value;
            var auth := w.secrets[sk].data[id.authString.value.key];
            && u.spec.username in w.server.accounts
            && w.server.accounts[u.spec.username].auth.credential == Some(if id.clearText then Clear(auth) else Hashed(auth))
  {
  }
}
