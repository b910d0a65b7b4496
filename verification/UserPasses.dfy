/**
 * One pass over a DatabaseUser object (controllers/databaseuser_controller.go), as functions of the
 * stored world. `UserReconciler` runs the same pass step by step and is proved equal to it.
 */
module UserPasses {
  import opened Basics
  import opened SqlStatements
  import opened SqlTexts
  import opened Model
  import opened Ownership

  /** Server and in-memory object after a step; `ok` is false when the step returned an error. */
  datatype Outcome = Outcome(server: Server, user: DatabaseUser, ok: bool)

  function Actor(k: Key, u: DatabaseUser): Creator { Cr(u.uid, k.namespace) }

  function Send(s: Server, k: Key, u: DatabaseUser, stmt: AccountStmt, reached: bool): (Server, bool) {
    Exec(s, Actor(k, u), OnAccount(stmt), reached)
  }

  /** The ledger row carries the name in the specification. */
  function SaveUserRow(s: Server, k: Key, u: DatabaseUser, saved: bool): Server {
    if saved then s.(managedUsers := s.managedUsers[u.uid := Row(k, u.spec.username)]) else s
  }

  // ---------------------------------------------------------------- tracking the grants

  /** The lines of SHOW GRANTS after the first. */
  function Lines(p: Privileges, n: Bytes, env: Env): seq<GrantLine> {
    seq(|env.order(p)|, i requires 0 <= i < |env.order(p)| => GrantLine(env.order(p)[i], Held(p, env.order(p)[i]), n))
  }

  /** The tracked list with the lines it lacks appended. */
  function Refresh(grants: seq<GrantLine>, lines: seq<GrantLine>): seq<GrantLine>
    decreases |lines|
  {
    if lines == [] then grants
    else Refresh(if lines[0] in grants then grants else grants + [lines[0]], lines[1..])
  }

  function Tracking(u: DatabaseUser, grants: seq<GrantLine>): DatabaseUser {
    u.(status := u.status.(grants := grants))
  }

  function GrantStatusUpdate(s: Server, u: DatabaseUser, empty: bool, round: nat, env: Env): (DatabaseUser, bool, bool) {
    var known := if empty then [] else u.status.grants;
    if !env.ok(ShowGrants(round)) || u.status.username !in s.accounts then (Tracking(u, known), false, false)
    else
      var all := Refresh(known, Lines(s.accounts[u.status.username].privileges, u.status.username, env));
      (Tracking(u, all), all != known, true)
  }

  // ---------------------------------------------------------------- privileges

  function UpperByte(c: byte): byte { if 97 <= c <= 122 then c - 32 else c }

  function Upper(s: Bytes): Bytes { seq(|s|, i requires 0 <= i < |s| => UpperByte(s[i])) }

  function PrivilegeList(p: Permission): seq<Bytes> {
    if p.grants == [] then [Ascii("ALL")] else seq(|p.grants|, i requires 0 <= i < |p.grants| => Upper(p.grants[i]))
  }

  function PrivilegeWords(p: Permission): set<Bytes> { AsSet(PrivilegeList(p)) }

  function Listed(k: Key, p: Permission): Key { Key(k.namespace, p.database) }

  /** Only schemas of Database objects in the same namespace and under management are granted. */
  predicate Grantable(s: Server, databases: map<Key, Database>, k: Key, p: Permission) {
    var dk := Listed(k, p);
    dk in databases && DatabaseMine(s, dk, databases[dk]) && databases[dk].status.name != []
  }

  /** The loop's own view of it at entry `i`, through lookups that may fail. */
  predicate DecidesGrant(s: Server, databases: map<Key, Database>, k: Key, p: Permission, env: Env, i: nat) {
    var dk := Listed(k, p);
    dk in databases && DecidesDatabase(s, dk, databases[dk], env, i) && databases[dk].status.name != []
  }

  function GrantOneText(u: DatabaseUser, k: Key, databases: map<Key, Database>, i: nat): Bytes
    requires i < |u.spec.databaseList| && Listed(k, u.spec.databaseList[i]) in databases
  {
    var p := u.spec.databaseList[i];
    GrantText(PrivilegeList(p), databases[Listed(k, p)].status.name, u.status.username)
  }

  function GrantOne(s: Server, u: DatabaseUser, k: Key, databases: map<Key, Database>, i: nat, env: Env): Server
    requires i < |u.spec.databaseList|
  {
    if DecidesGrant(s, databases, k, u.spec.databaseList[i], env, i) then
      Receive(s, Actor(k, u), GrantOneText(u, k, databases, i), env, env.ok(SendGrant(i))).0
    else s
  }

  /** The Database object of entry `i` can be read. */
  predicate Fetched(u: DatabaseUser, k: Key, databases: map<Key, Database>, i: nat, env: Env)
    requires i < |u.spec.databaseList|
  {
    env.ok(FetchDatabase(i)) && Listed(k, u.spec.databaseList[i]) in databases
  }

  /** The grant loop from entry `i` on. A failed GRANT is only logged; a failed fetch ends the loop. */
  function GrantFrom(s: Server, u: DatabaseUser, k: Key, databases: map<Key, Database>, i: nat, env: Env): (Server, bool)
    requires i <= |u.spec.databaseList|
    decreases |u.spec.databaseList| - i
  {
    if i == |u.spec.databaseList| then (s, true)
    else if !Fetched(u, k, databases, i, env) then (s, false)
    else GrantFrom(GrantOne(s, u, k, databases, i, env), u, k, databases, i + 1, env)
  }

  function GrantAll(s: Server, u: DatabaseUser, k: Key, databases: map<Key, Database>, env: Env): Outcome {
    var (s1, fetched) := GrantFrom(s, u, k, databases, 0, env);
    if !fetched then Outcome(s1, u, false)
    else
      var u1 := u.(status := u.status.(databaseList := u.spec.databaseList));
      var (u2, _, shown) := GrantStatusUpdate(s1, u1, false, 2, env);
      Outcome(s1, u2, shown)
  }

  function Revoke(s: Server, u: DatabaseUser, k: Key, env: Env): Outcome {
    var (s1, sent) := Send(s, k, u, RevokeAll(u.status.username), env.ok(SendRevoke));
    if !sent then Outcome(s1, u, false)
    else
      var u1 := u.(status := u.status.(databaseList := []));
      var (u2, _, shown) := GrantStatusUpdate(s1, u1, true, 1, env);
      Outcome(s1, u2, shown)
  }

  predicate PermissionListEqual(u: DatabaseUser) {
    |u.status.grants| == |u.spec.databaseList| && u.spec.databaseList == u.status.databaseList
  }

  // ---------------------------------------------------------------- authentication details

  function AuthFor(id: Identification, auth: Bytes): AuthClause {
    if id.plugin != [] then
      if auth != [] then WithPluginAuth(id.plugin, !id.clearText, auth) else WithPlugin(id.plugin)
    else if auth != [] then ByAuth(!id.clearText, auth)
    else NoAuth
  }

  predicate AuthDiffers(u: DatabaseUser, id: Identification, secret: Secret) {
    || u.status.identificationVersion != secret.version
    || (u.status.identification.Some? && id.plugin != u.status.identification.value.plugin && id.plugin != [])
  }

  /** The auth string the specification points to; None when it cannot be read. */
  function AuthString(id: Identification, secret: Option<Secret>, env: Env): Option<Bytes> {
    if id.authString.Some? && secret.Some? && env.ok(ReadAuthString) && id.authString.value.key in secret.value.data then
      Some(secret.value.data[id.authString.value.key])
    else None
  }

  /**
   * The statement part to send and the status that records it, or None when the pass breaks off: the
   * auth string cannot be read, or there is no secret at all, which the source dereferences.
   */
  function DetailsFor(u: DatabaseUser, secret: Option<Secret>, create: bool, env: Env): Option<(Details, DatabaseUser)> {
    match u.spec.identification
    case None => Some((NO_DETAILS, u))
    case Some(id) =>
      match AuthString(id, secret, env)
      case None => None
      case Some(auth) =>
        var clause := if create || AuthDiffers(u, id, secret.value) then AuthFor(id, auth) else NoAuth;
        var tls := if u.spec.tls != u.status.tls then Some(u.spec.tls) else None;
        Some((Details(clause, tls),
              u.(status := u.status.(identificationVersion := secret.value.version,
                                     identification := Some(id),
                                     tls := u.spec.tls))))
  }

  // ---------------------------------------------------------------- create, update, finalize

  function UserCreate(s: Server, u: DatabaseUser, k: Key, databases: map<Key, Database>, secret: Option<Secret>, env: Env): Outcome {
    match DetailsFor(u, secret, true, env)
    case None => Outcome(s, u, false)
    case Some((d, u1)) =>
      var (s1, sent) := Send(s, k, u, CreateUser(u.status.username, d), env.ok(SendCreate));
      if !sent then Outcome(s1, u1, false)
      else
        var g := GrantAll(s1, Tracking(u1, []), k, databases, env);
        g.(server := SaveUserRow(g.server, k, u, env.ok(SaveCreatedRow)))
  }

  function Rename(s: Server, u: DatabaseUser, k: Key, env: Env): Outcome {
    var (s1, sent) := Send(s, k, u, RenameUser(u.status.username, u.spec.username), env.ok(SendRename));
    if !sent then Outcome(s1, u, false)
    else Outcome(SaveUserRow(s1, k, u, env.ok(SaveRenamedRow)), u.(status := u.status.(username := u.spec.username)), true)
  }

  function UpdatePermissions(s: Server, u: DatabaseUser, k: Key, databases: map<Key, Database>, env: Env): Outcome {
    var (u1, grew, shown) := GrantStatusUpdate(s, u, false, 0, env);
    if !shown then Outcome(s, u1, false)
    else if !grew && PermissionListEqual(u1) then Outcome(s, u1, true)
    else
      var r := if |u1.status.grants| > 0 then Revoke(s, u1, k, env) else Outcome(s, u1, true);
      if r.ok then GrantAll(r.server, r.user, k, databases, env) else r
  }

  function UserUpdate(s: Server, u: DatabaseUser, k: Key, databases: map<Key, Database>, secret: Option<Secret>, env: Env): Outcome {
    if u.spec.username != u.status.username then Rename(s, u, k, env)
    else
      match DetailsFor(u, secret, false, env)
      case None => Outcome(s, u, false)
      case Some((d, u1)) =>
        if d != NO_DETAILS then
          var (s1, sent) := Send(s, k, u, AlterUser(u.status.username, d), env.ok(SendAlter));
          Outcome(s1, u1, sent)
        else UpdatePermissions(s, u1, k, databases, env)
  }

  /** The drop goes by the name in the status; its failure is only logged and the ledger row goes in any case. */
  function FinalizeUser(s: Server, u: DatabaseUser, k: Key, env: Env): Server {
    var s1 := Send(s, k, u, DropUser(u.status.username), env.ok(SendDrop)).0;
    if env.ok(DeleteRow) then s1.(managedUsers := s1.managedUsers - {u.uid}) else s1
  }

  /** The lookup of the claimed name finds an account. */
  predicate Seen(s: Server, u: DatabaseUser, env: Env) {
    AccountSeen(s, u.status.username, env, 1, 0)
  }

  /** The object with the plugin found on the server, when the account is found. */
  function Observed(s: Server, u: DatabaseUser, env: Env): DatabaseUser {
    if !Seen(s, u, env) then u
    else
      var plugin := s.accounts[u.status.username].auth.plugin;
      var id := if u.status.identification.None? then Identification(plugin, None, false)
                else u.status.identification.value.(plugin := plugin);
      u.(status := u.status.(identification := Some(id)))
  }

  function Converge(s: Server, u: DatabaseUser, k: Key, databases: map<Key, Database>, secret: Option<Secret>, env: Env): Outcome {
    var u1 := Observed(s, u, env);
    if !Seen(s, u, env) then UserCreate(s, u1, k, databases, secret, env)
    else if DecidesUser(s, k, u1, env, 2) then UserUpdate(s, u1, k, databases, secret, env)
    else Outcome(s, u1, true)
  }

  // ---------------------------------------------------------------- the pass

  function SecretKey(k: Key, u: DatabaseUser): Option<Key> {
    if u.spec.identification.Some? && u.spec.identification.value.authString.Some? then
      Some(Key(k.namespace, u.spec.identification.value.authString.value.name))
    else None
  }

  /** The world after making sure the referenced secret exists; None when that fails. */
  function WithSecret(w: World, k: Key, u: DatabaseUser, env: Env): Option<World> {
    match SecretKey(k, u)
    case None => Some(w)
    case Some(sk) =>
      if !env.ok(GetSecret) then None
      else if sk in w.secrets then Some(w)
      else if !env.ok(CreateSecret) then None
      else
        var data := map[u.spec.identification.value.authString.value.key := env.password];
        Some(w.(secrets := w.secrets[sk := Secret(data, None, w.lastVersion + 1)], lastVersion := w.lastVersion + 1))
  }

  function SecretOf(w: World, k: Key, u: DatabaseUser): Option<Secret> {
    match SecretKey(k, u)
    case None => None
    case Some(sk) => if sk in w.secrets then Some(w.secrets[sk]) else None
  }

  predicate SecretOwnershipOk(secret: Option<Secret>, u: DatabaseUser) {
    secret.Some? ==> secret.value.controller == Some(u.uid)
  }

  /** Taking control fails when another controller has it; a successful write gives the secret a new version. */
  function TakeSecret(w: World, k: Key, u: DatabaseUser, env: Env): World {
    match SecretKey(k, u)
    case None => w
    case Some(sk) =>
      if sk in w.secrets && w.secrets[sk].controller == None && env.ok(UpdateSecret) then
        w.(secrets := w.secrets[sk := w.secrets[sk].(controller := Some(u.uid), version := w.lastVersion + 1)],
           lastVersion := w.lastVersion + 1)
      else w
  }

  function StoreUser(w: World, k: Key, u: DatabaseUser): World {
    w.(users := w.users[k := u])
  }

  function DeletionPass(w: World, k: Key, env: Env): World
    requires k in w.users
  {
    var u := w.users[k];
    if !u.finalizer || !env.connect then w
    else
      var w1 := if DecidesUser(w.server, k, u, env, 0) then w.(server := FinalizeUser(w.server, u, k, env)) else w;
      if env.ok(UpdateFinalizer) then w1.(users := w1.users - {k}) else w1
  }

  /** The work on the server, whose status is stored only when no error came up. */
  function ServerPass(w: World, k: Key, env: Env): World
    requires k in w.users
  {
    var u := w.users[k];
    var o := Converge(w.server, u, k, w.databases, SecretOf(w, k, u), env);
    var w1 := w.(server := o.server);
    if o.ok && env.ok(UpdateStatus) then StoreUser(w1, k, o.user) else w1
  }

  function LivePass(w: World, k: Key, env: Env): World
    requires k in w.users
  {
    var u := w.users[k];
    match WithSecret(w, k, u, env)
    case None => w
    case Some(w1) =>
      if u.status.username == [] && DecidesUser(w.server, k, u, env, 0) then
        if env.ok(UpdateStatus) then StoreUser(w1, k, u.(status := u.status.(username := u.spec.username))) else w1
      else if !SecretOwnershipOk(SecretOf(w1, k, u), u) then TakeSecret(w1, k, u, env)
      else if !u.finalizer then
        if env.ok(UpdateFinalizer) then StoreUser(w1, k, u.(finalizer := true)) else w1
      else if u.status.username != [] then ServerPass(w1, k, env)
      else w1
  }

  function UserPass(w: World, k: Key, env: Env): World {
    if k !in w.users then w
    else if w.users[k].deleting then DeletionPass(w, k, env)
    else if !env.connect then w
    else LivePass(w, k, env)
  }

  // ---------------------------------------------------------------- where the grant loop starts

  /** Server and object the grant loop starts from after a CREATE; None when the pass does not get there. */
  function CreateStart(s: Server, u: DatabaseUser, k: Key, secret: Option<Secret>, env: Env): Option<(Server, DatabaseUser)> {
    match DetailsFor(u, secret, true, env)
    case None => None
    case Some((d, u1)) =>
      var (s1, sent) := Send(s, k, u, CreateUser(u.status.username, d), env.ok(SendCreate));
      if sent then Some((s1, Tracking(u1, []))) else None
  }

  function PermissionStart(s: Server, u: DatabaseUser, k: Key, env: Env): Option<(Server, DatabaseUser)> {
    var (u1, grew, shown) := GrantStatusUpdate(s, u, false, 0, env);
    if !shown || (!grew && PermissionListEqual(u1)) then None
    else
      var r := if |u1.status.grants| > 0 then Revoke(s, u1, k, env) else Outcome(s, u1, true);
      if r.ok then Some((r.server, r.user)) else None
  }

  function UpdateStart(s: Server, u: DatabaseUser, k: Key, secret: Option<Secret>, env: Env): Option<(Server, DatabaseUser)> {
    if u.spec.username != u.status.username then None
    else
      match DetailsFor(u, secret, false, env)
      case None => None
      case Some((d, u1)) => if d != NO_DETAILS then None else PermissionStart(s, u1, k, env)
  }

  function ConvergeStart(s: Server, u: DatabaseUser, k: Key, secret: Option<Secret>, env: Env): Option<(Server, DatabaseUser)> {
    var u1 := Observed(s, u, env);
    if !Seen(s, u, env) then CreateStart(s, u1, k, secret, env)
    else if DecidesUser(s, k, u1, env, 2) then UpdateStart(s, u1, k, secret, env)
    else None
  }

  /** The pass gets to the server, with this secret. */
  predicate ServerDue(w: World, k: Key, env: Env)
    requires k in w.users
  {
    var u := w.users[k];
    && !u.deleting && env.connect && WithSecret(w, k, u, env).Some? && u.status.username != []
    && SecretOwnershipOk(SecretOf(WithSecret(w, k, u, env).value, k, u), u) && u.finalizer
  }

  function LoopStart(w: World, k: Key, env: Env): Option<(Server, DatabaseUser)>
    requires k in w.users
  {
    var u := w.users[k];
    if ServerDue(w, k, env) then
      ConvergeStart(w.server, u, k, SecretOf(WithSecret(w, k, u, env).value, k, u), env)
    else None
  }
}
