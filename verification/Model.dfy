/**
 * The three stores the operator works on: the MySQL server with the operator's ledger, and the
 * Kubernetes objects. Every server object carries the identity of whoever created it.
 */
module Model {
  import opened Basics
  import opened SqlText
  import opened SqlStatements
  import opened SqlTexts

  type Uid = nat

  /** Namespace and name of a Kubernetes object. */
  datatype Key = Key(namespace: Bytes, name: Bytes)

  /** Who created a server object: somebody else, or the operator for one custom resource. */
  datatype Creator = Foreign | Cr(uid: Uid, namespace: Bytes)

  // ---------------------------------------------------------------- the server

  datatype Credential = Clear(password: Bytes) | Hashed(hash: Bytes)

  datatype Auth = Auth(plugin: Bytes, credential: Option<Credential>)

  /** The privilege words an account was granted, by the name pattern they were granted on. */
  type Privileges = map<Bytes, set<Bytes>>

  /** `everywhere` are the words granted on all schemas at once. */
  datatype Account = Account(creator: Creator, auth: Auth, tls: bool, privileges: Privileges, everywhere: set<Bytes>)

  datatype Schema = Schema(creator: Creator, characterSet: Bytes, collation: Bytes)

  /** A ledger row, stored under the UID of the custom resource (orm/model.go). */
  datatype Row = Row(owner: Key, target: Bytes)

  /** Each collation belongs to one character set, and each character set has a default collation. */
  datatype Catalog = Catalog(charsetOf: map<Bytes, Bytes>, defaultOf: map<Bytes, Bytes>,
                             characterSet: Bytes, collation: Bytes)

  datatype Server = Server(
    schemas: map<Bytes, Schema>,
    accounts: map<Bytes, Account>,
    managedDatabases: map<Uid, Row>,
    managedUsers: map<Uid, Row>,
    catalog: Catalog,
    defaultPlugin: Bytes,
    issued: seq<Issued>)

  /** A statement the operator sent, for whom, and the creators of the existing objects it named. */
  datatype Issued = Issued(actor: Creator, stmt: Stmt, accounts: set<Creator>, schemas: set<Creator>)

  function CreatorOfAccount(s: Server, n: Bytes): set<Creator> {
    if n in s.accounts then {s.accounts[n].creator} else {}
  }

  function CreatorOfSchema(s: Server, n: Bytes): set<Creator> {
    if n in s.schemas then {s.schemas[n].creator} else {}
  }

  /** Whether a name matches the pattern of a GRANT: `%` any run of bytes, `_` any one byte, backslash takes the next literally. */
  predicate Like(p: Bytes, n: Bytes)
    decreases |p| + |n|
  {
    if p == [] then n == []
    else if p[0] == PERCENT then Like(p[1..], n) || (n != [] && Like(p, n[1..]))
    else if p[0] == UNDERSCORE then n != [] && Like(p[1..], n[1..])
    else if p[0] == BACKSLASH && |p| > 1 then n != [] && n[0] == p[1] && Like(p[2..], n[1..])
    else n != [] && n[0] == p[0] && Like(p[1..], n[1..])
  }

  predicate Covers(scope: Scope, n: Bytes) {
    scope.Everywhere? || Like(scope.pattern, n)
  }

  /** The creators of the existing schemas a GRANT covers. */
  function CreatorsCovered(s: Server, scope: Scope): set<Creator> {
    set n | n in s.schemas && Covers(scope, n) :: s.schemas[n].creator
  }

  function NamedAccounts(s: Server, stmt: Stmt): set<Creator> {
    match stmt
    case OnAccount(RenameUser(n, m)) => CreatorOfAccount(s, n) + CreatorOfAccount(s, m)
    case OnAccount(a) => CreatorOfAccount(s, a.name)
    case Grant(_, _, n) => CreatorOfAccount(s, n)
    case _ => {}
  }

  function NamedSchemas(s: Server, stmt: Stmt): set<Creator> {
    match stmt
    case OnAccount(_) => {}
    case Grant(_, scope, _) => CreatorsCovered(s, scope)
    case _ => CreatorOfSchema(s, stmt.name)
  }

  /** Character set and collation a CREATE or ALTER DATABASE ends up with; None when the server rejects them. */
  function Resolve(c: Catalog, characterSet: Bytes, collate: Bytes): Option<(Bytes, Bytes)> {
    if characterSet != [] && collate != [] then
      if collate in c.charsetOf && c.charsetOf[collate] == characterSet then Some((characterSet, collate)) else None
    else if characterSet != [] then
      if characterSet in c.defaultOf then Some((characterSet, c.defaultOf[characterSet])) else None
    else if collate != [] then
      if collate in c.charsetOf then Some((c.charsetOf[collate], collate)) else None
    else Some((c.characterSet, c.collation))
  }

  function CredentialOf(hashed: bool, auth: Bytes): Credential {
    if hashed then Hashed(auth) else Clear(auth)
  }

  /** The effect of an IDENTIFIED clause on an account's authentication. */
  function Authenticate(current: Auth, a: AuthClause): Auth {
    match a
    case NoAuth => current
    case WithPlugin(p) => Auth(p, None)
    case WithPluginAuth(p, hashed, s) => Auth(p, Some(CredentialOf(hashed, s)))
    case ByAuth(hashed, s) => Auth(current.plugin, Some(CredentialOf(hashed, s)))
  }

  function WithDetails(a: Account, d: Details): Account {
    a.(auth := Authenticate(a.auth, d.auth), tls := if d.tls.Some? then d.tls.value else a.tls)
  }

  function Held(p: Privileges, schema: Bytes): set<Bytes> {
    if schema in p then p[schema] else {}
  }

  /** Whether the server carries the statement out. */
  predicate Accepts(s: Server, stmt: Stmt) {
    match stmt
    case OnAccount(CreateUser(n, _)) => n !in s.accounts
    case OnAccount(AlterUser(n, _)) => n in s.accounts
    case OnAccount(RenameUser(n, m)) => n in s.accounts && m !in s.accounts
    case OnAccount(DropUser(_)) => true
    case OnAccount(RevokeAll(n)) => n in s.accounts
    case Grant(_, _, n) => n in s.accounts
    case CreateDatabase(n, cs, co) => n !in s.schemas && Resolve(s.catalog, cs, co).Some?
    case AlterDatabase(n, cs, co) => n in s.schemas && Resolve(s.catalog, cs, co).Some?
    case DropDatabase(_) => true
  }

  function ApplyToAccounts(s: Server, actor: Creator, stmt: AccountStmt): map<Bytes, Account>
    requires Accepts(s, OnAccount(stmt))
  {
    match stmt
    case CreateUser(n, d) =>
      s.accounts[n := WithDetails(Account(actor, Auth(s.defaultPlugin, None), false, map[], {}), d)]
    case AlterUser(n, d) => s.accounts[n := WithDetails(s.accounts[n], d)]
    case RenameUser(n, m) => (s.accounts - {n})[m := s.accounts[n]]
    case DropUser(n) => s.accounts - {n}
    case RevokeAll(n) => s.accounts[n := s.accounts[n].(privileges := map[], everywhere := {})]
  }

  function Granted(a: Account, ps: set<Bytes>, scope: Scope): Account {
    match scope
    case Everywhere => a.(everywhere := a.everywhere + ps)
    case Pattern(p) => a.(privileges := a.privileges[p := Held(a.privileges, p) + ps])
  }

  function Apply(s: Server, actor: Creator, stmt: Stmt): Server
    requires Accepts(s, stmt)
  {
    match stmt
    case OnAccount(a) => s.(accounts := ApplyToAccounts(s, actor, a))
    case Grant(ps, scope, n) => s.(accounts := s.accounts[n := Granted(s.accounts[n], ps, scope)])
    case CreateDatabase(n, cs, co) =>
      var r := Resolve(s.catalog, cs, co).value;
      s.(schemas := s.schemas[n := Schema(actor, r.0, r.1)])
    case AlterDatabase(n, cs, co) =>
      var r := Resolve(s.catalog, cs, co).value;
      s.(schemas := s.schemas[n := s.schemas[n].(characterSet := r.0, collation := r.1)])
    case DropDatabase(n) => s.(schemas := s.schemas - {n})
  }

  /** One statement sent to the server: it fails when the call fails or the server rejects it. */
  function Exec(s: Server, actor: Creator, stmt: Stmt, reached: bool): (Server, bool) {
    var logged := s.(issued := s.issued + [Issued(actor, stmt, NamedAccounts(s, stmt), NamedSchemas(s, stmt))]);
    if reached && Accepts(s, stmt) then (Apply(logged, actor, stmt), true) else (logged, false)
  }

  /** A text sent to the server: the statement it is read as takes effect; a text that is none is refused. */
  function Receive(s: Server, actor: Creator, text: Bytes, env: Env, reached: bool): (Server, bool) {
    match env.reader(text)
    case None => (s, false)
    case Some(stmt) => Exec(s, actor, stmt, reached)
  }

  // ---------------------------------------------------------------- the custom resources

  datatype SecretRef = SecretRef(name: Bytes, key: Bytes)

  /** Versions start at one; zero stands for the empty version of a status never written. */
  datatype Secret = Secret(data: map<Bytes, Bytes>, controller: Option<Uid>, version: nat)

  /** A Database object, by name, and the privilege words to grant on it; none means ALL. */
  datatype Permission = Permission(database: Bytes, grants: seq<Bytes>)

  datatype Identification = Identification(plugin: Bytes, authString: Option<SecretRef>, clearText: bool)

  datatype UserSpec = UserSpec(username: Bytes, identification: Option<Identification>,
                               databaseList: seq<Permission>, tls: bool)

  /** One line of SHOW GRANTS after the first. */
  datatype GrantLine = GrantLine(schema: Bytes, privileges: set<Bytes>, grantee: Bytes)

  datatype UserStatus = UserStatus(username: Bytes, databaseList: seq<Permission>, grants: seq<GrantLine>,
                                   identification: Option<Identification>, identificationVersion: nat, tls: bool)

  datatype DatabaseUser = DatabaseUser(uid: Uid, spec: UserSpec, status: UserStatus, finalizer: bool, deleting: bool)

  /** `connection` is the name of the admin connection; without one a pass does not reach the server. */
  datatype DatabaseSpec = DatabaseSpec(name: Bytes, characterSet: Bytes, collate: Bytes, connection: Bytes)

  datatype DatabaseStatus = DatabaseStatus(name: Bytes, characterSet: Bytes, collate: Bytes)

  datatype Database = Database(uid: Uid, spec: DatabaseSpec, status: DatabaseStatus, finalizer: bool, deleting: bool)

  const NEW_USER_STATUS: UserStatus := UserStatus([], [], [], None, 0, false)

  const NEW_DATABASE_STATUS: DatabaseStatus := DatabaseStatus([], [], [])

  datatype World = World(
    server: Server,
    databases: map<Key, Database>,
    users: map<Key, DatabaseUser>,
    secrets: map<Key, Secret>,
    uids: set<Uid>,
    lastVersion: nat)

  // ---------------------------------------------------------------- the environment of one pass

  /**
   * The calls of one pass that may fail on their own. Lookups are numbered in the order of the pass; a
   * failed one goes unnoticed and counts as nothing found. In a DatabaseUser pass the schema lookups are
   * those of the grant loop, numbered by entry.
   */
  datatype Call =
    | GetSecret | CreateSecret | UpdateSecret | ReadAuthString
    | UpdateFinalizer | UpdateStatus
    | SendCreate | SendAlter | SendRename | SendDrop | SendRevoke | SendGrant(index: nat)
    | ShowGrants(round: nat) | FetchDatabase(index: nat)
    | LookupSchema(round: nat) | LookupSchemaRow(round: nat)
    | LookupAccount(round: nat, index: nat) | LookupAccountRow(round: nat, index: nat)
    | InsertRow | SaveCreatedRow | SaveRenamedRow | DeleteRow

  /**
   * `connect`: the admin connection and its pool are available; `ok`: the call succeeds;
   * `reader`: the statement the server reads in a text; `order`: the order in which SHOW GRANTS lists the
   * schemas; `password`: a generated password.
   */
  datatype Env = Env(connect: bool, ok: Call -> bool, reader: Bytes -> Option<Stmt>,
                     order: Privileges -> seq<Bytes>, password: Bytes)

  /** SHOW GRANTS lists each schema once. */
  ghost predicate ValidOrder(env: Env) {
    forall p: Privileges ::
      && |env.order(p)| == |p|
      && (forall i :: 0 <= i < |p| ==> env.order(p)[i] in p)
      && (forall i, j :: 0 <= i < j < |p| ==> env.order(p)[i] != env.order(p)[j])
  }

  /** No lookup of a schema or an account takes an existing one for missing. */
  ghost predicate LookupsOk(env: Env) {
    forall c: Call :: c.LookupSchema? || c.LookupAccount? ==> env.ok(c)
  }

  ghost predicate AllSucceed(env: Env) {
    env.connect && ValidOrder(env) && Literate(env.reader) && forall c :: env.ok(c)
  }
}
