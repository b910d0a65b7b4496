/**
 * The statement texts, concatenated as controllers/databaseuser_controller.go and
 * controllers/database_controller.go do it, and what is asked of a server that reads them. Only account
 * names and credentials are escaped; database names, character sets, collations and privilege words go
 * into the text as they are.
 */
module SqlTexts {
  import opened Basics
  import opened SqlText
  import opened SqlStatements

  // ---------------------------------------------------------------- account statements

  function CreateUserText(n: Bytes, d: Details): Bytes {
    Ascii("CREATE USER '") + Escaped(n) + [QUOTE] + Tail(DetailTokens(d))
  }

  function AlterUserText(n: Bytes, d: Details): Bytes {
    Ascii("ALTER USER '") + Escaped(n) + [QUOTE] + Tail(DetailTokens(d))
  }

  function RenameUserText(n: Bytes, m: Bytes): Bytes {
    Ascii("RENAME USER '") + Escaped(n) + [QUOTE] + (Ascii(" TO '") + Escaped(m) + [QUOTE])
  }

  function DropUserText(n: Bytes): Bytes {
    Ascii("DROP USER IF EXISTS '") + Escaped(n) + [QUOTE]
  }

  function RevokeText(n: Bytes): Bytes {
    Ascii("REVOKE ALL PRIVILEGES, GRANT OPTION FROM '") + Escaped(n) + [QUOTE]
  }

  // ---------------------------------------------------------------- database statements

  function Clause(phrase: string, v: Bytes): Bytes {
    if v == [] then [] else Ascii(phrase) + v
  }

  function Options(cs: Bytes, co: Bytes): Bytes {
    Clause(" CHARACTER SET ", cs) + Clause(" COLLATE ", co)
  }

  function CreateDatabaseText(n: Bytes, cs: Bytes, co: Bytes): Bytes {
    Ascii("CREATE DATABASE `") + n + [BACKTICK] + Options(cs, co)
  }

  function AlterDatabaseText(n: Bytes, cs: Bytes, co: Bytes): Bytes {
    Ascii("ALTER DATABASE `") + n + [BACKTICK] + Options(cs, co)
  }

  function DropDatabaseText(n: Bytes): Bytes {
    Ascii("DROP DATABASE IF EXISTS `") + n + [BACKTICK]
  }

  /** Letters, digits and underscores: a character set or collation that reads as one word. */
  predicate PlainOption(v: Bytes) {
    forall i :: 0 <= i < |v| ==> IsWordByte(v[i]) && v[i] != DOT && v[i] != STAR
  }

  // ---------------------------------------------------------------- GRANT

  function Joined(ws: seq<Bytes>): Bytes {
    if ws == [] then [] else if |ws| == 1 then ws[0] else ws[0] + [COMMA, SPACE] + Joined(ws[1..])
  }

  function GrantText(ws: seq<Bytes>, n: Bytes, user: Bytes): Bytes {
    Ascii("GRANT ") + Joined(ws) + Ascii(" ON `") + n + Ascii("`.* TO '") + Escaped(user) + [QUOTE]
  }

  /** The parts between spaces. */
  function Split(w: Bytes): (r: seq<Bytes>)
    ensures |r| > 0
  {
    if w == [] then [[]]
    else if w[0] == SPACE then [[]] + Split(w[1..])
    else [[w[0]] + Split(w[1..])[0]] + Split(w[1..])[1..]
  }

  predicate PlainPart(p: Bytes) {
    p != [] && p != Ascii("ON") && forall i :: 0 <= i < |p| ==> 65 <= p[i] <= 90
  }

  /** Capital letters in parts separated by single spaces, none of them the keyword that ends the list. */
  predicate PlainPrivilege(w: Bytes) {
    forall i :: 0 <= i < |Split(w)| ==> PlainPart(Split(w)[i])
  }

  predicate PlainPrivileges(ws: seq<Bytes>) {
    ws != [] && forall i :: 0 <= i < |ws| ==> PlainPrivilege(ws[i])
  }

  // ---------------------------------------------------------------- what a server reads

  /** The account statements are read as what they are. */
  ghost predicate ReadsAccounts(read: Bytes -> Option<Stmt>) {
    && (forall n, d :: read(CreateUserText(n, d)) == Some(OnAccount(CreateUser(n, d))))
    && (forall n, d :: read(AlterUserText(n, d)) == Some(OnAccount(AlterUser(n, d))))
    && (forall n, m :: read(RenameUserText(n, m)) == Some(OnAccount(RenameUser(n, m))))
    && (forall n :: read(DropUserText(n)) == Some(OnAccount(DropUser(n))))
    && (forall n :: read(RevokeText(n)) == Some(OnAccount(RevokeAll(n))))
  }

  /** What a database statement is read as: one of its kind, if any, and about this name exactly when it is quotable. */
  predicate ReadAsCreate(r: Option<Stmt>, n: Bytes, cs: Bytes, co: Bytes) {
    && (r.Some? ==> r.value.CreateDatabase? && (r.value.name == n ==> Quotable(n)))
    && (Quotable(n) && r.Some? ==> r.value.name == n)
    && (Quotable(n) && PlainOption(cs) && PlainOption(co) ==> r == Some(CreateDatabase(n, cs, co)))
  }

  predicate ReadAsAlter(r: Option<Stmt>, n: Bytes, cs: Bytes, co: Bytes) {
    && (r.Some? ==> r.value.AlterDatabase? && (r.value.name == n ==> Quotable(n)))
    && (Quotable(n) && r.Some? ==> r.value.name == n)
    && (Quotable(n) && PlainOption(cs) && PlainOption(co) && (cs != [] || co != []) ==> r == Some(AlterDatabase(n, cs, co)))
  }

  predicate ReadAsDrop(r: Option<Stmt>, n: Bytes) {
    && (r.Some? ==> r.value.DropDatabase?)
    && (r == Some(DropDatabase(n)) <==> Quotable(n))
  }

  /** With plain privilege words a GRANT is read as meant exactly when the database name is quotable. */
  predicate ReadAsGrant(r: Option<Stmt>, ws: seq<Bytes>, n: Bytes, user: Bytes) {
    && (r.Some? ==> r.value.Grant?)
    && (PlainPrivileges(ws) ==> (r == Some(Grant(AsSet(ws), Pattern(n), user)) <==> Quotable(n)))
  }

  /** The server reads the operator's texts as the language defines them. */
  ghost predicate Literate(read: Bytes -> Option<Stmt>) {
    && ReadsAccounts(read)
    && (forall n, cs, co :: ReadAsCreate(read(CreateDatabaseText(n, cs, co)), n, cs, co))
    && (forall n, cs, co :: ReadAsAlter(read(AlterDatabaseText(n, cs, co)), n, cs, co))
    && (forall n :: ReadAsDrop(read(DropDatabaseText(n)), n))
    && (forall ws, n, user :: ReadAsGrant(read(GrantText(ws, n, user)), ws, n, user))
  }
}
