/**
 * The writing statements of the operator as values, the tokens of the account statements, and a parser
 * that recovers the value from a text.
 */
module SqlStatements {
  import opened Basics
  import opened SqlText

  /** The IDENTIFIED part: `hashed` tells AS or BY PASSWORD from BY. */
  datatype AuthClause =
    | NoAuth
    | WithPlugin(plugin: Bytes)
    | WithPluginAuth(plugin: Bytes, hashed: bool, auth: Bytes)
    | ByAuth(hashed: bool, auth: Bytes)

  /** What follows the account name: authentication, then REQUIRE SSL or NONE. */
  datatype Details = Details(auth: AuthClause, tls: Option<bool>)

  const NO_DETAILS: Details := Details(NoAuth, None)

  datatype AccountStmt =
    | CreateUser(name: Bytes, details: Details)
    | AlterUser(name: Bytes, details: Details)
    | RenameUser(name: Bytes, target: Bytes)
    | DropUser(name: Bytes)
    | RevokeAll(name: Bytes)

  /** What a GRANT covers: every schema, or those whose name matches a pattern. */
  datatype Scope = Everywhere | Pattern(pattern: Bytes)

  /** A writing statement; an empty character set or collation is one the statement does not mention. */
  datatype Stmt =
    | OnAccount(account: AccountStmt)
    | Grant(privileges: set<Bytes>, scope: Scope, name: Bytes)
    | CreateDatabase(name: Bytes, characterSet: Bytes, collate: Bytes)
    | AlterDatabase(name: Bytes, characterSet: Bytes, collate: Bytes)
    | DropDatabase(name: Bytes)

  // ---------------------------------------------------------------- printing

  function AuthTokens(a: AuthClause): seq<Token> {
    match a
    case NoAuth => []
    case WithPlugin(p) => [W("IDENTIFIED"), W("WITH"), Str(p)]
    case WithPluginAuth(p, hashed, s) =>
      [W("IDENTIFIED"), W("WITH"), Str(p), if hashed then W("AS") else W("BY"), Str(s)]
    case ByAuth(hashed, s) =>
      if hashed then [W("IDENTIFIED"), W("BY"), W("PASSWORD"), Str(s)]
      else [W("IDENTIFIED"), W("BY"), Str(s)]
  }

  function TlsTokens(t: Option<bool>): seq<Token> {
    match t
    case None => []
    case Some(required) => [W("REQUIRE"), if required then W("SSL") else W("NONE")]
  }

  function DetailTokens(d: Details): seq<Token> {
    AuthTokens(d.auth) + TlsTokens(d.tls)
  }

  function Head(stmt: AccountStmt): seq<Token> {
    match stmt
    case CreateUser(n, _) => [W("CREATE"), W("USER"), Str(n)]
    case AlterUser(n, _) => [W("ALTER"), W("USER"), Str(n)]
    case RenameUser(n, m) => [W("RENAME"), W("USER"), Str(n), W("TO"), Str(m)]
    case DropUser(n) => [W("DROP"), W("USER"), W("IF"), W("EXISTS"), Str(n)]
    case RevokeAll(n) =>
      [W("REVOKE"), W("ALL"), W("PRIVILEGES"), Comma, W("GRANT"), W("OPTION"), W("FROM"), Str(n)]
  }

  function Tokens(stmt: AccountStmt): seq<Token> {
    match stmt
    case CreateUser(_, d) => Head(stmt) + DetailTokens(d)
    case AlterUser(_, d) => Head(stmt) + DetailTokens(d)
    case _ => Head(stmt)
  }

  /** The text of an account statement. */
  function Print(stmt: AccountStmt): Bytes {
    if Tail(Tokens(stmt)) == [] then [] else Tail(Tokens(stmt))[1..]
  }

  // ---------------------------------------------------------------- parsing

  function ParseTls(ts: seq<Token>): Option<Option<bool>> {
    if ts == [] then Some(None)
    else if |ts| == 2 && ts[0] == W("REQUIRE") && ts[1] == W("SSL") then Some(Some(true))
    else if |ts| == 2 && ts[0] == W("REQUIRE") && ts[1] == W("NONE") then Some(Some(false))
    else None
  }

  /** The authentication clause at the front of the tokens and the number of tokens it takes. */
  function ParseAuth(ts: seq<Token>): (r: (AuthClause, nat))
    ensures r.1 <= |ts|
  {
    if |ts| >= 3 && ts[0] == W("IDENTIFIED") && ts[1] == W("WITH") && ts[2].Str? then
      if |ts| >= 5 && ts[3] == W("BY") && ts[4].Str? then (WithPluginAuth(ts[2].value, false, ts[4].value), 5)
      else if |ts| >= 5 && ts[3] == W("AS") && ts[4].Str? then (WithPluginAuth(ts[2].value, true, ts[4].value), 5)
      else (WithPlugin(ts[2].value), 3)
    else if |ts| >= 2 && ts[0] == W("IDENTIFIED") && ts[1] == W("BY") then
      if |ts| >= 3 && ts[2].Str? then (ByAuth(false, ts[2].value), 3)
      else if |ts| >= 4 && ts[2] == W("PASSWORD") && ts[3].Str? then (ByAuth(true, ts[3].value), 4)
      else (NoAuth, 0)
    else (NoAuth, 0)
  }

  function ParseDetails(ts: seq<Token>): Option<Details> {
    var (auth, n) := ParseAuth(ts);
    match ParseTls(ts[n..])
    case None => None
    case Some(tls) => Some(Details(auth, tls))
  }

  function ParseAccount(ts: seq<Token>): Option<AccountStmt> {
    if |ts| >= 3 && ts[1] == W("USER") && ts[2].Str? && ts[0] == W("CREATE") then
      match ParseDetails(ts[3..]) case None => None case Some(d) => Some(CreateUser(ts[2].value, d))
    else if |ts| >= 3 && ts[1] == W("USER") && ts[2].Str? && ts[0] == W("ALTER") then
      match ParseDetails(ts[3..]) case None => None case Some(d) => Some(AlterUser(ts[2].value, d))
    else if |ts| == 5 && ts[0] == W("RENAME") && ts[1] == W("USER") && ts[2].Str? && ts[3] == W("TO") && ts[4].Str? then
      Some(RenameUser(ts[2].value, ts[4].value))
    else if |ts| == 5 && ts[..4] == [W("DROP"), W("USER"), W("IF"), W("EXISTS")] && ts[4].Str? then
      Some(DropUser(ts[4].value))
    else if |ts| == 8 && ts[7].Str? &&
            ts[..7] == [W("REVOKE"), W("ALL"), W("PRIVILEGES"), Comma, W("GRANT"), W("OPTION"), W("FROM")] then
      Some(RevokeAll(ts[7].value))
    else None
  }

  /** The options after the name in CREATE and ALTER DATABASE. */
  function ParseOptions(ts: seq<Token>): Option<(Bytes, Bytes)> {
    if |ts| >= 3 && ts[0] == W("CHARACTER") && ts[1] == W("SET") && ts[2].Word? then
      match ParseCollate(ts[3..]) case None => None case Some(co) => Some((ts[2].spelling, co))
    else
      match ParseCollate(ts) case None => None case Some(co) => Some(([], co))
  }

  function ParseCollate(ts: seq<Token>): Option<Bytes> {
    if ts == [] then Some([])
    else if |ts| == 2 && ts[0] == W("COLLATE") && ts[1].Word? then Some(ts[1].spelling)
    else None
  }

  /** ALTER DATABASE needs at least one option. */
  function ParseDatabase(ts: seq<Token>): Option<Stmt> {
    if |ts| >= 3 && ts[0] == W("CREATE") && ts[2].Ident? then
      match ParseOptions(ts[3..]) case None => None case Some(o) => Some(CreateDatabase(ts[2].name, o.0, o.1))
    else if |ts| > 3 && ts[0] == W("ALTER") && ts[2].Ident? then
      match ParseOptions(ts[3..]) case None => None case Some(o) => Some(AlterDatabase(ts[2].name, o.0, o.1))
    else if |ts| == 5 && ts[0] == W("DROP") && ts[2] == W("IF") && ts[3] == W("EXISTS") && ts[4].Ident? then
      Some(DropDatabase(ts[4].name))
    else None
  }

  /** The privileges up to ON, and what follows it; `current` is the privilege being read. */
  function ParsePrivileges(ts: seq<Token>, current: Bytes): (r: Option<(seq<Bytes>, seq<Token>)>)
    ensures r.Some? ==> |r.value.1| < |ts|
    decreases |ts|
  {
    if ts == [] then None
    else if ts[0] == W("ON") then
      if current == [] then None else Some(([current], ts[1..]))
    else if ts[0].Comma? then
      if current == [] then None
      else match ParsePrivileges(ts[1..], [])
           case None => None
           case Some(pair) => Some(([current] + pair.0, pair.1))
    else if ts[0].Word? then ParsePrivileges(ts[1..], Longer(current, ts[0].spelling))
    else None
  }

  function Longer(current: Bytes, w: Bytes): Bytes {
    if current == [] then w else current + [SPACE] + w
  }

  /** `name`.*, name.* or *.*, and what follows. */
  function ParseScope(ts: seq<Token>): Option<(Scope, seq<Token>)> {
    if |ts| >= 2 && ts[0].Ident? && ts[1].AllOf? then Some((Pattern(ts[0].name), ts[2..]))
    else if |ts| >= 1 && ts[0] == Word([STAR, DOT, STAR]) then Some((Everywhere, ts[1..]))
    else if |ts| >= 1 && ts[0].Word? && |ts[0].spelling| > 2 && ts[0].spelling[|ts[0].spelling| - 2..] == [DOT, STAR] then
      Some((Pattern(ts[0].spelling[..|ts[0].spelling| - 2]), ts[1..]))
    else None
  }

  function AsSet(ws: seq<Bytes>): set<Bytes> {
    set i | 0 <= i < |ws| :: ws[i]
  }

  function ParseGrant(ts: seq<Token>): Option<Stmt>
    requires ts != []
  {
    match ParsePrivileges(ts[1..], [])
    case None => None
    case Some((ws, more)) =>
      match ParseScope(more)
      case None => None
      case Some((scope, to)) =>
        if |to| >= 2 && to[0] == W("TO") && to[1].Str? && (|to| == 2 || to[2..] == [W("WITH"), W("GRANT"), W("OPTION")]) then
          Some(Grant(AsSet(ws), scope, to[1].value))
        else None
  }

  function ParseTokens(ts: seq<Token>): Option<Stmt> {
    if |ts| >= 1 && ts[0] == W("GRANT") then ParseGrant(ts)
    else if |ts| >= 2 && ts[1] == W("DATABASE") then ParseDatabase(ts)
    else match ParseAccount(ts) case None => None case Some(a) => Some(OnAccount(a))
  }

  /** The statement a text denotes, if it is one of the statements above. */
  function Parse(text: Bytes): Option<Stmt> {
    match Lex(text)
    case None => None
    case Some(ts) => ParseTokens(ts)
  }

  // ---------------------------------------------------------------- the round trip

  predicate Keyword(s: string) {
    s != "" && forall i :: 0 <= i < |s| ==> 'A' <= s[i] <= 'Z'
  }

  lemma KeywordOk(s: string)
    requires Keyword(s)
    ensures TokenOk(W(s))
  {
    assert Ascii(s)[0] >= 65;
  }

  lemma AuthLexical(a: AuthClause)
    ensures Lexical(AuthTokens(a))
  {
    KeywordOk("IDENTIFIED");
    KeywordOk("WITH");
    KeywordOk("AS");
    KeywordOk("BY");
    KeywordOk("PASSWORD");
  }

  lemma TlsLexical(t: Option<bool>)
    ensures Lexical(TlsTokens(t))
  {
    KeywordOk("REQUIRE");
    KeywordOk("SSL");
    KeywordOk("NONE");
  }

  lemma DetailsLexical(d: Details)
    ensures Lexical(DetailTokens(d))
    ensures DetailTokens(d) != [] ==> DetailTokens(d)[0].Word?
  {
    AuthLexical(d.auth);
    TlsLexical(d.tls);
    LexicalConcat(AuthTokens(d.auth), TlsTokens(d.tls));
  }

  lemma DropLexical(n: Bytes)
    ensures Lexical(Head(DropUser(n)))
  {
    KeywordOk("DROP");
    KeywordOk("USER");
    KeywordOk("IF");
    KeywordOk("EXISTS");
  }

  lemma RevokeLexical(n: Bytes)
    ensures Lexical(Head(RevokeAll(n)))
  {
    KeywordOk("REVOKE");
    KeywordOk("ALL");
    KeywordOk("PRIVILEGES");
    KeywordOk("GRANT");
    KeywordOk("OPTION");
    KeywordOk("FROM");
  }

  lemma HeadLexical(stmt: AccountStmt)
    ensures Lexical(Head(stmt))
  {
    match stmt
    case CreateUser(_, _) => KeywordOk("CREATE"); KeywordOk("USER");
    case AlterUser(_, _) => KeywordOk("ALTER"); KeywordOk("USER");
    case RenameUser(_, _) => KeywordOk("RENAME"); KeywordOk("USER"); KeywordOk("TO");
    case DropUser(n) => DropLexical(n);
    case RevokeAll(n) => RevokeLexical(n);
  }

  lemma LexicalConcat(a: seq<Token>, b: seq<Token>)
    requires Lexical(a) && Lexical(b)
    requires b != [] ==> b[0].Word?
    ensures Lexical(a + b)
  {
  }

  lemma TokensLexical(stmt: AccountStmt)
    ensures Lexical(Tokens(stmt))
  {
    HeadLexical(stmt);
    if stmt.CreateUser? || stmt.AlterUser? {
      DetailsLexical(stmt.details);
      LexicalConcat(Head(stmt), DetailTokens(stmt.details));
    }
  }

  lemma ParseTlsTokens(t: Option<bool>)
    ensures ParseTls(TlsTokens(t)) == Some(t)
  {
    assert Ascii("SSL")[0] == 83 && Ascii("NONE")[0] == 78;
  }

  lemma ParseAuthTokens(a: AuthClause, t: Option<bool>)
    ensures ParseAuth(AuthTokens(a) + TlsTokens(t)) == (a, |AuthTokens(a)|)
  {
    assert Ascii("IDENTIFIED")[0] == 73 && Ascii("REQUIRE")[0] == 82;
    assert Ascii("WITH")[0] == 87 && Ascii("BY")[0] == 66 && Ascii("AS")[0] == 65;
    assert Ascii("PASSWORD")[0] == 80;
  }

  lemma ParseDetailTokens(d: Details)
    ensures ParseDetails(DetailTokens(d)) == Some(d)
  {
    ParseAuthTokens(d.auth, d.tls);
    ParseTlsTokens(d.tls);
    assert DetailTokens(d)[|AuthTokens(d.auth)|..] == TlsTokens(d.tls);
  }

  lemma ParseCreate(n: Bytes, d: Details)
    ensures ParseAccount(Tokens(CreateUser(n, d))) == Some(CreateUser(n, d))
  {
    ParseDetailTokens(d);
    assert Tokens(CreateUser(n, d))[3..] == DetailTokens(d);
  }

  lemma ParseAlter(n: Bytes, d: Details)
    ensures ParseAccount(Tokens(AlterUser(n, d))) == Some(AlterUser(n, d))
  {
    assert Ascii("CREATE")[0] == 67 && Ascii("ALTER")[0] == 65;
    ParseDetailTokens(d);
    assert Tokens(AlterUser(n, d))[3..] == DetailTokens(d);
  }

  lemma ParseRename(n: Bytes, m: Bytes)
    ensures ParseAccount(Tokens(RenameUser(n, m))) == Some(RenameUser(n, m))
  {
    assert Ascii("RENAME")[0] == 82 && Ascii("CREATE")[0] == 67 && Ascii("ALTER")[0] == 65;
  }

  lemma ParseDrop(n: Bytes)
    ensures ParseAccount(Tokens(DropUser(n))) == Some(DropUser(n))
  {
    assert Ascii("DROP")[0] == 68 && Ascii("CREATE")[0] == 67 && Ascii("ALTER")[0] == 65 && Ascii("RENAME")[0] == 82;
    assert Tokens(DropUser(n))[..4] == [W("DROP"), W("USER"), W("IF"), W("EXISTS")];
  }

  lemma ParseRevoke(n: Bytes)
    ensures ParseAccount(Tokens(RevokeAll(n))) == Some(RevokeAll(n))
  {
    assert Ascii("REVOKE")[0] == 82 && Ascii("CREATE")[0] == 67 && Ascii("ALTER")[0] == 65;
    assert Tokens(RevokeAll(n))[..7] == [W("REVOKE"), W("ALL"), W("PRIVILEGES"), Comma, W("GRANT"), W("OPTION"), W("FROM")];
  }

  lemma ParseAccountOf(stmt: AccountStmt)
    ensures ParseAccount(Tokens(stmt)) == Some(stmt)
  {
    match stmt
    case RenameUser(n, m) => ParseRename(n, m);
    case DropUser(n) => ParseDrop(n);
    case RevokeAll(n) => ParseRevoke(n);
    case CreateUser(n, d) => ParseCreate(n, d);
    case AlterUser(n, d) => ParseAlter(n, d);
  }

  /** An account statement is not taken for one of the others. */
  lemma NotOthers(stmt: AccountStmt)
    ensures Tokens(stmt)[0] != W("GRANT") && Tokens(stmt)[1] != W("DATABASE")
  {
    assert Ascii("GRANT")[0] == 71 && Ascii("DATABASE")[0] == 68 && Ascii("USER")[0] == 85 && Ascii("ALL")[0] == 65;
    assert Ascii("CREATE")[0] == 67 && Ascii("ALTER")[0] == 65 && Ascii("RENAME")[0] == 82 && Ascii("DROP")[0] == 68 && Ascii("REVOKE")[0] == 82;
  }

  /** The server reads back exactly the statement, names and credentials the operator chose, for all byte strings. */
  lemma PrintParse(stmt: AccountStmt)
    ensures Parse(Print(stmt)) == Some(OnAccount(stmt))
  {
    TokensLexical(stmt);
    LexTail(Tokens(stmt));
    var text := Tail(Tokens(stmt));
    TailStart(Tokens(stmt));
    assert text == [SPACE] + Print(stmt);
    LexSpace(Print(stmt));
    ParseAccountOf(stmt);
    NotOthers(stmt);
  }

  /** Two different statements never print the same text. */
  lemma PrintInjective(a: AccountStmt, b: AccountStmt)
    requires Print(a) == Print(b)
    ensures a == b
  {
    PrintParse(a);
    PrintParse(b);
  }
}
