/**
 * Names and words that go into a text as they are and make it read as another statement: what they are
 * read as, and runs in which such a statement concerns somebody else's schema.
 */
module Misreadings {
  import opened Basics
  import opened SqlText
  import opened SqlStatements
  import opened SqlTexts
  import opened SqlPhrases
  import opened SqlReader
  import opened GrantReader
  import opened Model
  import opened Safety
  import opened Charsets
  import opened Runs
  import opened OwnershipTheorems
  import opened Scenarios
  import DP = DatabaseReconciler
  import UP = UserPasses
  import US = UserSafety

  // ---------------------------------------------------------------- a back-tick in a database name

  /** A name that closes its own quotes and turns what follows into a comment. */
  function Commented(v: Bytes): Bytes { v + [BACKTICK, SPACE, HASH] }

  lemma CommentLexes()
    ensures Lex([SPACE, HASH, BACKTICK]) == Some([])
  {
    LexSpace([HASH, BACKTICK]);
    assert [SPACE] + [HASH, BACKTICK] == [SPACE, HASH, BACKTICK];
    assert [HASH, BACKTICK][1..] == [BACKTICK] && [BACKTICK][1..] == [];
    assert AfterLine([BACKTICK]) == [];
  }

  lemma CommentedName(v: Bytes)
    requires Quotable(v)
    ensures Named(Commented(v), []) == Some([Ident(v)])
  {
    var rest := [SPACE, HASH, BACKTICK];
    assert [BACKTICK] + Commented(v) + [BACKTICK] + [] == [BACKTICK] + v + [BACKTICK] + rest;
    LexName(v, rest);
    ReadQuotable(v, rest);
    CommentLexes();
    assert [Ident(v)] + [] == [Ident(v)];
  }

  lemma DropOf(text: Bytes, v: Bytes)
    requires Lex(text) == Some(DropHead() + [Ident(v)])
    ensures Parse(text) == Some(DropDatabase(v))
  {
    var ts := DropHead() + [Ident(v)];
    FirstLetters();
    ParsesDatabase(text, ts);
    DropResult(ts);
  }

  /** The DROP for such a name is read as the DROP of the name before the back-tick. */
  lemma CommentedDrop(v: Bytes)
    requires Quotable(v)
    ensures Parse(DropDatabaseText(Commented(v))) == Some(DropDatabase(v))
  {
    DropHeadWords();
    DropHeadText();
    OpeningTick("DROP DATABASE IF EXISTS", "DROP DATABASE IF EXISTS `");
    var text := DropDatabaseText(Commented(v));
    assert text == (Ascii("DROP DATABASE IF EXISTS") + [SPACE, BACKTICK]) + Commented(v) + [BACKTICK] + [];
    LexStatement(DropHead(), "DROP DATABASE IF EXISTS", Commented(v), [], text);
    CommentedName(v);
    DropOf(text, v);
  }

  /** The webhook's pattern lets such a name through. */
  lemma CommentedNameOk()
    ensures NameOk(Commented([118]))
  {
    var n := Commented([118]);
    assert n == [118, BACKTICK, SPACE, HASH];
    assert n[1..] == [BACKTICK, SPACE, HASH] && n[1..][1..] == [SPACE, HASH] && n[1..][1..][1..] == [HASH];
    assert [HASH][1..] == [];
    assert CodePoints([HASH]) == 1;
    assert CodePoints([SPACE, HASH]) == 2;
    assert CodePoints([BACKTICK, SPACE, HASH]) == 3;
  }

  function DeletedSteps(k: Key, uid: Uid, spec: DatabaseSpec, c: Connection, env: Env): seq<Step> {
    ([CreateDatabaseObject(k, uid, spec, c)] + [ReconcileDatabase(k, env)]) + ([DeleteDatabaseObject(k)] + [ReconcileDatabase(k, env)])
  }

  lemma DeletedBegins(w: World, k: Key, uid: Uid, spec: DatabaseSpec, c: Connection, env: Env)
    requires AllSucceed(env) && k !in w.databases && uid !in w.uids && Admits(ValidateCreate(spec, c)) && spec.connection != []
    ensures Leads(w, [CreateDatabaseObject(k, uid, spec, c)] + [ReconcileDatabase(k, env)],
                  w.(databases := w.databases[k := Database(uid, spec, NEW_DATABASE_STATUS, true, false)], uids := w.uids + {uid}))
  {
    var d := Database(uid, spec, NEW_DATABASE_STATUS, true, false);
    var w1 := ObjectStep(w, CreateDatabaseObject(k, uid, spec, c));
    NewDatabase(w, k, uid, spec, c, d);
    ObjectStepLeads(w, CreateDatabaseObject(k, uid, spec, c));
    DatabaseFinalizerPass(w1, k, env);
    DatabaseStep(w1, k, env);
    Compose(w, [CreateDatabaseObject(k, uid, spec, c)], w1, [ReconcileDatabase(k, env)], w1.(databases := w.databases[k := d]));
  }

  lemma DeletedEnds(w: World, k: Key, v: Bytes, env: Env)
    requires AllSucceed(env) && k in w.databases && w.databases[k].finalizer && w.databases[k].spec.connection != []
    requires env.reader(DP.DropText(w.databases[k])) == Some(DropDatabase(v)) && w.databases[k].spec.name !in w.server.schemas
    ensures var d := w.databases[k].(deleting := true);
            Leads(w, [DeleteDatabaseObject(k)] + [ReconcileDatabase(k, env)],
                  w.(server := Dropped(w.server, k, d, v, env), databases := w.databases - {k}))
  {
    var w1 := ObjectStep(w, DeleteDatabaseObject(k));
    ObjectStepLeads(w, DeleteDatabaseObject(k));
    DropReadPass(w1, k, v, env);
    assert w1.databases - {k} == w.databases - {k};
    DatabaseStep(w1, k, env);
    Compose(w, [DeleteDatabaseObject(k)], w1, [ReconcileDatabase(k, env)], DP.DatabasePass(w1, k, env));
  }

  lemma StrangerInLog(s: Server, e: Issued)
    requires s.issued != [] && s.issued[|s.issued| - 1] == e && !Authorised(e)
    ensures !AllAuthorised(s)
  {
  }

  /**
   * An object with such a name, admitted, given its finalizer and deleted, with every call succeeding and
   * nobody touching what the operator made: the schema dropped is somebody else's.
   */
  lemma CommentedNameDrops(w: World, k: Key, uid: Uid, spec: DatabaseSpec, c: Connection, v: Bytes, env: Env)
    requires Initial(w) && AllSucceed(env) && env.reader == Parse
    requires k !in w.databases && uid !in w.uids && Admits(ValidateCreate(spec, c)) && spec.connection != []
    requires Quotable(v) && spec.name == Commented(v) && v in w.server.schemas && spec.name !in w.server.schemas
    ensures w.server.schemas[v].creator == Foreign
    ensures BenignRun(w, DeletedSteps(k, uid, spec, c, env))
    ensures v !in Run(w, DeletedSteps(k, uid, spec, c, env)).server.schemas
    ensures !AllAuthorised(Run(w, DeletedSteps(k, uid, spec, c, env)).server)
  {
    var d := Database(uid, spec, NEW_DATABASE_STATUS, true, true);
    var w1 := w.(databases := w.databases[k := d.(deleting := false)], uids := w.uids + {uid});
    CommentedDrop(v);
    DeletedBegins(w, k, uid, spec, c, env);
    DeletedEnds(w1, k, v, env);
    var w2 := w1.(server := Dropped(w.server, k, d, v, env), databases := w1.databases - {k});
    Compose(w, [CreateDatabaseObject(k, uid, spec, c)] + [ReconcileDatabase(k, env)], w1,
            [DeleteDatabaseObject(k)] + [ReconcileDatabase(k, env)], w2);
    assert Foreign in Entry(w.server, DP.Actor(k, d), DropDatabase(v)).schemas;
    StrangerInLog(w2.server, Entry(w.server, DP.Actor(k, d), DropDatabase(v)));
  }

  // ---------------------------------------------------------------- a comment sign in a privilege word

  /** A privilege word that brings its own scope and grantee and turns what follows into a comment. */
  function Scoped(b: Bytes): Bytes { Ascii("SELECT ON *.* TO '") + Escaped(b) + [QUOTE, SPACE, HASH] }

  const SCOPED: seq<string> := ["GRANT", "SELECT", "ON", "*.*", "TO"]

  lemma {:induction false} NoNewline(t: Bytes)
    requires NEWLINE !in t
    ensures AfterLine(t) == []
  {
    if t != [] {
      assert t[0] in t;
      NoNewline(t[1..]);
    }
  }

  lemma {:induction false} EscapedNoNewline(s: Bytes)
    ensures NEWLINE !in Escaped(s)
  {
    if s != [] {
      EscapedNoNewline(s[1..]);
      assert NEWLINE !in EscapeByte(s[0]);
    }
  }

  /** What follows the words of the list, up to the end of the text. */
  function GrantRest(n: Bytes, user: Bytes): Bytes {
    Ascii(" ON `") + n + Ascii("`.* TO '") + Escaped(user) + [QUOTE]
  }

  lemma RestIsComment(n: Bytes, user: Bytes)
    requires NEWLINE !in n
    ensures Lex([SPACE, HASH] + GrantRest(n, user)) == Some([])
  {
    var t := GrantRest(n, user);
    EscapedNoNewline(user);
    assert NEWLINE !in Ascii(" ON `") && NEWLINE !in Ascii("`.* TO '");
    NoNewline(t);
    assert [SPACE, HASH] + t == [SPACE] + ([HASH] + t);
    LexSpace([HASH] + t);
    assert ([HASH] + t)[1..] == t;
  }

  lemma ScopedWords()
    ensures Words(SCOPED) == [W("GRANT"), W("SELECT"), W("ON"), Word([STAR, DOT, STAR]), W("TO")]
    ensures WordsOnly(Words(SCOPED))
  {
    assert SCOPED[1..] == ["SELECT", "ON", "*.*", "TO"];
    assert SCOPED[1..][1..] == ["ON", "*.*", "TO"];
    assert SCOPED[1..][1..][1..] == ["*.*", "TO"];
    assert SCOPED[1..][1..][1..][1..] == ["TO"] && ["TO"][1..] == [];
    assert Ascii("*.*") == [STAR, DOT, STAR];
    KeywordOk("GRANT");
    KeywordOk("SELECT");
    KeywordOk("ON");
    KeywordOk("TO");
  }

  lemma ScopedPhrase()
    ensures Phrase(SCOPED) == " GRANT SELECT ON *.* TO"
  {
    assert SCOPED[1..] == ["SELECT", "ON", "*.*", "TO"];
    assert SCOPED[1..][1..] == ["ON", "*.*", "TO"];
    assert SCOPED[1..][1..][1..] == ["*.*", "TO"];
    assert SCOPED[1..][1..][1..][1..] == ["TO"] && ["TO"][1..] == [];
  }

  lemma ScopedShape(grant: Bytes, all: Bytes, b: Bytes, rest: Bytes)
    ensures [SPACE] + (grant + (all + b + [QUOTE, SPACE, HASH]) + rest)
         == ([SPACE] + grant + all) + b + [QUOTE] + ([SPACE, HASH] + rest)
  {
  }

  lemma RestShape(grant: Bytes, word: Bytes, on: Bytes, n: Bytes, to: Bytes, user: Bytes)
    ensures grant + word + on + n + to + user + [QUOTE] == grant + word + (on + n + to + user + [QUOTE])
  {
  }

  lemma ScopedLiteral()
    ensures " GRANT SELECT ON *.* TO" + " '" == (" " + "GRANT ") + "SELECT ON *.* TO '"
  {
  }

  lemma PrefixBytes(a: string, b: string, c: string)
    requires a + " '" == (" " + b) + c
    ensures [SPACE] + Ascii(b) + Ascii(c) == Ascii(a) + [SPACE, QUOTE]
  {
    AsciiConcat(a, " '");
    AsciiConcat(" ", b);
    AsciiConcat(" " + b, c);
    assert Ascii(" ") == [SPACE] && Ascii(" '") == [SPACE, QUOTE];
  }

  lemma ScopedPrefix()
    ensures [SPACE] + Ascii("GRANT ") + Ascii("SELECT ON *.* TO '") == Tail(Words(SCOPED)) + [SPACE, QUOTE]
  {
    ScopedLiteral();
    PrefixBytes(" GRANT SELECT ON *.* TO", "GRANT ", "SELECT ON *.* TO '");
    WordsTail(SCOPED);
    ScopedPhrase();
  }

  lemma Split3(t: Bytes, b: Bytes, rest: Bytes)
    ensures (t + [SPACE, QUOTE]) + b + [QUOTE] + rest == t + ([SPACE] + ([QUOTE] + b + [QUOTE] + rest))
  {
  }

  lemma ScopedText(b: Bytes, n: Bytes, user: Bytes)
    ensures [SPACE] + GrantText([Scoped(b)], n, user)
         == Tail(Words(SCOPED)) + ([SPACE] + ([QUOTE] + Escaped(b) + [QUOTE] + ([SPACE, HASH] + GrantRest(n, user))))
  {
    var grant, all := Ascii("GRANT "), Ascii("SELECT ON *.* TO '");
    RestShape(grant, Scoped(b), Ascii(" ON `"), n, Ascii("`.* TO '"), Escaped(user));
    ScopedShape(grant, all, Escaped(b), GrantRest(n, user));
    ScopedPrefix();
    Split3(Tail(Words(SCOPED)), Escaped(b), [SPACE, HASH] + GrantRest(n, user));
  }

  /** Words, a literal and a comment. */
  lemma LexToComment(ws: seq<Token>, b: Bytes, rest: Bytes, text: Bytes)
    requires WordsOnly(ws) && rest != [] && rest[0] == SPACE && Lex(rest) == Some([])
    requires [SPACE] + text == Tail(ws) + ([SPACE] + ([QUOTE] + Escaped(b) + [QUOTE] + rest))
    ensures Lex(text) == Some(ws + [Str(b)])
  {
    LiteralThenComment(b, rest);
    LexSpace(text);
    LexPrefix(ws, [SPACE] + ([QUOTE] + Escaped(b) + [QUOTE] + rest));
  }

  lemma LiteralThenComment(b: Bytes, rest: Bytes)
    requires rest != [] && rest[0] == SPACE && Lex(rest) == Some([])
    ensures Lex([SPACE] + ([QUOTE] + Escaped(b) + [QUOTE] + rest)) == Some([Str(b)])
  {
    LexSpace([QUOTE] + Escaped(b) + [QUOTE] + rest);
    LexLiteral(b, rest);
    assert [Str(b)] + [] == [Str(b)];
  }

  lemma ScopedLex(b: Bytes, n: Bytes, user: Bytes)
    requires NEWLINE !in n
    ensures Lex(GrantText([Scoped(b)], n, user)) == Some(Words(SCOPED) + [Str(b)])
  {
    ScopedText(b, n, user);
    ScopedWords();
    RestIsComment(n, user);
    LexToComment(Words(SCOPED), b, [SPACE, HASH] + GrantRest(n, user), GrantText([Scoped(b)], n, user));
  }

  lemma OneWord(all: Bytes)
    ensures AsSet([all]) == {all}
  {
    assert [all][0] == all;
  }

  lemma EverywherePrivileges(all: Bytes, b: Bytes)
    requires all != [] && all != Ascii("ON")
    ensures ParsePrivileges([Word(all), W("ON"), Word([STAR, DOT, STAR]), W("TO"), Str(b)], [])
         == Some(([all], [Word([STAR, DOT, STAR]), W("TO"), Str(b)]))
  {
    var rest := [Word([STAR, DOT, STAR]), W("TO"), Str(b)];
    var ts := [Word(all), W("ON")] + rest;
    assert ts == [Word(all), W("ON"), Word([STAR, DOT, STAR]), W("TO"), Str(b)];
    assert ts[1..] == [W("ON")] + rest && ts[1..][1..] == rest;
  }

  lemma EverywhereParses(all: Bytes, b: Bytes)
    requires all != [] && all != Ascii("ON")
    ensures ParseGrant([W("GRANT"), Word(all), W("ON"), Word([STAR, DOT, STAR]), W("TO"), Str(b)]) == Some(Grant({all}, Everywhere, b))
  {
    var ts := [W("GRANT"), Word(all), W("ON"), Word([STAR, DOT, STAR]), W("TO"), Str(b)];
    assert ts[1..] == [Word(all), W("ON"), Word([STAR, DOT, STAR]), W("TO"), Str(b)];
    EverywherePrivileges(all, b);
    assert [Word([STAR, DOT, STAR]), W("TO"), Str(b)][1..] == [W("TO"), Str(b)];
    OneWord(all);
  }

  lemma SelectIsNoKeyword()
    ensures Ascii("SELECT") != [] && Ascii("SELECT") != Ascii("ON")
  {
    assert |Ascii("SELECT")| == 6 && |Ascii("ON")| == 2;
  }

  /** The text is read as a GRANT on all schemas, to the account the word names. */
  lemma ScopedGrant(b: Bytes, n: Bytes, user: Bytes)
    requires NEWLINE !in n
    ensures Parse(GrantText([Scoped(b)], n, user)) == Some(Grant({Ascii("SELECT")}, Everywhere, b))
  {
    ScopedLex(b, n, user);
    ScopedTokens(b);
    SelectIsNoKeyword();
    EverywhereParses(Ascii("SELECT"), b);
    ParsesGrant(GrantText([Scoped(b)], n, user), Words(SCOPED) + [Str(b)]);
  }

  lemma ScopedTokens(b: Bytes)
    ensures Words(SCOPED) + [Str(b)] == [W("GRANT"), W("SELECT"), W("ON"), Word([STAR, DOT, STAR]), W("TO"), Str(b)]
  {
    ScopedWords();
  }

  // ---------------------------------------------------------------- a GRANT that covers somebody else's schema

  /** The only permission of the object: on this Database object, with these words. */
  predicate AsksOne(spec: UserSpec, dk: Key, words: seq<Bytes>) {
    Unidentified(spec) && spec.databaseList == [Permission(dk.name, words)]
  }

  lemma OneGrant(s: Server, u: DatabaseUser, k: Key, databases: map<Key, Database>, dk: Key, words: seq<Bytes>, stmt: Stmt, env: Env)
    requires AllSucceed(env) && AsksOne(u.spec, dk, words) && dk.namespace == k.namespace
    requires UP.Grantable(s, databases, k, u.spec.databaseList[0])
    requires env.reader(UP.GrantOneText(u, k, databases, 0)) == Some(stmt)
    ensures UP.GrantAll(s, u, k, databases, env).server == Exec(s, UP.Actor(k, u), stmt, true).0
  {
    assert UP.Listed(k, u.spec.databaseList[0]) == dk;
    assert UP.DecidesGrant(s, databases, k, u.spec.databaseList[0], env, 0);
    assert UP.GrantFrom(s, u, k, databases, 0, env) == UP.GrantFrom(UP.GrantOne(s, u, k, databases, 0, env), u, k, databases, 1, env);
  }

  /** The last statement sent is this one, and it named the schemas it names on `s`. */
  predicate EndsWith(s': Server, s: Server, stmt: Stmt) {
    s'.issued != [] && s'.issued[|s'.issued| - 1].stmt == stmt && s'.issued[|s'.issued| - 1].schemas == NamedSchemas(s, stmt)
  }

  /** Creating the account and granting to it: the GRANT is the last of the log. */
  lemma CreateAndGrant(s: Server, u: DatabaseUser, k: Key, databases: map<Key, Database>, dk: Key, words: seq<Bytes>, stmt: Stmt, env: Env)
    requires AllSucceed(env) && AsksOne(u.spec, dk, words) && dk.namespace == k.namespace
    requires u.status == ClaimedStatus(u.spec.username) && u.spec.username !in s.accounts
    requires UP.Grantable(s, databases, k, u.spec.databaseList[0]) && stmt.Grant?
    requires env.reader(UP.GrantOneText(u, k, databases, 0)) == Some(stmt)
    ensures EndsWith(UP.Converge(s, u, k, databases, None, env).server, s, stmt)
  {
    US.CreateGoesThrough(s, u, k, databases, None, env);
    NotSeen(s, u, k, databases, env);
    assert UP.Tracking(u, []) == u;
    var s1 := UP.Send(s, k, u, CreateUser(u.status.username, NO_DETAILS), true).0;
    OneGrant(s1, u, k, databases, dk, words, stmt, env);
    LastLogged(s, s1, UP.Actor(k, u), stmt);
  }

  lemma LastLogged(s: Server, s1: Server, a: Creator, stmt: Stmt)
    requires s1.schemas == s.schemas
    ensures EndsWith(Exec(s1, a, stmt, true).0, s, stmt)
  {
    assert NamedSchemas(s1, stmt) == NamedSchemas(s, stmt);
  }

  lemma GrantPass(w: World, k: Key, dk: Key, words: seq<Bytes>, stmt: Stmt, env: Env)
    requires AllSucceed(env) && k in w.users && !w.users[k].deleting && w.users[k].finalizer
    requires AsksOne(w.users[k].spec, dk, words) && dk.namespace == k.namespace
    requires w.users[k].status == ClaimedStatus(w.users[k].spec.username) && w.users[k].spec.username !in w.server.accounts
    requires UP.Grantable(w.server, w.databases, k, w.users[k].spec.databaseList[0]) && stmt.Grant?
    requires env.reader(UP.GrantOneText(w.users[k], k, w.databases, 0)) == Some(stmt)
    ensures EndsWith(UP.UserPass(w, k, env).server, w.server, stmt)
  {
    ServerPart(w, k, env);
    CreateAndGrant(w.server, w.users[k], k, w.databases, dk, words, stmt, env);
  }

  lemma LastStrays(s: Server, s': Server, stmt: Stmt, x: Bytes)
    requires EndsWith(s', s, stmt) && stmt.Grant?
    requires x in s.schemas && s.schemas[x].creator == Foreign && Covers(stmt.scope, x)
    ensures !AllAuthorised(s')
  {
    assert Foreign in NamedSchemas(s, stmt);
    StrangerInLog(s', s'.issued[|s'.issued| - 1]);
  }

  /** That statement, when it covers a schema of somebody else. */
  lemma GrantPassStrays(w: World, k: Key, dk: Key, words: seq<Bytes>, stmt: Stmt, x: Bytes, env: Env)
    requires AllSucceed(env) && k in w.users && !w.users[k].deleting && w.users[k].finalizer
    requires AsksOne(w.users[k].spec, dk, words) && dk.namespace == k.namespace
    requires w.users[k].status == ClaimedStatus(w.users[k].spec.username) && w.users[k].spec.username !in w.server.accounts
    requires UP.Grantable(w.server, w.databases, k, w.users[k].spec.databaseList[0]) && stmt.Grant?
    requires env.reader(UP.GrantOneText(w.users[k], k, w.databases, 0)) == Some(stmt)
    requires x in w.server.schemas && w.server.schemas[x].creator == Foreign && Covers(stmt.scope, x)
    ensures !AllAuthorised(UP.UserPass(w, k, env).server)
  {
    GrantPass(w, k, dk, words, stmt, env);
    LastStrays(w.server, UP.UserPass(w, k, env).server, stmt, x);
  }

  function GrantSteps(dk: Key, duid: Uid, dspec: DatabaseSpec, c: Connection, k: Key, uid: Uid, spec: UserSpec, env: Env): seq<Step> {
    (MakeDatabaseSteps(dk, duid, dspec, c, env) + ClaimSteps(k, uid, spec, env)) + [ReconcileUser(k, env)]
  }

  /** The world before the pass that creates the account and grants. */
  function BeforeGrant(w: World, dk: Key, duid: Uid, dspec: DatabaseSpec, k: Key, uid: Uid, spec: UserSpec): World
    requires Resolve(w.server.catalog, dspec.characterSet, dspec.collate).Some?
  {
    var (cs, co) := Resolve(w.server.catalog, dspec.characterSet, dspec.collate).value;
    NewUser(MadeDatabase(w, dk, duid, dspec, cs, co), k, uid, spec, spec.username)
  }

  /** Everything the run needs: a database and an account to make, and a permission that is read as this GRANT. */
  ghost predicate GrantScene(w: World, dk: Key, duid: Uid, dspec: DatabaseSpec, c: Connection, k: Key, uid: Uid, spec: UserSpec, words: seq<Bytes>) {
    && Initial(w) && duid !in w.uids && uid !in w.uids && duid != uid && dk.namespace == k.namespace
    && Admits(ValidateCreate(dspec, c)) && dspec.connection != [] && dspec.name !in w.server.schemas
    && Quotable(dspec.name) && PlainOption(dspec.characterSet) && PlainOption(dspec.collate)
    && Resolve(w.server.catalog, dspec.characterSet, dspec.collate).Some?
    && AsksOne(spec, dk, words) && spec.username !in w.server.accounts
  }

  lemma GrantBegins(w: World, dk: Key, duid: Uid, dspec: DatabaseSpec, c: Connection, k: Key, uid: Uid, spec: UserSpec, words: seq<Bytes>, env: Env)
    requires GrantScene(w, dk, duid, dspec, c, k, uid, spec, words) && AllSucceed(env)
    ensures Leads(w, MakeDatabaseSteps(dk, duid, dspec, c, env) + ClaimSteps(k, uid, spec, env), BeforeGrant(w, dk, duid, dspec, k, uid, spec))
  {
    var (cs, co) := Resolve(w.server.catalog, dspec.characterSet, dspec.collate).value;
    var w1 := MadeDatabase(w, dk, duid, dspec, cs, co);
    MakeDatabaseRun(w, dk, duid, dspec, c, env);
    ClaimRun(w1, k, uid, spec, env);
    Compose(w, MakeDatabaseSteps(dk, duid, dspec, c, env), w1, ClaimSteps(k, uid, spec, env), BeforeGrant(w, dk, duid, dspec, k, uid, spec));
  }

  lemma GrantDue(w: World, dk: Key, duid: Uid, dspec: DatabaseSpec, c: Connection, k: Key, uid: Uid, spec: UserSpec, words: seq<Bytes>)
    requires GrantScene(w, dk, duid, dspec, c, k, uid, spec, words)
    ensures var w1 := BeforeGrant(w, dk, duid, dspec, k, uid, spec);
            && k in w1.users && w1.users[k] == DatabaseUser(uid, spec, ClaimedStatus(spec.username), true, false)
            && w1.server.accounts == w.server.accounts
            && (forall x :: x in w.server.schemas ==> x in w1.server.schemas && w1.server.schemas[x] == w.server.schemas[x])
            && UP.Grantable(w1.server, w1.databases, k, spec.databaseList[0])
            && UP.GrantOneText(w1.users[k], k, w1.databases, 0) == GrantText(UP.PrivilegeList(Permission(dk.name, words)), dspec.name, spec.username)
  {
    NameOkNonempty(dspec.name);
    assert UP.Listed(k, spec.databaseList[0]) == dk;
  }

  /**
   * A permission whose GRANT is read as one that covers somebody else's schema: the run is as it should
   * be, every call succeeds, and the statement concerns that schema.
   */
  lemma GrantReachesOthers(w: World, dk: Key, duid: Uid, dspec: DatabaseSpec, c: Connection, k: Key, uid: Uid, spec: UserSpec, words: seq<Bytes>,
                           stmt: Stmt, x: Bytes, env: Env)
    requires GrantScene(w, dk, duid, dspec, c, k, uid, spec, words) && AllSucceed(env)
    requires env.reader(GrantText(UP.PrivilegeList(Permission(dk.name, words)), dspec.name, spec.username)) == Some(stmt)
    requires stmt.Grant? && Covers(stmt.scope, x) && x in w.server.schemas
    ensures w.server.schemas[x].creator == Foreign
    ensures BenignRun(w, GrantSteps(dk, duid, dspec, c, k, uid, spec, env))
    ensures !AllAuthorised(Run(w, GrantSteps(dk, duid, dspec, c, k, uid, spec, env)).server)
  {
    GrantBegins(w, dk, duid, dspec, c, k, uid, spec, words, env);
    var w1 := BeforeGrant(w, dk, duid, dspec, k, uid, spec);
    GrantDue(w, dk, duid, dspec, c, k, uid, spec, words);
    GrantPassStrays(w1, k, dk, words, stmt, x, env);
    UserStep(w1, k, env);
    var w2 := UP.UserPass(w1, k, env);
    Compose(w, MakeDatabaseSteps(dk, duid, dspec, c, env) + ClaimSteps(k, uid, spec, env), w1, [ReconcileUser(k, env)], w2);
  }

  // ---------------------------------------------------------------- two such permissions

  lemma {:induction false} OnePart(w: Bytes)
    requires SPACE !in w
    ensures Split(w) == [w]
  {
    if w != [] {
      assert w[0] in w;
      assert w == [w[0]] + w[1..];
      OnePart(w[1..]);
    }
  }

  lemma PlainAll()
    ensures PlainPrivileges([Ascii("ALL")])
  {
    assert Ascii("ALL") == [65, 76, 76];
    OnePart(Ascii("ALL"));
    assert |Ascii("ON")| == 2;
  }

  /**
   * The default privileges on a name whose underscore stands for any byte: the GRANT covers a schema of
   * somebody else, by the pattern rules and with every text read as meant.
   */
  lemma UnderscoreReachesOthers(w: World, dk: Key, duid: Uid, dspec: DatabaseSpec, c: Connection, k: Key, uid: Uid, spec: UserSpec,
                                x: Bytes, env: Env)
    requires GrantScene(w, dk, duid, dspec, c, k, uid, spec, []) && AllSucceed(env)
    requires x in w.server.schemas && Like(dspec.name, x)
    ensures w.server.schemas[x].creator == Foreign
    ensures BenignRun(w, GrantSteps(dk, duid, dspec, c, k, uid, spec, env))
    ensures !AllAuthorised(Run(w, GrantSteps(dk, duid, dspec, c, k, uid, spec, env)).server)
  {
    var ws := [Ascii("ALL")];
    PlainAll();
    assert UP.PrivilegeList(Permission(dk.name, [])) == ws;
    assert ReadAsGrant(env.reader(GrantText(ws, dspec.name, spec.username)), ws, dspec.name, spec.username);
    GrantReachesOthers(w, dk, duid, dspec, c, k, uid, spec, [], Grant(AsSet(ws), Pattern(dspec.name), spec.username), x, env);
  }

  lemma UpperScoped()
    ensures UP.Upper(Scoped([66])) == Scoped([66])
  {
    UpperPhrase();
    assert [66 as byte][1..] == [] && Escaped([]) == [];
    assert Escaped([66]) == [66];
    var all := Ascii("SELECT ON *.* TO '");
    assert forall i :: 0 <= i < |Scoped([66])| ==> UP.UpperByte(Scoped([66])[i]) == Scoped([66])[i];
  }

  lemma UpperPhrase()
    ensures forall i :: 0 <= i < |Ascii("SELECT ON *.* TO '")| ==> UP.UpperByte(Ascii("SELECT ON *.* TO '")[i]) == Ascii("SELECT ON *.* TO '")[i]
  {
  }

  /** A privilege word with its own scope: the account named in it gets its words on every schema. */
  lemma ScopedWordReachesOthers(w: World, dk: Key, duid: Uid, dspec: DatabaseSpec, c: Connection, k: Key, uid: Uid, spec: UserSpec,
                                x: Bytes, env: Env)
    requires GrantScene(w, dk, duid, dspec, c, k, uid, spec, [Scoped([66])]) && AllSucceed(env) && env.reader == Parse
    requires x in w.server.schemas && NEWLINE !in dspec.name
    ensures w.server.schemas[x].creator == Foreign
    ensures BenignRun(w, GrantSteps(dk, duid, dspec, c, k, uid, spec, env))
    ensures !AllAuthorised(Run(w, GrantSteps(dk, duid, dspec, c, k, uid, spec, env)).server)
  {
    UpperScoped();
    assert UP.PrivilegeList(Permission(dk.name, [Scoped([66])])) == [Scoped([66])];
    ScopedGrant([66], dspec.name, spec.username);
    GrantReachesOthers(w, dk, duid, dspec, c, k, uid, spec, [Scoped([66])], Grant({Ascii("SELECT")}, Everywhere, [66]), x, env);
  }
}
