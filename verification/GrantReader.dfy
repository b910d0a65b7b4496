/** The parser on the text of GRANT, and the whole of what it is asked for. */
module GrantReader {
  import opened Basics
  import opened SqlText
  import opened SqlStatements
  import opened SqlTexts
  import opened SqlPhrases
  import opened SqlReader

  // ---------------------------------------------------------------- the privileges as tokens

  function WordTokens(parts: seq<Bytes>): seq<Token> {
    seq(|parts|, i requires 0 <= i < |parts| => Word(parts[i]))
  }

  function PrivilegeTokens(ws: seq<Bytes>): seq<Token> {
    if ws == [] then []
    else if |ws| == 1 then WordTokens(Split(ws[0]))
    else WordTokens(Split(ws[0])) + ([Comma] + PrivilegeTokens(ws[1..]))
  }

  lemma WordTokensStep(parts: seq<Bytes>)
    requires parts != []
    ensures WordTokens(parts) == [Word(parts[0])] + WordTokens(parts[1..])
    ensures Tail(WordTokens(parts)) == [SPACE] + parts[0] + Tail(WordTokens(parts[1..]))
  {
    assert WordTokens(parts)[1..] == WordTokens(parts[1..]);
  }

  lemma SameTail(c: byte, x: Bytes, y: Bytes)
    requires [c] + x == [c] + y
    ensures x == y
  {
    assert ([c] + x)[1..] == x && ([c] + y)[1..] == y;
  }

  lemma PartsAfterSpace(r: seq<Bytes>, w: Bytes)
    requires Tail(WordTokens(r)) == [SPACE] + w
    ensures Tail(WordTokens([[]] + r)) == [SPACE] + ([SPACE] + w)
  {
    WordTokensStep([[]] + r);
    assert ([[]] + r)[1..] == r;
  }

  lemma Group(a: Bytes, t: Bytes)
    ensures [SPACE] + a + t == [SPACE] + (a + t)
  {
  }

  lemma GroupByte(c: byte, a: Bytes, t: Bytes)
    ensures [SPACE] + ([c] + a) + t == [SPACE] + ([c] + (a + t))
  {
  }

  lemma GroupEnd(p: Bytes, q: Bytes, e: Bytes)
    ensures p + (q + e + [QUOTE]) == (p + q) + e + [QUOTE]
  {
  }

  /** The first part without the space before it. */
  lemma FirstPart(r: seq<Bytes>, w: Bytes)
    requires r != [] && Tail(WordTokens(r)) == [SPACE] + w
    ensures r[0] + Tail(WordTokens(r[1..])) == w
  {
    WordTokensStep(r);
    Group(r[0], Tail(WordTokens(r[1..])));
    SameTail(SPACE, r[0] + Tail(WordTokens(r[1..])), w);
  }

  lemma PartsAfterByte(c: byte, r: seq<Bytes>, w: Bytes)
    requires r != [] && Tail(WordTokens(r)) == [SPACE] + w
    ensures Tail(WordTokens([[c] + r[0]] + r[1..])) == [SPACE] + ([c] + w)
  {
    FirstPart(r, w);
    WordTokensStep([[c] + r[0]] + r[1..]);
    assert ([[c] + r[0]] + r[1..])[1..] == r[1..];
    GroupByte(c, r[0], Tail(WordTokens(r[1..])));
  }

  lemma EmptyPart()
    ensures Tail(WordTokens(Split([]))) == [SPACE]
  {
    assert WordTokens([[]]) == [Word([])];
    TailOne(Word([]));
  }

  /** Printing the parts gives the words back. */
  lemma {:induction false} PartsText(w: Bytes)
    ensures Tail(WordTokens(Split(w))) == [SPACE] + w
  {
    if w == [] {
      EmptyPart();
    } else {
      PartsText(w[1..]);
      assert w == [w[0]] + w[1..];
      if w[0] == SPACE {
        PartsAfterSpace(Split(w[1..]), w[1..]);
      } else {
        PartsAfterByte(w[0], Split(w[1..]), w[1..]);
      }
    }
  }

  lemma CommaText(ts: seq<Token>)
    ensures Tail([Comma] + ts) == [COMMA] + Tail(ts)
  {
    assert ([Comma] + ts)[1..] == ts;
  }

  lemma JoinShape(w: Bytes, joined: Bytes)
    ensures ([SPACE] + w) + ([COMMA] + ([SPACE] + joined)) == [SPACE] + (w + [COMMA, SPACE] + joined)
  {
  }

  lemma {:induction false} PrivilegesText(ws: seq<Bytes>)
    requires ws != []
    ensures Tail(PrivilegeTokens(ws)) == [SPACE] + Joined(ws)
    decreases |ws|
  {
    PartsText(ws[0]);
    if |ws| > 1 {
      PrivilegesText(ws[1..]);
      TailConcat(WordTokens(Split(ws[0])), [Comma] + PrivilegeTokens(ws[1..]));
      CommaText(PrivilegeTokens(ws[1..]));
      JoinShape(ws[0], Joined(ws[1..]));
    }
  }

  lemma PartsOk(w: Bytes)
    requires PlainPrivilege(w)
    ensures WordsOnly(WordTokens(Split(w)))
  {
    forall i | 0 <= i < |Split(w)| ensures TokenOk(Word(Split(w)[i])) {
      assert PlainPart(Split(w)[i]);
      assert Split(w)[i][0] >= 65;
    }
  }

  lemma {:induction false} PrivilegesOk(ws: seq<Bytes>)
    requires PlainPrivileges(ws)
    ensures WordsOnly(PrivilegeTokens(ws))
    decreases |ws|
  {
    PartsOk(ws[0]);
    if |ws| > 1 {
      PrivilegesOk(ws[1..]);
      BothWords([Comma], PrivilegeTokens(ws[1..]));
      BothWords(WordTokens(Split(ws[0])), [Comma] + PrivilegeTokens(ws[1..]));
    }
  }

  // ---------------------------------------------------------------- parsing them

  function Accumulated(current: Bytes, parts: seq<Bytes>): Bytes
    decreases |parts|
  {
    if parts == [] then current else Accumulated(Longer(current, parts[0]), parts[1..])
  }

  lemma GroupCurrent(current: Bytes, p: Bytes, t: Bytes)
    ensures current + [SPACE] + p + t == current + ([SPACE] + p + t)
  {
  }

  lemma {:induction false} AccumulatedText(current: Bytes, parts: seq<Bytes>)
    requires current != []
    ensures Accumulated(current, parts) == current + Tail(WordTokens(parts))
    decreases |parts|
  {
    if parts == [] {
      assert Tail(WordTokens(parts)) == [];
      assert current + [] == current;
    } else {
      WordTokensStep(parts);
      AccumulatedText(Longer(current, parts[0]), parts[1..]);
      GroupCurrent(current, parts[0], Tail(WordTokens(parts[1..])));
    }
  }

  lemma AccumulatedPrivilege(w: Bytes)
    requires PlainPrivilege(w)
    ensures Accumulated([], Split(w)) == w && w != []
  {
    var parts := Split(w);
    assert PlainPart(parts[0]);
    AccumulatedText(parts[0], parts[1..]);
    PartsText(w);
    FirstPart(parts, w);
  }

  lemma {:induction false} PartsParse(parts: seq<Bytes>, current: Bytes, more: seq<Token>)
    requires forall i :: 0 <= i < |parts| ==> PlainPart(parts[i])
    ensures ParsePrivileges(WordTokens(parts) + more, current) == ParsePrivileges(more, Accumulated(current, parts))
    decreases |parts|
  {
    if parts == [] {
      assert WordTokens(parts) + more == more;
    } else {
      WordTokensStep(parts);
      var ts := WordTokens(parts) + more;
      assert ts[0] == Word(parts[0]) && ts[1..] == WordTokens(parts[1..]) + more;
      assert PlainPart(parts[0]);
      PartsParse(parts[1..], Longer(current, parts[0]), more);
    }
  }

  lemma {:induction false} PrivilegesParse(ws: seq<Bytes>, more: seq<Token>)
    requires PlainPrivileges(ws)
    ensures ParsePrivileges(PrivilegeTokens(ws) + ([W("ON")] + more), []) == Some((ws, more))
    decreases |ws|
  {
    AccumulatedPrivilege(ws[0]);
    if |ws| == 1 {
      PartsParse(Split(ws[0]), [], [W("ON")] + more);
      assert ([W("ON")] + more)[1..] == more;
      assert ws == [ws[0]];
    } else {
      var others := PrivilegeTokens(ws[1..]) + ([W("ON")] + more);
      PrivilegesParse(ws[1..], more);
      PartsParse(Split(ws[0]), [], [Comma] + others);
      assert PrivilegeTokens(ws) + ([W("ON")] + more) == WordTokens(Split(ws[0])) + ([Comma] + others);
      assert ([Comma] + others)[1..] == others;
      assert ws == [ws[0]] + ws[1..];
    }
  }

  // ---------------------------------------------------------------- the text

  function GrantHead(ws: seq<Bytes>): seq<Token> {
    [W("GRANT")] + (PrivilegeTokens(ws) + [W("ON")])
  }

  /** What follows the database name. */
  function GrantEnd(user: Bytes): Bytes {
    Ascii(".* TO '") + Escaped(user) + [QUOTE]
  }

  lemma GrantHeadOk(ws: seq<Bytes>)
    requires PlainPrivileges(ws)
    ensures WordsOnly(GrantHead(ws))
  {
    KeywordOk("GRANT");
    KeywordOk("ON");
    PrivilegesOk(ws);
    BothWords(PrivilegeTokens(ws), [W("ON")]);
    BothWords([W("GRANT")], PrivilegeTokens(ws) + [W("ON")]);
  }

  lemma OneWordText(a: string, phrase: string)
    requires phrase == " " + a
    ensures Tail([W(a)]) == Ascii(phrase)
  {
    TailOne(W(a));
    AsciiConcat(" ", a);
    OneSpace();
  }

  lemma GrantHeadText(ws: seq<Bytes>)
    requires ws != []
    ensures Tail(GrantHead(ws)) == Ascii(" GRANT") + (([SPACE] + Joined(ws)) + Ascii(" ON"))
  {
    OneWordText("GRANT", " GRANT");
    OneWordText("ON", " ON");
    PrivilegesText(ws);
    TailConcat(PrivilegeTokens(ws), [W("ON")]);
    TailConcat([W("GRANT")], PrivilegeTokens(ws) + [W("ON")]);
  }

  lemma GrantLiterals()
    ensures Ascii("GRANT ") == Ascii("GRANT") + [SPACE]
    ensures Ascii(" GRANT") == [SPACE] + Ascii("GRANT")
    ensures Ascii(" ON `") == Ascii(" ON") + [SPACE, BACKTICK]
    ensures Ascii("`.* TO '") == [BACKTICK] + Ascii(".* TO '")
  {
    SpaceAfter("GRANT", "GRANT ");
    AsciiConcat(" ", "GRANT");
    OneSpace();
    OpeningTick(" ON", " ON `");
    AsciiConcat("`", ".* TO '");
    assert Ascii("`") == [BACKTICK];
  }

  lemma GrantShape(grant: Bytes, joined: Bytes, on: Bytes, n: Bytes, to: Bytes, e: Bytes)
    ensures [SPACE] + ((grant + [SPACE]) + joined + (on + [SPACE, BACKTICK]) + n + ([BACKTICK] + to) + e + [QUOTE])
         == (([SPACE] + grant) + (([SPACE] + joined) + on)) + ([SPACE] + ([BACKTICK] + n + [BACKTICK] + (to + e + [QUOTE])))
  {
  }

  lemma GrantLex(ws: seq<Bytes>, n: Bytes, user: Bytes)
    requires PlainPrivileges(ws)
    ensures Lex(GrantText(ws, n, user)) == AddTokens(GrantHead(ws), Named(n, GrantEnd(user)))
  {
    GrantLiterals();
    GrantShape(Ascii("GRANT"), Joined(ws), Ascii(" ON"), n, Ascii(".* TO '"), Escaped(user));
    GrantHeadText(ws);
    GrantHeadOk(ws);
    LexHeaded(GrantHead(ws), n, GrantEnd(user));
    LexSpace(GrantText(ws, n, user));
  }

  function EndTokens(user: Bytes): seq<Token> { [AllOf] + ([W("TO")] + [Str(user)]) }

  lemma EndLiteral()
    ensures Ascii(".* TO '") == [DOT, STAR] + Ascii(" TO '")
  {
    AsciiConcat(".*", " TO '");
    assert ".* TO '" == ".*" + " TO '";
    assert Ascii(".*") == [DOT, STAR];
  }

  lemma EndText(user: Bytes)
    ensures Tail(EndTokens(user)) == GrantEnd(user)
  {
    ToText(user);
    EndLiteral();
    assert EndTokens(user)[1..] == ToTokens(user);
    GroupEnd([DOT, STAR], Ascii(" TO '"), Escaped(user));
  }

  lemma EndLex(user: Bytes)
    ensures Lex(GrantEnd(user)) == Some(EndTokens(user))
    ensures GrantEnd(user)[0] == DOT
  {
    KeywordOk("TO");
    EndText(user);
    EndLiteral();
    assert Lexical(EndTokens(user));
    LexTail(EndTokens(user));
  }

  // ---------------------------------------------------------------- reading it

  lemma ParsesGrant(text: Bytes, ts: seq<Token>)
    requires Lex(text) == Some(ts) && ts != [] && ts[0] == W("GRANT")
    ensures Parse(text) == ParseGrant(ts)
  {
  }

  lemma FirstWord(x: Bytes, text: Bytes)
    requires text == (Ascii("GRANT") + [SPACE]) + x
    ensures Lex(text) == AddTokens([W("GRANT")], Lex([SPACE] + x))
  {
    KeywordOk("GRANT");
    TailOne(W("GRANT"));
    assert [SPACE] + text == ([SPACE] + Ascii("GRANT")) + ([SPACE] + x);
    LexPrefix([W("GRANT")], [SPACE] + x);
    LexSpace(text);
  }

  lemma GrantOrNothing(text: Bytes, more: Option<seq<Token>>)
    requires Lex(text) == AddTokens([W("GRANT")], more)
    ensures Parse(text).Some? ==> Parse(text).value.Grant?
  {
    if more.Some? {
      ParsesGrant(text, [W("GRANT")] + more.value);
    }
  }

  lemma AfterGrant(grant: Bytes, joined: Bytes, on: Bytes, n: Bytes, to: Bytes, e: Bytes)
    ensures (grant + joined + on + n + to + e + [QUOTE]) == grant + (joined + on + n + to + e + [QUOTE])
  {
  }

  /** Whatever the words are, the text is read as a GRANT or not at all. */
  lemma GrantKind(ws: seq<Bytes>, n: Bytes, user: Bytes)
    ensures Parse(GrantText(ws, n, user)).Some? ==> Parse(GrantText(ws, n, user)).value.Grant?
  {
    var x := Joined(ws) + Ascii(" ON `") + n + Ascii("`.* TO '") + Escaped(user) + [QUOTE];
    SpaceAfter("GRANT", "GRANT ");
    AfterGrant(Ascii("GRANT "), Joined(ws), Ascii(" ON `"), n, Ascii("`.* TO '"), Escaped(user));
    FirstWord(x, GrantText(ws, n, user));
    GrantOrNothing(GrantText(ws, n, user), Lex([SPACE] + x));
  }

  /** The tokens after ON decide what is granted on, and to whom. */
  lemma GrantResult(ws: seq<Bytes>, more: seq<Token>)
    requires PlainPrivileges(ws)
    ensures ParseGrant(GrantHead(ws) + more) ==
            match ParseScope(more)
            case None => None
            case Some((scope, to)) =>
              if |to| >= 2 && to[0] == W("TO") && to[1].Str? && (|to| == 2 || to[2..] == [W("WITH"), W("GRANT"), W("OPTION")]) then
                Some(Grant(AsSet(ws), scope, to[1].value))
              else None
  {
    PrivilegesParse(ws, more);
    assert (GrantHead(ws) + more)[1..] == PrivilegeTokens(ws) + ([W("ON")] + more);
  }

  lemma ScopeOfName(ts: seq<Token>)
    requires ts != [] && ts[0].Ident?
    ensures ParseScope(ts) == if |ts| >= 2 && ts[1].AllOf? then Some((Pattern(ts[0].name), ts[2..])) else None
  {
  }

  lemma GrantReads(ws: seq<Bytes>, n: Bytes, user: Bytes)
    ensures ReadAsGrant(Parse(GrantText(ws, n, user)), ws, n, user)
  {
    var text := GrantText(ws, n, user);
    GrantKind(ws, n, user);
    if PlainPrivileges(ws) {
      GrantLex(ws, n, user);
      EndLex(user);
      GrantTokens(text, ws, n, user);
    }
  }

  lemma GrantTokens(text: Bytes, ws: seq<Bytes>, n: Bytes, user: Bytes)
    requires PlainPrivileges(ws) && Lex(text) == AddTokens(GrantHead(ws), Named(n, GrantEnd(user)))
    requires Lex(GrantEnd(user)) == Some(EndTokens(user)) && GrantEnd(user)[0] == DOT
    ensures Parse(text) == Some(Grant(AsSet(ws), Pattern(n), user)) <==> Quotable(n)
  {
    NamedReads(n, GrantEnd(user));
    if Named(n, GrantEnd(user)).Some? {
      var more := Named(n, GrantEnd(user)).value;
      ParsesGrant(text, GrantHead(ws) + more);
      GrantResult(ws, more);
      ScopeOfName(more);
      if Quotable(n) {
        assert more == [Ident(n)] + EndTokens(user);
        assert more[2..] == [W("TO"), Str(user)];
      }
    }
  }

  // ---------------------------------------------------------------- the whole

  lemma ReadsCreateUser()
    ensures forall n, d :: Parse(CreateUserText(n, d)) == Some(OnAccount(CreateUser(n, d)))
  {
    forall n, d ensures Parse(CreateUserText(n, d)) == Some(OnAccount(CreateUser(n, d))) { CreateText(n, d); }
  }

  lemma ReadsAlterUser()
    ensures forall n, d :: Parse(AlterUserText(n, d)) == Some(OnAccount(AlterUser(n, d)))
  {
    forall n, d ensures Parse(AlterUserText(n, d)) == Some(OnAccount(AlterUser(n, d))) { AlterText(n, d); }
  }

  lemma ReadsRenameUser()
    ensures forall n, m :: Parse(RenameUserText(n, m)) == Some(OnAccount(RenameUser(n, m)))
  {
    forall n, m ensures Parse(RenameUserText(n, m)) == Some(OnAccount(RenameUser(n, m))) { RenameText(n, m); }
  }

  lemma ReadsDropAndRevoke()
    ensures forall n :: Parse(DropUserText(n)) == Some(OnAccount(DropUser(n)))
    ensures forall n :: Parse(RevokeText(n)) == Some(OnAccount(RevokeAll(n)))
  {
    forall n ensures Parse(DropUserText(n)) == Some(OnAccount(DropUser(n))) { DropText(n); }
    forall n ensures Parse(RevokeText(n)) == Some(OnAccount(RevokeAll(n))) { RevokeAllText(n); }
  }

  lemma ReadsDatabases()
    ensures forall n, cs, co :: ReadAsCreate(Parse(CreateDatabaseText(n, cs, co)), n, cs, co)
    ensures forall n, cs, co :: ReadAsAlter(Parse(AlterDatabaseText(n, cs, co)), n, cs, co)
    ensures forall n :: ReadAsDrop(Parse(DropDatabaseText(n)), n)
  {
    forall n, cs, co ensures ReadAsCreate(Parse(CreateDatabaseText(n, cs, co)), n, cs, co) { CreateReads(n, cs, co); }
    forall n, cs, co ensures ReadAsAlter(Parse(AlterDatabaseText(n, cs, co)), n, cs, co) { AlterReads(n, cs, co); }
    forall n ensures ReadAsDrop(Parse(DropDatabaseText(n)), n) { DropReads(n); }
  }

  lemma ReadsGrants()
    ensures forall ws, n, user :: ReadAsGrant(Parse(GrantText(ws, n, user)), ws, n, user)
  {
    forall ws, n, user ensures ReadAsGrant(Parse(GrantText(ws, n, user)), ws, n, user) { GrantReads(ws, n, user); }
  }

  /**
   * For all names, credentials, options and words: account statements are read as meant, the others
   * exactly when the database name holds no back-tick.
   */
  lemma ParseIsLiterate()
    ensures Literate(Parse)
  {
    ReadsCreateUser();
    ReadsAlterUser();
    ReadsRenameUser();
    ReadsDropAndRevoke();
    ReadsDatabases();
    ReadsGrants();
  }
}
