/** The phrases of the account statements and what the server reads in the whole texts. */
module SqlPhrases {
  import opened Basics
  import opened SqlText
  import opened SqlStatements
  import opened SqlTexts

  function Words(ws: seq<string>): seq<Token> {
    if ws == [] then [] else [W(ws[0])] + Words(ws[1..])
  }

  function Phrase(ws: seq<string>): string {
    if ws == [] then "" else " " + ws[0] + Phrase(ws[1..])
  }

  lemma {:induction false} WordsTail(ws: seq<string>)
    ensures Tail(Words(ws)) == Ascii(Phrase(ws))
  {
    if ws != [] {
      WordsTail(ws[1..]);
      assert Words(ws)[1..] == Words(ws[1..]);
      AsciiConcat(" " + ws[0], Phrase(ws[1..]));
      AsciiConcat(" ", ws[0]);
      assert Ascii(" ") == [SPACE];
    }
  }

  lemma Glue(a: Bytes, b: Bytes, c: Bytes, d: Bytes)
    ensures a + (b + (c + d)) == (a + b) + c + d
  {
  }

  /** A phrase of words and a quoted name, as the source concatenates them. */
  lemma PhraseTail(ws: seq<string>, phrase: string, name: Bytes)
    requires phrase == Phrase(ws) + " '"
    ensures Tail(Words(ws) + [Str(name)]) == Ascii(phrase) + Escaped(name) + [QUOTE]
  {
    TailConcat(Words(ws), [Str(name)]);
    WordsTail(ws);
    AsciiConcat(Phrase(ws), " '");
    QuotedTail(name);
    Glue(Ascii(Phrase(ws)), Ascii(" '"), Escaped(name), [QUOTE]);
  }

  lemma TailOne(t: Token)
    requires !Glued(t)
    ensures Tail([t]) == [SPACE] + Render(t)
  {
    assert [t][1..] == [];
    assert Tail([]) == [];
  }

  lemma Shift3(a: Bytes, b: Bytes, c: Bytes)
    ensures a + (b + c + b) == (a + b) + (c + b)
  {
  }

  lemma QuotedTail(name: Bytes)
    ensures Tail([Str(name)]) == Ascii(" '") + (Escaped(name) + [QUOTE])
  {
    TailOne(Str(name));
    Shift3([SPACE], [QUOTE], Escaped(name));
    assert Ascii(" '") == [SPACE] + [QUOTE];
  }

  // The fragments of the IDENTIFIED clause, phrase by phrase.

  lemma WithPluginText(plugin: Bytes)
    ensures Tail(AuthTokens(WithPlugin(plugin))) == Ascii(" IDENTIFIED WITH '") + Escaped(plugin) + [QUOTE]
  {
    PhraseTail(["IDENTIFIED", "WITH"], " IDENTIFIED WITH '", plugin);
    assert Words(["IDENTIFIED", "WITH"]) + [Str(plugin)] == AuthTokens(WithPlugin(plugin));
  }

  lemma WithPluginAuthText(plugin: Bytes, hashed: bool, auth: Bytes)
    ensures Tail(AuthTokens(WithPluginAuth(plugin, hashed, auth))) ==
            Tail(AuthTokens(WithPlugin(plugin))) + (Ascii(if hashed then " AS '" else " BY '") + Escaped(auth) + [QUOTE])
  {
    var first := AuthTokens(WithPlugin(plugin));
    if hashed {
      PhraseTail(["AS"], " AS '", auth);
      assert Words(["AS"]) + [Str(auth)] == [W("AS"), Str(auth)];
      TailConcat(first, [W("AS"), Str(auth)]);
      assert first + [W("AS"), Str(auth)] == AuthTokens(WithPluginAuth(plugin, true, auth));
    } else {
      PhraseTail(["BY"], " BY '", auth);
      assert Words(["BY"]) + [Str(auth)] == [W("BY"), Str(auth)];
      TailConcat(first, [W("BY"), Str(auth)]);
      assert first + [W("BY"), Str(auth)] == AuthTokens(WithPluginAuth(plugin, false, auth));
    }
  }

  lemma OneWord(a: string)
    ensures Words([a]) == [W(a)] && Phrase([a]) == " " + a
  {
    assert [a][1..] == [];
  }

  lemma ByPasswordWords()
    ensures Words(["IDENTIFIED"] + ["BY", "PASSWORD"]) == [W("IDENTIFIED"), W("BY"), W("PASSWORD")]
    ensures Phrase(["IDENTIFIED"] + ["BY", "PASSWORD"]) == " IDENTIFIED" + " BY PASSWORD"
  {
    OneWord("IDENTIFIED");
    TwoWords("BY", "PASSWORD");
    WordsConcat(["IDENTIFIED"], ["BY", "PASSWORD"]);
    assert " " + "IDENTIFIED" == " IDENTIFIED";
    assert " " + "BY" + " " + "PASSWORD" == " BY PASSWORD";
  }

  lemma ByPasswordPhrase()
    ensures " IDENTIFIED BY PASSWORD '" == " IDENTIFIED" + " BY PASSWORD" + " '"
  {
  }

  lemma ByPasswordText(auth: Bytes)
    ensures Tail(AuthTokens(ByAuth(true, auth))) == Ascii(" IDENTIFIED BY PASSWORD '") + Escaped(auth) + [QUOTE]
  {
    ByPasswordWords();
    ByPasswordPhrase();
    PhraseTail(["IDENTIFIED"] + ["BY", "PASSWORD"], " IDENTIFIED BY PASSWORD '", auth);
    assert [W("IDENTIFIED"), W("BY"), W("PASSWORD")] + [Str(auth)] == AuthTokens(ByAuth(true, auth));
  }

  lemma ByAuthText(hashed: bool, auth: Bytes)
    ensures Tail(AuthTokens(ByAuth(hashed, auth))) ==
            Ascii(if hashed then " IDENTIFIED BY PASSWORD '" else " IDENTIFIED BY '") + Escaped(auth) + [QUOTE]
  {
    if hashed {
      ByPasswordText(auth);
    } else {
      TwoWords("IDENTIFIED", "BY");
      PhraseTail(["IDENTIFIED", "BY"], " IDENTIFIED BY '", auth);
      assert Words(["IDENTIFIED", "BY"]) + [Str(auth)] == AuthTokens(ByAuth(false, auth));
    }
  }

  lemma TwoWordText(a: string, b: string, phrase: string)
    requires phrase == " " + a + " " + b
    ensures Tail([W(a), W(b)]) == Ascii(phrase)
  {
    TwoWords(a, b);
    WordsTail([a, b]);
  }

  lemma TlsText(required: bool)
    ensures Tail(TlsTokens(Some(required))) == Ascii(if required then " REQUIRE SSL" else " REQUIRE NONE")
  {
    if required {
      TwoWordText("REQUIRE", "SSL", " REQUIRE SSL");
    } else {
      TwoWordText("REQUIRE", "NONE", " REQUIRE NONE");
    }
  }

  lemma DetailText(d: Details)
    ensures Tail(DetailTokens(d)) == Tail(AuthTokens(d.auth)) + Tail(TlsTokens(d.tls))
    ensures Tail(DetailTokens(d)) == [] <==> d == NO_DETAILS
  {
    TailConcat(AuthTokens(d.auth), TlsTokens(d.tls));
    TailStart(AuthTokens(d.auth));
    TailStart(TlsTokens(d.tls));
    EmptyDetails(d);
  }

  lemma EmptyDetails(d: Details)
    ensures AuthTokens(d.auth) == [] <==> d.auth == NoAuth
    ensures TlsTokens(d.tls) == [] <==> d.tls == None
  {
  }

  // The statements, from the concatenations in the source.

  lemma TextParses(stmt: AccountStmt, text: Bytes)
    requires [SPACE] + text == Tail(Tokens(stmt))
    ensures Parse(text) == Some(OnAccount(stmt))
  {
    assert Print(stmt) == text;
    PrintParse(stmt);
  }

  lemma Shift(sp: Bytes, p: Bytes, e: Bytes, q: Bytes, f: Bytes)
    ensures ((sp + p) + e + q) + f == sp + (p + e + q + f)
  {
  }

  lemma HeadTail(ws: seq<string>, phrase: string, name: Bytes)
    requires " " + phrase == Phrase(ws) + " '"
    ensures Tail(Words(ws) + [Str(name)]) == ([SPACE] + Ascii(phrase)) + Escaped(name) + [QUOTE]
  {
    PhraseTail(ws, " " + phrase, name);
    SpacePhrase(phrase);
  }

  lemma SpacePhrase(phrase: string)
    ensures Ascii(" " + phrase) == [SPACE] + Ascii(phrase)
  {
    AsciiConcat(" ", phrase);
    assert Ascii(" ") == [SPACE];
  }

  /** From a head that starts a statement, its name and the rest of the tokens to the statement. */
  lemma HeadedText(stmt: AccountStmt, ws: seq<string>, phrase: string, rest: seq<Token>)
    requires Tokens(stmt) == Words(ws) + [Str(stmt.name)] + rest
    requires " " + phrase == Phrase(ws) + " '"
    ensures Parse(Ascii(phrase) + Escaped(stmt.name) + [QUOTE] + Tail(rest)) == Some(OnAccount(stmt))
  {
    HeadTail(ws, phrase, stmt.name);
    TailConcat(Words(ws) + [Str(stmt.name)], rest);
    Shift([SPACE], Ascii(phrase), Escaped(stmt.name), [QUOTE], Tail(rest));
    TextParses(stmt, Ascii(phrase) + Escaped(stmt.name) + [QUOTE] + Tail(rest));
  }

  lemma TwoWords(a: string, b: string)
    ensures Words([a, b]) == [W(a), W(b)]
    ensures Phrase([a, b]) == " " + a + " " + b
  {
    assert [a, b][1..] == [b] && [b][1..] == [];
    assert Phrase([]) == "" && Words([]) == [];
    assert Phrase([b]) == " " + b && Words([b]) == [W(b)];
  }

  lemma CreateText(name: Bytes, d: Details)
    ensures Parse(CreateUserText(name, d)) == Some(OnAccount(CreateUser(name, d)))
  {
    TwoWords("CREATE", "USER");
    HeadedText(CreateUser(name, d), ["CREATE", "USER"], "CREATE USER '", DetailTokens(d));
  }

  lemma AlterText(name: Bytes, d: Details)
    ensures Parse(AlterUserText(name, d)) == Some(OnAccount(AlterUser(name, d)))
  {
    TwoWords("ALTER", "USER");
    HeadedText(AlterUser(name, d), ["ALTER", "USER"], "ALTER USER '", DetailTokens(d));
  }

  function ToTokens(target: Bytes): seq<Token> { [W("TO")] + [Str(target)] }

  lemma ToText(target: Bytes)
    ensures Tail(ToTokens(target)) == Ascii(" TO '") + Escaped(target) + [QUOTE]
  {
    OneWord("TO");
    PhraseTail(["TO"], " TO '", target);
  }

  lemma RenameText(name: Bytes, target: Bytes)
    ensures Parse(RenameUserText(name, target)) == Some(OnAccount(RenameUser(name, target)))
  {
    TwoWords("RENAME", "USER");
    ToText(target);
    assert Tokens(RenameUser(name, target)) == [W("RENAME"), W("USER")] + [Str(name)] + ToTokens(target);
    HeadedText(RenameUser(name, target), ["RENAME", "USER"], "RENAME USER '", ToTokens(target));
  }

  lemma DropText(name: Bytes)
    ensures Parse(DropUserText(name)) == Some(OnAccount(DropUser(name)))
  {
    DropWords();
    DropPhrase();
    HeadedText(DropUser(name), ["DROP", "USER"] + ["IF", "EXISTS"], "DROP USER IF EXISTS '", []);
    NoTail(Ascii("DROP USER IF EXISTS '") + Escaped(name) + [QUOTE]);
  }

  lemma DropWords()
    ensures Words(["DROP", "USER"] + ["IF", "EXISTS"]) == [W("DROP"), W("USER"), W("IF"), W("EXISTS")]
    ensures Phrase(["DROP", "USER"] + ["IF", "EXISTS"]) == " DROP USER" + " IF EXISTS"
  {
    TwoWords("DROP", "USER");
    TwoWords("IF", "EXISTS");
    WordsConcat(["DROP", "USER"], ["IF", "EXISTS"]);
    DropLiterals();
  }

  lemma DropLiterals()
    ensures " " + "DROP" + " " + "USER" == " DROP USER"
    ensures " " + "IF" + " " + "EXISTS" == " IF EXISTS"
  {
  }

  lemma DropPhrase()
    ensures " " + "DROP USER IF EXISTS '" == " DROP USER" + " IF EXISTS" + " '"
  {
  }

  function RevokeEnd(name: Bytes): seq<Token> {
    [Comma] + ([W("GRANT"), W("OPTION"), W("FROM")] + [Str(name)])
  }

  lemma RevokeEndText(name: Bytes)
    ensures Tail(RevokeEnd(name)) == [COMMA] + (Ascii(" GRANT OPTION FROM '") + Escaped(name) + [QUOTE])
  {
    RevokeWords();
    PhraseTail(["GRANT"] + ["OPTION", "FROM"], " GRANT OPTION FROM '", name);
    assert RevokeEnd(name)[1..] == [W("GRANT"), W("OPTION"), W("FROM")] + [Str(name)];
  }

  /** The REVOKE has a comma after its third word. */
  lemma RevokeAllText(name: Bytes)
    ensures Parse(RevokeText(name)) == Some(OnAccount(RevokeAll(name)))
  {
    var head := [W("REVOKE"), W("ALL"), W("PRIVILEGES")];
    RevokeWords();
    WordsTail(["REVOKE", "ALL"] + ["PRIVILEGES"]);
    RevokeEndText(name);
    TailConcat(head, RevokeEnd(name));
    RevokeBytes(name);
    assert Tokens(RevokeAll(name)) == head + RevokeEnd(name);
    TextParses(RevokeAll(name), RevokeText(name));
  }

  lemma RevokeBytes(name: Bytes)
    ensures [SPACE] + RevokeText(name)
         == Ascii(" REVOKE ALL PRIVILEGES") + ([COMMA] + (Ascii(" GRANT OPTION FROM '") + Escaped(name) + [QUOTE]))
  {
    RevokePhrase();
    AsciiConcat(" REVOKE ALL PRIVILEGES", ",");
    AsciiConcat(" REVOKE ALL PRIVILEGES" + ",", " GRANT OPTION FROM '");
    AsciiConcat(" ", "REVOKE ALL PRIVILEGES, GRANT OPTION FROM '");
    assert Ascii(",") == [COMMA] && Ascii(" ") == [SPACE];
    Regroup(Ascii(" REVOKE ALL PRIVILEGES"), Ascii(" GRANT OPTION FROM '"), Escaped(name));
    Front(Ascii("REVOKE ALL PRIVILEGES, GRANT OPTION FROM '"), Escaped(name) + [QUOTE]);
    assert RevokeText(name) == Ascii("REVOKE ALL PRIVILEGES, GRANT OPTION FROM '") + (Escaped(name) + [QUOTE]);
  }

  lemma Front(p: Bytes, e: Bytes)
    ensures [SPACE] + (p + e) == ([SPACE] + p) + e
  {
  }

  lemma Regroup(a: Bytes, b: Bytes, e: Bytes)
    ensures ((a + [COMMA]) + b) + (e + [QUOTE]) == a + ([COMMA] + (b + e + [QUOTE]))
  {
  }

  lemma NoTail(text: Bytes)
    ensures text + Tail([]) == text
  {
  }

  lemma RevokePhrase()
    ensures " " + "REVOKE ALL PRIVILEGES, GRANT OPTION FROM '" == " REVOKE ALL PRIVILEGES" + "," + " GRANT OPTION FROM '"
  {
  }

  lemma RevokeLiteral()
    ensures (" " + "REVOKE" + " " + "ALL") + (" " + "PRIVILEGES") == " REVOKE ALL PRIVILEGES"
  {
  }

  lemma OptionLiteral()
    ensures (" " + "GRANT") + (" " + "OPTION" + " " + "FROM") + " '" == " GRANT OPTION FROM '"
  {
  }

  lemma RevokeWords()
    ensures Words(["REVOKE", "ALL"] + ["PRIVILEGES"]) == [W("REVOKE"), W("ALL"), W("PRIVILEGES")]
    ensures Phrase(["REVOKE", "ALL"] + ["PRIVILEGES"]) == " REVOKE ALL PRIVILEGES"
    ensures Words(["GRANT"] + ["OPTION", "FROM"]) == [W("GRANT"), W("OPTION"), W("FROM")]
    ensures Phrase(["GRANT"] + ["OPTION", "FROM"]) + " '" == " GRANT OPTION FROM '"
  {
    TwoThenOne("REVOKE", "ALL", "PRIVILEGES");
    RevokeLiteral();
    OneThenTwo("GRANT", "OPTION", "FROM");
    OptionLiteral();
  }

  lemma TwoThenOne(a: string, b: string, c: string)
    ensures Words([a, b] + [c]) == [W(a), W(b), W(c)]
    ensures Phrase([a, b] + [c]) == (" " + a + " " + b) + (" " + c)
  {
    TwoWords(a, b);
    OneWord(c);
    WordsConcat([a, b], [c]);
  }

  lemma OneThenTwo(a: string, b: string, c: string)
    ensures Words([a] + [b, c]) == [W(a), W(b), W(c)]
    ensures Phrase([a] + [b, c]) == (" " + a) + (" " + b + " " + c)
  {
    OneWord(a);
    TwoWords(b, c);
    WordsConcat([a], [b, c]);
  }

  lemma {:induction false} WordsConcat(a: seq<string>, b: seq<string>)
    ensures Words(a + b) == Words(a) + Words(b)
    ensures Phrase(a + b) == Phrase(a) + Phrase(b)
  {
    if a == [] {
      assert a + b == b;
    } else {
      assert (a + b)[1..] == a[1..] + b;
      WordsConcat(a[1..], b);
      Associates([W(a[0])], Words(a[1..]), Words(b));
      Associates(" " + a[0], Phrase(a[1..]), Phrase(b));
    }
  }

  lemma Associates<T>(x: seq<T>, y: seq<T>, z: seq<T>)
    ensures (x + y) + z == x + (y + z)
  {
  }
}
