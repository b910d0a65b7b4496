/**
 * The parser of this project reads the operator's texts as they are meant, the database statements and
 * GRANT exactly when the database name holds no back-tick.
 */
module SqlReader {
  import opened Basics
  import opened SqlText
  import opened SqlStatements
  import opened SqlTexts
  import opened SqlPhrases

  // ---------------------------------------------------------------- a bare name inside a text

  /** The tokens from a name between bare back-ticks on. */
  function Named(n: Bytes, rest: Bytes): Option<seq<Token>> {
    Lex([BACKTICK] + n + [BACKTICK] + rest)
  }

  lemma NamedReads(n: Bytes, rest: Bytes)
    requires rest == [] || rest[0] != BACKTICK
    ensures Named(n, rest).Some? ==>
              && Named(n, rest).value != [] && Named(n, rest).value[0].Ident?
              && (Named(n, rest).value[0].name == n ==> Quotable(n))
    ensures Quotable(n) ==> Named(n, rest) == AddToken(Ident(n), Lex(rest))
  {
    LexName(n, rest);
    ReadBareName(n, rest);
  }

  /** Words, a space and a name: the words are split off. */
  lemma LexHeaded(ws: seq<Token>, n: Bytes, rest: Bytes)
    requires WordsOnly(ws)
    ensures Lex(Tail(ws) + ([SPACE] + ([BACKTICK] + n + [BACKTICK] + rest))) == AddTokens(ws, Named(n, rest))
  {
    LexPrefix(ws, [SPACE] + ([BACKTICK] + n + [BACKTICK] + rest));
    LexSpace([BACKTICK] + n + [BACKTICK] + rest);
  }

  lemma Shape(p: Bytes, n: Bytes, rest: Bytes)
    ensures [SPACE] + ((p + [SPACE, BACKTICK]) + n + [BACKTICK] + rest)
         == ([SPACE] + p) + ([SPACE] + ([BACKTICK] + n + [BACKTICK] + rest))
  {
  }

  /** From the text of a statement that names a database to its tokens. */
  lemma LexStatement(ws: seq<Token>, phrase: string, n: Bytes, rest: Bytes, text: Bytes)
    requires WordsOnly(ws) && Tail(ws) == [SPACE] + Ascii(phrase)
    requires text == (Ascii(phrase) + [SPACE, BACKTICK]) + n + [BACKTICK] + rest
    ensures Lex(text) == AddTokens(ws, Named(n, rest))
  {
    LexSpace(text);
    Shape(Ascii(phrase), n, rest);
    LexHeaded(ws, n, rest);
  }

  // ---------------------------------------------------------------- telling the statements apart

  lemma FirstLetters()
    ensures Ascii("CREATE")[0] == 67 && Ascii("ALTER")[0] == 65 && Ascii("DROP")[0] == 68 && Ascii("GRANT")[0] == 71
  {
  }

  lemma ParsesDatabase(text: Bytes, ts: seq<Token>)
    requires Lex(text) == Some(ts) && |ts| >= 2
    requires ts[1] == W("DATABASE") && ts[0].Word? && ts[0].spelling != [] && ts[0].spelling[0] != 71
    ensures Parse(text) == ParseDatabase(ts)
  {
    FirstLetters();
  }

  lemma CreateResult(ts: seq<Token>)
    requires |ts| >= 2 && ts[0] == W("CREATE")
    ensures ParseDatabase(ts) ==
            if |ts| >= 3 && ts[2].Ident? && ParseOptions(ts[3..]).Some? then
              Some(CreateDatabase(ts[2].name, ParseOptions(ts[3..]).value.0, ParseOptions(ts[3..]).value.1))
            else None
  {
    FirstLetters();
  }

  lemma AlterResult(ts: seq<Token>)
    requires |ts| >= 2 && ts[0] == W("ALTER")
    ensures ParseDatabase(ts) ==
            if |ts| > 3 && ts[2].Ident? && ParseOptions(ts[3..]).Some? then
              Some(AlterDatabase(ts[2].name, ParseOptions(ts[3..]).value.0, ParseOptions(ts[3..]).value.1))
            else None
  {
    FirstLetters();
  }

  lemma DropResult(ts: seq<Token>)
    requires |ts| >= 4 && ts[0] == W("DROP") && ts[2] == W("IF") && ts[3] == W("EXISTS")
    ensures ParseDatabase(ts) == if |ts| == 5 && ts[4].Ident? then Some(DropDatabase(ts[4].name)) else None
  {
    FirstLetters();
  }

  // ---------------------------------------------------------------- DROP DATABASE

  function DropHead(): seq<Token> { [W("DROP"), W("DATABASE")] + [W("IF"), W("EXISTS")] }

  lemma PairWords(a: string, b: string)
    requires Keyword(a) && Keyword(b)
    ensures WordsOnly([W(a), W(b)])
  {
    KeywordOk(a);
    KeywordOk(b);
  }

  lemma BothWords(first: seq<Token>, second: seq<Token>)
    requires WordsOnly(first) && WordsOnly(second)
    ensures WordsOnly(first + second)
  {
  }

  lemma PhrasesText(first: seq<Token>, second: seq<Token>, p: string, q: string, phrase: string)
    requires Tail(first) == Ascii(p) && Tail(second) == Ascii(q) && " " + phrase == p + q
    ensures Tail(first + second) == [SPACE] + Ascii(phrase)
  {
    TailConcat(first, second);
    AsciiConcat(p, q);
    AsciiConcat(" ", phrase);
    OneSpace();
  }

  lemma OneSpace()
    ensures Ascii(" ") == [SPACE]
  {
  }

  lemma OpeningTick(phrase: string, quoted: string)
    requires quoted == phrase + " `"
    ensures Ascii(quoted) == Ascii(phrase) + [SPACE, BACKTICK]
  {
    AsciiConcat(phrase, " `");
    assert Ascii(" `") == [SPACE, BACKTICK];
  }

  lemma DropHeadWords()
    ensures WordsOnly(DropHead())
  {
    PairWords("DROP", "DATABASE");
    PairWords("IF", "EXISTS");
    BothWords([W("DROP"), W("DATABASE")], [W("IF"), W("EXISTS")]);
  }

  lemma DropDatabaseWords()
    ensures Tail([W("DROP"), W("DATABASE")]) == Ascii(" DROP DATABASE")
  {
    TwoWordText("DROP", "DATABASE", " DROP DATABASE");
  }

  lemma IfExistsText()
    ensures Tail([W("IF"), W("EXISTS")]) == Ascii(" IF EXISTS")
  {
    TwoWordText("IF", "EXISTS", " IF EXISTS");
  }

  lemma DropHeadPhrase()
    ensures " " + "DROP DATABASE IF EXISTS" == " DROP DATABASE" + " IF EXISTS"
  {
  }

  lemma DropHeadText()
    ensures Tail(DropHead()) == [SPACE] + Ascii("DROP DATABASE IF EXISTS")
  {
    DropDatabaseWords();
    IfExistsText();
    DropHeadPhrase();
    PhrasesText([W("DROP"), W("DATABASE")], [W("IF"), W("EXISTS")], " DROP DATABASE", " IF EXISTS", "DROP DATABASE IF EXISTS");
  }

  lemma DropTokens(text: Bytes, n: Bytes)
    requires Lex(text) == AddTokens(DropHead(), Named(n, []))
    ensures ReadAsDrop(Parse(text), n)
  {
    NamedReads(n, []);
    if Named(n, []).Some? {
      var ts := DropHead() + Named(n, []).value;
      assert ts[4..] == Named(n, []).value;
      FirstLetters();
      ParsesDatabase(text, ts);
      DropResult(ts);
    }
  }

  lemma DropReads(n: Bytes)
    ensures ReadAsDrop(Parse(DropDatabaseText(n)), n)
  {
    DropHeadWords();
    DropHeadText();
    OpeningTick("DROP DATABASE IF EXISTS", "DROP DATABASE IF EXISTS `");
    var text := DropDatabaseText(n);
    assert text == (Ascii("DROP DATABASE IF EXISTS") + [SPACE, BACKTICK]) + n + [BACKTICK] + [];
    LexStatement(DropHead(), "DROP DATABASE IF EXISTS", n, [], text);
    DropTokens(text, n);
  }

  // ---------------------------------------------------------------- CREATE and ALTER DATABASE

  function CharacterSetTokens(cs: Bytes): seq<Token> {
    if cs == [] then [] else [W("CHARACTER"), W("SET")] + [Word(cs)]
  }

  function CollateTokens(co: Bytes): seq<Token> {
    if co == [] then [] else [W("COLLATE")] + [Word(co)]
  }

  lemma OptionWord(v: Bytes)
    requires v != [] && PlainOption(v)
    ensures TokenOk(Word(v)) && Tail([Word(v)]) == [SPACE] + v
  {
    assert v[0] != DOT;
    assert [Word(v)][1..] == [];
  }

  /** Keywords, given as tokens with their text, and one word. */
  lemma OptionText(keywords: seq<Token>, phrase: string, v: Bytes)
    requires WordsOnly(keywords) && (Tail(keywords) + [SPACE] == Ascii(phrase)) && v != [] && PlainOption(v)
    requires forall i :: 0 <= i < |keywords| ==> keywords[i].Word?
    ensures Lexical(keywords + [Word(v)]) && Tail(keywords + [Word(v)]) == Ascii(phrase) + v
  {
    OptionWord(v);
    TailConcat(keywords, [Word(v)]);
    Assoc(Tail(keywords), [SPACE], v);
  }

  lemma Assoc(a: Bytes, b: Bytes, c: Bytes)
    ensures a + (b + c) == (a + b) + c
  {
  }

  lemma SpaceAfter(p: string, phrase: string)
    requires phrase == p + " "
    ensures Ascii(phrase) == Ascii(p) + [SPACE]
  {
    AsciiConcat(p, " ");
    OneSpace();
  }

  lemma CharacterSetPhrase()
    ensures Tail([W("CHARACTER"), W("SET")]) + [SPACE] == Ascii(" CHARACTER SET ")
  {
    TwoWordText("CHARACTER", "SET", " CHARACTER SET");
    SpaceAfter(" CHARACTER SET", " CHARACTER SET ");
  }

  lemma CollatePhrase()
    ensures Tail([W("COLLATE")]) + [SPACE] == Ascii(" COLLATE ")
  {
    TailOne(W("COLLATE"));
    AsciiConcat(" ", "COLLATE");
    OneSpace();
    SpaceAfter(" " + "COLLATE", " COLLATE ");
  }

  lemma CharacterSetText(cs: Bytes)
    requires PlainOption(cs)
    ensures Lexical(CharacterSetTokens(cs)) && Tail(CharacterSetTokens(cs)) == Clause(" CHARACTER SET ", cs)
  {
    if cs != [] {
      CharacterSetPhrase();
      PairWords("CHARACTER", "SET");
      OptionText([W("CHARACTER"), W("SET")], " CHARACTER SET ", cs);
    }
  }

  lemma CollateText(co: Bytes)
    requires PlainOption(co)
    ensures Lexical(CollateTokens(co)) && Tail(CollateTokens(co)) == Clause(" COLLATE ", co)
  {
    if co != [] {
      CollatePhrase();
      KeywordOk("COLLATE");
      OptionText([W("COLLATE")], " COLLATE ", co);
    }
  }

  lemma OptionsLex(cs: Bytes, co: Bytes)
    requires PlainOption(cs) && PlainOption(co)
    ensures Lex(Options(cs, co)) == Some(CharacterSetTokens(cs) + CollateTokens(co))
  {
    CharacterSetText(cs);
    CollateText(co);
    TailConcat(CharacterSetTokens(cs), CollateTokens(co));
    LexicalConcat(CharacterSetTokens(cs), CollateTokens(co));
    LexTail(CharacterSetTokens(cs) + CollateTokens(co));
  }

  lemma CollateParses(co: Bytes)
    ensures ParseCollate(CollateTokens(co)) == Some(co)
  {
  }

  lemma OptionsParse(cs: Bytes, co: Bytes)
    ensures ParseOptions(CharacterSetTokens(cs) + CollateTokens(co)) == Some((cs, co))
    ensures CharacterSetTokens(cs) + CollateTokens(co) == [] <==> cs == [] && co == []
  {
    CollateParses(co);
    if cs != [] {
      assert (CharacterSetTokens(cs) + CollateTokens(co))[3..] == CollateTokens(co);
    } else {
      assert CharacterSetTokens(cs) + CollateTokens(co) == CollateTokens(co);
      assert Ascii("CHARACTER")[1] == 72 && Ascii("COLLATE")[1] == 79;
    }
  }

  lemma OptionsStart(cs: Bytes, co: Bytes)
    ensures Options(cs, co) == [] || Options(cs, co)[0] == SPACE
  {
  }

  lemma DatabaseHead(verb: string, phrase: string, quoted: string)
    requires Keyword(verb) && " " + phrase == " " + verb + " " + "DATABASE" && quoted == phrase + " `"
    ensures WordsOnly([W(verb), W("DATABASE")]) && Tail([W(verb), W("DATABASE")]) == [SPACE] + Ascii(phrase)
    ensures Ascii(quoted) == Ascii(phrase) + [SPACE, BACKTICK]
  {
    PairWords(verb, "DATABASE");
    TwoWordText(verb, "DATABASE", " " + phrase);
    AsciiConcat(" ", phrase);
    OneSpace();
    OpeningTick(phrase, quoted);
  }

  /** The tokens of a statement with options. */
  function Headed(verb: string, n: Bytes, cs: Bytes, co: Bytes): Option<seq<Token>> {
    AddTokens([W(verb), W("DATABASE")], Named(n, Options(cs, co)))
  }

  lemma HeadedTokens(verb: string, n: Bytes, cs: Bytes, co: Bytes)
    ensures Headed(verb, n, cs, co).Some? ==>
              var ts := Headed(verb, n, cs, co).value;
              |ts| >= 3 && ts[0] == W(verb) && ts[1] == W("DATABASE") && ts[2].Ident? && (ts[2].name == n ==> Quotable(n))
    ensures Quotable(n) && Headed(verb, n, cs, co).Some? ==> Headed(verb, n, cs, co).value[2].name == n
    ensures Quotable(n) && PlainOption(cs) && PlainOption(co) ==>
              Headed(verb, n, cs, co).Some? && Headed(verb, n, cs, co).value[3..] == CharacterSetTokens(cs) + CollateTokens(co)
  {
    OptionsStart(cs, co);
    NamedReads(n, Options(cs, co));
    if Named(n, Options(cs, co)).Some? {
      var named := Named(n, Options(cs, co)).value;
      var ts := [W(verb), W("DATABASE")] + named;
      assert ts[2..] == named && ts[3..] == named[1..];
    }
    if PlainOption(cs) && PlainOption(co) {
      OptionsLex(cs, co);
    }
  }

  lemma CreateTokens(text: Bytes, n: Bytes, cs: Bytes, co: Bytes)
    requires Lex(text) == Headed("CREATE", n, cs, co)
    ensures ReadAsCreate(Parse(text), n, cs, co)
  {
    HeadedTokens("CREATE", n, cs, co);
    OptionsParse(cs, co);
    if Headed("CREATE", n, cs, co).Some? {
      var ts := Headed("CREATE", n, cs, co).value;
      FirstLetters();
      ParsesDatabase(text, ts);
      CreateResult(ts);
    }
  }

  lemma AlterTokens(text: Bytes, n: Bytes, cs: Bytes, co: Bytes)
    requires Lex(text) == Headed("ALTER", n, cs, co)
    ensures ReadAsAlter(Parse(text), n, cs, co)
  {
    HeadedTokens("ALTER", n, cs, co);
    OptionsParse(cs, co);
    if Headed("ALTER", n, cs, co).Some? {
      var ts := Headed("ALTER", n, cs, co).value;
      FirstLetters();
      ParsesDatabase(text, ts);
      AlterResult(ts);
    }
  }

  lemma CreateReads(n: Bytes, cs: Bytes, co: Bytes)
    ensures ReadAsCreate(Parse(CreateDatabaseText(n, cs, co)), n, cs, co)
  {
    DatabaseHead("CREATE", "CREATE DATABASE", "CREATE DATABASE `");
    LexStatement([W("CREATE"), W("DATABASE")], "CREATE DATABASE", n, Options(cs, co), CreateDatabaseText(n, cs, co));
    CreateTokens(CreateDatabaseText(n, cs, co), n, cs, co);
  }

  lemma AlterReads(n: Bytes, cs: Bytes, co: Bytes)
    ensures ReadAsAlter(Parse(AlterDatabaseText(n, cs, co)), n, cs, co)
  {
    DatabaseHead("ALTER", "ALTER DATABASE", "ALTER DATABASE `");
    LexStatement([W("ALTER"), W("DATABASE")], "ALTER DATABASE", n, Options(cs, co), AlterDatabaseText(n, cs, co));
    AlterTokens(AlterDatabaseText(n, cs, co), n, cs, co);
  }
}
