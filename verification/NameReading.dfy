/**
 * Which name the server reads where the source puts one between back-ticks as it is, for every name; and
 * exactly when a deletion pass drops somebody else's schema for that reason.
 */
module NameReading {
  import opened Basics
  import opened SqlText
  import opened SqlStatements
  import opened SqlTexts
  import opened SqlReader
  import opened Model
  import opened Ownership
  import opened Safety
  import opened Runs
  import opened OwnershipTheorems
  import opened QuotableRuns
  import DP = DatabaseReconciler
  import UP = UserPasses

  // ---------------------------------------------------------------- identifiers

  /** A name written with its back-ticks doubled is read back. */
  lemma {:induction false} ReadDoubled(v: Bytes, rest: Bytes)
    requires rest == [] || rest[0] != BACKTICK
    ensures ReadIdent(Doubled(v) + [BACKTICK] + rest) == Some((v, rest))
  {
    var t := Doubled(v) + [BACKTICK] + rest;
    if v == [] {
      assert t == [BACKTICK] + rest && t[1..] == rest;
    } else {
      var tail := Doubled(v[1..]) + [BACKTICK] + rest;
      ReadDoubled(v[1..], rest);
      assert [v[0]] + v[1..] == v;
      if v[0] == BACKTICK {
        assert t == [BACKTICK, BACKTICK] + tail && t[2..] == tail;
      } else {
        assert t == [v[0]] + tail && t[1..] == tail;
      }
    }
  }

  /** Blanks, comments to the end of the line and a closing semicolon. */
  predicate Blank(t: Bytes)
    decreases |t|
  {
    t == [] || ((IsSpace(t[0]) || t[0] == SEMICOLON) && Blank(t[1..])) || (StartsComment(t) && Blank(AfterLine(t[1..])))
  }

  /** Nothing else is read as no token at all. */
  lemma {:induction false} LexBlank(t: Bytes)
    ensures Lex(t) == Some([]) <==> Blank(t)
    decreases |t|
  {
    if t != [] {
      if IsSpace(t[0]) || t[0] == SEMICOLON {
        LexBlank(t[1..]);
      } else if StartsComment(t) {
        LexBlank(AfterLine(t[1..]));
      }
    }
  }

  // ---------------------------------------------------------------- DROP

  /**
   * The name, closed by a back-tick, reads as `v`: it is `v` with its back-ticks doubled, or that and a
   * single back-tick after which everything is blank, the back-tick that the source adds included.
   */
  predicate ReadsAs(n: Bytes, v: Bytes) {
    var d := Doubled(v);
    || n == d
    || (|n| > |d| + 1 && n[..|d|] == d && n[|d|] == BACKTICK && n[|d| + 1] != BACKTICK && Blank(n[|d| + 1..] + [BACKTICK]))
  }

  lemma NoTokens(ts: seq<Token>, v: Bytes)
    ensures [Ident(v)] + ts == [Ident(v)] <==> ts == []
  {
  }

  /** An identifier and nothing else. */
  lemma NamedOnly(n: Bytes, v: Bytes)
    ensures Named(n, []) == Some([Ident(v)]) <==>
              ReadIdent(n + [BACKTICK]).Some? && ReadIdent(n + [BACKTICK]).value.0 == v && Blank(ReadIdent(n + [BACKTICK]).value.1)
  {
    assert n + [BACKTICK] + [] == n + [BACKTICK];
    LexName(n, []);
    if ReadIdent(n + [BACKTICK]).Some? {
      var (x, rest) := ReadIdent(n + [BACKTICK]).value;
      LexBlank(rest);
      if Lex(rest).Some? {
        assert [Ident(x)] + Lex(rest).value == [Ident(v)] <==> x == v && Lex(rest).value == [] by {
          NoTokens(Lex(rest).value, x);
          assert ([Ident(x)] + Lex(rest).value)[0] == Ident(x);
        }
      }
    }
  }

  /** What is left after the name: nothing, or what follows a single back-tick inside it. */
  lemma RestOfName(n: Bytes, v: Bytes, rest: Bytes)
    requires n + [BACKTICK] == Doubled(v) + [BACKTICK] + rest && (rest == [] || rest[0] != BACKTICK) && Blank(rest)
    ensures ReadsAs(n, v)
  {
    var d := Doubled(v);
    var t := n + [BACKTICK];
    assert |n| + 1 == |d| + 1 + |rest|;
    assert t[..|d|] == d && t[|d|] == BACKTICK && t[|d| + 1..] == rest;
    if rest == [] {
      assert n == t[..|n|] == d;
    } else {
      var m := rest[..|rest| - 1];
      assert rest[|rest| - 1] == t[|n|] == BACKTICK;
      assert rest == m + [BACKTICK];
      assert t == (d + [BACKTICK] + m) + [BACKTICK];
      assert n == t[..|n|] == d + [BACKTICK] + m;
      assert n[|d| + 1..] == m;
    }
  }

  lemma NameOfRest(n: Bytes, v: Bytes)
    requires ReadsAs(n, v)
    ensures ReadIdent(n + [BACKTICK]).Some? && ReadIdent(n + [BACKTICK]).value.0 == v && Blank(ReadIdent(n + [BACKTICK]).value.1)
  {
    var d := Doubled(v);
    if n == d {
      ReadDoubled(v, []);
      assert d + [BACKTICK] + [] == n + [BACKTICK];
    } else {
      var rest := n[|d| + 1..] + [BACKTICK];
      assert n == n[..|d|] + [n[|d|]] + n[|d| + 1..];
      assert n + [BACKTICK] == d + [BACKTICK] + rest;
      ReadDoubled(v, rest);
    }
  }

  lemma NamedAs(n: Bytes, v: Bytes)
    ensures Named(n, []) == Some([Ident(v)]) <==> ReadsAs(n, v)
  {
    NamedOnly(n, v);
    if ReadsAs(n, v) {
      NameOfRest(n, v);
    } else if ReadIdent(n + [BACKTICK]).Some? && ReadIdent(n + [BACKTICK]).value.0 == v && Blank(ReadIdent(n + [BACKTICK]).value.1) {
      ReadWasDoubled(n + [BACKTICK]);
      RestOfName(n, v, ReadIdent(n + [BACKTICK]).value.1);
    }
  }

  lemma DropLex(n: Bytes)
    ensures Lex(DropDatabaseText(n)) == AddTokens(DropHead(), Named(n, []))
  {
    DropHeadWords();
    DropHeadText();
    OpeningTick("DROP DATABASE IF EXISTS", "DROP DATABASE IF EXISTS `");
    var text := DropDatabaseText(n);
    assert text == (Ascii("DROP DATABASE IF EXISTS") + [SPACE, BACKTICK]) + n + [BACKTICK] + [];
    LexStatement(DropHead(), "DROP DATABASE IF EXISTS", n, [], text);
  }

  /** Five tokens, the last an identifier. */
  lemma DropParses(text: Bytes, more: Option<seq<Token>>, v: Bytes)
    requires Lex(text) == AddTokens(DropHead(), more)
    ensures Parse(text) == Some(DropDatabase(v)) <==> more == Some([Ident(v)])
  {
    if more.Some? {
      var ts := DropHead() + more.value;
      assert ts[4..] == more.value;
      FirstLetters();
      ParsesDatabase(text, ts);
      DropResult(ts);
      if |more.value| == 1 {
        assert more.value == [more.value[0]];
      }
    }
  }

  /** The DROP DATABASE text of a name is read as dropping `v` if and only if the name reads as `v`. */
  lemma DropReadsAs(n: Bytes, v: Bytes)
    ensures Parse(DropDatabaseText(n)) == Some(DropDatabase(v)) <==> ReadsAs(n, v)
  {
    DropLex(n);
    DropParses(DropDatabaseText(n), Named(n, []), v);
    NamedAs(n, v);
  }

  // ---------------------------------------------------------------- the deletion pass

  /** The name reads as one of an existing schema that was not made for this object. */
  ghost predicate DropsOthers(s: Server, k: Key, d: Database) {
    exists v :: v in s.schemas && ReadsAs(d.spec.name, v) && s.schemas[v].creator != DP.Actor(k, d)
  }

  lemma DropStraysIff(s: Server, k: Key, d: Database, env: Env)
    requires env.reader == Parse
    ensures Stray(s, DP.Actor(k, d), DP.DropText(d), env) <==> DropsOthers(s, k, d)
  {
    var r := Parse(DP.DropText(d));
    DropReads(d.spec.name);
    if r.Some? {
      DropReadsAs(d.spec.name, r.value.name);
      assert DropsOthers(s, k, d) ==> exists v :: v in s.schemas && v == r.value.name && s.schemas[v].creator != DP.Actor(k, d) by {
        if v :| v in s.schemas && ReadsAs(d.spec.name, v) && s.schemas[v].creator != DP.Actor(k, d) {
          DropReadsAs(d.spec.name, v);
        }
      }
    } else if v :| v in s.schemas && ReadsAs(d.spec.name, v) && s.schemas[v].creator != DP.Actor(k, d) {
      DropReadsAs(d.spec.name, v);
    }
  }

  /** For every name: a deletion pass is misplaced exactly when it drops and its name reads as another's schema. */
  lemma DeletionMisplacedIff(w: World, k: Key, env: Env)
    requires env.reader == Parse && k in w.databases
    requires var d := w.databases[k]; d.deleting && d.finalizer && DP.Connected(d, env)
    ensures Misplaced(w, ReconcileDatabase(k, env)) <==>
              DecidesDatabase(w.server, k, w.databases[k], env, 1) && DropsOthers(w.server, k, w.databases[k])
  {
    DropStraysIff(w.server, k, w.databases[k], env);
  }

  // ---------------------------------------------------------------- CREATE and ALTER

  /** The name before the first single back-tick, its doubled ones halved, in the text after the opening one. */
  function NameRead(n: Bytes, rest: Bytes): Option<Bytes> {
    match ReadIdent(n + [BACKTICK] + rest)
    case None => None
    case Some(pair) => Some(pair.0)
  }

  lemma NamedFirst(n: Bytes, rest: Bytes)
    ensures Named(n, rest).Some? ==>
              NameRead(n, rest).Some? && Named(n, rest).value != [] && Named(n, rest).value[0] == Ident(NameRead(n, rest).value)
  {
    LexName(n, rest);
  }

  lemma HeadedName(verb: string, n: Bytes, cs: Bytes, co: Bytes)
    ensures Headed(verb, n, cs, co).Some? ==>
              && NameRead(n, Options(cs, co)).Some? && |Headed(verb, n, cs, co).value| >= 3
              && Headed(verb, n, cs, co).value[2] == Ident(NameRead(n, Options(cs, co)).value)
  {
    NamedFirst(n, Options(cs, co));
  }

  /** The statement, if the text is one, is about the name that is read, for every name and all options. */
  predicate AboutName(r: Option<Stmt>, n: Bytes, rest: Bytes) {
    r.Some? ==> NameRead(n, rest).Some? && (r.value.CreateDatabase? || r.value.AlterDatabase?) && r.value.name == NameRead(n, rest).value
  }

  lemma CreateNames(n: Bytes, cs: Bytes, co: Bytes)
    ensures AboutName(Parse(CreateDatabaseText(n, cs, co)), n, Options(cs, co))
  {
    var text := CreateDatabaseText(n, cs, co);
    DatabaseHead("CREATE", "CREATE DATABASE", "CREATE DATABASE `");
    LexStatement([W("CREATE"), W("DATABASE")], "CREATE DATABASE", n, Options(cs, co), text);
    HeadedTokens("CREATE", n, cs, co);
    HeadedName("CREATE", n, cs, co);
    if Headed("CREATE", n, cs, co).Some? {
      FirstLetters();
      ParsesDatabase(text, Headed("CREATE", n, cs, co).value);
      CreateResult(Headed("CREATE", n, cs, co).value);
    }
  }

  lemma AlterNames(n: Bytes, cs: Bytes, co: Bytes)
    ensures AboutName(Parse(AlterDatabaseText(n, cs, co)), n, Options(cs, co))
  {
    var text := AlterDatabaseText(n, cs, co);
    DatabaseHead("ALTER", "ALTER DATABASE", "ALTER DATABASE `");
    LexStatement([W("ALTER"), W("DATABASE")], "ALTER DATABASE", n, Options(cs, co), text);
    HeadedTokens("ALTER", n, cs, co);
    HeadedName("ALTER", n, cs, co);
    if Headed("ALTER", n, cs, co).Some? {
      FirstLetters();
      ParsesDatabase(text, Headed("ALTER", n, cs, co).value);
      AlterResult(Headed("ALTER", n, cs, co).value);
    }
  }

  /** The options of the statement a live pass sends. */
  function SentOptions(s: Server, d: Database, env: Env): Bytes {
    var d1 := DP.Started(s, d, env);
    if !SchemaSeen(s, d.spec.name, env, 0) then Options(d.spec.characterSet, d.spec.collate)
    else Options(DP.Change(d.spec.characterSet, d1.status.characterSet), DP.Change(d.spec.collate, d1.status.collate))
  }

  /** The name read in the text of a live pass is that of an existing schema not made for this object. */
  predicate NamesOthers(s: Server, k: Key, d: Database, env: Env) {
    var v := NameRead(d.spec.name, SentOptions(s, d, env));
    v.Some? && v.value in s.schemas && s.schemas[v.value].creator != DP.Actor(k, d)
  }

  lemma AboutStraysIff(s: Server, a: Creator, text: Bytes, n: Bytes, rest: Bytes, env: Env)
    requires a.Cr? && AboutName(env.reader(text), n, rest)
    ensures Stray(s, a, text, env) <==>
              env.reader(text).Some? && NameRead(n, rest).value in s.schemas && s.schemas[NameRead(n, rest).value].creator != a
  {
  }

  /** For every name: the text of a live pass is misplaced exactly when it is a statement and names another's schema. */
  lemma LiveMisplacedIff(w: World, k: Key, env: Env)
    requires env.reader == Parse && k in w.databases
    requires var d := w.databases[k]; !d.deleting && d.finalizer && DP.Connected(d, env)
    ensures var d, s := w.databases[k], w.server;
            var text := DP.ConvergeText(s, k, d, env);
            Misplaced(w, ReconcileDatabase(k, env)) <==> text.Some? && Parse(text.value).Some? && NamesOthers(s, k, d, env)
  {
    var d, s := w.databases[k], w.server;
    var d1 := DP.Started(s, d, env);
    var cs, co := DP.Change(d.spec.characterSet, d1.status.characterSet), DP.Change(d.spec.collate, d1.status.collate);
    CreateNames(d.spec.name, d.spec.characterSet, d.spec.collate);
    AlterNames(d.spec.name, cs, co);
    if DP.ConvergeText(s, k, d, env).Some? {
      AboutStraysIff(s, DP.Actor(k, d), DP.ConvergeText(s, k, d, env).value, d.spec.name, SentOptions(s, d, env), env);
    }
  }

  // ---------------------------------------------------------------- every run, for every database name

  /** The server reads with this reader, and what a grant loop may grant is spelled plainly. */
  ghost predicate Spelled(w: World, step: Step) {
    && (step.ReconcileDatabase? || step.ReconcileUser? ==> step.env.reader == Parse)
    && (step.ReconcileUser? && step.key in w.users ==> SpelledLoop(w, step.key, step.env))
  }

  ghost predicate SpelledRun(w: World, steps: seq<Step>)
    decreases |steps|
  {
    steps == [] || (Spelled(w, steps[0]) && SpelledRun(Next(w, steps[0]), steps[1..]))
  }

  /** A database pass whose name reads as that of another's schema. */
  ghost predicate PassNamesOthers(w: World, step: Step) {
    && step.ReconcileDatabase? && step.key in w.databases
    && var d, s, env := w.databases[step.key], w.server, step.env;
       && d.finalizer && DP.Connected(d, env)
       && if d.deleting then DecidesDatabase(s, step.key, d, env, 1) && DropsOthers(s, step.key, d)
          else
            var text := DP.ConvergeText(s, step.key, d, env);
            text.Some? && Parse(text.value).Some? && NamesOthers(s, step.key, d, env)
  }

  /** The three ways in which a pass concerns others: the anonymous account, a database name, a pattern. */
  ghost predicate ConcernsOthers(w: World, step: Step) {
    HitsAnonymous(w, step) || PassNamesOthers(w, step) || LoopCovers(w, step)
  }

  ghost predicate NeverConcerns(w: World, steps: seq<Step>)
    decreases |steps|
  {
    steps == [] || (!ConcernsOthers(w, steps[0]) && NeverConcerns(Next(w, steps[0]), steps[1..]))
  }

  lemma SpelledMisplacedIff(w: World, step: Step)
    requires Inv(w) && Benign(w, step) && Spelled(w, step)
    ensures Misplaced(w, step) <==> PassNamesOthers(w, step) || LoopCovers(w, step)
  {
    if step.ReconcileDatabase? && step.key in w.databases {
      var d := w.databases[step.key];
      if d.finalizer && DP.Connected(d, step.env) {
        if d.deleting {
          DeletionMisplacedIff(w, step.key, step.env);
        } else {
          LiveMisplacedIff(w, step.key, step.env);
        }
      }
    } else if step.ReconcileUser? && step.key in w.users && UP.LoopStart(w, step.key, step.env).Some? {
      var (s1, u1) := UP.LoopStart(w, step.key, step.env).value;
      StartOwns(w, step.key, step.env);
      LoopStraysIff(w, step.key, step.env, s1, u1);
    }
  }

  lemma {:induction false} NeverStraysAsNamed(w: World, steps: seq<Step>)
    requires Inv(w) && BenignRun(w, steps) && SpelledRun(w, steps)
    ensures NeverStrays(w, steps) <==> NeverConcerns(w, steps)
    decreases |steps|
  {
    if steps != [] {
      SpelledMisplacedIff(w, steps[0]);
      if !ConcernsOthers(w, steps[0]) {
        NextInv(w, steps[0]);
        NeverStraysAsNamed(Next(w, steps[0]), steps[1..]);
      }
    }
  }

  /**
   * Over every run with this reader, whatever the databases are called, in which grant loops grant plain
   * words on names without back-tick: every statement keeps to the objects made for its custom resource,
   * or for its namespace, if and only if no pass drops somebody's anonymous account, none sends a text in
   * which the database name reads as that of another's schema, and no grant loop grants on a name that
   * covers one.
   */
  lemma NamedRunsExactly(w: World, steps: seq<Step>)
    requires Initial(w) && BenignRun(w, steps) && SpelledRun(w, steps)
    ensures AllAuthorised(Run(w, steps).server) <==> NeverConcerns(w, steps)
  {
    InitialInv(w);
    NeverStraysAsNamed(w, steps);
    RunAuthorised(w, steps);
  }
}
