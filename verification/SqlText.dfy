/**
 * Escaping (api/v1alpha1/common.go) and the lexical rules of the MySQL 8.0 Reference Manual a statement
 * text is read by: string literals with backslash escapes enabled (section 11.1.1), quoted identifiers
 * (section 11.2) and comments to the end of the line (section 11.7).
 */
module SqlText {
  import opened Basics

  const NUL: byte := 0
  const BACKSPACE: byte := 8
  const TAB: byte := 9
  const NEWLINE: byte := 10
  const RETURN: byte := 13
  const CTRL_Z: byte := 26
  const SPACE: byte := 32
  const DOUBLE_QUOTE: byte := 34
  const HASH: byte := 35
  const PERCENT: byte := 37
  const QUOTE: byte := 39
  const STAR: byte := 42
  const COMMA: byte := 44
  const DASH: byte := 45
  const DOT: byte := 46
  const SEMICOLON: byte := 59
  const BACKSLASH: byte := 92
  const UNDERSCORE: byte := 95
  const BACKTICK: byte := 96

  // ---------------------------------------------------------------- writing literals

  /** The letter that follows the backslash, or zero for a byte that is copied. */
  function EscapeLetter(c: byte): byte {
    if c == NUL then 48
    else if c == NEWLINE then 110
    else if c == RETURN then 114
    else if c == BACKSLASH then BACKSLASH
    else if c == QUOTE then QUOTE
    else if c == DOUBLE_QUOTE then DOUBLE_QUOTE
    else if c == CTRL_Z then 90
    else 0
  }

  function EscapeByte(c: byte): (r: Bytes) {
    if EscapeLetter(c) != 0 then [BACKSLASH, EscapeLetter(c)] else [c]
  }

  function Escaped(s: Bytes): Bytes {
    if s == [] then [] else EscapeByte(s[0]) + Escaped(s[1..])
  }

  lemma EscapedStep(dest: Bytes, sql: Bytes, i: nat)
    requires i < |sql|
    ensures dest + Escaped(sql[i..]) == (dest + EscapeByte(sql[i])) + Escaped(sql[i + 1..])
  {
    assert sql[i..][1..] == sql[i + 1..];
  }

  method Escape(sql: Bytes) returns (dest: Bytes)
    ensures dest == Escaped(sql)
  {
    dest := [];
    var i := 0;
    while i < |sql|
      invariant 0 <= i <= |sql|
      invariant dest + Escaped(sql[i..]) == Escaped(sql)
    {
      var c := sql[i];
      var escape: byte := 0;
      match c {
        case 0 => escape := 48;
        case 10 => escape := 110;
        case 13 => escape := 114;
        case 92 => escape := 92;
        case 39 => escape := 39;
        case 34 => escape := 34;
        case 26 => escape := 90;
        case _ =>
      }
      EscapedStep(dest, sql, i);
      if escape != 0 {
        dest := dest + [BACKSLASH, escape];
      } else {
        dest := dest + [c];
      }
      i := i + 1;
    }
    assert sql[i..] == [];
    assert dest + [] == dest;
  }

  /** NUL, newline, carriage return, backslash, both quotes and Control-Z, each with the letter that stands for it. */
  predicate WrittenAs(c: byte, letter: byte) {
    (c, letter) in {(0, 48), (10, 110), (13, 114), (92, 92), (39, 39), (34, 34), (26, 90)}
  }

  /** Each byte is written on its own: one of the seven as a backslash and its letter, any other as itself. */
  lemma {:induction false} EscapedExactly(a: Bytes, c: byte)
    ensures forall letter :: WrittenAs(c, letter) ==> Escaped(a + [c]) == Escaped(a) + [BACKSLASH, letter]
    ensures (forall letter :: !WrittenAs(c, letter)) ==> Escaped(a + [c]) == Escaped(a) + [c]
    ensures Escaped([]) == []
  {
    if a == [] {
      EscapedOne(c);
      assert a + [c] == [c];
    } else {
      EscapedExactly(a[1..], c);
      assert (a + [c])[1..] == a[1..] + [c];
    }
  }

  lemma EscapedOne(c: byte)
    ensures forall letter :: WrittenAs(c, letter) ==> Escaped([c]) == [BACKSLASH, letter]
    ensures (forall letter :: !WrittenAs(c, letter)) ==> Escaped([c]) == [c]
  {
    assert [c][1..] == [];
    assert Escaped([c]) == EscapeByte(c) + Escaped([]);
    assert EscapeLetter(c) != 0 ==> WrittenAs(c, EscapeLetter(c));
  }

  /** Escaping never hides a non-empty value: emptiness tests before and after it agree. */
  lemma EscapedEmpty(s: Bytes)
    ensures Escaped(s) == [] <==> s == []
  {
    if s != [] {
      assert |EscapeByte(s[0])| > 0;
    }
  }

  // ---------------------------------------------------------------- reading literals

  /** What a backslash sequence denotes, given the byte after the backslash. */
  function Unescape(c: byte): Bytes {
    if c == 48 then [NUL]
    else if c == 98 then [BACKSPACE]
    else if c == 110 then [NEWLINE]
    else if c == 114 then [RETURN]
    else if c == 116 then [TAB]
    else if c == 90 then [CTRL_Z]
    else if c == PERCENT || c == UNDERSCORE then [BACKSLASH, c]
    else [c]
  }

  /** Reads a literal whose opening quote `q` is already consumed: its value and what follows it. */
  function ReadLiteral(t: Bytes, q: byte): (r: Option<(Bytes, Bytes)>)
    ensures r.Some? ==> |r.value.1| < |t|
  {
    if t == [] then None
    else if t[0] == BACKSLASH then
      if |t| == 1 then None
      else Prepend(Unescape(t[1]), ReadLiteral(t[2..], q))
    else if t[0] == q then
      if |t| > 1 && t[1] == q then Prepend([q], ReadLiteral(t[2..], q))
      else Some(([], t[1..]))
    else Prepend([t[0]], ReadLiteral(t[1..], q))
  }

  function Prepend(p: Bytes, r: Option<(Bytes, Bytes)>): Option<(Bytes, Bytes)> {
    match r
    case None => None
    case Some(pair) => Some((p + pair.0, pair.1))
  }

  /** The reader undoes `Escape` and stops exactly at the closing quote, whatever bytes surround it. */
  lemma {:induction false} ReadEscaped(s: Bytes, rest: Bytes)
    requires rest == [] || rest[0] != QUOTE
    ensures ReadLiteral(Escaped(s) + [QUOTE] + rest, QUOTE) == Some((s, rest))
  {
    if s == [] {
      assert ([QUOTE] + rest)[1..] == rest;
      assert Escaped(s) + [QUOTE] + rest == [QUOTE] + rest;
    } else {
      var tail := Escaped(s[1..]) + [QUOTE] + rest;
      assert Escaped(s) + [QUOTE] + rest == EscapeByte(s[0]) + tail;
      ReadEscaped(s[1..], rest);
      assert [s[0]] + s[1..] == s;
      if EscapeLetter(s[0]) != 0 {
        assert ([BACKSLASH, EscapeLetter(s[0])] + tail)[2..] == tail;
        assert Unescape(EscapeLetter(s[0])) == [s[0]];
      } else {
        assert ([s[0]] + tail)[1..] == tail;
      }
    }
  }

  /** A quote right after the closing quote would be read as part of the value: the side condition is needed. */
  lemma {:induction false} ReadEscapedThenQuote(s: Bytes, rest: Bytes)
    requires rest != [] && rest[0] == QUOTE
    ensures ReadLiteral(Escaped(s) + [QUOTE] + rest, QUOTE) == Prepend(s + [QUOTE], ReadLiteral(rest[1..], QUOTE))
  {
    if s == [] {
      var t := [QUOTE] + rest;
      assert Escaped(s) + [QUOTE] + rest == t;
      assert t[2..] == rest[1..];
      assert s + [QUOTE] == [QUOTE];
    } else {
      var tail := Escaped(s[1..]) + [QUOTE] + rest;
      assert Escaped(s) + [QUOTE] + rest == EscapeByte(s[0]) + tail;
      ReadEscapedThenQuote(s[1..], rest);
      assert [s[0]] + (s[1..] + [QUOTE]) == s + [QUOTE];
      PrependTwice([s[0]], s[1..] + [QUOTE], ReadLiteral(rest[1..], QUOTE));
      if EscapeLetter(s[0]) != 0 {
        assert ([BACKSLASH, EscapeLetter(s[0])] + tail)[2..] == tail;
        assert Unescape(EscapeLetter(s[0])) == [s[0]];
      } else {
        assert ([s[0]] + tail)[1..] == tail;
      }
    }
  }

  lemma PrependTwice(p: Bytes, q: Bytes, r: Option<(Bytes, Bytes)>)
    ensures Prepend(p, Prepend(q, r)) == Prepend(p + q, r)
  {
    if r.Some? {
      assert p + (q + r.value.0) == (p + q) + r.value.0;
    }
  }

  // ---------------------------------------------------------------- quoted identifiers

  /** Reads an identifier whose opening back-tick is already consumed; a doubled back-tick stands for one. */
  function ReadIdent(t: Bytes): (r: Option<(Bytes, Bytes)>)
    ensures r.Some? ==> |r.value.1| < |t|
  {
    if t == [] then None
    else if t[0] == BACKTICK then
      if |t| > 1 && t[1] == BACKTICK then Prepend([BACKTICK], ReadIdent(t[2..]))
      else Some(([], t[1..]))
    else Prepend([t[0]], ReadIdent(t[1..]))
  }

  /** A name that can be put between back-ticks as it is. */
  predicate Quotable(n: Bytes) {
    BACKTICK !in n
  }

  lemma {:induction false} ReadQuotable(n: Bytes, rest: Bytes)
    requires Quotable(n) && (rest == [] || rest[0] != BACKTICK)
    ensures ReadIdent(n + [BACKTICK] + rest) == Some((n, rest))
  {
    if n == [] {
      assert n + [BACKTICK] + rest == [BACKTICK] + rest;
    } else {
      assert n[0] in n;
      assert (n + [BACKTICK] + rest)[1..] == n[1..] + [BACKTICK] + rest;
      ReadQuotable(n[1..], rest);
      assert [n[0]] + n[1..] == n;
    }
  }

  /** How a name has to be written between back-ticks. */
  function Doubled(n: Bytes): Bytes {
    if n == [] then [] else (if n[0] == BACKTICK then [BACKTICK, BACKTICK] else [n[0]]) + Doubled(n[1..])
  }

  /** Whatever is read was written with its back-ticks doubled. */
  lemma {:induction false} ReadWasDoubled(t: Bytes)
    requires ReadIdent(t).Some?
    ensures var (v, r) := ReadIdent(t).value;
            t == Doubled(v) + [BACKTICK] + r && (r == [] || r[0] != BACKTICK)
    decreases |t|
  {
    var (v, r) := ReadIdent(t).value;
    if t[0] == BACKTICK {
      if |t| > 1 && t[1] == BACKTICK {
        ReadWasDoubled(t[2..]);
        var v' := ReadIdent(t[2..]).value.0;
        assert v == [BACKTICK] + v' && v[1..] == v';
        assert t == [BACKTICK, BACKTICK] + t[2..];
      } else {
        assert t == [BACKTICK] + t[1..];
      }
    } else {
      ReadWasDoubled(t[1..]);
      var v' := ReadIdent(t[1..]).value.0;
      assert v == [t[0]] + v' && v[1..] == v';
      assert t == [t[0]] + t[1..];
    }
  }

  function Ticks(j: nat): Bytes { seq(j, i => BACKTICK) }

  /** A name cannot be shifted against its own doubled form by one back-tick or more. */
  lemma {:induction false} NoShift(b: Bytes, rest: Bytes, r: Bytes, j: nat)
    requires j >= 1 && (rest == [] || rest[0] != BACKTICK)
    ensures b + [BACKTICK] + rest != Ticks(j) + Doubled(b) + [BACKTICK] + r
    decreases |b|
  {
    var left, right := b + [BACKTICK] + rest, Ticks(j) + Doubled(b) + [BACKTICK] + r;
    assert right[0] == BACKTICK;
    if b == [] {
      assert left == [BACKTICK] + rest;
      assert right == Ticks(j) + ([BACKTICK] + r) && right[1] == BACKTICK;
      assert |left| > 1 ==> left[1] == rest[0];
    } else if b[0] == BACKTICK {
      assert left[1..] == b[1..] + [BACKTICK] + rest;
      assert Doubled(b) == [BACKTICK, BACKTICK] + Doubled(b[1..]);
      assert right[1..] == Ticks(j + 1) + Doubled(b[1..]) + [BACKTICK] + r;
      NoShift(b[1..], rest, r, j + 1);
    } else {
      assert left[0] == b[0];
    }
  }

  lemma {:induction false} NotItself(n: Bytes, rest: Bytes, r: Bytes)
    requires !Quotable(n) && (rest == [] || rest[0] != BACKTICK)
    ensures n + [BACKTICK] + rest != Doubled(n) + [BACKTICK] + r
    decreases |n|
  {
    var left, right := n + [BACKTICK] + rest, Doubled(n) + [BACKTICK] + r;
    if n[0] == BACKTICK {
      NoShift(n[1..], rest, r, 1);
      assert left[1..] == n[1..] + [BACKTICK] + rest;
      assert Doubled(n) == [BACKTICK] + (Ticks(1) + Doubled(n[1..]));
      assert right[1..] == Ticks(1) + Doubled(n[1..]) + [BACKTICK] + r;
    } else {
      assert n == [n[0]] + n[1..];
      assert !Quotable(n[1..]);
      NotItself(n[1..], rest, r);
      assert left[1..] == n[1..] + [BACKTICK] + rest;
      assert right[1..] == Doubled(n[1..]) + [BACKTICK] + r;
    }
  }

  /** Between bare back-ticks a name is read back exactly when it holds no back-tick itself. */
  lemma ReadBareName(n: Bytes, rest: Bytes)
    requires rest == [] || rest[0] != BACKTICK
    ensures Quotable(n) <==> ReadIdent(n + [BACKTICK] + rest).Some? && ReadIdent(n + [BACKTICK] + rest).value.0 == n
    ensures Quotable(n) ==> ReadIdent(n + [BACKTICK] + rest).value.1 == rest
  {
    if Quotable(n) {
      ReadQuotable(n, rest);
    } else if ReadIdent(n + [BACKTICK] + rest).Some? {
      ReadWasDoubled(n + [BACKTICK] + rest);
      NotItself(n, rest, ReadIdent(n + [BACKTICK] + rest).value.1);
    }
  }

  // ---------------------------------------------------------------- tokens

  /** `AllOf` is the `.*` that follows a database name. */
  datatype Token = Word(spelling: Bytes) | Str(value: Bytes) | Ident(name: Bytes) | Comma | AllOf

  function W(s: string): Token { Word(Ascii(s)) }

  function Render(t: Token): Bytes {
    match t
    case Word(w) => w
    case Str(s) => [QUOTE] + Escaped(s) + [QUOTE]
    case Ident(n) => [BACKTICK] + n + [BACKTICK]
    case Comma => [COMMA]
    case AllOf => [DOT, STAR]
  }

  /** A comma and the `.*` after an identifier follow without a space. */
  predicate Glued(t: Token) {
    t.Comma? || t.AllOf?
  }

  function Spaced(t: Token): Bytes {
    if Glued(t) then Render(t) else [SPACE] + Render(t)
  }

  /** The tokens in a row, each but the glued ones preceded by one space. */
  function Tail(ts: seq<Token>): Bytes {
    if ts == [] then [] else Spaced(ts[0]) + Tail(ts[1..])
  }

  lemma {:induction false} TailConcat(a: seq<Token>, b: seq<Token>)
    ensures Tail(a + b) == Tail(a) + Tail(b)
  {
    if a == [] {
      assert a + b == b;
    } else {
      assert (a + b)[1..] == a[1..] + b;
      TailConcat(a[1..], b);
    }
  }

  // ---------------------------------------------------------------- splitting a text into tokens

  predicate IsSpace(c: byte) {
    c == SPACE || 9 <= c <= 13
  }

  /** The bytes that end a bare word. */
  predicate IsDelimiter(c: byte) {
    || IsSpace(c) || c == QUOTE || c == DOUBLE_QUOTE || c == BACKTICK || c == HASH || c == COMMA || c == SEMICOLON
  }

  /** Letters, digits, underscore, dot and star: no delimiter and no start of a comment. */
  predicate IsWordByte(c: byte) {
    || 48 <= c <= 57 || 65 <= c <= 90 || 97 <= c <= 122 || c == UNDERSCORE || c == DOT || c == STAR
  }

  function WordLength(t: Bytes): (n: nat)
    ensures n <= |t|
    ensures t != [] && !IsDelimiter(t[0]) ==> n > 0
  {
    if t == [] || IsDelimiter(t[0]) then 0 else 1 + WordLength(t[1..])
  }

  /** What follows the end of the line. */
  function AfterLine(t: Bytes): (r: Bytes)
    ensures |r| <= |t|
  {
    if t == [] then [] else if t[0] == NEWLINE then t[1..] else AfterLine(t[1..])
  }

  predicate StartsComment(t: Bytes) {
    t != [] && (t[0] == HASH || (|t| >= 2 && t[0] == DASH && t[1] == DASH && (|t| == 2 || t[2] <= SPACE)))
  }

  /**
   * Splits a statement into words, literals, identifiers and commas; adjacent literals are one value.
   * One statement is read: after a semicolon only blanks and comments may follow.
   */
  function Lex(t: Bytes): Option<seq<Token>>
    decreases |t|
  {
    if t == [] then Some([])
    else if IsSpace(t[0]) then Lex(t[1..])
    else if StartsComment(t) then Lex(AfterLine(t[1..]))
    else if t[0] == QUOTE || t[0] == DOUBLE_QUOTE then
      match ReadLiteral(t[1..], t[0])
      case None => None
      case Some(pair) => AddLiteral(pair.0, Lex(pair.1))
    else if t[0] == BACKTICK then
      match ReadIdent(t[1..])
      case None => None
      case Some(pair) => AddToken(Ident(pair.0), Lex(pair.1))
    else if t[0] == COMMA then AddToken(Comma, Lex(t[1..]))
    else if t[0] == SEMICOLON then
      if Lex(t[1..]) == Some([]) then Some([]) else None
    else AddToken(WordToken(t[..WordLength(t)]), Lex(t[WordLength(t)..]))
  }

  function WordToken(w: Bytes): Token {
    if w == [DOT, STAR] then AllOf else Word(w)
  }

  function AddToken(t: Token, r: Option<seq<Token>>): Option<seq<Token>> {
    match r
    case None => None
    case Some(ts) => Some([t] + ts)
  }

  function AddLiteral(s: Bytes, r: Option<seq<Token>>): Option<seq<Token>> {
    match r
    case None => None
    case Some(ts) =>
      if ts != [] && ts[0].Str? then Some([Str(s + ts[0].value)] + ts[1..]) else Some([Str(s)] + ts)
  }

  predicate TokenOk(t: Token) {
    match t
    case Word(w) => w != [] && w != [DOT, STAR] && forall i :: 0 <= i < |w| ==> IsWordByte(w[i])
    case Ident(n) => Quotable(n)
    case _ => true
  }

  /** Two neighbours that stay apart in the text. */
  predicate Apart(a: Token, b: Token) {
    && (a.Str? ==> !b.Str?)
    && (b.AllOf? ==> a.Str? || a.Ident?)
  }

  ghost predicate Lexical(ts: seq<Token>) {
    && (forall i :: 0 <= i < |ts| ==> TokenOk(ts[i]))
    && (forall i :: 0 <= i < |ts| - 1 ==> Apart(ts[i], ts[i + 1]))
  }

  lemma {:induction false} WordLengthOf(w: Bytes, rest: Bytes)
    requires forall i :: 0 <= i < |w| ==> IsWordByte(w[i])
    requires rest == [] || IsDelimiter(rest[0])
    ensures WordLength(w + rest) == |w|
  {
    if w == [] {
      assert w + rest == rest;
    } else {
      assert (w + rest)[0] == w[0];
      assert (w + rest)[1..] == w[1..] + rest;
      WordLengthOf(w[1..], rest);
    }
  }

  lemma LexWord(w: Bytes, rest: Bytes)
    requires w != [] && forall i :: 0 <= i < |w| ==> IsWordByte(w[i])
    requires rest == [] || IsDelimiter(rest[0])
    ensures Lex(w + rest) == AddToken(WordToken(w), Lex(rest))
  {
    var t := w + rest;
    WordLengthOf(w, rest);
    assert t[0] == w[0];
    assert t[|w|..] == rest && t[..|w|] == w;
  }

  lemma LexLiteral(s: Bytes, rest: Bytes)
    requires rest == [] || rest[0] != QUOTE
    ensures Lex([QUOTE] + Escaped(s) + [QUOTE] + rest) == AddLiteral(s, Lex(rest))
  {
    var t := [QUOTE] + Escaped(s) + [QUOTE] + rest;
    assert t[1..] == Escaped(s) + [QUOTE] + rest;
    ReadEscaped(s, rest);
  }

  /** A name between bare back-ticks, whatever it holds. */
  lemma LexName(n: Bytes, rest: Bytes)
    ensures Lex([BACKTICK] + n + [BACKTICK] + rest) ==
            match ReadIdent(n + [BACKTICK] + rest)
            case None => None
            case Some(pair) => AddToken(Ident(pair.0), Lex(pair.1))
  {
    assert ([BACKTICK] + n + [BACKTICK] + rest)[1..] == n + [BACKTICK] + rest;
  }

  lemma LexSpace(t: Bytes)
    ensures Lex([SPACE] + t) == Lex(t)
  {
    assert ([SPACE] + t)[1..] == t;
  }

  lemma LexComma(t: Bytes)
    ensures Lex([COMMA] + t) == AddToken(Comma, Lex(t))
  {
    assert ([COMMA] + t)[1..] == t;
  }

  lemma LexSpaced(t: Token, rest: Bytes)
    ensures Lex(Spaced(t) + rest) == Lex(Render(t) + rest)
  {
    if !Glued(t) {
      LexSpace(Render(t) + rest);
      assert [SPACE] + Render(t) + rest == [SPACE] + (Render(t) + rest);
    }
  }

  /** One token in front of a text that starts a new one. */
  lemma LexToken(t: Token, rest: Bytes)
    requires TokenOk(t)
    requires rest == [] || rest[0] == SPACE || rest[0] == COMMA || (rest[0] == DOT && (t.Str? || t.Ident?))
    requires t.Str? ==> Lex(rest).Some? && (Lex(rest).value == [] || !Lex(rest).value[0].Str?)
    ensures Lex(Spaced(t) + rest) == AddToken(t, Lex(rest))
  {
    LexSpaced(t, rest);
    match t
    case Word(w) =>
      LexWord(w, rest);
    case Str(s) =>
      LexLiteral(s, rest);
      assert Render(t) + rest == [QUOTE] + Escaped(s) + [QUOTE] + rest;
    case Ident(n) =>
      LexName(n, rest);
      ReadBareName(n, rest);
    case Comma =>
      LexComma(rest);
    case AllOf =>
      LexWord([DOT, STAR], rest);
  }

  lemma TailStart(ts: seq<Token>)
    ensures ts == [] ==> Tail(ts) == []
    ensures ts != [] ==> Tail(ts) != [] && Tail(ts)[0] == if ts[0].Comma? then COMMA else if ts[0].AllOf? then DOT else SPACE
  {
  }

  /** Printing a list of tokens and splitting the text again gives the same tokens. */
  lemma {:induction false} LexTail(ts: seq<Token>)
    requires Lexical(ts)
    ensures Lex(Tail(ts)) == Some(ts)
  {
    if ts != [] {
      var first, others := ts[0], ts[1..];
      assert ts == [first] + others;
      assert TokenOk(first) && (others != [] ==> others[0] == ts[1] && Apart(first, others[0]));
      assert Lexical(others) by {
        assert forall i :: 0 <= i < |others| ==> others[i] == ts[i + 1];
      }
      LexTail(others);
      TailStart(others);
      LexToken(first, Tail(others));
    }
  }

  ghost predicate WordsOnly(ts: seq<Token>) {
    forall i :: 0 <= i < |ts| ==> TokenOk(ts[i]) && (ts[i].Word? || ts[i].Comma?)
  }

  function AddTokens(ts: seq<Token>, r: Option<seq<Token>>): Option<seq<Token>> {
    match r
    case None => None
    case Some(more) => Some(ts + more)
  }

  lemma AddTokensStep(ts: seq<Token>, r: Option<seq<Token>>)
    requires ts != []
    ensures AddTokens(ts, r) == AddToken(ts[0], AddTokens(ts[1..], r))
  {
    if r.Some? {
      assert ts + r.value == [ts[0]] + (ts[1..] + r.value);
    }
  }

  lemma TailStep(ts: seq<Token>, rest: Bytes)
    requires ts != []
    ensures Tail(ts) + rest == Spaced(ts[0]) + (Tail(ts[1..]) + rest)
  {
  }

  /** Words and commas in front of any text that starts with a space: they are split off, the rest is read on its own. */
  lemma {:induction false} LexPrefix(ts: seq<Token>, rest: Bytes)
    requires WordsOnly(ts) && rest != [] && rest[0] == SPACE
    ensures Lex(Tail(ts) + rest) == AddTokens(ts, Lex(rest))
  {
    if ts == [] {
      assert Tail(ts) + rest == rest;
      assert Lex(rest).Some? ==> [] + Lex(rest).value == Lex(rest).value;
    } else {
      var others := ts[1..];
      LexPrefix(others, rest);
      TailStart(others);
      TailStep(ts, rest);
      var after := Tail(others) + rest;
      assert after[0] == SPACE || after[0] == COMMA by {
        assert others != [] ==> after[0] == Tail(others)[0] && others[0] == ts[1];
        assert others == [] ==> after == rest;
      }
      LexToken(ts[0], after);
      AddTokensStep(ts, Lex(rest));
    }
  }
}
