/**
 * What the webhook for Database objects (api/v1alpha1/database_webhook.go) decides, in terms of the rows of
 * the server and of the characters of the name.
 */
module Webhook {
  import opened Basics
  import opened Model
  import opened Charsets
  import DC = DatabaseConvergence

  // ---------------------------------------------------------------- character set and collation

  ghost predicate Pairs(row: CollationRow, cs: Bytes, co: Bytes) { row.charset == cs && row.collation == co }

  /** Some row has this character set and collation. */
  ghost predicate Offered(rows: seq<CollationRow>, cs: Bytes, co: Bytes) {
    exists i :: 0 <= i < |rows| && Pairs(rows[i], cs, co)
  }

  /** The first such row is not a default. */
  ghost predicate OfferedFirstAsOther(rows: seq<CollationRow>, cs: Bytes, co: Bytes) {
    exists i :: 0 <= i < |rows| && Pairs(rows[i], cs, co) && !rows[i].isDefault && forall j :: 0 <= j < i ==> !Pairs(rows[j], cs, co)
  }

  /** The verdict for this pair: refused unless offered, with a warning unless the first row that offers it is a default. */
  ghost predicate Judged(v: Verdict, rows: seq<CollationRow>, cs: Bytes, co: Bytes) {
    && (Admits(v) <==> Offered(rows, cs, co))
    && (v.AcceptedNotDefault? <==> OfferedFirstAsOther(rows, cs, co))
    && (v.UnknownCharset? <==> forall i :: 0 <= i < |rows| ==> rows[i].charset != cs)
  }

  lemma {:induction false} FirstRowAt(rows: seq<CollationRow>, cs: Bytes, co: Bytes) returns (i: nat)
    ensures i <= |rows| && (forall j :: 0 <= j < i ==> !Pairs(rows[j], cs, co)) && (i < |rows| ==> Pairs(rows[i], cs, co))
    ensures FirstRow(rows, cs, co) == if i < |rows| then Some(rows[i]) else None
  {
    if rows == [] || Pairs(rows[0], cs, co) {
      i := 0;
    } else {
      var n := FirstRowAt(rows[1..], cs, co);
      i := n + 1;
    }
  }

  lemma FirstRowIs(rows: seq<CollationRow>, cs: Bytes, co: Bytes)
    ensures FirstRow(rows, cs, co).Some? <==> Offered(rows, cs, co)
    ensures FirstRow(rows, cs, co).Some? && !FirstRow(rows, cs, co).value.isDefault <==> OfferedFirstAsOther(rows, cs, co)
  {
    var i := FirstRowAt(rows, cs, co);
  }

  lemma SearchJudges(index: seq<Charset>, rows: seq<CollationRow>, cs: Bytes, co: Bytes)
    requires IsIndex(index, rows)
    ensures Judged(Search(index, cs, co), rows, cs, co)
  {
    SearchAgrees(index, rows, cs, co);
    FirstRowIs(rows, cs, co);
    SearchKnows(index, rows, cs, co);
  }

  lemma SearchKnows(index: seq<Charset>, rows: seq<CollationRow>, cs: Bytes, co: Bytes)
    requires IsIndex(index, rows)
    ensures Search(index, cs, co).UnknownCharset? <==> forall i :: 0 <= i < |rows| ==> rows[i].charset != cs
  {
    if i :| 0 <= i < |index| && index[i].name == cs {
      SearchFinds(index, i, cs, co);
      GroupNonEmpty(rows, cs);
    } else {
      SearchMisses(index, cs, co);
      forall r | 0 <= r < |rows| ensures rows[r].charset != cs {
        assert Lists(index, rows[r].charset);
      }
    }
  }

  lemma {:induction false} GroupNonEmpty(rows: seq<CollationRow>, cs: Bytes)
    ensures Group(rows, cs) != [] ==> exists i :: 0 <= i < |rows| && rows[i].charset == cs
  {
    if rows != [] {
      var n := |rows| - 1;
      GroupNonEmpty(rows[..n], cs);
      if i :| 0 <= i < n && rows[..n][i].charset == cs {
        assert rows[i].charset == cs;
      }
    }
  }

  /**
   * What is looked for is the character set given, or else the server's, with the collation given, or else
   * the server's: for every index of the rows, in each of the four cases.
   */
  lemma CombinationExactly(spec: DatabaseSpec, a: AdminStatus, rows: seq<CollationRow>)
    requires IsIndex(a.availableCharsets, rows) && spec.connection != []
    ensures var v := ValidateCombination(spec, Found(a));
            && (spec.characterSet != [] && spec.collate != [] ==> Judged(v, rows, spec.characterSet, spec.collate))
            && (spec.characterSet != [] && spec.collate == [] ==> Judged(v, rows, spec.characterSet, a.collation))
            && (spec.characterSet == [] && spec.collate != [] ==> Judged(v, rows, a.characterSet, spec.collate))
            && (spec.characterSet == [] && spec.collate == [] ==> Judged(v, rows, a.characterSet, a.collation))
  {
    var cs := if spec.characterSet != [] then spec.characterSet else a.characterSet;
    var co := if spec.collate != [] then spec.collate else a.collation;
    SearchJudges(a.availableCharsets, rows, cs, co);
  }

  /** Without a connection nothing is checked but the name; with one that cannot be fetched nothing is admitted. */
  lemma WithoutStatus(spec: DatabaseSpec, c: Connection)
    ensures spec.connection == [] ==> ValidateCombination(spec, c) == Accepted
    ensures spec.connection != [] ==> !Admits(ValidateCombination(spec, Unavailable))
  {
  }

  // ---------------------------------------------------------------- admitted and what the server can do

  /** The rows are all the server's. */
  ghost predicate AllRows(c: Catalog, rows: seq<CollationRow>) {
    && DC.CatalogMatches(c, rows)
    && forall co :: co in c.charsetOf ==> Offered(rows, c.charsetOf[co], co)
  }

  lemma OfferedIff(c: Catalog, rows: seq<CollationRow>, cs: Bytes, co: Bytes)
    requires AllRows(c, rows)
    ensures Offered(rows, cs, co) <==> co in c.charsetOf && c.charsetOf[co] == cs
  {
  }

  /**
   * Of the specifications the server could carry out, with its defaults published: all that give both or
   * neither are admitted, but one that gives only a character set, or only a collation, exactly when that is
   * of the server's own character set.
   */
  lemma CompatibleAdmittedIff(c: Catalog, spec: DatabaseSpec, a: AdminStatus, rows: seq<CollationRow>)
    requires IsIndex(a.availableCharsets, rows) && AllRows(c, rows) && DC.DefaultsOk(c)
    requires a.characterSet == c.characterSet && a.collation == c.collation
    requires spec.connection != [] && DC.Compatible(c, spec)
    ensures Admits(ValidateCombination(spec, Found(a))) <==>
              && (spec.characterSet != [] && spec.collate == [] ==> spec.characterSet == c.characterSet)
              && (spec.characterSet == [] && spec.collate != [] ==> c.charsetOf[spec.collate] == c.characterSet)
  {
    CombinationExactly(spec, a, rows);
    var cs := if spec.characterSet != [] then spec.characterSet else a.characterSet;
    var co := if spec.collate != [] then spec.collate else a.collation;
    OfferedIff(c, rows, cs, co);
  }

  // ---------------------------------------------------------------- names

  /** A character in UTF-8, section 3 of RFC 3629. */
  function Utf8(c: nat): Bytes
    requires c < 0x110000
  {
    if c < 0x80 then [c as byte]
    else if c < 0x800 then [(0xC0 + c / 64) as byte, (0x80 + c % 64) as byte]
    else if c < 0x10000 then [(0xE0 + c / 4096) as byte, (0x80 + c / 64 % 64) as byte, (0x80 + c % 64) as byte]
    else [(0xF0 + c / 262144) as byte, (0x80 + c / 4096 % 64) as byte, (0x80 + c / 64 % 64) as byte, (0x80 + c % 64) as byte]
  }

  predicate Characters(cs: seq<nat>) { forall i :: 0 <= i < |cs| ==> cs[i] < 0x110000 }

  function Encoded(cs: seq<nat>): Bytes
    requires Characters(cs)
  {
    if cs == [] then [] else Utf8(cs[0]) + Encoded(cs[1..])
  }

  /** Backslash, slash, question mark, percent, asterisk, colon, bar, double quote, less, greater and full stop. */
  predicate KeptOut(c: nat) { c in {92, 47, 63, 37, 42, 58, 124, 34, 60, 62, 46} }

  /** One to 64 characters, none of them kept out. */
  ghost predicate Admissible(cs: seq<nat>) {
    1 <= |cs| <= 64 && forall i :: 0 <= i < |cs| ==> !KeptOut(cs[i])
  }

  lemma ExcludedIs(b: byte)
    ensures b in EXCLUDED <==> KeptOut(b as nat)
  {
    var s := "\\/?%*:|\"<>.";
    assert EXCLUDED == Ascii(s) && |s| == 11;
    assert s[0] == 92 as char && s[1] == 47 as char && s[2] == 63 as char && s[3] == 37 as char;
    assert s[4] == 42 as char && s[5] == 58 as char && s[6] == 124 as char && s[7] == 34 as char;
    assert s[8] == 60 as char && s[9] == 62 as char && s[10] == 46 as char;
    assert EXCLUDED == [92, 47, 63, 37, 42, 58, 124, 34, 60, 62, 46];
  }

  lemma {:induction false} CodePointsConcat(a: Bytes, b: Bytes)
    ensures CodePoints(a + b) == CodePoints(a) + CodePoints(b)
  {
    if a == [] {
      assert a + b == b;
    } else {
      assert (a + b)[1..] == a[1..] + b;
      CodePointsConcat(a[1..], b);
    }
  }

  lemma OneCharacter(c: nat)
    requires c < 0x110000
    ensures CodePoints(Utf8(c)) == 1
    ensures (forall i :: 0 <= i < |Utf8(c)| ==> Utf8(c)[i] !in EXCLUDED) <==> !KeptOut(c)
  {
    var u := Utf8(c);
    ManyBytes(u);
    forall i | 0 <= i < |u| ensures u[i] in EXCLUDED <==> KeptOut(u[i] as nat) {
      ExcludedIs(u[i]);
    }
    if c < 0x80 {
      assert u[0] as nat == c;
    }
  }

  lemma ManyBytes(u: Bytes)
    requires 1 <= |u| <= 4 && !(128 <= u[0] < 192) && forall i :: 1 <= i < |u| ==> 128 <= u[i] < 192
    ensures CodePoints(u) == 1
  {
    assert CodePoints(u[|u|..]) == 0;
    if |u| > 1 { assert CodePoints(u[1..]) == CodePoints(u[1..][1..]); }
    if |u| > 2 { assert u[1..][1..] == u[2..] && CodePoints(u[2..]) == CodePoints(u[2..][1..]); }
    if |u| > 3 { assert u[2..][1..] == u[3..] && CodePoints(u[3..]) == CodePoints(u[3..][1..]); }
  }

  lemma {:induction false} EncodedCounts(cs: seq<nat>)
    requires Characters(cs)
    ensures CodePoints(Encoded(cs)) == |cs|
    ensures (forall i :: 0 <= i < |Encoded(cs)| ==> Encoded(cs)[i] !in EXCLUDED) <==> forall i :: 0 <= i < |cs| ==> !KeptOut(cs[i])
  {
    if cs != [] {
      var u, rest := Utf8(cs[0]), Encoded(cs[1..]);
      OneCharacter(cs[0]);
      EncodedCounts(cs[1..]);
      CodePointsConcat(u, rest);
      NoneIn(u, rest);
      assert cs == [cs[0]] + cs[1..];
    }
  }

  lemma NoneIn(a: Bytes, b: Bytes)
    ensures (forall i :: 0 <= i < |a + b| ==> (a + b)[i] !in EXCLUDED) <==>
              (forall i :: 0 <= i < |a| ==> a[i] !in EXCLUDED) && (forall i :: 0 <= i < |b| ==> b[i] !in EXCLUDED)
  {
    assert forall i :: 0 <= i < |a| ==> a[i] == (a + b)[i];
    assert forall i :: 0 <= i < |b| ==> b[i] == (a + b)[|a| + i];
  }

  lemma NameOkExactly(cs: seq<nat>)
    requires Characters(cs)
    ensures NameOk(Encoded(cs)) <==> Admissible(cs)
  {
    EncodedCounts(cs);
  }

  /** The search for a combination never objects to the name. */
  lemma {:induction false} SearchIgnoresName(index: seq<Charset>, cs: Bytes, co: Bytes)
    ensures !Search(index, cs, co).BadName?
  {
    if index != [] {
      SearchIgnoresName(index[1..], cs, co);
    }
  }

  /** A name is refused exactly when it is not of 1 to 64 characters without any of the eleven. */
  lemma NamesAdmittedExactly(cs: seq<nat>, spec: DatabaseSpec, c: Connection)
    requires Characters(cs) && spec.name == Encoded(cs)
    ensures ValidateCreate(spec, c).BadName? <==> !Admissible(cs)
    ensures Admissible(cs) ==> ValidateCreate(spec, c) == ValidateCombination(spec, c)
  {
    if c.Found? {
      var a := c.status;
      SearchIgnoresName(a.availableCharsets, Effective(spec.characterSet, a.characterSet), Effective(spec.collate, a.collation));
    }
    NameOkExactly(cs);
  }

  /** An edit is refused for its name if and only if it changes that; else the combination decides. */
  lemma EditsAdmittedExactly(current: DatabaseSpec, spec: DatabaseSpec, c: Connection)
    ensures ValidateUpdate(current, spec, c) == if spec.name == current.name then ValidateCombination(spec, c) else NameChanged
  {
  }
}
