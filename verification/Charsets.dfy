/**
 * The charset index an admin connection publishes (controllers/adminconnection_controller.go) and the
 * webhook that searches it (api/v1alpha1/database_webhook.go).
 */
module Charsets {
  import opened Basics
  import opened Model

  /** One row of SHOW COLLATION. */
  datatype CollationRow = CollationRow(collation: Bytes, charset: Bytes, isDefault: bool)

  datatype Collation = Collation(name: Bytes, isDefault: bool)

  datatype Charset = Charset(name: Bytes, collations: seq<Collation>)

  // ---------------------------------------------------------------- building the index

  /** The collations of one character set, in row order. */
  function Group(rows: seq<CollationRow>, cs: Bytes): seq<Collation> {
    if rows == [] then []
    else if rows[|rows| - 1].charset == cs then
      Group(rows[..|rows| - 1], cs) + [Collation(rows[|rows| - 1].collation, rows[|rows| - 1].isDefault)]
    else Group(rows[..|rows| - 1], cs)
  }

  ghost predicate Lists(index: seq<Charset>, cs: Bytes) {
    exists i :: 0 <= i < |index| && index[i].name == cs
  }

  /** One entry per character set of the rows, in any order, holding exactly that set's group. */
  ghost predicate IsIndex(index: seq<Charset>, rows: seq<CollationRow>) {
    && (forall i, j :: 0 <= i < j < |index| ==> index[i].name != index[j].name)
    && (forall i :: 0 <= i < |index| ==> index[i].collations == Group(rows, index[i].name) && index[i].collations != [])
    && (forall r :: 0 <= r < |rows| ==> Lists(index, rows[r].charset))
  }

  lemma GroupStep(rows: seq<CollationRow>, i: nat, cs: Bytes)
    requires i < |rows|
    ensures Group(rows[..i + 1], cs) ==
            if rows[i].charset == cs then Group(rows[..i], cs) + [Collation(rows[i].collation, rows[i].isDefault)]
            else Group(rows[..i], cs)
  {
    assert rows[..i + 1][..i] == rows[..i];
  }

  /** The map is the grouping of the first rows. */
  ghost predicate Sorted(sorted: map<Bytes, seq<Collation>>, rows: seq<CollationRow>) {
    && (forall cs :: cs in sorted ==> sorted[cs] == Group(rows, cs) && sorted[cs] != [])
    && (forall cs :: cs !in sorted ==> Group(rows, cs) == [])
    && (forall r :: 0 <= r < |rows| ==> rows[r].charset in sorted)
  }

  /** One more row goes to the end of its group. */
  lemma SortedStep(before: map<Bytes, seq<Collation>>, after: map<Bytes, seq<Collation>>, rows: seq<CollationRow>, i: nat)
    requires i < |rows| && Sorted(before, rows[..i])
    requires var row := rows[i];
             after == before[row.charset := (if row.charset in before then before[row.charset] else []) + [Collation(row.collation, row.isDefault)]]
    ensures Sorted(after, rows[..i + 1])
  {
    forall cs ensures if cs in after then after[cs] == Group(rows[..i + 1], cs) && after[cs] != [] else Group(rows[..i + 1], cs) == [] {
      GroupStep(rows, i, cs);
    }
    var seen := rows[..i + 1];
    forall r | 0 <= r < |seen| ensures seen[r].charset in after {
      if r < i {
        assert rows[..i][r].charset in before;
      }
    }
  }

  method SortRows(results: seq<CollationRow>) returns (sorted: map<Bytes, seq<Collation>>)
    ensures Sorted(sorted, results)
  {
    sorted := map[];
    for i := 0 to |results|
      invariant Sorted(sorted, results[..i])
    {
      var row := results[i];
      ghost var before := sorted;
      if row.charset !in sorted {
        sorted := sorted[row.charset := []];
      }
      sorted := sorted[row.charset := sorted[row.charset] + [Collation(row.collation, row.isDefault)]];
      SortedStep(before, sorted, results, i);
    }
    assert results[..|results|] == results;
  }

  /** The rows are missing when the query fails. */
  method GetCharSets(query: Option<seq<CollationRow>>) returns (toReturn: seq<Charset>, ok: bool)
    ensures ok <==> query.Some?
    ensures ok ==> IsIndex(toReturn, query.value)
    ensures !ok ==> toReturn == []
  {
    toReturn := [];
    if query.None? {
      return [], false;
    }
    var results := query.value;
    var sorted := SortRows(results);
    var pending := sorted.Keys;
    while pending != {}
      invariant pending <= sorted.Keys
      invariant forall i :: 0 <= i < |toReturn| ==>
                  && toReturn[i].name in sorted && toReturn[i].name !in pending
                  && toReturn[i].collations == sorted[toReturn[i].name]
      invariant forall i, j :: 0 <= i < j < |toReturn| ==> toReturn[i].name != toReturn[j].name
      invariant forall cs :: cs in sorted && cs !in pending ==> Lists(toReturn, cs)
      decreases pending
    {
      var cs :| cs in pending;
      ghost var before := toReturn;
      toReturn := toReturn + [Charset(cs, sorted[cs])];
      forall x | x in sorted && x !in pending - {cs} ensures Lists(toReturn, x) {
        ListsMore(before, Charset(cs, sorted[cs]), x);
      }
      pending := pending - {cs};
    }
    forall r | 0 <= r < |results| ensures Lists(toReturn, results[r].charset) {
      var cs := results[r].charset;
      assert cs in sorted && cs !in pending;
    }
    return toReturn, true;
  }

  lemma ListsMore(index: seq<Charset>, c: Charset, cs: Bytes)
    ensures Lists(index + [c], cs) <==> Lists(index, cs) || c.name == cs
  {
    if i :| 0 <= i < |index| && index[i].name == cs {
      assert (index + [c])[i].name == cs;
    }
    if c.name == cs {
      assert (index + [c])[|index|].name == cs;
    }
  }

  // ---------------------------------------------------------------- the rows an index stands for

  function RowsOf(cs: Bytes, collations: seq<Collation>): seq<CollationRow> {
    seq(|collations|, i requires 0 <= i < |collations| => CollationRow(collations[i].name, cs, collations[i].isDefault))
  }

  function Flatten(index: seq<Charset>): seq<CollationRow> {
    if index == [] then [] else RowsOf(index[0].name, index[0].collations) + Flatten(index[1..])
  }

  /** How often a row occurs. */
  function Count(rows: seq<CollationRow>, r: CollationRow): nat {
    multiset(rows)[r]
  }

  lemma {:induction false} GroupCount(rows: seq<CollationRow>, r: CollationRow)
    ensures Count(RowsOf(r.charset, Group(rows, r.charset)), r) == Count(rows, r)
  {
    if rows != [] {
      var n := |rows| - 1;
      var init := rows[..n];
      GroupCount(init, r);
      assert rows == init + [rows[n]];
      if rows[n].charset == r.charset {
        var g := Group(init, r.charset);
        var c := Collation(rows[n].collation, rows[n].isDefault);
        assert RowsOf(r.charset, g + [c]) == RowsOf(r.charset, g) + [rows[n]];
      }
    }
  }

  lemma OtherCharsetCount(cs: Bytes, collations: seq<Collation>, r: CollationRow)
    requires cs != r.charset
    ensures Count(RowsOf(cs, collations), r) == 0
  {
    assert r !in RowsOf(cs, collations);
  }

  lemma {:induction false} FlattenCount(index: seq<Charset>, rows: seq<CollationRow>, r: CollationRow)
    requires forall i, j :: 0 <= i < j < |index| ==> index[i].name != index[j].name
    requires forall i :: 0 <= i < |index| ==> index[i].collations == Group(rows, index[i].name)
    ensures Count(Flatten(index), r) == if exists i :: 0 <= i < |index| && index[i].name == r.charset then Count(rows, r) else 0
  {
    if index != [] {
      FlattenCount(index[1..], rows, r);
      GroupCount(rows, r);
      if index[0].name == r.charset {
        assert forall i :: 0 <= i < |index[1..]| ==> index[1..][i].name == index[i + 1].name;
      } else {
        OtherCharsetCount(index[0].name, index[0].collations, r);
        assert (exists i :: 0 <= i < |index| && index[i].name == r.charset) ==>
               (exists i :: 0 <= i < |index[1..]| && index[1..][i].name == r.charset) by {
          if i :| 0 <= i < |index| && index[i].name == r.charset {
            assert index[1..][i - 1].name == r.charset;
          }
        }
      }
    }
  }

  /** Every index of the rows, whatever the iteration order, holds exactly the rows, with multiplicity. */
  lemma IndexKeepsRows(index: seq<Charset>, rows: seq<CollationRow>)
    requires IsIndex(index, rows)
    ensures multiset(Flatten(index)) == multiset(rows)
  {
    forall r: CollationRow ensures multiset(Flatten(index))[r] == multiset(rows)[r] {
      FlattenCount(index, rows, r);
      if r in rows {
        var i :| 0 <= i < |rows| && rows[i] == r;
        assert exists j :: 0 <= j < |index| && index[j].name == rows[i].charset;
      } else {
        assert multiset(rows)[r] == 0;
      }
    }
  }

  // ---------------------------------------------------------------- the webhook

  /** What the admin connection publishes: server defaults and the index. */
  datatype AdminStatus = AdminStatus(characterSet: Bytes, collation: Bytes, availableCharsets: seq<Charset>)

  /** What fetching the admin connection the specification names gives. */
  datatype Connection = Unavailable | Found(status: AdminStatus)

  datatype Verdict = Accepted | AcceptedNotDefault | BadCombination | UnknownCharset | NoConnection | BadName | NameChanged

  predicate Admits(v: Verdict) { v.Accepted? || v.AcceptedNotDefault? }

  function FindCollation(collations: seq<Collation>, name: Bytes): Option<Collation> {
    if collations == [] then None
    else if collations[0].name == name then Some(collations[0])
    else FindCollation(collations[1..], name)
  }

  function Search(index: seq<Charset>, charset: Bytes, collation: Bytes): Verdict {
    if index == [] then UnknownCharset
    else if index[0].name == charset then
      match FindCollation(index[0].collations, collation)
      case Some(c) => if c.isDefault then Accepted else AcceptedNotDefault
      case None => BadCombination
    else Search(index[1..], charset, collation)
  }

  function Effective(wanted: Bytes, default_: Bytes): Bytes { if wanted == [] then default_ else wanted }

  function ValidateCombination(spec: DatabaseSpec, c: Connection): Verdict {
    if spec.connection == [] then Accepted
    else
      match c
      case Unavailable => NoConnection
      case Found(a) =>
        Search(a.availableCharsets, Effective(spec.characterSet, a.characterSet), Effective(spec.collate, a.collation))
  }

  const EXCLUDED: Bytes := Ascii("\\/?%*:|\"<>.")

  /** Code points of a UTF-8 text: the bytes that do not continue one. */
  function CodePoints(n: Bytes): nat {
    if n == [] then 0 else (if 128 <= n[0] < 192 then 0 else 1) + CodePoints(n[1..])
  }

  predicate NameOk(n: Bytes) {
    1 <= CodePoints(n) <= 64 && forall i :: 0 <= i < |n| ==> n[i] !in EXCLUDED
  }

  function ValidateCreate(spec: DatabaseSpec, c: Connection): Verdict {
    if !NameOk(spec.name) then BadName else ValidateCombination(spec, c)
  }

  function ValidateUpdate(current: DatabaseSpec, spec: DatabaseSpec, c: Connection): Verdict {
    if spec.name != current.name then NameChanged else ValidateCombination(spec, c)
  }

  // ---------------------------------------------------------------- the search agrees with the rows

  /** The first row with the given collation and character set. */
  function FirstRow(rows: seq<CollationRow>, charset: Bytes, collation: Bytes): Option<CollationRow> {
    if rows == [] then None
    else if rows[0].charset == charset && rows[0].collation == collation then Some(rows[0])
    else FirstRow(rows[1..], charset, collation)
  }

  lemma {:induction false} FindAppend(a: seq<Collation>, b: seq<Collation>, name: Bytes)
    ensures FindCollation(a + b, name) == if FindCollation(a, name).Some? then FindCollation(a, name) else FindCollation(b, name)
  {
    if a == [] {
      assert a + b == b;
    } else {
      assert (a + b)[1..] == a[1..] + b;
      FindAppend(a[1..], b, name);
    }
  }

  lemma {:induction false} FirstAppend(a: seq<CollationRow>, b: seq<CollationRow>, charset: Bytes, collation: Bytes)
    ensures FirstRow(a + b, charset, collation) ==
            if FirstRow(a, charset, collation).Some? then FirstRow(a, charset, collation) else FirstRow(b, charset, collation)
  {
    if a == [] {
      assert a + b == b;
    } else {
      assert (a + b)[1..] == a[1..] + b;
      FirstAppend(a[1..], b, charset, collation);
    }
  }

  lemma {:induction false} GroupFirst(rows: seq<CollationRow>, charset: Bytes, collation: Bytes)
    ensures FindCollation(Group(rows, charset), collation).Some? <==> FirstRow(rows, charset, collation).Some?
    ensures FirstRow(rows, charset, collation).Some? ==>
              FindCollation(Group(rows, charset), collation).value == Collation(collation, FirstRow(rows, charset, collation).value.isDefault)
  {
    if rows != [] {
      var n := |rows| - 1;
      GroupFirst(rows[..n], charset, collation);
      assert rows == rows[..n] + [rows[n]];
      FirstAppend(rows[..n], [rows[n]], charset, collation);
      assert [rows[n]][1..] == [];
      if rows[n].charset == charset {
        var c := Collation(rows[n].collation, rows[n].isDefault);
        FindAppend(Group(rows[..n], charset), [c], collation);
        assert [c][1..] == [];
      }
    }
  }

  lemma {:induction false} SearchFinds(index: seq<Charset>, i: nat, charset: Bytes, collation: Bytes)
    requires i < |index| && index[i].name == charset
    requires forall j :: 0 <= j < i ==> index[j].name != charset
    ensures Search(index, charset, collation) ==
            match FindCollation(index[i].collations, collation)
            case Some(c) => if c.isDefault then Accepted else AcceptedNotDefault
            case None => BadCombination
  {
    if i > 0 {
      assert index[1..][i - 1] == index[i];
      SearchFinds(index[1..], i - 1, charset, collation);
    }
  }

  lemma {:induction false} SearchMisses(index: seq<Charset>, charset: Bytes, collation: Bytes)
    requires forall j :: 0 <= j < |index| ==> index[j].name != charset
    ensures Search(index, charset, collation) == UnknownCharset
  {
    if index != [] {
      SearchMisses(index[1..], charset, collation);
    }
  }

  lemma {:induction false} FirstRowExists(rows: seq<CollationRow>, charset: Bytes, collation: Bytes)
    ensures FirstRow(rows, charset, collation).Some? <==>
            exists i :: 0 <= i < |rows| && rows[i].charset == charset && rows[i].collation == collation
    ensures FirstRow(rows, charset, collation).Some? ==>
            var r := FirstRow(rows, charset, collation).value;
            r.charset == charset && r.collation == collation && r in rows
  {
    if rows != [] {
      FirstRowExists(rows[1..], charset, collation);
      assert forall i :: 0 <= i < |rows[1..]| ==> rows[1..][i] == rows[i + 1];
      assert (exists i :: 0 <= i < |rows| && rows[i].charset == charset && rows[i].collation == collation) ==>
             (rows[0].charset == charset && rows[0].collation == collation) ||
             (exists i :: 0 <= i < |rows[1..]| && rows[1..][i].charset == charset && rows[1..][i].collation == collation) by {
        if i :| 0 < i < |rows| && rows[i].charset == charset && rows[i].collation == collation {
          assert rows[1..][i - 1] == rows[i];
        }
      }
    }
  }

  /**
   * Searching any index of the rows: a pair is admitted exactly when some row holds it, with a warning
   * exactly when the first such row is not a default.
   */
  lemma SearchAgrees(index: seq<Charset>, rows: seq<CollationRow>, charset: Bytes, collation: Bytes)
    requires IsIndex(index, rows)
    ensures Admits(Search(index, charset, collation)) <==>
            exists i :: 0 <= i < |rows| && rows[i].charset == charset && rows[i].collation == collation
    ensures match FirstRow(rows, charset, collation)
            case Some(r) => Search(index, charset, collation) == (if r.isDefault then Accepted else AcceptedNotDefault)
            case None => !Admits(Search(index, charset, collation))
  {
    FirstRowExists(rows, charset, collation);
    GroupFirst(rows, charset, collation);
    if i :| 0 <= i < |index| && index[i].name == charset {
      SearchFinds(index, i, charset, collation);
    } else {
      SearchMisses(index, charset, collation);
    }
  }
}
