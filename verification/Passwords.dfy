/** The password generator (GeneratePassword in api/v1alpha1/common.go), for every outcome of the random choices. */
module Passwords {

  const LOWER: string := "abcdedfghijklmnopqrst"
  const UPPER: string := "ABCDEFGHIJKLMNOPQRSTUVWXYZ"
  const SPECIAL: string := "!@#$%&*"
  const DIGITS: string := "0123456789"
  const ALL: string := LOWER + UPPER + SPECIAL + DIGITS

  // ---------------------------------------------------------------- specification

  /** The random numbers of one call, in the order they are drawn. */
  datatype Choices = Choices(special: seq<nat>, digits: seq<nat>, upper: seq<nat>, rest: seq<nat>, order: seq<nat>)

  datatype Request = Request(length: int, special: int, digits: int, upper: int)

  function NonNegative(n: int): nat { if n < 0 then 0 else n }

  /** A loop up to a negative bound does nothing, but the bound still counts in the remaining length. */
  function Remaining(q: Request): int { q.length - q.special - q.digits - q.upper }

  function Total(q: Request): nat {
    NonNegative(q.special) + NonNegative(q.digits) + NonNegative(q.upper) + NonNegative(Remaining(q))
  }

  predicate Below(picks: seq<nat>, n: nat) {
    forall i :: 0 <= i < |picks| ==> picks[i] < n
  }

  /** The choices one call can make: as many as its loops ask for, each below the size it is drawn from. */
  predicate Possible(c: Choices, q: Request) {
    && |c.special| == NonNegative(q.special) && Below(c.special, |SPECIAL|)
    && |c.digits| == NonNegative(q.digits) && Below(c.digits, |DIGITS|)
    && |c.upper| == NonNegative(q.upper) && Below(c.upper, |UPPER|)
    && |c.rest| == NonNegative(Remaining(q)) && Below(c.rest, |ALL|)
    && |c.order| == Total(q) && Below(c.order, Total(q))
  }

  function Picked(kind: string, picks: seq<nat>): (s: string)
    requires Below(picks, |kind|)
    ensures |s| == |picks|
    ensures forall i :: 0 <= i < |s| ==> s[i] in kind
  {
    seq(|picks|, i requires 0 <= i < |picks| => kind[picks[i]])
  }

  function Drawn(c: Choices, q: Request): (s: string)
    requires Possible(c, q)
    ensures |s| == Total(q)
  {
    Picked(SPECIAL, c.special) + Picked(DIGITS, c.digits) + Picked(UPPER, c.upper) + Picked(ALL, c.rest)
  }

  function Swap(s: string, i: nat, j: nat): string
    requires i < |s| && j < |s|
  {
    s[i := s[j]][j := s[i]]
  }

  /** Positions `i`, `i + 1`, ... swapped in turn with the positions `order` lists. */
  function Swaps(s: string, order: seq<nat>, i: nat): (r: string)
    requires i + |order| == |s| && Below(order, |s|)
    ensures |r| == |s|
    decreases |order|
  {
    if order == [] then s else Swaps(Swap(s, i, order[0]), order[1..], i + 1)
  }

  function Generated(c: Choices, q: Request): string
    requires Possible(c, q)
  {
    Swaps(Drawn(c, q), c.order, 0)
  }

  /** How many characters of `s` are of the kind. */
  function Count(s: string, kind: string): nat {
    if s == [] then 0 else (if s[0] in kind then 1 else 0) + Count(s[1..], kind)
  }

  /** What a password has to be, whatever was drawn. */
  predicate Meets(password: string, q: Request) {
    && |password| == Total(q)
    && Count(password, SPECIAL) >= q.special && Count(password, DIGITS) >= q.digits && Count(password, UPPER) >= q.upper
    && Count(password, ALL) == |password|
  }

  // ---------------------------------------------------------------- implementation

  /** One of the four filling loops. */
  method Draw(kind: string, n: int, picks: seq<nat>) returns (s: string)
    requires |picks| == NonNegative(n) && Below(picks, |kind|)
    ensures s == Picked(kind, picks)
  {
    s := "";
    var i := 0;
    while i < n
      invariant 0 <= i <= |picks|
      invariant s == Picked(kind, picks)[..i]
    {
      s := s + [kind[picks[i]]];
      i := i + 1;
    }
  }

  method Shuffle(inRune: array<char>, order: seq<nat>)
    requires |order| == inRune.Length && Below(order, inRune.Length)
    modifies inRune
    ensures inRune[..] == Swaps(old(inRune[..]), order, 0)
  {
    for i := 0 to inRune.Length
      invariant Swaps(inRune[..], order[i..], i) == Swaps(old(inRune[..]), order, 0)
    {
      ghost var before := inRune[..];
      var j := order[i];
      inRune[i], inRune[j] := inRune[j], inRune[i];
      assert inRune[..] == Swap(before, i, j);
      assert order[i..][1..] == order[i + 1..];
    }
  }

  method GeneratePassword(q: Request, c: Choices) returns (password: string)
    requires Possible(c, q)
    ensures password == Generated(c, q)
  {
    var special := Draw(SPECIAL, q.special, c.special);
    var digits := Draw(DIGITS, q.digits, c.digits);
    var upper := Draw(UPPER, q.upper, c.upper);
    var remainingLength := q.length - q.special - q.digits - q.upper;
    var rest := Draw(ALL, remainingLength, c.rest);
    var drawn := special + digits + upper + rest;
    var inRune := new char[|drawn|](i requires 0 <= i < |drawn| => drawn[i]);
    assert inRune[..] == drawn;
    Shuffle(inRune, c.order);
    password := inRune[..];
  }

  // ---------------------------------------------------------------- the alphabet

  lemma LowerAt(i: nat)
    requires i < 21
    ensures |LOWER| == 21 && LOWER[i] as int == 97 + (if i < 5 then i else if i == 5 then 3 else i - 1)
  {
  }

  lemma UpperAt(i: nat)
    requires i < 26
    ensures |UPPER| == 26 && UPPER[i] as int == 65 + i
  {
  }

  lemma DigitAt(i: nat)
    requires i < 10
    ensures |DIGITS| == 10 && DIGITS[i] as int == 48 + i
  {
  }

  lemma InLower(c: char)
    ensures c in LOWER <==> 'a' <= c <= 't'
  {
    if 'a' <= c <= 't' {
      LowerAt(if c <= 'e' then c as int - 97 else c as int - 96);
    }
    if c in LOWER {
      var i :| 0 <= i < |LOWER| && LOWER[i] == c;
      LowerAt(i);
    }
  }

  lemma InUpper(c: char)
    ensures c in UPPER <==> 'A' <= c <= 'Z'
  {
    if 'A' <= c <= 'Z' {
      UpperAt(c as int - 65);
    }
    if c in UPPER {
      var i :| 0 <= i < |UPPER| && UPPER[i] == c;
      UpperAt(i);
    }
  }

  lemma InDigits(c: char)
    ensures c in DIGITS <==> '0' <= c <= '9'
  {
    if '0' <= c <= '9' {
      DigitAt(c as int - 48);
    }
    if c in DIGITS {
      var i :| 0 <= i < |DIGITS| && DIGITS[i] == c;
      DigitAt(i);
    }
  }

  lemma InSpecial(c: char)
    ensures c in SPECIAL <==> c in {'!', '@', '#', '$', '%', '&', '*'}
  {
  }

  /** The characters of a password: seven special ones, digits, capitals, and small letters up to `t`. */
  lemma AlphabetExactly(c: char)
    ensures c in ALL <==> 'a' <= c <= 't' || 'A' <= c <= 'Z' || '0' <= c <= '9' || c in {'!', '@', '#', '$', '%', '&', '*'}
    ensures c in SPECIAL <==> c in {'!', '@', '#', '$', '%', '&', '*'}
    ensures c in DIGITS <==> '0' <= c <= '9'
    ensures c in UPPER <==> 'A' <= c <= 'Z'
  {
    InLower(c);
    InUpper(c);
    InDigits(c);
    InSpecial(c);
    InFour(LOWER, UPPER, SPECIAL, DIGITS, c);
  }

  lemma InFour(a: string, b: string, d: string, e: string, c: char)
    ensures c in a + b + d + e <==> c in a || c in b || c in d || c in e
  {
  }

  // ---------------------------------------------------------------- counting

  lemma {:induction false} CountConcat(a: string, b: string, kind: string)
    ensures Count(a + b, kind) == Count(a, kind) + Count(b, kind)
  {
    if a == [] {
      assert a + b == b;
    } else {
      assert (a + b)[1..] == a[1..] + b;
      CountConcat(a[1..], b, kind);
    }
  }

  lemma {:induction false} CountAll(s: string, kind: string)
    requires forall i :: 0 <= i < |s| ==> s[i] in kind
    ensures Count(s, kind) == |s|
  {
    if s != [] {
      CountAll(s[1..], kind);
    }
  }

  lemma {:induction false} CountNone(s: string, kind: string)
    requires forall i :: 0 <= i < |s| ==> s[i] !in kind
    ensures Count(s, kind) == 0
  {
    if s != [] {
      CountNone(s[1..], kind);
    }
  }

  lemma {:induction false} AllCounted(s: string, kind: string)
    requires Count(s, kind) == |s|
    ensures forall i :: 0 <= i < |s| ==> s[i] in kind
  {
    if s != [] {
      CountAtMost(s[1..], kind);
      AllCounted(s[1..], kind);
      assert s == [s[0]] + s[1..];
    }
  }

  lemma {:induction false} CountAtMost(s: string, kind: string)
    ensures Count(s, kind) <= |s|
  {
    if s != [] {
      CountAtMost(s[1..], kind);
    }
  }

  function Without(s: string, i: nat): string
    requires i < |s|
  {
    s[..i] + s[i + 1..]
  }

  lemma WithoutOne(s: string, i: nat, kind: string)
    requires i < |s|
    ensures multiset(s) == multiset(Without(s, i)) + multiset{s[i]}
    ensures Count(s, kind) == Count(Without(s, i), kind) + if s[i] in kind then 1 else 0
  {
    assert s == s[..i] + ([s[i]] + s[i + 1..]);
    CountConcat(s[..i], [s[i]] + s[i + 1..], kind);
    CountConcat([s[i]], s[i + 1..], kind);
    CountConcat(s[..i], s[i + 1..], kind);
    assert [s[i]][1..] == [];
  }

  lemma Cancel(a: multiset<char>, b: multiset<char>, c: char)
    requires a + multiset{c} == b + multiset{c}
    ensures a == b
  {
    assert a == (a + multiset{c}) - multiset{c} && b == (b + multiset{c}) - multiset{c};
  }

  /** Counting only looks at the multiset of characters. */
  lemma {:induction false} CountOfMultiset(a: string, b: string, kind: string)
    requires multiset(a) == multiset(b)
    ensures Count(a, kind) == Count(b, kind)
    decreases |a|
  {
    assert |a| == |multiset(a)| && |b| == |multiset(b)|;
    if a != [] {
      assert a[0] in multiset(b);
      var i :| 0 <= i < |b| && b[i] == a[0];
      WithoutOne(a, 0, kind);
      WithoutOne(b, i, kind);
      Cancel(multiset(Without(a, 0)), multiset(Without(b, i)), a[0]);
      CountOfMultiset(Without(a, 0), Without(b, i), kind);
    }
  }

  lemma CountDrawn(t1: string, t2: string, t3: string, r: string, kind: string)
    ensures Count(t1 + t2 + t3 + r, kind) == Count(t1, kind) + Count(t2, kind) + Count(t3, kind) + Count(r, kind)
  {
    CountConcat(t1 + t2 + t3, r, kind);
    CountConcat(t1 + t2, t3, kind);
    CountConcat(t1, t2, kind);
  }

  // ---------------------------------------------------------------- the shuffle

  lemma SwapPermutes(s: string, i: nat, j: nat)
    requires i < |s| && j < |s|
    ensures multiset(Swap(s, i, j)) == multiset(s)
  {
    assert multiset(s[i := s[j]]) == multiset(s) - multiset{s[i]} + multiset{s[j]};
  }

  lemma {:induction false} SwapsPermute(s: string, order: seq<nat>, i: nat)
    requires i + |order| == |s| && Below(order, |s|)
    ensures multiset(Swaps(s, order, i)) == multiset(s)
    decreases |order|
  {
    if order != [] {
      SwapPermutes(s, i, order[0]);
      SwapsPermute(Swap(s, i, order[0]), order[1..], i + 1);
    }
  }

  lemma PlaceOf(a: string, b: string, i: nat) returns (j: nat)
    requires multiset(a) == multiset(b) && |a| == |b| && i < |a| && a[..i] == b[..i]
    ensures i <= j < |a| && a[j] == b[i]
  {
    assert a == a[..i] + a[i..] && b == a[..i] + b[i..];
    assert multiset(a[i..]) == multiset(a) - multiset(a[..i]);
    assert multiset(b[i..]) == multiset(b) - multiset(a[..i]);
    assert b[i..][0] in multiset(b[i..]);
    assert b[i] in a[i..];
    var k :| 0 <= k < |a[i..]| && a[i..][k] == b[i];
    j := i + k;
  }

  lemma SwapExtends(a: string, b: string, i: nat, j: nat)
    requires |a| == |b| && i <= j < |a| && a[..i] == b[..i] && a[j] == b[i]
    ensures Swap(a, i, j)[..i + 1] == b[..i + 1]
  {
    forall x | 0 <= x < i + 1 ensures Swap(a, i, j)[x] == b[x] {
      assert x < i ==> a[x] == a[..i][x] && b[x] == b[..i][x];
    }
  }

  lemma SwapsStep(s: string, i: nat, j: nat, later: seq<nat>)
    requires i + 1 + |later| == |s| && j < |s| && Below(later, |s|)
    ensures Below([j] + later, |s|) && Swaps(s, [j] + later, i) == Swaps(Swap(s, i, j), later, i + 1)
  {
    assert ([j] + later)[1..] == later;
  }

  /** Every arrangement of the drawn characters can come out of the shuffle. */
  lemma {:induction false} EveryArrangement(a: string, b: string, i: nat) returns (order: seq<nat>)
    requires multiset(a) == multiset(b) && |a| == |b| && i <= |a| && a[..i] == b[..i]
    ensures i + |order| == |a| && Below(order, |a|) && Swaps(a, order, i) == b
    decreases |a| - i
  {
    if i == |a| {
      order := [];
      assert a[..i] == a && b[..i] == b;
    } else {
      var j := PlaceOf(a, b, i);
      SwapPermutes(a, i, j);
      SwapExtends(a, b, i, j);
      var later := EveryArrangement(Swap(a, i, j), b, i + 1);
      SwapsStep(a, i, j, later);
      order := [j] + later;
    }
  }

  // ---------------------------------------------------------------- what can come out

  lemma AllKinds(c: char)
    ensures c in SPECIAL || c in DIGITS || c in UPPER ==> c in ALL
  {
  }

  lemma Ranges(c: char)
    ensures c in SPECIAL ==> !('0' <= c <= '9') && !('A' <= c <= 'Z')
    ensures c in DIGITS ==> '0' <= c <= '9'
    ensures c in UPPER ==> 'A' <= c <= 'Z'
  {
  }

  lemma KindsDisjoint(c: char)
    ensures c in SPECIAL ==> c !in DIGITS && c !in UPPER
    ensures c in DIGITS ==> c !in UPPER
  {
    Ranges(c);
  }

  /**
   * Every choice gives a password that meets the request; with minimums that are not negative its length
   * is the requested one or, when the minimums do not fit, their sum.
   */
  lemma EveryPasswordMeets(c: Choices, q: Request)
    requires Possible(c, q)
    ensures Meets(Generated(c, q), q)
    ensures q.special >= 0 && q.digits >= 0 && q.upper >= 0 ==>
              var minimum := q.special + q.digits + q.upper;
              |Generated(c, q)| == if q.length >= minimum then q.length else minimum
  {
    var password, drawn := Generated(c, q), Drawn(c, q);
    SwapsPermute(drawn, c.order, 0);
    var t1, t2, t3, r := Picked(SPECIAL, c.special), Picked(DIGITS, c.digits), Picked(UPPER, c.upper), Picked(ALL, c.rest);
    forall kind | kind in {SPECIAL, DIGITS, UPPER, ALL}
      ensures Count(password, kind) == Count(t1, kind) + Count(t2, kind) + Count(t3, kind) + Count(r, kind)
    {
      CountOfMultiset(password, drawn, kind);
      CountDrawn(t1, t2, t3, r, kind);
    }
    CountAll(t1, SPECIAL);
    CountAll(t2, DIGITS);
    CountAll(t3, UPPER);
    forall x: char { AllKinds(x); }
    CountAll(t1, ALL);
    CountAll(t2, ALL);
    CountAll(t3, ALL);
    CountAll(r, ALL);
  }

  lemma {:induction false} SomeCounted(s: string, kind: string) returns (i: nat)
    requires Count(s, kind) > 0
    ensures i < |s| && s[i] in kind
  {
    if s[0] in kind {
      i := 0;
    } else {
      i := SomeCounted(s[1..], kind);
      i := i + 1;
    }
  }

  lemma OneMore(c: char, t: string, r: string)
    ensures multiset(([c] + t) + r) == multiset{c} + multiset(t + r)
  {
    assert ([c] + t) + r == [c] + (t + r);
  }

  /** Takes `n` characters of the kind out of a string. */
  lemma {:induction false} Extract(s: string, kind: string, n: nat) returns (t: string, r: string)
    requires n <= Count(s, kind)
    ensures |t| == n && (forall i :: 0 <= i < n ==> t[i] in kind) && multiset(s) == multiset(t + r)
    decreases n
  {
    if n == 0 {
      t, r := [], s;
      assert t + r == s;
    } else {
      var i := SomeCounted(s, kind);
      WithoutOne(s, i, kind);
      t, r := Extract(Without(s, i), kind, n - 1);
      OneMore(s[i], t, r);
      t := [s[i]] + t;
    }
  }

  lemma Indices(t: string, kind: string) returns (picks: seq<nat>)
    requires forall i :: 0 <= i < |t| ==> t[i] in kind
    ensures Below(picks, |kind|) && Picked(kind, picks) == t
  {
    picks := [];
    for n := 0 to |t|
      invariant Below(picks, |kind|) && Picked(kind, picks) == t[..n]
    {
      var k :| 0 <= k < |kind| && kind[k] == t[n];
      picks := picks + [k];
    }
  }

  /** Extracting one kind does not change the count of a kind disjoint from it. */
  lemma OtherKindStays(s: string, t: string, r: string, kind: string, other_: string)
    requires multiset(s) == multiset(t + r) && forall i :: 0 <= i < |t| ==> t[i] in kind && t[i] !in other_
    ensures Count(r, other_) == Count(s, other_)
  {
    CountOfMultiset(s, t + r, other_);
    CountConcat(t, r, other_);
    CountNone(t, other_);
  }

  lemma Sorted(s: string, q: Request) returns (t1: string, t2: string, t3: string, r: string)
    requires Meets(s, q)
    ensures |t1| == NonNegative(q.special) && |t2| == NonNegative(q.digits) && |t3| == NonNegative(q.upper)
    ensures |r| == NonNegative(Remaining(q))
    ensures forall i :: 0 <= i < |t1| ==> t1[i] in SPECIAL
    ensures forall i :: 0 <= i < |t2| ==> t2[i] in DIGITS
    ensures forall i :: 0 <= i < |t3| ==> t3[i] in UPPER
    ensures multiset(s) == multiset(t1 + t2 + t3 + r)
  {
    forall x: char { KindsDisjoint(x); }
    var r1, r2;
    t1, r1 := Extract(s, SPECIAL, NonNegative(q.special));
    OtherKindStays(s, t1, r1, SPECIAL, DIGITS);
    OtherKindStays(s, t1, r1, SPECIAL, UPPER);
    t2, r2 := Extract(r1, DIGITS, NonNegative(q.digits));
    OtherKindStays(r1, t2, r2, DIGITS, UPPER);
    t3, r := Extract(r2, UPPER, NonNegative(q.upper));
    assert |s| == |multiset(s)| == |t1 + r1| && |r1| == |multiset(r1)| == |t2 + r2| && |r2| == |multiset(r2)| == |t3 + r|;
  }

  /** The choices that draw these characters and arrange them as the password. */
  lemma ChoicesFor(password: string, q: Request, t1: string, t2: string, t3: string, r: string) returns (c: Choices)
    requires |t1| == NonNegative(q.special) && |t2| == NonNegative(q.digits) && |t3| == NonNegative(q.upper)
    requires |r| == NonNegative(Remaining(q))
    requires forall i :: 0 <= i < |t1| ==> t1[i] in SPECIAL
    requires forall i :: 0 <= i < |t2| ==> t2[i] in DIGITS
    requires forall i :: 0 <= i < |t3| ==> t3[i] in UPPER
    requires forall i :: 0 <= i < |r| ==> r[i] in ALL
    requires multiset(password) == multiset(t1 + t2 + t3 + r) && |password| == |t1 + t2 + t3 + r|
    ensures Possible(c, q) && Generated(c, q) == password
  {
    var special := Indices(t1, SPECIAL);
    var digits := Indices(t2, DIGITS);
    var upper := Indices(t3, UPPER);
    var rest := Indices(r, ALL);
    var order := EveryArrangement(t1 + t2 + t3 + r, password, 0);
    c := Choices(special, digits, upper, rest, order);
    assert Drawn(c, q) == t1 + t2 + t3 + r;
  }

  lemma LastPart(a: string, r: string, kind: string)
    requires Count(a + r, kind) == |a + r|
    ensures forall i :: 0 <= i < |r| ==> r[i] in kind
  {
    AllCounted(a + r, kind);
    assert forall i :: 0 <= i < |r| ==> r[i] == (a + r)[|a| + i];
  }

  /** Every string that meets the request can be generated. */
  lemma EveryMeetingGenerated(password: string, q: Request) returns (c: Choices)
    requires Meets(password, q)
    ensures Possible(c, q) && Generated(c, q) == password
  {
    var t1, t2, t3, r := Sorted(password, q);
    CountOfMultiset(password, t1 + t2 + t3 + r, ALL);
    assert |password| == |multiset(password)| == |t1 + t2 + t3 + r|;
    LastPart(t1 + t2 + t3, r, ALL);
    c := ChoicesFor(password, q, t1, t2, t3, r);
  }

  /** The strings the generator can return are exactly those that meet the request. */
  lemma ExactlyTheMeeting(password: string, q: Request)
    ensures (exists c :: Possible(c, q) && Generated(c, q) == password) <==> Meets(password, q)
  {
    if c :| Possible(c, q) && Generated(c, q) == password {
      EveryPasswordMeets(c, q);
    }
    if Meets(password, q) {
      var c := EveryMeetingGenerated(password, q);
    }
  }
}
