/** Iterating a step whose stage falls to zero and then stays there. */
module Descent {
  import opened Model

  /** What an iteration of passes is watched for. */
  function ServerOf(): World -> Server { (x: World) => x.server }

  function Iterate<S>(f: S -> S, s: S, n: nat): S
    decreases n
  {
    if n == 0 then s else Iterate(f, f(s), n - 1)
  }

  ghost predicate Falls<S(!new)>(f: S -> S, good: S -> bool, stage: S -> nat) {
    forall x {:trigger f(x)} :: good(x) ==>
      good(f(x)) && (if stage(x) == 0 then stage(f(x)) == 0 else stage(f(x)) < stage(x))
  }

  lemma {:induction false} ReachesZero<S(!new)>(f: S -> S, good: S -> bool, stage: S -> nat, s: S, n: nat)
    requires Falls(f, good, stage) && good(s) && n >= stage(s)
    ensures good(Iterate(f, s, n)) && stage(Iterate(f, s, n)) == 0
    decreases n
  {
    if n > 0 {
      ReachesZero(f, good, stage, f(s), n - 1);
    }
  }

  lemma {:induction false} IterateSplit<S>(f: S -> S, s: S, m: nat, n: nat)
    ensures Iterate(f, s, m + n) == Iterate(f, Iterate(f, s, m), n)
    decreases m
  {
    if m > 0 {
      IterateSplit(f, f(s), m - 1, n);
    }
  }

  /** What the step leaves alone at stage zero stays as it is for any number of steps. */
  lemma {:induction false} StaysAtZero<S(!new), T(!new)>(f: S -> S, good: S -> bool, stage: S -> nat, view: S -> T, s: S, n: nat)
    requires Falls(f, good, stage) && good(s) && stage(s) == 0
    requires forall x {:trigger f(x)} :: good(x) && stage(x) == 0 ==> view(f(x)) == view(x)
    ensures view(Iterate(f, s, n)) == view(s)
    decreases n
  {
    if n > 0 {
      StaysAtZero(f, good, stage, view, f(s), n - 1);
    }
  }

  /** The two together: settled after enough steps, with a view that no further step changes. */
  lemma Settles<S(!new), T(!new)>(f: S -> S, good: S -> bool, stage: S -> nat, view: S -> T, s: S, n: nat)
    requires Falls(f, good, stage) && good(s) && n >= stage(s)
    requires forall x {:trigger f(x)} :: good(x) && stage(x) == 0 ==> view(f(x)) == view(x)
    ensures good(Iterate(f, s, n)) && stage(Iterate(f, s, n)) == 0
    ensures view(Iterate(f, s, n)) == view(Iterate(f, s, stage(s)))
  {
    var m := stage(s);
    ReachesZero(f, good, stage, s, n);
    ReachesZero(f, good, stage, s, m);
    IterateSplit(f, s, m, n - m);
    StaysAtZero(f, good, stage, view, Iterate(f, s, m), n - m);
  }

  ghost predicate Keeps<S(!new)>(f: S -> S, inv: S -> bool) {
    forall x {:trigger f(x)} :: inv(x) ==> inv(f(x))
  }

  lemma {:induction false} KeptBy<S(!new)>(f: S -> S, inv: S -> bool, s: S, n: nat)
    requires Keeps(f, inv) && inv(s)
    ensures inv(Iterate(f, s, n))
    decreases n
  {
    if n > 0 {
      KeptBy(f, inv, f(s), n - 1);
    }
  }

  /** Each step keeps the invariant and raises its count by one. */
  ghost predicate Raises<S(!new)>(f: S -> S, inv: (S, nat) -> bool) {
    forall x: S, c: nat {:trigger f(x), inv(x, c)} :: inv(x, c) ==> inv(f(x), c + 1)
  }

  lemma {:induction false} RaisedBy<S(!new)>(f: S -> S, inv: (S, nat) -> bool, s: S, c: nat, n: nat)
    requires Raises(f, inv) && inv(s, c)
    ensures inv(Iterate(f, s, n), c + n)
    decreases n
  {
    if n > 0 {
      assert inv(f(s), c + 1);
      RaisedBy(f, inv, f(s), c + 1, n - 1);
    }
  }
}
