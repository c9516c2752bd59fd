/** Logs in which each item was the one due when it came. */
module Paths {
  import opened Basics

  /** `due` says what comes after a log, if anything does. */
  ghost predicate Follows<A(!new)>(due: seq<A> -> Option<A>, log: seq<A>) {
    forall i :: 0 <= i < |log| ==> due(log[..i]) == Some(log[i])
  }

  /** Two logs that follow the same rule to its end are one. */
  lemma OneLog<A(!new)>(due: seq<A> -> Option<A>, a: seq<A>, b: seq<A>)
    requires Follows(due, a) && Follows(due, b) && due(a) == None && due(b) == None
    ensures a == b
  {
    SameUpTo(due, a, b, |a|);
    SameUpTo(due, b, a, |b|);
    assert a[..|a|] == a && b[..|b|] == b;
  }

  lemma {:induction false} SameUpTo<A(!new)>(due: seq<A> -> Option<A>, a: seq<A>, b: seq<A>, n: nat)
    requires Follows(due, a) && Follows(due, b) && due(b) == None && n <= |a|
    ensures n <= |b| && a[..n] == b[..n]
  {
    if n > 0 {
      SameUpTo(due, a, b, n - 1);
      assert b[..|b|] == b;
      assert due(a[..n - 1]) == Some(a[n - 1]);
      assert a[..n] == a[..n - 1] + [a[n - 1]];
      assert n <= |b| ==> b[..n] == b[..n - 1] + [b[n - 1]];
    }
  }
}
