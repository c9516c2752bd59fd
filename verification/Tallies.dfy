/** Sequences whose items each carry at most one number, counted as a bag. */
module Tallies {
  import opened Basics

  function One(x: Option<nat>): multiset<nat> {
    match x case None => multiset{} case Some(v) => multiset{v}
  }

  function Tally<T>(s: seq<T>, of: T -> Option<nat>): multiset<nat> {
    if s == [] then multiset{} else Tally(s[..|s| - 1], of) + One(of(s[|s| - 1]))
  }

  /** `s` with item `i` taken out. */
  function Without<T>(s: seq<T>, i: nat): (r: seq<T>)
    requires i < |s|
    ensures |r| == |s| - 1
    ensures forall x <- r :: x in s
    ensures forall j :: 0 <= j < |r| ==> r[j] == s[if j < i then j else j + 1]
  {
    s[..i] + s[i + 1..]
  }

  lemma TallyAdd<T>(s: seq<T>, x: T, of: T -> Option<nat>)
    ensures Tally(s + [x], of) == Tally(s, of) + One(of(x))
  {
    assert (s + [x])[..|s|] == s;
  }

  lemma WithoutLast<T>(s: seq<T>, i: nat)
    requires i < |s|
    ensures i == |s| - 1 ==> Without(s, i) == s[..i]
    ensures i < |s| - 1 ==> Without(s, i) == Without(s[..|s| - 1], i) + [s[|s| - 1]]
  {
  }

  lemma {:induction false} TallyWithout<T>(s: seq<T>, i: nat, of: T -> Option<nat>)
    requires i < |s|
    ensures Tally(s, of) == Tally(Without(s, i), of) + One(of(s[i]))
  {
    WithoutLast(s, i);
    if i < |s| - 1 {
      var init := s[..|s| - 1];
      TallyWithout(init, i, of);
      TallyAdd(Without(init, i), s[|s| - 1], of);
    }
  }

  lemma TallySet<T>(s: seq<T>, i: nat, x: T, of: T -> Option<nat>)
    requires i < |s|
    ensures Tally(s[i := x], of) + One(of(s[i])) == Tally(s, of) + One(of(x))
  {
    TallyWithout(s, i, of);
    TallyWithout(s[i := x], i, of);
    assert Without(s[i := x], i) == Without(s, i);
  }

  /** What the bag holds, some item carries. */
  lemma {:induction false} TallyFinds<T>(s: seq<T>, v: nat, of: T -> Option<nat>) returns (i: nat)
    requires v in Tally(s, of)
    ensures i < |s| && of(s[i]) == Some(v)
  {
    if of(s[|s| - 1]) == Some(v) {
      i := |s| - 1;
    } else {
      i := TallyFinds(s[..|s| - 1], v, of);
    }
  }
}
