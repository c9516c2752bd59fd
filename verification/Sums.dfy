/** Sums over finite maps, and the line a sorted set keeps its members in. */
module Sums {

  /** The sum of a map's values, in whatever order they are visited. */
  ghost function Total(m: map<nat, real>): real
  {
    if m == map[] then 0.0 else
    var k :| k in m;
    m[k] + Total(m - {k})
  }

  /** The visiting order does not matter: any key may be taken out first. */
  lemma {:induction false} TotalSplit(m: map<nat, real>, k: nat)
    requires k in m
    ensures Total(m) == m[k] + Total(m - {k})
    decreases |m|
  {
    var j :| j in m && Total(m) == m[j] + Total(m - {j});
    if j != k {
      TotalSplit(m - {j}, k);
      TotalSplit(m - {k}, j);
      assert m - {j} - {k} == m - {k} - {j};
    }
  }

  lemma TotalAdd(m: map<nat, real>, k: nat, v: real)
    requires k !in m
    ensures Total(m[k := v]) == Total(m) + v
  {
    TotalSplit(m[k := v], k);
    assert m[k := v] - {k} == m;
  }

  ghost predicate Positive(m: map<nat, real>) {
    forall k :: k in m ==> m[k] > 0.0
  }

  /** The entries of `m` under the given keys. */
  function Part(m: map<nat, real>, keys: set<nat>): map<nat, real> {
    map k | k in m && k in keys :: m[k]
  }

  lemma PartAdd(m: map<nat, real>, keys: set<nat>, k: nat)
    requires k in m && k !in keys
    ensures Total(Part(m, keys + {k})) == Total(Part(m, keys)) + m[k]
  {
    TotalAdd(Part(m, keys), k, m[k]);
    assert Part(m, keys)[k := m[k]] == Part(m, keys + {k});
  }

  lemma PartAll(m: map<nat, real>, keys: set<nat>)
    requires m.Keys <= keys
    ensures Part(m, keys) == m
  {
  }

  lemma PartNone(m: map<nat, real>, keys: set<nat>)
    requires m.Keys !! keys
    ensures Part(m, keys) == map[] && Total(Part(m, keys)) == 0.0
  {
    assert Part(m, keys).Keys == {};
  }

  /** Dropping entries of positive value never raises the sum, and the sum is
      zero only when nothing is left. */
  lemma {:induction false} TotalDrop(m: map<nat, real>, keys: set<nat>)
    requires Positive(m)
    ensures Total(Part(m, keys)) <= Total(m)
    ensures 0.0 <= Total(m)
    ensures Total(m) == 0.0 <==> m == map[]
    decreases |m|
  {
    if m == map[] {
      assert Part(m, keys) == map[];
    } else {
      var j :| j in m;
      TotalSplit(m, j);
      TotalDrop(m - {j}, keys);
      var kept, rest := Part(m, keys), Part(m - {j}, keys);
      if j in keys {
        TotalSplit(kept, j);
        assert kept - {j} == rest;
      } else {
        assert kept == rest;
      }
    }
  }

  /** A sorted set reads its members by score, ties by member. */
  predicate Before(m: map<nat, int>, a: nat, b: nat)
    requires a in m && b in m
  {
    m[a] < m[b] || (m[a] == m[b] && a < b)
  }

  lemma {:induction false} FirstExists(m: map<nat, int>) returns (w: nat)
    requires m != map[]
    ensures w in m && forall v :: v in m && v != w ==> Before(m, w, v)
    decreases |m|
  {
    w :| w in m;
    var rest := m - {w};
    assert forall v :: v in m && v != w ==> v in rest;
    if rest != map[] {
      var v := FirstExists(rest);
      assert forall u :: u in rest && u != v ==> Before(rest, v, u) && Before(m, v, u);
      if Before(m, v, w) { w := v; }
    }
  }

  /** ZRANGE key 0 -1. */
  function Line(m: map<nat, int>): (line: seq<nat>)
    decreases |m|
  {
    if m == map[] then [] else
    assert exists w :: w in m && forall v :: v in m && v != w ==> Before(m, w, v) by {
      var w := FirstExists(m);
    }
    var w :| w in m && forall v :: v in m && v != w ==> Before(m, w, v);
    [w] + Line(m - {w})
  }

  predicate InOrder(m: map<nat, int>, line: seq<nat>) {
    forall i, j :: 0 <= i < j < |line| && line[i] in m && line[j] in m ==> Before(m, line[i], line[j])
  }

  lemma ConsInOrder(m: map<nat, int>, w: nat, tail: seq<nat>)
    requires w in m && InOrder(m - {w}, tail) && forall v <- tail :: v in m && v != w && Before(m, w, v)
    ensures InOrder(m, [w] + tail)
  {
    var line := [w] + tail;
    forall i, j | 0 <= i < j < |line| && line[i] in m && line[j] in m ensures Before(m, line[i], line[j]) {
      assert line[j] == tail[j - 1] && tail[j - 1] in tail;
      if i > 0 { assert line[i] == tail[i - 1] && tail[i - 1] in tail && Before(m - {w}, tail[i - 1], tail[j - 1]); }
    }
  }

  /** The line holds every member exactly once, oldest first. */
  lemma {:induction false} LineSorted(m: map<nat, int>)
    ensures forall w :: w in Line(m) <==> w in m
    ensures InOrder(m, Line(m))
    ensures |Line(m)| == |m|
    decreases |m|
  {
    if m != map[] {
      var line := Line(m);
      var rest := m - {line[0]};
      LineSorted(rest);
      assert line == [line[0]] + Line(rest);
      assert |rest| == |m| - 1;
      ConsInOrder(m, line[0], Line(rest));
    }
  }

  /** The head of a line is the one member that comes before all others. */
  lemma LineHead(m: map<nat, int>, w: nat)
    requires w in m && forall v :: v in m && v != w ==> Before(m, w, v)
    ensures Line(m) == [w] + Line(m - {w})
  {
  }

  /** Leaving the line closes the gap and moves nobody else. */
  lemma {:induction false} LineRemove(m: map<nat, int>, k: nat)
    requires k < |Line(m)|
    ensures Line(m)[k] in m
    ensures Line(m - {Line(m)[k]}) == Line(m)[..k] + Line(m)[k + 1..]
    decreases |m|
  {
    var line := Line(m);
    var first, w := line[0], line[k];
    var rest := m - {first};
    assert line == [first] + Line(rest);
    if k == 0 {
      assert line[..k] + line[k + 1..] == Line(rest);
    } else {
      LineRemove(rest, k - 1);
      var without := m - {w};
      LineHead(without, first) by {
        forall v | v in without && v != first ensures Before(without, first, v) {
          assert Before(m, first, v);
        }
      }
      assert without - {first} == rest - {w};
      assert line[..k] == [first] + Line(rest)[..k - 1];
      assert line[k + 1..] == Line(rest)[k..];
    }
  }
}
