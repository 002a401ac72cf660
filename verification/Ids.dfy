/** Finite sets of row ids in ascending order: the meaning of `ORDER BY id LIMIT n`. */
module Ids {

  ghost predicate Increasing(q: seq<nat>) {
    forall i, j :: 0 <= i < j < |q| ==> q[i] < q[j]
  }

  lemma MinExists(s: set<nat>, y: nat)
    requires y in s
    ensures exists m :: m in s && forall x :: x in s ==> m <= x
    decreases y
  {
    if x :| x in s && x < y {
      MinExists(s, x);
    }
  }

  ghost function Min(s: set<nat>): (m: nat)
    requires s != {}
    ensures m in s && forall x :: x in s ==> m <= x
  {
    var y :| y in s;
    MinExists(s, y);
    var m :| m in s && forall x :: x in s ==> m <= x;
    m
  }

  lemma SortedExists(s: set<nat>)
    ensures exists q :: IsSorted(s, q)
    decreases |s|
  {
    if s == {} {
      assert IsSorted(s, []);
    } else {
      var m := Min(s);
      SortedExists(s - {m});
      var q :| IsSorted(s - {m}, q);
      forall i, j | 0 <= i < j < |[m] + q| ensures ([m] + q)[i] < ([m] + q)[j] {
        assert q[j - 1] in s - {m};
      }
      assert IsSorted(s, [m] + q);
    }
  }

  ghost predicate IsSorted(s: set<nat>, q: seq<nat>) {
    && Increasing(q)
    && (forall x :: x in q <==> x in s)
    && |q| == |s|
  }

  /** The elements of `s` in ascending order. */
  ghost function Sorted(s: set<nat>): (q: seq<nat>)
    ensures IsSorted(s, q)
  {
    SortedExists(s);
    var q :| IsSorted(s, q);
    q
  }

  /** The first `n` elements of `s` in ascending order, or all of them when there are fewer. */
  ghost function Take(s: set<nat>, n: nat): (q: seq<nat>)
    ensures Increasing(q)
    ensures forall x :: x in q ==> x in s
    ensures |q| == if n < |s| then n else |s|
    ensures q <= Sorted(s)
  {
    if n < |s| then Sorted(s)[..n] else Sorted(s)
  }

  function Elements(q: seq<nat>): set<nat> {
    set x | x in q
  }

  /** An ascending sequence is determined by its elements. */
  lemma {:induction false} IncreasingUnique(a: seq<nat>, b: seq<nat>)
    requires Increasing(a) && Increasing(b)
    requires forall x :: x in a <==> x in b
    ensures a == b
  {
    if a == [] {
      assert forall i :: 0 <= i < |b| ==> b[i] in b;
    } else {
      assert a[0] in b;
      assert b != [] && b[0] in a;
      assert a[0] == b[0];
      forall x ensures x in a[1..] <==> x in b[1..] {
        if x in a[1..] { assert x in b && x != b[0]; }
        if x in b[1..] { assert x in a && x != a[0]; }
      }
      IncreasingUnique(a[1..], b[1..]);
      assert a == [a[0]] + a[1..] && b == [b[0]] + b[1..];
    }
  }

  lemma SortedIs(s: set<nat>, q: seq<nat>)
    requires Increasing(q)
    requires forall x :: x in q <==> x in s
    ensures Sorted(s) == q
  {
    IncreasingUnique(Sorted(s), q);
  }

  lemma AppendMax(q: seq<nat>, s: set<nat>, m: nat)
    requires Increasing(q)
    requires forall x :: x in q <==> x in s
    requires forall x :: x in s ==> x < m
    ensures Increasing(q + [m])
    ensures forall x :: x in q + [m] <==> x in s + {m}
  {
    forall i, j | 0 <= i < j < |q + [m]| ensures (q + [m])[i] < (q + [m])[j] {
      if j == |q| { assert q[i] in s; }
    }
  }

  /** A new greatest id goes to the end. */
  lemma SortedInsertMax(s: set<nat>, m: nat)
    requires forall x :: x in s ==> x < m
    ensures Sorted(s + {m}) == Sorted(s) + [m]
  {
    AppendMax(Sorted(s), s, m);
    SortedIs(s + {m}, Sorted(s) + [m]);
  }

  lemma SplitAt(q: seq<nat>, s: set<nat>, k: nat)
    requires Increasing(q) && k <= |q|
    requires forall x :: x in q <==> x in s
    ensures Increasing(q[k..])
    ensures forall x :: x in q[k..] <==> x in s - Elements(q[..k])
    ensures forall x, y :: x in q[..k] && y in s && y !in q[..k] ==> x < y
  {
    forall x ensures x in q[k..] <==> x in s - Elements(q[..k]) {
      if x in q[k..] {
        var i :| 0 <= i < |q| - k && q[k..][i] == x;
        assert q[k + i] == x;
      }
      if x in s && x !in q[..k] {
        var i :| 0 <= i < |q| && q[i] == x;
        assert forall j :: 0 <= j < k ==> q[..k][j] == q[j];
        assert q[k..][i - k] == x;
      }
    }
    forall x, y | x in q[..k] && y in s && y !in q[..k] ensures x < y {
      var i :| 0 <= i < k && q[..k][i] == x;
      var j :| 0 <= j < |q| && q[j] == y;
      assert forall m :: 0 <= m < k ==> q[..k][m] == q[m];
    }
  }

  lemma RemovePrefix(q: seq<nat>, s: set<nat>, k: nat)
    requires q == Sorted(s) && k <= |q|
    ensures Sorted(s - Elements(q[..k])) == q[k..]
    ensures forall x, y :: x in q[..k] && y in s && y !in q[..k] ==> x < y
  {
    SplitAt(q, s, k);
    SortedIs(s - Elements(q[..k]), q[k..]);
  }

  /** Removing the first `n` ids drops a prefix, and every id removed is below every id kept. */
  lemma SortedRemoveLowest(s: set<nat>, n: nat)
    ensures Sorted(s) == Take(s, n) + Sorted(s - Elements(Take(s, n)))
    ensures forall x, y :: x in Take(s, n) && y in s && y !in Take(s, n) ==> x < y
  {
    var q := Sorted(s);
    var t := Take(s, n);
    TakeIsPrefix(s, n);
    RemovePrefix(q, s, |t|);
    assert t + q[|t|..] == q;
  }

  lemma TakeIsPrefix(s: set<nat>, n: nat)
    ensures |Take(s, n)| <= |Sorted(s)| && Take(s, n) == Sorted(s)[..|Take(s, n)|]
  {
  }

  lemma {:induction false} ElementsSize(q: seq<nat>)
    requires Increasing(q)
    ensures |Elements(q)| == |q|
  {
    assert Elements(q) == Elements(Sorted(Elements(q)));
    IncreasingUnique(q, Sorted(Elements(q)));
  }

  /** The least element comes first. */
  lemma SortedHead(s: set<nat>, m: nat)
    requires m in s && forall x :: x in s ==> m <= x
    ensures Sorted(s) == [m] + Sorted(s - {m})
  {
    var q := Sorted(s - {m});
    forall i, j | 0 <= i < j < |[m] + q| ensures ([m] + q)[i] < ([m] + q)[j] {
      assert q[j - 1] in s - {m};
    }
    SortedIs(s, [m] + q);
  }

  lemma TakeIs(s: set<nat>, n: nat, q: seq<nat>, rest: seq<nat>)
    requires q + rest == Sorted(s) && |q| <= n && (|q| == n || rest == [])
    ensures q == Take(s, n)
  {
    assert q == Sorted(s)[..|q|];
  }

  lemma TakeOne(q: seq<nat>, rest: set<nat>, m: nat)
    requires m in rest && forall x :: x in rest ==> m <= x
    ensures (q + [m]) + Sorted(rest - {m}) == q + Sorted(rest)
  {
    SortedHead(rest, m);
    assert (q + [m]) + Sorted(rest - {m}) == q + ([m] + Sorted(rest - {m}));
  }

  /** The elements of `s` below `x`. */
  function Below(s: set<nat>, x: nat): set<nat> {
    set y | y in s && y < x
  }

  /** In ascending order the element with `k` others below it stands at position `k`. */
  lemma RankAt(s: set<nat>, k: nat)
    requires k < |Sorted(s)|
    ensures |Below(s, Sorted(s)[k])| == k
  {
    var q := Sorted(s);
    SplitAt(q, s, k);
    assert forall i :: 0 <= i < k ==> q[..k][i] == q[i];
    forall y ensures y in Below(s, q[k]) <==> y in Elements(q[..k]) {
      if y in Below(s, q[k]) { var i :| 0 <= i < |q| && q[i] == y; assert q[..k][i] == y; }
      if y in q[..k] { var i :| 0 <= i < k && q[..k][i] == y; assert q[i] in q; }
    }
    assert Below(s, q[k]) == Elements(q[..k]);
    ElementsSize(q[..k]);
  }

  /** Among the first `n` are exactly the elements with fewer than `n` others below them. */
  lemma TakeExactly(s: set<nat>, n: nat, x: nat)
    ensures x in Take(s, n) <==> x in s && |Below(s, x)| < n
  {
    var q := Sorted(s);
    TakeIsPrefix(s, n);
    if x in s {
      var k :| 0 <= k < |q| && q[k] == x;
      RankAt(s, k);
      if k < |Take(s, n)| { assert Take(s, n)[k] == x; }
      if x in Take(s, n) { var i :| 0 <= i < |Take(s, n)| && Take(s, n)[i] == x; assert q[i] == x; }
    }
  }
}
