/** Sequences without repetition, places in them, and filtering. */
module Sequences {
  function Elements<T>(s: seq<T>): set<T> { set x | x in s }

  lemma ElementsJoin<T>(a: seq<T>, b: seq<T>)
    ensures Elements(a + b) == Elements(a) + Elements(b)
  {
  }

  ghost predicate Differ<T>(s: seq<T>, i: int, j: int) {
    0 <= i < j < |s| ==> s[i] != s[j]
  }

  ghost predicate Distinct<T>(s: seq<T>) {
    forall i, j {:trigger Differ(s, i, j)} :: Differ(s, i, j)
  }

  lemma SamePlace<T>(s: seq<T>, i: nat, j: nat)
    requires Distinct(s) && i < |s| && j < |s| && s[i] == s[j]
    ensures i == j
  {
    assert Differ(s, i, j) && Differ(s, j, i);
  }

  lemma DistinctTail<T>(s: seq<T>)
    requires Distinct(s) && s != []
    ensures Distinct(s[1..]) && s[0] !in s[1..]
  {
    forall i, j {:trigger Differ(s[1..], i, j)} ensures Differ(s[1..], i, j) { assert Differ(s, i + 1, j + 1); }
    forall i | 0 <= i < |s[1..]| ensures s[1..][i] != s[0] { assert Differ(s, 0, i + 1); }
  }

  lemma DistinctInit<T>(s: seq<T>, k: nat)
    requires Distinct(s) && k <= |s|
    ensures Distinct(s[..k]) && (k < |s| ==> s[k] !in s[..k])
  {
    forall i, j {:trigger Differ(s[..k], i, j)} ensures Differ(s[..k], i, j) { assert Differ(s, i, j); }
    forall i | 0 <= i < k < |s| ensures s[i] != s[k] { assert Differ(s, i, k); }
  }

  lemma DistinctSnoc<T>(s: seq<T>, x: T)
    requires Distinct(s) && x !in s
    ensures Distinct(s + [x])
  {
    forall i, j {:trigger Differ(s + [x], i, j)} ensures Differ(s + [x], i, j) { assert Differ(s, i, j); }
  }

  ghost predicate EndsWith<T>(s: seq<T>, end: seq<T>) {
    |end| <= |s| && s[|s| - |end|..] == end
  }

  lemma PrefixIn<T>(a: seq<T>, b: seq<T>, x: T)
    requires a <= b && x in a
    ensures x in b
  {
  }

  lemma DistinctJoin<T>(a: seq<T>, b: seq<T>)
    requires Distinct(a) && Distinct(b) && forall x :: x in b ==> x !in a
    ensures Distinct(a + b)
  {
    forall i, j {:trigger Differ(a + b, i, j)} ensures Differ(a + b, i, j) {
      assert Differ(a, i, j) && Differ(b, i - |a|, j - |a|);
      if 0 <= i < |a| <= j < |a + b| { assert b[j - |a|] in b; }
    }
  }

  /** A place of an element; the only one where elements are distinct. */
  ghost function IndexOf<T>(s: seq<T>, x: T): (i: nat)
    requires x in s
    ensures i < |s| && s[i] == x
  {
    var i :| 0 <= i < |s| && s[i] == x; i
  }

  /** The elements that pass, in order. */
  ghost function Filter<T>(s: seq<T>, keep: T -> bool): seq<T> {
    if s == [] then []
    else Filter(s[..|s| - 1], keep) + if keep(s[|s| - 1]) then [s[|s| - 1]] else []
  }

  lemma InitAndLast<T>(s: seq<T>)
    requires s != []
    ensures s[..|s| - 1] + [s[|s| - 1]] == s
  {
  }

  lemma {:induction false} FilterHolds<T>(s: seq<T>, keep: T -> bool, x: T)
    ensures x in Filter(s, keep) <==> x in s && keep(x)
  {
    if s != [] {
      FilterHolds(s[..|s| - 1], keep, x);
      InitAndLast(s);
    }
  }

  lemma TakeOneMore<T>(s: seq<T>, k: nat)
    requires k < |s|
    ensures s[..k + 1] == s[..k] + [s[k]]
  {
  }

  lemma {:induction false} FilterKeepsDistinct<T>(s: seq<T>, keep: T -> bool)
    requires Distinct(s)
    ensures Distinct(Filter(s, keep)) && |Filter(s, keep)| <= |s|
  {
    if s != [] {
      var k := |s| - 1;
      DistinctInit(s, k);
      FilterKeepsDistinct(s[..k], keep);
      FilterHolds(s[..k], keep, s[k]);
      DistinctSnoc(Filter(s[..k], keep), s[k]);
      assert !keep(s[k]) ==> Filter(s, keep) == Filter(s[..k], keep);
    }
  }

  lemma Regroup<T>(a: seq<T>, b: seq<T>, c: seq<T>)
    ensures (a + b) + c == a + (b + c)
  {
  }

  lemma TakeOfSlice<T>(s: seq<T>, a: nat, b: nat, m: nat)
    requires a + m <= b <= |s|
    ensures s[a..b][..m] == s[a..a + m]
  {
  }

  /** Equal stretches agree on their last element and on what is before it. */
  lemma SameInit<T>(s: seq<T>, a: nat, b: nat, other: seq<T>, c: nat)
    requires a < b <= |s| && c + (b - a) <= |other| && s[a..b] == other[c..c + (b - a)]
    ensures s[b - 1] == other[c + (b - a) - 1] && s[a..b - 1] == other[c..c + (b - 1 - a)]
  {
    var here, there := s[a..b], other[c..c + (b - a)];
    assert s[b - 1] == here[b - a - 1] && other[c + (b - a) - 1] == there[b - a - 1];
    TakeOfSlice(s, a, b, b - 1 - a);
    TakeOfSlice(other, c, c + (b - a), b - 1 - a);
  }
}
