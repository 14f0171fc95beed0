/** Directed graphs given by a successor map, and walks in them. Both the lifecycle machines
    (states and their transitions) and the workflow templates (nodes and their dependencies) are
    such graphs. A node missing from the map has no successors. */
module Graphs {
  type Edges<N(==)> = map<N, set<N>>

  function Succ<N(==)>(g: Edges<N>, n: N): set<N> {
    if n in g then g[n] else {}
  }

  ghost predicate Linked<N>(g: Edges<N>, p: seq<N>, i: int) {
    0 <= i < |p| - 1 ==> p[i + 1] in Succ(g, p[i])
  }

  /** A nonempty sequence of nodes, each a successor of the one before. */
  ghost predicate Walk<N>(g: Edges<N>, p: seq<N>) {
    |p| > 0 && forall i {:trigger Linked(g, p, i)} :: Linked(g, p, i)
  }

  ghost predicate WalkFromTo<N>(g: Edges<N>, p: seq<N>, a: N, b: N) {
    Walk(g, p) && p[0] == a && p[|p| - 1] == b
  }

  /** `b` can be reached from `a` in zero or more steps. */
  ghost predicate Reaches<N(!new)>(g: Edges<N>, a: N, b: N) {
    exists p {:trigger WalkFromTo(g, p, a, b)} :: WalkFromTo(g, p, a, b)
  }

  /** `b` can be reached from `a` in one or more steps. */
  ghost predicate Leads<N(!new)>(g: Edges<N>, a: N, b: N) {
    exists p {:trigger WalkFromTo(g, p, a, b)} :: WalkFromTo(g, p, a, b) && |p| >= 2
  }

  ghost predicate HasCycle<N(!new)>(g: Edges<N>) {
    exists n :: Leads(g, n, n)
  }

  lemma TailOfWalk<N(!new)>(g: Edges<N>, p: seq<N>)
    requires Walk(g, p) && |p| > 1
    ensures p[1] in Succ(g, p[0])
    ensures WalkFromTo(g, p[1..], p[1], p[|p| - 1])
  {
    assert Linked(g, p, 0);
    forall i {:trigger Linked(g, p[1..], i)} ensures Linked(g, p[1..], i) { assert Linked(g, p, i + 1); }
  }

  lemma StepReaches<N(!new)>(g: Edges<N>, a: N, b: N)
    requires b in Succ(g, a)
    ensures Leads(g, a, b) && Reaches(g, a, b)
  {
    assert WalkFromTo(g, [a, b], a, b);
  }

  lemma ReachesSelf<N(!new)>(g: Edges<N>, a: N)
    ensures Reaches(g, a, a)
  {
    assert WalkFromTo(g, [a], a, a);
  }

  lemma JoinWalks<N>(g: Edges<N>, p: seq<N>, q: seq<N>)
    requires Walk(g, p) && Walk(g, q) && p[|p| - 1] == q[0]
    ensures WalkFromTo(g, p + q[1..], p[0], q[|q| - 1])
  {
    var r := p + q[1..];
    forall i {:trigger Linked(g, r, i)} ensures Linked(g, r, i) {
      assert Linked(g, p, i) && Linked(g, q, i - (|p| - 1));
      if |p| - 1 <= i < |r| - 1 {
        assert r[i] == q[i - (|p| - 1)] && r[i + 1] == q[i + 1 - (|p| - 1)];
      }
    }
  }

  lemma ReachesTransitive<N(!new)>(g: Edges<N>, a: N, b: N, c: N)
    requires Reaches(g, a, b) && Reaches(g, b, c)
    ensures Reaches(g, a, c)
  {
    var p :| WalkFromTo(g, p, a, b);
    var q :| WalkFromTo(g, q, b, c);
    JoinWalks(g, p, q);
  }

  lemma LeadsThenReaches<N(!new)>(g: Edges<N>, a: N, b: N, c: N)
    requires (Leads(g, a, b) && Reaches(g, b, c)) || (Reaches(g, a, b) && Leads(g, b, c))
    ensures Leads(g, a, c)
  {
    var p, q;
    if Leads(g, a, b) && Reaches(g, b, c) {
      p :| WalkFromTo(g, p, a, b) && |p| >= 2;
      q :| WalkFromTo(g, q, b, c);
    } else {
      p :| WalkFromTo(g, p, a, b);
      q :| WalkFromTo(g, q, b, c) && |q| >= 2;
    }
    JoinWalks(g, p, q);
  }

  /** One or more steps: a first step, then zero or more. */
  lemma LeadsByFirst<N(!new)>(g: Edges<N>, a: N, b: N)
    ensures Leads(g, a, b) <==> exists n :: n in Succ(g, a) && Reaches(g, n, b)
  {
    if Leads(g, a, b) {
      var p :| WalkFromTo(g, p, a, b) && |p| >= 2;
      TailOfWalk(g, p);
    }
    if n :| n in Succ(g, a) && Reaches(g, n, b) {
      StepReaches(g, a, n);
      LeadsThenReaches(g, a, n, b);
    }
  }

  lemma ReachesIsLeadsOrSame<N(!new)>(g: Edges<N>, a: N, b: N)
    ensures Reaches(g, a, b) <==> a == b || Leads(g, a, b)
  {
    if Reaches(g, a, b) {
      var p :| WalkFromTo(g, p, a, b);
      assert |p| == 1 ==> a == b;
    }
    if a == b { ReachesSelf(g, a); }
  }

  /** A set that holds the start and is closed under successors holds everything reachable. */
  lemma ClosedSetHoldsReachable<N(!new)>(g: Edges<N>, s: set<N>, p: seq<N>)
    requires Walk(g, p) && p[0] in s
    requires forall n :: n in s ==> Succ(g, n) <= s
    ensures p[|p| - 1] in s
    decreases |p|
  {
    if |p| > 1 {
      TailOfWalk(g, p);
      ClosedSetHoldsReachable(g, s, p[1..]);
    }
  }

  ghost predicate StaysIn<N(!new)>(g: Edges<N>, s: set<N>, n: N) {
    exists m :: m in s && m in Succ(g, n)
  }

  /** Where a finite set of nodes all have a successor inside the set, there is a cycle:
      a walk longer than the set visits some node twice. */
  lemma {:induction false} NoSinkMakesCycle<N(!new)>(g: Edges<N>, s: set<N>)
    requires s != {}
    requires forall n {:trigger StaysIn(g, s, n)} :: n in s ==> StaysIn(g, s, n)
    ensures HasCycle(g)
  {
    var p := WalkInside(g, s, |s|);
    var i, j := RepeatInWalk(p, s);
    var q := p[i..j + 1];
    assert WalkFromTo(g, q, p[i], p[i]) by {
      forall k {:trigger Linked(g, q, k)} ensures Linked(g, q, k) { assert Linked(g, p, i + k); }
    }
    assert Leads(g, p[i], p[i]);
  }

  lemma WalkInside<N(!new)>(g: Edges<N>, s: set<N>, steps: nat) returns (p: seq<N>)
    requires s != {}
    requires forall n {:trigger StaysIn(g, s, n)} :: n in s ==> StaysIn(g, s, n)
    ensures Walk(g, p) && |p| == steps + 1 && forall i :: 0 <= i < |p| ==> p[i] in s
  {
    if steps == 0 {
      var n :| n in s;
      p := [n];
    } else {
      var q := WalkInside(g, s, steps - 1);
      var last := q[|q| - 1];
      assert StaysIn(g, s, last);
      var n :| n in s && n in Succ(g, last);
      p := q + [n];
      forall i {:trigger Linked(g, p, i)} ensures Linked(g, p, i) { assert Linked(g, q, i); }
    }
  }

  /** The pigeonhole principle for a sequence longer than the set it draws from. */
  lemma {:induction false} RepeatInWalk<N(!new)>(p: seq<N>, s: set<N>) returns (i: nat, j: nat)
    requires |p| > |s| && forall k :: 0 <= k < |p| ==> p[k] in s
    ensures i < j < |p| && p[i] == p[j]
    decreases |p|
  {
    var last := |p| - 1;
    if k :| 0 <= k < last && p[k] == p[last] {
      return k, last;
    }
    i, j := RepeatInWalk(p[..last], s - {p[last]});
  }
}
