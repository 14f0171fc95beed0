/** The generic lifecycle machine (backend/autora/runtime/fsm.py): which moves are legal, the
    shortest legal path between two states, and the guarded moves themselves. */
module Fsm {
  import opened Wrappers
  import opened Sequences
  import opened Graphs

  /** `order` lists the states in the order their names sort, which is the order the source
      visits a state's targets in. A guard sees the entity's other fields (`F`) and answers with
      a reason to refuse. */
  datatype Machine<S(==,!new), !F> = Machine(
    order: seq<S>,
    transitions: Edges<S>,
    guards: map<(S, S), F -> Option<string>>)
  {
    /** Every move is between declared states and never from a state to itself. */
    ghost predicate Valid() {
      forall s, t {:trigger t in Succ(transitions, s)} :: t in Succ(transitions, s) ==> s in order && t in order && s != t
    }

    function AllowedFrom(s: S): set<S> { Succ(transitions, s) }

    /** The targets of `s` as a list, sorted by name. */
    function SortedTargets(s: S): (r: seq<S>)
      requires Valid()
      ensures forall t :: t in r <==> t in AllowedFrom(s)
    {
      Keep(order, AllowedFrom(s))
    }

    /** The move check: legal and not refused by a guard. */
    function Check(current: S, facts: F, target: S): Result<(), FsmError> {
      if target !in AllowedFrom(current) then Err(IllegalTransition)
      else if (current, target) in guards then
        match guards[(current, target)](facts)
        case None => Ok(())
        case Some(reason) => Err(GuardRejected(reason))
      else Ok(())
    }
  }

  datatype FsmError = IllegalTransition | GuardRejected(reason: string)

  function Keep<S(==,!new)>(xs: seq<S>, keep: set<S>): (r: seq<S>)
    ensures forall t :: t in r <==> t in xs && t in keep
  {
    if xs == [] then []
    else (if xs[0] in keep then [xs[0]] else []) + Keep(xs[1..], keep)
  }

  /** What the search knows: every discovered node has a level, every finished node's successors
      are discovered at most one level further, and nothing below level `d` is unfinished. */
  ghost predicate Explored<S(!new)>(g: Edges<S>, start: S, level: map<S, nat>, done: set<S>, d: nat) {
    && start in level && level[start] == 0
    && done <= level.Keys
    && (forall n :: n in level && level[n] < d ==> n in done)
    && (forall n, t {:trigger t in Succ(g, n)} :: n in done && t in Succ(g, n) ==> t in level && level[t] <= level[n] + 1)
  }

  lemma {:induction false} ShortWalksAreExplored<S(!new)>(g: Edges<S>, start: S, level: map<S, nat>, done: set<S>, d: nat, p: seq<S>)
    requires Explored(g, start, level, done, d)
    requires Walk(g, p) && p[0] == start && |p| - 1 <= d
    ensures p[|p| - 1] in level && level[p[|p| - 1]] <= |p| - 1
    decreases |p|
  {
    if |p| > 1 {
      var q := p[..|p| - 1];
      forall i {:trigger Linked(g, q, i)} ensures Linked(g, q, i) { assert Linked(g, p, i); }
      ShortWalksAreExplored(g, start, level, done, d, q);
      assert Linked(g, p, |p| - 2);
    }
  }

  /** The discovery tree: each node's predecessor is one level closer to the start. */
  ghost predicate Tree<S(!new)>(g: Edges<S>, start: S, previous: map<S, S>, level: map<S, nat>) {
    && (forall n :: n in level <==> n == start || n in previous)
    && start !in previous && start in level && level[start] == 0
    && forall n {:trigger ParentIsCloser(g, previous, level, n)} :: n in previous ==> ParentIsCloser(g, previous, level, n)
  }

  ghost predicate ParentIsCloser<S(!new)>(g: Edges<S>, previous: map<S, S>, level: map<S, nat>, n: S) {
    n in previous && n in level && previous[n] in level &&
    n in Succ(g, previous[n]) && level[n] == level[previous[n]] + 1
  }

  /** `path` leads from `start` (left out) to `goal`, and nothing shorter does. */
  ghost predicate IsShortest<S(!new)>(g: Edges<S>, start: S, goal: S, path: seq<S>) {
    && WalkFromTo(g, [start] + path, start, goal)
    && forall p {:trigger WalkFromTo(g, p, start, goal)} :: WalkFromTo(g, p, start, goal) ==> |path| + 1 <= |p|
  }

  lemma ShortestReaches<S(!new)>(g: Edges<S>, start: S, goal: S, path: seq<S>)
    requires IsShortest(g, start, goal, path)
    ensures Reaches(g, start, goal)
  {
  }

  /** The state of the search: `busy` holds the node being expanded, at level `d`; the frontier
      holds `k` nodes of level `d`, then nodes of level `d + 1`. */
  ghost predicate Searching<S(!new)>(
    g: Edges<S>, start: S, previous: map<S, S>, level: map<S, nat>, done: set<S>, frontier: seq<S>, busy: set<S>, d: nat, k: nat)
  {
    && Tree(g, start, previous, level)
    && Explored(g, start, level, done, d)
    && (forall n :: n in done ==> level[n] <= d)
    && (forall n :: n in level ==> n in done || n in frontier || n in busy)
    && busy <= level.Keys && (forall n :: n in busy ==> level[n] == d)
    && k <= |frontier|
    && (forall i :: 0 <= i < |frontier| ==> frontier[i] in level && level[frontier[i]] == if i < k then d else d + 1)
  }

  lemma Begin<S(!new)>(g: Edges<S>, start: S)
    ensures Searching(g, start, map[], map[start := 0], {}, [start], {}, 0, 1)
  {
  }

  /** An empty frontier: everything reachable has been discovered. */
  lemma Exhausted<S(!new)>(
    g: Edges<S>, start: S, previous: map<S, S>, level: map<S, nat>, done: set<S>, d: nat, k: nat, goal: S)
    requires Searching(g, start, previous, level, done, [], {}, d, k) && goal !in level
    ensures !Reaches(g, start, goal)
  {
    if Reaches(g, start, goal) {
      var p :| WalkFromTo(g, p, start, goal);
      ClosedSetHoldsReachable(g, done, p);
    }
  }

  lemma Take<S(!new)>(
    g: Edges<S>, start: S, previous: map<S, S>, level: map<S, nat>, done: set<S>, frontier: seq<S>, d: nat, k: nat)
    requires frontier != [] && k > 0
    requires Searching(g, start, previous, level, done, frontier, {}, d, k)
    ensures Searching(g, start, previous, level, done, frontier[1..], {frontier[0]}, d, k - 1)
  {
    assert frontier == [frontier[0]] + frontier[1..];
  }

  lemma Discover<S(!new)>(
    g: Edges<S>, start: S, previous: map<S, S>, level: map<S, nat>, done: set<S>, frontier: seq<S>, current: S, d: nat, k: nat, nxt: S)
    requires Searching(g, start, previous, level, done, frontier, {current}, d, k)
    requires nxt in Succ(g, current) && nxt !in level
    ensures Searching(g, start, previous[nxt := current], level[nxt := d + 1], done, frontier + [nxt], {current}, d, k)
  {
    var wider := level[nxt := d + 1];
    assert current in {current};
    var longer := previous[nxt := current];
    forall n {:trigger ParentIsCloser(g, longer, wider, n)} | n in longer ensures ParentIsCloser(g, longer, wider, n) {
      assert n != nxt ==> ParentIsCloser(g, previous, level, n);
    }
    assert Tree(g, start, longer, wider);
    assert Explored(g, start, wider, done, d);
  }

  lemma Leave<S(!new)>(
    g: Edges<S>, start: S, previous: map<S, S>, level: map<S, nat>, done: set<S>, frontier: seq<S>, current: S, d: nat, k: nat)
    requires Searching(g, start, previous, level, done, frontier, {current}, d, k)
    requires forall t :: t in Succ(g, current) ==> t in level
    ensures k > 0 ==> Searching(g, start, previous, level, done + {current}, frontier, {}, d, k)
    ensures k == 0 ==> Searching(g, start, previous, level, done + {current}, frontier, {}, d + 1, |frontier|)
  {
    assert current in {current};
  }

  function Reversed<S>(s: seq<S>): (r: seq<S>)
    ensures |r| == |s|
  {
    if s == [] then [] else [s[|s| - 1]] + Reversed(s[..|s| - 1])
  }

  /** Walk back from `goal` along the discovery tree. */
  method PathBack<S(==,!new)>(ghost g: Edges<S>, start: S, goal: S, previous: map<S, S>, ghost level: map<S, nat>)
    returns (r: seq<S>)
    requires Tree(g, start, previous, level)
    requires goal in previous
    ensures |r| == level[goal] && r != []
    ensures WalkFromTo(g, [start] + r, start, goal)
  {
    var path := [goal];
    assert ParentIsCloser(g, previous, level, goal);
    while path[|path| - 1] != start
      invariant |path| > 0 && path[|path| - 1] in level
      invariant level[path[|path| - 1]] + |path| - 1 == level[goal]
      invariant WalkFromTo(g, Reversed(path), path[|path| - 1], goal)
      decreases level[path[|path| - 1]]
    {
      var last := path[|path| - 1];
      assert ParentIsCloser(g, previous, level, last);
      ghost var walked := Reversed(path);
      var longer := path + [previous[last]];
      assert longer[..|longer| - 1] == path;
      assert [previous[last], last][1..] == [last];
      JoinWalks(g, [previous[last], last], walked);
      assert [previous[last], last] + walked[1..] == [previous[last]] + walked;
      path := longer;
    }
    var back := Reversed(path);
    r := back[1..];
    assert [start] + r == back;
  }

  /** Expand one node: discover its new targets in order, or stop with a path when one of them is
      the goal. */
  method Expand<S(==,!new), F>(
    m: Machine<S, F>, start: S, goal: S, current: S, was: map<S, S>, queue: seq<S>,
    ghost known: map<S, nat>, ghost done: set<S>, ghost d: nat, ghost k: nat)
    returns (previous: map<S, S>, frontier: seq<S>, path: Option<seq<S>>, ghost level: map<S, nat>)
    requires m.Valid() && goal !in known
    requires Searching(m.transitions, start, was, known, done, queue, {current}, d, k)
    ensures path.Some? ==> IsShortest(m.transitions, start, goal, path.value)
    ensures path.None? ==> goal !in level
    ensures path.None? ==> Searching(m.transitions, start, previous, level, done, frontier, {current}, d, k)
    ensures path.None? ==> forall t :: t in Succ(m.transitions, current) ==> t in level
    ensures was.Keys <= previous.Keys && forall n :: n in previous ==> n in was || n in m.order
    ensures path.None? && was.Keys == previous.Keys ==> frontier == queue
  {
    ghost var g := m.transitions;
    previous, frontier, path, level := was, queue, None, known;
    var targets := m.SortedTargets(current);
    for i := 0 to |targets|
      invariant Searching(g, start, previous, level, done, frontier, {current}, d, k)
      invariant was.Keys <= previous.Keys && forall n :: n in previous ==> n in was || n in m.order
      invariant goal !in level && path.None?
      invariant forall j :: 0 <= j < i ==> targets[j] in level
      invariant was.Keys == previous.Keys ==> frontier == queue
    {
      var nxt := targets[i];
      if nxt !in previous && nxt != start {
        Discover(g, start, previous, level, done, frontier, current, d, k, nxt);
        previous := previous[nxt := current];
        if nxt == goal {
          NoShorterWalk(g, start, level, done, d, goal);
          level := level[nxt := d + 1];
          var found := PathBack(g, start, goal, previous, level);
          path := Some(found);
          return;
        }
        level := level[nxt := d + 1];
        frontier := frontier + [nxt];
      }
    }
  }

  lemma NoShorterWalk<S(!new)>(g: Edges<S>, start: S, level: map<S, nat>, done: set<S>, d: nat, goal: S)
    requires Explored(g, start, level, done, d) && goal !in level
    ensures forall p {:trigger WalkFromTo(g, p, start, goal)} :: WalkFromTo(g, p, start, goal) ==> d + 2 <= |p|
  {
    forall p | WalkFromTo(g, p, start, goal) ensures d + 2 <= |p| {
      if |p| - 1 <= d { ShortWalksAreExplored(g, start, level, done, d, p); }
    }
  }

  /** Take the next node off the frontier and expand it; either the goal is found or the search is
      strictly further along. */
  method Visit<S(==,!new), F>(
    m: Machine<S, F>, start: S, goal: S, was: map<S, S>, queue: seq<S>,
    ghost known: map<S, nat>, ghost done: set<S>, ghost d: nat, ghost k: nat)
    returns (previous: map<S, S>, frontier: seq<S>, path: Option<seq<S>>,
             ghost level: map<S, nat>, ghost d': nat, ghost k': nat)
    requires m.Valid() && goal !in known && queue != [] && k > 0
    requires Searching(m.transitions, start, was, known, done, queue, {}, d, k) && Declared(m, was)
    ensures path.Some? ==> IsShortest(m.transitions, start, goal, path.value)
    ensures path.None? ==> goal !in level && (frontier != [] ==> k' > 0) && Declared(m, previous)
    ensures path.None? ==> Searching(m.transitions, start, previous, level, done + {queue[0]}, frontier, {}, d', k')
    ensures path.None? ==> |Unseen(m, previous)| < |Unseen(m, was)| || (previous.Keys == was.Keys && |frontier| < |queue|)
  {
    ghost var g := m.transitions;
    var current := queue[0];
    Take(g, start, was, known, done, queue, d, k);
    previous, frontier, path, level := Expand(m, start, goal, current, was, queue[1..], known, done, d, k - 1);
    d', k' := if k > 1 then d else d + 1, if k > 1 then k - 1 else |frontier|;
    if path.None? {
      Leave(g, start, previous, level, done, frontier, current, d, k - 1);
      Shrinks(Elements(m.order), was.Keys, previous.Keys);
    }
  }

  ghost predicate Declared<S(!new), F>(m: Machine<S, F>, previous: map<S, S>) {
    previous.Keys <= Elements(m.order)
  }

  ghost function Unseen<S(!new), F>(m: Machine<S, F>, previous: map<S, S>): set<S> {
    Elements(m.order) - previous.Keys
  }

  /** Breadth-first search over the legal moves. The path leaves out the start; it is legal, ends
      at the goal, no legal path is shorter, and the search fails exactly when there is none. */
  method ShortestPath<S(==,!new), F>(m: Machine<S, F>, start: S, goal: S) returns (r: Result<seq<S>, FsmError>)
    requires m.Valid()
    ensures r.Ok? ==> IsShortest(m.transitions, start, goal, r.value) && Reaches(m.transitions, start, goal)
    ensures r.Err? ==> r.error == IllegalTransition && !Reaches(m.transitions, start, goal)
  {
    ghost var g := m.transitions;
    if start == goal {
      ReachesSelf(g, start);
      return Ok([]);
    }
    var previous: map<S, S> := map[];
    var frontier := [start];
    ghost var level: map<S, nat>, done: set<S> := map[start := 0], {};
    ghost var d: nat, k: nat := 0, 1;
    Begin(g, start);
    while frontier != []
      invariant Searching(g, start, previous, level, done, frontier, {}, d, k) && (frontier != [] ==> k > 0)
      invariant Declared(m, previous) && goal !in level
      decreases |Unseen(m, previous)|, |frontier|
    {
      ghost var current := frontier[0];
      var path;
      previous, frontier, path, level, d, k := Visit(m, start, goal, previous, frontier, level, done, d, k);
      if path.Some? {
        ShortestReaches(g, start, goal, path.value);
        return Ok(path.value);
      }
      done := done + {current};
    }
    Exhausted(g, start, previous, level, done, d, k, goal);
    return Err(IllegalTransition);
  }

  lemma Shrinks<S>(all: set<S>, a: set<S>, b: set<S>)
    requires a <= b <= all
    ensures a == b || |all - b| < |all - a|
  {
    if a != b {
      assert all - a == (all - b) + (b - a);
      assert b - a != {};
    }
  }

  /** A state-holding row: its state, the fields guards look at, and its audit trail. */
  class Entity<S(==,!new), F> {
    var state: S
    var facts: F
    var audit: seq<(S, S)>

    constructor (initial: S, facts: F)
      ensures state == initial && this.facts == facts && audit == []
    {
      state, this.facts, audit := initial, facts, [];
    }

    /** One guarded move; a refused move changes nothing. */
    method Transition(m: Machine<S, F>, target: S) returns (r: Result<(), FsmError>)
      modifies this
      ensures r == m.Check(old(state), facts, target) && facts == old(facts)
      ensures r.Ok? ==> target in m.AllowedFrom(old(state))
      ensures r.Ok? ==> state == target && audit == old(audit) + [(old(state), target)]
      ensures r.Err? ==> state == old(state) && audit == old(audit)
    {
      r := m.Check(state, facts, target);
      if r.Ok? {
        audit := audit + [(state, target)];
        state := target;
      }
    }

    /** Go from state to state on a shortest path, with an entry for each move. Unless a guard refuses a hop, the
        target is reached exactly when it is reachable, in the fewest hops, with one audit entry
        for each hop, chained from the old state to the new one. */
    method TransitionVia(m: Machine<S, F>, target: S) returns (r: Result<(), FsmError>)
      requires m.Valid()
      modifies this
      ensures facts == old(facts)
      ensures !Reaches(m.transitions, old(state), target) ==>
                r == Err(IllegalTransition) && state == old(state) && audit == old(audit)
      ensures Reaches(m.transitions, old(state), target) ==> r.Ok? || r.error.GuardRejected?
      ensures r.Ok? ==> state == target
      ensures old(audit) <= audit && Chain(audit[|old(audit)|..], old(state), state)
      ensures forall k :: |old(audit)| <= k < |audit| ==> audit[k].1 in m.AllowedFrom(audit[k].0)
      ensures r.Ok? ==> forall p {:trigger WalkFromTo(m.transitions, p, old(state), target)} ::
                WalkFromTo(m.transitions, p, old(state), target) ==> |audit| - |old(audit)| < |p|
    {
      var found := ShortestPath(m, state, target);
      if found.Err? { return Err(found.error); }
      var hops := found.value;
      ghost var was, trail := state, audit;
      var i := 0;
      while i < |hops|
        invariant 0 <= i <= |hops|
        invariant facts == old(facts)
        invariant state == ([was] + hops)[i]
        invariant trail <= audit && |audit| == |trail| + i
        invariant Chain(audit[|trail|..], was, state)
        invariant forall k :: |trail| <= k < |audit| ==> audit[k].1 in m.AllowedFrom(audit[k].0)
      {
        assert ([was] + hops)[i + 1] == hops[i] && Linked(m.transitions, [was] + hops, i);
        ghost var from, entries := state, audit[|trail|..];
        r := Transition(m, hops[i]);
        if r.Err? {
          return;
        }
        assert audit[|trail|..] == entries + [(from, state)];
        ChainGrows(entries, was, from, state);
        i := i + 1;
      }
      r := Ok(());
    }
  }

  /** The entries lead from one state to the other, each starting where the one before ended. */
  ghost predicate Chain<S(!new)>(entries: seq<(S, S)>, from: S, to: S) {
    if entries == [] then from == to
    else entries[0].0 == from && Chain(entries[1..], entries[0].1, to)
  }

  lemma ChainGrows<S(!new)>(entries: seq<(S, S)>, a: S, b: S, c: S)
    requires Chain(entries, a, b)
    ensures Chain(entries + [(b, c)], a, c)
  {
    if entries != [] {
      ChainGrows(entries[1..], entries[0].1, b, c);
      assert (entries + [(b, c)])[1..] == entries[1..] + [(b, c)];
    }
  }
}
