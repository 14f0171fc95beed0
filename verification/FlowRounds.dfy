/** What a revision round does to the tasks of a run (backend/autora/runtime/dag.py:357-394). */
module FlowRounds {
  import opened Wrappers
  import opened Sequences
  import opened Graphs
  import opened Lifecycles
  import opened Templates
  import opened Tasks
  import opened Flows
  import opened FlowInvariant

  /** The body of a loop has each node on a path from the first node to the check, once. */
  lemma BodyIsPath(t: Template, loop: Loop, n: Name)
    requires t.Valid() && t.ValidLoop(loop)
    ensures n in t.Body(loop) <==> t.OnPath(loop, n)
    ensures t.OnPath(loop, n) ==> t.Has(n)
  {
    t.OrderIsDependencyOrder();
    FilterHolds(t.Order(), t.Inside(loop), n);
    if t.OnPath(loop, n) {
      var p :| WalkFromTo(t.Graph(), p, loop.check, n);
      ClosedSetHoldsReachable(t.Graph(), Elements(Names(t.nodes)), p);
    }
  }

  lemma BodyIsDistinct(t: Template, loop: Loop)
    requires t.Valid() && t.ValidLoop(loop)
    ensures Distinct(t.Body(loop)) && |t.Body(loop)| <= |t.nodes|
  {
    t.OrderIsDependencyOrder();
    FilterKeepsDistinct(t.Order(), t.Inside(loop));
  }

  lemma BodyEnds(t: Template, loop: Loop)
    requires t.Valid() && t.ValidLoop(loop)
    ensures t.OnPath(loop, loop.check) && t.OnPath(loop, loop.backTo)
    ensures loop.check in t.Body(loop) && loop.backTo in t.Body(loop)
  {
    ReachesSelf(t.Graph(), loop.check);
    ReachesSelf(t.Graph(), loop.backTo);
    BodyIsPath(t, loop, loop.check);
    BodyIsPath(t, loop, loop.backTo);
  }

  // ---- what a round does, task by task -----------------------------------------------------

  /** An older task keeps everything but the tasks it waits for: the new copy of the check takes
      the place of the old one. */
  ghost predicate KeptAt(tasks: seq<Task>, i: nat, again: nat, after: seq<Task>, j: nat) {
    j < |tasks| && j < |after| && after[j] == tasks[j].(dependsOn := Swap(tasks[j].dependsOn, i, again))
  }

  /** A new task is the latest copy of its node and depends on the latest copy of each of its
      dependencies; only the loop's first node starts at once. */
  ghost predicate FreshAt(t: Template, loop: Loop, after: seq<Task>, j: nat) {
    && j < |after| && IsLatest(after, j) && t.OnPath(loop, after[j].name) && t.Has(after[j].name)
    && after[j].state == (if after[j].name == loop.backTo then Ready else Pending)
    && |after[j].dependsOn| == |t.Deps(after[j].name)|
    && forall q :: 0 <= q < |after[j].dependsOn| ==> Latest(after, t.Deps(after[j].name)[q]) == Some(after[j].dependsOn[q])
  }

  /** The latest copy of a node is new exactly when the loop repeats the node. */
  ghost predicate RenewedAt(t: Template, loop: Loop, tasks: seq<Task>, after: seq<Task>, n: Name) {
    t.Has(n) ==>
      && Latest(tasks, n).Some? && Latest(after, n).Some?
      && if t.OnPath(loop, n) then |tasks| <= Latest(after, n).value else Latest(after, n) == Latest(tasks, n)
  }

  ghost predicate Grown(t: Template, loop: Loop, tasks: seq<Task>, i: nat, again: nat, after: seq<Task>) {
    && |tasks| <= again < |after|
    && (forall j: nat {:trigger KeptAt(tasks, i, again, after, j)} :: j < |tasks| ==> KeptAt(tasks, i, again, after, j))
    && (forall j: nat {:trigger FreshAt(t, loop, after, j)} :: |tasks| <= j < |after| ==> FreshAt(t, loop, after, j))
    && (forall n {:trigger RenewedAt(t, loop, tasks, after, n)} :: RenewedAt(t, loop, tasks, after, n))
    && Latest(after, loop.check) == Some(again)
  }

  // ---- the round has this form -------------------------------------------------------------

  /** Adding one copy of each of some nodes at the end. */
  lemma LatestAfterAdding(olds: seq<Task>, news: seq<Task>, names: seq<Name>, n: Name)
    requires |news| == |names| && Distinct(names)
    requires forall p :: 0 <= p < |news| ==> news[p].name == names[p]
    ensures n in names ==> Latest(olds + news, n) == Some(|olds| + IndexOf(names, n))
    ensures n !in names ==> Latest(olds + news, n) == Latest(olds, n)
    ensures Copies(olds + news, n) == Copies(olds, n) + if n in names then 1 else 0
  {
    LatestOfJoin(olds, news, n, |news|);
    if n in names {
      var i := IndexOf(names, n);
      forall j | 0 <= j < |news| && news[j].name == n ensures j == i { SamePlace(names, i, j); }
      LatestOfDistinct(news, n, i, |news|);
    } else {
      NoCopy(news, n, |news|);
    }
  }

  lemma LatestAfterRepoint(tasks: seq<Task>, i: nat, again: nat, n: Name)
    ensures Latest(Repoint(tasks, i, again), n) == Latest(tasks, n)
    ensures Copies(Repoint(tasks, i, again), n) == Copies(tasks, n)
  {
    LatestByNames(tasks, Repoint(tasks, i, again), n);
  }

  lemma RoundRenews(f: Flow, i: nat, loop: Loop, n: Name)
    requires f.template.Valid() && f.template.ValidLoop(loop)
    ensures n in f.template.Body(loop) <==> f.template.OnPath(loop, n)
    ensures n in f.template.Body(loop) ==>
              Latest(RoundTasks(f, i, loop), n) == Some(|f.tasks| + IndexOf(f.template.Body(loop), n))
    ensures n !in f.template.Body(loop) ==> Latest(RoundTasks(f, i, loop), n) == Latest(f.tasks, n)
    ensures Copies(RoundTasks(f, i, loop), n) == Copies(f.tasks, n) + if n in f.template.Body(loop) then 1 else 0
  {
    BodyIsPath(f.template, loop, n);
    BodyIsDistinct(f.template, loop);
    RoundRenewsBody(f, i, loop, n);
  }

  lemma RoundRenewsBody(f: Flow, i: nat, loop: Loop, n: Name)
    requires Distinct(f.template.Body(loop))
    ensures n in f.template.Body(loop) ==>
              Latest(RoundTasks(f, i, loop), n) == Some(|f.tasks| + IndexOf(f.template.Body(loop), n))
    ensures n !in f.template.Body(loop) ==> Latest(RoundTasks(f, i, loop), n) == Latest(f.tasks, n)
    ensures Copies(RoundTasks(f, i, loop), n) == Copies(f.tasks, n) + if n in f.template.Body(loop) then 1 else 0
  {
    var olds, news := Repoint(f.tasks, i, Again(f, loop)), NewCopies(f, loop);
    LatestAfterRepoint(f.tasks, i, Again(f, loop), n);
    LatestAfterAdding(olds, news, f.template.Body(loop), n);
    assert RoundTasks(f, i, loop) == olds + news;
    assert Latest(RoundTasks(f, i, loop), n) == Latest(olds + news, n);
    assert |olds| == |f.tasks|;
  }

  lemma RoundKept(f: Flow, i: nat, loop: Loop, j: nat)
    requires j < |f.tasks|
    ensures KeptAt(f.tasks, i, Again(f, loop), RoundTasks(f, i, loop), j)
  {
    assert RoundTasks(f, i, loop)[j] == Repoint(f.tasks, i, Again(f, loop))[j];
  }

  lemma FreeIsFirst(t: Template, loop: Loop, n: Name)
    requires t.Valid() && t.ValidLoop(loop) && t.OnPath(loop, n)
    ensures IsFree(t, loop, n) <==> n == loop.backTo
  {
    t.OnlyFirstIsFree(loop, n);
    forall d | d in t.Deps(n) ensures d in t.Body(loop) <==> t.OnPath(loop, d) { BodyIsPath(t, loop, d); }
  }

  lemma DepIsNode(t: Template, n: Name, q: nat)
    requires t.Valid() && q < |t.Deps(n)|
    ensures t.Has(t.Deps(n)[q])
  {
    assert t.Deps(n)[q] in DepsOf(t.nodes, n);
  }

  /** A dependency of a new copy is the latest copy there is. */
  lemma NewDepIsLatest(f: Flow, i: nat, loop: Loop, n: Name, q: nat)
    requires f.template.Valid() && f.template.ValidLoop(loop) && EveryNodeHasACopy(f.template, f.tasks)
    requires q < |f.template.Deps(n)|
    ensures Latest(RoundTasks(f, i, loop), f.template.Deps(n)[q]) == Some(NewDep(f, loop, f.template.Deps(n)[q]))
  {
    DepIsNode(f.template, n, q);
    assert Latest(f.tasks, f.template.Deps(n)[q]).Some?;
    NewestIsLatest(f, i, loop, f.template.Deps(n)[q]);
  }

  lemma NewestIsLatest(f: Flow, i: nat, loop: Loop, d: Name)
    requires f.template.Valid() && f.template.ValidLoop(loop) && Latest(f.tasks, d).Some?
    ensures Latest(RoundTasks(f, i, loop), d) == Some(NewDep(f, loop, d))
  {
    RoundRenews(f, i, loop, d);
  }

  lemma NewCopyIs(f: Flow, loop: Loop, n: Name)
    requires f.template.Valid() && f.template.ValidLoop(loop) && f.template.OnPath(loop, n)
    ensures NewCopy(f, loop, n).name == n && NewCopy(f, loop, n).dependsOn == NewDeps(f, loop, f.template.Deps(n))
    ensures NewCopy(f, loop, n).state == if n == loop.backTo then Ready else Pending
  {
    FreeIsFirst(f.template, loop, n);
  }

  lemma AddedAt(f: Flow, i: nat, loop: Loop, j: nat)
    requires |f.tasks| <= j < |f.tasks| + |f.template.Body(loop)|
    ensures j < |RoundTasks(f, i, loop)|
    ensures RoundTasks(f, i, loop)[j] == NewCopy(f, loop, f.template.Body(loop)[j - |f.tasks|])
  {
    assert RoundTasks(f, i, loop)[j] == NewCopies(f, loop)[j - |f.tasks|];
  }

  lemma PlaceOf(names: seq<Name>, p: nat)
    requires Distinct(names) && p < |names|
    ensures names[p] in names && IndexOf(names, names[p]) == p
  {
    SamePlace(names, p, IndexOf(names, names[p]));
  }

  lemma AddedIsLatest(f: Flow, i: nat, loop: Loop, j: nat)
    requires Distinct(f.template.Body(loop)) && |f.tasks| <= j < |f.tasks| + |f.template.Body(loop)|
    ensures Latest(RoundTasks(f, i, loop), f.template.Body(loop)[j - |f.tasks|]) == Some(j)
  {
    PlaceOf(f.template.Body(loop), j - |f.tasks|);
    RoundRenewsBody(f, i, loop, f.template.Body(loop)[j - |f.tasks|]);
  }

  lemma RoundFreshName(f: Flow, i: nat, loop: Loop, j: nat, n: Name)
    requires f.template.Valid() && f.template.ValidLoop(loop)
    requires |f.tasks| <= j < |f.tasks| + |f.template.Body(loop)| && n == f.template.Body(loop)[j - |f.tasks|]
    ensures f.template.OnPath(loop, n) && f.template.Has(n)
    ensures j < |RoundTasks(f, i, loop)| && RoundTasks(f, i, loop)[j] == NewCopy(f, loop, n)
    ensures Latest(RoundTasks(f, i, loop), n) == Some(j)
  {
    BodyIsPath(f.template, loop, n);
    BodyIsDistinct(f.template, loop);
    AddedIsLatest(f, i, loop, j);
    AddedAt(f, i, loop, j);
  }

  lemma RoundFresh(f: Flow, i: nat, loop: Loop, j: nat, n: Name)
    requires f.template.Valid() && f.template.ValidLoop(loop) && EveryNodeHasACopy(f.template, f.tasks)
    requires |f.tasks| <= j < |f.tasks| + |f.template.Body(loop)| && n == f.template.Body(loop)[j - |f.tasks|]
    ensures FreshAt(f.template, loop, RoundTasks(f, i, loop), j)
  {
    forall q: nat | q < |f.template.Deps(n)|
      ensures Latest(RoundTasks(f, i, loop), f.template.Deps(n)[q]) == Some(NewDep(f, loop, f.template.Deps(n)[q]))
    {
      NewDepIsLatest(f, i, loop, n, q);
    }
    RoundFreshName(f, i, loop, j, n);
    NewCopyIs(f, loop, n);
  }

  /** A round changes the tasks exactly in this way. */
  lemma RoundGrows(f: Flow, i: nat, loop: Loop)
    requires f.template.Valid() && f.template.ValidLoop(loop) && EveryNodeHasACopy(f.template, f.tasks)
    ensures Grown(f.template, loop, f.tasks, i, Again(f, loop), RoundTasks(f, i, loop))
  {
    var t, after := f.template, RoundTasks(f, i, loop);
    forall j: nat {:trigger KeptAt(f.tasks, i, Again(f, loop), after, j)} | j < |f.tasks| ensures KeptAt(f.tasks, i, Again(f, loop), after, j) {
      RoundKept(f, i, loop, j);
    }
    forall j: nat {:trigger FreshAt(t, loop, after, j)} | |f.tasks| <= j < |after| ensures FreshAt(t, loop, after, j) {
      RoundFresh(f, i, loop, j, t.Body(loop)[j - |f.tasks|]);
    }
    forall n {:trigger RenewedAt(t, loop, f.tasks, after, n)} ensures RenewedAt(t, loop, f.tasks, after, n) {
      RoundRenews(f, i, loop, n);
    }
    BodyEnds(t, loop);
    RoundRenews(f, i, loop, loop.check);
    assert |after| == |f.tasks| + |t.Body(loop)|;
  }

  lemma RoundHasEveryNode(t: Template, loop: Loop, tasks: seq<Task>, i: nat, again: nat, after: seq<Task>)
    requires Grown(t, loop, tasks, i, again, after)
    ensures EveryNodeHasACopy(t, after)
  {
    forall n {:trigger t.Has(n)} | t.Has(n) ensures Latest(after, n).Some? { assert RenewedAt(t, loop, tasks, after, n); }
  }

  lemma KeptShape(t: Template, loop: Loop, tasks: seq<Task>, i: nat, again: nat, after: seq<Task>, j: nat)
    requires Grown(t, loop, tasks, i, again, after) && i < |tasks| && tasks[i].name == loop.check
    requires j < |tasks| && CopyOf(t, tasks, j)
    ensures CopyOf(t, after, j)
  {
    assert KeptAt(tasks, i, again, after, j);
    forall q: nat | q < |after[j].dependsOn|
      ensures after[j].dependsOn[q] < |after| && after[after[j].dependsOn[q]].name == t.Deps(after[j].name)[q]
    {
      var d := tasks[j].dependsOn[q];
      assert KeptAt(tasks, i, again, after, d);
    }
  }

  lemma FreshShape(t: Template, loop: Loop, after: seq<Task>, j: nat)
    requires FreshAt(t, loop, after, j)
    ensures CopyOf(t, after, j)
  {
    forall q: nat | q < |after[j].dependsOn|
      ensures after[j].dependsOn[q] < |after| && after[after[j].dependsOn[q]].name == t.Deps(after[j].name)[q]
    {
      assert Latest(after, t.Deps(after[j].name)[q]) == Some(after[j].dependsOn[q]);
    }
  }
}
