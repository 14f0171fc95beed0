/** Rounds are well shaped and few, for every valid template: what a round adds, and how many tasks
    a run can have at most. */
module FlowBounds {
  import opened Wrappers
  import opened Sequences
  import opened Lifecycles
  import opened Templates
  import opened Tasks
  import opened Flows
  import opened FlowInvariant
  import opened FlowRounds
  import opened FlowRuns

  /** How often a check has started another round. */
  function RoundsOf(extensions: seq<Name>, n: Name): nat {
    if extensions == [] then 0
    else RoundsOf(extensions[..|extensions| - 1], n) + if extensions[|extensions| - 1] == n then 1 else 0
  }

  /** The largest non-negative number of rounds a loop over `n` allows. */
  function MaxRounds(loops: seq<Loop>, n: Name): nat {
    if loops == [] then 0
    else
      var rest := MaxRounds(loops[1..], n);
      if loops[0].check == n && loops[0].maxRounds > rest then loops[0].maxRounds else rest
  }

  lemma {:induction false} MaxRoundsIsMax(loops: seq<Loop>, loop: Loop)
    requires loop in loops
    ensures loop.maxRounds <= MaxRounds(loops, loop.check)
  {
    if loops[0] != loop { MaxRoundsIsMax(loops[1..], loop); }
  }

  function SumOfRounds(loops: seq<Loop>, names: seq<Name>): nat {
    if names == [] then 0 else MaxRounds(loops, names[0]) + SumOfRounds(loops, names[1..])
  }

  function CountAll(extensions: seq<Name>, names: seq<Name>): nat {
    if names == [] then 0 else RoundsOf(extensions, names[0]) + CountAll(extensions, names[1..])
  }

  lemma {:induction false} CountAllSnoc(extensions: seq<Name>, names: seq<Name>, e: Name)
    requires Distinct(names)
    ensures CountAll(extensions + [e], names) == CountAll(extensions, names) + if e in names then 1 else 0
  {
    if names != [] {
      assert (extensions + [e])[..|extensions|] == extensions;
      DistinctTail(names);
      CountAllSnoc(extensions, names[1..], e);
    }
  }

  lemma {:induction false} CountAllOfNone(names: seq<Name>)
    ensures CountAll([], names) == 0
  {
    if names != [] { CountAllOfNone(names[1..]); }
  }

  lemma {:induction false} CountAllIsLength(extensions: seq<Name>, names: seq<Name>)
    requires Distinct(names) && forall e :: e in extensions ==> e in names
    ensures CountAll(extensions, names) == |extensions|
  {
    if extensions == [] {
      CountAllOfNone(names);
    } else {
      var k := |extensions| - 1;
      CountAllIsLength(extensions[..k], names);
      CountAllSnoc(extensions[..k], names, extensions[k]);
      assert extensions[..k] + [extensions[k]] == extensions;
    }
  }

  lemma {:induction false} CountAllAtMost(extensions: seq<Name>, loops: seq<Loop>, names: seq<Name>)
    requires forall n :: n in names ==> RoundsOf(extensions, n) <= MaxRounds(loops, n)
    ensures CountAll(extensions, names) <= SumOfRounds(loops, names)
  {
    if names != [] { CountAllAtMost(extensions, loops, names[1..]); }
  }

  /** A check has started fewer rounds than it has copies, and no more than its loops allow. */
  ghost predicate CheckBounded(f: Flow, n: Name) {
    RoundsOf(f.extensions, n) <= MaxRounds(f.template.loops, n) && RoundsOf(f.extensions, n) < Copies(f.tasks, n)
  }

  ghost predicate Bounded(f: Flow) {
    && (forall n {:trigger CheckBounded(f, n)} :: f.template.Has(n) ==> CheckBounded(f, n))
    && (forall e :: e in f.extensions ==> f.template.Has(e))
    && |f.tasks| <= |f.template.nodes| * (1 + |f.extensions|)
  }

  /** What holds for every valid template: the tasks are copies of the nodes, bounded in number. */
  ghost predicate Sound(f: Flow) {
    f.template.Valid() && Shaped(f) && Bounded(f)
  }

  lemma BoundedWithSameGraph(f: Flow, after: Flow)
    requires Sound(f) && SameGraph(f.tasks, after.tasks) && after.template == f.template && after.extensions == f.extensions
    ensures Sound(after)
  {
    forall n { LatestByNames(f.tasks, after.tasks, n); }
    forall j | 0 <= j < |after.tasks| ensures CopyOf(f.template, after.tasks, j) { assert CopyOf(f.template, f.tasks, j); }
    forall n {:trigger CheckBounded(after, n)} | f.template.Has(n) ensures CheckBounded(after, n) { assert CheckBounded(f, n); }
  }

  lemma RoundIsShaped(f: Flow, i: nat, loop: Loop)
    requires f.template.Valid() && Shaped(f) && loop in f.template.loops && i < |f.tasks| && f.tasks[i].name == loop.check
    ensures Shaped(Round(f, i, loop))
  {
    var t, after, again := f.template, RoundTasks(f, i, loop), Again(f, loop);
    RoundGrows(f, i, loop);
    forall j: nat | j < |after| ensures CopyOf(t, after, j) {
      if j < |f.tasks| {
        assert CopyOf(t, f.tasks, j);
        KeptShape(t, loop, f.tasks, i, again, after, j);
      } else {
        assert FreshAt(t, loop, after, j);
        FreshShape(t, loop, after, j);
      }
    }
    RoundHasEveryNode(t, loop, f.tasks, i, again, after);
  }

  lemma RoundIsCounted(f: Flow, i: nat, loop: Loop, n: Name)
    requires f.template.Valid() && loop in f.template.loops && RoundsLeft(f, loop)
    requires f.template.Has(n) && CheckBounded(f, n)
    ensures CheckBounded(Round(f, i, loop), n)
  {
    var f' := Round(f, i, loop);
    assert f'.extensions[..|f.extensions|] == f.extensions;
    RoundRenews(f, i, loop, n);
    BodyEnds(f.template, loop);
    MaxRoundsIsMax(f.template.loops, loop);
  }

  lemma OneMoreTime(n: nat, k: nat)
    ensures n * (1 + (k + 1)) == n * (1 + k) + n
  {
  }

  lemma RoundIsBounded(f: Flow, i: nat, loop: Loop)
    requires Sound(f) && loop in f.template.loops && RoundsLeft(f, loop)
    ensures Bounded(Round(f, i, loop))
  {
    var f', t := Round(f, i, loop), f.template;
    forall n {:trigger CheckBounded(f', n)} | t.Has(n) ensures CheckBounded(f', n) {
      assert CheckBounded(f, n);
      RoundIsCounted(f, i, loop, n);
    }
    BodyIsDistinct(t, loop);
    assert |f'.tasks| == |f.tasks| + |t.Body(loop)|;
    OneMoreTime(|t.nodes|, |f.extensions|);
  }

  lemma StartIsSound(t: Template)
    requires t.Valid()
    ensures Sound(Start(t))
  {
    var f := Start(t);
    StartKeeps(t);
    t.OrderIsDependencyOrder();
    forall n {:trigger CheckBounded(f, n)} | t.Has(n) ensures CheckBounded(f, n) { NoRoundsYet(f, n); }
  }

  lemma NoRoundsYet(f: Flow, n: Name)
    requires f.extensions == [] && Latest(f.tasks, n).Some?
    ensures CheckBounded(f, n)
  {
    LatestIsLast(f.tasks, n, Latest(f.tasks, n).value);
  }

  lemma CancellingIsSound(f: Flow, which: set<nat>, now: Time)
    requires Sound(f)
    ensures Sound(CloseIfDone(f.(tasks := CancelThese(f.tasks, which, now))))
  {
    BoundedWithSameGraph(f, CloseIfDone(f.(tasks := CancelThese(f.tasks, which, now))));
  }

  lemma UnlockingIsSound(f: Flow, i: nat)
    requires Sound(f)
    ensures Sound(CloseIfDone(f.(tasks := Unlock(f.tasks, i))))
  {
    BoundedWithSameGraph(f, CloseIfDone(f.(tasks := Unlock(f.tasks, i))));
  }

  lemma SuccessIsSound(f: Flow, i: nat, output: Output, now: Time)
    requires Sound(f) && i < |f.tasks|
    ensures Sound(AfterSuccess(f, i, output, now)) && AfterSuccess(f, i, output, now).template == f.template
  {
    var loop := FirstLoop(f.template.loops, f.tasks[i].name, output);
    if Halts(f.template, f.tasks[i].name, output) {
      CancellingIsSound(f, Doomed(f.tasks, i), now);
    } else if loop.Some? {
      if RoundsLeft(f, loop.value) {
        RoundIsShaped(f, i, loop.value);
        RoundIsBounded(f, i, loop.value);
      } else {
        CancellingIsSound(f, Doomed(f.tasks, i), now);
      }
    } else {
      UnlockingIsSound(f, i);
    }
  }

  lemma ApplyIsSound(f: Flow, a: Action)
    requires Sound(f)
    ensures Sound(Apply(f, a)) && Apply(f, a).template == f.template
  {
    if Enabled(f, a) {
      if a.CancelRun? {
        CancellingIsSound(f, Unfinished(f.tasks), a.now);
      } else {
        var f1 := f.(tasks := f.tasks[a.i := a.row]);
        BoundedWithSameGraph(f, f1);
        if a.Succeed? { SuccessIsSound(f1, a.i, a.output, a.now); }
        if a.Die? { CancellingIsSound(f1, Doomed(f1.tasks, a.i), a.now); }
      }
    }
  }

  lemma {:induction false} RunIsSound(t: Template, actions: seq<Action>)
    requires t.Valid()
    ensures Sound(After(t, actions)) && After(t, actions).template == t
  {
    if actions == [] {
      StartIsSound(t);
    } else {
      RunIsSound(t, actions[..|actions| - 1]);
      ApplyIsSound(After(t, actions[..|actions| - 1]), actions[|actions| - 1]);
    }
  }

  lemma ExtensionsAreBounded(f: Flow)
    requires Sound(f)
    ensures |f.extensions| <= SumOfRounds(f.template.loops, Names(f.template.nodes))
  {
    var names, loops := Names(f.template.nodes), f.template.loops;
    forall n | n in names ensures RoundsOf(f.extensions, n) <= MaxRounds(loops, n) { assert f.template.Has(n) && CheckBounded(f, n); }
    CountAllAtMost(f.extensions, loops, names);
    CountAllIsLength(f.extensions, names);
  }

  /** Every node once, and once more for each round. */
  function MostTasks(t: Template): nat {
    |t.nodes| * (1 + SumOfRounds(t.loops, Names(t.nodes)))
  }

  lemma SoundIsBounded(f: Flow)
    requires Sound(f)
    ensures |f.tasks| <= MostTasks(f.template)
  {
    ExtensionsAreBounded(f);
    var n, x, y := |f.template.nodes|, 1 + |f.extensions|, 1 + SumOfRounds(f.template.loops, Names(f.template.nodes));
    assert |f.tasks| <= n * x;
    MulMonotone(n, x, y);
  }

  /** A run never has more tasks than nodes times one plus the rounds its checks allow together,
      each check counted once, with the most generous of its loops. */
  lemma TasksAreBounded(t: Template, actions: seq<Action>)
    requires t.Valid()
    ensures |After(t, actions).tasks| <= MostTasks(t)
  {
    RunIsSound(t, actions);
    SoundIsBounded(After(t, actions));
  }

  lemma MulMonotone(a: nat, x: nat, y: nat)
    requires x <= y
    ensures a * x <= a * y
  {
  }

  // ---- attempts ----------------------------------------------------------------------------

  /** The most attempts any node allows. */
  function MostAttempts(nodes: seq<Node>): nat {
    if nodes == [] then 0
    else if nodes[0].maxAttempts > MostAttempts(nodes[1..]) then nodes[0].maxAttempts else MostAttempts(nodes[1..])
  }

  lemma {:induction false} FoundAllowsNoMore(nodes: seq<Node>, name: Name)
    ensures Find(nodes, name).Some? ==> Find(nodes, name).value.maxAttempts <= MostAttempts(nodes)
  {
    if nodes != [] { FoundAllowsNoMore(nodes[1..], name); }
  }

  ghost predicate AllowedAt(tasks: seq<Task>, most: nat, j: nat) {
    j < |tasks| ==> tasks[j].maxAttempts <= most
  }

  ghost predicate Allowed(tasks: seq<Task>, most: nat) {
    forall j: nat {:trigger AllowedAt(tasks, most, j)} :: AllowedAt(tasks, most, j)
  }

  lemma SameAttempts(before: seq<Task>, after: seq<Task>, most: nat)
    requires Allowed(before, most) && |after| == |before|
    requires forall j :: 0 <= j < |after| ==> after[j].maxAttempts == before[j].maxAttempts
    ensures Allowed(after, most)
  {
    forall j: nat | j < |after| ensures AllowedAt(after, most, j) { assert AllowedAt(before, most, j); }
  }

  lemma RoundAllows(f: Flow, i: nat, loop: Loop)
    requires f.template.Valid() && loop in f.template.loops && Allowed(f.tasks, MostAttempts(f.template.nodes))
    ensures Allowed(RoundTasks(f, i, loop), MostAttempts(f.template.nodes))
  {
    var after, most := RoundTasks(f, i, loop), MostAttempts(f.template.nodes);
    forall j: nat | j < |after| ensures AllowedAt(after, most, j) {
      if j < |f.tasks| {
        RoundKept(f, i, loop, j);
        assert AllowedAt(f.tasks, most, j);
      } else {
        AddedAt(f, i, loop, j);
        NodeAllows(f.template, loop, j - |f.tasks|);
      }
    }
  }

  lemma NodeAllows(t: Template, loop: Loop, p: nat)
    requires t.Valid() && loop in t.loops && p < |t.Body(loop)|
    ensures NodeNamed(t, t.Body(loop)[p]).maxAttempts <= MostAttempts(t.nodes)
  {
    BodyIsPath(t, loop, t.Body(loop)[p]);
    FindFinds(t.nodes, t.Body(loop)[p]);
    FoundAllowsNoMore(t.nodes, t.Body(loop)[p]);
  }

  lemma SuccessAllows(f: Flow, i: nat, output: Output, now: Time)
    requires f.template.Valid() && i < |f.tasks| && Allowed(f.tasks, MostAttempts(f.template.nodes))
    ensures Allowed(AfterSuccess(f, i, output, now).tasks, MostAttempts(f.template.nodes))
  {
    CascadeAllows(f.tasks, i, now, MostAttempts(f.template.nodes));
    UnlockAllows(f.tasks, i, MostAttempts(f.template.nodes));
    var loop := FirstLoop(f.template.loops, f.tasks[i].name, output);
    if loop.Some? { RoundAllows(f, i, loop.value); }
  }

  lemma CascadeAllows(tasks: seq<Task>, i: nat, now: Time, most: nat)
    requires Allowed(tasks, most)
    ensures Allowed(Cascade(tasks, i, now), most)
  {
    SameAttempts(tasks, Cascade(tasks, i, now), most);
  }

  lemma UnlockAllows(tasks: seq<Task>, i: nat, most: nat)
    requires Allowed(tasks, most)
    ensures Allowed(Unlock(tasks, i), most)
  {
    SameAttempts(tasks, Unlock(tasks, i), most);
  }

  lemma ApplyAllows(f: Flow, a: Action)
    requires f.template.Valid() && Allowed(f.tasks, MostAttempts(f.template.nodes))
    ensures Allowed(Apply(f, a).tasks, MostAttempts(f.template.nodes))
  {
    var most := MostAttempts(f.template.nodes);
    if Enabled(f, a) {
      if a.CancelRun? {
        SameAttempts(f.tasks, CancelThese(f.tasks, Unfinished(f.tasks), a.now), most);
      } else {
        var f1 := f.(tasks := f.tasks[a.i := a.row]);
        SameAttempts(f.tasks, f1.tasks, most);
        if a.Succeed? { SuccessAllows(f1, a.i, a.output, a.now); }
        if a.Die? { SameAttempts(f1.tasks, Cascade(f1.tasks, a.i, a.now), most); }
      }
    }
  }

  lemma StartAllows(t: Template)
    requires t.Valid()
    ensures Allowed(FirstTasks(t), MostAttempts(t.nodes))
  {
    t.OrderIsDependencyOrder();
    forall j: nat | j < |FirstTasks(t)| ensures AllowedAt(FirstTasks(t), MostAttempts(t.nodes), j) {
      assert t.Order()[j] in t.Order();
      FindFinds(t.nodes, t.Order()[j]);
      FoundAllowsNoMore(t.nodes, t.Order()[j]);
    }
  }

  lemma {:induction false} RunAllows(t: Template, actions: seq<Action>)
    requires t.Valid()
    ensures Allowed(After(t, actions).tasks, MostAttempts(t.nodes)) && After(t, actions).template == t
  {
    if actions == [] {
      StartAllows(t);
    } else {
      RunAllows(t, actions[..|actions| - 1]);
      ApplyAllows(After(t, actions[..|actions| - 1]), actions[|actions| - 1]);
      RunIsSound(t, actions);
    }
  }

  /** No task is allowed more attempts than the most patient node of the template. */
  lemma AttemptsAreAllowed(t: Template, actions: seq<Action>)
    requires t.Valid()
    ensures forall j :: 0 <= j < |After(t, actions).tasks| ==> After(t, actions).tasks[j].maxAttempts <= MostAttempts(t.nodes)
  {
    RunAllows(t, actions);
    forall j: nat | j < |After(t, actions).tasks| ensures After(t, actions).tasks[j].maxAttempts <= MostAttempts(t.nodes) {
      assert AllowedAt(After(t, actions).tasks, MostAttempts(t.nodes), j);
    }
  }

  /** Task `d` is what a new copy depends on for a dependency named `m`: inside the loop the new
      copy, outside it the newest older one. */
  ghost predicate NewDepAt(f: Flow, loop: Loop, m: Name, d: nat) {
    if f.template.OnPath(loop, m) then |f.tasks| <= d < |f.tasks| + |f.template.Body(loop)| && f.template.Body(loop)[d - |f.tasks|] == m
    else Latest(f.tasks, m) == Some(d)
  }

  lemma NewDepIsThere(f: Flow, i: nat, loop: Loop, n: Name, q: nat)
    requires f.template.Valid() && f.template.ValidLoop(loop) && EveryNodeHasACopy(f.template, f.tasks)
    requires q < |f.template.Deps(n)|
    ensures NewDepAt(f, loop, f.template.Deps(n)[q], NewDep(f, loop, f.template.Deps(n)[q]))
  {
    DepIsNode(f.template, n, q);
    BodyIsPath(f.template, loop, f.template.Deps(n)[q]);
  }

  /** What stands at place `j` after a round, among the new tasks. */
  ghost predicate NewTaskAt(f: Flow, loop: Loop, tasks: seq<Task>, j: nat) {
    && |tasks| == |f.tasks| + |f.template.Body(loop)| && |f.tasks| <= j < |tasks|
    && var n := f.template.Body(loop)[j - |f.tasks|];
    && tasks[j].name == n && f.template.OnPath(loop, n)
    && tasks[j].state == (if n == loop.backTo then Ready else Pending)
    && |tasks[j].dependsOn| == |f.template.Deps(n)|
    && forall q :: 0 <= q < |tasks[j].dependsOn| ==> NewDepAt(f, loop, f.template.Deps(n)[q], tasks[j].dependsOn[q])
  }

  lemma RoundIsWellShaped(f: Flow, i: nat, loop: Loop, j: nat)
    requires Sound(f) && loop in f.template.loops && i < |f.tasks|
    requires |f.tasks| <= j < |f.tasks| + |f.template.Body(loop)|
    ensures NewTaskAt(f, loop, Round(f, i, loop).tasks, j)
  {
    var n := f.template.Body(loop)[j - |f.tasks|];
    RoundFreshName(f, i, loop, j, n);
    NewCopyIs(f, loop, n);
    forall q: nat | q < |f.template.Deps(n)|
      ensures NewDepAt(f, loop, f.template.Deps(n)[q], NewDeps(f, loop, f.template.Deps(n))[q])
    {
      NewDepIsThere(f, i, loop, n, q);
    }
  }

  /** In every reachable run, of any valid template: a round adds, behind the tasks there are, one
      copy of each node on a path from the loop's first node to its check, in dependency order;
      every lookup of a dependency succeeds; only the copy of the first node is READY, the others
      are PENDING. */
  lemma RoundsAreWellShaped(t: Template, actions: seq<Action>, i: nat, loop: Loop)
    requires t.Valid() && loop in t.loops && i < |After(t, actions).tasks|
    ensures var f := After(t, actions);
            |Round(f, i, loop).tasks| == |f.tasks| + |t.Body(loop)| &&
            forall j: nat {:trigger NewTaskAt(f, loop, Round(f, i, loop).tasks, j)} ::
              |f.tasks| <= j < |f.tasks| + |t.Body(loop)| ==> NewTaskAt(f, loop, Round(f, i, loop).tasks, j)
  {
    RunIsSound(t, actions);
    var f := After(t, actions);
    assert |Round(f, i, loop).tasks| == |f.tasks| + |t.Body(loop)|;
    forall j: nat | |f.tasks| <= j < |f.tasks| + |t.Body(loop)| ensures NewTaskAt(f, loop, Round(f, i, loop).tasks, j) {
      RoundIsWellShaped(f, i, loop, j);
    }
  }
}
