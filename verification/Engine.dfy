/** The workflow engine as the source runs it, step by step on a run's rows
    (backend/autora/runtime/dag.py:218-484). Every method is proved equal to the reaction that Flow
    defines, whose properties hold over whole runs. */
module Engine {
  import opened Wrappers
  import opened Sequences
  import opened Graphs
  import opened Lifecycles
  import opened Templates
  import opened Tasks
  import opened Rows
  import opened Flows
  import opened FlowInvariant
  import opened FlowRounds
  import opened FlowRuns
  import opened FlowBounds
  import opened Events
  import opened Sayings

  // ---- cancelling, one task at a time ------------------------------------------------------

  lemma CancelTwice(tasks: seq<Task>, a: set<nat>, b: set<nat>, now: Time)
    requires forall j :: j in b ==> j !in a
    ensures CancelThese(CancelThese(tasks, a, now), b, now) == CancelThese(tasks, a + b, now)
  {
  }

  /** With more tasks cancelled, fewer wait. */
  lemma WaitersShrink(tasks: seq<Task>, which: set<nat>, now: Time, p: seq<nat>)
    requires Walk(Waiters(CancelThese(tasks, which, now)), p)
    ensures Walk(Waiters(tasks), p)
  {
    var g, h := Waiters(CancelThese(tasks, which, now)), Waiters(tasks);
    forall k {:trigger Linked(h, p, k)} ensures Linked(h, p, k) { assert Linked(g, p, k); }
  }

  /** `c` holds what a cascade from `i` has cancelled so far: nothing but what must be cancelled, and
      with every task whatever waits for it. */
  ghost predicate Cascading(tasks: seq<Task>, i: nat, c: set<nat>) {
    c <= Doomed(tasks, i) && forall x: nat, y: nat {:trigger y in WaitingFor(tasks, x)} :: x in c && y in WaitingFor(tasks, x) ==> y in c
  }

  lemma DoomedShrink(tasks: seq<Task>, which: set<nat>, j: nat, now: Time, y: nat)
    requires y in Doomed(CancelThese(tasks, which, now), j)
    ensures Leads<nat>(Waiters(tasks), j, y) && y !in which
  {
    var mid := CancelThese(tasks, which, now);
    var p: seq<nat> :| WalkFromTo<nat>(Waiters(mid), p, j, y) && |p| >= 2;
    assert Linked(Waiters(mid), p, |p| - 2);
    WaitersShrink(tasks, which, now, p);
    assert WalkFromTo<nat>(Waiters(tasks), p, j, y);
  }

  lemma CascadeStaysInside(tasks: seq<Task>, i: nat, which: set<nat>, j: nat, now: Time, y: nat)
    requires i < |tasks| && j in WaitingFor(tasks, i) && y in Doomed(CancelThese(tasks, which, now), j)
    ensures y in Doomed(tasks, i) && y !in which
  {
    DoomedShrink(tasks, which, j, now, y);
    StepReaches(Waiters(tasks), i, j);
    ReachesIsLeadsOrSame(Waiters(tasks), j, y);
    LeadsThenReaches(Waiters(tasks), i, j, y);
  }

  lemma CascadeIsClosed(tasks: seq<Task>, which: set<nat>, j: nat, now: Time, x: nat, y: nat)
    requires j < |tasks| && (x == j || x in Doomed(CancelThese(tasks, which, now), j)) && y in WaitingFor(tasks, x) && y !in which
    ensures y in Doomed(CancelThese(tasks, which, now), j)
  {
    var mid := CancelThese(tasks, which, now);
    assert y in WaitingFor(mid, x);
    DoomedIsClosed(mid, j, x, y);
  }

  /** Cancelling one more waiter with its own cascade. */
  lemma CascadeOneMore(tasks: seq<Task>, i: nat, c: set<nat>, j: nat, now: Time)
    requires Cascading(tasks, i, c) && i < |tasks| && j in WaitingFor(tasks, i) && j !in c
    ensures Cascading(tasks, i, c + {j} + Doomed(CancelThese(tasks, c + {j}, now), j))
    ensures Doomed(CancelThese(tasks, c + {j}, now), j) !! c + {j}
  {
    var more := Doomed(CancelThese(tasks, c + {j}, now), j);
    DoomedIsClosed(tasks, i, i, j);
    forall y | y in more ensures y in Doomed(tasks, i) && y !in c + {j} { CascadeStaysInside(tasks, i, c + {j}, j, now, y); }
    forall x: nat, y: nat {:trigger y in WaitingFor(tasks, x)} | x in c + {j} + more && y in WaitingFor(tasks, x)
      ensures y in c + {j} + more
    {
      if x !in c && y !in c + {j} { CascadeIsClosed(tasks, c + {j}, j, now, x, y); }
    }
  }

  /** When all direct waiters are in, the cascade is complete. */
  lemma CascadeComplete(tasks: seq<Task>, i: nat, c: set<nat>)
    requires Cascading(tasks, i, c) && WaitingFor(tasks, i) <= c && i < |tasks|
    ensures c == Doomed(tasks, i)
  {
    var g := Waiters(tasks);
    forall y | y in Doomed(tasks, i) ensures y in c {
      LeadsByFirst(g, i, y);
      var n :| n in Succ(g, i) && Reaches(g, n, y);
      var p: seq<nat> :| WalkFromTo<nat>(g, p, n, y);
      forall x | x in c ensures Succ(g, x) <= c {
        forall z | z in Succ(g, x) ensures z in c { assert z in WaitingFor(tasks, x); }
      }
      ClosedSetHoldsReachable(g, c, p);
    }
  }

  lemma DoomedAreUnfinished(tasks: seq<Task>, i: nat)
    ensures Doomed(tasks, i) <= Unfinished(tasks)
  {
    forall y | y in Doomed(tasks, i) ensures y in Unfinished(tasks) {
      var p: seq<nat> :| WalkFromTo<nat>(Waiters(tasks), p, i, y) && |p| >= 2;
      assert Linked(Waiters(tasks), p, |p| - 2);
    }
  }

  lemma DoomedAreOthers(tasks: seq<Task>, which: set<nat>, i: nat, now: Time)
    ensures Doomed(CancelThese(tasks, which, now), i) !! which
  {
    DoomedAreUnfinished(CancelThese(tasks, which, now), i);
  }

  ghost function Upto(tasks: seq<Task>, k: nat): set<nat> {
    set j | j in Unfinished(tasks) && j < k
  }

  /** The first copies of a round. */
  ghost predicate AreCopies(f: Flow, loop: Loop, copies: seq<Task>) {
    |copies| <= |f.template.Body(loop)| && copies == NewCopies(f, loop)[..|copies|]
  }

  lemma OneMoreCopy(f: Flow, loop: Loop, copies: seq<Task>, task: Task)
    requires AreCopies(f, loop, copies) && |copies| < |f.template.Body(loop)|
    requires task == NewCopy(f, loop, f.template.Body(loop)[|copies|])
    ensures AreCopies(f, loop, copies + [task])
  {
    assert NewCopies(f, loop)[|copies|] == task;
    TakeOneMore(NewCopies(f, loop), |copies|);
  }

  lemma CheckIsAdded(f: Flow, loop: Loop, added: map<Name, nat>, body: seq<Name>)
    requires body == f.template.Body(loop) && loop.check in body && AddedAre(added, body, |body|, |f.tasks|)
    ensures loop.check in added && added[loop.check] == Again(f, loop)
  {
    assert body[IndexOf(body, loop.check)] == loop.check;
  }

  /** The copies of a round, in the order of the loop's nodes, and the id of the check's. */
  method MakeCopies(ghost f: Flow, t: Template, loop: Loop, body: seq<Name>, base: nat, latest: map<Name, nat>)
    returns (copies: seq<Task>, again: nat)
    requires f.template == t && body == t.Body(loop) && base == |f.tasks|
    requires t.Valid() && loop in t.loops && EveryNodeHasACopy(t, f.tasks)
    requires forall n {:trigger Latest(f.tasks, n)} {:trigger n in latest} ::
      (if n in latest then Latest(f.tasks, n) == Some(latest[n]) else Latest(f.tasks, n) == None)
    ensures copies == NewCopies(f, loop) && again == Again(f, loop)
  {
    BodyIsDistinct(t, loop);
    BodyEnds(t, loop);
    var added: map<Name, nat> := map[];
    copies := [];
    for p := 0 to |body|
      invariant AddedAre(added, body, p, base)
      invariant |copies| == p && AreCopies(f, loop, copies)
    {
      var task := MakeCopy(f, t, loop, body, p, added, latest);
      OneMoreCopy(f, loop, copies, task);
      copies := copies + [task];
      AddedOneMore(added, body, p, base);
      added := added[body[p] := base + p];
    }
    CheckIsAdded(f, loop, added, body);
    again := added[loop.check];
  }

  lemma SwapElsewhere(deps: seq<nat>, i: nat, again: nat)
    ensures i !in deps ==> Swap(deps, i, again) == deps
  {
  }

  method SucceededIds(tasks: seq<Task>) returns (succeeded: set<nat>)
    ensures forall d: nat :: d in succeeded <==> d < |tasks| && tasks[d].state == Succeeded
  {
    succeeded := {};
    for k := 0 to |tasks|
      invariant forall d: nat :: d in succeeded <==> d < k && tasks[d].state == Succeeded
    {
      if tasks[k].state == Succeeded { succeeded := succeeded + {k}; }
    }
  }

  /** The id of each node's first task. */
  method IdsOf(order: seq<Name>) returns (ids: map<Name, nat>)
    requires Distinct(order)
    ensures AddedAre(ids, order, |order|, 0)
  {
    ids := map[];
    for p := 0 to |order|
      invariant AddedAre(ids, order, p, 0)
    {
      AddedOneMore(ids, order, p, 0);
      ids := ids[order[p] := p];
    }
  }

  lemma FirstDepIsFound(t: Template, ids: map<Name, nat>, n: Name, q: nat)
    requires t.Valid() && AddedAre(ids, t.Order(), |t.Order()|, 0) && q < |t.Deps(n)|
    ensures t.Deps(n)[q] in ids && ids[t.Deps(n)[q]] == FirstDeps(t.Order(), t.Deps(n))[q]
  {
    t.OrderIsDependencyOrder();
    DepIsNode(t, n, q);
    assert t.Deps(n)[q] in t.Order();
    PlaceOf(t.Order(), IndexOf(t.Order(), t.Deps(n)[q]));
  }

  method FirstCopy(t: Template, ids: map<Name, nat>, n: Name) returns (task: Task)
    requires t.Valid() && AddedAre(ids, t.Order(), |t.Order()|, 0)
    ensures task == FirstTask(t, n)
  {
    var deps := t.Deps(n);
    forall q: nat | q < |deps| ensures deps[q] in ids && ids[deps[q]] == FirstDeps(t.Order(), deps)[q] {
      FirstDepIsFound(t, ids, n, q);
    }
    var dependsOn := seq(|deps|, q requires 0 <= q < |deps| && deps[q] in ids => ids[deps[q]]);
    assert dependsOn == FirstDeps(t.Order(), deps);
    task := NewTask(NodeNamed(t, n), dependsOn, deps == []);
  }

  /** The first tasks made so far. */
  ghost predicate FirstSoFar(t: Template, first: seq<Task>, p: nat) {
    p == |first| <= |t.Order()| && forall q {:trigger first[q]} :: 0 <= q < p ==> first[q] == FirstTask(t, t.Order()[q])
  }

  lemma OneMoreFirst(t: Template, first: seq<Task>, p: nat, task: Task)
    requires FirstSoFar(t, first, p) && p < |t.Order()| && task == FirstTask(t, t.Order()[p])
    ensures FirstSoFar(t, first + [task], p + 1)
  {
  }

  lemma AllFirst(t: Template, first: seq<Task>)
    requires FirstSoFar(t, first, |t.Order()|)
    ensures first == FirstTasks(t)
  {
  }

  method FirstCopies(t: Template, order: seq<Name>) returns (first: seq<Task>)
    requires t.Valid() && order == t.Order() && Distinct(order)
    ensures first == FirstTasks(t)
  {
    var ids := IdsOf(order);
    first := [];
    for p := 0 to |order|
      invariant FirstSoFar(t, first, p)
    {
      var task := FirstCopy(t, ids, order[p]);
      OneMoreFirst(t, first, p, task);
      first := first + [task];
    }
    AllFirst(t, first);
  }

  lemma AllUnfinished(tasks: seq<Task>, c: set<nat>)
    requires Upto(tasks, |tasks|) <= c <= Unfinished(tasks)
    ensures c == Unfinished(tasks)
  {
  }

  /** Cancelling what is unfinished may close the run before the last look at it does. */
  lemma StoppedIsClosed(f: Flow, state: FlowState, tasks: seq<Task>, now: Time)
    requires tasks == CancelThese(f.tasks, Unfinished(f.tasks), now) && ClosedOrAs(f.state, state, tasks)
    ensures Flows.CloseIfDone(f.(tasks := tasks, state := state)) == Apply(f, CancelRun(now))
  {
  }

  /** A round leaves the older tasks in their states. */
  lemma RoundKeepsStates(f: Flow, i: nat, loop: Loop)
    ensures |f.tasks| <= |RoundTasks(f, i, loop)|
    ensures forall j {:trigger f.tasks[j]} :: 0 <= j < |f.tasks| ==> RoundTasks(f, i, loop)[j].state == f.tasks[j].state
  {
    forall j: nat | j < |f.tasks| ensures RoundTasks(f, i, loop)[j].state == f.tasks[j].state {
      assert RoundTasks(f, i, loop)[j] == Repoint(f.tasks, i, Again(f, loop))[j];
    }
  }

  ghost predicate WaitersIn(tasks: seq<Task>, i: nat, j: nat, c: set<nat>) {
    forall k: nat :: k < j && k in WaitingFor(tasks, i) ==> k in c
  }

  lemma OneMoreWaiterIn(tasks: seq<Task>, i: nat, j: nat, c: set<nat>, c': set<nat>)
    requires WaitersIn(tasks, i, j, c) && c <= c' && (j in WaitingFor(tasks, i) ==> j in c')
    ensures WaitersIn(tasks, i, j + 1, c')
  {
  }

  // ---- starting another round ---------------------------------------------------------------

  /** The dictionary of dag.py:361, in which the last task of each name wins. */
  method LatestCopies(tasks: seq<Task>) returns (latest: map<Name, nat>)
    ensures forall n {:trigger Latest(tasks, n)} {:trigger n in latest} ::
      (if n in latest then Latest(tasks, n) == Some(latest[n]) else Latest(tasks, n) == None)
  {
    latest := map[];
    for k := 0 to |tasks|
      invariant forall n {:trigger LatestIn(tasks, n, k)} {:trigger n in latest} ::
        (if n in latest then LatestIn(tasks, n, k) == Some(latest[n]) else LatestIn(tasks, n, k) == None)
    {
      latest := latest[tasks[k].name := k];
    }
  }

  /** Where dependency `d` of a new copy is found. */
  ghost predicate Found(inside: set<Name>, added: map<Name, nat>, latest: map<Name, nat>, d: Name) {
    if d in inside then d in added else d in latest
  }

  /** The new copy's dependencies (dag.py:365-369): a name that is neither inside the loop nor known
      is passed over. */
  method CopyDependencies(deps: seq<Name>, inside: set<Name>, added: map<Name, nat>, latest: map<Name, nat>) returns (r: seq<nat>)
    requires forall d :: d in deps ==> Found(inside, added, latest, d)
    ensures |r| == |deps|
    ensures forall q {:trigger r[q]} :: 0 <= q < |r| ==>
      Found(inside, added, latest, deps[q]) && r[q] == if deps[q] in inside then added[deps[q]] else latest[deps[q]]
  {
    r := [];
    for q := 0 to |deps|
      invariant |r| == q
      invariant forall k {:trigger r[k]} :: 0 <= k < q ==>
        Found(inside, added, latest, deps[k]) && r[k] == if deps[k] in inside then added[deps[k]] else latest[deps[k]]
    {
      assert Found(inside, added, latest, deps[q]);
      if deps[q] in inside || deps[q] in latest {
        r := r + [if deps[q] in inside then added[deps[q]] else latest[deps[q]]];
      }
    }
  }

  method NoneIn(deps: seq<Name>, inside: set<Name>) returns (none: bool)
    ensures none <==> forall d :: d in deps ==> d !in inside
  {
    for q := 0 to |deps|
      invariant forall k :: 0 <= k < q ==> deps[k] !in inside
    {
      if deps[q] in inside { return false; }
    }
    none := true;
  }

  /** The new copies made so far are found under their names. */
  ghost predicate AddedAre(added: map<Name, nat>, body: seq<Name>, p: nat, base: nat) {
    p <= |body| && forall q: nat {:trigger body[q]} :: q < p ==> body[q] in added && added[body[q]] == base + q
  }

  lemma AddedOneMore(added: map<Name, nat>, body: seq<Name>, p: nat, base: nat)
    requires AddedAre(added, body, p, base) && Distinct(body) && p < |body|
    ensures AddedAre(added[body[p] := base + p], body, p + 1, base)
  {
    forall q: nat | q < p ensures body[q] != body[p] { assert Differ(body, q, p); }
  }

  /** Every dependency of the `p`-th node of the loop is found, and is the one Flow says. */
  lemma DependencyIsFound(f: Flow, loop: Loop, p: nat, added: map<Name, nat>, latest: map<Name, nat>, d: Name)
    requires f.template.Valid() && loop in f.template.loops && EveryNodeHasACopy(f.template, f.tasks)
    requires p < |f.template.Body(loop)| && AddedAre(added, f.template.Body(loop), p, |f.tasks|)
    requires if d in latest then Latest(f.tasks, d) == Some(latest[d]) else Latest(f.tasks, d) == None
    requires d in f.template.Deps(f.template.Body(loop)[p])
    ensures Found(Elements(f.template.Body(loop)), added, latest, d)
    ensures NewDep(f, loop, d) == if d in Elements(f.template.Body(loop)) then added[d] else latest[d]
  {
    var body := f.template.Body(loop);
    if d in body {
      f.template.BodyIsInOrder(loop, p, d);
      var q: nat :| q < p && body[..p][q] == d;
      PlaceOf(body, q);
    } else {
      assert d in DepsOf(f.template.nodes, body[p]) && f.template.Has(d);
    }
  }

  /** The copy made for the `p`-th node of the loop. */
  method MakeCopy(ghost f: Flow, t: Template, loop: Loop, body: seq<Name>, p: nat, added: map<Name, nat>, latest: map<Name, nat>)
    returns (task: Task)
    requires f.template == t && body == t.Body(loop)
    requires t.Valid() && loop in t.loops && EveryNodeHasACopy(t, f.tasks)
    requires p < |body| && AddedAre(added, body, p, |f.tasks|)
    requires forall n {:trigger Latest(f.tasks, n)} {:trigger n in latest} ::
      (if n in latest then Latest(f.tasks, n) == Some(latest[n]) else Latest(f.tasks, n) == None)
    ensures task == NewCopy(f, loop, body[p])
  {
    var inside, deps := Elements(body), t.Deps(body[p]);
    forall d | d in deps
      ensures Found(inside, added, latest, d) && NewDep(f, loop, d) == if d in inside then added[d] else latest[d]
    {
      DependencyIsFound(f, loop, p, added, latest, d);
    }
    var dependsOn := CopyDependencies(deps, inside, added, latest);
    assert dependsOn == NewDeps(f, loop, deps);
    var ready := NoneIn(deps, inside);
    task := NewTask(NodeNamed(t, body[p]), dependsOn, ready);
  }

  /** A run's state while its tasks are being cancelled: as it was, or closed once all have ended. */
  predicate ClosedOrAs(was: FlowState, state: FlowState, tasks: seq<Task>) {
    state == was || (was == FlowRunning && AllTerminal(tasks) && state == Outcome(tasks))
  }

  /** A workflow run with its tasks, in creation order. Its methods return the events they emit. */
  class WorkflowRun {
    const number: nat
    const template: Template
    var tasks: seq<Task>
    var state: FlowState
    var extensions: seq<Name>

    function Value(): Flow
      reads this
    {
      Flow(template, tasks, state, extensions)
    }

    ghost predicate Valid()
      reads this
    {
      template.Valid() && Shaped(Value())
    }

    /** dag.py:440-484. */
    method CloseIfDone()
      modifies this`state
      ensures Value() == Flows.CloseIfDone(old(Value()))
    {
      if state.Terminal() { return; }
      for j := 0 to |tasks|
        invariant forall k :: 0 <= k < j ==> tasks[k].state.Terminal()
        invariant state == old(state)
      {
        if !tasks[j].state.Terminal() { return; }
      }
      var succeeded, failed := true, false;
      for j := 0 to |tasks|
        invariant succeeded <==> forall k :: 0 <= k < j ==> tasks[k].state == Succeeded
        invariant failed <==> exists k :: 0 <= k < j && tasks[k].state == Failed
        invariant state == old(state)
      {
        succeeded := succeeded && tasks[j].state == Succeeded;
        failed := failed || tasks[j].state == Failed;
      }
      state := if succeeded then FlowSucceeded else if failed then FlowFailed else FlowCancelled;
    }

    /** The task manager's cancel (task_manager.py:416-450), which calls the engine back: that is
        what makes a cancellation transitive. */
    method CancelTask(j: nat, now: Time) returns (said: seq<What>)
      requires j < |tasks| && !tasks[j].state.Terminal()
      modifies this`tasks, this`state
      ensures said == [TaskCancelled((number, j))] + CascadeSays(number, CancelThese(old(tasks), {j}, now), j, 0, now)
      ensures var mid := CancelThese(old(tasks), {j}, now); tasks == CancelThese(mid, Doomed(mid, j), now)
      ensures ClosedOrAs(old(state), state, tasks)
      decreases Unfinished(tasks), 0
    {
      ghost var before := tasks;
      tasks := tasks[j := tasks[j].Cancel(now)];
      assert tasks == CancelThese(before, {j}, now);
      assert j in Unfinished(before) && j !in Unfinished(tasks) && Unfinished(tasks) <= Unfinished(before);
      said := [TaskCancelled((number, j))];
      var more := OnTaskFailed(j, now);
      said := said + more;
    }

    /** One step of the loop below: `c` is what the cascade from `i` has cancelled so far. */
    method CancelIfWaiting(i: nat, j: nat, now: Time, ghost was: seq<Task>, ghost c: set<nat>) returns (said: seq<What>, ghost c': set<nat>)
      requires i < |was| && j < |tasks| && tasks == CancelThese(was, c, now) && Cascading(was, i, c)
      modifies this`tasks, this`state
      ensures tasks == CancelThese(was, c', now) && Cascading(was, i, c') && c <= c'
      ensures j in WaitingFor(was, i) ==> j in c'
      ensures CascadeSays(number, old(tasks), i, j, now) == said + CascadeSays(number, tasks, i, j + 1, now)
      ensures ClosedOrAs(old(state), state, tasks)
      ensures AllTerminal(old(tasks)) ==> tasks == old(tasks)
      decreases Unfinished(tasks), 1
    {
      c', said := c, [];
      if i in tasks[j].dependsOn && !tasks[j].state.Terminal() {
        ghost var mid := CancelThese(was, c + {j}, now);
        CascadeOneMore(was, i, c, j, now);
        CancelTwice(was, c, {j}, now);
        said := CancelTask(j, now);
        CancelTwice(was, c + {j}, Doomed(mid, j), now);
        c' := c + {j} + Doomed(mid, j);
      }
    }

    /** Cancel what waits for task `i` (dag.py:318-324 and 433-436). */
    method CancelWaiting(i: nat, now: Time) returns (said: seq<What>)
      requires i < |tasks|
      modifies this`tasks, this`state
      ensures said == CascadeSays(number, old(tasks), i, 0, now)
      ensures tasks == Cascade(old(tasks), i, now)
      ensures ClosedOrAs(old(state), state, tasks)
      decreases Unfinished(tasks), 2
    {
      ghost var was := tasks;
      ghost var c: set<nat> := {};
      said := [];
      for j := 0 to |tasks|
        invariant |tasks| == |was| && tasks == CancelThese(was, c, now) && Cascading(was, i, c)
        invariant WaitersIn(was, i, j, c)
        invariant CascadeSays(number, was, i, 0, now) == said + CascadeSays(number, tasks, i, j, now)
        invariant ClosedOrAs(old(state), state, tasks)
      {
        CancelShrinks(was, c, now);
        ghost var c';
        var more;
        more, c' := CancelIfWaiting(i, j, now, was, c);
        OneMoreWaiterIn(was, i, j, c, c');
        Regroup(said, more, CascadeSays(number, tasks, i, j + 1, now));
        said := said + more;
        c := c';
      }
      CascadeComplete(was, i, c);
    }

    /** Task `i` has ended without its work done: its dependents are cancelled (dag.py:314-325). */
    method OnTaskFailed(i: nat, now: Time) returns (said: seq<What>)
      requires i < |tasks|
      modifies this`tasks, this`state
      ensures said == CascadeSays(number, old(tasks), i, 0, now)
      ensures Value() == AfterDeath(old(Value()), i, now)
      decreases Unfinished(tasks), 3
    {
      said := CancelWaiting(i, now);
      CloseIfDone();
    }

    method CancelIfUnfinished(j: nat, now: Time, ghost was: seq<Task>, ghost c: set<nat>) returns (said: seq<What>, ghost c': set<nat>)
      requires j < |tasks| && tasks == CancelThese(was, c, now) && c <= Unfinished(was)
      modifies this`tasks, this`state
      ensures tasks == CancelThese(was, c', now) && c <= c' <= Unfinished(was) && (j in Unfinished(was) ==> j in c')
      ensures StopSays(number, old(tasks), j, now) == said + StopSays(number, tasks, j + 1, now)
      ensures ClosedOrAs(old(state), state, tasks)
      ensures AllTerminal(old(tasks)) ==> tasks == old(tasks)
    {
      c', said := c, [];
      if !tasks[j].state.Terminal() {
        ghost var mid := CancelThese(was, c + {j}, now);
        CancelTwice(was, c, {j}, now);
        said := CancelTask(j, now);
        DoomedAreUnfinished(mid, j);
        CancelShrinks(was, c + {j}, now);
        DoomedAreOthers(was, c + {j}, j, now);
        CancelTwice(was, c + {j}, Doomed(mid, j), now);
        c' := c + {j} + Doomed(mid, j);
      }
    }

    /** Stop the run: what has not ended is cancelled (dag.py:277-286). */
    method Cancel(now: Time) returns (said: seq<What>)
      modifies this`tasks, this`state
      ensures said == StopSays(number, old(tasks), 0, now)
      ensures Value() == Apply(old(Value()), CancelRun(now))
    {
      ghost var was, before := tasks, Value();
      ghost var c: set<nat> := {};
      said := [];
      for j := 0 to |tasks|
        invariant |tasks| == |was| && tasks == CancelThese(was, c, now) && c <= Unfinished(was)
        invariant StopSays(number, was, 0, now) == said + StopSays(number, tasks, j, now)
        invariant Upto(was, j) <= c
        invariant ClosedOrAs(old(state), state, tasks)
      {
        ghost var c';
        var more;
        more, c' := CancelIfUnfinished(j, now, was, c);
        Regroup(said, more, StopSays(number, tasks, j + 1, now));
        said := said + more;
        c := c';
      }
      AllUnfinished(was, c);
      StoppedIsClosed(before, state, tasks, now);
      CloseIfDone();
    }

    /** Whether a halt stops the run here (dag.py:419-424). */
    method FindHalt(name: Name, output: Output) returns (halted: bool)
      ensures halted == Halts(template, name, output)
    {
      for k := 0 to |template.halts|
        invariant forall m :: 0 <= m < k ==> !(template.halts[m].check == name && template.halts[m].when(output))
      {
        if template.halts[k].check == name && template.halts[k].when(output) { return true; }
      }
      halted := false;
    }

    /** Which loop, if any, wants its nodes done over (dag.py:341-343). */
    method FindLoop(name: Name, output: Output) returns (loop: Option<Loop>)
      ensures loop == FirstLoop(template.loops, name, output)
    {
      for k := 0 to |template.loops|
        invariant FirstLoop(template.loops, name, output) == FirstLoop(template.loops[k..], name, output)
      {
        if template.loops[k].check == name && template.loops[k].again(output) { return Some(template.loops[k]); }
      }
      loop := None;
    }

    method CountCopies(name: Name) returns (n: nat)
      ensures n == Copies(tasks, name)
    {
      n := 0;
      for k := 0 to |tasks|
        invariant n == CopiesIn(tasks, name, k)
      {
        if tasks[k].name == name { n := n + 1; }
      }
    }

    /** Whatever waited for task `i` waits for task `again` from now on (dag.py:392-394). */
    method RepointWaiting(i: nat, again: nat)
      modifies this`tasks
      ensures tasks == Repoint(old(tasks), i, again)
    {
      ghost var was := tasks;
      for j := 0 to |tasks|
        invariant |tasks| == |was|
        invariant forall k {:trigger tasks[k]} :: 0 <= k < |was| ==> tasks[k] == if k < j then Repoint(was, i, again)[k] else was[k]
      {
        SwapElsewhere(tasks[j].dependsOn, i, again);
        if i in tasks[j].dependsOn {
          tasks := tasks[j := tasks[j].(dependsOn := Swap(tasks[j].dependsOn, i, again))];
        }
      }
    }

    /** What adding these tasks says. */
    method Added(added: seq<Task>, base: nat) returns (said: seq<What>)
      ensures said == AllAddedSay(number, added, base, |added|)
    {
      said := [];
      for k := 0 to |added|
        invariant said == AllAddedSay(number, added, base, k)
      {
        var id := (number, base + k);
        var one := [TaskCreated(id, added[k].name, added[k].role)];
        if added[k].state == Ready { one := one + [TaskReady(id)]; }
        assert one == AddedSays(id, added[k]);
        said := said + one;
      }
    }

    /** Another round (dag.py:357-403): whatever waited for the check waits for its new copy, and the
        new copies stand behind the tasks there were. */
    method AddRound(i: nat, loop: Loop) returns (said: seq<What>)
      requires Valid() && i < |tasks| && loop in template.loops
      modifies this`tasks, this`extensions
      ensures Value() == Round(old(Value()), i, loop)
      ensures var copies := NewCopies(old(Value()), loop); said == AllAddedSay(number, copies, |old(tasks)|, |copies|)
    {
      var body := LoopBody(template, loop);
      var latest := LatestCopies(tasks);
      var copies, again := MakeCopies(Value(), template, loop, body, |tasks|, latest);
      said := Added(copies, |tasks|);
      RepointWaiting(i, again);
      tasks := tasks + copies;
      extensions := extensions + [loop.check];
    }

    /** The success of `i` lets its dependents go whose dependencies are all done (dag.py:299-310). */
    method UnlockDependents(i: nat) returns (unlocked: seq<nat>, said: seq<What>)
      modifies this`tasks
      ensures said == UnlockSays(number, old(tasks), i, |old(tasks)|)
      ensures tasks == Unlock(old(tasks), i)
      ensures forall j: nat :: j in unlocked <==> j < |tasks| && Unlocks(old(tasks), i, old(tasks[j]))
    {
      ghost var was := tasks;
      var succeeded := SucceededIds(tasks);
      unlocked, said := [], [];
      for j := 0 to |tasks|
        invariant |tasks| == |was| && said == UnlockSays(number, was, i, j)
        invariant forall k {:trigger tasks[k]} :: 0 <= k < |was| ==> tasks[k] == if k < j then Unlock(was, i)[k] else was[k]
        invariant forall k: nat :: k in unlocked <==> k < j && Unlocks(was, i, was[k])
      {
        if i in tasks[j].dependsOn && tasks[j].state == Pending && Elements(tasks[j].dependsOn) <= succeeded {
          assert DepsSucceeded(was, was[j]) by {
            forall d | d in was[j].dependsOn ensures d < |was| && was[d].state == Succeeded { assert d in succeeded; }
          }
          tasks := tasks[j := tasks[j].Readied()];
          unlocked, said := unlocked + [j], said + [TaskReady((number, j))];
        } else {
          assert !Unlocks(was, i, was[j]);
        }
      }
    }

    /** Task `i` has SUCCEEDED (dag.py:290-312): a halt comes first, then a loop, and only then what
        waited for the task. Returns the tasks that may start. */
    method OnTaskFinished(i: nat, output: Output, now: Time) returns (unlocked: seq<nat>, said: seq<What>)
      requires Valid() && i < |tasks| && tasks[i].state == Succeeded
      modifies this`tasks, this`state, this`extensions
      ensures said == SuccessSays(number, old(Value()), i, output, now)
      ensures Value() == AfterSuccess(old(Value()), i, output, now)
      ensures forall j: nat :: j in unlocked <==>
        j < |tasks| && tasks[j].state == Ready && (j < |old(tasks)| ==> old(tasks)[j].state == Pending)
    {
      unlocked := [];
      var name := tasks[i].name;
      var halted := FindHalt(name, output);
      if halted {
        said := CancelWaiting(i, now);
        CloseIfDone();
        return;
      }
      var loop := FindLoop(name, output);
      if loop.Some? {
        unlocked, said := AskAgain(i, loop.value, now);
        return;
      }
      unlocked, said := UnlockDependents(i);
      CloseIfDone();
    }

    /** The loop's check `i` asks again (dag.py:341-356): another round, or the end of what waits for
        it when there are none left. */
    method AskAgain(i: nat, loop: Loop, now: Time) returns (unlocked: seq<nat>, said: seq<What>)
      requires Valid() && i < |tasks| && loop in template.loops
      modifies this`tasks, this`state, this`extensions
      ensures RoundsLeft(old(Value()), loop) ==> Value() == Round(old(Value()), i, loop)
      ensures RoundsLeft(old(Value()), loop) ==>
        var copies := NewCopies(old(Value()), loop); said == AllAddedSay(number, copies, |old(tasks)|, |copies|)
      ensures !RoundsLeft(old(Value()), loop) ==> Value() == AfterDeath(old(Value()), i, now) && said == CascadeSays(number, old(tasks), i, 0, now)
      ensures forall j: nat :: j in unlocked <==>
        j < |tasks| && tasks[j].state == Ready && (j < |old(tasks)| ==> old(tasks)[j].state == Pending)
    {
      unlocked := [];
      var rounds := CountCopies(loop.check);
      if rounds - 1 >= loop.maxRounds {
        said := CancelWaiting(i, now);
        CloseIfDone();
      } else {
        var base := |tasks|;
        RoundKeepsStates(Value(), i, loop);
        said := AddRound(i, loop);
        unlocked := ReadyFrom(base);
      }
    }

    method ReadyFrom(base: nat) returns (ready: seq<nat>)
      requires base <= |tasks|
      ensures forall j: nat :: j in ready <==> base <= j < |tasks| && tasks[j].state == Ready
    {
      ready := [];
      for j := base to |tasks|
        invariant forall k: nat :: k in ready <==> base <= k < j && tasks[k].state == Ready
      {
        if tasks[j].state == Ready { ready := ready + [j]; }
      }
    }

    /** A fresh run of a template (dag.py:218-275): one task per node, in dependency order. */
    constructor Instantiate(number: nat, t: Template)
      requires t.Valid()
      ensures this.number == number && template == t && Value() == Start(t) && Valid()
    {
      t.OrderIsDependencyOrder();
      var order := TopologicalOrder(t.nodes);
      var first := FirstCopies(t, order.value);
      this.number, template, tasks, state, extensions := number, t, first, FlowRunning, [];
      StartKeeps(t);
    }

    /** Write a row and react to what became of the task: the tail of every transaction of the task
        manager on one task, which says `own` of it after a success and before anything else. */
    method Settle(i: nat, o: RowOutcome, own: seq<What>, output: Output, now: Time) returns (unlocked: seq<nat>, said: seq<What>)
      requires Sound(Value()) && !o.Refused? && Enabled(Value(), ActionFor(i, o, output, now))
      modifies this`tasks, this`state, this`extensions
      ensures said == ActionSays(number, old(Value()), ActionFor(i, o, output, now), own)
      ensures Value() == Apply(old(Value()), ActionFor(i, o, output, now)) && Sound(Value())
    {
      ghost var before := Value();
      ApplyIsSound(before, ActionFor(i, o, output, now));
      unlocked := [];
      tasks := tasks[i := o.row];
      match o
      case Moved(_) =>
        said := own;
      case Worked(_) =>
        BoundedWithSameGraph(before, Value());
        unlocked, said := OnTaskFinished(i, output, now);
        said := said + own;
      case Lost(_) =>
        said := OnTaskFailed(i, now);
        said := own + said;
    }
  }
}
