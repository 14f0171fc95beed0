/** What every transaction on a workflow run keeps. */
module FlowInvariant {
  import opened Wrappers
  import opened Graphs
  import opened Lifecycles
  import opened Templates
  import opened Tasks
  import opened Flows

  // ---- the template condition --------------------------------------------------------------

  ghost predicate InSomeLoop(t: Template, n: Name) {
    exists k :: 0 <= k < |t.loops| && t.OnPath(t.loops[k], n)
  }

  /** A dependency of `n` that the loop repeats without repeating `n` is the loop's check. */
  ghost predicate LeavesByCheck(t: Template, loop: Loop, n: Name, d: Name) {
    d in t.Deps(n) && t.OnPath(loop, d) && !t.OnPath(loop, n) ==> d == loop.check
  }

  /** Wherever the repeated part of one loop is depended on from another loop, it is through its
      check. Under this condition rounds of different loops cannot leave each other behind. */
  ghost predicate Compatible(t: Template) {
    forall k, n, d {:trigger LeavesByCheck(t, t.loops[k], n, d)} ::
      0 <= k < |t.loops| && InSomeLoop(t, n) ==> LeavesByCheck(t, t.loops[k], n, d)
  }

  /** The repeated part of every loop is depended on from outside only through its check. */
  ghost predicate ExitsByChecks(t: Template) {
    forall k, n, d {:trigger LeavesByCheck(t, t.loops[k], n, d)} ::
      0 <= k < |t.loops| ==> LeavesByCheck(t, t.loops[k], n, d)
  }

  /** The nodes whose newest copies are kept up to date: the nodes inside loops, and all of them
      where every loop is left by its check only. */
  ghost predicate Watched(t: Template, n: Name) {
    InSomeLoop(t, n) || ExitsByChecks(t)
  }

  // ---- the invariant -----------------------------------------------------------------------

  /** A task is a copy of a template node and depends on copies of that node's dependencies. */
  ghost predicate CopyOf(t: Template, tasks: seq<Task>, j: nat)
    requires j < |tasks|
  {
    && t.Has(tasks[j].name)
    && |tasks[j].dependsOn| == |t.Deps(tasks[j].name)|
    && forall q :: 0 <= q < |tasks[j].dependsOn| ==>
         tasks[j].dependsOn[q] < |tasks| && tasks[tasks[j].dependsOn[q]].name == t.Deps(tasks[j].name)[q]
  }

  ghost predicate EveryNodeHasACopy(t: Template, tasks: seq<Task>) {
    forall n {:trigger t.Has(n)} :: t.Has(n) ==> Latest(tasks, n).Some?
  }

  ghost predicate Shaped(f: Flow) {
    && (forall j :: 0 <= j < |f.tasks| ==> CopyOf(f.template, f.tasks, j))
    && EveryNodeHasACopy(f.template, f.tasks)
  }

  /** Unless it was cancelled, a task is PENDING exactly while some dependency has not succeeded. */
  ghost predicate Gated(tasks: seq<Task>, j: nat)
    requires j < |tasks|
  {
    tasks[j].state != Cancelled ==> (tasks[j].state == Pending <==> !DepsSucceeded(tasks, tasks[j]))
  }

  /** What depends on a failed or cancelled task is cancelled. */
  ghost predicate Stopped(tasks: seq<Task>, j: nat)
    requires j < |tasks|
  {
    forall d :: d in tasks[j].dependsOn && d < |tasks| && tasks[d].state.Dead() ==> tasks[j].state == Cancelled
  }

  /** An older copy of a node has succeeded. */
  ghost predicate OldDone(tasks: seq<Task>, j: nat)
    requires j < |tasks|
  {
    !IsLatest(tasks, j) ==> tasks[j].state == Succeeded
  }

  /** The latest copy of a watched node depends on the latest copies of its dependencies. */
  ghost predicate WiredAt(t: Template, tasks: seq<Task>, j: nat)
    requires j < |tasks|
  {
    IsLatest(tasks, j) && Watched(t, tasks[j].name) ==>
      forall d :: d in tasks[j].dependsOn ==> d < |tasks| && IsLatest(tasks, d)
  }

  ghost predicate Wired(f: Flow) {
    forall j :: 0 <= j < |f.tasks| ==> WiredAt(f.template, f.tasks, j)
  }

  /** The run is RUNNING exactly while a task is unfinished; closed, it tells how the tasks ended. */
  ghost predicate Ended(f: Flow) {
    if AllTerminal(f.tasks) then f.state == Outcome(f.tasks) else f.state == FlowRunning
  }

  ghost predicate TasksOk(tasks: seq<Task>) {
    forall j :: 0 <= j < |tasks| ==> Gated(tasks, j) && Stopped(tasks, j) && OldDone(tasks, j)
  }

  /** A run in which nothing was let go too early or waits for what cannot come. */
  ghost predicate Safe(f: Flow) {
    f.template.Valid() && Shaped(f) && TasksOk(f.tasks) && Ended(f)
  }

  ghost predicate Invariant(f: Flow) {
    Safe(f) && Wired(f)
  }

  // ---- copies of a node --------------------------------------------------------------------

  ghost predicate SameNames(a: seq<Task>, b: seq<Task>) {
    |a| == |b| && forall j :: 0 <= j < |a| ==> a[j].name == b[j].name
  }

  lemma LatestByNames(a: seq<Task>, b: seq<Task>, n: Name)
    requires SameNames(a, b)
    ensures Latest(a, n) == Latest(b, n) && Copies(a, n) == Copies(b, n)
  {
    LatestInByNames(a, b, n, |a|);
  }

  lemma {:induction false} LatestInByNames(a: seq<Task>, b: seq<Task>, n: Name, k: nat)
    requires k <= |a| && k <= |b| && forall j :: 0 <= j < k ==> a[j].name == b[j].name
    ensures LatestIn(a, n, k) == LatestIn(b, n, k) && CopiesIn(a, n, k) == CopiesIn(b, n, k)
  {
    if k > 0 { LatestInByNames(a, b, n, k - 1); }
  }

  lemma {:induction false} LatestOfJoin(a: seq<Task>, b: seq<Task>, n: Name, k: nat)
    requires k <= |b|
    ensures LatestIn(a + b, n, |a| + k) ==
            match LatestIn(b, n, k) case Some(j) => Some(|a| + j) case None => Latest(a, n)
    ensures CopiesIn(a + b, n, |a| + k) == Copies(a, n) + CopiesIn(b, n, k)
  {
    if k == 0 { LatestInByNames(a + b, a, n, |a|); } else { LatestOfJoin(a, b, n, k - 1); }
  }

  /** In a list with each name once, the latest copy is the only one. */
  lemma {:induction false} LatestOfDistinct(tasks: seq<Task>, n: Name, i: nat, k: nat)
    requires k <= |tasks| && i < k && tasks[i].name == n
    requires forall j :: 0 <= j < |tasks| && tasks[j].name == n ==> j == i
    ensures LatestIn(tasks, n, k) == Some(i) && CopiesIn(tasks, n, k) == 1
  {
    if i < k - 1 {
      LatestOfDistinct(tasks, n, i, k - 1);
    } else {
      NoCopy(tasks, n, k - 1);
    }
  }

  lemma {:induction false} NoCopy(tasks: seq<Task>, n: Name, k: nat)
    requires k <= |tasks| && forall j :: 0 <= j < k ==> tasks[j].name != n
    ensures LatestIn(tasks, n, k) == None && CopiesIn(tasks, n, k) == 0
  {
    if k > 0 { NoCopy(tasks, n, k - 1); }
  }

  lemma LatestIsLast(tasks: seq<Task>, n: Name, j: nat)
    requires j < |tasks| && tasks[j].name == n
    ensures Latest(tasks, n).Some? && j <= Latest(tasks, n).value && Copies(tasks, n) >= 1
  {
    LatestInIsLast(tasks, n, j, |tasks|);
  }

  lemma {:induction false} LatestInIsLast(tasks: seq<Task>, n: Name, j: nat, k: nat)
    requires j < k <= |tasks| && tasks[j].name == n
    ensures LatestIn(tasks, n, k).Some? && j <= LatestIn(tasks, n, k).value && CopiesIn(tasks, n, k) >= 1
  {
    if j < k - 1 { LatestInIsLast(tasks, n, j, k - 1); }
  }

  // ---- tasks that change state only --------------------------------------------------------

  /** The same tasks, with the same names and dependencies, in perhaps other states. */
  ghost predicate SameGraph(a: seq<Task>, b: seq<Task>) {
    SameNames(a, b) && forall j :: 0 <= j < |a| ==> a[j].dependsOn == b[j].dependsOn
  }

  lemma ShapeKept(f: Flow, tasks: seq<Task>)
    requires Shaped(f) && SameGraph(f.tasks, tasks)
    ensures Shaped(f.(tasks := tasks))
    ensures forall j :: 0 <= j < |tasks| ==> (IsLatest(tasks, j) <==> IsLatest(f.tasks, j))
  {
    forall n { LatestByNames(f.tasks, tasks, n); }
    forall j | 0 <= j < |tasks| ensures CopyOf(f.template, tasks, j) { assert CopyOf(f.template, f.tasks, j); }
  }

  lemma WiringKept(f: Flow, tasks: seq<Task>)
    requires Shaped(f) && Wired(f) && SameGraph(f.tasks, tasks)
    ensures Wired(f.(tasks := tasks))
  {
    ShapeKept(f, tasks);
    forall j | 0 <= j < |tasks| ensures WiredAt(f.template, tasks, j) {
      assert CopyOf(f.template, f.tasks, j) && WiredAt(f.template, f.tasks, j);
    }
  }

  ghost predicate SameSuccesses(a: seq<Task>, b: seq<Task>) {
    |a| == |b| && forall j :: 0 <= j < |a| ==> (a[j].state == Succeeded <==> b[j].state == Succeeded)
  }

  lemma MoveKeeps(f: Flow, a: Action)
    requires Safe(f) && a.Move? && Enabled(f, a)
    ensures Safe(Apply(f, a))
  {
    var tasks := f.tasks[a.i := a.row];
    ShapeKept(f, tasks);
    forall j | 0 <= j < |tasks| ensures Gated(tasks, j) && Stopped(tasks, j) && OldDone(tasks, j) {
      assert Gated(f.tasks, j) && Stopped(f.tasks, j) && OldDone(f.tasks, j);
      assert DepsSucceeded(tasks, tasks[j]) <==> DepsSucceeded(f.tasks, f.tasks[j]);
    }
    assert !f.tasks[a.i].state.Terminal() && !tasks[a.i].state.Terminal();
  }

  // ---- cancelling --------------------------------------------------------------------------

  /** Task `i` has just finished: everything else is as before. */
  ghost predicate JustFinished(before: seq<Task>, tasks: seq<Task>, i: nat) {
    && i < |before| && !before[i].state.Terminal()
    && |tasks| == |before| && tasks == before[i := tasks[i]]
    && Becomes(before[i], tasks[i]) && tasks[i].state.Terminal()
  }

  /** What waits for an unfinished task, directly or not, is PENDING: so a cascade cancels only
      PENDING tasks. */
  lemma {:induction false} WaitersArePending(before: seq<Task>, tasks: seq<Task>, i: nat, p: seq<nat>)
    requires TasksOk(before) && JustFinished(before, tasks, i)
    requires Walk(Waiters(tasks), p) && p[0] == i && |p| >= 2
    ensures p[|p| - 1] < |tasks| && p[|p| - 1] != i && tasks[p[|p| - 1]].state == Pending
    decreases |p|
  {
    var g := Waiters(tasks);
    var last, prev := p[|p| - 1], p[|p| - 2];
    assert Linked(g, p, |p| - 2);
    assert last in Succ(g, prev) && prev in tasks[last].dependsOn;
    if |p| > 2 {
      var q := p[..|p| - 1];
      forall k {:trigger Linked(g, q, k)} ensures Linked(g, q, k) { assert Linked(g, p, k); }
      WaitersArePending(before, tasks, i, q);
      assert q[|q| - 1] == prev;
    }
    assert before[prev].state != Succeeded;
    assert Gated(before, last);
  }

  lemma DoomedArePending(before: seq<Task>, tasks: seq<Task>, i: nat, j: nat)
    requires TasksOk(before) && JustFinished(before, tasks, i) && j in Doomed(tasks, i)
    ensures j < |tasks| && j != i && tasks[j].state == before[j].state == Pending
  {
    var p: seq<nat> :| WalkFromTo<nat>(Waiters(tasks), p, i, j) && |p| >= 2;
    WaitersArePending(before, tasks, i, p);
  }

  lemma DoomedIsClosed(tasks: seq<Task>, i: nat, x: nat, j: nat)
    requires x == i || x in Doomed(tasks, i)
    requires x < |tasks| && j in WaitingFor(tasks, x)
    ensures j in Doomed(tasks, i)
  {
    var g := Waiters(tasks);
    assert j in Succ(g, x);
    StepReaches(g, x, j);
    if x != i { 
      ReachesIsLeadsOrSame(g, i, x);
      LeadsThenReaches(g, i, x, j);
    }
  }

  lemma CascadeKeeps(f: Flow, tasks: seq<Task>, i: nat, now: Time)
    requires Shaped(f) && TasksOk(f.tasks) && JustFinished(f.tasks, tasks, i)
    ensures TasksOk(Cascade(tasks, i, now)) && Shaped(f.(tasks := Cascade(tasks, i, now)))
  {
    var after, doomed := Cascade(tasks, i, now), Doomed(tasks, i);
    ShapeKept(f, after);
    forall j | j in doomed ensures j != i && tasks[j].state == Pending { DoomedArePending(f.tasks, tasks, i, j); }
    forall k, d | 0 <= k < |tasks| && d in tasks[k].dependsOn ensures d < |tasks| {
      assert CopyOf(f.template, f.tasks, k);
      assert d in f.tasks[k].dependsOn;
    }
    forall j | 0 <= j < |after| ensures Gated(after, j) && Stopped(after, j) && OldDone(after, j) {
      CascadeKeepsAt(f.tasks, tasks, i, now, j);
      assert OldDone(f.tasks, j);
    }
  }

  lemma CascadeKeepsAt(before: seq<Task>, tasks: seq<Task>, i: nat, now: Time, j: nat)
    requires TasksOk(before) && JustFinished(before, tasks, i) && j < |tasks|
    requires forall k :: k in Doomed(tasks, i) ==> k != i && tasks[k].state == Pending
    requires forall k :: 0 <= k < |tasks| ==> forall d :: d in tasks[k].dependsOn ==> d < |tasks|
    ensures Gated(Cascade(tasks, i, now), j) && Stopped(Cascade(tasks, i, now), j)
  {
    var after, doomed := Cascade(tasks, i, now), Doomed(tasks, i);
    assert Gated(before, j) && Stopped(before, j);
    forall d | d in tasks[j].dependsOn && after[d].state.Dead() ensures after[j].state == Cancelled {
      if d == i || d in doomed {
        if tasks[j].state.Terminal() {
          assert before[d].state != Succeeded;
        } else {
          assert j in WaitingFor(tasks, d);
          DoomedIsClosed(tasks, i, d, j);
        }
      } else {
        assert after[d].state == before[d].state;
      }
    }
    if j !in doomed && after[j].state == Pending && DepsSucceeded(after, after[j]) {
      var d :| d in before[j].dependsOn && before[d].state != Succeeded;
      assert d == i;
      assert j in WaitingFor(tasks, i);
      DoomedIsClosed(tasks, i, i, j);
    }
  }

  // ---- unlocking ---------------------------------------------------------------------------

  lemma UnlockKeepsAt(before: seq<Task>, tasks: seq<Task>, i: nat, j: nat)
    requires TasksOk(before) && JustFinished(before, tasks, i) && tasks[i].state == Succeeded && j < |tasks|
    ensures Gated(Unlock(tasks, i), j) && Stopped(Unlock(tasks, i), j)
  {
    var after := Unlock(tasks, i);
    assert Gated(before, j) && Stopped(before, j);
    assert SameSuccesses(tasks, after);
    assert DepsSucceeded(after, after[j]) <==> DepsSucceeded(tasks, tasks[j]);
    if j != i && before[j].state == Pending && i !in before[j].dependsOn {
      assert DepsSucceeded(tasks, tasks[j]) <==> DepsSucceeded(before, before[j]);
    }
    if j == i && i in before[i].dependsOn {
      assert false;
    }
  }

  lemma UnlockKeeps(f: Flow, tasks: seq<Task>, i: nat)
    requires Shaped(f) && TasksOk(f.tasks)
    requires JustFinished(f.tasks, tasks, i) && tasks[i].state == Succeeded
    ensures TasksOk(Unlock(tasks, i)) && Shaped(f.(tasks := Unlock(tasks, i)))
  {
    var after := Unlock(tasks, i);
    ShapeKept(f, after);
    forall j | 0 <= j < |after| ensures Gated(after, j) && Stopped(after, j) && OldDone(after, j) {
      UnlockKeepsAt(f.tasks, tasks, i, j);
      assert OldDone(f.tasks, j);
    }
  }

  // ---- another round -----------------------------------------------------------------------

  ghost predicate Earned(tasks: seq<Task>, j: nat)
    requires j < |tasks|
  {
    tasks[j].state == Succeeded ==> DepsSucceeded(tasks, tasks[j])
  }

  ghost predicate LatestSucceeded(tasks: seq<Task>, n: Name) {
    Latest(tasks, n).Some? && tasks[Latest(tasks, n).value].state == Succeeded
  }

  /** One step up from a node inside a loop whose latest copy has succeeded. */
  lemma DepHasSucceeded(t: Template, tasks: seq<Task>, x: Name, y: Name)
    requires InSomeLoop(t, x) && y in t.Deps(x) && LatestSucceeded(tasks, x)
    requires var j := Latest(tasks, x).value; CopyOf(t, tasks, j) && WiredAt(t, tasks, j) && Earned(tasks, j)
    ensures LatestSucceeded(tasks, y)
  {
    var j := Latest(tasks, x).value;
    var k :| 0 <= k < |t.Deps(x)| && t.Deps(x)[k] == y;
    var d := tasks[j].dependsOn[k];
    assert d in tasks[j].dependsOn && IsLatest(tasks, d);
    assert DepsSucceeded(tasks, tasks[j]);
  }

  /** When the latest copy of a loop's check has succeeded, so has the latest copy of every node
      the check depends on inside the loop. */
  lemma {:induction false} LoopHasSucceeded(t: Template, tasks: seq<Task>, loop: Loop, p: seq<Name>)
    requires forall j: nat :: j < |tasks| ==> CopyOf(t, tasks, j) && WiredAt(t, tasks, j) && Earned(tasks, j)
    requires loop in t.loops
    requires Walk(t.Graph(), p) && p[0] == loop.check && Reaches(t.Graph(), p[|p| - 1], loop.backTo)
    requires LatestSucceeded(tasks, loop.check)
    ensures LatestSucceeded(tasks, p[|p| - 1])
    decreases |p|
  {
    if |p| > 1 {
      var q, x, y := p[..|p| - 1], p[|p| - 2], p[|p| - 1];
      var g := t.Graph();
      assert Linked(g, p, |p| - 2);
      forall k {:trigger Linked(g, q, k)} ensures Linked(g, q, k) { assert Linked(g, p, k); }
      StepReaches(g, x, y);
      ReachesTransitive(g, x, y, loop.backTo);
      LoopHasSucceeded(t, tasks, loop, q);
      assert WalkFromTo(g, q, loop.check, x);
      assert t.OnPath(loop, x) && InSomeLoop(t, x);
      DepHasSucceeded(t, tasks, x, y);
    }
  }
}
