/** What the invariant means for a workflow run, in every state any sequence of transactions can
    reach from an instantiated template. */
module FlowResults {
  import opened Wrappers
  import opened Sequences
  import opened Graphs
  import opened Lifecycles
  import opened Templates
  import opened Tasks
  import opened Flows
  import opened FlowInvariant
  import opened FlowRuns

  /** Readiness is safe: a task that was ever let go (it is neither PENDING nor CANCELLED) has all
      its dependencies SUCCEEDED, a PENDING one still waits for something that can succeed, and
      every copy of a node but the newest one is SUCCEEDED. */
  lemma ReadinessIsSafe(t: Template, actions: seq<Action>, j: nat)
    requires t.Valid() && RoundsFit(t, actions) && j < |After(t, actions).tasks|
    ensures var tasks := After(t, actions).tasks;
            && (tasks[j].state !in {Pending, Cancelled} ==> DepsSucceeded(tasks, tasks[j]))
            && (tasks[j].state == Pending ==> exists d :: d in tasks[j].dependsOn && d < |tasks| && tasks[d].state != Succeeded)
            && (tasks[j].state == Pending ==> forall d :: d in tasks[j].dependsOn ==> d < |tasks| && !tasks[d].state.Dead())
            && (Latest(tasks, tasks[j].name) != Some(j) ==> tasks[j].state == Succeeded)
  {
    var f := After(t, actions);
    RunIsSafeIff(t, actions);
    assert CopyOf(t, f.tasks, j) && Gated(f.tasks, j) && Stopped(f.tasks, j) && OldDone(f.tasks, j);
  }

  /** Whatever rounds have been added, the newest copy of a watched node depends on exactly
      the newest copies of its template dependencies, in their order. */
  lemma LatestDependsOnLatest(t: Template, actions: seq<Action>, j: nat, q: nat)
    requires t.Valid() && Compatible(t) && j < |After(t, actions).tasks|
    requires var tasks := After(t, actions).tasks; Latest(tasks, tasks[j].name) == Some(j) && Watched(t, tasks[j].name)
    requires q < |t.Deps(After(t, actions).tasks[j].name)|
    ensures var tasks := After(t, actions).tasks;
            && |tasks[j].dependsOn| == |t.Deps(tasks[j].name)|
            && Latest(tasks, t.Deps(tasks[j].name)[q]) == Some(tasks[j].dependsOn[q])
  {
    var tasks := After(t, actions).tasks;
    RunKeeps(t, actions);
    assert CopyOf(t, tasks, j) && WiredAt(t, tasks, j);
    assert tasks[j].dependsOn[q] in tasks[j].dependsOn;
  }

  /** From each task to the tasks that depend on it, finished or not. */
  ghost function Dependents(tasks: seq<Task>): Edges<nat> {
    map i: nat | i < |tasks| :: DependingOn(tasks, i)
  }

  ghost function DependingOn(tasks: seq<Task>, i: nat): set<nat> {
    set j: nat | j < |tasks| && i in tasks[j].dependsOn
  }

  /** A task's dependencies are copies of nodes earlier in the template's order. */
  lemma DependentIsLater(f: Flow, x: nat, y: nat)
    requires f.template.Valid() && Shaped(f) && y in DependingOn(f.tasks, x)
    ensures x < |f.tasks| && y < |f.tasks|
    ensures f.tasks[x].name in f.template.Order() && f.tasks[y].name in f.template.Order()
    ensures IndexOf(f.template.Order(), f.tasks[x].name) < IndexOf(f.template.Order(), f.tasks[y].name)
  {
    assert CopyOf(f.template, f.tasks, y);
    var q :| 0 <= q < |f.tasks[y].dependsOn| && f.tasks[y].dependsOn[q] == x;
    assert f.template.Deps(f.tasks[y].name)[q] in f.template.Deps(f.tasks[y].name);
    f.template.OrderIsDependencyOrder();
    DepIsEarlier(f.template.nodes, f.template.Order(), f.tasks[y].name, f.tasks[x].name);
  }

  // ---- no run gets stuck -------------------------------------------------------------------

  lemma PendingWaits(tasks: seq<Task>, j: nat) returns (d: nat)
    requires j < |tasks| && Gated(tasks, j) && Stopped(tasks, j) && tasks[j].state == Pending
    requires forall x :: x in tasks[j].dependsOn ==> x < |tasks|
    ensures d in tasks[j].dependsOn && d < |tasks| && !tasks[d].state.Terminal()
  {
    d :| d in tasks[j].dependsOn && tasks[d].state != Succeeded;
  }

  lemma PendingWaitsForEarlier(f: Flow, j: nat) returns (d: nat)
    requires Safe(f) && j < |f.tasks| && f.tasks[j].state == Pending
    ensures d < |f.tasks| && !f.tasks[d].state.Terminal()
    ensures f.tasks[d].name in f.template.Order() && f.tasks[j].name in f.template.Order()
    ensures IndexOf(f.template.Order(), f.tasks[d].name) < IndexOf(f.template.Order(), f.tasks[j].name)
  {
    assert Gated(f.tasks, j) && Stopped(f.tasks, j) && CopyOf(f.template, f.tasks, j);
    d := PendingWaits(f.tasks, j);
    DependentIsLater(f, d, j);
  }

  lemma {:induction false} SomeoneCanAct(f: Flow, j: nat) returns (a: nat)
    requires Safe(f) && j < |f.tasks| && !f.tasks[j].state.Terminal() && f.tasks[j].name in f.template.Order()
    ensures a < |f.tasks| && f.tasks[a].state.Active()
    decreases IndexOf(f.template.Order(), f.tasks[j].name)
  {
    if f.tasks[j].state == Pending {
      var d := PendingWaitsForEarlier(f, j);
      a := SomeoneCanAct(f, d);
    } else {
      a := j;
    }
  }

  /** A RUNNING run always has a task somebody can move along: one that is READY, RUNNING,
      WAITING_APPROVAL or BLOCKED_BUDGET. */
  lemma NeverStuck(t: Template, actions: seq<Action>)
    requires t.Valid() && RoundsFit(t, actions) && After(t, actions).state == FlowRunning
    ensures exists j: nat :: j < |After(t, actions).tasks| && After(t, actions).tasks[j].state in {Ready, Running, WaitingApproval, BlockedBudget}
  {
    var f := After(t, actions);
    RunIsSafeIff(t, actions);
    var j: nat :| j < |f.tasks| && !f.tasks[j].state.Terminal();
    assert CopyOf(t, f.tasks, j);
    t.OrderIsDependencyOrder();
    var a := SomeoneCanAct(f, j);
    assert f.tasks[a].state.Active();
  }

  // ---- closing -----------------------------------------------------------------------------

  lemma EndedTells(f: Flow)
    requires Ended(f)
    ensures f.state != FlowRunning <==> AllTerminal(f.tasks)
    ensures f.state == FlowSucceeded <==> AllSucceeded(f.tasks)
    ensures f.state == FlowFailed <==> f.state != FlowRunning && SomeFailed(f.tasks)
  {
    if AllSucceeded(f.tasks) { assert AllTerminal(f.tasks) && !SomeFailed(f.tasks); }
  }

  /** The run is closed exactly when all its tasks are terminal, and tells how they ended. */
  lemma ClosedWhenDone(t: Template, actions: seq<Action>)
    requires t.Valid() && RoundsFit(t, actions)
    ensures var f := After(t, actions);
            && (f.state != FlowRunning <==> forall j :: 0 <= j < |f.tasks| ==> f.tasks[j].state.Terminal())
            && (f.state == FlowSucceeded <==> forall j :: 0 <= j < |f.tasks| ==> f.tasks[j].state == Succeeded)
            && (f.state == FlowFailed <==> f.state != FlowRunning && exists j :: 0 <= j < |f.tasks| && f.tasks[j].state == Failed)
  {
    RunIsSafeIff(t, actions);
    EndedTells(After(t, actions));
  }

  /** Once closed, a run never changes again: no task of it, and not its state. */
  lemma {:induction false} ClosedOnce(t: Template, actions: seq<Action>, later: seq<Action>)
    requires t.Valid() && RoundsFit(t, actions) && After(t, actions).state != FlowRunning
    ensures After(t, actions + later) == After(t, actions)
  {
    if later == [] {
      assert actions + later == actions;
    } else {
      var k, a := |later| - 1, later[|later| - 1];
      ClosedOnce(t, actions, later[..k]);
      assert (actions + later)[..|actions + later| - 1] == actions + later[..k];
      RunIsSafeIff(t, actions);
      ClosedStays(After(t, actions), a);
    }
  }

  lemma ClosedStays(f: Flow, a: Action)
    requires Safe(f) && f.state != FlowRunning
    ensures Apply(f, a) == f
  {
    if a.CancelRun? { CancelAllDoes(f.tasks, a.now); }
  }

  // ---- a failure cancels exactly what depends on it ----------------------------------------

  lemma {:induction false} WalkIsLater(f: Flow, p: seq<nat>)
    requires f.template.Valid() && Shaped(f) && Walk(Dependents(f.tasks), p) && |p| >= 2
    ensures p[0] < |f.tasks| && p[|p| - 1] < |f.tasks|
    ensures f.tasks[p[0]].name in f.template.Order() && f.tasks[p[|p| - 1]].name in f.template.Order()
    ensures IndexOf(f.template.Order(), f.tasks[p[0]].name) < IndexOf(f.template.Order(), f.tasks[p[|p| - 1]].name)
    decreases |p|
  {
    TailOfWalk(Dependents(f.tasks), p);
    assert p[0] in Dependents(f.tasks);
    DependentIsLater(f, p[0], p[1]);
    if |p| > 2 { WalkIsLater(f, p[1..]); }
  }

  /** A dependent of an unfinished task is PENDING, unless it was cancelled, and what lies between
      is unfinished too. */
  lemma {:induction false} DependentsWait(f: Flow, tasks: seq<Task>, i: nat, p: seq<nat>)
    requires f.template.Valid() && Shaped(f) && TasksOk(f.tasks) && JustFinished(f.tasks, tasks, i)
    requires Walk(Dependents(f.tasks), p) && p[0] == i && |p| >= 2
    requires p[|p| - 1] < |f.tasks| && f.tasks[p[|p| - 1]].state != Cancelled
    ensures WalkFromTo(Waiters(tasks), p, i, p[|p| - 1]) && f.tasks[p[|p| - 1]].state == Pending
    decreases |p|
  {
    var g, h, q, x, y := Dependents(f.tasks), Waiters(tasks), p[..|p| - 1], p[|p| - 2], p[|p| - 1];
    assert Linked(g, p, |p| - 2);
    forall k {:trigger Linked(g, q, k)} ensures Linked(g, q, k) { assert Linked(g, p, k); }
    assert x < |f.tasks| && x in f.tasks[y].dependsOn;
    assert Gated(f.tasks, y) && Stopped(f.tasks, y);
    if |p| > 2 { DependentsWait(f, tasks, i, q); }
    assert f.tasks[x].state != Succeeded && f.tasks[y].state == Pending;
    WalkIsLater(f, p);
    assert y in Succ(h, x);
    forall k {:trigger Linked(h, p, k)} ensures Linked(h, p, k) {
      if k < |p| - 2 { assert Linked(h, q, k); }
    }
  }

  lemma WaitersAreDependents(before: seq<Task>, tasks: seq<Task>, i: nat, p: seq<nat>)
    requires JustFinished(before, tasks, i) && Walk(Waiters(tasks), p)
    ensures Walk(Dependents(before), p)
  {
    forall k {:trigger Linked(Dependents(before), p, k)} ensures Linked(Dependents(before), p, k) {
      assert Linked(Waiters(tasks), p, k);
    }
  }

  lemma DependentIsDoomed(f: Flow, tasks: seq<Task>, i: nat, j: nat)
    requires f.template.Valid() && Shaped(f) && TasksOk(f.tasks) && JustFinished(f.tasks, tasks, i) && j < |tasks|
    requires Leads<nat>(Dependents(f.tasks), i, j)
    ensures j != i && f.tasks[j].state in {Pending, Cancelled}
    ensures tasks[j].state != Cancelled ==> j in Doomed(tasks, i)
  {
    var p: seq<nat> :| WalkFromTo<nat>(Dependents(f.tasks), p, i, j) && |p| >= 2;
    WalkIsLater(f, p);
    if f.tasks[j].state != Cancelled { DependentsWait(f, tasks, i, p); }
  }

  lemma DoomedIsDependent(before: seq<Task>, tasks: seq<Task>, i: nat, j: nat)
    requires TasksOk(before) && JustFinished(before, tasks, i) && j in Doomed(tasks, i)
    ensures Leads<nat>(Dependents(before), i, j) && tasks[j].state == Pending
  {
    var p: seq<nat> :| WalkFromTo<nat>(Waiters(tasks), p, i, j) && |p| >= 2;
    WaitersAreDependents(before, tasks, i, p);
    assert WalkFromTo<nat>(Dependents(before), p, i, j);
    DoomedArePending(before, tasks, i, j);
  }

  /** The cascade from a task that has just ended cancels its transitive dependents, those not
      cancelled before, and nothing else; all of them are PENDING. */
  lemma CascadeIsDependents(f: Flow, tasks: seq<Task>, i: nat, now: Time, j: nat)
    requires f.template.Valid() && Shaped(f) && TasksOk(f.tasks) && JustFinished(f.tasks, tasks, i) && j < |tasks|
    ensures Cascade(tasks, i, now)[j] ==
            if Leads<nat>(Dependents(f.tasks), i, j) && tasks[j].state != Cancelled then tasks[j].Cancel(now) else tasks[j]
    ensures Leads<nat>(Dependents(f.tasks), i, j) ==> j != i && f.tasks[j].state in {Pending, Cancelled}
  {
    if Leads<nat>(Dependents(f.tasks), i, j) { DependentIsDoomed(f, tasks, i, j); }
    if j in Doomed(tasks, i) { DoomedIsDependent(f.tasks, tasks, i, j); }
  }

  /** What becomes of task `j` when task `i` ends without its work done. */
  ghost function DeathOf(f: Flow, i: nat, row: Task, now: Time, j: nat): Task
    requires j < |f.tasks|
  {
    if j == i then row
    else if Leads<nat>(Dependents(f.tasks), i, j) && f.tasks[j].state != Cancelled then f.tasks[j].Cancel(now)
    else f.tasks[j]
  }

  lemma DeathCancels(f: Flow, i: nat, row: Task, now: Time, j: nat)
    requires Safe(f) && Enabled(f, Die(i, row, now)) && j < |f.tasks|
    ensures |Apply(f, Die(i, row, now)).tasks| == |f.tasks|
    ensures Apply(f, Die(i, row, now)).tasks[j] == DeathOf(f, i, row, now, j)
    ensures Leads<nat>(Dependents(f.tasks), i, j) ==> f.tasks[j].state in {Pending, Cancelled}
  {
    CascadeIsDependents(f, f.tasks[i := row], i, now, j);
  }

  /** When a task fails or is cancelled, exactly its transitive dependents are cancelled with it,
      those that were not cancelled before; all of them were PENDING. */
  lemma DeathCancelsDependents(t: Template, actions: seq<Action>, i: nat, row: Task, now: Time, j: nat)
    requires t.Valid() && RoundsFit(t, actions)
    requires Enabled(After(t, actions), Die(i, row, now)) && j < |After(t, actions).tasks|
    ensures |After(t, actions + [Die(i, row, now)]).tasks| == |After(t, actions).tasks|
    ensures After(t, actions + [Die(i, row, now)]).tasks[j] == DeathOf(After(t, actions), i, row, now, j)
    ensures Leads<nat>(Dependents(After(t, actions).tasks), i, j) ==> After(t, actions).tasks[j].state in {Pending, Cancelled}
  {
    RunIsSafeIff(t, actions);
    OneMore(t, actions, Die(i, row, now));
    DeathCancels(After(t, actions), i, row, now, j);
  }

  lemma OneMore(t: Template, actions: seq<Action>, a: Action)
    ensures After(t, actions + [a]) == Apply(After(t, actions), a)
  {
    assert (actions + [a])[..|actions|] == actions;
  }
}
