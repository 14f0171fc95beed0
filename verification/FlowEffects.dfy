/** What the success of a task sets off, in every reachable run and in the terms of the template: its
    halts, its loops and what waits (backend/autora/runtime/dag.py:290-436). */
module FlowEffects {
  import opened Wrappers
  import opened Sequences
  import opened Graphs
  import opened Lifecycles
  import opened Templates
  import opened Tasks
  import opened Flows
  import opened FlowInvariant
  import opened FlowRounds
  import opened FlowRoundSafety
  import opened FlowRuns
  import opened FlowResults
  import opened FlowBounds

  lemma SucceededTasks(f: Flow, i: nat, row: Task, output: Output, now: Time)
    requires Enabled(f, Succeed(i, row, output, now))
    ensures JustFinished(f.tasks, f.tasks[i := row], i) && row.name == f.tasks[i].name && row.state == Succeeded
  {
  }

  // ---- a halt ------------------------------------------------------------------------------

  lemma HaltedIs(f: Flow, i: nat, row: Task, output: Output, now: Time, h: Halt)
    requires Enabled(f, Succeed(i, row, output, now)) && h in f.template.halts && h.check == f.tasks[i].name && h.when(output)
    ensures Apply(f, Succeed(i, row, output, now)) == CloseIfDone(f.(tasks := Cascade(f.tasks[i := row], i, now)))
  {
    var k :| 0 <= k < |f.template.halts| && f.template.halts[k] == h;
  }

  /** In a safe run: exactly the transitive dependents of the task are cancelled, everything else stays. */
  lemma StoppedAt(f: Flow, i: nat, row: Task, output: Output, now: Time, j: nat)
    requires Safe(f) && Enabled(f, Succeed(i, row, output, now)) && j < |f.tasks|
    ensures var tasks := Cascade(f.tasks[i := row], i, now);
            |tasks| == |f.tasks| && tasks[j] == DeathOf(f, i, row, now, j)
    ensures Leads<nat>(Dependents(f.tasks), i, j) ==> j != i && DeathOf(f, i, row, now, j).state == Cancelled
  {
    SucceededTasks(f, i, row, output, now);
    CascadeIsDependents(f, f.tasks[i := row], i, now, j);
  }

  /** Who waits for whom, of the tasks that have not ended. */
  ghost function StillWaiting(tasks: seq<Task>): Edges<nat> {
    map i: nat | i < |tasks| :: Behind(tasks, i)
  }

  ghost function Behind(tasks: seq<Task>, i: nat): set<nat> {
    set j: nat | j < |tasks| && i in tasks[j].dependsOn && tasks[j].state !in {Succeeded, Failed, Cancelled}
  }

  /** The task depends on task `i`, directly or through others that have not ended either. */
  ghost predicate WaitsBehind(tasks: seq<Task>, i: nat, j: nat) {
    Leads<nat>(StillWaiting(tasks), i, j)
  }

  lemma StillWaitingIs(tasks: seq<Task>)
    ensures StillWaiting(tasks) == Waiters(tasks)
  {
    forall i: nat | i < |tasks| ensures StillWaiting(tasks)[i] == Waiters(tasks)[i] {
      forall j: nat | j < |tasks| ensures j in StillWaiting(tasks)[i] <==> j in Waiters(tasks)[i] { ActiveIs(tasks[j].state); }
    }
  }

  /** In any run: what waits behind the task is cancelled, and nothing else changes. */
  lemma CutOff(tasks: seq<Task>, i: nat, now: Time, j: nat)
    requires i < |tasks| && tasks[i].state == Succeeded && j < |tasks|
    ensures |Cascade(tasks, i, now)| == |tasks|
    ensures if WaitsBehind(tasks, i, j) then j != i && Cascade(tasks, i, now)[j].state == Cancelled else Cascade(tasks, i, now)[j] == tasks[j]
  {
    StillWaitingIs(tasks);
    EndedIsNotDoomed(tasks, i);
    assert j in Doomed(tasks, i) <==> WaitsBehind(tasks, i, j);
  }

  /** A halt of the template that looks at the task and says stop: in that transaction everything that
      waits behind the task is CANCELLED and nothing else changes; no task is added, and none becomes
      READY. Where rounds found their inputs fit, that is every task that depends on it. */
  lemma HaltStops(t: Template, actions: seq<Action>, i: nat, row: Task, output: Output, now: Time, h: Halt, j: nat)
    requires Enabled(After(t, actions), Succeed(i, row, output, now))
    requires h in t.halts && h.check == After(t, actions).tasks[i].name && h.when(output) && j < |After(t, actions).tasks|
    ensures var f, f' := After(t, actions), After(t, actions + [Succeed(i, row, output, now)]);
            && |f'.tasks| == |f.tasks|
            && (if WaitsBehind(f.tasks[i := row], i, j) then f'.tasks[j].state == Cancelled else f'.tasks[j] == f.tasks[i := row][j])
            && (t.Valid() && RoundsFit(t, actions) ==>
                  f'.tasks[j] == DeathOf(f, i, row, now, j) && (Leads<nat>(Dependents(f.tasks), i, j) ==> f'.tasks[j].state == Cancelled))
  {
    var f := After(t, actions);
    TemplateStays(t, actions);
    OneMore(t, actions, Succeed(i, row, output, now));
    HaltedIs(f, i, row, output, now, h);
    CutOff(f.tasks[i := row], i, now, j);
    if t.Valid() && RoundsFit(t, actions) {
      RunIsSafeIff(t, actions);
      StoppedAt(f, i, row, output, now, j);
    }
  }

  // ---- nothing asks ------------------------------------------------------------------------

  lemma {:induction false} NoLoopAsks(loops: seq<Loop>, name: Name, output: Output)
    requires forall l :: l in loops && l.check == name ==> !l.again(output)
    ensures FirstLoop(loops, name, output) == None
  {
    if loops != [] {
      assert loops[0] in loops;
      NoLoopAsks(loops[1..], name, output);
    }
  }

  lemma UnlockedIs(f: Flow, i: nat, row: Task, output: Output, now: Time)
    requires Enabled(f, Succeed(i, row, output, now))
    requires forall h :: h in f.template.halts && h.check == f.tasks[i].name ==> !h.when(output)
    requires forall l :: l in f.template.loops && l.check == f.tasks[i].name ==> !l.again(output)
    ensures Apply(f, Succeed(i, row, output, now)) == CloseIfDone(f.(tasks := Unlock(f.tasks[i := row], i)))
  {
    NoLoopAsks(f.template.loops, f.tasks[i].name, output);
    forall k | 0 <= k < |f.template.halts| && f.template.halts[k].check == f.tasks[i].name ensures !f.template.halts[k].when(output) {
      assert f.template.halts[k] in f.template.halts;
    }
  }

  /** The task waits for nothing but task `i`. */
  ghost predicate WaitsOnlyFor(tasks: seq<Task>, i: nat, t: Task) {
    t.state == Pending && i in t.dependsOn && forall d :: d in t.dependsOn && d != i ==> d < |tasks| && tasks[d].state == Succeeded
  }

  lemma UnlockedAt(tasks: seq<Task>, i: nat, row: Task, j: nat)
    requires i < |tasks| && row.state == Succeeded && j < |tasks|
    ensures var after := Unlock(tasks[i := row], i);
            after[j] == if j == i then row else if WaitsOnlyFor(tasks, i, tasks[j]) then tasks[j].(state := Ready) else tasks[j]
  {
    var now := tasks[i := row];
    if j != i && WaitsOnlyFor(tasks, i, tasks[j]) {
      forall d | d in tasks[j].dependsOn ensures d < |now| && now[d].state == Succeeded {}
    }
    if j != i && Unlocks(now, i, now[j]) {
      forall d | d in tasks[j].dependsOn && d != i ensures d < |tasks| && tasks[d].state == Succeeded { assert now[d] == tasks[d]; }
    }
  }

  lemma {:induction false} TemplateStays(t: Template, actions: seq<Action>)
    ensures After(t, actions).template == t
  {
    if actions != [] {
      TemplateStays(t, actions[..|actions| - 1]);
      TemplateKept(After(t, actions[..|actions| - 1]), actions[|actions| - 1]);
    }
  }

  lemma TemplateKept(f: Flow, a: Action)
    ensures Apply(f, a).template == f.template
  {
  }

  /** No halt of the template says stop and no loop asks again: in that transaction exactly the PENDING
      tasks that waited for nothing else become READY, and nothing else changes; nothing is cancelled. */
  lemma SuccessUnlocks(t: Template, actions: seq<Action>, i: nat, row: Task, output: Output, now: Time, j: nat)
    requires Enabled(After(t, actions), Succeed(i, row, output, now)) && j < |After(t, actions).tasks|
    requires forall h :: h in t.halts && h.check == After(t, actions).tasks[i].name ==> !h.when(output)
    requires forall l :: l in t.loops && l.check == After(t, actions).tasks[i].name ==> !l.again(output)
    ensures var f, f' := After(t, actions), After(t, actions + [Succeed(i, row, output, now)]);
            && |f'.tasks| == |f.tasks|
            && f'.tasks[j] == (if j == i then row
                               else if WaitsOnlyFor(f.tasks, i, f.tasks[j]) then f.tasks[j].(state := Ready)
                               else f.tasks[j])
  {
    var f := After(t, actions);
    TemplateStays(t, actions);
    OneMore(t, actions, Succeed(i, row, output, now));
    UnlockedIs(f, i, row, output, now);
    UnlockedAt(f.tasks, i, row, j);
  }

  // ---- a loop asks -------------------------------------------------------------------------

  /** The copies of a node. */
  ghost function CopiesOf(tasks: seq<Task>, n: Name): set<nat> {
    set c: nat | c < |tasks| && tasks[c].name == n
  }

  lemma {:induction false} CopiesAreCounted(tasks: seq<Task>, n: Name, k: nat)
    requires k <= |tasks|
    ensures CopiesIn(tasks, n, k) == |set c: nat | c < k && tasks[c].name == n|
  {
    var now := set c: nat | c < k && tasks[c].name == n;
    if k == 0 {
      assert now == {};
    } else {
      var before := set c: nat | c < k - 1 && tasks[c].name == n;
      CopiesAreCounted(tasks, n, k - 1);
      assert now == if tasks[k - 1].name == n then before + {k - 1} else before;
    }
  }

  /** The first of the loops over the task that asks again. */
  ghost predicate AsksFirst(loops: seq<Loop>, k: nat, name: Name, output: Output) {
    && k < |loops| && loops[k].check == name && loops[k].again(output)
    && forall m: nat {:trigger loops[m]} :: m < k && loops[m].check == name ==> !loops[m].again(output)
  }

  lemma {:induction false} FirstAsks(loops: seq<Loop>, k: nat, name: Name, output: Output)
    requires AsksFirst(loops, k, name, output)
    ensures FirstLoop(loops, name, output) == Some(loops[k])
    decreases k
  {
    if k > 0 {
      assert !(loops[0].check == name && loops[0].again(output));
      forall m: nat {:trigger loops[1..][m]} | m < k - 1 && loops[1..][m].check == name ensures !loops[1..][m].again(output) {
        assert loops[1..][m] == loops[m + 1];
      }
      FirstAsks(loops[1..], k - 1, name, output);
    }
  }

  lemma AskedIs(f: Flow, i: nat, row: Task, output: Output, now: Time, k: nat)
    requires Enabled(f, Succeed(i, row, output, now)) && AsksFirst(f.template.loops, k, f.tasks[i].name, output)
    requires forall h :: h in f.template.halts && h.check == f.tasks[i].name ==> !h.when(output)
    ensures var loop, tasks := f.template.loops[k], f.tasks[i := row];
            Apply(f, Succeed(i, row, output, now)) ==
            if |CopiesOf(f.tasks, loop.check)| <= loop.maxRounds then Round(f.(tasks := tasks), i, loop)
            else CloseIfDone(f.(tasks := Cascade(tasks, i, now)))
  {
    var tasks := f.tasks[i := row];
    FirstAsks(f.template.loops, k, f.tasks[i].name, output);
    CopiesAreCounted(tasks, f.template.loops[k].check, |tasks|);
    assert CopiesOf(tasks, f.template.loops[k].check) == CopiesOf(f.tasks, f.template.loops[k].check);
    forall m | 0 <= m < |f.template.halts| && f.template.halts[m].check == f.tasks[i].name ensures !f.template.halts[m].when(output) {
      assert f.template.halts[m] in f.template.halts;
    }
  }

  /** A new task of a round: a copy of a node the loop goes through, READY if it is the first one. */
  ghost predicate IsAgain(t: Template, loop: Loop, task: Task) {
    t.OnPath(loop, task.name) && task.state == if task.name == loop.backTo then Ready else Pending
  }

  lemma RoundAdds(f: Flow, i: nat, row: Task, loop: Loop, j: nat, n: Name)
    requires f.template.Valid() && f.template.ValidLoop(loop) && Shaped(f)
    requires i < |f.tasks| && row.name == f.tasks[i].name && row.dependsOn == f.tasks[i].dependsOn
    ensures var after := RoundTasks(f.(tasks := f.tasks[i := row]), i, loop);
            && |f.tasks| < |after|
            && (j < |f.tasks| ==> after[j].state == if j == i then row.state else f.tasks[j].state)
            && (|f.tasks| <= j < |after| ==> IsAgain(f.template, loop, after[j]))
            && |CopiesOf(after, n)| == |CopiesOf(f.tasks, n)| + (if f.template.OnPath(loop, n) then 1 else 0)
  {
    var f1 := f.(tasks := f.tasks[i := row]);
    assert SameGraph(f.tasks, f1.tasks);
    ShapeKept(f, f1.tasks);
    RoundGrows(f1, i, loop);
    if j < |f.tasks| {
      assert KeptAt(f1.tasks, i, Again(f1, loop), RoundTasks(f1, i, loop), j);
    } else if j < |RoundTasks(f1, i, loop)| {
      assert FreshAt(f.template, loop, RoundTasks(f1, i, loop), j);
    }
    CopiesGrow(f, f1, i, loop, n);
  }

  /** No halt says stop, and a loop asks again while it has rounds left, which it has as long as the
      check's copies are no more than its rounds: one copy of each node the loop goes through is added,
      the first of them READY; every other task stays in its state. */
  lemma LoopRepeats(t: Template, actions: seq<Action>, i: nat, row: Task, output: Output, now: Time, k: nat, j: nat, n: Name)
    requires t.Valid() && Enabled(After(t, actions), Succeed(i, row, output, now))
    requires forall h :: h in t.halts && h.check == After(t, actions).tasks[i].name ==> !h.when(output)
    requires AsksFirst(t.loops, k, After(t, actions).tasks[i].name, output)
    requires |CopiesOf(After(t, actions).tasks, t.loops[k].check)| <= t.loops[k].maxRounds
    ensures var f, f' := After(t, actions), After(t, actions + [Succeed(i, row, output, now)]);
            && |f.tasks| < |f'.tasks|
            && (j < |f.tasks| ==> f'.tasks[j].state == if j == i then Succeeded else f.tasks[j].state)
            && (|f.tasks| <= j < |f'.tasks| ==> IsAgain(t, t.loops[k], f'.tasks[j]))
            && |CopiesOf(f'.tasks, n)| == |CopiesOf(f.tasks, n)| + (if t.OnPath(t.loops[k], n) then 1 else 0)
  {
    var f := After(t, actions);
    RunIsSound(t, actions);
    TemplateStays(t, actions);
    OneMore(t, actions, Succeed(i, row, output, now));
    AskedIs(f, i, row, output, now, k);
    RoundAdds(f, i, row, t.loops[k], j, n);
  }

  lemma CopiesGrow(f: Flow, f1: Flow, i: nat, loop: Loop, n: Name)
    requires f.template.Valid() && f.template.ValidLoop(loop) && f1 == f.(tasks := f1.tasks) && SameNames(f.tasks, f1.tasks)
    ensures |CopiesOf(RoundTasks(f1, i, loop), n)| == |CopiesOf(f.tasks, n)| + (if f.template.OnPath(loop, n) then 1 else 0)
  {
    RoundRenews(f1, i, loop, n);
    CopiesAreCounted(RoundTasks(f1, i, loop), n, |RoundTasks(f1, i, loop)|);
    CopiesAreCounted(f.tasks, n, |f.tasks|);
    LatestByNames(f.tasks, f1.tasks, n);
  }

  /** No halt says stop, and a loop asks again that has no rounds left: everything that waits behind the
      check is CANCELLED and nothing else changes; no task is added, and none becomes READY. */
  lemma LoopGivesUp(t: Template, actions: seq<Action>, i: nat, row: Task, output: Output, now: Time, k: nat, j: nat)
    requires Enabled(After(t, actions), Succeed(i, row, output, now))
    requires forall h :: h in t.halts && h.check == After(t, actions).tasks[i].name ==> !h.when(output)
    requires AsksFirst(t.loops, k, After(t, actions).tasks[i].name, output)
    requires |CopiesOf(After(t, actions).tasks, t.loops[k].check)| > t.loops[k].maxRounds && j < |After(t, actions).tasks|
    ensures var f, f' := After(t, actions), After(t, actions + [Succeed(i, row, output, now)]);
            && |f'.tasks| == |f.tasks|
            && (if WaitsBehind(f.tasks[i := row], i, j) then f'.tasks[j].state == Cancelled else f'.tasks[j] == f.tasks[i := row][j])
            && (t.Valid() && RoundsFit(t, actions) ==>
                  f'.tasks[j] == DeathOf(f, i, row, now, j) && (Leads<nat>(Dependents(f.tasks), i, j) ==> f'.tasks[j].state == Cancelled))
  {
    var f := After(t, actions);
    TemplateStays(t, actions);
    OneMore(t, actions, Succeed(i, row, output, now));
    AskedIs(f, i, row, output, now, k);
    CutOff(f.tasks[i := row], i, now, j);
    if t.Valid() && RoundsFit(t, actions) {
      RunIsSafeIff(t, actions);
      StoppedAt(f, i, row, output, now, j);
    }
  }
}
