/** What a revision round keeps: exactly when it is safe, and that it is where the template is
    compatible (backend/autora/runtime/dag.py:329-408). */
module FlowRoundSafety {
  import opened Wrappers
  import opened Graphs
  import opened Lifecycles
  import opened Templates
  import opened Tasks
  import opened Flows
  import opened FlowInvariant
  import opened FlowRounds

  /** Task `i`, a copy of the loop's check, has just succeeded, and the round has been added. */
  ghost predicate RoundStep(t: Template, loop: Loop, before: seq<Task>, tasks: seq<Task>, i: nat, again: nat, after: seq<Task>) {
    && JustFinished(before, tasks, i) && tasks[i].state == Succeeded && tasks[i].name == loop.check
    && loop in t.loops && t.OnPath(loop, loop.check)
    && (forall j: nat :: j < |before| ==> CopyOf(t, before, j) && CopyOf(t, tasks, j))
    && TasksOk(before)
    && Grown(t, loop, tasks, i, again, after)
  }

  lemma SwapKeepsOthers(deps: seq<nat>, i: nat, again: nat)
    ensures i !in deps ==> Swap(deps, i, again) == deps
    ensures i in deps ==> again in Swap(deps, i, again)
    ensures forall d: nat :: d in Swap(deps, i, again) ==> d == again || d in deps
  {
    var new' := Swap(deps, i, again);
    if i in deps {
      var q :| 0 <= q < |deps| && deps[q] == i;
      assert new'[q] == again;
    }
  }

  ghost predicate SameStateAt(tasks: seq<Task>, after: seq<Task>, d: nat) {
    d < |tasks| && d < |after| && after[d].state == tasks[d].state
  }

  /** What an older task waits for after the round: what it waited for before, except that the new
      copy of the check, still to be done, stands in for the old one. */
  lemma KeptDeps(t: Template, loop: Loop, before: seq<Task>, tasks: seq<Task>, i: nat, again: nat, after: seq<Task>, j: nat)
    requires RoundStep(t, loop, before, tasks, i, again, after) && j < |before|
    ensures SameStateAt(tasks, after, j)
    ensures again < |after| && after[again].state != Succeeded && !after[again].state.Dead()
    ensures i in before[j].dependsOn ==> again in after[j].dependsOn
    ensures i !in before[j].dependsOn ==> after[j].dependsOn == before[j].dependsOn
    ensures forall d: nat :: d in after[j].dependsOn && d != again ==> d in before[j].dependsOn && SameStateAt(tasks, after, d)
  {
    assert CopyOf(t, before, j) && KeptAt(tasks, i, again, after, j) && FreshAt(t, loop, after, again);
    SwapKeepsOthers(before[j].dependsOn, i, again);
    forall d: nat | d in before[j].dependsOn ensures SameStateAt(tasks, after, d) {
      assert KeptAt(tasks, i, again, after, d);
    }
  }

  lemma KeptGate(t: Template, loop: Loop, before: seq<Task>, tasks: seq<Task>, i: nat, again: nat, after: seq<Task>, j: nat)
    requires RoundStep(t, loop, before, tasks, i, again, after) && j < |before|
    ensures Gated(after, j)
  {
    KeptDeps(t, loop, before, tasks, i, again, after, j);
    assert Gated(before, j);
    if i in before[j].dependsOn {
      assert before[i].state != Succeeded;
    } else if before[j].state != Cancelled {
      assert |before| <= again ==> again !in before[j].dependsOn by { assert CopyOf(t, before, j); }
      assert DepsSucceeded(after, after[j]) <==> DepsSucceeded(before, before[j]);
    }
  }

  lemma KeptStop(t: Template, loop: Loop, before: seq<Task>, tasks: seq<Task>, i: nat, again: nat, after: seq<Task>, j: nat)
    requires RoundStep(t, loop, before, tasks, i, again, after) && j < |before|
    ensures Stopped(after, j)
  {
    KeptDeps(t, loop, before, tasks, i, again, after, j);
    assert Stopped(before, j);
  }

  // ---- when a round is safe ----------------------------------------------------------------

  /** Dependency `d` of the new copy of `n` is fit: done, or at least not dead for a copy that waits
      inside the loop anyway. */
  ghost predicate InputFit(t: Template, loop: Loop, tasks: seq<Task>, n: Name, d: Name) {
    d in t.Deps(n) && !t.OnPath(loop, d) ==>
      && Latest(tasks, d).Some?
      && var s := tasks[Latest(tasks, d).value].state;
      if n == loop.backTo then s == Succeeded else !s.Dead()
  }

  /** What a round finds: the newest copies of the nodes it repeats are done, and what the new
      copies depend on outside the loop is fit. */
  ghost predicate InputsFit(t: Template, loop: Loop, tasks: seq<Task>) {
    && (forall n {:trigger LatestSucceeded(tasks, n)} :: t.OnPath(loop, n) ==> LatestSucceeded(tasks, n))
    && (forall n, d {:trigger InputFit(t, loop, tasks, n, d)} :: t.OnPath(loop, n) ==> InputFit(t, loop, tasks, n, d))
  }

  ghost predicate FirstIsFree(t: Template, loop: Loop, n: Name) {
    n == loop.backTo <==> forall d :: d in t.Deps(n) ==> !t.OnPath(loop, d)
  }

  /** A dependency of a new task: a new task if the loop repeats it, else the newest older one. */
  lemma FreshDep(t: Template, loop: Loop, tasks: seq<Task>, i: nat, again: nat, after: seq<Task>, j: nat, q: nat)
    requires Grown(t, loop, tasks, i, again, after) && i < |tasks| && tasks[i].name == loop.check
    requires forall k: nat :: k < |tasks| ==> CopyOf(t, tasks, k)
    requires |tasks| <= j < |after| && q < |after[j].dependsOn| && q < |t.Deps(after[j].name)|
    ensures var d, m := after[j].dependsOn[q], t.Deps(after[j].name)[q];
            && d < |after| && m in t.Deps(after[j].name)
            && (t.OnPath(loop, m) ==> after[d].state in {Ready, Pending})
            && (!t.OnPath(loop, m) ==> Latest(tasks, m) == Some(d) && SameStateAt(tasks, after, d))
  {
    var d, m := after[j].dependsOn[q], t.Deps(after[j].name)[q];
    assert FreshAt(t, loop, after, j);
    assert m in t.Deps(after[j].name) && Latest(after, m) == Some(d);
    if d < |tasks| {
      assert CopyOf(t, tasks, d);
      KeptShape(t, loop, tasks, i, again, after, d);
      assert KeptAt(tasks, i, again, after, d);
    } else {
      assert FreshAt(t, loop, after, d);
    }
    assert t.Has(m) && RenewedAt(t, loop, tasks, after, m);
  }

  lemma FreshGate(t: Template, loop: Loop, tasks: seq<Task>, i: nat, again: nat, after: seq<Task>, j: nat)
    requires Grown(t, loop, tasks, i, again, after) && i < |tasks| && tasks[i].name == loop.check
    requires forall k: nat :: k < |tasks| ==> CopyOf(t, tasks, k)
    requires |tasks| <= j < |after| && FirstIsFree(t, loop, after[j].name) && InputsFit(t, loop, tasks)
    ensures Gated(after, j) && Stopped(after, j)
  {
    var n, deps := after[j].name, after[j].dependsOn;
    assert FreshAt(t, loop, after, j);
    forall q: nat | q < |deps|
      ensures deps[q] < |after| && !after[deps[q]].state.Dead()
      ensures t.OnPath(loop, t.Deps(n)[q]) ==> after[deps[q]].state != Succeeded
      ensures n == loop.backTo ==> after[deps[q]].state == Succeeded
    {
      FreshDep(t, loop, tasks, i, again, after, j, q);
      assert InputFit(t, loop, tasks, n, t.Deps(n)[q]);
    }
    if n != loop.backTo {
      var x :| x in t.Deps(n) && t.OnPath(loop, x);
      var q :| 0 <= q < |t.Deps(n)| && t.Deps(n)[q] == x;
      assert deps[q] in deps && after[deps[q]].state != Succeeded;
    }
  }

  lemma KeptOldDone(t: Template, loop: Loop, before: seq<Task>, tasks: seq<Task>, i: nat, again: nat, after: seq<Task>, j: nat)
    requires RoundStep(t, loop, before, tasks, i, again, after) && j < |before| && InputsFit(t, loop, tasks)
    ensures OldDone(after, j)
  {
    var n := tasks[j].name;
    assert KeptAt(tasks, i, again, after, j) && OldDone(before, j) && CopyOf(t, before, j);
    LatestByNames(before, tasks, n);
    assert RenewedAt(t, loop, tasks, after, n);
    assert t.OnPath(loop, n) ==> LatestSucceeded(tasks, n);
  }

  /** A round whose inputs are fit keeps readiness safe. */
  lemma FitKeeps(t: Template, loop: Loop, before: seq<Task>, tasks: seq<Task>, i: nat, again: nat, after: seq<Task>)
    requires RoundStep(t, loop, before, tasks, i, again, after) && InputsFit(t, loop, tasks)
    requires forall n {:trigger FirstIsFree(t, loop, n)} :: t.OnPath(loop, n) ==> FirstIsFree(t, loop, n)
    ensures TasksOk(after)
  {
    forall j: nat | j < |after| ensures Gated(after, j) && Stopped(after, j) && OldDone(after, j) {
      if j < |before| {
        KeptGate(t, loop, before, tasks, i, again, after, j);
        KeptStop(t, loop, before, tasks, i, again, after, j);
        KeptOldDone(t, loop, before, tasks, i, again, after, j);
      } else {
        assert FreshAt(t, loop, after, j) && FirstIsFree(t, loop, after[j].name);
        FreshGate(t, loop, tasks, i, again, after, j);
      }
    }
  }

  /** The newest older copy of a repeated node is no longer the newest, so it had to be done. */
  lemma SafeMeansDone(t: Template, loop: Loop, tasks: seq<Task>, i: nat, again: nat, after: seq<Task>, n: Name)
    requires Grown(t, loop, tasks, i, again, after) && TasksOk(after) && t.OnPath(loop, n) && t.Has(n)
    ensures LatestSucceeded(tasks, n)
  {
    assert RenewedAt(t, loop, tasks, after, n);
    var j := Latest(tasks, n).value;
    assert KeptAt(tasks, i, again, after, j) && OldDone(after, j);
  }

  /** What the new copy of `n` waits for had to be fit. */
  lemma SafeMeansFit(t: Template, loop: Loop, tasks: seq<Task>, i: nat, again: nat, after: seq<Task>, n: Name, d: Name)
    requires Grown(t, loop, tasks, i, again, after) && i < |tasks| && tasks[i].name == loop.check && TasksOk(after)
    requires forall k: nat :: k < |tasks| ==> CopyOf(t, tasks, k)
    requires t.OnPath(loop, n) && t.Has(n)
    ensures InputFit(t, loop, tasks, n, d)
  {
    if d in t.Deps(n) && !t.OnPath(loop, d) {
      assert RenewedAt(t, loop, tasks, after, n);
      var j := Latest(after, n).value;
      assert FreshAt(t, loop, after, j);
      assert Gated(after, j) && Stopped(after, j);
      var q :| 0 <= q < |t.Deps(n)| && t.Deps(n)[q] == d;
      FreshDep(t, loop, tasks, i, again, after, j, q);
      assert after[j].dependsOn[q] in after[j].dependsOn;
    }
  }

  /** Whatever the template: after a check has succeeded and asked for another round, the round
      leaves readiness safe if and only if, when it is added, the newest copies of the nodes it
      repeats have SUCCEEDED, what the loop's first node depends on has SUCCEEDED, and what its
      other nodes depend on outside the loop has not failed or been cancelled. */
  lemma RoundSafeIffInputsFit(f: Flow, tasks: seq<Task>, i: nat, loop: Loop)
    requires f.template.Valid() && Shaped(f) && TasksOk(f.tasks)
    requires JustFinished(f.tasks, tasks, i) && tasks[i].state == Succeeded
    requires loop in f.template.loops && loop.check == tasks[i].name
    ensures TasksOk(Round(f.(tasks := tasks), i, loop).tasks) <==> InputsFit(f.template, loop, tasks)
  {
    var t, f1 := f.template, f.(tasks := tasks);
    var after, again := RoundTasks(f1, i, loop), Again(f1, loop);
    RoundIsStep(f, tasks, i, loop);
    forall n | t.OnPath(loop, n) ensures t.Has(n) && FirstIsFree(t, loop, n) {
      BodyIsPath(t, loop, n);
      t.OnlyFirstIsFree(loop, n);
    }
    if InputsFit(t, loop, tasks) { FitKeeps(t, loop, f.tasks, tasks, i, again, after); }
    if TasksOk(after) {
      forall n | t.OnPath(loop, n) ensures LatestSucceeded(tasks, n) { SafeMeansDone(t, loop, tasks, i, again, after, n); }
      forall n, d | t.OnPath(loop, n) ensures InputFit(t, loop, tasks, n, d) { SafeMeansFit(t, loop, tasks, i, again, after, n, d); }
    }
  }

  lemma RoundIsStep(f: Flow, tasks: seq<Task>, i: nat, loop: Loop)
    requires f.template.Valid() && Shaped(f) && TasksOk(f.tasks)
    requires JustFinished(f.tasks, tasks, i) && tasks[i].state == Succeeded
    requires loop in f.template.loops && loop.check == tasks[i].name
    ensures var f1 := f.(tasks := tasks);
            RoundStep(f.template, loop, f.tasks, tasks, i, Again(f1, loop), RoundTasks(f1, i, loop))
  {
    ShapeKept(f, tasks);
    RoundGrows(f.(tasks := tasks), i, loop);
    BodyEnds(f.template, loop);
    assert forall j: nat :: j < |f.tasks| ==> CopyOf(f.template, f.tasks, j) && CopyOf(f.template, tasks, j);
  }

  // ---- compatible templates ----------------------------------------------------------------

  ghost predicate AllWired(t: Template, tasks: seq<Task>) {
    forall j: nat :: j < |tasks| ==> CopyOf(t, tasks, j) && WiredAt(t, tasks, j)
  }

  lemma CheckSucceeded(t: Template, before: seq<Task>, tasks: seq<Task>, i: nat)
    requires AllWired(t, before)
    requires TasksOk(before) && JustFinished(before, tasks, i) && tasks[i].state == Succeeded
    ensures forall j: nat :: j < |tasks| ==> CopyOf(t, tasks, j) && WiredAt(t, tasks, j) && Earned(tasks, j)
    ensures LatestSucceeded(tasks, tasks[i].name) && Latest(tasks, tasks[i].name) == Some(i)
    ensures forall n :: Latest(tasks, n) == Latest(before, n)
  {
    forall n ensures Latest(tasks, n) == Latest(before, n) { LatestByNames(before, tasks, n); }
    assert OldDone(before, i);
    forall j: nat | j < |tasks| ensures CopyOf(t, tasks, j) && WiredAt(t, tasks, j) && Earned(tasks, j) {
      assert CopyOf(t, before, j) && WiredAt(t, before, j) && Gated(before, j);
    }
  }

  /** At the check's success, the latest copies of the loop's nodes and of all their dependencies
      have succeeded. */
  lemma LoopInputsSucceeded(t: Template, loop: Loop, before: seq<Task>, tasks: seq<Task>, i: nat, n: Name)
    requires AllWired(t, before)
    requires TasksOk(before) && JustFinished(before, tasks, i) && tasks[i].state == Succeeded
    requires loop in t.loops && tasks[i].name == loop.check && t.OnPath(loop, n)
    ensures LatestSucceeded(tasks, n)
    ensures forall d :: d in t.Deps(n) ==> LatestSucceeded(tasks, d)
  {
    CheckSucceeded(t, before, tasks, i);
    var p :| WalkFromTo(t.Graph(), p, loop.check, n);
    LoopHasSucceeded(t, tasks, loop, p);
    assert InSomeLoop(t, n);
    forall d | d in t.Deps(n) ensures LatestSucceeded(tasks, d) { DepHasSucceeded(t, tasks, n, d); }
  }

  lemma CompatibleIsFit(t: Template, loop: Loop, before: seq<Task>, tasks: seq<Task>, i: nat)
    requires AllWired(t, before) && TasksOk(before) && JustFinished(before, tasks, i) && tasks[i].state == Succeeded
    requires loop in t.loops && tasks[i].name == loop.check
    ensures InputsFit(t, loop, tasks)
  {
    forall n | t.OnPath(loop, n) ensures LatestSucceeded(tasks, n) { LoopInputsSucceeded(t, loop, before, tasks, i, n); }
    forall n, d | t.OnPath(loop, n) ensures InputFit(t, loop, tasks, n, d) { LoopInputsSucceeded(t, loop, before, tasks, i, n); }
  }

  lemma FreshWired(t: Template, loop: Loop, after: seq<Task>, j: nat)
    requires FreshAt(t, loop, after, j)
    ensures WiredAt(t, after, j)
  {
    forall d: nat | d in after[j].dependsOn ensures d < |after| && IsLatest(after, d) {
      var q :| 0 <= q < |after[j].dependsOn| && after[j].dependsOn[q] == d;
      assert Latest(after, t.Deps(after[j].name)[q]) == Some(d);
    }
  }

  lemma KeptWired(t: Template, loop: Loop, before: seq<Task>, tasks: seq<Task>, i: nat, again: nat, after: seq<Task>, j: nat)
    requires RoundStep(t, loop, before, tasks, i, again, after) && AllWired(t, before) && j < |before|
    requires Compatible(t)
    ensures WiredAt(t, after, j)
  {
    var n := before[j].name;
    CheckSucceeded(t, before, tasks, i);
    assert KeptAt(tasks, i, again, after, j) && WiredAt(t, before, j) && CopyOf(t, before, j);
    assert RenewedAt(t, loop, tasks, after, n);
    if IsLatest(after, j) && Watched(t, n) {
      forall q: nat | q < |after[j].dependsOn|
        ensures after[j].dependsOn[q] < |after| && IsLatest(after, after[j].dependsOn[q])
      {
        KeptDepWired(t, loop, before, tasks, i, again, after, j, q);
      }
    }
  }

  lemma KeptDepWired(t: Template, loop: Loop, before: seq<Task>, tasks: seq<Task>, i: nat, again: nat, after: seq<Task>, j: nat, q: nat)
    requires RoundStep(t, loop, before, tasks, i, again, after) && AllWired(t, before) && j < |before|
    requires Compatible(t) && q < |before[j].dependsOn|
    requires Watched(t, before[j].name) && !t.OnPath(loop, before[j].name) && IsLatest(before, j)
    ensures var d := Swap(before[j].dependsOn, i, again)[q]; d < |after| && IsLatest(after, d)
  {
    var n, was := before[j].name, before[j].dependsOn[q];
    assert WiredAt(t, before, j) && CopyOf(t, before, j) && was in before[j].dependsOn;
    var m := t.Deps(n)[q];
    assert m in t.Deps(n) && CopyOf(t, before, was) && IsLatest(before, was);
    CheckSucceeded(t, before, tasks, i);
    assert RenewedAt(t, loop, tasks, after, m);
    var k :| 0 <= k < |t.loops| && t.loops[k] == loop;
    assert LeavesByCheck(t, t.loops[k], n, m);
    if was != i { assert KeptAt(tasks, i, again, after, was); }
  }

  lemma StepKeepsWiring(t: Template, loop: Loop, before: seq<Task>, tasks: seq<Task>, i: nat, again: nat, after: seq<Task>)
    requires RoundStep(t, loop, before, tasks, i, again, after) && AllWired(t, before) && Compatible(t)
    ensures AllWired(t, after)
  {
    forall j: nat | j < |after| ensures CopyOf(t, after, j) && WiredAt(t, after, j) {
      if j < |before| {
        KeptShape(t, loop, tasks, i, again, after, j);
        KeptWired(t, loop, before, tasks, i, again, after, j);
      } else {
        assert FreshAt(t, loop, after, j);
        FreshShape(t, loop, after, j);
        FreshWired(t, loop, after, j);
      }
    }
  }

  /** A round whose inputs are fit keeps the run safe, and only such a round does. */
  lemma RoundIsSafeIff(f: Flow, tasks: seq<Task>, i: nat, loop: Loop)
    requires Safe(f) && JustFinished(f.tasks, tasks, i) && tasks[i].state == Succeeded
    requires loop in f.template.loops && loop.check == tasks[i].name
    ensures Safe(Round(f.(tasks := tasks), i, loop)) <==> InputsFit(f.template, loop, tasks)
    ensures TasksOk(Round(f.(tasks := tasks), i, loop).tasks) <==> InputsFit(f.template, loop, tasks)
  {
    RoundSafeIffInputsFit(f, tasks, i, loop);
    RoundKeepsShape(f, tasks, i, loop);
  }

  lemma RoundKeepsShape(f: Flow, tasks: seq<Task>, i: nat, loop: Loop)
    requires Safe(f) && JustFinished(f.tasks, tasks, i) && tasks[i].state == Succeeded
    requires loop in f.template.loops && loop.check == tasks[i].name
    ensures Shaped(Round(f.(tasks := tasks), i, loop)) && Ended(Round(f.(tasks := tasks), i, loop))
  {
    var t, f1 := f.template, f.(tasks := tasks);
    var after, again := RoundTasks(f1, i, loop), Again(f1, loop);
    RoundIsStep(f, tasks, i, loop);
    forall j: nat | j < |after| ensures CopyOf(t, after, j) {
      if j < |tasks| {
        KeptShape(t, loop, tasks, i, again, after, j);
      } else {
        assert FreshAt(t, loop, after, j);
        FreshShape(t, loop, after, j);
      }
    }
    RoundHasEveryNode(t, loop, tasks, i, again, after);
    assert FreshAt(t, loop, after, again) && !after[again].state.Terminal();
  }

  /** The check's success and the round it asks for together keep the invariant. */
  lemma RoundKeeps(f: Flow, tasks: seq<Task>, i: nat, loop: Loop)
    requires Invariant(f) && JustFinished(f.tasks, tasks, i) && tasks[i].state == Succeeded
    requires loop in f.template.loops && loop.check == tasks[i].name
    requires Compatible(f.template)
    ensures Invariant(Round(f.(tasks := tasks), i, loop)) && InputsFit(f.template, loop, tasks)
  {
    var t, f1 := f.template, f.(tasks := tasks);
    assert AllWired(t, f.tasks);
    CompatibleIsFit(t, loop, f.tasks, tasks, i);
    RoundIsSafeIff(f, tasks, i, loop);
    RoundIsStep(f, tasks, i, loop);
    StepKeepsWiring(t, loop, f.tasks, tasks, i, Again(f1, loop), RoundTasks(f1, i, loop));
  }
}
