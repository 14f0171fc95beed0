/** Whole runs: the invariant in every reachable state, and what follows from it. */
module FlowRuns {
  import opened Wrappers
  import opened Sequences
  import opened Lifecycles
  import opened Templates
  import opened Tasks
  import opened Flows
  import opened FlowInvariant
  import opened FlowRounds
  import opened FlowRoundSafety

  // ---- the first tasks ---------------------------------------------------------------------

  /** A fresh run: each task is the only copy of its node and depends on the tasks of its node's
      dependencies. */
  ghost predicate FirstAt(t: Template, tasks: seq<Task>, j: nat) {
    && j < |tasks| && t.Has(tasks[j].name) && IsLatest(tasks, j)
    && tasks[j].state == (if tasks[j].dependsOn == [] then Ready else Pending)
    && |tasks[j].dependsOn| == |t.Deps(tasks[j].name)|
    && forall q :: 0 <= q < |tasks[j].dependsOn| ==> Latest(tasks, t.Deps(tasks[j].name)[q]) == Some(tasks[j].dependsOn[q])
  }

  lemma FirstIsLatest(t: Template, j: nat)
    requires t.Valid() && j < |t.Order()|
    ensures Latest(FirstTasks(t), t.Order()[j]) == Some(j)
  {
    t.OrderIsDependencyOrder();
    var tasks := FirstTasks(t);
    forall k | 0 <= k < |tasks| && tasks[k].name == t.Order()[j] ensures k == j { SamePlace(t.Order(), j, k); }
    LatestOfDistinct(tasks, t.Order()[j], j, |tasks|);
  }

  lemma FirstDep(t: Template, j: nat, q: nat)
    requires t.Valid() && j < |t.Order()| && q < |t.Deps(t.Order()[j])|
    ensures Latest(FirstTasks(t), t.Deps(t.Order()[j])[q]) == Some(FirstDeps(t.Order(), t.Deps(t.Order()[j]))[q])
  {
    t.OrderIsDependencyOrder();
    DepIsNode(t, t.Order()[j], q);
    FirstIsLatest(t, IndexOf(t.Order(), t.Deps(t.Order()[j])[q]));
  }

  lemma FirstTaskIs(t: Template, j: nat)
    requires t.Valid() && j < |t.Order()|
    ensures FirstAt(t, FirstTasks(t), j)
  {
    var n := t.Order()[j];
    forall q: nat | q < |t.Deps(n)| ensures Latest(FirstTasks(t), t.Deps(n)[q]) == Some(FirstDeps(t.Order(), t.Deps(n))[q]) {
      FirstDep(t, j, q);
    }
    FirstIsLatest(t, j);
    t.OrderIsDependencyOrder();
    assert n in t.Order();
  }

  lemma FirstTaskKeeps(t: Template, tasks: seq<Task>, j: nat)
    requires j < |tasks| && forall k: nat :: k < |tasks| ==> FirstAt(t, tasks, k)
    ensures CopyOf(t, tasks, j) && Gated(tasks, j) && Stopped(tasks, j) && OldDone(tasks, j) && WiredAt(t, tasks, j)
  {
    var deps := tasks[j].dependsOn;
    assert FirstAt(t, tasks, j);
    forall q: nat | q < |deps| ensures deps[q] < |tasks| && IsLatest(tasks, deps[q]) && tasks[deps[q]].name == t.Deps(tasks[j].name)[q] {
      assert Latest(tasks, t.Deps(tasks[j].name)[q]) == Some(deps[q]);
    }
    forall d: nat | d in deps ensures d < |tasks| && tasks[d].state in {Ready, Pending} { assert FirstAt(t, tasks, d); }
    if deps != [] { assert deps[0] in deps && tasks[deps[0]].state != Succeeded; }
  }

  /** An instantiated template starts in the invariant. */
  lemma StartKeeps(t: Template)
    requires t.Valid()
    ensures Invariant(Start(t))
  {
    var tasks := FirstTasks(t);
    t.OrderIsDependencyOrder();
    forall j: nat | j < |tasks| ensures FirstAt(t, tasks, j) { FirstTaskIs(t, j); }
    forall j: nat | j < |tasks|
      ensures CopyOf(t, tasks, j) && Gated(tasks, j) && Stopped(tasks, j) && OldDone(tasks, j) && WiredAt(t, tasks, j)
    {
      FirstTaskKeeps(t, tasks, j);
    }
    forall n {:trigger t.Has(n)} | t.Has(n) ensures Latest(tasks, n).Some? {
      FirstIsLatest(t, IndexOf(t.Order(), n));
    }
    assert FirstAt(t, tasks, 0) && !tasks[0].state.Terminal();
  }

  // ---- the other transactions --------------------------------------------------------------

  lemma EndedAfterClose(f: Flow)
    requires f.state == FlowRunning
    ensures Ended(CloseIfDone(f)) && CloseIfDone(f).tasks == f.tasks && CloseIfDone(f).template == f.template
  {
  }

  lemma OpenWhileUnfinished(f: Flow, i: nat)
    requires Ended(f) && i < |f.tasks| && !f.tasks[i].state.Terminal()
    ensures f.state == FlowRunning
  {
  }

  lemma CancelledAndClosed(f: Flow, tasks: seq<Task>, i: nat, now: Time)
    requires Safe(f) && JustFinished(f.tasks, tasks, i)
    ensures Safe(CloseIfDone(f.(tasks := Cascade(tasks, i, now)))) && SameGraph(f.tasks, Cascade(tasks, i, now))
  {
    OpenWhileUnfinished(f, i);
    CascadeKeeps(f, tasks, i, now);
    EndedAfterClose(f.(tasks := Cascade(tasks, i, now)));
  }

  lemma UnlockedAndClosed(f: Flow, tasks: seq<Task>, i: nat)
    requires Safe(f) && JustFinished(f.tasks, tasks, i) && tasks[i].state == Succeeded
    ensures Safe(CloseIfDone(f.(tasks := Unlock(tasks, i)))) && SameGraph(f.tasks, Unlock(tasks, i))
  {
    OpenWhileUnfinished(f, i);
    UnlockKeeps(f, tasks, i);
    EndedAfterClose(f.(tasks := Unlock(tasks, i)));
  }

  /** Every unfinished task cancelled, the finished ones as they were. */
  ghost predicate AllCancelled(before: seq<Task>, after: seq<Task>) {
    SameGraph(before, after) && forall j :: 0 <= j < |before| ==>
      after[j].state == if before[j].state.Terminal() then before[j].state else Cancelled
  }

  lemma CancelAllAt(t: Template, before: seq<Task>, after: seq<Task>, j: nat)
    requires AllCancelled(before, after) && TasksOk(before) && j < |before|
    ensures Gated(after, j) && Stopped(after, j) && OldDone(after, j)
  {
    LatestByNames(before, after, before[j].name);
    assert SameSuccesses(before, after);
    assert Gated(before, j) && Stopped(before, j) && OldDone(before, j);
    assert DepsSucceeded(after, after[j]) <==> DepsSucceeded(before, before[j]);
  }

  lemma CancelAllDoes(tasks: seq<Task>, now: Time)
    ensures AllCancelled(tasks, CancelThese(tasks, Unfinished(tasks), now))
    ensures AllTerminal(tasks) ==> CancelThese(tasks, Unfinished(tasks), now) == tasks
  {
    var after := CancelThese(tasks, Unfinished(tasks), now);
    forall j: nat | j < |tasks| ensures after[j].name == tasks[j].name && after[j].dependsOn == tasks[j].dependsOn
        && after[j].state == if tasks[j].state.Terminal() then tasks[j].state else Cancelled {}
  }

  lemma CancelRunKeeps(f: Flow, now: Time)
    requires Safe(f)
    ensures Safe(Apply(f, CancelRun(now))) && SameGraph(f.tasks, Apply(f, CancelRun(now)).tasks)
    ensures AllTerminal(Apply(f, CancelRun(now)).tasks)
  {
    var after := CancelThese(f.tasks, Unfinished(f.tasks), now);
    CancelAllDoes(f.tasks, now);
    ShapeKept(f, after);
    AllCancelledOk(f.template, f.tasks, after);
  }

  lemma AllCancelledOk(t: Template, before: seq<Task>, after: seq<Task>)
    requires AllCancelled(before, after) && TasksOk(before)
    ensures TasksOk(after)
  {
    forall j: nat | j < |after| ensures Gated(after, j) && Stopped(after, j) && OldDone(after, j) {
      CancelAllAt(t, before, after, j);
    }
  }

  // ---- which runs are safe -----------------------------------------------------------------

  /** The loop of which the transaction adds a round. */
  ghost function RoundOf(f: Flow, a: Action): Option<Loop> {
    if !a.Succeed? || !Enabled(f, a) || Halts(f.template, f.tasks[a.i].name, a.output) then None
    else match FirstLoop(f.template.loops, f.tasks[a.i].name, a.output)
    case Some(loop) => if RoundsLeft(f.(tasks := f.tasks[a.i := a.row]), loop) then Some(loop) else None
    case None => None
  }

  /** If the transaction adds a round, what the round takes up is fit. */
  ghost predicate RoundFits(f: Flow, a: Action) {
    match RoundOf(f, a)
    case Some(loop) => InputsFit(f.template, loop, f.tasks[a.i := a.row])
    case None => true
  }

  /** Every round of the run found its inputs fit. */
  ghost predicate RoundsFit(t: Template, actions: seq<Action>) {
    actions != [] ==>
      && RoundsFit(t, actions[..|actions| - 1])
      && RoundFits(After(t, actions[..|actions| - 1]), actions[|actions| - 1])
  }

  lemma RoundOfIs(f: Flow, a: Action)
    requires RoundOf(f, a).Some?
    ensures var loop := RoundOf(f, a).value;
            && a.Succeed? && Enabled(f, a) && loop in f.template.loops && loop.check == f.tasks[a.i].name
            && Apply(f, a) == Round(f.(tasks := f.tasks[a.i := a.row]), a.i, loop)
  {
  }

  /** A success that adds no round, a death, a cancellation: the run stays safe. */
  lemma OthersKeep(f: Flow, a: Action)
    requires Safe(f) && RoundOf(f, a).None?
    ensures Safe(Apply(f, a)) && SameGraph(f.tasks, Apply(f, a).tasks)
  {
    if Enabled(f, a) {
      match a
      case Move(_, _) => MoveKeeps(f, a);
      case Succeed(i, row, _, now) => SuccessKeeps(f, a);
      case Die(i, row, now) => CancelledAndClosed(f, f.tasks[i := row], i, now);
      case CancelRun(now) => CancelRunKeeps(f, now);
    }
  }

  /** A success that adds no round cancels what waits for it or lets it go. */
  lemma SuccessIs(f: Flow, a: Action)
    requires a.Succeed? && Enabled(f, a) && RoundOf(f, a).None?
    ensures var tasks := f.tasks[a.i := a.row];
            || Apply(f, a) == CloseIfDone(f.(tasks := Cascade(tasks, a.i, a.now)))
            || Apply(f, a) == CloseIfDone(f.(tasks := Unlock(tasks, a.i)))
  {
  }

  lemma SuccessKeeps(f: Flow, a: Action)
    requires Safe(f) && a.Succeed? && Enabled(f, a) && RoundOf(f, a).None?
    ensures Safe(Apply(f, a)) && SameGraph(f.tasks, Apply(f, a).tasks)
  {
    SuccessIs(f, a);
    CancelledAndClosed(f, f.tasks[a.i := a.row], a.i, a.now);
    UnlockedAndClosed(f, f.tasks[a.i := a.row], a.i);
  }

  /** A transaction keeps a safe run safe if and only if the round it adds, should it add one, finds
      its inputs fit. */
  lemma StepIsSafeIff(f: Flow, a: Action)
    requires Safe(f)
    ensures Safe(Apply(f, a)) <==> RoundFits(f, a)
    ensures TasksOk(Apply(f, a).tasks) <==> RoundFits(f, a)
    ensures Apply(f, a).template == f.template
  {
    if RoundOf(f, a).Some? {
      RoundOfIs(f, a);
      RoundIsSafeIff(f, f.tasks[a.i := a.row], a.i, RoundOf(f, a).value);
    } else {
      OthersKeep(f, a);
    }
  }

  /** Readiness was safe in every state of the run so far. */
  ghost predicate SafeSoFar(t: Template, actions: seq<Action>) {
    forall k {:trigger After(t, actions[..k])} :: 0 <= k <= |actions| ==> TasksOk(After(t, actions[..k]).tasks)
  }

  lemma SafeSoFarIs(t: Template, actions: seq<Action>)
    ensures actions == [] ==> (SafeSoFar(t, actions) <==> TasksOk(After(t, actions).tasks))
    ensures actions != [] ==>
              (SafeSoFar(t, actions) <==> SafeSoFar(t, actions[..|actions| - 1]) && TasksOk(After(t, actions).tasks))
  {
    assert actions[..|actions|] == actions;
    if actions != [] {
      var front := actions[..|actions| - 1];
      forall k | 0 <= k < |actions| ensures After(t, actions[..k]) == After(t, front[..k]) { assert actions[..k] == front[..k]; }
    }
  }

  /** In a run of any valid template readiness is safe in all its states if and only if every round
      it added found its inputs fit. */
  lemma {:induction false} RunIsSafeIff(t: Template, actions: seq<Action>)
    requires t.Valid()
    ensures RoundsFit(t, actions) <==> SafeSoFar(t, actions)
    ensures RoundsFit(t, actions) ==> Safe(After(t, actions)) && After(t, actions).template == t
  {
    SafeSoFarIs(t, actions);
    if actions == [] {
      StartKeeps(t);
    } else {
      var front := actions[..|actions| - 1];
      RunIsSafeIff(t, front);
      if RoundsFit(t, front) { StepIsSafeIff(After(t, front), actions[|actions| - 1]); }
    }
  }

  // ---- compatible templates ----------------------------------------------------------------

  lemma RoundActionKeeps(f: Flow, a: Action)
    requires Invariant(f) && Compatible(f.template) && RoundOf(f, a).Some?
    ensures Invariant(Apply(f, a)) && RoundFits(f, a) && Apply(f, a).template == f.template
  {
    RoundOfIs(f, a);
    RoundKeeps(f, f.tasks[a.i := a.row], a.i, RoundOf(f, a).value);
  }

  lemma OtherActionKeeps(f: Flow, a: Action)
    requires Invariant(f) && RoundOf(f, a).None?
    ensures Invariant(Apply(f, a))
  {
    OthersKeep(f, a);
    StepIsSafeIff(f, a);
    WiringKept(f, Apply(f, a).tasks);
  }

  lemma ApplyKeeps(f: Flow, a: Action)
    requires Invariant(f) && Compatible(f.template)
    ensures Invariant(Apply(f, a)) && RoundFits(f, a) && Apply(f, a).template == f.template
  {
    StepIsSafeIff(f, a);
    if RoundOf(f, a).Some? { RoundActionKeeps(f, a); } else { OtherActionKeeps(f, a); }
  }

  /** Every reachable state of every run of a compatible template keeps the invariant, whatever the
      tasks' outputs, any number of rounds included; and every round finds its inputs fit. */
  lemma {:induction false} RunKeeps(t: Template, actions: seq<Action>)
    requires t.Valid() && Compatible(t)
    ensures Invariant(After(t, actions)) && After(t, actions).template == t
    ensures RoundsFit(t, actions)
  {
    if actions == [] {
      StartKeeps(t);
    } else {
      RunKeeps(t, actions[..|actions| - 1]);
      ApplyKeeps(After(t, actions[..|actions| - 1]), actions[|actions| - 1]);
    }
  }
}
