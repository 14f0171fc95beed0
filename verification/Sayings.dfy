/** What the engine says while it reacts to a task, event by event in the order of the source
    (backend/autora/runtime/dag.py:218-408, task_manager.py:125-189, 421-452). */
module Sayings {
  import opened Lifecycles
  import opened Templates
  import opened Tasks
  import opened Flows
  import opened Events

  lemma CancelShrinks(tasks: seq<Task>, which: set<nat>, now: Time)
    ensures Unfinished(CancelThese(tasks, which, now)) <= Unfinished(tasks)
  {
    forall j | j in Unfinished(CancelThese(tasks, which, now)) ensures j in Unfinished(tasks) {
      assert CancelThese(tasks, which, now)[j] == tasks[j];
    }
  }

  /** With task `j` cancelled, and then what waits for it, fewer tasks are unfinished. */
  lemma CancelOneShrinks(tasks: seq<Task>, j: nat, now: Time)
    requires j < |tasks| && !tasks[j].state.Terminal()
    ensures var t := CancelThese(tasks, {j}, now);
            Unfinished(t) < Unfinished(tasks) && Unfinished(Cascade(t, j, now)) < Unfinished(tasks)
  {
    var t := CancelThese(tasks, {j}, now);
    CancelShrinks(tasks, {j}, now);
    assert j in Unfinished(tasks) && j !in Unfinished(t);
    CancelShrinks(t, Doomed(t, j), now);
  }

  predicate Waits(tasks: seq<Task>, i: nat, j: nat)
    requires j < |tasks|
  {
    i in tasks[j].dependsOn && !tasks[j].state.Terminal()
  }

  /** Cancelling what waits for task `i`, from task `j` on: each waiter is cancelled, and then, before the
      next one, whatever waits for it (dag.py:314-325, 433-436; task_manager.py:421-452). */
  ghost function CascadeSays(r: nat, tasks: seq<Task>, i: nat, j: nat, now: Time): seq<What>
    decreases Unfinished(tasks), |tasks| - j
  {
    if j >= |tasks| then []
    else if Waits(tasks, i, j) then
      var t := CancelThese(tasks, {j}, now);
      CancelOneShrinks(tasks, j, now);
      ([TaskCancelled((r, j))] + CascadeSays(r, t, j, 0, now)) + CascadeSays(r, Cascade(t, j, now), i, j + 1, now)
    else CascadeSays(r, tasks, i, j + 1, now)
  }

  /** Cancelling every unfinished task of a run, from task `j` on (dag.py:277-286). */
  ghost function StopSays(r: nat, tasks: seq<Task>, j: nat, now: Time): seq<What>
    decreases |tasks| - j
  {
    if j >= |tasks| then []
    else if !tasks[j].state.Terminal() then
      var t := CancelThese(tasks, {j}, now);
      ([TaskCancelled((r, j))] + CascadeSays(r, t, j, 0, now)) + StopSays(r, Cascade(t, j, now), j + 1, now)
    else StopSays(r, tasks, j + 1, now)
  }

  /** A task that is added says so, and that it is READY if it is (task_manager.py:163-181). */
  function AddedSays(id: TaskId, t: Task): seq<What> {
    [TaskCreated(id, t.name, t.role)] + if t.state == Ready then [TaskReady(id)] else []
  }

  /** The first `k` of the new tasks, whose ids start at `base`. */
  function AllAddedSay(r: nat, added: seq<Task>, base: nat, k: nat): seq<What>
    requires k <= |added|
  {
    if k == 0 then [] else AllAddedSay(r, added, base, k - 1) + AddedSays((r, base + k - 1), added[k - 1])
  }

  /** The first `k` tasks as far as the success of `i` lets them start (dag.py:301-310). */
  function UnlockSays(r: nat, tasks: seq<Task>, i: nat, k: nat): seq<What>
    requires k <= |tasks|
  {
    if k == 0 then []
    else UnlockSays(r, tasks, i, k - 1) + if Unlocks(tasks, i, tasks[k - 1]) then [TaskReady((r, k - 1))] else []
  }

  /** What follows the success of task `i` (dag.py:290-312). */
  ghost function SuccessSays(r: nat, f: Flow, i: nat, output: Output, now: Time): seq<What>
    requires i < |f.tasks|
  {
    if Halts(f.template, f.tasks[i].name, output) then CascadeSays(r, f.tasks, i, 0, now)
    else match FirstLoop(f.template.loops, f.tasks[i].name, output)
    case Some(loop) =>
      if RoundsLeft(f, loop) then AllAddedSay(r, NewCopies(f, loop), |f.tasks|, |NewCopies(f, loop)|)
      else CascadeSays(r, f.tasks, i, 0, now)
    case None => UnlockSays(r, f.tasks, i, |f.tasks|)
  }

  /** What one transaction on a task says: of the task itself `own`, after everything a success sets off
      (task_manager.py:299-305) and before everything another end sets off (task_manager.py:355-362). */
  ghost function ActionSays(r: nat, f: Flow, a: Action, own: seq<What>): seq<What>
    requires Enabled(f, a)
  {
    match a
    case Move(_, _) => own
    case Succeed(i, row, output, now) => SuccessSays(r, f.(tasks := f.tasks[i := row]), i, output, now) + own
    case Die(i, row, now) => own + CascadeSays(r, f.tasks[i := row], i, 0, now)
    case CancelRun(now) => StopSays(r, f.tasks, 0, now)
  }
}
