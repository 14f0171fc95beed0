/** What each transaction of the task manager emits, event by event in the order of the source
    (backend/autora/runtime/task_manager.py, dag.py), and what that tells about each task. */
module Emissions {
  import opened Tasks
  import opened Rows
  import opened Flows
  import opened Events
  import opened Sayings
  import opened Queue

  /** A failed or expired attempt: to be retried, or final (task_manager.py:355-360, 578-589, 596-608). */
  function AttemptEnded(id: TaskId, retry: bool): seq<What> {
    if retry then [TaskFailed(id, false), TaskReady(id)] else [TaskFailed(id, true)]
  }

  /** What a transaction itself says about its task; `resumed` tells a claim of a suspended run from one
      that starts an attempt. */
  function OwnSays(id: TaskId, t: Task, s: Step, resumed: bool): seq<What> {
    match s
    case Claiming(agent, _, _, _, _, _) =>
      var attempt := if resumed then t.attempt else t.attempt + 1;
      [TaskStarted(id, if resumed && t.HasOpenRun() then t.OpenRun().attempt else attempt, agent, attempt)]
    case Succeeding(_, _, _) => [TaskSucceeded(id)]
    case Completing(_, _, _, _) => [TaskSucceeded(id)]
    case Failing(_, retryable, _) => AttemptEnded(id, retryable && t.attempt < t.maxAttempts)
    case Reaping(_, _, _) => AttemptEnded(id, t.attempt < t.maxAttempts)
    case Aborting(_, reason, _) =>
      (match reason case Budget => [TaskBlocked(id)] case Policy => [TaskFailed(id, true)] case Human => [TaskCancelled(id)])
    case Suspending(_) => [TaskWaiting(id)]
    case Awaiting(_, _) => [TaskWaiting(id)]
    case Releasing(_, _) => [TaskReady(id)]
    case Unblocking(_, _, _) => if t.attempt < t.maxAttempts then [TaskReady(id)] else [TaskFailed(id, true)]
    case Cancelling(_, _, _) => [TaskCancelled(id)]
    case FailingWithoutRun(_, _, _) => [TaskFailed(id, true)]
    case _ => []
  }

  /** Everything a transaction emits about tasks; one that is refused emits nothing. */
  ghost function EmittedBy(w: World, set': Settings, s: Step): seq<What> {
    if s.Instantiate? then
      if Usable(s.template) then AllAddedSay(|w.flows|, FirstTasks(s.template), 0, |FirstTasks(s.template)|) else []
    else
      match ActionOf(w, set', s)
      case None => []
      case Some(a) =>
        var (r, i) := Target(s);
        if s.Stopping? then StopSays(s.r, w.flows[s.r].tasks, 0, s.now)
        else if !w.Has(r, i) || !Enabled(w.flows[r], a) then []
        else ActionSays(r, w.flows[r], a, OwnSays((r, i), w.Row(r, i), s, s.Claiming? && Busy(w, s.agent)))
  }
}
