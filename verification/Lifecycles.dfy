/** The lifecycles of tasks, agent runs and workflow runs (backend/autora/runtime/lifecycles.py). */
module Lifecycles {
  import opened Graphs
  import opened Fsm

  datatype TaskState =
    | Pending | Ready | Running | WaitingApproval | BlockedBudget | Succeeded | Failed | Cancelled
  {
    predicate Terminal() { TaskMoves(this) == {} }

    /** Neither finished nor waiting for dependencies: somebody can move this task along. */
    predicate Active() { !Terminal() && this != Pending }

    /** Ended without its work done. */
    predicate Dead() { this == Failed || this == Cancelled }
  }

  datatype RunState =
    | Created | Working | AwaitingApproval | Evaluating | Repairing | Completed | RunFailed | Aborted
  {
    predicate Terminal() { RunMoves(this) == {} }
  }

  datatype FlowState = FlowRunning | FlowSucceeded | FlowFailed | FlowCancelled {
    predicate Terminal() { FlowMoves(this) == {} }
  }

  function TaskMoves(s: TaskState): set<TaskState> {
    match s
    case Pending => {Ready, Cancelled}
    case Ready => {Running, WaitingApproval, BlockedBudget, Cancelled, Succeeded, Failed}
    case Running => {Succeeded, Failed, Ready, WaitingApproval, BlockedBudget, Cancelled}
    case WaitingApproval => {Ready, Succeeded, Cancelled}
    case BlockedBudget => {Ready, Failed, Cancelled}
    case _ => {}
  }

  function RunMoves(s: RunState): set<RunState> {
    match s
    case Created => {Working, Aborted}
    case Working => {Evaluating, AwaitingApproval, RunFailed, Aborted}
    case AwaitingApproval => {Working, Aborted}
    case Evaluating => {Completed, Repairing, RunFailed, Aborted}
    case Repairing => {Working, RunFailed, Aborted}
    case _ => {}
  }

  function FlowMoves(s: FlowState): set<FlowState> {
    match s
    case FlowRunning => {FlowSucceeded, FlowFailed, FlowCancelled}
    case _ => {}
  }

  lemma ActiveIs(s: TaskState)
    ensures s.Active() <==> s in {Ready, Running, WaitingApproval, BlockedBudget}
    ensures s.Terminal() <==> s in {Succeeded, Failed, Cancelled}
  {
    match s
    case Pending => assert Ready in TaskMoves(s);
    case Ready => assert Running in TaskMoves(s);
    case Running => assert Ready in TaskMoves(s);
    case WaitingApproval => assert Ready in TaskMoves(s);
    case BlockedBudget => assert Ready in TaskMoves(s);
    case _ =>
  }

  function AgentRunFsm(): (m: Machine<RunState, ()>)
    ensures m.Valid()
    ensures forall s :: m.AllowedFrom(s) == RunMoves(s)
  {
    // sorted by the names ABORTED, COMPLETED, CREATED, EVALUATING, FAILED, REPAIRING, RUNNING, WAITING_APPROVAL
    Machine(
      [Aborted, Completed, Created, Evaluating, RunFailed, Repairing, Working, AwaitingApproval],
      map s: RunState | s in {Created, Working, AwaitingApproval, Evaluating, Repairing} :: RunMoves(s),
      map[])
  }

  /** An unfinished agent run can always still complete, fail and be aborted, and a run the worker
      holds can always be suspended for an approval; a finished run can do nothing. */
  lemma OpenRunsCanFinish(s: RunState)
    ensures !s.Terminal() <==> Reaches(AgentRunFsm().transitions, s, Completed) && s != Completed
    ensures !s.Terminal() <==> Reaches(AgentRunFsm().transitions, s, RunFailed) && s != RunFailed
    ensures !s.Terminal() <==> Reaches(AgentRunFsm().transitions, s, Aborted) && s != Aborted
    ensures !s.Terminal() <==> Reaches(AgentRunFsm().transitions, s, AwaitingApproval)
  {
    var m := AgentRunFsm();
    var g := m.transitions;
    assert forall x :: Succ(g, x) == m.AllowedFrom(x) == RunMoves(x);
    forall x, y | y in RunMoves(x) ensures Reaches(g, x, y) { StepReaches(g, x, y); }
    forall x { ReachesSelf(g, x); }
    if s.Terminal() {
      forall t | Reaches(g, s, t) ensures t == s {
        ReachesIsLeadsOrSame(g, s, t);
        LeadsByFirst(g, s, t);
      }
    } else {
      ReachesTransitive(g, Working, Evaluating, Completed);
      ReachesTransitive(g, Evaluating, Repairing, Working);
      assert Reaches(g, s, Working);
      forall t: RunState | t in {Completed, RunFailed, Aborted, AwaitingApproval} ensures Reaches(g, s, t) {
        ReachesTransitive(g, s, Working, t);
      }
    }
  }
}
