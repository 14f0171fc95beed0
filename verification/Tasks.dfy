/** The rows of the work queue (backend/autora/db/models/tasks.py): tasks with their lease and
    their agent runs. A task's id is its place among the tasks of its workflow run, in creation
    order; the runs of a task are listed by attempt. */
module Tasks {
  import opened Wrappers
  import opened Lifecycles
  import opened Templates

  /** Microseconds since some moment. */
  type Time = int
  type AgentId = nat
  type Token = nat

  datatype Lease = Lease(owner: nat, until: Time, token: Token)

  datatype AgentRun = AgentRun(agent: AgentId, attempt: nat, state: RunState, finishedAt: Option<Time>) {
    predicate Open() { !state.Terminal() }
  }

  datatype Task = Task(
    name: Name,
    role: Name,
    priority: int,
    dependsOn: seq<nat>,
    state: TaskState,
    maxAttempts: nat,
    attempt: nat,
    lease: Option<Lease>,
    availableAt: Option<Time>,
    runs: seq<AgentRun>)
  {
    /** The unfinished run, if any. */
    predicate HasOpenRun() { runs != [] && runs[|runs| - 1].Open() }

    function OpenRun(): AgentRun
      requires HasOpenRun()
    {
      runs[|runs| - 1]
    }

    function WithOpenRun(run: AgentRun): Task
      requires HasOpenRun()
    {
      this.(runs := runs[|runs| - 1 := run])
    }

    /** End the unfinished run, if any, in a terminal state. */
    function EndRun(target: RunState, now: Time): Task {
      if HasOpenRun() then WithOpenRun(OpenRun().(state := target, finishedAt := Some(now))) else this
    }

    /** Give the claim back. */
    function Released(): Task { this.(lease := None) }

    /** Cancelled from outside a claim: the run is aborted and the claim given back
        (backend/autora/runtime/task_manager.py:416-450). */
    function Cancel(now: Time): Task {
      EndRun(Aborted, now).Released().(state := Cancelled)
    }

    /** Dependencies satisfied, or claimable again. */
    function Readied(): Task { this.(state := Ready) }
  }

  /** A task as it is created for a node: without a claim, without runs. */
  function NewTask(node: Node, dependsOn: seq<nat>, ready: bool): Task {
    Task(node.name, node.role, node.priority, dependsOn, if ready then Ready else Pending, node.maxAttempts, 0, None, None, [])
  }
}
