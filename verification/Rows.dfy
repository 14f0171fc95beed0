/** One task row of the queue: what keeps it honest, and how the task manager changes it
    (backend/autora/runtime/task_manager.py). Each operation gives the new row, or nothing where
    the source refuses. */
module Rows {
  import opened Wrappers
  import opened Lifecycles
  import opened Templates
  import opened Tasks
  import opened Flows

  /** A worker's claim on a task: the agent run it works on (by its place) and the token it got. */
  datatype Claim = Claim(flow: nat, task: nat, run: nat, agent: AgentId, token: Token)

  datatype Settings = Settings(lease: Time, retryBase: nat, retryMax: nat)

  datatype AbortReason = Budget | Policy | Human

  // ---- what keeps a row honest -------------------------------------------------------------

  /** Runs are numbered by attempt; a run has an end exactly when it is over; only the last run of
      a task may be unfinished. */
  ghost predicate RunsOk(runs: seq<AgentRun>) {
    forall k :: 0 <= k < |runs| ==>
      && runs[k].attempt == k + 1
      && (runs[k].finishedAt.Some? <==> runs[k].state.Terminal())
      && (k < |runs| - 1 ==> runs[k].state.Terminal())
  }

  ghost predicate RowOk(t: Task) {
    && RunsOk(t.runs)
    // attempts are consumed by claims, and there are never more than allowed
    && |t.runs| == t.attempt <= t.maxAttempts
    // a lease exactly while RUNNING, and somebody's unfinished run behind it
    && (t.lease.Some? <==> t.state == Running)
    && (t.state == Running ==> t.HasOpenRun())
    // an unfinished run without a lease waits for an approval
    && (t.HasOpenRun() ==> t.state in {Running, WaitingApproval, Ready})
    && (t.HasOpenRun() && t.state != Running ==> t.OpenRun().state == AwaitingApproval)
    && (t.state == Pending ==> t.attempt == 0 && t.maxAttempts >= 1)
    // claimable in principle
    && (t.state in {Ready, WaitingApproval} ==> t.attempt < t.maxAttempts || t.HasOpenRun())
  }

  /** What happens to a row whose own task was not acted upon: it may end, lose its claim, become
      READY; it gets no new run and no new claim. */
  ghost predicate Calmer(was: Task, now: Task) {
    && (RowOk(was) ==> RowOk(now))
    && (now.HasOpenRun() ==> was.HasOpenRun() && now.OpenRun().agent == was.OpenRun().agent)
    && (now.lease.Some? ==> was.lease.Some? && now.lease.value.token == was.lease.value.token)
  }

  // ---- operations --------------------------------------------------------------------------

  /** Ending the unfinished run leaves the others alone. */
  lemma EndRunOk(t: Task, target: RunState, now: Time)
    requires RunsOk(t.runs) && target.Terminal()
    ensures RunsOk(t.EndRun(target, now).runs) && |t.EndRun(target, now).runs| == |t.runs|
    ensures !t.EndRun(target, now).HasOpenRun()
  {
  }

  lemma CancelIsCalm(t: Task, now: Time)
    ensures Calmer(t, t.Cancel(now))
  {
    if RowOk(t) { EndRunOk(t, Aborted, now); }
  }

  lemma ReadyIsCalm(t: Task)
    requires t.state == Pending
    ensures Calmer(t, t.Readied())
  {
  }

  /** Claimable by an agent that has no unfinished run (task_manager.py:215-225). */
  predicate Claimable(t: Task, role: Name, now: Time) {
    && t.role == role && t.state == Ready && t.attempt < t.maxAttempts
    && (t.availableAt.None? || t.availableAt.value <= now)
    && !(t.HasOpenRun() && t.OpenRun().state == AwaitingApproval)
  }

  /** The agent's own suspended run, released (task_manager.py:195-207). */
  predicate Resumable(t: Task, agent: AgentId) {
    t.HasOpenRun() && t.OpenRun().agent == agent && t.OpenRun().state == AwaitingApproval && t.state == Ready
  }

  function Leased(t: Task, owner: nat, until: Time, token: Token): Task {
    t.(lease := Some(Lease(owner, until, token)), availableAt := None, state := Running)
  }

  /** A new attempt: task_manager.py:244-263. */
  function Started(t: Task, agent: AgentId, owner: nat, until: Time, token: Token): Task {
    Leased(t.(attempt := t.attempt + 1, runs := t.runs + [AgentRun(agent, t.attempt + 1, Created, None)]), owner, until, token)
  }

  lemma StartedOk(t: Task, role: Name, now: Time, agent: AgentId, owner: nat, until: Time, token: Token)
    requires RowOk(t) && Claimable(t, role, now)
    ensures RowOk(Started(t, agent, owner, until, token))
    ensures Started(t, agent, owner, until, token).HasOpenRun() && Started(t, agent, owner, until, token).OpenRun().agent == agent
  {
    assert !t.HasOpenRun();
    var t' := Started(t, agent, owner, until, token);
    forall k | 0 <= k < |t'.runs|
      ensures t'.runs[k].attempt == k + 1 && (t'.runs[k].finishedAt.Some? <==> t'.runs[k].state.Terminal())
      ensures k < |t'.runs| - 1 ==> t'.runs[k].state.Terminal()
    {
      if k < |t.runs| { assert t'.runs[k] == t.runs[k]; }
    }
  }

  lemma ResumedOk(t: Task, agent: AgentId, owner: nat, until: Time, token: Token)
    requires RowOk(t) && Resumable(t, agent)
    ensures RowOk(Leased(t, owner, until, token))
  {
  }

  /** The claim is still good: the task RUNNING under this token, its run unfinished
      (task_manager.py:672-681). */
  predicate Holds(t: Task, c: Claim) {
    && t.state == Running && t.lease.Some? && t.lease.value.token == c.token
    && c.run < |t.runs| && t.runs[c.run].Open()
  }

  lemma HeldRunIsOpen(t: Task, c: Claim)
    requires RowOk(t) && Holds(t, c)
    ensures t.HasOpenRun() && c.run == |t.runs| - 1
  {
  }

  function Beaten(t: Task, until: Time): Task
    requires t.lease.Some?
  {
    t.(lease := Some(t.lease.value.(until := until)))
  }

  /** The run goes on, still unfinished (agent_runner.py moves it while it holds the claim). */
  function Advanced(t: Task, to: RunState): Task
    requires t.HasOpenRun()
  {
    t.WithOpenRun(t.OpenRun().(state := to))
  }

  lemma AdvancedOk(t: Task, to: RunState)
    requires RowOk(t) && t.HasOpenRun() && !to.Terminal()
    requires t.state == Running || to == AwaitingApproval
    ensures RowOk(Advanced(t, to)) && Advanced(t, to).HasOpenRun() && Advanced(t, to).OpenRun() == t.OpenRun().(state := to)
  {
  }

  /** The claim ends with its run: task_manager.py:291-308, 338-353, 378-415. */
  function Finished(t: Task, target: RunState, state: TaskState, now: Time): Task {
    t.EndRun(target, now).Released().(state := state)
  }

  lemma FinishedOk(t: Task, target: RunState, state: TaskState, now: Time)
    requires RowOk(t) && target.Terminal() && state in {Succeeded, Failed, Cancelled, BlockedBudget}
    ensures RowOk(Finished(t, target, state, now)) && !Finished(t, target, state, now).HasOpenRun()
  {
    EndRunOk(t, target, now);
  }

  function Power2(n: nat): nat { if n == 0 then 1 else 2 * Power2(n - 1) }

  /** Exponential backoff with a cap (task_manager.py:734-735). */
  function Backoff(s: Settings, attempt: nat): nat {
    var delay := s.retryBase * Power2(if attempt == 0 then 0 else attempt - 1);
    if s.retryMax < delay then s.retryMax else delay
  }

  /** Back to READY after a failed or expired run (task_manager.py:596-613). */
  function Requeued(t: Task, target: RunState, now: Time, s: Settings): Task {
    t.EndRun(target, now).Released().(state := Ready, availableAt := Some(now + Backoff(s, t.attempt)))
  }

  lemma RequeuedOk(t: Task, target: RunState, now: Time, s: Settings)
    requires RowOk(t) && target.Terminal() && t.attempt < t.maxAttempts
    ensures RowOk(Requeued(t, target, now, s)) && !Requeued(t, target, now, s).HasOpenRun()
  {
    EndRunOk(t, target, now);
  }

  /** The run waits for a person, the worker is free (task_manager.py:460-465). */
  function Suspended(t: Task): Task
    requires t.HasOpenRun()
  {
    Advanced(t, AwaitingApproval).Released().(state := WaitingApproval)
  }

  lemma SuspendedOk(t: Task)
    requires RowOk(t) && t.HasOpenRun()
    ensures RowOk(Suspended(t)) && Suspended(t).HasOpenRun() && Suspended(t).OpenRun().agent == t.OpenRun().agent
  {
  }

  // ---- transactions on one row -------------------------------------------------------------

  /** What becomes of the row: the transaction is refused, the task moves on, or it ends, with or
      without its work done. */
  datatype RowOutcome = Refused | Moved(row: Task) | Worked(row: Task) | Lost(row: Task)

  /** What the workflow run goes through: the row written, and what that sets off. */
  function ActionFor(i: nat, o: RowOutcome, output: Output, now: Time): Action
    requires !o.Refused?
  {
    match o
    case Moved(row) => Move(i, row)
    case Worked(row) => Succeed(i, row, output, now)
    case Lost(row) => Die(i, row, now)
  }

  /** A legal move of the task's lifecycle that keeps the row honest and brings no run and no claim. */
  ghost predicate Lawful(was: Task, o: RowOutcome) {
    o.Refused? ||
    (&& Becomes(was, o.row) && Calmer(was, o.row)
     && match o
        case Moved(row) => was.state.Active() && row.state.Active()
        case Worked(row) => was.state.Active() && row.state == Succeeded
        case Lost(row) => !was.state.Terminal() && row.state.Dead())
  }

  function Heartbeat(t: Task, c: Claim, until: Time): RowOutcome {
    if !Holds(t, c) then Refused else Moved(Beaten(t, until))
  }

  function Advance(t: Task, c: Claim, to: RunState): RowOutcome {
    if Holds(t, c) && t.HasOpenRun() && !to.Terminal() && to in RunMoves(t.OpenRun().state) then Moved(Advanced(t, to)) else Refused
  }

  function Complete(t: Task, c: Claim, now: Time): RowOutcome {
    if !Holds(t, c) then Refused else Worked(Finished(t, Completed, Succeeded, now))
  }

  function Fail(t: Task, c: Claim, retryable: bool, now: Time, s: Settings): RowOutcome {
    if !Holds(t, c) then Refused
    else if retryable && t.attempt < t.maxAttempts then Moved(Requeued(t, RunFailed, now, s))
    else Lost(Finished(t, RunFailed, Failed, now))
  }

  function Abort(t: Task, c: Claim, reason: AbortReason, now: Time): RowOutcome {
    if !Holds(t, c) then Refused
    else match reason
      case Budget => Moved(Finished(t, Aborted, BlockedBudget, now))
      case Policy => Lost(Finished(t, Aborted, Failed, now))
      case Human => Lost(Finished(t, Aborted, Cancelled, now))
  }

  function Suspend(t: Task, c: Claim): RowOutcome {
    if Holds(t, c) && t.HasOpenRun() then Moved(Suspended(t)) else Refused
  }

  function CancelOne(t: Task, now: Time): RowOutcome {
    if t.state.Terminal() then Refused else Lost(t.Cancel(now))
  }

  /** A node for a person starts waiting for its decision. */
  function Await(t: Task): RowOutcome {
    if t.state == Ready then Moved(t.(state := WaitingApproval)) else Refused
  }

  function ReleaseAfterApproval(t: Task): RowOutcome {
    if t.state == WaitingApproval then Moved(t.Readied()) else Refused
  }

  /** For a node without an agent run. */
  function CompleteWithoutRun(t: Task): RowOutcome {
    if t.state in {Ready, WaitingApproval} && !t.HasOpenRun() then Worked(t.(state := Succeeded)) else Refused
  }

  function FailWithoutRun(t: Task): RowOutcome {
    if t.state == Ready && !t.HasOpenRun() then Lost(t.(state := Failed)) else Refused
  }

  /** After the budget was raised: claimable again, or failed if no attempt is left. */
  function ReleaseBlocked(t: Task): RowOutcome {
    if t.state != BlockedBudget then Refused
    else if t.attempt < t.maxAttempts then Moved(t.Readied())
    else Lost(t.(state := Failed))
  }

  /** Take back the lease of a worker that crashed or stalled. */
  function Reap(t: Task, now: Time, s: Settings): RowOutcome {
    if !(t.state == Running && t.lease.Some? && t.lease.value.until < now) then Refused
    else if t.attempt < t.maxAttempts then Moved(Requeued(t, Aborted, now, s))
    else Lost(Finished(t, Aborted, Failed, now))
  }

  lemma ClaimOpsAreLawful(t: Task, c: Claim, until: Time, to: RunState)
    requires RowOk(t)
    ensures Lawful(t, Heartbeat(t, c, until)) && Lawful(t, Advance(t, c, to)) && Lawful(t, Suspend(t, c))
  {
    if Holds(t, c) {
      HeldRunIsOpen(t, c);
      if !to.Terminal() { AdvancedOk(t, to); }
      SuspendedOk(t);
    }
  }

  lemma CompleteIsLawful(t: Task, c: Claim, now: Time)
    requires RowOk(t)
    ensures Lawful(t, Complete(t, c, now))
  {
    if Holds(t, c) { FinishedOk(t, Completed, Succeeded, now); }
  }

  lemma AbortIsLawful(t: Task, c: Claim, reason: AbortReason, now: Time)
    requires RowOk(t)
    ensures Lawful(t, Abort(t, c, reason, now))
  {
    if Holds(t, c) {
      FinishedOk(t, Aborted, BlockedBudget, now);
      FinishedOk(t, Aborted, Failed, now);
      FinishedOk(t, Aborted, Cancelled, now);
    }
  }

  lemma FailIsLawful(t: Task, c: Claim, retryable: bool, now: Time, s: Settings)
    requires RowOk(t)
    ensures Lawful(t, Fail(t, c, retryable, now, s))
  {
    if Holds(t, c) {
      FinishedOk(t, RunFailed, Failed, now);
      if t.attempt < t.maxAttempts { RequeuedOk(t, RunFailed, now, s); }
    }
  }

  lemma ReapIsLawful(t: Task, now: Time, s: Settings)
    requires RowOk(t)
    ensures Lawful(t, Reap(t, now, s))
  {
    FinishedOk(t, Aborted, Failed, now);
    if t.attempt < t.maxAttempts { RequeuedOk(t, Aborted, now, s); }
  }

  lemma OthersAreLawful(t: Task, now: Time)
    requires RowOk(t)
    ensures Lawful(t, CancelOne(t, now)) && Lawful(t, Await(t)) && Lawful(t, ReleaseAfterApproval(t))
    ensures Lawful(t, CompleteWithoutRun(t)) && Lawful(t, FailWithoutRun(t)) && Lawful(t, ReleaseBlocked(t))
  {
    CancelIsCalm(t, now);
  }

  /** Delays double from the base until they reach the cap, and never leave it. */
  lemma {:induction false} BackoffGrows(s: Settings, attempt: nat)
    requires attempt >= 1
    ensures Backoff(s, attempt) <= Backoff(s, attempt + 1) <= s.retryMax
    ensures Backoff(s, attempt + 1) == if 2 * Backoff(s, attempt) < s.retryMax then 2 * Backoff(s, attempt) else s.retryMax
  {
    var p := Power2(attempt - 1);
    assert Power2(attempt) == 2 * p;
    assert s.retryBase * Power2(attempt) == 2 * (s.retryBase * p);
  }
}
