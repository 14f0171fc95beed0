/** What the transactions of the queue write, row by row: leases, attempts and backoff, the ends of agent
    runs (backend/autora/runtime/task_manager.py). */
module QueueWrites {
  import opened Wrappers
  import opened Graphs
  import opened Lifecycles
  import opened Templates
  import opened Tasks
  import opened Rows
  import opened Flows
  import opened FlowInvariant
  import opened Queue

  /** The same queue but for one row. */
  ghost function WithRow(w: World, r: nat, i: nat, row: Task): World
    requires w.Has(r, i)
  {
    w.(flows := w.flows[r := w.flows[r].(tasks := w.flows[r].tasks[i := row])])
  }

  /** A claim that is good: its task RUNNING under a lease with its token, its run unfinished. */
  predicate IsGood(w: World, c: Claim) {
    && w.Has(c.flow, c.task)
    && var t := w.Row(c.flow, c.task);
       && t.state == Running && t.lease.Some? && t.lease.value.token == c.token
       && c.run < |t.runs| && t.runs[c.run].state !in {Completed, RunFailed, Aborted}
  }

  lemma TerminalRuns(s: RunState)
    ensures s.Terminal() <==> s in {Completed, RunFailed, Aborted}
  {
    match s
    case Created => assert Working in RunMoves(s);
    case Working => assert Evaluating in RunMoves(s);
    case AwaitingApproval => assert Working in RunMoves(s);
    case Evaluating => assert Completed in RunMoves(s);
    case Repairing => assert Working in RunMoves(s);
    case _ =>
  }

  lemma GoodIsHeld(w: World, c: Claim)
    requires w.Has(c.flow, c.task)
    ensures IsGood(w, c) <==> Holds(w.Row(c.flow, c.task), c)
  {
    var t := w.Row(c.flow, c.task);
    if c.run < |t.runs| { TerminalRuns(t.runs[c.run].state); }
  }

  lemma MovedIs(w: World, set': Settings, s: Step, row: Task)
    requires !s.Instantiate? && !s.Stopping? && ActionOf(w, set', s) == Some(Move(Target(s).1, row))
    requires w.Has(Target(s).0, Target(s).1)
    ensures var (r, i) := Target(s);
            Enabled(w.flows[r], Move(i, row)) ==>
              Next(w, set', s) == WithRow(w, r, i, row).(nextToken := if s.Claiming? then w.nextToken + 1 else w.nextToken)
  {
  }

  // ---- leases --------------------------------------------------------------------------------

  /** A heartbeat under a good claim extends the lease to a lease's time from now, for the same worker
      under the same token, and writes nothing else; under any other claim it writes nothing. */
  lemma BeatingExtends(w: World, set': Settings, c: Claim, now: Time)
    ensures !IsGood(w, c) ==> Next(w, set', Beating(c, now)) == w
    ensures IsGood(w, c) ==>
              var t := w.Row(c.flow, c.task);
              Next(w, set', Beating(c, now)) ==
                WithRow(w, c.flow, c.task, t.(lease := Some(Lease(t.lease.value.owner, now + set'.lease, c.token))))
  {
    if w.Has(c.flow, c.task) {
      GoodIsHeld(w, c);
      var t := w.Row(c.flow, c.task);
      if IsGood(w, c) {
        ActiveIs(t.state);
        MovedIs(w, set', Beating(c, now), t.(lease := Some(Lease(t.lease.value.owner, now + set'.lease, c.token))));
      }
    }
  }

  /** A task is taken back exactly when it is RUNNING under a lease that ended before now; a lease
      protects its task up to its last moment. */
  lemma ReapedIffExpired(w: World, set': Settings, r: nat, i: nat, now: Time)
    requires w.Has(r, i) && RowOk(w.Row(r, i))
    ensures var t := w.Row(r, i);
            Next(w, set', Reaping(r, i, now)) != w <==> t.state == Running && t.lease.Some? && t.lease.value.until < now
  {
    var t := w.Row(r, i);
    if t.state == Running && t.lease.Some? && t.lease.value.until < now {
      ReapWrites(w, set', r, i, now);
    }
  }

  // ---- claims --------------------------------------------------------------------------------

  /** The agent has an unfinished run somewhere. */
  ghost predicate Works(w: World, agent: AgentId) {
    exists r: nat, i: nat {:trigger w.Row(r, i)} ::
      w.Has(r, i) && w.Row(r, i).runs != [] && var run := w.Row(r, i).runs[|w.Row(r, i).runs| - 1];
      run.agent == agent && run.state !in {Completed, RunFailed, Aborted}
  }

  lemma WorksIsBusy(w: World, agent: AgentId)
    ensures Works(w, agent) <==> Busy(w, agent)
  {
    if Works(w, agent) {
      var r: nat, i: nat :| w.Has(r, i) && w.Row(r, i).runs != [] && var run := w.Row(r, i).runs[|w.Row(r, i).runs| - 1];
        run.agent == agent && run.state !in {Completed, RunFailed, Aborted};
      TerminalRuns(w.Row(r, i).runs[|w.Row(r, i).runs| - 1].state);
      assert OpenAt(w, r, i, agent);
    }
    if Busy(w, agent) {
      var r: nat, i: nat :| OpenAt(w, r, i, agent);
      TerminalRuns(w.Row(r, i).runs[|w.Row(r, i).runs| - 1].state);
    }
  }

  /** The last run of the task is suspended for an approval. */
  predicate IsSuspended(t: Task) { t.runs != [] && t.runs[|t.runs| - 1].state == AwaitingApproval }

  /** What a claim asks of a task: READY; for an agent at work its own suspended run, for a free one the
      agent's role, an attempt left, the backoff over, and nobody's suspended run. */
  ghost predicate IsFor(w: World, t: Task, agent: AgentId, role: Name, now: Time) {
    && t.state == Ready
    && if Works(w, agent) then IsSuspended(t) && t.runs[|t.runs| - 1].agent == agent
       else t.role == role && t.attempt < t.maxAttempts && (t.availableAt.None? || t.availableAt.value <= now) && !IsSuspended(t)
  }

  /** The row of a claimed task: RUNNING under a lease of its worker with the next token, without backoff;
      the suspended run as it was, or one more attempt with a run of the agent that has just begun. */
  ghost function ClaimedRow(w: World, set': Settings, t: Task, agent: AgentId, owner: nat, now: Time): Task {
    var leased := t.(state := Running, lease := Some(Lease(owner, now + set'.lease, w.nextToken)), availableAt := None);
    if Works(w, agent) then leased
    else leased.(attempt := t.attempt + 1, runs := t.runs + [AgentRun(agent, t.attempt + 1, Created, None)])
  }

  /** A claim is granted exactly then, and writes exactly that. */
  lemma ClaimingLeases(w: World, set': Settings, agent: AgentId, role: Name, owner: nat, r: nat, i: nat, now: Time)
    requires w.Has(r, i)
    ensures var t, w' := w.Row(r, i), Next(w, set', Claiming(agent, role, owner, r, i, now));
            w' == if IsFor(w, t, agent, role, now)
                  then WithRow(w, r, i, ClaimedRow(w, set', t, agent, owner, now)).(nextToken := w.nextToken + 1) else w
  {
    var t, s := w.Row(r, i), Claiming(agent, role, owner, r, i, now);
    WorksIsBusy(w, agent);
    if t.runs != [] { TerminalRuns(t.runs[|t.runs| - 1].state); }
    ActiveIs(Ready);
    ActiveIs(Running);
    assert IsFor(w, t, agent, role, now) <==> MayClaim(w, agent, role, r, i, now);
    if IsFor(w, t, agent, role, now) {
      assert ClaimRow(w, set', agent, owner, r, i, now) == ClaimedRow(w, set', t, agent, owner, now);
      MovedIs(w, set', s, ClaimedRow(w, set', t, agent, owner, now));
    }
  }

  lemma TakenIsClaimed(w: World, set': Settings, agent: AgentId, role: Name, owner: nat, r: nat, i: nat, now: Time)
    requires MayClaim(w, agent, role, r, i, now)
    ensures Next(w, set', Claiming(agent, role, owner, r, i, now)) ==
            WithRow(w, r, i, ClaimedRow(w, set', w.Row(r, i), agent, owner, now)).(nextToken := w.nextToken + 1)
  {
    WorksIsBusy(w, agent);
    if w.Row(r, i).runs != [] { TerminalRuns(w.Row(r, i).runs[|w.Row(r, i).runs| - 1].state); }
    ClaimingLeases(w, set', agent, role, owner, r, i, now);
  }

  // ---- ends of an attempt --------------------------------------------------------------------

  /** The last run has ended so, now; the runs before it are as they were. */
  predicate RunEnded(was: Task, now: Task, target: RunState, at: Time) {
    was.runs != [] && now.runs == was.runs[|was.runs| - 1 := was.runs[|was.runs| - 1].(state := target, finishedAt := Some(at))]
  }

  /** The task has left its worker; all else but its state and when it may be claimed is as it was. */
  predicate LeftWorker(was: Task, now: Task, state: TaskState) {
    now.lease == None && now == was.(state := state, lease := None, runs := now.runs, availableAt := now.availableAt, dependsOn := now.dependsOn)
  }

  /** The task waits for another attempt: READY, after a delay for the attempts made. */
  predicate ToBeRetried(was: Task, now: Task, set': Settings, at: Time) {
    LeftWorker(was, now, Ready) && now.availableAt == Some(at + Backoff(set', was.attempt))
  }

  lemma OpenIsLast(t: Task)
    requires t.HasOpenRun()
    ensures t.runs != []
    ensures forall target: RunState, at: Time {:trigger t.EndRun(target, at)} ::
              t.EndRun(target, at) == t.(runs := t.runs[|t.runs| - 1 := t.runs[|t.runs| - 1].(state := target, finishedAt := Some(at))])
  {
  }

  /** What the engine does after a task has ended leaves that task's row but for what it waits for. */
  lemma OwnRowStays(f: Flow, a: Action, i: nat)
    requires Enabled(f, a) && (a.Die? || a.Succeed?) && a.i == i
    ensures i < |Apply(f, a).tasks| && Apply(f, a).tasks[i] == a.row.(dependsOn := Apply(f, a).tasks[i].dependsOn)
  {
    var tasks := f.tasks[i := a.row];
    assert a.row.state.Terminal() by { ActiveIs(a.row.state); }
    EndedIsNotDoomed(tasks, i);
  }

  lemma EndedIs(w: World, set': Settings, s: Step, a: Action)
    requires !s.Instantiate? && !s.Stopping? && !s.Claiming? && w.Has(Target(s).0, Target(s).1)
    requires ActionOf(w, set', s) == Some(a) && (a.Die? || a.Succeed?) && Enabled(w.flows[Target(s).0], a) && a.i == Target(s).1
    ensures var (r, i) := Target(s);
            && Next(w, set', s).Has(r, i)
            && Next(w, set', s).Row(r, i) == a.row.(dependsOn := Next(w, set', s).Row(r, i).dependsOn)
  {
    var (r, i) := Target(s);
    OwnRowStays(w.flows[r], a, i);
  }

  /** A lease that was taken back: the run is aborted; with an attempt left the task is retried after its
      delay, otherwise it has failed. */
  lemma ReapWrites(w: World, set': Settings, r: nat, i: nat, now: Time)
    requires w.Has(r, i) && RowOk(w.Row(r, i))
    requires var t := w.Row(r, i); t.state == Running && t.lease.Some? && t.lease.value.until < now
    ensures var t, w' := w.Row(r, i), Next(w, set', Reaping(r, i, now));
            && w'.Has(r, i) && RunEnded(t, w'.Row(r, i), Aborted, now)
            && if t.attempt < t.maxAttempts then ToBeRetried(t, w'.Row(r, i), set', now) && w' == WithRow(w, r, i, w'.Row(r, i))
               else LeftWorker(t, w'.Row(r, i), Failed) && w'.Row(r, i).availableAt == t.availableAt
  {
    var t, s := w.Row(r, i), Reaping(r, i, now);
    OpenIsLast(t);
    ActiveIs(Ready);
    ActiveIs(Running);
    if t.attempt < t.maxAttempts { MovedIs(w, set', s, Requeued(t, Aborted, now, set')); }
    else { EndedIs(w, set', s, Die(i, Finished(t, Aborted, Failed, now), now)); }
  }

  /** A failure under a good claim: the run has failed; a retryable one with an attempt left is retried
      after its delay, any other is final. */
  lemma FailingWrites(w: World, set': Settings, c: Claim, retryable: bool, now: Time)
    requires IsGood(w, c) && RowOk(w.Row(c.flow, c.task))
    ensures var t, w' := w.Row(c.flow, c.task), Next(w, set', Failing(c, retryable, now));
            && w'.Has(c.flow, c.task) && RunEnded(t, w'.Row(c.flow, c.task), RunFailed, now)
            && if retryable && t.attempt < t.maxAttempts
               then ToBeRetried(t, w'.Row(c.flow, c.task), set', now) && w' == WithRow(w, c.flow, c.task, w'.Row(c.flow, c.task))
               else LeftWorker(t, w'.Row(c.flow, c.task), Failed) && w'.Row(c.flow, c.task).availableAt == t.availableAt
  {
    var t, s := w.Row(c.flow, c.task), Failing(c, retryable, now);
    GoodIsHeld(w, c);
    OpenIsLast(t);
    ActiveIs(Ready);
    ActiveIs(Running);
    if retryable && t.attempt < t.maxAttempts { MovedIs(w, set', s, Requeued(t, RunFailed, now, set')); }
    else { EndedIs(w, set', s, Die(c.task, Finished(t, RunFailed, Failed, now), now)); }
  }

  /** A success under a good claim: the run is completed, the task SUCCEEDED. */
  lemma SucceedingWrites(w: World, set': Settings, c: Claim, output: Output, now: Time)
    requires IsGood(w, c) && RowOk(w.Row(c.flow, c.task))
    ensures var t, w' := w.Row(c.flow, c.task), Next(w, set', Succeeding(c, output, now));
            && w'.Has(c.flow, c.task) && RunEnded(t, w'.Row(c.flow, c.task), Completed, now)
            && LeftWorker(t, w'.Row(c.flow, c.task), Succeeded) && w'.Row(c.flow, c.task).availableAt == t.availableAt
  {
    var t, s := w.Row(c.flow, c.task), Succeeding(c, output, now);
    GoodIsHeld(w, c);
    OpenIsLast(t);
    ActiveIs(Running);
    EndedIs(w, set', s, Succeed(c.task, Finished(t, Completed, Succeeded, now), output, now));
  }

  /** An abort under a good claim: the run is aborted; the task is blocked for the budget, failed for the
      policy, cancelled for a person. */
  lemma AbortingWrites(w: World, set': Settings, c: Claim, reason: AbortReason, now: Time)
    requires IsGood(w, c) && RowOk(w.Row(c.flow, c.task))
    ensures var t, w' := w.Row(c.flow, c.task), Next(w, set', Aborting(c, reason, now));
            && w'.Has(c.flow, c.task) && RunEnded(t, w'.Row(c.flow, c.task), Aborted, now)
            && LeftWorker(t, w'.Row(c.flow, c.task), match reason case Budget => BlockedBudget case Policy => Failed case Human => Cancelled)
            && w'.Row(c.flow, c.task).availableAt == t.availableAt
  {
    var t, s := w.Row(c.flow, c.task), Aborting(c, reason, now);
    GoodIsHeld(w, c);
    OpenIsLast(t);
    ActiveIs(Running);
    ActiveIs(BlockedBudget);
    match reason
    case Budget => MovedIs(w, set', s, Finished(t, Aborted, BlockedBudget, now));
    case Policy => EndedIs(w, set', s, Die(c.task, Finished(t, Aborted, Failed, now), now));
    case Human => EndedIs(w, set', s, Die(c.task, Finished(t, Aborted, Cancelled, now), now));
  }

  /** While a claim is good its run may move on, by a legal move to a state it is not over in, and nothing
      else is written. */
  lemma AdvancingWrites(w: World, set': Settings, c: Claim, to: RunState)
    requires IsGood(w, c) && RowOk(w.Row(c.flow, c.task))
    ensures var t := w.Row(c.flow, c.task);
            && t.runs != [] && var run := t.runs[|t.runs| - 1];
               Next(w, set', Advancing(c, to)) ==
                 if to in RunMoves(run.state) && to !in {Completed, RunFailed, Aborted}
                 then WithRow(w, c.flow, c.task, t.(runs := t.runs[|t.runs| - 1 := run.(state := to)])) else w
  {
    var t := w.Row(c.flow, c.task);
    GoodIsHeld(w, c);
    HeldRunIsOpen(t, c);
    TerminalRuns(to);
    ActiveIs(t.state);
    var run := t.runs[|t.runs| - 1];
    if to in RunMoves(run.state) && !to.Terminal() {
      MovedIs(w, set', Advancing(c, to), t.(runs := t.runs[|t.runs| - 1 := run.(state := to)]));
    }
  }

  /** A suspension under a good claim: the task waits without a lease, its run with it. */
  lemma SuspendingWrites(w: World, set': Settings, c: Claim)
    requires IsGood(w, c) && RowOk(w.Row(c.flow, c.task))
    ensures var t := w.Row(c.flow, c.task);
            Next(w, set', Suspending(c)) == WithRow(w, c.flow, c.task,
              t.(state := WaitingApproval, lease := None, runs := t.runs[|t.runs| - 1 := t.runs[|t.runs| - 1].(state := AwaitingApproval)]))
  {
    var t := w.Row(c.flow, c.task);
    GoodIsHeld(w, c);
    ActiveIs(Running);
    ActiveIs(WaitingApproval);
    MovedIs(w, set', Suspending(c), Suspended(t));
  }

  /** Under a claim that is not good nothing is written. */
  lemma LostClaimsWriteNothing(w: World, set': Settings, c: Claim, s: Step)
    requires !IsGood(w, c)
    requires match s
             case Beating(d, _) => d == c
             case Advancing(d, _) => d == c
             case Succeeding(d, _, _) => d == c
             case Failing(d, _, _) => d == c
             case Aborting(d, _, _) => d == c
             case Suspending(d) => d == c
             case _ => false
    ensures Next(w, set', s) == w
  {
    if w.Has(c.flow, c.task) { GoodIsHeld(w, c); }
  }

  // ---- without a claim -----------------------------------------------------------------------

  /** A cancelled task: its unfinished run, if any, is aborted with it. */
  predicate IsCancelled(was: Task, now: Task, at: Time) {
    LeftWorker(was, now, Cancelled) && now.availableAt == was.availableAt
    && if was.runs != [] && was.runs[|was.runs| - 1].state !in {Completed, RunFailed, Aborted} then RunEnded(was, now, Aborted, at)
       else now.runs == was.runs
  }

  lemma CancelIsCancelled(t: Task, at: Time)
    ensures IsCancelled(t, t.Cancel(at), at)
  {
    if t.runs != [] { TerminalRuns(t.runs[|t.runs| - 1].state); }
  }

  /** A task can be cancelled until it has ended. */
  lemma CancellingWrites(w: World, set': Settings, r: nat, i: nat, now: Time)
    requires w.Has(r, i)
    ensures var t, w' := w.Row(r, i), Next(w, set', Cancelling(r, i, now));
            if t.state in {Succeeded, Failed, Cancelled} then w' == w
            else w'.Has(r, i) && IsCancelled(t, w'.Row(r, i), now)
  {
    var t := w.Row(r, i);
    ActiveIs(t.state);
    CancelIsCancelled(t, now);
    if t.state !in {Succeeded, Failed, Cancelled} {
      assert Cancelled in TaskMoves(t.state);
      EndedIs(w, set', Cancelling(r, i, now), Die(i, t.Cancel(now), now));
    }
  }

  /** A run that is stopped: every task that has not ended is cancelled, the others stay, and the run is
      closed. */
  lemma StoppingWrites(w: World, set': Settings, r: nat, i: nat, now: Time)
    requires w.Has(r, i)
    ensures var t, w' := w.Row(r, i), Next(w, set', Stopping(r, now));
            && w'.Has(r, i) && w'.nextToken == w.nextToken && w'.flows[r].state != FlowRunning
            && |w'.flows| == |w.flows| && |w'.flows[r].tasks| == |w.flows[r].tasks|
            && if t.state in {Succeeded, Failed, Cancelled} then w'.Row(r, i) == t else IsCancelled(t, w'.Row(r, i), now)
  {
    var tasks := w.flows[r].tasks;
    var after := CancelThese(tasks, Unfinished(tasks), now);
    ActiveIs(tasks[i].state);
    CancelIsCancelled(tasks[i], now);
    forall j | 0 <= j < |after| ensures after[j].state.Terminal() { assert after[j] == if j in Unfinished(tasks) then tasks[j].Cancel(now) else tasks[j]; }
    assert AllTerminal(after);
  }

  /** Waiting for a person, and released by one: a READY task waits, a waiting one is READY again; every
      other is left alone. */
  lemma ApprovalsWrite(w: World, set': Settings, r: nat, i: nat)
    requires w.Has(r, i)
    ensures Next(w, set', Awaiting(r, i)) == if w.Row(r, i).state == Ready then WithRow(w, r, i, w.Row(r, i).(state := WaitingApproval)) else w
    ensures Next(w, set', Releasing(r, i)) == if w.Row(r, i).state == WaitingApproval then WithRow(w, r, i, w.Row(r, i).(state := Ready)) else w
  {
    var t := w.Row(r, i);
    ActiveIs(Ready);
    ActiveIs(WaitingApproval);
    if t.state == Ready { MovedIs(w, set', Awaiting(r, i), t.(state := WaitingApproval)); }
    if t.state == WaitingApproval { MovedIs(w, set', Releasing(r, i), t.(state := Ready)); }
  }

  /** A task blocked for its budget is READY again while it has attempts left, and fails otherwise. */
  lemma UnblockingWrites(w: World, set': Settings, r: nat, i: nat, now: Time)
    requires w.Has(r, i)
    ensures var t, w' := w.Row(r, i), Next(w, set', Unblocking(r, i, now));
            if t.state != BlockedBudget then w' == w
            else if t.attempt < t.maxAttempts then w' == WithRow(w, r, i, t.(state := Ready))
            else w'.Has(r, i) && w'.Row(r, i) == t.(state := Failed, dependsOn := w'.Row(r, i).dependsOn)
  {
    var t, s := w.Row(r, i), Unblocking(r, i, now);
    ActiveIs(Ready);
    ActiveIs(BlockedBudget);
    if t.state == BlockedBudget {
      if t.attempt < t.maxAttempts { MovedIs(w, set', s, t.(state := Ready)); }
      else { EndedIs(w, set', s, Die(i, t.(state := Failed), now)); }
    }
  }

  /** Nodes without an agent run: done from READY or while they wait for a person, failed from READY. */
  lemma WithoutRunWrites(w: World, set': Settings, r: nat, i: nat, output: Output, now: Time)
    requires w.Has(r, i) && !w.Row(r, i).HasOpenRun()
    ensures var t, w' := w.Row(r, i), Next(w, set', Completing(r, i, output, now));
            if t.state in {Ready, WaitingApproval}
            then w'.Has(r, i) && w'.Row(r, i) == t.(state := Succeeded, dependsOn := w'.Row(r, i).dependsOn)
            else w' == w
    ensures var t, w' := w.Row(r, i), Next(w, set', FailingWithoutRun(r, i, now));
            if t.state == Ready
            then w'.Has(r, i) && w'.Row(r, i) == t.(state := Failed, dependsOn := w'.Row(r, i).dependsOn)
            else w' == w
  {
    var t := w.Row(r, i);
    ActiveIs(Ready);
    ActiveIs(WaitingApproval);
    if t.state in {Ready, WaitingApproval} { EndedIs(w, set', Completing(r, i, output, now), Succeed(i, t.(state := Succeeded), output, now)); }
    if t.state == Ready { EndedIs(w, set', FailingWithoutRun(r, i, now), Die(i, t.(state := Failed), now)); }
  }

  /** Delays start from the base, double from attempt to attempt, and stop at the cap. */
  lemma BackoffIs(set': Settings, attempt: nat)
    requires attempt >= 1
    ensures Backoff(set', 1) == if set'.retryMax < set'.retryBase then set'.retryMax else set'.retryBase
    ensures Backoff(set', attempt + 1) == if 2 * Backoff(set', attempt) < set'.retryMax then 2 * Backoff(set', attempt) else set'.retryMax
  {
    BackoffGrows(set', attempt);
    assert Power2(0) == 1;
  }
}
