/** The task manager as the source runs it, on the rows of all workflow runs
    (backend/autora/runtime/task_manager.py). Each method is one transaction, proved equal to the
    step that Queue defines. */
module TaskManagers {
  import opened Wrappers
  import opened Sequences
  import opened Lifecycles
  import opened Templates
  import opened Tasks
  import opened Rows
  import opened Flows
  import opened FlowBounds
  import opened Engine
  import opened Queue
  import opened QueueWrites
  import opened Events
  import opened Sayings
  import opened Emissions

  datatype QueueError = LeaseLost | AgentBusy

  // ---- looking through the rows --------------------------------------------------------------

  method FindOpenIn(tasks: seq<Task>, agent: AgentId) returns (found: Option<nat>)
    ensures found.Some? ==> found.value < |tasks| && tasks[found.value].HasOpenRun() && tasks[found.value].OpenRun().agent == agent
    ensures found.None? ==> forall i :: 0 <= i < |tasks| ==> !(tasks[i].HasOpenRun() && tasks[i].OpenRun().agent == agent)
  {
    for i := 0 to |tasks|
      invariant forall k :: 0 <= k < i ==> !(tasks[k].HasOpenRun() && tasks[k].OpenRun().agent == agent)
    {
      if tasks[i].HasOpenRun() && tasks[i].OpenRun().agent == agent { return Some(i); }
    }
    found := None;
  }

  /** `best` is claimable and has no rival among the first `k` tasks. */
  ghost predicate BestOf(tasks: seq<Task>, role: Name, now: Time, k: nat, best: Option<nat>) {
    && k <= |tasks|
    && (best.Some? ==> best.value < k && Claimable(tasks[best.value], role, now))
    && forall i :: 0 <= i < k && Claimable(tasks[i], role, now) ==> best.Some? && tasks[best.value].priority <= tasks[i].priority
  }

  method BestIn(tasks: seq<Task>, role: Name, now: Time) returns (best: Option<nat>)
    ensures BestOf(tasks, role, now, |tasks|, best)
  {
    best := None;
    for i := 0 to |tasks|
      invariant BestOf(tasks, role, now, i, best)
    {
      if Claimable(tasks[i], role, now) && (best.None? || tasks[i].priority < tasks[best.value].priority) { best := Some(i); }
    }
  }

  /** A fresh run, and what it says. */
  method NewRun(number: nat, t: Template) returns (run: WorkflowRun, said: seq<What>)
    requires t.Valid()
    ensures fresh(run) && run.number == number && run.Value() == Start(t)
    ensures said == AllAddedSay(number, Start(t).tasks, 0, |Start(t).tasks|)
  {
    run := new WorkflowRun.Instantiate(number, t);
    said := run.Added(run.tasks, 0);
  }

  class TaskManager {
    const settings: Settings
    var runs: seq<WorkflowRun>
    var nextToken: Token
    /** The events about tasks emitted so far. */
    var said: seq<What>

    ghost function Value(): World
      reads this, runs
    {
      World(seq(|runs|, r requires 0 <= r < |runs| reads this, runs => runs[r].Value()), nextToken)
    }

    ghost predicate Valid()
      reads this, runs
    {
      Listed() && Kept(Value())
    }

    /** The runs are numbered as they stand, so each stands there once. */
    ghost predicate Listed()
      reads this, runs
    {
      forall r {:trigger runs[r]} :: 0 <= r < |runs| ==> runs[r].number == r
    }

    constructor (s: Settings)
      ensures Valid() && settings == s && runs == [] && said == [] && Value() == Reached(s, [])
    {
      settings := s;
      runs := [];
      nextToken := 0;
      said := [];
    }

    method Append(run: WorkflowRun, words: seq<What>)
      requires Listed() && run.number == |runs|
      modifies this`runs, this`said
      ensures Listed() && runs == old(runs) + [run] && said == old(said) + words
      ensures Value() == World(old(Value()).flows + [run.Value()], nextToken)
    {
      runs, said := runs + [run], said + words;
    }

    /** Start a run of a template. */
    method AddRun(t: Template)
      requires Valid() && Usable(t)
      modifies this`runs, this`said
      ensures Valid() && Value() == Next(old(Value()), settings, Instantiate(t))
      ensures said == old(said) + EmittedBy(old(Value()), settings, Instantiate(t))
    {
      ghost var before := Value();
      var run, words := NewRun(|runs|, t);
      NewRunIsNext(before, settings, t, words);
      assert Value() == before;
      Append(run, words);
    }

    /** One transaction on one task: refused without any change, or settled. */
    method Perform(s: Step) returns (done: bool, unlocked: seq<nat>)
      requires Valid() && !s.Instantiate? && !s.Stopping? && !s.Claiming?
      modifies runs, this`said
      ensures Valid() && Value() == Next(old(Value()), settings, s)
      ensures said == old(said) + EmittedBy(old(Value()), settings, s)
      ensures done <==> ActionOf(old(Value()), settings, s).Some?
    {
      ghost var before := Value();
      unlocked, done := [], false;
      var (r, i) := Target(s);
      if !(r < |runs| && i < |runs[r].tasks|) || OutcomeOf(runs[r].tasks[i], settings, s).Refused? {
        RefusedIsNext(before, settings, s);
        return;
      }
      done := true;
      var o, own := OutcomeOf(runs[r].tasks[i], settings, s), OwnSays((r, i), runs[r].tasks[i], s, false);
      PerformIsNext(before, settings, s, o, own);
      var words;
      unlocked, words := runs[r].Settle(i, o, own, OutputOf(s), TimeOf(s));
      said := said + words;
      assert Value() == WithRun(before, r, runs[r].Value());
    }

    // ---- claiming ------------------------------------------------------------------------------

    /** The agent's unfinished run, wherever it is. */
    method FindOpen(agent: AgentId) returns (found: Option<(nat, nat)>)
      requires Valid()
      ensures found.Some? ==> OpenAt(Value(), found.value.0, found.value.1, agent)
      ensures found.None? ==> !Busy(Value(), agent)
    {
      for r := 0 to |runs|
        invariant forall q: nat, i: nat :: q < r ==> !OpenAt(Value(), q, i, agent)
      {
        var i := FindOpenIn(runs[r].tasks, agent);
        if i.Some? { return Some((r, i.value)); }
      }
      found := None;
    }

    /** The claimable task of least priority number. */
    method FindBest(role: Name, now: Time) returns (found: Option<(nat, nat)>)
      requires Valid()
      ensures BestBelow(Value(), role, now, |runs|, found)
    {
      found := None;
      for r := 0 to |runs|
        invariant BestBelow(Value(), role, now, r, found)
      {
        ghost var was := found;
        var i := BestIn(runs[r].tasks, role, now);
        if i.Some? && (found.None? || runs[r].tasks[i.value].priority < runs[found.value.0].tasks[found.value.1].priority) {
          found := Some((r, i.value));
        }
        assert runs[r].tasks == Value().flows[r].tasks;
        BestSoFar(Value(), role, now, r, was, i, found);
      }
    }

    /** Lease task `i` of run `r` to the worker: the agent's own suspended run, or a new attempt. */
    method Take(agent: AgentId, role: Name, owner: nat, r: nat, i: nat, now: Time, resume: bool) returns (c: Claim)
      requires Valid() && MayClaim(Value(), agent, role, r, i, now) && (resume <==> Busy(Value(), agent))
      modifies runs, this`nextToken, this`said
      ensures Valid() && Value() == Next(old(Value()), settings, Claiming(agent, role, owner, r, i, now))
      ensures said == old(said) + EmittedBy(old(Value()), settings, Claiming(agent, role, owner, r, i, now))
      ensures c.flow == r && c.task == i && c.agent == agent && c.token == old(nextToken) && Claimed(Value(), c)
      ensures Value() == WithRow(old(Value()), r, i, ClaimedRow(old(Value()), settings, old(Value()).Row(r, i), agent, owner, now)).(nextToken := old(nextToken) + 1)
    {
      ghost var before := Value();
      var run := runs[r];
      var row := if resume then Leased(run.tasks[i], owner, now + settings.lease, nextToken)
                 else Started(run.tasks[i], agent, owner, now + settings.lease, nextToken);
      var own := OwnSays((r, i), run.tasks[i], Claiming(agent, role, owner, r, i, now), resume);
      TakeIsNext(before, settings, agent, role, owner, r, i, now, row, own);
      c := Claim(r, i, |row.runs| - 1, agent, nextToken);
      var _, words := run.Settle(i, Moved(row), own, map[], now);
      said := said + words;
      nextToken := nextToken + 1;
      assert Value() == WithRun(before, r, run.Value()).(nextToken := before.nextToken + 1);
      TakenIsClaimed(before, settings, agent, role, owner, r, i, now);
    }

    /** A busy agent gets back its own suspended run if its task has been released, and is refused
        otherwise; a free one gets the best READY task of its role, if there is one. */
    method ClaimNext(agent: AgentId, role: Name, owner: nat, now: Time) returns (r: Result<Option<Claim>, QueueError>)
      requires Valid()
      modifies runs, this`nextToken, this`said
      ensures Valid()
      ensures r.Err? ==> r.error == AgentBusy && Value() == old(Value()) && said == old(said) && Busy(old(Value()), agent)
      ensures r == Ok(None) ==> Value() == old(Value()) && said == old(said) && !Busy(old(Value()), agent)
      ensures r.Err? || r == Ok(None) ==> forall f: nat, i: nat :: !MayClaim(old(Value()), agent, role, f, i, now)
      ensures r.Ok? && r.value.Some? ==> GotClaim(old(Value()), old(said), settings, agent, role, owner, now, r.value.value, Value(), said)
      ensures r.Ok? && r.value.Some? && !Busy(old(Value()), agent) ==> LeastPriority(old(Value()), role, now, r.value.value.flow, r.value.value.task)
    {
      var own := FindOpen(agent);
      if own.Some? { r := ClaimOwn(agent, role, owner, own.value.0, own.value.1, now); }
      else { r := ClaimNew(agent, role, owner, now); }
    }

    /** A busy agent and its unfinished run. */
    method ClaimOwn(agent: AgentId, role: Name, owner: nat, f: nat, i: nat, now: Time) returns (r: Result<Option<Claim>, QueueError>)
      requires Valid() && OpenAt(Value(), f, i, agent)
      modifies runs, this`nextToken, this`said
      ensures Valid() && r != Ok(None)
      ensures r.Err? ==> r.error == AgentBusy && Value() == old(Value()) && said == old(said)
      ensures r.Err? ==> forall f: nat, i: nat :: !MayClaim(old(Value()), agent, role, f, i, now)
      ensures r.Ok? ==> GotClaim(old(Value()), old(said), settings, agent, role, owner, now, r.value.value, Value(), said)
    {
      assert runs[f].tasks[i] == Value().Row(f, i);
      if !(runs[f].tasks[i].OpenRun().state == AwaitingApproval && runs[f].tasks[i].state == Ready) {
        BusyWithAnother(Value(), agent, role, f, i, now);
        return Err(AgentBusy);
      }
      var c := Take(agent, role, owner, f, i, now, true);
      r := Ok(Some(c));
    }

    /** A free agent. */
    method ClaimNew(agent: AgentId, role: Name, owner: nat, now: Time) returns (r: Result<Option<Claim>, QueueError>)
      requires Valid() && !Busy(Value(), agent)
      modifies runs, this`nextToken, this`said
      ensures Valid() && r.Ok?
      ensures r == Ok(None) ==> Value() == old(Value()) && said == old(said)
      ensures r == Ok(None) ==> forall f: nat, i: nat :: !MayClaim(old(Value()), agent, role, f, i, now)
      ensures r.value.Some? ==> GotClaim(old(Value()), old(said), settings, agent, role, owner, now, r.value.value, Value(), said)
      ensures r.value.Some? ==> LeastPriority(old(Value()), role, now, r.value.value.flow, r.value.value.task)
    {
      var best := FindBest(role, now);
      if best.None? {
        NothingToClaim(Value(), agent, role, now);
        return Ok(None);
      }
      var c := Take(agent, role, owner, best.value.0, best.value.1, now, false);
      r := Ok(Some(c));
    }

    // ---- by claim: each is refused, and changes nothing, once the claim is lost ---------------

    method Heartbeat(c: Claim, now: Time) returns (r: Result<Time, QueueError>)
      requires Valid()
      modifies runs, this`said
      ensures Valid() && Value() == Next(old(Value()), settings, Beating(c, now))
      ensures said == old(said) + EmittedBy(old(Value()), settings, Beating(c, now))
      ensures r == if Claimed(old(Value()), c) then Ok(now + settings.lease) else Err(LeaseLost)
      ensures r.Ok? ==> Value() == Extended(old(Value()), c, r.value)
      ensures r.Err? ==> Value() == old(Value())
    {
      BeatingExtends(Value(), settings, c, now);
      if c.flow < |runs| && c.task < |runs[c.flow].tasks| { GoodIsHeld(Value(), c); }
      var done, _ := Perform(Beating(c, now));
      r := if done then Ok(now + settings.lease) else Err(LeaseLost);
    }

    method Succeed(c: Claim, output: Output, now: Time) returns (r: Result<seq<nat>, QueueError>)
      requires Valid()
      modifies runs, this`said
      ensures Valid() && Value() == Next(old(Value()), settings, Succeeding(c, output, now))
      ensures said == old(said) + EmittedBy(old(Value()), settings, Succeeding(c, output, now))
      ensures r.Ok? <==> Claimed(old(Value()), c)
      ensures r.Err? ==> r.error == LeaseLost && Value() == old(Value()) && said == old(said)
    {
      var done, unlocked := Perform(Succeeding(c, output, now));
      r := if done then Ok(unlocked) else Err(LeaseLost);
    }

    /** Returns whether the task will be retried. */
    method Fail(c: Claim, retryable: bool, now: Time) returns (r: Result<bool, QueueError>)
      requires Valid()
      modifies runs, this`said
      ensures Valid() && Value() == Next(old(Value()), settings, Failing(c, retryable, now))
      ensures said == old(said) + EmittedBy(old(Value()), settings, Failing(c, retryable, now))
      ensures r.Ok? <==> Claimed(old(Value()), c)
      ensures r.Ok? ==> (r.value <==> retryable && RetriesLeft(old(Value()), c))
      ensures r.Err? ==> r.error == LeaseLost && Value() == old(Value()) && said == old(said)
    {
      var retry := retryable && c.flow < |runs| && c.task < |runs[c.flow].tasks|
        && runs[c.flow].tasks[c.task].attempt < runs[c.flow].tasks[c.task].maxAttempts;
      var done, _ := Perform(Failing(c, retryable, now));
      r := if done then Ok(retry) else Err(LeaseLost);
    }

    method Abort(c: Claim, reason: AbortReason, now: Time) returns (r: Result<(), QueueError>)
      requires Valid()
      modifies runs, this`said
      ensures Valid() && Value() == Next(old(Value()), settings, Aborting(c, reason, now))
      ensures said == old(said) + EmittedBy(old(Value()), settings, Aborting(c, reason, now))
      ensures r.Ok? <==> Claimed(old(Value()), c)
      ensures r.Err? ==> r.error == LeaseLost && Value() == old(Value()) && said == old(said)
    {
      var done, _ := Perform(Aborting(c, reason, now));
      r := if done then Ok(()) else Err(LeaseLost);
    }

    method SuspendForApproval(c: Claim) returns (r: Result<(), QueueError>)
      requires Valid()
      modifies runs, this`said
      ensures Valid() && Value() == Next(old(Value()), settings, Suspending(c))
      ensures said == old(said) + EmittedBy(old(Value()), settings, Suspending(c))
      ensures r.Ok? <==> Claimed(old(Value()), c)
      ensures r.Err? ==> r.error == LeaseLost && Value() == old(Value()) && said == old(said)
    {
      ghost var before := Value();
      if Claimed(before, c) { ClaimedRunIsOpen(before, c); }
      var done, _ := Perform(Suspending(c));
      r := if done then Ok(()) else Err(LeaseLost);
    }

    // ---- from outside a claim ------------------------------------------------------------------

    method Cancel(r: nat, i: nat, now: Time)
      requires Valid() && Value().Has(r, i)
      modifies runs, this`said
      ensures Valid() && Value() == Next(old(Value()), settings, Cancelling(r, i, now))
      ensures said == old(said) + EmittedBy(old(Value()), settings, Cancelling(r, i, now))
    {
      var _, _ := Perform(Cancelling(r, i, now));
    }

    /** The engine cancels a whole run. */
    method Stop(r: nat, now: Time)
      requires Valid() && r < |runs|
      modifies runs, this`said
      ensures Valid() && Value() == Next(old(Value()), settings, Stopping(r, now))
      ensures said == old(said) + EmittedBy(old(Value()), settings, Stopping(r, now))
    {
      ghost var before := Value();
      StopIsNext(before, settings, r, now);
      var words := runs[r].Cancel(now);
      said := said + words;
      assert Value() == WithRun(before, r, runs[r].Value());
    }

    method AwaitApproval(r: nat, i: nat) returns (ok: bool)
      requires Valid() && Value().Has(r, i)
      modifies runs, this`said
      ensures Valid() && Value() == Next(old(Value()), settings, Awaiting(r, i))
      ensures said == old(said) + EmittedBy(old(Value()), settings, Awaiting(r, i))
      ensures ok <==> old(Value()).Row(r, i).state == Ready
    {
      var unlocked;
      ok, unlocked := Perform(Awaiting(r, i));
    }

    method ReleaseAfterApproval(r: nat, i: nat) returns (ok: bool)
      requires Valid() && Value().Has(r, i)
      modifies runs, this`said
      ensures Valid() && Value() == Next(old(Value()), settings, Releasing(r, i))
      ensures said == old(said) + EmittedBy(old(Value()), settings, Releasing(r, i))
      ensures ok <==> old(Value()).Row(r, i).state == WaitingApproval
    {
      var unlocked;
      ok, unlocked := Perform(Releasing(r, i));
    }

    /** For a node without an agent run. */
    method CompleteWithoutRun(r: nat, i: nat, output: Output, now: Time) returns (ok: bool, unlocked: seq<nat>)
      requires Valid() && Value().Has(r, i)
      modifies runs, this`said
      ensures Valid() && Value() == Next(old(Value()), settings, Completing(r, i, output, now))
      ensures said == old(said) + EmittedBy(old(Value()), settings, Completing(r, i, output, now))
      ensures ok <==> old(Value()).Row(r, i).state in {Ready, WaitingApproval} && !old(Value()).Row(r, i).HasOpenRun()
    {
      ok, unlocked := Perform(Completing(r, i, output, now));
    }

    method FailWithoutRun(r: nat, i: nat, now: Time) returns (ok: bool)
      requires Valid() && Value().Has(r, i)
      modifies runs, this`said
      ensures Valid() && Value() == Next(old(Value()), settings, FailingWithoutRun(r, i, now))
      ensures said == old(said) + EmittedBy(old(Value()), settings, FailingWithoutRun(r, i, now))
      ensures ok <==> old(Value()).Row(r, i).state == Ready && !old(Value()).Row(r, i).HasOpenRun()
    {
      var unlocked;
      ok, unlocked := Perform(FailingWithoutRun(r, i, now));
    }

    // ---- maintenance ---------------------------------------------------------------------------

    /** After a budget was raised: every BLOCKED_BUDGET task is claimable again, or fails if it has no
        attempt left. */
    method ReleaseBlocked(now: Time) returns (ids: seq<(nat, nat)>)
      requires Valid()
      modifies runs, this`said
      ensures Valid() && Value() == Steps(old(Value()), settings, BatchSteps(true, ids, now))
      ensures said == old(said) + StepsSay(old(Value()), settings, BatchSteps(true, ids, now))
      ensures forall r: nat, i: nat :: (r, i) in ids <==> BlockedAt(old(Value()), r, i)
    {
      ids := Select(true, now);
      PerformAll(true, ids, now);
    }

    /** Take back leases that were not extended in time, at most `limit` at a time. */
    method ReapExpiredLeases(limit: nat, now: Time) returns (ids: seq<(nat, nat)>)
      requires Valid()
      modifies runs, this`said
      ensures Valid() && Value() == Steps(old(Value()), settings, BatchSteps(false, ids, now))
      ensures said == old(said) + StepsSay(old(Value()), settings, BatchSteps(false, ids, now))
      ensures |ids| <= limit && forall r: nat, i: nat :: (r, i) in ids ==> ExpiredAt(old(Value()), now, r, i)
      ensures |ids| < limit ==> forall r: nat, i: nat :: ExpiredAt(old(Value()), now, r, i) ==> (r, i) in ids
    {
      ids := Select(false, now);
      if |ids| > limit { ids := ids[..limit]; }
      PerformAll(false, ids, now);
    }

    method Select(blocked: bool, now: Time) returns (ids: seq<(nat, nat)>)
      requires Valid()
      ensures forall r: nat, i: nat :: (r, i) in ids <==> if blocked then BlockedAt(Value(), r, i) else ExpiredAt(Value(), now, r, i)
    {
      ids := [];
      for r := 0 to |runs|
        invariant forall q: nat, i: nat :: (q, i) in ids <==> q < r && if blocked then BlockedAt(Value(), q, i) else ExpiredAt(Value(), now, q, i)
      {
        var places := SelectIn(runs[r].tasks, blocked, now, r);
        assert runs[r].tasks == Value().flows[r].tasks;
        ids := ids + places;
      }
    }

    method PerformNext(blocked: bool, id: (nat, nat), now: Time)
      requires Valid()
      modifies runs, this`said
      ensures Valid() && Value() == Next(old(Value()), settings, BatchStep(blocked, id, now))
      ensures said == old(said) + EmittedBy(old(Value()), settings, BatchStep(blocked, id, now))
    {
      var _, _ := Perform(BatchStep(blocked, id, now));
    }

    method PerformAll(blocked: bool, ids: seq<(nat, nat)>, now: Time)
      requires Valid()
      modifies runs, this`said
      ensures Valid() && Value() == Steps(old(Value()), settings, BatchSteps(blocked, ids, now))
      ensures said == old(said) + StepsSay(old(Value()), settings, BatchSteps(blocked, ids, now))
    {
      ghost var before, steps := Value(), BatchSteps(blocked, ids, now);
      for k := 0 to |ids|
        invariant Valid() && Value() == Steps(before, settings, steps[..k])
        invariant said == old(said) + StepsSay(before, settings, steps[..k])
      {
        StepsNext(before, settings, steps, k);
        PerformNext(blocked, ids[k], now);
      }
      assert steps[..|ids|] == steps;
    }
  }

  /** The lease of the claimed task lasts until then, for its worker and under its token; nothing else is
      different. */
  ghost function Extended(w: World, c: Claim, until: Time): World {
    if w.Has(c.flow, c.task) && w.Row(c.flow, c.task).lease.Some? then
      WithRow(w, c.flow, c.task, w.Row(c.flow, c.task).(lease := Some(Lease(w.Row(c.flow, c.task).lease.value.owner, until, c.token))))
    else w
  }

  predicate IsBlocked(t: Task) { t.state == BlockedBudget }

  predicate IsExpired(t: Task, now: Time) { t.state == Running && t.lease.Some? && t.lease.value.until < now }

  ghost predicate BlockedAt(w: World, r: nat, i: nat) { w.Has(r, i) && IsBlocked(w.Row(r, i)) }

  ghost predicate ExpiredAt(w: World, now: Time, r: nat, i: nat) { w.Has(r, i) && IsExpired(w.Row(r, i), now) }

  method SelectIn(tasks: seq<Task>, blocked: bool, now: Time, r: nat) returns (ids: seq<(nat, nat)>)
    ensures forall q: nat, i: nat :: (q, i) in ids <==> q == r && i < |tasks| && if blocked then IsBlocked(tasks[i]) else IsExpired(tasks[i], now)
  {
    ids := [];
    for k := 0 to |tasks|
      invariant forall q: nat, i: nat :: (q, i) in ids <==> q == r && i < k && if blocked then IsBlocked(tasks[i]) else IsExpired(tasks[i], now)
    {
      if (if blocked then IsBlocked(tasks[k]) else IsExpired(tasks[k], now)) { ids := ids + [(r, k)]; }
    }
  }

  function BatchStep(blocked: bool, id: (nat, nat), now: Time): Step {
    if blocked then Unblocking(id.0, id.1, now) else Reaping(id.0, id.1, now)
  }

  ghost function BatchSteps(blocked: bool, ids: seq<(nat, nat)>, now: Time): seq<Step> {
    seq(|ids|, k requires 0 <= k < |ids| => BatchStep(blocked, ids[k], now))
  }

  /** The queue after some transactions more. */
  ghost function Steps(w: World, s: Settings, steps: seq<Step>): World {
    if steps == [] then w else Next(Steps(w, s, steps[..|steps| - 1]), s, steps[|steps| - 1])
  }

  lemma StepsNext(w: World, s: Settings, steps: seq<Step>, k: nat)
    requires k < |steps|
    ensures Steps(w, s, steps[..k + 1]) == Next(Steps(w, s, steps[..k]), s, steps[k])
    ensures forall said :: said + StepsSay(w, s, steps[..k + 1]) == said + StepsSay(w, s, steps[..k]) + EmittedBy(Steps(w, s, steps[..k]), s, steps[k])
  {
    assert steps[..k + 1][..k] == steps[..k];
    forall said ensures said + StepsSay(w, s, steps[..k + 1]) == said + StepsSay(w, s, steps[..k]) + EmittedBy(Steps(w, s, steps[..k]), s, steps[k]) {
      Regroup(said, StepsSay(w, s, steps[..k]), EmittedBy(Steps(w, s, steps[..k]), s, steps[k]));
    }
  }

  /** The queue with one run changed. */
  ghost function WithRun(w: World, r: nat, f: Flow): World
    requires r < |w.flows|
  {
    w.(flows := w.flows[r := f])
  }

  /** The queue is honest and all its runs are sound. */
  ghost predicate Kept(w: World) {
    Honest(w) && forall r {:trigger w.flows[r]} :: 0 <= r < |w.flows| ==> Sound(w.flows[r])
  }

  lemma NewRunIsNext(w: World, set': Settings, t: Template, words: seq<What>)
    requires Kept(w) && Usable(t) && words == AllAddedSay(|w.flows|, Start(t).tasks, 0, |Start(t).tasks|)
    ensures Next(w, set', Instantiate(t)) == w.(flows := w.flows + [Start(t)]) && Kept(Next(w, set', Instantiate(t)))
    ensures EmittedBy(w, set', Instantiate(t)) == words
  {
    NextKeeps(w, set', Instantiate(t));
    StartIsSound(t);
  }

  /** The agent got a task it may claim, under a fresh token; the queue has made this step and said so. */
  ghost predicate GotClaim(w: World, said: seq<What>, set': Settings, agent: AgentId, role: Name, owner: nat, now: Time, c: Claim,
                           w': World, said': seq<What>) {
    && MayClaim(w, agent, role, c.flow, c.task, now)
    && w' == Next(w, set', Claiming(agent, role, owner, c.flow, c.task, now))
    && said' == said + EmittedBy(w, set', Claiming(agent, role, owner, c.flow, c.task, now))
    && c.agent == agent && c.token == w.nextToken && Claimed(w', c)
  }

  lemma RefusedIsNext(w: World, set': Settings, s: Step)
    requires Kept(w) && !s.Instantiate? && !s.Stopping? && !s.Claiming?
    requires w.Has(Target(s).0, Target(s).1) ==> OutcomeOf(w.Row(Target(s).0, Target(s).1), set', s).Refused?
    ensures Next(w, set', s) == w && EmittedBy(w, set', s) == [] && ActionOf(w, set', s).None?
  {
  }

  lemma BusyWithAnother(w: World, agent: AgentId, role: Name, f: nat, i: nat, now: Time)
    requires Honest(w) && OpenAt(w, f, i, agent)
    requires !(w.Row(f, i).OpenRun().state == AwaitingApproval && w.Row(f, i).state == Ready)
    ensures Busy(w, agent) && forall q: nat, k: nat :: !MayClaim(w, agent, role, q, k, now)
  {
    assert forall q: nat, k: nat :: w.Has(q, k) && Resumable(w.Row(q, k), agent) ==> OpenAt(w, q, k, agent);
  }

  lemma NothingToClaim(w: World, agent: AgentId, role: Name, now: Time)
    requires !Busy(w, agent) && BestBelow(w, role, now, |w.flows|, None)
    ensures forall q: nat, k: nat :: !MayClaim(w, agent, role, q, k, now)
  {
    assert forall f: nat, i: nat :: MayClaim(w, agent, role, f, i, now) ==> ClaimableAt(w, role, now, f, i);
  }

  lemma PerformIsNext(w: World, set': Settings, s: Step, o: RowOutcome, own: seq<What>)
    requires Kept(w) && !s.Instantiate? && !s.Stopping? && !s.Claiming? && w.Has(Target(s).0, Target(s).1)
    requires o == OutcomeOf(w.Row(Target(s).0, Target(s).1), set', s) && !o.Refused?
    requires own == OwnSays(Target(s), w.Row(Target(s).0, Target(s).1), s, false)
    ensures var (r, i) := Target(s);
            var a := ActionFor(i, o, OutputOf(s), TimeOf(s));
            && Enabled(w.flows[r], a) && ActionOf(w, set', s).Some?
            && Next(w, set', s) == WithRun(w, r, Apply(w.flows[r], a)) && Kept(Next(w, set', s))
            && EmittedBy(w, set', s) == ActionSays(r, w.flows[r], a, own)
  {
    ActionIsLawful(w, set', s);
    NextKeeps(w, set', s);
    ApplyIsSound(w.flows[Target(s).0], ActionFor(Target(s).1, o, OutputOf(s), TimeOf(s)));
  }

  lemma TakeIsNext(w: World, set': Settings, agent: AgentId, role: Name, owner: nat, r: nat, i: nat, now: Time, row: Task, own: seq<What>)
    requires Kept(w) && MayClaim(w, agent, role, r, i, now) && row == ClaimRow(w, set', agent, owner, r, i, now)
    requires own == OwnSays((r, i), w.Row(r, i), Claiming(agent, role, owner, r, i, now), Busy(w, agent))
    ensures var s := Claiming(agent, role, owner, r, i, now);
            && Enabled(w.flows[r], Move(i, row))
            && Next(w, set', s) == WithRun(w, r, Apply(w.flows[r], Move(i, row))).(nextToken := w.nextToken + 1) && Kept(Next(w, set', s))
            && EmittedBy(w, set', s) == own
            && row.runs != [] && Claimed(Next(w, set', s), Claim(r, i, |row.runs| - 1, agent, w.nextToken))
  {
    var s := Claiming(agent, role, owner, r, i, now);
    assert FlowOk(w.flows[r]) && RowOk(w.Row(r, i));
    ClaimIsLawful(w, set', s);
    NextKeeps(w, set', s);
    ApplyIsSound(w.flows[r], Move(i, row));
  }

  lemma StopIsNext(w: World, set': Settings, r: nat, now: Time)
    requires Kept(w) && r < |w.flows|
    ensures var s := Stopping(r, now);
            && Next(w, set', s) == WithRun(w, r, Apply(w.flows[r], CancelRun(now))) && Kept(Next(w, set', s))
            && EmittedBy(w, set', s) == StopSays(r, w.flows[r].tasks, 0, now)
  {
    NextKeeps(w, set', Stopping(r, now));
    ApplyIsSound(w.flows[r], CancelRun(now));
  }

  ghost function StepsSay(w: World, s: Settings, steps: seq<Step>): seq<What> {
    if steps == [] then []
    else StepsSay(w, s, steps[..|steps| - 1]) + EmittedBy(Steps(w, s, steps[..|steps| - 1]), s, steps[|steps| - 1])
  }

  ghost predicate ClaimableAt(w: World, role: Name, now: Time, r: nat, i: nat) {
    w.Has(r, i) && Claimable(w.Row(r, i), role, now)
  }

  ghost predicate BestBelow(w: World, role: Name, now: Time, k: nat, found: Option<(nat, nat)>) {
    && (found.Some? ==> found.value.0 < k && ClaimableAt(w, role, now, found.value.0, found.value.1))
    && forall r: nat, i: nat {:trigger ClaimableAt(w, role, now, r, i)} :: r < k && ClaimableAt(w, role, now, r, i) ==>
         found.Some? && w.Row(found.value.0, found.value.1).priority <= w.Row(r, i).priority
  }

  ghost predicate LeastPriority(w: World, role: Name, now: Time, r: nat, i: nat) {
    w.Has(r, i) && forall r': nat, i': nat {:trigger ClaimableAt(w, role, now, r', i')} ::
      ClaimableAt(w, role, now, r', i') ==> w.Row(r, i).priority <= w.Row(r', i').priority
  }

  lemma BestSoFar(w: World, role: Name, now: Time, r: nat, was: Option<(nat, nat)>, i: Option<nat>, found: Option<(nat, nat)>)
    requires r < |w.flows| && BestBelow(w, role, now, r, was) && BestOf(w.flows[r].tasks, role, now, |w.flows[r].tasks|, i)
    requires found == if i.Some? && (was.None? || w.Row(r, i.value).priority < w.Row(was.value.0, was.value.1).priority)
                      then Some((r, i.value)) else was
    ensures BestBelow(w, role, now, r + 1, found)
  {
    forall q: nat, k: nat | q < r + 1 && ClaimableAt(w, role, now, q, k)
      ensures found.Some? && w.Row(found.value.0, found.value.1).priority <= w.Row(q, k).priority
    {
      if q == r { assert Claimable(w.flows[r].tasks[k], role, now); }
    }
  }

  ghost predicate RetriesLeft(w: World, c: Claim) {
    w.Has(c.flow, c.task) && w.Row(c.flow, c.task).attempt < w.Row(c.flow, c.task).maxAttempts
  }

  ghost predicate Claimed(w: World, c: Claim) {
    w.Has(c.flow, c.task) && Holds(w.Row(c.flow, c.task), c)
  }

  lemma ClaimedRunIsOpen(w: World, c: Claim)
    requires Honest(w) && Claimed(w, c)
    ensures w.Row(c.flow, c.task).HasOpenRun()
  {
    assert FlowOk(w.flows[c.flow]) && RowOk(w.Row(c.flow, c.task));
    HeldRunIsOpen(w.Row(c.flow, c.task), c);
  }
}