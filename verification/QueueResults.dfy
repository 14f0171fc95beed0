/** What follows for the queue in every state it can reach. */
module QueueResults {
  import opened Lifecycles
  import opened Tasks
  import opened Rows
  import opened Flows
  import opened FlowInvariant
  import opened FlowRuns
  import opened FlowResults
  import opened FlowBounds
  import opened Queue

  // ---- honesty -----------------------------------------------------------------------------

  lemma ReachedRowIsOk(set': Settings, steps: seq<Step>, r: nat, i: nat)
    requires Reached(set', steps).Has(r, i)
    ensures RowOk(Reached(set', steps).Row(r, i))
  {
    QueueIsHonest(set', steps);
    assert FlowOk(Reached(set', steps).flows[r]);
  }

  ghost predicate OnlyOpen(runs: seq<AgentRun>, k: nat) {
    k < |runs| && forall m :: 0 <= m < |runs| ==> (runs[m].Open() <==> m == k)
  }

  lemma RunningIsClaimed(t: Task)
    requires RowOk(t)
    ensures t.state == Running ==> exists k :: 0 <= k < |t.runs| && OnlyOpen(t.runs, k)
  {
    if t.state == Running { assert OnlyOpen(t.runs, |t.runs| - 1); }
  }

  /** In every reachable state of the queue, for every task: it has a lease exactly while it is
      RUNNING, and then exactly one unfinished run; there are as many runs as attempts, numbered in
      order, never more than allowed, each with an end exactly when it is over; and a READY task is
      claimable: it has an attempt left, or its own run that waits for an approval. */
  lemma QueueHonesty(set': Settings, steps: seq<Step>, r: nat, i: nat)
    requires Reached(set', steps).Has(r, i)
    ensures var t := Reached(set', steps).Row(r, i);
            && (t.lease.Some? <==> t.state == Running)
            && (t.state == Running ==> exists k :: 0 <= k < |t.runs| && OnlyOpen(t.runs, k))
            && |t.runs| == t.attempt <= t.maxAttempts
            && (forall k :: 0 <= k < |t.runs| ==> t.runs[k].attempt == k + 1 && (t.runs[k].finishedAt.Some? <==> t.runs[k].state.Terminal()))
            && (t.state == Ready ==> t.attempt < t.maxAttempts || (t.HasOpenRun() && t.OpenRun().state == AwaitingApproval))
  {
    ReachedRowIsOk(set', steps, r, i);
    RunningIsClaimed(Reached(set', steps).Row(r, i));
  }

  ghost predicate OpenRunAt(w: World, r: nat, i: nat, k: nat, agent: AgentId) {
    w.Has(r, i) && k < |w.Row(r, i).runs| && w.Row(r, i).runs[k].Open() && w.Row(r, i).runs[k].agent == agent
  }

  lemma OpenIsLast(w: World, r: nat, i: nat, k: nat, agent: AgentId)
    requires Honest(w) && OpenRunAt(w, r, i, k, agent)
    ensures OpenAt(w, r, i, agent) && k == |w.Row(r, i).runs| - 1
  {
    assert FlowOk(w.flows[r]) && RowOk(w.Row(r, i));
  }

  /** No agent ever has two unfinished runs, of one task or of two. */
  lemma AgentsAreExclusive(set': Settings, steps: seq<Step>, agent: AgentId, r: nat, i: nat, k: nat, r': nat, i': nat, k': nat)
    requires OpenRunAt(Reached(set', steps), r, i, k, agent) && OpenRunAt(Reached(set', steps), r', i', k', agent)
    ensures r == r' && i == i' && k == k'
  {
    QueueIsHonest(set', steps);
    OpenIsLast(Reached(set', steps), r, i, k, agent);
    OpenIsLast(Reached(set', steps), r', i', k', agent);
  }

  // ---- one claim, one token ----------------------------------------------------------------

  /** A token that was handed out and is on no task any more. */
  ghost predicate Spent(w: World, token: Token) {
    token < w.nextToken && forall r: nat, i: nat {:trigger LeaseAt(w, r, i, token)} :: !LeaseAt(w, r, i, token)
  }

  lemma SpentStays(w: World, set': Settings, s: Step, token: Token)
    requires Honest(w) && Spent(w, token)
    ensures Spent(Next(w, set', s), token)
  {
    forall r: nat, i: nat | LeaseAt(Next(w, set', s), r, i, token) ensures false { LeaseWasLease(w, set', s, r, i, token); }
  }

  predicate ByClaim(s: Step, token: Token) {
    match s
    case Beating(c, _) => c.token == token
    case Advancing(c, _) => c.token == token
    case Succeeding(c, _, _) => c.token == token
    case Failing(c, _, _) => c.token == token
    case Aborting(c, _, _) => c.token == token
    case Suspending(c) => c.token == token
    case _ => false
  }

  /** Once a worker has lost its claim, because the lease was taken back, the run was suspended or
      the task ended, nothing it tries with that claim ever changes anything again, whatever else
      has happened since. */
  lemma {:induction false} StaleClaimsChangeNothing(set': Settings, steps: seq<Step>, later: seq<Step>, token: Token, s: Step)
    requires Spent(Reached(set', steps), token) && ByClaim(s, token)
    ensures Next(Reached(set', steps + later), set', s) == Reached(set', steps + later)
  {
    SpentLater(set', steps, later, token);
    var w := Reached(set', steps + later);
    var (r, i) := Target(s);
    assert !LeaseAt(w, r, i, token);
  }

  lemma {:induction false} SpentLater(set': Settings, steps: seq<Step>, later: seq<Step>, token: Token)
    requires Spent(Reached(set', steps), token)
    ensures Spent(Reached(set', steps + later), token)
  {
    if later == [] {
      assert steps + later == steps;
    } else {
      var k := |later| - 1;
      SpentLater(set', steps, later[..k], token);
      assert (steps + later)[..|steps + later| - 1] == steps + later[..k];
      QueueIsHonest(set', steps + later[..k]);
      SpentStays(Reached(set', steps + later[..k]), set', later[k], token);
    }
  }

  /** A claim's token is on no other task than the one it was given for. */
  lemma TokensAreUnique(set': Settings, steps: seq<Step>, token: Token, r: nat, i: nat, r': nat, i': nat)
    requires LeaseAt(Reached(set', steps), r, i, token) && LeaseAt(Reached(set', steps), r', i', token)
    ensures r == r' && i == i' && token < Reached(set', steps).nextToken
  {
    QueueIsHonest(set', steps);
  }

  // ---- nothing READY is out of reach -------------------------------------------------------

  /** Every READY task can be claimed: with a run of its own that waits, by that run's agent at any
      time; else by any free agent of its role once its backoff is over. */
  lemma ReadyIsClaimable(set': Settings, steps: seq<Step>, r: nat, i: nat, agent: AgentId, owner: nat, now: Time)
    requires var w := Reached(set', steps);
             && w.Has(r, i) && w.Row(r, i).state == Ready
             && if w.Row(r, i).HasOpenRun() then agent == w.Row(r, i).OpenRun().agent
                else !Busy(w, agent) && (w.Row(r, i).availableAt.Some? ==> w.Row(r, i).availableAt.value <= now)
    ensures var w := Reached(set', steps);
            var w' := Next(w, set', Claiming(agent, w.Row(r, i).role, owner, r, i, now));
            w'.Has(r, i) && w'.Row(r, i).state == Running && w'.Row(r, i).HasOpenRun() && w'.Row(r, i).OpenRun().agent == agent
  {
    var w := Reached(set', steps);
    QueueIsHonest(set', steps);
    assert FlowOk(w.flows[r]) && RowOk(w.Row(r, i));
    if w.Row(r, i).HasOpenRun() { assert OpenAt(w, r, i, agent); }
    var s := Claiming(agent, w.Row(r, i).role, owner, r, i, now);
    ClaimIsLawful(w, set', s);
    assert Next(w, set', s).flows[r] == Apply(w.flows[r], ActionOf(w, set', s).value);
  }

  // ---- the queue drives the engine ---------------------------------------------------------

  /** Whatever the queue does, each workflow run goes through a run of the engine, so that all that
      holds of those holds of it. */
  lemma {:induction false} FlowsAreRuns(set': Settings, steps: seq<Step>, r: nat) returns (actions: seq<Action>)
    requires r < |Reached(set', steps).flows|
    ensures Reached(set', steps).flows[r] == After(Reached(set', steps).flows[r].template, actions)
    ensures Reached(set', steps).flows[r].template.Valid()
  {
    var k := |steps| - 1;
    var w, s := Reached(set', steps[..k]), steps[k];
    QueueIsHonest(set', steps);
    assert FlowOk(Reached(set', steps).flows[r]);
    if r == |w.flows| {
      actions := [];
    } else {
      var before := FlowsAreRuns(set', steps[..k], r);
      if !s.Instantiate? && ActionOf(w, set', s).Some? && r == FlowOf(s) {
        var a := ActionOf(w, set', s).value;
        actions := before + [a];
        OneMore(w.flows[r].template, before, a);
        ApplyKeepsTemplate(w.flows[r], a);
      } else {
        actions := before;
      }
    }
  }

  /** Under a compatible template no run is left with nothing to do: a RUNNING run has a task that
      is READY, so claimable, or in somebody's hands. */
  lemma QueueNeverStuck(set': Settings, steps: seq<Step>, r: nat)
    requires r < |Reached(set', steps).flows| && Reached(set', steps).flows[r].state == FlowRunning
    requires Compatible(Reached(set', steps).flows[r].template)
    ensures exists i: nat :: i < |Reached(set', steps).flows[r].tasks|
              && Reached(set', steps).flows[r].tasks[i].state in {Ready, Running, WaitingApproval, BlockedBudget}
  {
    var f := Reached(set', steps).flows[r];
    var actions := FlowsAreRuns(set', steps, r);
    RunKeeps(f.template, actions);
    NeverStuck(f.template, actions);
  }

  function RunsIn(tasks: seq<Task>): nat {
    if tasks == [] then 0 else RunsIn(tasks[..|tasks| - 1]) + |tasks[|tasks| - 1].runs|
  }

  lemma {:induction false} RunsInAtMost(tasks: seq<Task>, most: nat)
    requires RowsOk(tasks) && forall i :: 0 <= i < |tasks| ==> tasks[i].maxAttempts <= most
    ensures RunsIn(tasks) <= most * |tasks|
  {
    if tasks != [] {
      var k := |tasks| - 1;
      RowsOkInit(tasks);
      RunsInAtMost(tasks[..k], most);
      OneMoreTimes(most, k);
    }
  }

  lemma RowsOkInit(tasks: seq<Task>)
    requires RowsOk(tasks) && tasks != []
    ensures RowsOk(tasks[..|tasks| - 1])
    ensures |tasks[|tasks| - 1].runs| <= tasks[|tasks| - 1].maxAttempts
  {
    assert RowOk(tasks[|tasks| - 1]);
  }

  lemma OneMoreTimes(most: nat, k: nat)
    ensures most * (k + 1) == most * k + most
  {
  }

  /** All rounds, retries and crashes included, a workflow run costs at most so many agent runs:
      the tasks it can have, each with the attempts its most patient node allows. */
  lemma AgentRunsAreBounded(set': Settings, steps: seq<Step>, r: nat)
    requires r < |Reached(set', steps).flows|
    ensures var f := Reached(set', steps).flows[r];
            RunsIn(f.tasks) <= MostAttempts(f.template.nodes) * MostTasks(f.template)
  {
    var f := Reached(set', steps).flows[r];
    QueueIsHonest(set', steps);
    assert FlowOk(f);
    var actions := FlowsAreRuns(set', steps, r);
    RunsOfFlow(f, actions);
  }

  lemma RunsOfFlow(f: Flow, actions: seq<Action>)
    requires f.template.Valid() && f == After(f.template, actions) && RowsOk(f.tasks)
    ensures RunsIn(f.tasks) <= MostAttempts(f.template.nodes) * MostTasks(f.template)
  {
    TasksAreBounded(f.template, actions);
    AttemptsAreAllowed(f.template, actions);
    RunsInAtMost(f.tasks, MostAttempts(f.template.nodes));
    MulMonotone(MostAttempts(f.template.nodes), |f.tasks|, MostTasks(f.template));
  }
}
