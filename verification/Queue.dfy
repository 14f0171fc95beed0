/** The work queue over all workflow runs: every transaction of the task manager, and what all of
    them together keep (backend/autora/runtime/task_manager.py). */
module Queue {
  import opened Wrappers
  import opened Lifecycles
  import opened Templates
  import opened Tasks
  import opened Rows
  import opened Flows
  import opened FlowRounds

  /** All workflow runs with their tasks; claim tokens are handed out once each. */
  datatype World = World(flows: seq<Flow>, nextToken: Token) {
    predicate Has(r: nat, i: nat) { r < |flows| && i < |flows[r].tasks| }

    function Row(r: nat, i: nat): Task
      requires Has(r, i)
    {
      flows[r].tasks[i]
    }
  }

  /** One transaction, or one task of a batch. */
  datatype Step =
    | Instantiate(template: Template)
    | Claiming(agent: AgentId, role: Name, owner: nat, r: nat, i: nat, now: Time)
    | Beating(c: Claim, now: Time)
    | Advancing(c: Claim, to: RunState)
    | Succeeding(c: Claim, output: Output, now: Time)
    | Failing(c: Claim, retryable: bool, now: Time)
    | Aborting(c: Claim, reason: AbortReason, now: Time)
    | Suspending(c: Claim)
    | Cancelling(r: nat, i: nat, now: Time)
    | Stopping(r: nat, now: Time)
    | Awaiting(r: nat, i: nat)
    | Releasing(r: nat, i: nat)
    | Completing(r: nat, i: nat, output: Output, now: Time)
    | FailingWithoutRun(r: nat, i: nat, now: Time)
    | Unblocking(r: nat, i: nat, now: Time)
    | Reaping(r: nat, i: nat, now: Time)

  /** Whether the agent has an unfinished run anywhere. */
  ghost predicate Busy(w: World, agent: AgentId) {
    exists r: nat, i: nat {:trigger OpenAt(w, r, i, agent)} :: OpenAt(w, r, i, agent)
  }

  predicate OpenAt(w: World, r: nat, i: nat, agent: AgentId) {
    w.Has(r, i) && w.Row(r, i).HasOpenRun() && w.Row(r, i).OpenRun().agent == agent
  }

  predicate LeaseAt(w: World, r: nat, i: nat, token: Token) {
    w.Has(r, i) && w.Row(r, i).lease.Some? && w.Row(r, i).lease.value.token == token
  }

  /** A busy agent gets back only its own suspended run; a free one a new attempt of a task. */
  ghost predicate MayClaim(w: World, agent: AgentId, role: Name, r: nat, i: nat, now: Time) {
    w.Has(r, i) && if Busy(w, agent) then Resumable(w.Row(r, i), agent) else Claimable(w.Row(r, i), role, now)
  }

  /** The row a claim makes. */
  ghost function ClaimRow(w: World, set': Settings, agent: AgentId, owner: nat, r: nat, i: nat, now: Time): Task
    requires w.Has(r, i)
  {
    if Busy(w, agent) then Leased(w.Row(r, i), owner, now + set'.lease, w.nextToken)
    else Started(w.Row(r, i), agent, owner, now + set'.lease, w.nextToken)
  }

  /** The task a transaction is about. */
  function Target(s: Step): (nat, nat) {
    match s
    case Claiming(_, _, _, r, i, _) => (r, i)
    case Beating(c, _) => (c.flow, c.task)
    case Advancing(c, _) => (c.flow, c.task)
    case Succeeding(c, _, _) => (c.flow, c.task)
    case Failing(c, _, _) => (c.flow, c.task)
    case Aborting(c, _, _) => (c.flow, c.task)
    case Suspending(c) => (c.flow, c.task)
    case Cancelling(r, i, _) => (r, i)
    case Awaiting(r, i) => (r, i)
    case Releasing(r, i) => (r, i)
    case Completing(r, i, _, _) => (r, i)
    case FailingWithoutRun(r, i, _) => (r, i)
    case Unblocking(r, i, _) => (r, i)
    case Reaping(r, i, _) => (r, i)
    case _ => (0, 0)
  }

  /** What a transaction that does not claim makes of its task's row. */
  function OutcomeOf(t: Task, set': Settings, s: Step): RowOutcome {
    match s
    case Beating(c, now) => Heartbeat(t, c, now + set'.lease)
    case Advancing(c, to) => Advance(t, c, to)
    case Succeeding(c, _, now) => Complete(t, c, now)
    case Failing(c, retryable, now) => Fail(t, c, retryable, now, set')
    case Aborting(c, reason, now) => Abort(t, c, reason, now)
    case Suspending(c) => Suspend(t, c)
    case Cancelling(_, _, now) => CancelOne(t, now)
    case Awaiting(_, _) => Await(t)
    case Releasing(_, _) => ReleaseAfterApproval(t)
    case Completing(_, _, _, _) => CompleteWithoutRun(t)
    case FailingWithoutRun(_, _, _) => FailWithoutRun(t)
    case Unblocking(_, _, _) => ReleaseBlocked(t)
    case Reaping(_, _, now) => Reap(t, now, set')
    case _ => Refused
  }

  function OutputOf(s: Step): Output {
    match s
    case Succeeding(_, output, _) => output
    case Completing(_, _, output, _) => output
    case _ => map[]
  }

  function TimeOf(s: Step): Time {
    match s
    case Succeeding(_, _, now) => now
    case Failing(_, _, now) => now
    case Aborting(_, _, now) => now
    case Cancelling(_, _, now) => now
    case Completing(_, _, _, now) => now
    case FailingWithoutRun(_, _, now) => now
    case Unblocking(_, _, now) => now
    case Reaping(_, _, now) => now
    case _ => 0
  }

  /** What a transaction does to the run it concerns, or nothing where it is refused (LeaseLost,
      AgentBusy, an illegal transition) or has nothing to do. */
  ghost function ActionOf(w: World, set': Settings, s: Step): Option<Action> {
    var (r, i) := Target(s);
    if s.Instantiate? then None
    else if s.Stopping? then if s.r < |w.flows| then Some(CancelRun(s.now)) else None
    else if !w.Has(r, i) then None
    else if s.Claiming? then
      if MayClaim(w, s.agent, s.role, r, i, s.now) then Some(Move(i, ClaimRow(w, set', s.agent, s.owner, r, i, s.now))) else None
    else
      var o := OutcomeOf(w.Row(r, i), set', s);
      if o.Refused? then None else Some(ActionFor(i, o, OutputOf(s), TimeOf(s)))
  }

  function FlowOf(s: Step): nat {
    if s.Stopping? then s.r else Target(s).0
  }

  /** A template the database takes: every task must be allowed an attempt. */
  ghost predicate Usable(t: Template) {
    t.Valid() && forall n {:trigger NodeNamed(t, n)} :: t.Has(n) ==> NodeNamed(t, n).maxAttempts >= 1
  }

  ghost function Next(w: World, set': Settings, s: Step): World {
    if s.Instantiate? then
      if Usable(s.template) then w.(flows := w.flows + [Start(s.template)]) else w
    else
      match ActionOf(w, set', s)
      case None => w
      case Some(a) =>
        World(w.flows[FlowOf(s) := Apply(w.flows[FlowOf(s)], a)], if s.Claiming? then w.nextToken + 1 else w.nextToken)
  }

  /** The queue after a sequence of transactions, from an empty one. */
  ghost function Reached(set': Settings, steps: seq<Step>): World {
    if steps == [] then World([], 0)
    else Next(Reached(set', steps[..|steps| - 1]), set', steps[|steps| - 1])
  }

  // ---- what every transaction keeps --------------------------------------------------------

  ghost predicate RowsOk(tasks: seq<Task>) {
    forall i :: 0 <= i < |tasks| ==> RowOk(tasks[i])
  }

  /** No agent has two unfinished runs. */
  ghost predicate OnePerAgent(w: World) {
    forall agent: AgentId, r: nat, i: nat, r': nat, i': nat {:trigger OpenAt(w, r, i, agent), OpenAt(w, r', i', agent)} ::
      OpenAt(w, r, i, agent) && OpenAt(w, r', i', agent) ==> r == r' && i == i'
  }

  /** No token is on two tasks, and none that was not handed out is on any. */
  ghost predicate OnePerToken(w: World) {
    && (forall token: Token, r: nat, i: nat, r': nat, i': nat {:trigger LeaseAt(w, r, i, token), LeaseAt(w, r', i', token)} ::
          LeaseAt(w, r, i, token) && LeaseAt(w, r', i', token) ==> r == r' && i == i')
    && (forall token: Token, r: nat, i: nat {:trigger LeaseAt(w, r, i, token)} :: LeaseAt(w, r, i, token) ==> token < w.nextToken)
  }

  ghost predicate FlowOk(f: Flow) {
    Usable(f.template) && RowsOk(f.tasks)
  }

  ghost predicate Honest(w: World) {
    && (forall r :: 0 <= r < |w.flows| ==> FlowOk(w.flows[r]))
    && OnePerAgent(w) && OnePerToken(w)
  }

  // ---- the engine's reactions are calm -----------------------------------------------------

  /** Every row that was there is as it was or calmer; new rows have no run and no claim. */
  ghost predicate CalmAt(before: seq<Task>, after: seq<Task>, j: nat) {
    j < |after| ==>
      if j < |before| then Calmer(before[j], after[j]) else RowOk(after[j]) && !after[j].HasOpenRun() && after[j].lease.None?
  }

  ghost predicate Calm(before: seq<Task>, after: seq<Task>) {
    |before| <= |after| && forall j: nat {:trigger CalmAt(before, after, j)} :: CalmAt(before, after, j)
  }

  lemma CancelTheseIsCalm(tasks: seq<Task>, which: set<nat>, now: Time)
    ensures Calm(tasks, CancelThese(tasks, which, now))
  {
    forall j: nat {:trigger CalmAt(tasks, CancelThese(tasks, which, now), j)} | j < |tasks|
      ensures CalmAt(tasks, CancelThese(tasks, which, now), j)
    {
      CancelIsCalm(tasks[j], now);
    }
  }

  lemma UnlockIsCalm(tasks: seq<Task>, i: nat)
    ensures Calm(tasks, Unlock(tasks, i))
  {
    forall j: nat {:trigger CalmAt(tasks, Unlock(tasks, i), j)} | j < |tasks| ensures CalmAt(tasks, Unlock(tasks, i), j) {
      if tasks[j].state == Pending { ReadyIsCalm(tasks[j]); }
    }
  }

  lemma RoundIsCalm(f: Flow, i: nat, loop: Loop)
    requires Usable(f.template) && loop in f.template.loops
    ensures Calm(f.tasks, RoundTasks(f, i, loop))
  {
    var after := RoundTasks(f, i, loop);
    forall j: nat {:trigger CalmAt(f.tasks, after, j)} | j < |after| ensures CalmAt(f.tasks, after, j) {
      if j < |f.tasks| {
        RoundKept(f, i, loop, j);
      } else {
        AddedAt(f, i, loop, j);
        BodyIsPath(f.template, loop, f.template.Body(loop)[j - |f.tasks|]);
        assert f.template.Has(f.template.Body(loop)[j - |f.tasks|]);
      }
    }
  }

  lemma SuccessIsCalm(f: Flow, i: nat, output: Output, now: Time)
    requires Usable(f.template) && i < |f.tasks|
    ensures Calm(f.tasks, AfterSuccess(f, i, output, now).tasks)
  {
    var loop := FirstLoop(f.template.loops, f.tasks[i].name, output);
    CancelTheseIsCalm(f.tasks, Doomed(f.tasks, i), now);
    UnlockIsCalm(f.tasks, i);
    if loop.Some? { RoundIsCalm(f, i, loop.value); }
  }

  // ---- one transaction ---------------------------------------------------------------------

  lemma HeldIsLawful(t: Task, set': Settings, s: Step)
    requires RowOk(t) && (s.Beating? || s.Advancing? || s.Suspending?)
    ensures Lawful(t, OutcomeOf(t, set', s))
  {
    match s
    case Beating(c, now) => ClaimOpsAreLawful(t, c, now + set'.lease, Working);
    case Advancing(c, to) => ClaimOpsAreLawful(t, c, 0, to);
    case Suspending(c) => ClaimOpsAreLawful(t, c, 0, Working);
  }

  lemma EndingIsLawful(t: Task, set': Settings, s: Step)
    requires RowOk(t) && (s.Succeeding? || s.Failing? || s.Aborting?)
    ensures Lawful(t, OutcomeOf(t, set', s))
  {
    match s
    case Succeeding(c, _, now) => CompleteIsLawful(t, c, now);
    case Failing(c, retryable, now) => FailIsLawful(t, c, retryable, now, set');
    case Aborting(c, reason, now) => AbortIsLawful(t, c, reason, now);
  }

  lemma OutcomeIsLawful(t: Task, set': Settings, s: Step)
    requires RowOk(t)
    ensures Lawful(t, OutcomeOf(t, set', s))
  {
    if s.Beating? || s.Advancing? || s.Suspending? { HeldIsLawful(t, set', s); }
    else if s.Succeeding? || s.Failing? || s.Aborting? { EndingIsLawful(t, set', s); }
    else if s.Reaping? { ReapIsLawful(t, s.now, set'); }
    else { OthersAreLawful(t, TimeOf(s)); }
  }

  /** The tasks of the run when the engine starts to react: the row written, the others as before. */
  ghost function Written(f: Flow, a: Action): seq<Task>
    requires Enabled(f, a)
  {
    match a
    case Move(i, row) => f.tasks[i := row]
    case Succeed(i, row, _, _) => f.tasks[i := row]
    case Die(i, row, _) => f.tasks[i := row]
    case CancelRun(_) => f.tasks
  }

  lemma StaysCalm(tasks: seq<Task>)
    ensures Calm(tasks, tasks)
  {
  }

  lemma ApplyIsCalm(f: Flow, a: Action)
    requires Usable(f.template) && Enabled(f, a)
    ensures Calm(Written(f, a), Apply(f, a).tasks)
  {
    var f1 := f.(tasks := Written(f, a));
    match a
    case Move(i, row) => StaysCalm(f1.tasks);
    case Succeed(i, row, output, now) => SuccessIsCalm(f1, i, output, now);
    case Die(i, row, now) => CancelTheseIsCalm(f1.tasks, Doomed(f1.tasks, i), now);
    case CancelRun(now) => CancelTheseIsCalm(f.tasks, Unfinished(f.tasks), now);
  }

  lemma CalmKeepsRows(before: seq<Task>, after: seq<Task>)
    requires RowsOk(before) && Calm(before, after)
    ensures RowsOk(after)
  {
    forall j: nat | j < |after| ensures RowOk(after[j]) { assert CalmAt(before, after, j); }
  }

  /** The action is legal, and what it writes is honest. */
  lemma ActionIsLawful(w: World, set': Settings, s: Step)
    requires forall r :: 0 <= r < |w.flows| ==> FlowOk(w.flows[r])
    requires ActionOf(w, set', s).Some?
    ensures FlowOf(s) < |w.flows| && Enabled(w.flows[FlowOf(s)], ActionOf(w, set', s).value)
    ensures var a := ActionOf(w, set', s).value; RowsOk(Written(w.flows[FlowOf(s)], a))
  {
    if !s.Stopping? {
      var (r, i) := Target(s);
      assert FlowOk(w.flows[r]) && RowOk(w.Row(r, i));
      if s.Claiming? { ClaimIsLawful(w, set', s); } else { OutcomeIsLawful(w.Row(r, i), set', s); }
    }
  }

  lemma ClaimIsLawful(w: World, set': Settings, s: Step)
    requires s.Claiming? && w.Has(s.r, s.i) && RowOk(w.Row(s.r, s.i)) && MayClaim(w, s.agent, s.role, s.r, s.i, s.now)
    ensures var row := ClaimRow(w, set', s.agent, s.owner, s.r, s.i, s.now);
            && RowOk(row) && row.HasOpenRun() && row.OpenRun().agent == s.agent
            && row.lease.Some? && row.lease.value.token == w.nextToken
            && Enabled(w.flows[s.r], Move(s.i, row))
            && (Busy(w, s.agent) ==> OpenAt(w, s.r, s.i, s.agent))
  {
    var was := w.Row(s.r, s.i);
    if Busy(w, s.agent) { ResumedOk(was, s.agent, s.owner, s.now + set'.lease, w.nextToken); }
    else { StartedOk(was, s.role, s.now, s.agent, s.owner, s.now + set'.lease, w.nextToken); }
  }

  lemma NextKeepsRows(w: World, set': Settings, s: Step)
    requires forall r :: 0 <= r < |w.flows| ==> FlowOk(w.flows[r])
    ensures forall r :: 0 <= r < |Next(w, set', s).flows| ==> FlowOk(Next(w, set', s).flows[r])
  {
    if s.Instantiate? {
      if Usable(s.template) { StartIsHonest(s.template); }
    } else if ActionOf(w, set', s).Some? {
      var f, a := w.flows[FlowOf(s)], ActionOf(w, set', s).value;
      ActionIsLawful(w, set', s);
      ApplyIsCalm(f, a);
      CalmKeepsRows(Written(f, a), Apply(f, a).tasks);
      ApplyKeepsTemplate(f, a);
    }
  }

  lemma ApplyKeepsTemplate(f: Flow, a: Action)
    ensures Apply(f, a).template == f.template
  {
  }

  lemma StartIsHonest(t: Template)
    requires Usable(t)
    ensures RowsOk(Start(t).tasks) && forall j :: 0 <= j < |Start(t).tasks| ==> Start(t).tasks[j].runs == [] && Start(t).tasks[j].lease.None?
  {
    t.OrderIsDependencyOrder();
    forall j: nat | j < |FirstTasks(t)| ensures RowOk(FirstTasks(t)[j]) && FirstTasks(t)[j].runs == [] && FirstTasks(t)[j].lease.None? {
      assert t.Order()[j] in t.Order() && t.Has(t.Order()[j]);
    }
  }

  // ---- agents and tokens -------------------------------------------------------------------

  /** After a transaction, an unfinished run is one that was there before, or the one just claimed. */
  lemma OpenWasOpen(w: World, set': Settings, s: Step, r: nat, i: nat, agent: AgentId)
    requires forall r :: 0 <= r < |w.flows| ==> FlowOk(w.flows[r])
    requires OpenAt(Next(w, set', s), r, i, agent)
    ensures OpenAt(w, r, i, agent) || (s.Claiming? && agent == s.agent && r == s.r && i == s.i && !Busy(w, agent))
  {
    if s.Instantiate? {
      if Usable(s.template) { StartIsHonest(s.template); }
    } else if ActionOf(w, set', s).Some? && r == FlowOf(s) {
      var f, a := w.flows[r], ActionOf(w, set', s).value;
      ActionIsLawful(w, set', s);
      ApplyIsCalm(f, a);
      assert CalmAt(Written(f, a), Apply(f, a).tasks, i);
      WrittenOpen(w, set', s, i, agent);
    }
  }

  lemma WrittenOpen(w: World, set': Settings, s: Step, i: nat, agent: AgentId)
    requires forall r :: 0 <= r < |w.flows| ==> FlowOk(w.flows[r])
    requires ActionOf(w, set', s).Some? && Enabled(w.flows[FlowOf(s)], ActionOf(w, set', s).value)
    requires var tasks := Written(w.flows[FlowOf(s)], ActionOf(w, set', s).value);
             i < |tasks| && tasks[i].HasOpenRun() && tasks[i].OpenRun().agent == agent
    ensures OpenAt(w, FlowOf(s), i, agent) || (s.Claiming? && agent == s.agent && FlowOf(s) == s.r && i == s.i && !Busy(w, agent))
  {
    if !s.Stopping? && i == Target(s).1 {
      assert FlowOk(w.flows[FlowOf(s)]) && RowOk(w.Row(FlowOf(s), i));
      if s.Claiming? { ClaimIsLawful(w, set', s); } else { OutcomeIsLawful(w.Row(FlowOf(s), i), set', s); }
    }
  }

  lemma LeaseWasLease(w: World, set': Settings, s: Step, r: nat, i: nat, token: Token)
    requires forall r :: 0 <= r < |w.flows| ==> FlowOk(w.flows[r])
    requires LeaseAt(Next(w, set', s), r, i, token)
    ensures LeaseAt(w, r, i, token) || (s.Claiming? && token == w.nextToken && r == s.r && i == s.i)
  {
    if s.Instantiate? {
      if Usable(s.template) { StartIsHonest(s.template); }
    } else if ActionOf(w, set', s).Some? && r == FlowOf(s) {
      var f, a := w.flows[r], ActionOf(w, set', s).value;
      ActionIsLawful(w, set', s);
      ApplyIsCalm(f, a);
      assert CalmAt(Written(f, a), Apply(f, a).tasks, i);
      WrittenLease(w, set', s, i, token);
    }
  }

  lemma WrittenLease(w: World, set': Settings, s: Step, i: nat, token: Token)
    requires forall r :: 0 <= r < |w.flows| ==> FlowOk(w.flows[r])
    requires ActionOf(w, set', s).Some? && Enabled(w.flows[FlowOf(s)], ActionOf(w, set', s).value)
    requires var tasks := Written(w.flows[FlowOf(s)], ActionOf(w, set', s).value);
             i < |tasks| && tasks[i].lease.Some? && tasks[i].lease.value.token == token
    ensures LeaseAt(w, FlowOf(s), i, token) || (s.Claiming? && token == w.nextToken && FlowOf(s) == s.r && i == s.i)
  {
    if !s.Stopping? && i == Target(s).1 {
      assert FlowOk(w.flows[FlowOf(s)]) && RowOk(w.Row(FlowOf(s), i));
      if s.Claiming? { ClaimIsLawful(w, set', s); } else { OutcomeIsLawful(w.Row(FlowOf(s), i), set', s); }
    }
  }

  /** Every transaction keeps the queue honest. */
  lemma NextKeeps(w: World, set': Settings, s: Step)
    requires Honest(w)
    ensures Honest(Next(w, set', s))
  {
    var w' := Next(w, set', s);
    NextKeepsRows(w, set', s);
    forall agent: AgentId, r: nat, i: nat, r': nat, i': nat | OpenAt(w', r, i, agent) && OpenAt(w', r', i', agent)
      ensures r == r' && i == i'
    {
      OpenWasOpen(w, set', s, r, i, agent);
      OpenWasOpen(w, set', s, r', i', agent);
    }
    forall token: Token, r: nat, i: nat | LeaseAt(w', r, i, token) ensures token < w'.nextToken {
      LeaseWasLease(w, set', s, r, i, token);
      if !LeaseAt(w, r, i, token) { assert w'.nextToken == w.nextToken + 1 by { NewTokenMeansClaim(w, set', s, r, i); } }
    }
    forall token: Token, r: nat, i: nat, r': nat, i': nat | LeaseAt(w', r, i, token) && LeaseAt(w', r', i', token)
      ensures r == r' && i == i'
    {
      LeaseWasLease(w, set', s, r, i, token);
      LeaseWasLease(w, set', s, r', i', token);
    }
  }

  lemma NewTokenMeansClaim(w: World, set': Settings, s: Step, r: nat, i: nat)
    requires s.Claiming? && OnePerToken(w) && LeaseAt(Next(w, set', s), r, i, w.nextToken)
    ensures Next(w, set', s).nextToken == w.nextToken + 1
  {
    assert !LeaseAt(w, r, i, w.nextToken);
  }

  /** The queue is honest in every reachable state. */
  lemma {:induction false} QueueIsHonest(set': Settings, steps: seq<Step>)
    ensures Honest(Reached(set', steps))
  {
    if steps != [] {
      QueueIsHonest(set', steps[..|steps| - 1]);
      NextKeeps(Reached(set', steps[..|steps| - 1]), set', steps[|steps| - 1]);
    }
  }
}
