/** What the server reads from its rows (backend/autora/realtime/projection.py), and how the
    transactions of a company write rows and events together. */
module Projection {
  import opened Wrappers
  import opened Lifecycles
  import opened Tasks
  import opened Rows
  import opened Queue
  import opened Emissions
  import opened EventLog
  import opened Cycles
  import opened Events
  import opened Reducer

  /** The company's rows: the queue and the cycles. */
  datatype Company = Company(world: World, cycles: seq<Cycle>)

  function RowAt(c: Company, id: TaskId): Option<Task> {
    if c.world.Has(id.0, id.1) then Some(c.world.Row(id.0, id.1)) else None
  }

  /** The last event about a task among the first `k` of the log. */
  function LastAbout(log: seq<Entry>, id: TaskId, k: nat): Option<Entry>
    requires k <= |log|
  {
    if k == 0 then None
    else if About(log[k - 1].payload.what) == Some(id) then Some(log[k - 1])
    else LastAbout(log, id, k - 1)
  }

  /** The task's view from its row, its last run's row and its last event (projection.py:219-270). */
  function RowView(t: Task, e: Entry): TaskView {
    TaskView(t.name, t.role, t.state, t.attempt,
      if t.runs == [] then None else Some(t.runs[|t.runs| - 1].attempt),
      if t.runs == [] then None else Some(t.runs[|t.runs| - 1].agent),
      e.payload.at, e.seqNo)
  }

  function TaskIds(w: World): set<TaskId> {
    set r: nat, i: nat | r < |w.flows| && i < |w.flows[r].tasks| :: (r, i)
  }

  predicate Shown(c: Company, log: seq<Entry>, id: TaskId, now: Time) {
    var e := LastAbout(log, id, |log|);
    RowAt(c, id).Some? && e.Some? && Shows(RowView(RowAt(c, id).value, e.value), now)
  }

  /** The snapshot a client starts from (projection.py:128-156, 219-284). The recent events are the
      last rows that can be read. */
  function Snapshot(c: Company, log: seq<Entry>, now: Time): Picture {
    Picture(
      Head(log),
      if c.cycles == [] then None else Some(LatestCycle(c.cycles)),
      map id | id in TaskIds(c.world) && Shown(c, log, id, now) :: RowView(RowAt(c, id).value, LastAbout(log, id, |log|).value),
      Readable(Last(log, RECENT)))
  }

  function LatestCycle(cycles: seq<Cycle>): CycleView
    requires cycles != []
  {
    var c := cycles[|cycles| - 1];
    CycleView(c.number, c.stage, c.deadline)
  }

  // ---- transactions --------------------------------------------------------------------------

  datatype CompanyStep =
    | Work(step: Step)
    | OpenCycle(now: Time, minutes: Minutes)
    | NextStage(now: Time, minutes: Minutes)
    | Elsewhere

  ghost function CyclesAfter(cycles: seq<Cycle>, s: CompanyStep): seq<Cycle> {
    match s
    case OpenCycle(now, minutes) =>
      if cycles == [] || cycles[|cycles| - 1].stage.Done? then cycles + [NewCycle(|cycles| + 1, now, minutes)] else cycles
    case NextStage(now, minutes) =>
      if cycles == [] || cycles[|cycles| - 1].stage.Done? then cycles
      else cycles[|cycles| - 1 := Cycles.Advance(cycles[|cycles| - 1], now, minutes)]
    case _ => cycles
  }

  ghost function CompanyAfter(c: Company, set': Settings, s: CompanyStep): Company {
    Company(if s.Work? then Next(c.world, set', s.step) else c.world, CyclesAfter(c.cycles, s))
  }

  /** The difference between two rows of a task, as events: from `was` to `now`. */
  function RowEvents(id: TaskId, was: Option<Task>, now: Task): seq<What> {
    match was
    case None => [TaskCreated(id, now.name, now.role)] + if now.state == Ready then [TaskReady(id)] else []
    case Some(w) =>
      if w.state == now.state then []
      else match now.state
        case Ready => if w.state == Running then [TaskFailed(id, false), TaskReady(id)] else [TaskReady(id)]
        case Running => if now.runs == [] then [] else [TaskStarted(id, now.runs[|now.runs| - 1].attempt, now.runs[|now.runs| - 1].agent, now.attempt)]
        case WaitingApproval => [TaskWaiting(id)]
        case BlockedBudget => [TaskBlocked(id)]
        case Succeeded => [TaskSucceeded(id)]
        case Failed => [TaskFailed(id, true)]
        case Cancelled => [TaskCancelled(id)]
        case Pending => []
  }

  function CycleEvents(was: seq<Cycle>, now: seq<Cycle>): seq<What> {
    if was == now || now == [] then []
    else if |now| > |was| then [CycleStarted(now[|now| - 1].number, now[|now| - 1].stage, now[|now| - 1].deadline)]
    else [CycleStageChanged(now[|now| - 1].stage, now[|now| - 1].deadline)]
  }

  /** The entries about one task, in order. */
  function EntriesAbout(events: seq<Entry>, id: TaskId): seq<Entry> {
    if events == [] then []
    else EntriesAbout(events[..|events| - 1], id) + if About(events[|events| - 1].payload.what) == Some(id) then [events[|events| - 1]] else []
  }

  function CycleEntries(events: seq<Entry>): seq<Entry> {
    if events == [] then []
    else CycleEntries(events[..|events| - 1]) + if IsCycleEvent(events[|events| - 1].payload.what) then [events[|events| - 1]] else []
  }

  function Whats(entries: seq<Entry>): (r: seq<What>)
    ensures |r| == |entries| && forall k {:trigger r[k]} :: 0 <= k < |r| ==> r[k] == entries[k].payload.what
  {
    seq(|entries|, k requires 0 <= k < |entries| => entries[k].payload.what)
  }

  /** The events of a transaction tell what it did to each task and to the cycle, in whatever order
      they stand; events this process cannot read are about neither. */
  ghost predicate Tells(before: Company, after: Company, events: seq<Entry>) {
    && (forall id {:trigger EntriesAbout(events, id)} ::
          Whats(EntriesAbout(events, id)) ==
          match RowAt(after, id) case None => [] case Some(row) => RowEvents(id, RowAt(before, id), row))
    && Whats(CycleEntries(events)) == CycleEvents(before.cycles, after.cycles)
    && UnreadableIsOther(events)
  }

  ghost predicate UnreadableIsOther(events: seq<Entry>) {
    forall k :: 0 <= k < |events| && !events[k].readable ==> events[k].payload.what.Other?
  }

  /** What the first `k` events say of tasks and cycles, the others left out. */
  function SpokenIn(events: seq<Entry>, k: nat): seq<What>
    requires k <= |events|
  {
    if k == 0 then []
    else if events[k - 1].payload.what.Other? then SpokenIn(events, k - 1)
    else SpokenIn(events, k - 1) + [events[k - 1].payload.what]
  }

  function Spoken(events: seq<Entry>): seq<What> { SpokenIn(events, |events|) }

  /** What a transaction emits of tasks and cycles, in the order of the source
      (task_manager.py and dag.py; backend/autora/company/cycle.py:208-220, 283-305). */
  ghost function CompanySays(c: Company, set': Settings, s: CompanyStep): seq<What> {
    match s
    case Work(step) => EmittedBy(c.world, set', step)
    case OpenCycle(now, minutes) =>
      if c.cycles == [] || c.cycles[|c.cycles| - 1].stage.Done?
      then [CycleStarted(|c.cycles| + 1, Planning, Some(now + minutes(Planning)))] else []
    case NextStage(now, minutes) =>
      if c.cycles == [] || c.cycles[|c.cycles| - 1].stage.Done? then []
      else
        var next := Following(c.cycles[|c.cycles| - 1].stage);
        [CycleStageChanged(next, if next.Done? then None else Some(now + minutes(next)))]
    case Elsewhere => []
  }

  /** A company's history, transaction by transaction: rows and log after each of them. */
  ghost predicate IsHistory(set': Settings, steps: seq<CompanyStep>, companies: seq<Company>, logs: seq<seq<Entry>>) {
    && |companies| == |logs| == |steps| + 1
    && companies[0] == Company(World([], 0), []) && logs[0] == []
    && forall k :: 0 <= k < |steps| ==> Commits(set', steps[k], companies[k], logs[k], companies[k + 1], logs[k + 1])
  }

  /** A transaction writes its rows, and its events behind the log: those about tasks and cycles in the
      order in which they are emitted, among others that are about neither. */
  ghost predicate Commits(set': Settings, s: CompanyStep, c: Company, log: seq<Entry>, c': Company, log': seq<Entry>) {
    && c' == CompanyAfter(c, set', s)
    && log <= log' && Increasing(log')
    && Spoken(log'[|log|..]) == CompanySays(c, set', s)
    && UnreadableIsOther(log'[|log|..])
  }
}
