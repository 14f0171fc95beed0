/** The reference reducer (backend/autora/realtime/reducer.py): what a client makes of the events it
    is sent. Agents and their activity are not part of this model. */
module Reducer {
  import opened Wrappers
  import opened Lifecycles
  import opened Templates
  import opened Tasks
  import opened Cycles
  import opened Events

  datatype TaskView = TaskView(
    name: Name, role: Name, state: TaskState, attempt: nat, run: Option<nat>, agent: Option<AgentId>,
    since: Time, lastEventSeq: nat)

  datatype CycleView = CycleView(number: nat, stage: Stage, deadline: Option<Time>)

  /** What a client holds, and what the server sends it to start with. */
  datatype Picture = Picture(lastSeq: nat, cycle: Option<CycleView>, tasks: map<TaskId, TaskView>, recent: seq<Entry>)

  const RECENT := 100

  /** Ten minutes, in microseconds as all times. */
  const WINDOW := 600_000_000

  function Last<T>(s: seq<T>, n: nat): (r: seq<T>)
    ensures |r| <= n
  {
    if |s| <= n then s else s[|s| - n..]
  }

  function NewView(e: Entry): TaskView
    requires e.payload.what.TaskCreated?
  {
    TaskView(e.payload.what.name, e.payload.what.role, Pending, 0, None, None, e.payload.at, e.seqNo)
  }

  /** A TASK_* event on a known task (reducer.py:212-227). */
  function OnTask(t: TaskView, e: Entry): TaskView {
    var seen := t.(since := e.payload.at, lastEventSeq := e.seqNo);
    match e.payload.what
    case TaskFailed(_, final) => if final then seen.(state := Failed) else seen
    case TaskReady(_) => seen.(state := Ready)
    case TaskStarted(_, run, agent, attempt) => seen.(state := Running, attempt := attempt, run := Some(run), agent := Some(agent))
    case TaskWaiting(_) => seen.(state := WaitingApproval)
    case TaskSucceeded(_) => seen.(state := Succeeded)
    case TaskCancelled(_) => seen.(state := Cancelled)
    case TaskBlocked(_) => seen.(state := BlockedBudget)
    case _ => seen
  }

  function TasksAfter(tasks: map<TaskId, TaskView>, e: Entry): map<TaskId, TaskView> {
    var w := e.payload.what;
    if w.TaskCreated? then tasks[w.task := NewView(e)]
    else if About(w).Some? && About(w).value in tasks then tasks[About(w).value := OnTask(tasks[About(w).value], e)]
    else tasks
  }

  function CycleAfter(cycle: Option<CycleView>, e: Entry): Option<CycleView> {
    match e.payload.what
    case CycleStarted(number, stage, deadline) => Some(CycleView(number, stage, deadline))
    case CycleStageChanged(to, deadline) =>
      if cycle.Some? then Some(cycle.value.(stage := to, deadline := deadline)) else None
    case _ => cycle
  }

  /** One event (reducer.py:120-183); one that was applied before is ignored. */
  function Applied(p: Picture, e: Entry): Picture {
    if e.seqNo <= p.lastSeq then p
    else Picture(e.seqNo, CycleAfter(p.cycle, e), TasksAfter(p.tasks, e), Last(p.recent + [e], RECENT))
  }

  function Fold(p: Picture, events: seq<Entry>): Picture {
    if events == [] then p else Applied(Fold(p, events[..|events| - 1]), events[|events| - 1])
  }

  predicate Shows(t: TaskView, now: Time) {
    t.state !in {Succeeded, Failed, Cancelled} || t.since > now - WINDOW
  }

  /** The picture at `now` (reducer.py:231-264): finished tasks leave it after a while. */
  function ViewAt(p: Picture, now: Time): Picture {
    p.(tasks := map id | id in p.tasks && Shows(p.tasks[id], now) :: p.tasks[id])
  }

  // ---- applying twice ------------------------------------------------------------------------

  lemma {:induction false} FoldJoin(p: Picture, a: seq<Entry>, b: seq<Entry>)
    ensures Fold(p, a + b) == Fold(Fold(p, a), b)
  {
    if b == [] {
      assert a + b == a;
    } else {
      assert (a + b)[..|a + b| - 1] == a + b[..|b| - 1];
      FoldJoin(p, a, b[..|b| - 1]);
    }
  }

  /** Events that were applied before change nothing. */
  lemma {:induction false} RepeatsAreIgnored(p: Picture, old': seq<Entry>)
    requires forall k :: 0 <= k < |old'| ==> old'[k].seqNo <= p.lastSeq
    ensures Fold(p, old') == p
  {
    if old' != [] { RepeatsAreIgnored(p, old'[..|old'| - 1]); }
  }

  /** The client's object, updated in place. */
  class RealtimeState {
    var lastSeq: nat
    var cycle: Option<CycleView>
    var tasks: map<TaskId, TaskView>
    var recent: seq<Entry>

    function Value(): Picture
      reads this
    {
      Picture(lastSeq, cycle, tasks, recent)
    }

    constructor FromSnapshot(p: Picture)
      ensures Value() == p
    {
      lastSeq, cycle, tasks, recent := p.lastSeq, p.cycle, p.tasks, p.recent;
    }

    method Apply(e: Entry) returns (applied: bool)
      modifies this
      ensures Value() == Applied(old(Value()), e) && (applied <==> e.seqNo > old(lastSeq))
    {
      if e.seqNo <= lastSeq { return false; }
      applied := true;
      lastSeq := e.seqNo;
      recent := recent + [e];
      if |recent| > RECENT { recent := recent[|recent| - RECENT..]; }
      var what, id := e.payload.what, About(e.payload.what);
      if what.CycleStarted? {
        cycle := Some(CycleView(what.number, what.stage, what.deadline));
      } else if what.CycleStageChanged? {
        if cycle.Some? { cycle := Some(cycle.value.(stage := what.to, deadline := what.deadline)); }
      } else if what.TaskCreated? {
        tasks := tasks[what.task := NewView(e)];
      } else if id.Some? && id.value in tasks {
        tasks := tasks[id.value := OnTask(tasks[id.value], e)];
      }
    }

    method ApplyAll(events: seq<Entry>)
      modifies this
      ensures Value() == Fold(old(Value()), events)
    {
      ghost var first := Value();
      for k := 0 to |events|
        invariant Value() == Fold(first, events[..k])
      {
        assert events[..k + 1][..k] == events[..k];
        var _ := Apply(events[k]);
      }
      assert events[..|events|] == events;
    }
  }
}
