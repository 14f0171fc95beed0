/** The events of a company's log that its tasks and cycles emit
    (backend/autora/runtime/events/catalog.py:275-323). Agents' events are not part of this model. */
module Events {
  import opened Wrappers
  import opened Templates
  import opened Tasks
  import opened EventLog
  import opened Cycles

  /** A task: the workflow run and its place in it. */
  type TaskId = (nat, nat)

  datatype What =
    | TaskCreated(task: TaskId, name: Name, role: Name)
    | TaskReady(task: TaskId)
    | TaskStarted(task: TaskId, run: nat, agent: AgentId, attempt: nat)
    | TaskWaiting(task: TaskId)
    | TaskSucceeded(task: TaskId)
    | TaskFailed(task: TaskId, final: bool)
    | TaskCancelled(task: TaskId)
    | TaskBlocked(task: TaskId)
    | CycleStarted(number: nat, stage: Stage, deadline: Option<Time>)
    | CycleStageChanged(to: Stage, deadline: Option<Time>)
    | Other

  datatype Fact = Fact(at: Time, what: What)

  type Entry = Event<Fact>

  /** The task an event is about. */
  function About(w: What): Option<TaskId> {
    match w
    case CycleStarted(_, _, _) => None
    case CycleStageChanged(_, _) => None
    case Other => None
    case _ => Some(w.task)
  }

  predicate IsCycleEvent(w: What) { w.CycleStarted? || w.CycleStageChanged? }

  /** What is said about one task, in order. */
  function Telling(says: seq<What>, id: TaskId): seq<What> {
    TellingIn(says, id, |says|)
  }

  function TellingIn(says: seq<What>, id: TaskId, k: nat): seq<What>
    requires k <= |says|
  {
    if k == 0 then []
    else if About(says[k - 1]) == Some(id) then TellingIn(says, id, k - 1) + [says[k - 1]]
    else TellingIn(says, id, k - 1)
  }

  lemma {:induction false} TellingPrefix(a: seq<What>, b: seq<What>, id: TaskId, k: nat)
    requires k <= |a|
    ensures TellingIn(a + b, id, k) == TellingIn(a, id, k)
  {
    if k > 0 { TellingPrefix(a, b, id, k - 1); }
  }

  lemma {:induction false} TellingSuffix(a: seq<What>, b: seq<What>, id: TaskId, k: nat)
    requires k <= |b|
    ensures TellingIn(a + b, id, |a| + k) == Telling(a, id) + TellingIn(b, id, k)
  {
    if k == 0 {
      TellingPrefix(a, b, id, |a|);
    } else {
      TellingSuffix(a, b, id, k - 1);
      assert (a + b)[|a| + k - 1] == b[k - 1];
    }
  }

  lemma TellingJoin(a: seq<What>, b: seq<What>, id: TaskId)
    ensures Telling(a + b, id) == Telling(a, id) + Telling(b, id)
  {
    TellingSuffix(a, b, id, |b|);
  }

  lemma TellingOne(w: What, id: TaskId)
    ensures Telling([w], id) == if About(w) == Some(id) then [w] else []
  {
    assert TellingIn([w], id, 0) == [];
  }
}
