/** One workflow run as a growing graph of task copies, and what the engine does to it
    (backend/autora/runtime/dag.py:218-484). Pure: each reaction is a function from the run before
    to the run after; the methods in Engine carry these out step by step. */
module Flows {
  import opened Wrappers
  import opened Sequences
  import opened Graphs
  import opened Lifecycles
  import opened Templates
  import opened Tasks

  /** `extensions` lists the checks of the rounds that were added, as the WORKFLOW_RUN_EXTENDED
      events record them. */
  datatype Flow = Flow(template: Template, tasks: seq<Task>, state: FlowState, extensions: seq<Name>)

  // ---- copies of a node --------------------------------------------------------------------

  /** How many copies of a node there are. */
  function Copies(tasks: seq<Task>, name: Name): nat {
    CopiesIn(tasks, name, |tasks|)
  }

  function CopiesIn(tasks: seq<Task>, name: Name, k: nat): nat
    requires k <= |tasks|
  {
    if k == 0 then 0 else CopiesIn(tasks, name, k - 1) + if tasks[k - 1].name == name then 1 else 0
  }

  /** The newest copy of a node, which is the last in the list. */
  function Latest(tasks: seq<Task>, name: Name): (r: Option<nat>)
    ensures r.Some? ==> r.value < |tasks| && tasks[r.value].name == name
  {
    LatestIn(tasks, name, |tasks|)
  }

  function LatestIn(tasks: seq<Task>, name: Name, k: nat): (r: Option<nat>)
    requires k <= |tasks|
    ensures r.Some? ==> r.value < k && tasks[r.value].name == name
  {
    if k == 0 then None
    else if tasks[k - 1].name == name then Some(k - 1)
    else LatestIn(tasks, name, k - 1)
  }

  ghost predicate IsLatest(tasks: seq<Task>, i: nat)
    requires i < |tasks|
  {
    Latest(tasks, tasks[i].name) == Some(i)
  }

  // ---- cancelling what can no longer run ---------------------------------------------------

  /** The unfinished tasks that depend on `i`. */
  function WaitingFor(tasks: seq<Task>, i: nat): set<nat> {
    set j: nat | j < |tasks| && i in tasks[j].dependsOn && !tasks[j].state.Terminal()
  }

  ghost function Waiters(tasks: seq<Task>): Edges<nat> {
    map i: nat | i < |tasks| :: WaitingFor(tasks, i)
  }

  /** The unfinished tasks that depend on `i`, directly or through other unfinished tasks. */
  ghost function Doomed(tasks: seq<Task>, i: nat): set<nat> {
    set j: nat | j < |tasks| && Leads<nat>(Waiters(tasks), i, j)
  }

  lemma WalkEndsWaiting(tasks: seq<Task>, p: seq<nat>)
    requires Walk(Waiters(tasks), p) && |p| >= 2
    ensures p[|p| - 1] < |tasks| && !tasks[p[|p| - 1]].state.Terminal()
  {
    assert Linked(Waiters(tasks), p, |p| - 2);
  }

  lemma EndedIsNotDoomed(tasks: seq<Task>, i: nat)
    requires i < |tasks| && tasks[i].state.Terminal()
    ensures i !in Doomed(tasks, i)
  {
    if i in Doomed(tasks, i) {
      var p: seq<nat> :| WalkFromTo<nat>(Waiters(tasks), p, i, i) && |p| >= 2;
      WalkEndsWaiting(tasks, p);
    }
  }

  ghost predicate Cancels(tasks: seq<Task>, which: set<nat>, now: Time, r: seq<Task>) {
    |r| == |tasks| && forall j {:trigger r[j]} :: 0 <= j < |tasks| ==> r[j] == if j in which then tasks[j].Cancel(now) else tasks[j]
  }

  lemma CanCancel(tasks: seq<Task>, which: set<nat>, now: Time)
    ensures exists r :: Cancels(tasks, which, now, r)
  {
    assert Cancels(tasks, which, now, seq(|tasks|, j requires 0 <= j < |tasks| => if j in which then tasks[j].Cancel(now) else tasks[j]));
  }

  /** Some tasks cancelled, the others as they were. */
  ghost function CancelThese(tasks: seq<Task>, which: set<nat>, now: Time): (r: seq<Task>)
    ensures |r| == |tasks|
    ensures forall j {:trigger r[j]} :: 0 <= j < |tasks| ==> r[j] == if j in which then tasks[j].Cancel(now) else tasks[j]
  {
    CanCancel(tasks, which, now);
    var r :| Cancels(tasks, which, now, r);
    r
  }

  /** Cancel everything that waits for `i`, transitively. */
  ghost function Cascade(tasks: seq<Task>, i: nat, now: Time): seq<Task> {
    CancelThese(tasks, Doomed(tasks, i), now)
  }

  // ---- closing -----------------------------------------------------------------------------

  predicate AllTerminal(tasks: seq<Task>) {
    forall j :: 0 <= j < |tasks| ==> tasks[j].state.Terminal()
  }

  predicate AllSucceeded(tasks: seq<Task>) {
    forall j :: 0 <= j < |tasks| ==> tasks[j].state == Succeeded
  }

  predicate SomeFailed(tasks: seq<Task>) {
    exists j :: 0 <= j < |tasks| && tasks[j].state == Failed
  }

  function Outcome(tasks: seq<Task>): FlowState {
    if AllSucceeded(tasks) then FlowSucceeded else if SomeFailed(tasks) then FlowFailed else FlowCancelled
  }

  function CloseIfDone(f: Flow): Flow {
    if f.state == FlowRunning && AllTerminal(f.tasks) then f.(state := Outcome(f.tasks)) else f
  }

  // ---- what a finished task sets off -------------------------------------------------------

  predicate DepsSucceeded(tasks: seq<Task>, t: Task) {
    forall d :: d in t.dependsOn ==> d < |tasks| && tasks[d].state == Succeeded
  }

  /** Whether the success of `i` lets `t` start. */
  predicate Unlocks(tasks: seq<Task>, i: nat, t: Task) {
    i in t.dependsOn && t.state == Pending && DepsSucceeded(tasks, t)
  }

  ghost predicate IsUnlocked(tasks: seq<Task>, i: nat, r: seq<Task>) {
    |r| == |tasks| && forall j {:trigger r[j]} :: 0 <= j < |tasks| ==> r[j] == if Unlocks(tasks, i, tasks[j]) then tasks[j].Readied() else tasks[j]
  }

  lemma CanUnlock(tasks: seq<Task>, i: nat)
    ensures exists r :: IsUnlocked(tasks, i, r)
  {
    assert IsUnlocked(tasks, i, seq(|tasks|, j requires 0 <= j < |tasks| => if Unlocks(tasks, i, tasks[j]) then tasks[j].Readied() else tasks[j]));
  }

  /** The tasks that `i` held back, as far as nothing else does, are READY; the others as they were. */
  ghost function Unlock(tasks: seq<Task>, i: nat): (r: seq<Task>)
    ensures |r| == |tasks|
    ensures forall j {:trigger r[j]} :: 0 <= j < |tasks| ==> r[j] == if Unlocks(tasks, i, tasks[j]) then tasks[j].Readied() else tasks[j]
  {
    CanUnlock(tasks, i);
    var r :| IsUnlocked(tasks, i, r);
    r
  }

  predicate Halts(t: Template, name: Name, output: Output) {
    exists k :: 0 <= k < |t.halts| && t.halts[k].check == name && t.halts[k].when(output)
  }

  /** The first loop over `name` that asks for another round. */
  function FirstLoop(loops: seq<Loop>, name: Name, output: Output): (r: Option<Loop>)
    ensures r.Some? ==> r.value in loops && r.value.check == name
  {
    if loops == [] then None
    else if loops[0].check == name && loops[0].again(output) then Some(loops[0])
    else FirstLoop(loops[1..], name, output)
  }

  /** The node with the name. */
  function NodeNamed(t: Template, name: Name): (r: Node)
    ensures r.name == name
  {
    match Find(t.nodes, name)
    case Some(node) => node
    case None => Node(name, [], name, 1, 100)
  }

  /** The id a new copy depends on for dependency `d`: the new copy inside the loop, the latest
      one outside it. `base` is the id of the first new copy. */
  ghost function NewDep(f: Flow, loop: Loop, d: Name): nat {
    if d in f.template.Body(loop) then |f.tasks| + IndexOf(f.template.Body(loop), d)
    else match Latest(f.tasks, d) case Some(i) => i case None => 0
  }

  ghost predicate AreNewDeps(f: Flow, loop: Loop, deps: seq<Name>, r: seq<nat>) {
    |r| == |deps| && forall q {:trigger r[q]} :: 0 <= q < |deps| ==> r[q] == NewDep(f, loop, deps[q])
  }

  lemma HasNewDeps(f: Flow, loop: Loop, deps: seq<Name>)
    ensures exists r :: AreNewDeps(f, loop, deps, r)
  {
    assert AreNewDeps(f, loop, deps, seq(|deps|, q requires 0 <= q < |deps| => NewDep(f, loop, deps[q])));
  }

  ghost function NewDeps(f: Flow, loop: Loop, deps: seq<Name>): (r: seq<nat>)
    ensures |r| == |deps|
    ensures forall q {:trigger r[q]} :: 0 <= q < |deps| ==> r[q] == NewDep(f, loop, deps[q])
  {
    HasNewDeps(f, loop, deps);
    var r :| AreNewDeps(f, loop, deps, r);
    r
  }

  ghost predicate IsFree(t: Template, loop: Loop, n: Name) {
    forall d :: d in t.Deps(n) ==> d !in t.Body(loop)
  }

  ghost function NewCopy(f: Flow, loop: Loop, n: Name): Task {
    NewTask(NodeNamed(f.template, n), NewDeps(f, loop, f.template.Deps(n)), IsFree(f.template, loop, n))
  }

  ghost predicate AreNewCopies(f: Flow, loop: Loop, body: seq<Name>, r: seq<Task>) {
    |r| == |body| && forall p {:trigger r[p]} :: 0 <= p < |r| ==> r[p] == NewCopy(f, loop, body[p])
  }

  lemma HasNewCopies(f: Flow, loop: Loop, body: seq<Name>)
    ensures exists r :: AreNewCopies(f, loop, body, r)
  {
    assert AreNewCopies(f, loop, body, seq(|body|, p requires 0 <= p < |body| => NewCopy(f, loop, body[p])));
  }

  ghost function NewCopies(f: Flow, loop: Loop): (r: seq<Task>)
    ensures |r| == |f.template.Body(loop)|
    ensures forall p {:trigger r[p]} :: 0 <= p < |r| ==> r[p] == NewCopy(f, loop, f.template.Body(loop)[p])
  {
    HasNewCopies(f, loop, f.template.Body(loop));
    var r :| AreNewCopies(f, loop, f.template.Body(loop), r);
    r
  }

  function Swap(deps: seq<nat>, old': nat, new': nat): (r: seq<nat>)
    ensures |r| == |deps|
    ensures forall q {:trigger r[q]} :: 0 <= q < |deps| ==> r[q] == if deps[q] == old' then new' else deps[q]
  {
    seq(|deps|, q requires 0 <= q < |deps| => if deps[q] == old' then new' else deps[q])
  }

  /** Whatever waited for task `i` waits for task `again` instead. */
  ghost predicate IsRepointed(tasks: seq<Task>, i: nat, again: nat, r: seq<Task>) {
    |r| == |tasks| && forall j {:trigger r[j]} :: 0 <= j < |tasks| ==> r[j] == tasks[j].(dependsOn := Swap(tasks[j].dependsOn, i, again))
  }

  lemma CanRepoint(tasks: seq<Task>, i: nat, again: nat)
    ensures exists r :: IsRepointed(tasks, i, again, r)
  {
    assert IsRepointed(tasks, i, again, seq(|tasks|, j requires 0 <= j < |tasks| => tasks[j].(dependsOn := Swap(tasks[j].dependsOn, i, again))));
  }

  ghost function Repoint(tasks: seq<Task>, i: nat, again: nat): (r: seq<Task>)
    ensures |r| == |tasks|
    ensures forall j {:trigger r[j]} :: 0 <= j < |tasks| ==> r[j] == tasks[j].(dependsOn := Swap(tasks[j].dependsOn, i, again))
  {
    CanRepoint(tasks, i, again);
    var r :| IsRepointed(tasks, i, again, r);
    r
  }

  /** The id of the new copy of the check. */
  ghost function Again(f: Flow, loop: Loop): nat {
    |f.tasks| + if loop.check in f.template.Body(loop) then IndexOf(f.template.Body(loop), loop.check) else 0
  }

  ghost function RoundTasks(f: Flow, i: nat, loop: Loop): seq<Task> {
    Repoint(f.tasks, i, Again(f, loop)) + NewCopies(f, loop)
  }

  /** Another round of `loop` after the check `i`. */
  ghost function Round(f: Flow, i: nat, loop: Loop): Flow {
    f.(tasks := RoundTasks(f, i, loop), extensions := f.extensions + [loop.check])
  }

  predicate RoundsLeft(f: Flow, loop: Loop) {
    Copies(f.tasks, loop.check) - 1 < loop.maxRounds
  }

  /** What follows when task `i` (already SUCCEEDED) ended with `output`. */
  ghost function AfterSuccess(f: Flow, i: nat, output: Output, now: Time): Flow
    requires i < |f.tasks|
  {
    if Halts(f.template, f.tasks[i].name, output) then
      CloseIfDone(f.(tasks := Cascade(f.tasks, i, now)))
    else match FirstLoop(f.template.loops, f.tasks[i].name, output)
    case Some(loop) =>
      if RoundsLeft(f, loop) then Round(f, i, loop)
      else CloseIfDone(f.(tasks := Cascade(f.tasks, i, now)))
    case None => CloseIfDone(f.(tasks := Unlock(f.tasks, i)))
  }

  /** What follows when task `i` (already FAILED or CANCELLED) ended without its work done. */
  ghost function AfterDeath(f: Flow, i: nat, now: Time): Flow {
    CloseIfDone(f.(tasks := Cascade(f.tasks, i, now)))
  }

  // ---- runs --------------------------------------------------------------------------------

  /** The tasks of a fresh run, in dependency order; each depends on the tasks of its dependencies. */
  ghost function FirstDeps(order: seq<Name>, deps: seq<Name>): (r: seq<nat>)
    ensures |r| == |deps|
    ensures forall q {:trigger r[q]} :: 0 <= q < |deps| && deps[q] in order ==> r[q] == IndexOf(order, deps[q])
  {
    seq(|deps|, q requires 0 <= q < |deps| => if deps[q] in order then IndexOf(order, deps[q]) else 0)
  }

  ghost function FirstTask(t: Template, n: Name): Task {
    NewTask(NodeNamed(t, n), FirstDeps(t.Order(), t.Deps(n)), t.Deps(n) == [])
  }

  ghost predicate AreFirstTasks(t: Template, order: seq<Name>, r: seq<Task>) {
    |r| == |order| && forall p {:trigger r[p]} :: 0 <= p < |r| ==> r[p] == FirstTask(t, order[p])
  }

  lemma HasFirstTasks(t: Template, order: seq<Name>)
    ensures exists r :: AreFirstTasks(t, order, r)
  {
    assert AreFirstTasks(t, order, seq(|order|, p requires 0 <= p < |order| => FirstTask(t, order[p])));
  }

  ghost function FirstTasks(t: Template): (r: seq<Task>)
    ensures |r| == |t.Order()|
    ensures forall p {:trigger r[p]} :: 0 <= p < |r| ==> r[p] == FirstTask(t, t.Order()[p])
  {
    HasFirstTasks(t, t.Order());
    var r :| AreFirstTasks(t, t.Order(), r);
    r
  }

  ghost function Start(t: Template): Flow {
    Flow(t, FirstTasks(t), FlowRunning, [])
  }

  /** One transaction on one task of the run. `row` is the task's row as the task manager left it
      before the engine reacts; the engine does not look at a row's claim and runs. */
  datatype Action =
    | Move(i: nat, row: Task)
    | Succeed(i: nat, row: Task, output: Output, now: Time)
    | Die(i: nat, row: Task, now: Time)
    | CancelRun(now: Time)

  /** The same task in another state, along a legal transition. */
  predicate Becomes(t: Task, row: Task) {
    row.name == t.name && row.dependsOn == t.dependsOn && row.maxAttempts == t.maxAttempts && (row.state == t.state || row.state in TaskMoves(t.state))
  }

  predicate Enabled(f: Flow, a: Action) {
    match a
    case Move(i, row) => i < |f.tasks| && Becomes(f.tasks[i], row) && f.tasks[i].state.Active() && row.state.Active()
    case Succeed(i, row, _, _) => i < |f.tasks| && Becomes(f.tasks[i], row) && f.tasks[i].state.Active() && row.state == Succeeded
    case Die(i, row, _) => i < |f.tasks| && Becomes(f.tasks[i], row) && !f.tasks[i].state.Terminal() && row.state.Dead()
    case CancelRun(_) => true
  }

  ghost function Apply(f: Flow, a: Action): Flow {
    if !Enabled(f, a) then f
    else match a
    case Move(i, row) => f.(tasks := f.tasks[i := row])
    case Succeed(i, row, output, now) => AfterSuccess(f.(tasks := f.tasks[i := row]), i, output, now)
    case Die(i, row, now) => AfterDeath(f.(tasks := f.tasks[i := row]), i, now)
    case CancelRun(now) => CloseIfDone(f.(tasks := CancelThese(f.tasks, Unfinished(f.tasks), now)))
  }

  function Unfinished(tasks: seq<Task>): set<nat> {
    set j: nat | j < |tasks| && !tasks[j].state.Terminal()
  }

  /** A run after a sequence of transactions. */
  ghost function After(t: Template, actions: seq<Action>): Flow {
    if actions == [] then Start(t)
    else Apply(After(t, actions[..|actions| - 1]), actions[|actions| - 1])
  }
}
