/** Every task of the queue is its node's: for the node's role, with its priority and as many attempts
    (backend/autora/runtime/dag.py:218-275, 371-391; task_manager.py:191-274). */
module QueueRoles {
  import opened Templates
  import opened Tasks
  import opened Rows
  import opened Flows
  import opened FlowRounds
  import opened Queue
  import opened QueueWrites

  predicate IsOf(node: Node, t: Task) {
    t.name == node.name && t.role == node.role && t.priority == node.priority && t.maxAttempts == node.maxAttempts
  }

  /** The task is one of the template's nodes. */
  ghost predicate HasNode(t: Template, row: Task) {
    exists k :: 0 <= k < |t.nodes| && IsOf(t.nodes[k], row)
  }

  ghost predicate AllHave(t: Template, tasks: seq<Task>) {
    forall j {:trigger tasks[j]} :: 0 <= j < |tasks| ==> HasNode(t, tasks[j])
  }

  predicate SameCard(was: Task, now: Task) {
    now.name == was.name && now.role == was.role && now.priority == was.priority && now.maxAttempts == was.maxAttempts
  }

  lemma SameCardSameNode(t: Template, was: Task, now: Task)
    requires HasNode(t, was) && SameCard(was, now)
    ensures HasNode(t, now)
  {
    var k :| 0 <= k < |t.nodes| && IsOf(t.nodes[k], was);
    assert IsOf(t.nodes[k], now);
  }

  lemma SameCards(t: Template, before: seq<Task>, after: seq<Task>)
    requires AllHave(t, before) && |after| == |before|
    requires forall j {:trigger after[j]} :: 0 <= j < |after| ==> SameCard(before[j], after[j])
    ensures AllHave(t, after)
  {
    forall j | 0 <= j < |after| ensures HasNode(t, after[j]) { SameCardSameNode(t, before[j], after[j]); }
  }

  lemma NewTaskHas(t: Template, n: Name, deps: seq<nat>, ready: bool)
    requires t.Valid() && t.Has(n)
    ensures HasNode(t, NewTask(NodeNamed(t, n), deps, ready))
  {
    FindFinds(t.nodes, n);
    var k :| 0 <= k < |t.nodes| && t.nodes[k] == NodeNamed(t, n);
    assert IsOf(t.nodes[k], NewTask(NodeNamed(t, n), deps, ready));
  }

  lemma RoundHas(f: Flow, i: nat, loop: Loop)
    requires f.template.Valid() && loop in f.template.loops && AllHave(f.template, f.tasks)
    ensures AllHave(f.template, RoundTasks(f, i, loop))
  {
    var old', new' := Repoint(f.tasks, i, Again(f, loop)), NewCopies(f, loop);
    SameCards(f.template, f.tasks, old');
    forall p | 0 <= p < |new'| ensures HasNode(f.template, new'[p]) {
      var n := f.template.Body(loop)[p];
      BodyIsPath(f.template, loop, n);
      NewTaskHas(f.template, n, NewDeps(f, loop, f.template.Deps(n)), IsFree(f.template, loop, n));
    }
  }

  lemma CascadeHas(t: Template, tasks: seq<Task>, i: nat, now: Time)
    requires AllHave(t, tasks)
    ensures AllHave(t, Cascade(tasks, i, now))
  {
    SameCards(t, tasks, Cascade(tasks, i, now));
  }

  lemma SuccessHas(f: Flow, i: nat, output: Output, now: Time)
    requires f.template.Valid() && i < |f.tasks| && AllHave(f.template, f.tasks)
    ensures AllHave(f.template, AfterSuccess(f, i, output, now).tasks)
  {
    CascadeHas(f.template, f.tasks, i, now);
    SameCards(f.template, f.tasks, Unlock(f.tasks, i));
    var loop := FirstLoop(f.template.loops, f.tasks[i].name, output);
    if loop.Some? { RoundHas(f, i, loop.value); }
  }

  lemma ApplyHas(f: Flow, a: Action)
    requires f.template.Valid() && AllHave(f.template, f.tasks)
    requires !a.CancelRun? && a.i < |f.tasks| ==> SameCard(f.tasks[a.i], a.row)
    ensures AllHave(f.template, Apply(f, a).tasks)
  {
    if Enabled(f, a) {
      if a.CancelRun? {
        SameCards(f.template, f.tasks, CancelThese(f.tasks, Unfinished(f.tasks), a.now));
      } else {
        var f1 := f.(tasks := f.tasks[a.i := a.row]);
        SameCards(f.template, f.tasks, f1.tasks);
        if a.Succeed? { SuccessHas(f1, a.i, a.output, a.now); }
        if a.Die? { CascadeHas(f.template, f1.tasks, a.i, a.now); }
      }
    }
  }

  lemma StartHas(t: Template)
    requires t.Valid()
    ensures AllHave(t, FirstTasks(t))
  {
    t.OrderIsDependencyOrder();
    forall p | 0 <= p < |FirstTasks(t)| ensures HasNode(t, FirstTasks(t)[p]) {
      assert t.Order()[p] in t.Order();
      NewTaskHas(t, t.Order()[p], FirstDeps(t.Order(), t.Deps(t.Order()[p])), t.Deps(t.Order()[p]) == []);
    }
  }

  // ---- the queue ---------------------------------------------------------------------------------

  lemma OutcomeHas(t: Task, set': Settings, s: Step)
    ensures OutcomeOf(t, set', s).Refused? || SameCard(t, OutcomeOf(t, set', s).row)
  {
  }

  lemma ActionHas(w: World, set': Settings, s: Step)
    requires ActionOf(w, set', s).Some?
    ensures FlowOf(s) < |w.flows|
    ensures var a := ActionOf(w, set', s).value;
            !a.CancelRun? && a.i < |w.flows[FlowOf(s)].tasks| ==> SameCard(w.flows[FlowOf(s)].tasks[a.i], a.row)
  {
    if !s.Stopping? && !s.Claiming? { OutcomeHas(w.Row(Target(s).0, Target(s).1), set', s); }
  }

  ghost predicate FlowHas(f: Flow) {
    f.template.Valid() && AllHave(f.template, f.tasks)
  }

  ghost predicate QueueHas(w: World) {
    forall r {:trigger w.flows[r]} :: 0 <= r < |w.flows| ==> FlowHas(w.flows[r])
  }

  lemma NextHas(w: World, set': Settings, s: Step)
    requires QueueHas(w)
    ensures QueueHas(Next(w, set', s))
  {
    if s.Instantiate? {
      if Usable(s.template) { StartHas(s.template); }
    } else if ActionOf(w, set', s).Some? {
      var a, r := ActionOf(w, set', s).value, FlowOf(s);
      ActionHas(w, set', s);
      ApplyHas(w.flows[r], a);
      ApplyKeepsTemplate(w.flows[r], a);
    }
  }

  lemma {:induction false} ReachedHas(set': Settings, steps: seq<Step>)
    ensures QueueHas(Reached(set', steps))
  {
    if steps != [] {
      ReachedHas(set', steps[..|steps| - 1]);
      NextHas(Reached(set', steps[..|steps| - 1]), set', steps[|steps| - 1]);
    }
  }

  /** In every reachable queue each task, copies of any round included, is one of its template's nodes: it has
      that node's name, role, priority and number of attempts, whatever was done to it since. */
  lemma TasksAreTheirNodes(set': Settings, steps: seq<Step>, r: nat, i: nat)
    requires Reached(set', steps).Has(r, i)
    ensures var f := Reached(set', steps).flows[r];
            HasNode(f.template, f.tasks[i])
  {
    ReachedHas(set', steps);
    var f := Reached(set', steps).flows[r];
    assert FlowHas(f);
  }
}
