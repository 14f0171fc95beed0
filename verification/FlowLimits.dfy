/** Which templates are compatible, and what goes wrong in the others. */
module FlowLimits {
  import opened Wrappers
  import opened Sequences
  import opened Graphs
  import opened Lifecycles
  import opened Templates
  import opened Tasks
  import opened Flows
  import opened FlowInvariant
  import opened FlowRuns
  import opened FlowResults

  // ---- two kinds of compatible templates ---------------------------------------------------

  ghost predicate OneCheck(t: Template) {
    forall k, m :: 0 <= k < |t.loops| && 0 <= m < |t.loops| ==> t.loops[k].check == t.loops[m].check
  }

  /** Loops that all start from the same check never leave each other behind. */
  lemma OneCheckIsCompatible(t: Template)
    requires OneCheck(t)
    ensures Compatible(t)
  {
    var g := t.Graph();
    forall k, n, d {:trigger LeavesByCheck(t, t.loops[k], n, d)} | 0 <= k < |t.loops| && InSomeLoop(t, n)
      ensures LeavesByCheck(t, t.loops[k], n, d)
    {
      var m :| 0 <= m < |t.loops| && t.OnPath(t.loops[m], n);
      assert t.loops[m].check == t.loops[k].check;
      if d in t.Deps(n) && t.OnPath(t.loops[k], d) {
        StepReaches(g, n, d);
        ReachesTransitive(g, n, d, t.loops[k].backTo);
      }
    }
  }

  /** Nor do loops that are depended on only through their checks. */
  lemma ExitsByChecksIsCompatible(t: Template)
    requires ExitsByChecks(t)
    ensures Compatible(t)
  {
  }

  // ---- driving a run -----------------------------------------------------------------------

  /** The output by which the check of the `k`-th loop asks for another round. */
  function Ask(k: nat): Output { map["round" := seq(k, _ => 'x')] }

  predicate Asks(k: nat, output: Output) { "round" in output && |output["round"]| == k }

  function Driven(loop: Loop, k: nat): Loop {
    Loop(loop.check, loop.backTo, output => Asks(k, output), 1)
  }

  function DrivenFrom(loops: seq<Loop>, k: nat): (r: seq<Loop>)
    ensures |r| == |loops| && forall m {:trigger r[m]} :: 0 <= m < |loops| ==> r[m] == Driven(loops[m], k + m)
  {
    seq(|loops|, m requires 0 <= m < |loops| => Driven(loops[m], k + m))
  }

  /** The same nodes and the same loops, asking for a round when their outputs say so, without halts. */
  function Drive(t: Template): Template {
    t.(loops := DrivenFrom(t.loops, 0), halts := [])
  }

  lemma DriveKeepsPaths(t: Template)
    ensures |Drive(t).loops| == |t.loops| && Drive(t).nodes == t.nodes
    ensures forall k, n {:trigger Drive(t).OnPath(Drive(t).loops[k], n)} ::
              0 <= k < |t.loops| ==> (Drive(t).OnPath(Drive(t).loops[k], n) <==> t.OnPath(t.loops[k], n))
    ensures t.Valid() ==> Drive(t).Valid()
  {
    var d := Drive(t);
    assert d.Graph() == t.Graph();
    forall l | t.Valid() && l in d.loops ensures d.ValidLoop(l) {
      var k :| 0 <= k < |d.loops| && d.loops[k] == l;
      assert t.ValidLoop(t.loops[k]);
    }
  }

  lemma {:induction false} FirstAsking(loops: seq<Loop>, base: nat, k: nat)
    requires k < |loops|
    ensures FirstLoop(DrivenFrom(loops, base), loops[k].check, Ask(base + k)) == Some(Driven(loops[k], base + k))
  {
    var r := DrivenFrom(loops, base);
    assert Asks(base, Ask(base + k)) <==> k == 0;
    if k > 0 {
      assert r[1..] == DrivenFrom(loops[1..], base + 1);
      FirstAsking(loops[1..], base + 1, k - 1);
    } else {
      assert r[0] == Driven(loops[0], base);
    }
  }

  lemma {:induction false} NoneAsking(loops: seq<Loop>, base: nat, name: Name)
    ensures FirstLoop(DrivenFrom(loops, base), name, map[]) == None
  {
    var r := DrivenFrom(loops, base);
    if loops != [] {
      assert r[0] == Driven(loops[0], base);
      assert r[1..] == DrivenFrom(loops[1..], base + 1);
      NoneAsking(loops[1..], base + 1, name);
    }
  }

  ghost predicate StateIs(tasks: seq<Task>, names: seq<Name>, j: nat)
    requires j < |tasks|
  {
    if tasks[j].name in names then tasks[j].state == Succeeded else tasks[j].state in {Pending, Ready}
  }

  /** The first tasks, where those named have succeeded and the others have not been started. */
  ghost predicate Worked(t: Template, f: Flow, names: seq<Name>) {
    && Safe(f) && f.template == t && SameGraph(FirstTasks(t), f.tasks) && f.extensions == []
    && forall j: nat :: j < |f.tasks| ==> StateIs(f.tasks, names, j)
  }

  /** Each name after its dependencies. */
  ghost predicate UpwardClosed(t: Template, names: seq<Name>) {
    forall p: nat :: p < |names| ==> t.Has(names[p]) && Elements(t.Deps(names[p])) <= Elements(names[..p])
  }

  /** Nobody asks for anything. */
  ghost predicate Quiet(t: Template) {
    t.halts == [] && forall n {:trigger FirstLoop(t.loops, n, map[])} :: FirstLoop(t.loops, n, map[]) == None
  }

  lemma ReadyToWork(t: Template, f: Flow, names: seq<Name>, n: Name) returns (j: nat)
    requires t.Valid() && Worked(t, f, names) && t.Has(n) && n !in names && Elements(t.Deps(n)) <= Elements(names)
    ensures Latest(f.tasks, n) == Some(j) && f.tasks[j].state == Ready
  {
    j := Latest(f.tasks, n).value;
    assert CopyOf(t, f.tasks, j) && Gated(f.tasks, j) && StateIs(f.tasks, names, j);
    forall d | d in f.tasks[j].dependsOn ensures d < |f.tasks| && f.tasks[d].state == Succeeded {
      var q :| 0 <= q < |f.tasks[j].dependsOn| && f.tasks[j].dependsOn[q] == d;
      assert t.Deps(n)[q] in Elements(t.Deps(n)) && StateIs(f.tasks, names, d);
    }
  }

  function Done(tasks: seq<Task>, j: nat): Task
    requires j < |tasks|
  {
    tasks[j].(state := Succeeded)
  }

  /** While no round has been added, a node has one copy. */
  lemma OneCopy(t: Template, tasks: seq<Task>, j: nat, k: nat)
    requires t.Valid() && SameGraph(FirstTasks(t), tasks) && j < |tasks| && k < |tasks| && tasks[j].name == tasks[k].name
    ensures j == k
  {
    t.OrderIsDependencyOrder();
    assert FirstTasks(t)[j].name == FirstTasks(t)[k].name;
    SamePlace(t.Order(), j, k);
  }

  lemma WorkedState(t: Template, f: Flow, names: seq<Name>, n: Name, j: nat, k: nat)
    requires t.Valid() && Worked(t, f, names) && j < |f.tasks| && f.tasks[j].name == n && k < |f.tasks|
    ensures StateIs(Unlock(f.tasks[j := Done(f.tasks, j)], j), names + [n], k)
  {
    assert StateIs(f.tasks, names, k);
    if f.tasks[k].name == n { OneCopy(t, f.tasks, j, k); }
  }

  lemma QuietSuccess(t: Template, f: Flow, j: nat, a: Action)
    requires Quiet(t) && f.template == t && j < |f.tasks| && f.tasks[j].state == Ready
    requires a == Succeed(j, Done(f.tasks, j), map[], 0)
    ensures Apply(f, a) == CloseIfDone(f.(tasks := Unlock(f.tasks[j := Done(f.tasks, j)], j)))
  {
    assert FirstLoop(t.loops, f.tasks[j].name, map[]) == None;
    assert Enabled(f, a);
  }

  /** The work of one ready task done, and nothing else. */
  lemma WorkedOn(t: Template, f: Flow, names: seq<Name>, n: Name, j: nat)
    requires t.Valid() && Worked(t, f, names) && j < |f.tasks| && f.tasks[j].name == n && f.tasks[j].state == Ready
    ensures Worked(t, CloseIfDone(f.(tasks := Unlock(f.tasks[j := Done(f.tasks, j)], j))), names + [n])
  {
    var tasks := f.tasks[j := Done(f.tasks, j)];
    UnlockedAndClosed(f, tasks, j);
    forall k: nat | k < |tasks| ensures StateIs(Unlock(tasks, j), names + [n], k) { WorkedState(t, f, names, n, j, k); }
    assert SameGraph(FirstTasks(t), Unlock(tasks, j));
  }

  lemma WorkOne(t: Template, f: Flow, names: seq<Name>, n: Name) returns (a: Action)
    requires t.Valid() && Quiet(t) && Worked(t, f, names) && t.Has(n) && n !in names && Elements(t.Deps(n)) <= Elements(names)
    ensures Worked(t, Apply(f, a), names + [n])
  {
    var j := ReadyToWork(t, f, names, n);
    a := Succeed(j, Done(f.tasks, j), map[], 0);
    QuietSuccess(t, f, j, a);
    WorkedOn(t, f, names, n, j);
  }

  lemma NothingDone(t: Template)
    requires t.Valid()
    ensures Worked(t, After(t, []), [])
  {
    StartKeeps(t);
    forall j: nat | j < |FirstTasks(t)| ensures StateIs(FirstTasks(t), [], j) {}
  }

  lemma UpwardClosedInit(t: Template, names: seq<Name>, k: nat)
    requires UpwardClosed(t, names) && k <= |names|
    ensures UpwardClosed(t, names[..k])
    ensures k < |names| ==> t.Has(names[k]) && Elements(t.Deps(names[k])) <= Elements(names[..k])
  {
    forall p: nat | p < k ensures t.Has(names[..k][p]) && Elements(t.Deps(names[..k][p])) <= Elements(names[..k][..p]) {
      assert names[..k][..p] == names[..p];
    }
  }

  /** All nodes of an upward closed list can be run to success, one after the other. */
  lemma {:induction false} WorkAll(t: Template, names: seq<Name>) returns (actions: seq<Action>)
    requires t.Valid() && Quiet(t) && Distinct(names) && UpwardClosed(t, names)
    ensures Worked(t, After(t, actions), names)
  {
    if names == [] {
      actions := [];
      NothingDone(t);
    } else {
      var k := |names| - 1;
      DistinctInit(names, k);
      UpwardClosedInit(t, names, k);
      var before := WorkAll(t, names[..k]);
      var a := WorkOne(t, After(t, before), names[..k], names[k]);
      actions := before + [a];
      OneMore(t, before, a);
      InitAndLast(names);
    }
  }

  ghost function ReachingNone(t: Template, stops: set<Name>): Name -> bool {
    n => forall s :: s in stops ==> !Reaches(t.Graph(), n, s)
  }

  /** The nodes that are not among the stops and depend on none of them. */
  ghost function Clear(t: Template, stops: set<Name>): seq<Name> {
    Filter(t.Order(), ReachingNone(t, stops))
  }

  lemma ClearIsUpwardClosed(t: Template, stops: set<Name>)
    requires t.Valid()
    ensures Distinct(Clear(t, stops)) && UpwardClosed(t, Clear(t, stops))
  {
    var names, keep := Clear(t, stops), ReachingNone(t, stops);
    t.OrderIsDependencyOrder();
    FilterKeepsDistinct(t.Order(), keep);
    forall p: nat | p < |names| ensures t.Has(names[p]) && Elements(t.Deps(names[p])) <= Elements(names[..p]) {
      FilterHolds(t.Order(), keep, names[p]);
      forall d | d in t.Deps(names[p]) ensures d in names[..p] {
        forall s | s in stops ensures !Reaches(t.Graph(), d, s) {
          StepReaches(t.Graph(), names[p], d);
          if Reaches(t.Graph(), d, s) { ReachesTransitive(t.Graph(), names[p], d, s); }
        }
        FilterKeepsDepsFirst(t.nodes, t.Order(), keep, p, d);
      }
    }
  }

  /** A stop whose own dependencies are clear of the stops can be run next. */
  lemma StopIsNext(t: Template, stops: set<Name>, c: Name)
    requires t.Valid() && c in stops && t.Has(c)
    requires forall s :: s in stops && s != c ==> !Reaches(t.Graph(), c, s)
    ensures c !in Clear(t, stops) && Elements(t.Deps(c)) <= Elements(Clear(t, stops))
  {
    var g, keep := t.Graph(), ReachingNone(t, stops);
    ReachesSelf(g, c);
    FilterHolds(t.Order(), keep, c);
    t.OrderIsDependencyOrder();
    forall d | d in t.Deps(c) ensures d in Clear(t, stops) {
      StepReaches(g, c, d);
      forall s | s in stops ensures !Reaches(g, d, s) {
        if Reaches(g, d, s) {
          ReachesTransitive(g, c, d, s);
          LeadsThenReaches(g, c, d, s);
        }
      }
      assert d in DepsOf(t.nodes, c);
      FilterHolds(t.Order(), keep, d);
    }
  }

  lemma DriveIsQuiet(t: Template)
    ensures Quiet(Drive(t))
  {
    forall n { NoneAsking(t.loops, 0, n); }
  }

  lemma DrivenAnswer(t: Template, k: nat)
    requires k < |t.loops|
    ensures FirstLoop(Drive(t).loops, t.loops[k].check, Ask(k)) == Some(Drive(t).loops[k])
    ensures Drive(t).loops[k].check == t.loops[k].check && Drive(t).loops[k].maxRounds == 1
  {
    FirstAsking(t.loops, 0, k);
    assert Drive(t).loops[k] == Driven(t.loops[k], k);
  }

  /** A READY check that asks, in a driven run, gets its round. */
  lemma AskingGetsRound(t: Template, f: Flow, j: nat, k: nat)
    requires f.template == Drive(t) && k < |t.loops| && j < |f.tasks|
    requires f.tasks[j].name == t.loops[k].check && f.tasks[j].state == Ready && Copies(f.tasks, f.tasks[j].name) == 1
    ensures Apply(f, Succeed(j, Done(f.tasks, j), Ask(k), 0)) == Round(f.(tasks := f.tasks[j := Done(f.tasks, j)]), j, Drive(t).loops[k])
  {
    var a := Succeed(j, Done(f.tasks, j), Ask(k), 0);
    var f1 := f.(tasks := f.tasks[j := Done(f.tasks, j)]);
    DrivenAnswer(t, k);
    LatestByNames(f.tasks, f1.tasks, f.tasks[j].name);
    assert Enabled(f, a);
    assert RoundsLeft(f1, Drive(t).loops[k]);
  }

  lemma CopiesOfOne(t: Template, f: Flow, n: Name, j: nat)
    requires t.Valid() && SameGraph(FirstTasks(t), f.tasks) && j < |f.tasks| && f.tasks[j].name == n
    ensures Copies(f.tasks, n) == 1
  {
    forall i | 0 <= i < |f.tasks| && f.tasks[i].name == n ensures i == j { OneCopy(t, f.tasks, i, j); }
    LatestOfDistinct(f.tasks, n, j, |f.tasks|);
  }
}
