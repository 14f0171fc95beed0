/** Where the template conditions are exact, and the runs that show it. */
module FlowExactness {
  import opened Wrappers
  import opened Sequences
  import opened Graphs
  import opened Lifecycles
  import opened Templates
  import opened Tasks
  import opened Flows
  import opened FlowInvariant
  import opened FlowRounds
  import opened FlowRoundSafety
  import opened FlowRuns
  import opened FlowResults
  import opened FlowBounds
  import opened FlowLimits

  // ---- the newest copies depend on the newest copies ---------------------------------------

  ghost predicate UpToDateAt(tasks: seq<Task>, j: nat, d: nat)
    requires j < |tasks|
  {
    IsLatest(tasks, j) && d in tasks[j].dependsOn ==> d < |tasks| && IsLatest(tasks, d)
  }

  /** The newest copy of every node depends on the newest copies of its dependencies. */
  ghost predicate UpToDate(tasks: seq<Task>) {
    forall j: nat, d: nat {:trigger UpToDateAt(tasks, j, d)} :: j < |tasks| ==> UpToDateAt(tasks, j, d)
  }

  lemma ExitsByChecksStaysUpToDate(t: Template, actions: seq<Action>)
    requires t.Valid() && ExitsByChecks(t)
    ensures UpToDate(After(t, actions).tasks)
  {
    ExitsByChecksIsCompatible(t);
    RunKeeps(t, actions);
    var tasks := After(t, actions).tasks;
    forall j: nat, d: nat | j < |tasks| ensures UpToDateAt(tasks, j, d) { assert WiredAt(t, tasks, j); }
  }

  /** A round renews a dependency of a node it does not repeat, other than the check: the node's
      newest copy is left with an older copy of it. */
  lemma RoundLeavesBehind(t: Template, loop: Loop, tasks: seq<Task>, i: nat, again: nat, after: seq<Task>, n: Name, q: nat)
    requires Grown(t, loop, tasks, i, again, after) && i < |tasks| && tasks[i].name == loop.check
    requires forall j: nat :: j < |tasks| ==> CopyOf(t, tasks, j)
    requires t.Has(n) && !t.OnPath(loop, n) && q < |t.Deps(n)| && t.OnPath(loop, t.Deps(n)[q]) && t.Deps(n)[q] != loop.check
    ensures !UpToDate(after)
  {
    assert RenewedAt(t, loop, tasks, after, n);
    var j := Latest(after, n).value;
    assert KeptAt(tasks, i, again, after, j) && CopyOf(t, tasks, j);
    var d := tasks[j].dependsOn[q];
    assert after[j].dependsOn[q] == d && tasks[d].name == t.Deps(n)[q];
    assert KeptAt(tasks, i, again, after, d) && CopyOf(t, tasks, d);
    assert RenewedAt(t, loop, tasks, after, t.Deps(n)[q]);
    assert d in after[j].dependsOn && !UpToDateAt(after, j, d);
  }

  ghost predicate AtAsking(t: Template, actions: seq<Action>, stops: set<Name>, c: Name, j: nat) {
    && Worked(t, After(t, actions), Clear(t, stops)) && Sound(After(t, actions))
    && j < |After(t, actions).tasks| && After(t, actions).tasks[j].name == c && After(t, actions).tasks[j].state == Ready
    && Copies(After(t, actions).tasks, c) == 1
  }

  /** Run everything but some checks and what comes after them: each of these checks that does not
      wait for another one is READY. */
  lemma RunUpTo(t: Template, stops: set<Name>, c: Name) returns (actions: seq<Action>, j: nat)
    requires t.Valid() && Quiet(t) && t.Has(c) && c in stops
    requires forall s :: s in stops && s != c ==> !Reaches(t.Graph(), c, s)
    ensures AtAsking(t, actions, stops, c, j)
  {
    ClearIsUpwardClosed(t, stops);
    actions := WorkAll(t, Clear(t, stops));
    j := StopIsReady(t, actions, stops, c);
  }

  lemma StopIsReady(t: Template, actions: seq<Action>, stops: set<Name>, c: Name) returns (j: nat)
    requires t.Valid() && t.Has(c) && c in stops && Worked(t, After(t, actions), Clear(t, stops))
    requires forall s :: s in stops && s != c ==> !Reaches(t.Graph(), c, s)
    ensures AtAsking(t, actions, stops, c, j)
  {
    StopIsNext(t, stops, c);
    RunIsSound(t, actions);
    j := ReadyToWork(t, After(t, actions), Clear(t, stops), c);
    CopiesOfOne(t, After(t, actions), c, j);
  }

  ghost function Asked(f: Flow, j: nat): Flow
    requires j < |f.tasks|
  {
    f.(tasks := f.tasks[j := Done(f.tasks, j)])
  }

  /** The check asks: one more transaction adds the round. */
  lemma AskNow(t: Template, actions: seq<Action>, j: nat, k: nat) returns (more: seq<Action>)
    requires t.Valid() && k < |t.loops| && Sound(After(Drive(t), actions)) && After(Drive(t), actions).template == Drive(t)
    requires var f := After(Drive(t), actions);
             j < |f.tasks| && f.tasks[j].name == t.loops[k].check && f.tasks[j].state == Ready && Copies(f.tasks, f.tasks[j].name) == 1
    ensures After(Drive(t), more) == Round(Asked(After(Drive(t), actions), j), j, Drive(t).loops[k])
    ensures Sound(Asked(After(Drive(t), actions), j))
  {
    var f := After(Drive(t), actions);
    var a := Succeed(j, Done(f.tasks, j), Ask(k), 0);
    more := actions + [a];
    AskingGetsRound(t, f, j, k);
    OneMore(Drive(t), actions, a);
    BoundedWithSameGraph(f, Asked(f, j));
  }

  /** Where a loop is left otherwise than by its check, some run leaves a copy behind. */
  lemma OtherExitsLeaveBehind(t: Template, k: nat, n: Name, d: Name) returns (actions: seq<Action>)
    requires t.Valid() && k < |t.loops| && !LeavesByCheck(t, t.loops[k], n, d)
    ensures !UpToDate(After(Drive(t), actions).tasks)
  {
    var t', c := Drive(t), t.loops[k].check;
    DriveKeepsPaths(t);
    DriveIsQuiet(t);
    assert t.ValidLoop(t.loops[k]);
    var before, j := RunUpTo(t', {c}, c);
    actions := AskNow(t, before, j, k);
    RoundLeavesSomething(t, Asked(After(t', before), j), j, k, n, d);
  }

  lemma RoundLeavesSomething(t: Template, f: Flow, j: nat, k: nat, n: Name, d: Name)
    requires t.Valid() && k < |t.loops| && !LeavesByCheck(t, t.loops[k], n, d)
    requires f.template == Drive(t) && Sound(f) && j < |f.tasks| && f.tasks[j].name == t.loops[k].check
    ensures !UpToDate(Round(f, j, Drive(t).loops[k]).tasks)
  {
    var loop := Drive(t).loops[k];
    DriveKeepsPaths(t);
    assert loop == Driven(t.loops[k], k);
    assert Drive(t).Deps(n) == t.Deps(n);
    FindFinds(t.nodes, n);
    var q: nat :| q < |t.Deps(n)| && t.Deps(n)[q] == d;
    RoundGrows(f, j, loop);
    RoundLeavesBehind(Drive(t), loop, f.tasks, j, Again(f, loop), RoundTasks(f, j, loop), n, q);
  }

  ghost predicate SameStructure(a: Template, b: Template) {
    && a.nodes == b.nodes && |a.loops| == |b.loops|
    && forall k :: 0 <= k < |a.loops| ==> a.loops[k].check == b.loops[k].check && a.loops[k].backTo == b.loops[k].backTo
  }

  /** For the nodes and loops of a template, whatever its loops ask, how often they may, and where
      it halts: in every run every newest copy depends on the newest copies of its dependencies if
      and only if each loop is left by its check alone. */
  lemma UpToDateIffExitsByChecks(t: Template)
    requires t.Valid()
    ensures ExitsByChecks(t) <==>
            forall u: Template, actions: seq<Action> {:trigger After(u, actions)} ::
              SameStructure(t, u) && u.Valid() ==> UpToDate(After(u, actions).tasks)
  {
    if ExitsByChecks(t) {
      forall u: Template, actions: seq<Action> | SameStructure(t, u) && u.Valid() ensures UpToDate(After(u, actions).tasks) {
        SameExits(t, u);
        ExitsByChecksStaysUpToDate(u, actions);
      }
    } else {
      var k, n, d :| 0 <= k < |t.loops| && !LeavesByCheck(t, t.loops[k], n, d);
      var actions := OtherExitsLeaveBehind(t, k, n, d);
      DriveKeepsPaths(t);
      assert SameStructure(t, Drive(t));
    }
  }

  lemma SameExits(t: Template, u: Template)
    requires SameStructure(t, u) && ExitsByChecks(t)
    ensures ExitsByChecks(u)
  {
    assert u.Graph() == t.Graph();
    forall k, n, d {:trigger LeavesByCheck(u, u.loops[k], n, d)} | 0 <= k < |u.loops| ensures LeavesByCheck(u, u.loops[k], n, d) {
      assert LeavesByCheck(t, t.loops[k], n, d);
    }
  }

  // ---- readiness -----------------------------------------------------------------------------

  /** Two loops whose checks do not wait for each other, the first node of the second depending on
      a node the first repeats. */
  ghost predicate Apart(t: Template, k: nat, m: nat, d: Name) {
    && k < |t.loops| && m < |t.loops|
    && !Reaches(t.Graph(), t.loops[k].check, t.loops[m].check) && !Reaches(t.Graph(), t.loops[m].check, t.loops[k].check)
    && d in t.Deps(t.loops[m].backTo) && t.OnPath(t.loops[k], d)
  }

  /** A task that was let go although a dependency has not succeeded. */
  ghost predicate Unsafe(tasks: seq<Task>, j: nat) {
    j < |tasks| && tasks[j].state == Ready && !DepsSucceeded(tasks, tasks[j])
  }

  /** The first check has asked; the second is still READY, the renewed node not done. */
  ghost predicate Midway(t: Template, k: nat, m: nat, d: Name, f: Flow, j: nat) {
    && Sound(f) && f.template == Drive(t) && m < |t.loops| && j < |f.tasks| && f.tasks[j].name == t.loops[m].check
    && f.tasks[j].state == Ready && Copies(f.tasks, f.tasks[j].name) == 1
    && Latest(f.tasks, d).Some? && f.tasks[Latest(f.tasks, d).value].state in {Ready, Pending} && Latest(f.tasks, d) != Some(j)
  }

  lemma RoundLeavesMidway(t: Template, k: nat, m: nat, d: Name, f: Flow, i: nat, j: nat)
    requires t.Valid() && Apart(t, k, m, d)
    requires f.template == Drive(t) && Sound(f) && i < |f.tasks| && f.tasks[i].name == t.loops[k].check
    requires Sound(Round(f, i, Drive(t).loops[k]))
    requires j < |f.tasks| && f.tasks[j].name == t.loops[m].check && f.tasks[j].state == Ready && Copies(f.tasks, f.tasks[j].name) == 1
    ensures Midway(t, k, m, d, Round(f, i, Drive(t).loops[k]), j)
  {
    var u, loop := Drive(t), Drive(t).loops[k];
    DriveKeepsPaths(t);
    assert loop == Driven(t.loops[k], k) && t.ValidLoop(t.loops[k]) && u.ValidLoop(loop);
    RoundGrows(f, i, loop);
    var after := RoundTasks(f, i, loop);
    assert KeptAt(f.tasks, i, Again(f, loop), after, j);
    assert !u.OnPath(loop, t.loops[m].check);
    RoundRenews(f, i, loop, t.loops[m].check);
    BodyIsPath(u, loop, d);
    assert RenewedAt(u, loop, f.tasks, after, d);
    assert FreshAt(u, loop, after, Latest(after, d).value);
  }

  lemma FirstIsReady(u: Template, loop: Loop, f: Flow, j: nat) returns (e: nat)
    requires u.Valid() && u.ValidLoop(loop) && f.template == u && Sound(f)
    ensures var after := RoundTasks(f, j, loop); FreshAt(u, loop, after, e) && after[e].name == loop.backTo
  {
    RoundGrows(f, j, loop);
    BodyEnds(u, loop);
    BodyIsPath(u, loop, loop.backTo);
    assert RenewedAt(u, loop, f.tasks, RoundTasks(f, j, loop), loop.backTo);
    e := Latest(RoundTasks(f, j, loop), loop.backTo).value;
    assert FreshAt(u, loop, RoundTasks(f, j, loop), e);
  }

  lemma OutsideStays(u: Template, loop: Loop, f: Flow, j: nat, d: Name)
    requires u.Valid() && u.ValidLoop(loop) && f.template == u && Sound(f)
    requires u.Has(d) && !u.OnPath(loop, d)
    ensures var after := RoundTasks(f, j, loop);
            Latest(after, d) == Latest(f.tasks, d) && Latest(f.tasks, d).Some? && SameStateAt(f.tasks, after, Latest(f.tasks, d).value)
  {
    RoundGrows(f, j, loop);
    assert RenewedAt(u, loop, f.tasks, RoundTasks(f, j, loop), d);
    assert KeptAt(f.tasks, j, Again(f, loop), RoundTasks(f, j, loop), Latest(f.tasks, d).value);
  }

  lemma ReadyOnOld(u: Template, loop: Loop, after: seq<Task>, e: nat, d: Name)
    requires FreshAt(u, loop, after, e) && after[e].name == loop.backTo && d in u.Deps(loop.backTo)
    requires Latest(after, d).Some? && after[Latest(after, d).value].state != Succeeded
    ensures Unsafe(after, e)
  {
    var q: nat :| q < |u.Deps(loop.backTo)| && u.Deps(loop.backTo)[q] == d;
    assert after[e].dependsOn[q] in after[e].dependsOn;
  }

  lemma SecondRoundIsUnsafe(t: Template, k: nat, m: nat, d: Name, f: Flow, j: nat) returns (e: nat)
    requires t.Valid() && Apart(t, k, m, d) && Midway(t, k, m, d, f, j) && Sound(Asked(f, j))
    ensures Unsafe(Round(Asked(f, j), j, Drive(t).loops[m]).tasks, e)
  {
    var u, loop, f1 := Drive(t), Drive(t).loops[m], Asked(f, j);
    DriveKeepsPaths(t);
    assert loop == Driven(t.loops[m], m) && t.ValidLoop(t.loops[m]) && u.ValidLoop(loop) && u.Deps(loop.backTo) == t.Deps(loop.backTo);
    FirstDepIsOld(u, loop, d);
    LatestByNames(f.tasks, f1.tasks, d);
    e := FirstIsReady(u, loop, f1, j);
    OutsideStays(u, loop, f1, j, d);
    ReadyOnOld(u, loop, RoundTasks(f1, j, loop), e, d);
  }

  lemma FirstDepIsOld(t: Template, loop: Loop, d: Name)
    requires t.Valid() && t.ValidLoop(loop) && d in t.Deps(loop.backTo)
    ensures !t.OnPath(loop, d) && t.Has(d)
  {
    assert d in DepsOf(t.nodes, loop.backTo);
    ReachesSelf(t.Graph(), loop.backTo);
    t.OnlyFirstIsFree(loop, loop.backTo);
  }

  lemma BothAreReady(t: Template, a: Name, b: Name) returns (actions: seq<Action>, i: nat, j: nat)
    requires t.Valid() && Quiet(t) && t.Has(a) && t.Has(b) && a != b
    requires !Reaches(t.Graph(), a, b) && !Reaches(t.Graph(), b, a)
    ensures AtAsking(t, actions, {a, b}, a, i) && AtAsking(t, actions, {a, b}, b, j)
  {
    actions, i := RunUpTo(t, {a, b}, a);
    j := StopIsReady(t, actions, {a, b}, b);
  }

  lemma AsksWhileReady(t: Template, k: nat, m: nat, d: Name, before: seq<Action>, i: nat, j: nat) returns (actions: seq<Action>)
    requires t.Valid() && Apart(t, k, m, d) && Drive(t).Valid()
    requires AtAsking(Drive(t), before, {t.loops[k].check, t.loops[m].check}, t.loops[k].check, i)
    requires AtAsking(Drive(t), before, {t.loops[k].check, t.loops[m].check}, t.loops[m].check, j)
    ensures Midway(t, k, m, d, After(Drive(t), actions), j)
  {
    var f := After(Drive(t), before);
    actions := AskNow(t, before, i, k);
    RunIsSound(Drive(t), actions);
    assert t.loops[k].check != t.loops[m].check by { ReachesSelf(t.Graph(), t.loops[k].check); }
    LatestByNames(f.tasks, Asked(f, i).tasks, t.loops[m].check);
    RoundLeavesMidway(t, k, m, d, Asked(f, i), i, j);
  }

  lemma FirstAsks(t: Template, k: nat, m: nat, d: Name) returns (actions: seq<Action>, j: nat)
    requires t.Valid() && Apart(t, k, m, d)
    ensures Midway(t, k, m, d, After(Drive(t), actions), j)
  {
    var u, a, b := Drive(t), t.loops[k].check, t.loops[m].check;
    DriveKeepsPaths(t);
    DriveIsQuiet(t);
    assert t.ValidLoop(t.loops[k]) && t.ValidLoop(t.loops[m]);
    ReachesSelf(t.Graph(), a);
    var before, i;
    before, i, j := BothAreReady(u, a, b);
    actions := AsksWhileReady(t, k, m, d, before, i, j);
  }

  /** Readiness is not safe for arbitrary loops: in every template with two such loops, a run ends
      with a READY task that depends on a task still to be done. */
  lemma ApartIsUnsafe(t: Template, k: nat, m: nat, d: Name) returns (actions: seq<Action>, e: nat)
    requires t.Valid() && Apart(t, k, m, d)
    ensures Unsafe(After(Drive(t), actions).tasks, e)
  {
    var before, j := FirstAsks(t, k, m, d);
    actions := AskNow(t, before, j, m);
    e := SecondRoundIsUnsafe(t, k, m, d, After(Drive(t), before), j);
  }

  function Plain(name: Name, deps: seq<Name>): Node { Node(name, deps, Name("writer"), 1, 100) }

  /** A draft and two independent reviews of it, each of which may send the draft, or itself, back. */
  function TwoReviews(): Template {
    var draft, edit, check := Name("draft"), Name("edit"), Name("check");
    Template([Plain(draft, []), Plain(edit, [draft]), Plain(check, [draft])],
      [Loop(edit, draft, _ => true, 1), Loop(check, check, _ => true, 1)], [])
  }

  lemma TwoReviewsDeps(n: Name)
    ensures DepsOf(TwoReviews().nodes, n) == if n == Name("edit") || n == Name("check") then [Name("draft")] else []
  {
    var nodes := TwoReviews().nodes;
    assert nodes[1..] == [Plain(Name("edit"), [Name("draft")]), Plain(Name("check"), [Name("draft")])];
    assert nodes[1..][1..] == [Plain(Name("check"), [Name("draft")])];
    assert nodes[1..][1..][1..] == [];
    assert Name("edit").text != Name("check").text && Name("edit").text != Name("draft").text && Name("check").text != Name("draft").text;
    assert Find(nodes, n) == if n == Name("draft") then Some(nodes[0]) else Find(nodes[1..], n);
    assert Find(nodes[1..], n) == if n == Name("edit") then Some(nodes[1]) else Find(nodes[1..][1..], n);
    assert Find(nodes[1..][1..], n) == if n == Name("check") then Some(nodes[2]) else Find(nodes[1..][1..][1..], n);
  }

  lemma TwoReviewsInOrder()
    ensures Closed(TwoReviews().nodes) && !HasCycle(TwoReviews().Graph())
    ensures forall n :: TwoReviews().Has(n) <==> n in {Name("draft"), Name("edit"), Name("check")}
  {
    var nodes, names := TwoReviews().nodes, [Name("draft"), Name("edit"), Name("check")];
    assert names[0].text != names[1].text && names[0].text != names[2].text && names[1].text[0] != names[2].text[0];
    assert Names(nodes) == names;
    forall i, j {:trigger Differ(names, i, j)} ensures Differ(names, i, j) {}
    forall n { TwoReviewsDeps(n); }
    forall i, d {:trigger d in DepsOf(nodes, names[i])} | 0 <= i < |names| && d in DepsOf(nodes, names[i]) ensures d in names[..i] {
      assert names[..i][0] == Name("draft");
    }
    OrderedMeansAcyclic(nodes, names);
  }

  lemma TwoReviewsAreValid()
    ensures TwoReviews().Valid() && Apart(TwoReviews(), 0, 1, Name("draft"))
  {
    var t, draft, edit, check := TwoReviews(), Name("draft"), Name("edit"), Name("check");
    TwoReviewsInOrder();
    TwoReviewsDeps(edit);
    TwoReviewsDeps(check);
    assert draft in Succ(t.Graph(), edit);
    StepReaches(t.Graph(), edit, draft);
    ReachesSelf(t.Graph(), check);
    ReachesSelf(t.Graph(), draft);
    assert t.ValidLoop(t.loops[0]) && t.ValidLoop(t.loops[1]);
    OnlyDraftAbove(edit, check);
    OnlyDraftAbove(check, edit);
  }

  lemma OnlyDraftAbove(a: Name, b: Name)
    requires a in {Name("edit"), Name("check")} && b in {Name("edit"), Name("check")} && a != b
    ensures !Reaches(TwoReviews().Graph(), a, b)
  {
    var g := TwoReviews().Graph();
    forall n { TwoReviewsDeps(n); }
    assert Name("draft").text != Name("edit").text && Name("draft").text != Name("check").text;
    if Reaches(g, a, b) {
      var p :| WalkFromTo(g, p, a, b);
      ClosedSetHoldsReachable(g, {a, Name("draft")}, p);
    }
  }

  /** A concrete template whose runs are not safe. */
  lemma TwoReviewsAreUnsafe()
    ensures TwoReviews().Valid()
    ensures exists actions: seq<Action>, e: nat :: Unsafe(After(Drive(TwoReviews()), actions).tasks, e)
  {
    TwoReviewsAreValid();
    var actions, e := ApartIsUnsafe(TwoReviews(), 0, 1, Name("draft"));
  }
}
