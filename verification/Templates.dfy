/** Workflow templates (backend/autora/runtime/dag.py, lines 64-177): named nodes with
    dependencies, revision loops and halts. */
module Templates {
  import opened Wrappers
  import opened Sequences
  import opened Graphs

  datatype Name = Name(text: string)

  /** A task's output, the JSON object a loop or a halt looks at. */
  type Output = map<string, string>

  datatype Node = Node(name: Name, dependsOn: seq<Name>, role: Name, maxAttempts: nat, priority: int)

  /** Repeat `backTo` .. `check` while `again(check's output)`, for at most `maxRounds` extra rounds. */
  datatype Loop = Loop(check: Name, backTo: Name, again: Output -> bool, maxRounds: int)

  /** What the node `check` brought out may end the run: `when` tells. */
  datatype Halt = Halt(check: Name, when: Output -> bool)

  datatype InvalidTemplate =
    | NoNodes | DuplicateNames | UnknownDependency | DependencyCycle | BadLoop | BadHalt

  function Names(nodes: seq<Node>): (r: seq<Name>)
    ensures |r| == |nodes| && forall i :: 0 <= i < |r| ==> r[i] == nodes[i].name
  {
    seq(|nodes|, i requires 0 <= i < |nodes| => nodes[i].name)
  }

  /** The first node with the name. */
  function Find(nodes: seq<Node>, name: Name): (r: Option<Node>)
    ensures r.Some? ==> r.value.name == name
  {
    if nodes == [] then None
    else if nodes[0].name == name then Some(nodes[0])
    else Find(nodes[1..], name)
  }

  lemma {:induction false} FindFinds(nodes: seq<Node>, name: Name)
    ensures match Find(nodes, name)
            case Some(node) => node in nodes && node.name == name && name in Names(nodes)
            case None => name !in Names(nodes)
  {
    if nodes != [] {
      assert Names(nodes) == [nodes[0].name] + Names(nodes[1..]);
      FindFinds(nodes[1..], name);
    }
  }

  lemma {:induction false} FindAt(nodes: seq<Node>, i: nat)
    requires i < |nodes| && Distinct(Names(nodes))
    ensures Find(nodes, nodes[i].name) == Some(nodes[i])
  {
    assert Names(nodes)[i] == nodes[i].name && Names(nodes)[0] == nodes[0].name;
    if i > 0 {
      assert Differ(Names(nodes), 0, i);
      DistinctTail(Names(nodes));
      assert Names(nodes[1..]) == Names(nodes)[1..];
      FindAt(nodes[1..], i - 1);
    }
  }

  function DepsOf(nodes: seq<Node>, name: Name): seq<Name> {
    match Find(nodes, name)
    case Some(node) => node.dependsOn
    case None => []
  }

  /** The dependencies as a graph: from each node to the nodes it depends on. */
  function Dependencies(nodes: seq<Node>): (g: Edges<Name>)
    ensures forall n :: Succ(g, n) == Elements(DepsOf(nodes, n))
  {
    assert forall n :: n !in Names(nodes) ==> DepsOf(nodes, n) == [] by { forall n { FindFinds(nodes, n); } }
    map n | n in Names(nodes) :: Elements(DepsOf(nodes, n))
  }

  ghost predicate Closed(nodes: seq<Node>) {
    && Distinct(Names(nodes))
    && forall n, d {:trigger d in DepsOf(nodes, n)} :: d in DepsOf(nodes, n) ==> d in Names(nodes)
  }

  // ---- dependency order --------------------------------------------------------------------

  predicate Satisfied(node: Node, done: seq<Name>) {
    forall d :: d in node.dependsOn ==> d in done
  }

  /** The nodes whose dependencies are done, and the others, both in declaration order. */
  function Layer(nodes: seq<Node>, done: seq<Name>, ready: bool): seq<Node> {
    if nodes == [] then []
    else (if Satisfied(nodes[0], done) == ready then [nodes[0]] else []) + Layer(nodes[1..], done, ready)
  }

  lemma {:induction false} LayerHolds(nodes: seq<Node>, done: seq<Name>, ready: bool)
    ensures forall n {:trigger n in Layer(nodes, done, ready)} ::
      n in Layer(nodes, done, ready) <==> n in nodes && Satisfied(n, done) == ready
  {
    if nodes != [] {
      LayerHolds(nodes[1..], done, ready);
      assert nodes == [nodes[0]] + nodes[1..];
    }
  }

  lemma LayersPartition(nodes: seq<Node>, done: seq<Name>)
    ensures |nodes| == |Layer(nodes, done, true)| + |Layer(nodes, done, false)|
  {
  }

  /** Take, layer by layer, the nodes whose dependencies are done; None when none is left to take. */
  function Layers(done: seq<Name>, remaining: seq<Node>): Option<seq<Name>>
    decreases |remaining|
  {
    if remaining == [] then Some(done)
    else
      var ready := Layer(remaining, done, true);
      LayersPartition(remaining, done);
      if ready == [] then None
      else Layers(done + Names(ready), Layer(remaining, done, false))
  }

  /** Every name once, each after everything it depends on. */
  ghost predicate DependencyOrder(nodes: seq<Node>, order: seq<Name>) {
    && |order| == |nodes| && Distinct(order)
    && (forall n :: n in order <==> n in Names(nodes))
    && DepsComeFirst(nodes, order)
  }

  ghost predicate DepsComeFirst(nodes: seq<Node>, order: seq<Name>) {
    forall i, d {:trigger d in DepsOf(nodes, order[i])} ::
      0 <= i < |order| && d in DepsOf(nodes, order[i]) ==> d in order[..i]
  }

  lemma InNames(nodes: seq<Node>, n: Node)
    requires n in nodes
    ensures n.name in Names(nodes)
  {
    var i :| 0 <= i < |nodes| && nodes[i] == n;
    assert Names(nodes)[i] == n.name;
  }

  lemma {:induction false} LayerKeepsDistinct(nodes: seq<Node>, done: seq<Name>, ready: bool)
    requires Distinct(Names(nodes))
    ensures Distinct(Names(Layer(nodes, done, ready)))
  {
    if nodes != [] {
      var rest := nodes[1..];
      assert Names(rest) == Names(nodes)[1..];
      DistinctTail(Names(nodes));
      LayerKeepsDistinct(rest, done, ready);
      LayerHolds(rest, done, ready);
      var layer, n := Layer(rest, done, ready), nodes[0].name;
      forall i | 0 <= i < |layer| ensures layer[i].name != n {
        assert layer[i] in layer;
        InNames(rest, layer[i]);
      }
      assert n !in Names(layer);
      DistinctJoin([n], Names(layer));
      assert Names([nodes[0]] + layer) == [n] + Names(layer);
      assert [] + layer == layer;
    }
  }

  /** A point in the layering: some names done in dependency order, the other nodes remaining. */
  ghost predicate Split(nodes: seq<Node>, done: seq<Name>, remaining: seq<Node>) {
    && Distinct(done) && Distinct(Names(remaining))
    && |done| + |remaining| == |nodes|
    && (forall n :: n in Names(nodes) <==> n in done || n in Names(remaining))
    && (forall n :: n in done ==> n !in Names(remaining))
    && (forall n :: n in remaining ==> n in nodes)
    && DepsComeFirst(nodes, done)
  }

  lemma NodeDeps(nodes: seq<Node>, node: Node)
    requires Distinct(Names(nodes)) && node in nodes
    ensures DepsOf(nodes, node.name) == node.dependsOn
  {
    var i :| 0 <= i < |nodes| && nodes[i] == node;
    FindAt(nodes, i);
  }

  lemma TakeLayer(nodes: seq<Node>, done: seq<Name>, remaining: seq<Node>)
    requires Closed(nodes) && Split(nodes, done, remaining)
    ensures Split(nodes, done + Names(Layer(remaining, done, true)), Layer(remaining, done, false))
  {
    var ready, later := Layer(remaining, done, true), Layer(remaining, done, false);
    var more := done + Names(ready);
    LayerKeepsDistinct(remaining, done, true);
    LayerKeepsDistinct(remaining, done, false);
    LayersPartition(remaining, done);
    LayerHolds(remaining, done, true);
    LayerHolds(remaining, done, false);
    LayerNames(remaining, done);
    assert Distinct(more) by { DistinctJoin(done, Names(ready)); }
    assert forall n :: n in more <==> n in done || n in Names(ready);
    forall i, d {:trigger d in DepsOf(nodes, more[i])} | 0 <= i < |more| && d in DepsOf(nodes, more[i]) ensures d in more[..i] {
      if i < |done| {
        assert more[i] == done[i] && more[..i] == done[..i];
      } else {
        var node := ready[i - |done|];
        assert node in ready;
        NodeDeps(nodes, node);
        PrefixIn(done, more[..i], d);
      }
    }
  }

  /** The two halves of a layering share no name and together have them all. */
  lemma LayerNames(nodes: seq<Node>, done: seq<Name>)
    requires Distinct(Names(nodes))
    ensures forall n :: n in Names(nodes) <==> n in Names(Layer(nodes, done, true)) || n in Names(Layer(nodes, done, false))
    ensures forall n :: n in Names(Layer(nodes, done, true)) ==> n !in Names(Layer(nodes, done, false))
  {
    var ready, later := Layer(nodes, done, true), Layer(nodes, done, false);
    LayerHolds(nodes, done, true);
    LayerHolds(nodes, done, false);
    forall n | n in Names(nodes) ensures n in Names(ready) || n in Names(later) {
      var i :| 0 <= i < |nodes| && Names(nodes)[i] == n;
      InNames(if Satisfied(nodes[i], done) then ready else later, nodes[i]);
    }
    forall n | n in Names(ready) || n in Names(later)
      ensures n in Names(nodes) && !(n in Names(ready) && n in Names(later))
    {
      SameNameSameNode(nodes, ready, later, n);
    }
  }

  lemma SameNameSameNode(nodes: seq<Node>, a: seq<Node>, b: seq<Node>, n: Name)
    requires Distinct(Names(nodes))
    requires forall x :: x in a ==> x in nodes && x !in b
    requires forall x :: x in b ==> x in nodes
    requires n in Names(a) || n in Names(b)
    ensures n in Names(nodes) && !(n in Names(a) && n in Names(b))
  {
    forall x | x in a || x in b ensures x.name in Names(nodes) { InNames(nodes, x); }
    if n in Names(a) && n in Names(b) {
      var i :| 0 <= i < |a| && a[i].name == n;
      var j :| 0 <= j < |b| && b[j].name == n;
      UniqueName(nodes, a[i], b[j]);
    }
  }

  lemma UniqueName(nodes: seq<Node>, x: Node, y: Node)
    requires Distinct(Names(nodes)) && x in nodes && y in nodes && x.name == y.name
    ensures x == y
  {
    var k :| 0 <= k < |nodes| && nodes[k] == x;
    var l :| 0 <= l < |nodes| && nodes[l] == y;
    SamePlace(Names(nodes), k, l);
  }

  /** When no remaining node has its dependencies done, each has one among the remaining. */
  lemma StuckMeansCycle(nodes: seq<Node>, done: seq<Name>, remaining: seq<Node>)
    requires Closed(nodes) && Split(nodes, done, remaining)
    requires remaining != [] && Layer(remaining, done, true) == []
    ensures HasCycle(Dependencies(nodes))
  {
    var g, s := Dependencies(nodes), Elements(Names(remaining));
    LayerHolds(remaining, done, true);
    assert Names(remaining)[0] in s;
    forall n {:trigger StaysIn(g, s, n)} | n in s ensures StaysIn(g, s, n) {
      var i :| 0 <= i < |remaining| && Names(remaining)[i] == n;
      var node := remaining[i];
      NodeDeps(nodes, node);
      assert node !in Layer(remaining, done, true);
      var d :| d in node.dependsOn && d !in done;
      assert d in Names(nodes);
      assert d in s && d in Succ(g, n);
    }
    NoSinkMakesCycle(g, s);
  }

  lemma {:induction false} LayersOrderOrCycle(nodes: seq<Node>, done: seq<Name>, remaining: seq<Node>)
    requires Closed(nodes) && Split(nodes, done, remaining)
    ensures Layers(done, remaining).Some? ==> DependencyOrder(nodes, Layers(done, remaining).value)
    ensures Layers(done, remaining).None? ==> HasCycle(Dependencies(nodes))
    decreases |remaining|
  {
    if remaining != [] {
      if Layer(remaining, done, true) == [] {
        StuckMeansCycle(nodes, done, remaining);
      } else {
        LayersPartition(remaining, done);
        TakeLayer(nodes, done, remaining);
        LayersOrderOrCycle(nodes, done + Names(Layer(remaining, done, true)), Layer(remaining, done, false));
      }
    }
  }

  lemma DepIsEarlier(nodes: seq<Node>, order: seq<Name>, n: Name, d: Name)
    requires DependencyOrder(nodes, order) && n in order && d in DepsOf(nodes, n)
    ensures d in order && IndexOf(order, d) < IndexOf(order, n)
  {
    var i := IndexOf(order, n);
    assert d in DepsOf(nodes, order[i]);
    assert d in order[..i];
    var j :| 0 <= j < i && order[..i][j] == d;
    SamePlace(order, j, IndexOf(order, d));
  }

  lemma {:induction false} WalkDescends(nodes: seq<Node>, order: seq<Name>, p: seq<Name>)
    requires DependencyOrder(nodes, order) && Walk(Dependencies(nodes), p) && p[0] in order
    ensures p[|p| - 1] in order
    ensures IndexOf(order, p[|p| - 1]) + |p| - 1 <= IndexOf(order, p[0])
    decreases |p|
  {
    if |p| > 1 {
      TailOfWalk(Dependencies(nodes), p);
      DepIsEarlier(nodes, order, p[0], p[1]);
      WalkDescends(nodes, order, p[1..]);
    }
  }

  lemma OrderedMeansAcyclic(nodes: seq<Node>, order: seq<Name>)
    requires DependencyOrder(nodes, order)
    ensures !HasCycle(Dependencies(nodes))
  {
    var g := Dependencies(nodes);
    if HasCycle(g) {
      var n :| Leads(g, n, n);
      var p :| WalkFromTo(g, p, n, n) && |p| >= 2;
      TailOfWalk(g, p);
      assert n in order;
      WalkDescends(nodes, order, p);
    }
  }

  /** The layering finds a dependency order exactly when the dependencies have no cycle. */
  lemma OrderExistsIffAcyclic(nodes: seq<Node>)
    requires Closed(nodes)
    ensures Layers([], nodes).Some? <==> !HasCycle(Dependencies(nodes))
    ensures Layers([], nodes).Some? ==> DependencyOrder(nodes, Layers([], nodes).value)
  {
    LayersOrderOrCycle(nodes, [], nodes);
    if Layers([], nodes).Some? { OrderedMeansAcyclic(nodes, Layers([], nodes).value); }
  }

  /** Dependencies that pass still come first among the names that pass. */
  lemma {:induction false} FilterKeepsDepsFirst(nodes: seq<Node>, names: seq<Name>, keep: Name -> bool, i: nat, d: Name)
    requires DepsComeFirst(nodes, names) && i < |Filter(names, keep)|
    requires d in DepsOf(nodes, Filter(names, keep)[i]) && keep(d)
    ensures d in Filter(names, keep)[..i]
  {
    var k := |names| - 1;
    var shorter := names[..k];
    assert DepsComeFirst(nodes, shorter) by {
      forall i, d {:trigger d in DepsOf(nodes, shorter[i])} | 0 <= i < k && d in DepsOf(nodes, shorter[i])
        ensures d in shorter[..i]
      {
        assert shorter[i] == names[i] && shorter[..i] == names[..i];
      }
    }
    var before := Filter(shorter, keep);
    if i < |before| {
      FilterKeepsDepsFirst(nodes, shorter, keep, i, d);
      assert Filter(names, keep)[..i] == before[..i];
    } else {
      assert d in DepsOf(nodes, names[k]);
      FilterHolds(shorter, keep, d);
      assert Filter(names, keep)[..i] == before;
    }
  }

  // ---- templates ---------------------------------------------------------------------------

  datatype Template = Template(nodes: seq<Node>, loops: seq<Loop>, halts: seq<Halt>) {
    function Graph(): Edges<Name> { Dependencies(nodes) }

    function Deps(name: Name): seq<Name> { DepsOf(nodes, name) }

    predicate Has(name: Name) { name in Names(nodes) }

    /** What the source checks when a template is built. */
    ghost predicate Valid() {
      && nodes != [] && Closed(nodes) && !HasCycle(Graph())
      && (forall l :: l in loops ==> ValidLoop(l))
      && (forall h :: h in halts ==> Has(h.check))
    }

    ghost predicate ValidLoop(loop: Loop) {
      Has(loop.check) && Has(loop.backTo) && Reaches(Graph(), loop.check, loop.backTo)
    }

    /** The nodes in the order the engine creates their tasks. */
    function Order(): seq<Name> {
      match Layers([], nodes)
      case Some(order) => order
      case None => []
    }

    lemma OrderIsDependencyOrder()
      requires Valid()
      ensures DependencyOrder(nodes, Order()) && Order() != []
    {
      OrderExistsIffAcyclic(nodes);
    }

    /** On a path from the loop's first node to its check. */
    ghost predicate OnPath(loop: Loop, n: Name) {
      Reaches(Graph(), loop.check, n) && Reaches(Graph(), n, loop.backTo)
    }

    ghost function Inside(loop: Loop): Name -> bool {
      n => OnPath(loop, n)
    }

    /** The nodes on the paths of a loop, in dependency order. */
    ghost function Body(loop: Loop): seq<Name> {
      Filter(Order(), Inside(loop))
    }

    /** In a loop's body each node stands once, after the dependencies it has there. */
    lemma BodyIsInOrder(loop: Loop, i: nat, d: Name)
      requires Valid() && i < |Body(loop)| && d in Deps(Body(loop)[i]) && d in Body(loop)
      ensures Distinct(Body(loop)) && d in Body(loop)[..i]
    {
      OrderIsDependencyOrder();
      FilterKeepsDistinct(Order(), Inside(loop));
      FilterHolds(Order(), Inside(loop), d);
      FilterKeepsDepsFirst(nodes, Order(), Inside(loop), i, d);
    }

    /** The first node of a loop depends on nothing inside it, every other node of the body does. */
    lemma OnlyFirstIsFree(loop: Loop, n: Name)
      requires Valid() && ValidLoop(loop) && OnPath(loop, n)
      ensures n == loop.backTo <==> forall d :: d in Deps(n) ==> !OnPath(loop, d)
    {
      var g := Graph();
      if n == loop.backTo {
        forall d | d in Deps(n) ensures !OnPath(loop, d) {
          StepReaches(g, n, d);
          assert !Leads(g, n, n);
          if OnPath(loop, d) {
            LeadsThenReaches(g, n, d, n);
          }
        }
      } else {
        ReachesIsLeadsOrSame(g, n, loop.backTo);
        LeadsByFirst(g, n, loop.backTo);
        var d :| d in Succ(g, n) && Reaches(g, d, loop.backTo);
        StepReaches(g, n, d);
        ReachesTransitive(g, loop.check, n, d);
        assert d in Deps(n) && OnPath(loop, d);
      }
    }
  }

  // ---- the template's own algorithms -------------------------------------------------------

  /** backend/autora/runtime/dag.py:165-177, in the source's two loops. */
  method TopologicalOrder(nodes: seq<Node>) returns (r: Result<seq<Name>, InvalidTemplate>)
    requires Closed(nodes)
    ensures r.Ok? <==> !HasCycle(Dependencies(nodes))
    ensures r.Ok? ==> DependencyOrder(nodes, r.value) && Layers([], nodes) == Some(r.value)
    ensures r.Err? ==> r.error == DependencyCycle
  {
    OrderExistsIffAcyclic(nodes);
    var done: seq<Name>, remaining := [], nodes;
    while remaining != []
      invariant Layers(done, remaining) == Layers([], nodes)
      decreases |remaining|
    {
      var ready, later := Layer(remaining, done, true), Layer(remaining, done, false);
      LayersPartition(remaining, done);
      if ready == [] {
        return Err(DependencyCycle);
      }
      done, remaining := done + Names(ready), later;
    }
    return Ok(done);
  }

  lemma LeadsInside(nodes: seq<Node>, a: Name, b: Name)
    requires Closed(nodes) && Leads(Dependencies(nodes), a, b)
    ensures b in Names(nodes)
  {
    var g := Dependencies(nodes);
    LeadsByFirst(g, a, b);
    var n :| n in Succ(g, a) && Reaches(g, n, b);
    var p :| WalkFromTo(g, p, n, b);
    ClosedSetHoldsReachable(g, Elements(Names(nodes)), p);
  }

  /** What has to be done before `name` can be, each step of the way. */
  ghost function Above(nodes: seq<Node>, name: Name): set<Name> {
    set m | m in Names(nodes) && Leads(Dependencies(nodes), name, m)
  }

  lemma AboveIsClosed(nodes: seq<Node>, name: Name)
    requires Closed(nodes)
    ensures forall m :: m in Above(nodes, name) <==> Leads(Dependencies(nodes), name, m)
    ensures ClosedUp(nodes, name, Above(nodes, name), {})
  {
    var g := Dependencies(nodes);
    forall m | Leads(g, name, m) ensures m in Above(nodes, name) { LeadsInside(nodes, name, m); }
    forall m | m in DepsOf(nodes, name) ensures m in Above(nodes, name) { StepReaches(g, name, m); }
    forall n, m {:trigger m in DepsOf(nodes, n)} | n in Above(nodes, name) && m in DepsOf(nodes, n) ensures m in Above(nodes, name) {
      StepReaches(g, n, m);
      LeadsThenReaches(g, name, n, m);
    }
  }

  lemma AboveIsLeast(nodes: seq<Node>, name: Name, s: set<Name>)
    requires Closed(nodes)
    requires ClosedUp(nodes, name, s, {})
    ensures Above(nodes, name) <= s
  {
    var g := Dependencies(nodes);
    forall m | Leads(g, name, m) ensures m in s {
      LeadsByFirst(g, name, m);
      var n :| n in Succ(g, name) && Reaches(g, n, m);
      var p :| WalkFromTo(g, p, n, m);
      ClosedSetHoldsReachable(g, s, p);
    }
  }

  /** backend/autora/runtime/dag.py:141-150: a worklist of dependencies, popped from its end. */
  method Upstream(nodes: seq<Node>, name: Name) returns (seen: set<Name>)
    requires Closed(nodes) && name in Names(nodes)
    ensures seen == Above(nodes, name)
  {
    AboveIsClosed(nodes, name);
    seen := Collect(nodes, name, Above(nodes, name));
    AboveIsLeast(nodes, name, seen);
  }

  ghost predicate ClosedUp(nodes: seq<Node>, name: Name, s: set<Name>, todo: set<Name>) {
    && Elements(DepsOf(nodes, name)) <= s + todo
    && forall n {:trigger DepsOf(nodes, n)} :: n in s ==> Elements(DepsOf(nodes, n)) <= s + todo
  }

  /** The worklist itself: it gathers a closed set without leaving any other closed set. */
  method Collect(nodes: seq<Node>, name: Name, ghost up: set<Name>) returns (seen: set<Name>)
    requires ClosedUp(nodes, name, up, {})
    ensures seen <= up && ClosedUp(nodes, name, seen, {})
  {
    seen := {};
    var todo := DepsOf(nodes, name);
    while todo != []
      invariant seen <= up && Elements(todo) <= up
      invariant ClosedUp(nodes, name, seen, Elements(todo))
      decreases |up - seen|, |todo|
    {
      var dep := todo[|todo| - 1];
      ghost var was := todo;
      todo := todo[..|todo| - 1];
      assert was == todo + [dep];
      ElementsJoin(todo, [dep]);
      assert Elements([dep]) == {dep};
      if dep !in seen {
        assert up - (seen + {dep}) == (up - seen) - {dep};
        seen := seen + {dep};
        ElementsJoin(todo, DepsOf(nodes, dep));
        todo := todo + DepsOf(nodes, dep);
      }
    }
  }

  /** What a loop does over (backend/autora/runtime/dag.py:152-157): the check and the first
      node, and whatever is upstream of the check with the first node upstream of it. */
  method LoopBody(t: Template, loop: Loop) returns (body: seq<Name>)
    requires t.Valid() && t.ValidLoop(loop)
    ensures body == t.Body(loop)
  {
    t.OrderIsDependencyOrder();
    var inside := InsideLoop(t, loop);
    InsideIsOnPath(t, loop, inside);
    var order := TopologicalOrder(t.nodes);
    body := Pick(t, loop, inside, order.value);
  }

  ghost predicate IsInside(t: Template, loop: Loop, seen: set<Name>, n: Name) {
    n == loop.backTo || n == loop.check || (n in seen && loop.backTo in Above(t.nodes, n))
  }

  method InsideLoop(t: Template, loop: Loop) returns (inside: set<Name>)
    requires t.Valid() && t.ValidLoop(loop)
    ensures forall n :: n in inside <==> IsInside(t, loop, Above(t.nodes, loop.check), n)
  {
    var up := Upstream(t.nodes, loop.check);
    inside := {loop.backTo, loop.check};
    var rest := up;
    while rest != {}
      invariant rest <= up
      invariant forall n :: n in inside <==> IsInside(t, loop, up - rest, n)
      decreases rest
    {
      var n :| n in rest;
      var above := Upstream(t.nodes, n);
      if loop.backTo in above { inside := inside + {n}; }
      rest := rest - {n};
    }
  }

  lemma InsideIsOnPath(t: Template, loop: Loop, inside: set<Name>)
    requires t.Valid() && t.ValidLoop(loop)
    requires forall n :: n in inside <==> IsInside(t, loop, Above(t.nodes, loop.check), n)
    ensures forall n :: n in inside <==> t.OnPath(loop, n)
  {
    var g := t.Graph();
    AboveIsClosed(t.nodes, loop.check);
    forall n ensures n in inside <==> t.OnPath(loop, n) {
      AboveIsClosed(t.nodes, n);
      ReachesIsLeadsOrSame(g, loop.check, n);
      ReachesIsLeadsOrSame(g, n, loop.backTo);
    }
  }

  method Pick(t: Template, ghost loop: Loop, inside: set<Name>, order: seq<Name>) returns (body: seq<Name>)
    requires forall n :: n in inside <==> t.OnPath(loop, n)
    ensures body == Filter(order, t.Inside(loop))
  {
    body := [];
    for i := 0 to |order|
      invariant body == Filter(order[..i], t.Inside(loop))
    {
      assert order[..i + 1][..i] == order[..i];
      if order[i] in inside { body := body + [order[i]]; }
    }
    assert order[..|order|] == order;
  }

  method NamesAreDistinct(names: seq<Name>) returns (ok: bool)
    ensures ok <==> Distinct(names)
  {
    for i := 0 to |names|
      invariant Distinct(names[..i])
    {
      if names[i] in names[..i] {
        if Distinct(names) { DistinctInit(names, i); }
        return false;
      }
      DistinctSnoc(names[..i], names[i]);
      assert names[..i] + [names[i]] == names[..i + 1];
    }
    assert names[..|names|] == names;
    ok := true;
  }

  ghost predicate KnowsDeps(names: seq<Name>, node: Node) {
    forall d :: d in node.dependsOn ==> d in names
  }

  method DependenciesAreKnown(nodes: seq<Node>) returns (ok: bool)
    requires Distinct(Names(nodes))
    ensures ok <==> Closed(nodes)
  {
    var names := Names(nodes);
    for i := 0 to |nodes|
      invariant forall j {:trigger nodes[j]} :: 0 <= j < i ==> KnowsDeps(names, nodes[j])
    {
      var unknown := Elements(nodes[i].dependsOn) - Elements(names);
      if unknown != {} {
        FindAt(nodes, i);
        var d :| d in unknown;
        assert d in DepsOf(nodes, nodes[i].name);
        return false;
      }
      forall d | d in nodes[i].dependsOn ensures d in names { assert d !in unknown; }
    }
    forall n, d {:trigger d in DepsOf(nodes, n)} | d in DepsOf(nodes, n) ensures d in names {
      FindFinds(nodes, n);
      var i :| 0 <= i < |nodes| && nodes[i] == Find(nodes, n).value;
      assert KnowsDeps(names, nodes[i]);
    }
    ok := true;
  }

  method LoopIsValid(t: Template, loop: Loop) returns (ok: bool)
    requires Closed(t.nodes)
    ensures ok <==> t.ValidLoop(loop)
  {
    var names := Names(t.nodes);
    if loop.check !in names || loop.backTo !in names {
      return false;
    }
    var up := Upstream(t.nodes, loop.check);
    AboveIsClosed(t.nodes, loop.check);
    ReachesIsLeadsOrSame(t.Graph(), loop.check, loop.backTo);
    ok := loop.backTo in up || loop.backTo == loop.check;
  }

  method LoopsAreValid(t: Template) returns (ok: bool)
    requires Closed(t.nodes)
    ensures ok <==> forall l :: l in t.loops ==> t.ValidLoop(l)
  {
    for i := 0 to |t.loops|
      invariant forall j :: 0 <= j < i ==> t.ValidLoop(t.loops[j])
    {
      ok := LoopIsValid(t, t.loops[i]);
      if !ok { return; }
    }
    ok := true;
  }

  method HaltsAreValid(t: Template) returns (ok: bool)
    ensures ok <==> forall h :: h in t.halts ==> t.Has(h.check)
  {
    for i := 0 to |t.halts|
      invariant forall j :: 0 <= j < i ==> t.Has(t.halts[j].check)
    {
      ok := t.Has(t.halts[i].check);
      if !ok { return; }
    }
    ok := true;
  }

  /** The checks made when a template is built (backend/autora/runtime/dag.py:116-139): it is
      accepted exactly when it is valid, and a refusal names the first thing wrong with it. */
  method Validate(t: Template) returns (r: Result<(), InvalidTemplate>)
    ensures r.Ok? <==> t.Valid()
    ensures r == Err(DuplicateNames) ==> t.nodes != [] && !Distinct(Names(t.nodes))
    ensures r == Err(UnknownDependency) ==> Distinct(Names(t.nodes)) && !Closed(t.nodes)
    ensures r == Err(DependencyCycle) ==> Closed(t.nodes) && HasCycle(t.Graph())
    ensures r == Err(BadLoop) ==> Closed(t.nodes) && exists l :: l in t.loops && !t.ValidLoop(l)
    ensures r == Err(BadHalt) ==> Closed(t.nodes) && exists h :: h in t.halts && !t.Has(h.check)
  {
    if t.nodes == [] { return Err(NoNodes); }
    var ok := NamesAreDistinct(Names(t.nodes));
    if !ok { return Err(DuplicateNames); }
    ok := DependenciesAreKnown(t.nodes);
    if !ok { return Err(UnknownDependency); }
    var order := TopologicalOrder(t.nodes);
    if order.Err? { return Err(DependencyCycle); }
    ok := LoopsAreValid(t);
    if !ok { return Err(BadLoop); }
    ok := HaltsAreValid(t);
    if !ok { return Err(BadHalt); }
    r := Ok(());
  }

  // ---- which templates are accepted --------------------------------------------------------

  ghost predicate IsNode(t: Template, n: Name) {
    exists k :: 0 <= k < |t.nodes| && t.nodes[k].name == n
  }

  ghost predicate NamesDiffer(nodes: seq<Node>, i: int, j: int) {
    0 <= i < j < |nodes| ==> nodes[i].name != nodes[j].name
  }

  ghost predicate DepsAreNodes(t: Template, i: int) {
    0 <= i < |t.nodes| ==> forall d :: d in t.nodes[i].dependsOn ==> IsNode(t, d)
  }

  /** The loop goes back from a node to the same one or to one it depends on, however indirectly. */
  ghost predicate GoesBack(t: Template, loop: Loop) {
    IsNode(t, loop.check) && IsNode(t, loop.backTo) && (loop.backTo == loop.check || Leads(Dependencies(t.nodes), loop.check, loop.backTo))
  }

  lemma HasIsNode(t: Template, n: Name)
    ensures t.Has(n) <==> IsNode(t, n)
  {
    if IsNode(t, n) {
      var k :| 0 <= k < |t.nodes| && t.nodes[k].name == n;
      assert Names(t.nodes)[k] == n;
    }
  }

  lemma ClosedIs(t: Template)
    ensures Closed(t.nodes) <==> (forall i, j {:trigger NamesDiffer(t.nodes, i, j)} :: NamesDiffer(t.nodes, i, j)) && forall i :: DepsAreNodes(t, i)
  {
    var nodes := t.nodes;
    assert (forall i, j {:trigger NamesDiffer(nodes, i, j)} :: NamesDiffer(nodes, i, j)) ==> Distinct(Names(nodes)) by {
      assert forall i, j {:trigger Differ(Names(nodes), i, j)} :: NamesDiffer(nodes, i, j) ==> Differ(Names(nodes), i, j);
    }
    if Closed(nodes) {
      forall i, j {:trigger NamesDiffer(nodes, i, j)} ensures NamesDiffer(nodes, i, j) { assert Differ(Names(nodes), i, j); }
      forall i, d | 0 <= i < |nodes| && d in nodes[i].dependsOn ensures IsNode(t, d) {
        FindAt(nodes, i);
        assert d in DepsOf(nodes, nodes[i].name);
        HasIsNode(t, d);
      }
    } else if Distinct(Names(nodes)) {
      var n, d :| d in DepsOf(nodes, n) && d !in Names(nodes);
      FindFinds(nodes, n);
      var i :| 0 <= i < |nodes| && nodes[i] == Find(nodes, n).value;
      HasIsNode(t, d);
      assert !DepsAreNodes(t, i);
    }
  }

  /** A template is valid, and so accepted, exactly when it has nodes, of different names, whose dependencies
      are nodes, none leading back to itself, its loops go back, and its halts look at nodes. */
  lemma AcceptedIff(t: Template)
    ensures t.Valid() <==>
              && t.nodes != []
              && (forall i, j {:trigger NamesDiffer(t.nodes, i, j)} :: NamesDiffer(t.nodes, i, j))
              && (forall i :: DepsAreNodes(t, i))
              && !(exists n :: Leads(Dependencies(t.nodes), n, n))
              && (forall l :: l in t.loops ==> GoesBack(t, l))
              && forall h :: h in t.halts ==> IsNode(t, h.check)
  {
    ClosedIs(t);
    forall l | l in t.loops ensures t.ValidLoop(l) <==> GoesBack(t, l) {
      HasIsNode(t, l.check);
      HasIsNode(t, l.backTo);
      ReachesIsLeadsOrSame(t.Graph(), l.check, l.backTo);
    }
    forall h | h in t.halts ensures t.Has(h.check) <==> IsNode(t, h.check) { HasIsNode(t, h.check); }
  }
}
