/** The reducer and the projection agree: a client that starts from a snapshot and applies the later
    events holds what the server reads from its rows. */
module Mirror {
  import opened Wrappers
  import opened Sequences
  import opened Lifecycles
  import opened Tasks
  import opened Rows
  import opened Queue
  import opened Faces
  import opened EventLog
  import opened Cycles
  import opened Events
  import opened Reducer
  import opened Projection
  import opened Tellings

  // ---- folding, task by task -----------------------------------------------------------------

  function Get(tasks: map<TaskId, TaskView>, id: TaskId): Option<TaskView> {
    if id in tasks then Some(tasks[id]) else None
  }

  function StepTask(t: Option<TaskView>, e: Entry): Option<TaskView> {
    if e.payload.what.TaskCreated? then Some(NewView(e))
    else match t case Some(v) => Some(OnTask(v, e)) case None => None
  }

  function FoldTask(t: Option<TaskView>, entries: seq<Entry>): Option<TaskView> {
    if entries == [] then t else StepTask(FoldTask(t, entries[..|entries| - 1]), entries[|entries| - 1])
  }

  /** The events are all later than what was applied. */
  ghost predicate Later(p: Picture, events: seq<Entry>) {
    Increasing(events) && (events != [] ==> events[0].seqNo > p.lastSeq)
  }

  lemma IncreasingInit(events: seq<Entry>)
    requires Increasing(events) && events != []
    ensures Increasing(events[..|events| - 1])
    ensures |events| > 1 ==> events[|events| - 2].seqNo < events[|events| - 1].seqNo
  {
    var k := |events| - 1;
    forall i, j {:trigger Before(events[..k], i, j)} ensures Before(events[..k], i, j) { assert Before(events, i, j); }
    if k > 0 { assert Before(events, k - 1, k); }
  }

  /** Only the events about a task change it, one after the other. */
  lemma {:induction false} FoldByTask(p: Picture, events: seq<Entry>, id: TaskId)
    requires Later(p, events)
    ensures Get(Fold(p, events).tasks, id) == FoldTask(Get(p.tasks, id), EntriesAbout(events, id))
    ensures Fold(p, events).lastSeq == if events == [] then p.lastSeq else events[|events| - 1].seqNo
  {
    if events != [] {
      var k := |events| - 1;
      IncreasingInit(events);
      FoldByTask(p, events[..k], id);
      assert k > 0 ==> events[..k][0] == events[0];
      OneTask(Fold(p, events[..k]), events[k], id);
      FoldAboutLast(Get(p.tasks, id), events, id);
    }
  }

  lemma FoldAboutLast(t: Option<TaskView>, events: seq<Entry>, id: TaskId)
    requires events != []
    ensures var before, e := FoldTask(t, EntriesAbout(events[..|events| - 1], id)), events[|events| - 1];
            FoldTask(t, EntriesAbout(events, id)) == if About(e.payload.what) == Some(id) then StepTask(before, e) else before
  {
    var before, e := EntriesAbout(events[..|events| - 1], id), events[|events| - 1];
    FoldTaskSnoc(t, before, e);
    assert EntriesAbout(events, id) == if About(e.payload.what) == Some(id) then before + [e] else before;
  }

  lemma FoldTaskSnoc(t: Option<TaskView>, entries: seq<Entry>, e: Entry)
    ensures FoldTask(t, entries + [e]) == StepTask(FoldTask(t, entries), e)
  {
    assert (entries + [e])[..|entries|] == entries;
  }

  lemma OneTask(p: Picture, e: Entry, id: TaskId)
    requires e.seqNo > p.lastSeq
    ensures Get(Applied(p, e).tasks, id) ==
            if About(e.payload.what) == Some(id) then StepTask(Get(p.tasks, id), e) else Get(p.tasks, id)
  {
  }

  // ---- one transaction, one task -------------------------------------------------------------

  lemma FoldOne(t: Option<TaskView>, e: Entry)
    ensures FoldTask(t, [e]) == StepTask(t, e)
  {
    assert [e][..0] == [];
  }

  lemma FoldTwo(t: Option<TaskView>, e: Entry, e': Entry)
    ensures FoldTask(t, [e, e']) == StepTask(StepTask(t, e), e')
  {
    assert [e, e'][..1] == [e];
    FoldOne(t, e);
  }

  lemma WhatsOne(entries: seq<Entry>, w: What)
    requires Whats(entries) == [w]
    ensures entries == [entries[0]] && entries[0].payload.what == w
  {
    assert Whats(entries)[0] == w;
  }

  lemma WhatsTwo(entries: seq<Entry>, w: What, w': What)
    requires Whats(entries) == [w, w']
    ensures entries == [entries[0], entries[1]] && entries[0].payload.what == w && entries[1].payload.what == w'
  {
    assert Whats(entries)[0] == w && Whats(entries)[1] == w';
  }

  /** What is said about a row that was there makes its view what the row now says. */
  lemma {:induction false} KnownRowFolds(id: TaskId, was: Task, now: Task, e0: Entry, entries: seq<Entry>)
    requires RowOk(now) && Face(was, now) && Whats(entries) == RowEvents(id, Some(was), now)
    ensures FoldTask(Some(RowView(was, e0)), entries) == Some(RowView(now, if entries == [] then e0 else entries[|entries| - 1]))
  {
    var v := Some(RowView(was, e0));
    var what := RowEvents(id, Some(was), now);
    if |what| == 1 {
      WhatsOne(entries, what[0]);
      FoldOne(v, entries[0]);
    } else if |what| == 2 {
      WhatsTwo(entries, what[0], what[1]);
      FoldTwo(v, entries[0], entries[1]);
    }
  }

  lemma {:induction false} NewRowFolds(id: TaskId, now: Task, entries: seq<Entry>)
    requires Newcomer(now) && Whats(entries) == RowEvents(id, None, now)
    ensures entries != [] && FoldTask(None, entries) == Some(RowView(now, entries[|entries| - 1]))
  {
    var what := RowEvents(id, None, now);
    if now.state == Ready {
      assert what == [TaskCreated(id, now.name, now.role), TaskReady(id)];
      WhatsTwo(entries, what[0], what[1]);
      FoldTwo(None, entries[0], entries[1]);
    } else {
      assert what == [TaskCreated(id, now.name, now.role)];
      WhatsOne(entries, what[0]);
      FoldOne(None, entries[0]);
    }
  }

  // ---- the log and what can be read of it ----------------------------------------------------

  lemma {:induction false} LastAboutLater(log: seq<Entry>, more: seq<Entry>, id: TaskId, k: nat)
    requires k <= |more|
    ensures LastAbout(log + more, id, |log| + k) ==
            var es := EntriesAbout(more[..k], id); if es == [] then LastAbout(log, id, |log|) else Some(es[|es| - 1])
  {
    if k == 0 {
      LastAboutPrefix(log, more, id, |log|);
    } else {
      LastAboutLater(log, more, id, k - 1);
      assert more[..k][..k - 1] == more[..k - 1];
      assert (log + more)[|log| + k - 1] == more[k - 1];
    }
  }

  lemma {:induction false} LastAboutPrefix(log: seq<Entry>, more: seq<Entry>, id: TaskId, k: nat)
    requires k <= |log|
    ensures LastAbout(log + more, id, k) == LastAbout(log, id, k)
  {
    if k > 0 { LastAboutPrefix(log, more, id, k - 1); }
  }

  lemma EntriesSnoc(events: seq<Entry>, e: Entry, id: TaskId)
    ensures EntriesAbout(events + [e], id) == if About(e.payload.what) == Some(id) then EntriesAbout(events, id) + [e] else EntriesAbout(events, id)
    ensures CycleEntries(events + [e]) == if IsCycleEvent(e.payload.what) then CycleEntries(events) + [e] else CycleEntries(events)
  {
    assert (events + [e])[..|events|] == events;
  }

  /** What cannot be read is about no task and no cycle. */
  lemma {:induction false} ReadableTellsAll(events: seq<Entry>, n: nat, id: TaskId)
    requires UnreadableIsOther(events) && n <= |events|
    ensures EntriesAbout(Between(events, 0, n), id) == EntriesAbout(events[..n], id)
    ensures CycleEntries(Between(events, 0, n)) == CycleEntries(events[..n])
  {
    if n > 0 {
      ReadableTellsAll(events, n - 1, id);
      assert events[..n] == events[..n - 1] + [events[n - 1]];
      assert Between(events, 0, n) == if events[n - 1].readable then Between(events, 0, n - 1) + [events[n - 1]] else Between(events, 0, n - 1);
      EntriesSnoc(events[..n - 1], events[n - 1], id);
      EntriesSnoc(Between(events, 0, n - 1), events[n - 1], id);
    }
  }

  // ---- the cycle and the recent events -------------------------------------------------------

  function FoldCycle(c: Option<CycleView>, entries: seq<Entry>): Option<CycleView> {
    if entries == [] then c else CycleAfter(FoldCycle(c, entries[..|entries| - 1]), entries[|entries| - 1])
  }

  lemma {:induction false} FoldByCycle(p: Picture, events: seq<Entry>)
    requires Later(p, events)
    ensures Fold(p, events).cycle == FoldCycle(p.cycle, CycleEntries(events))
  {
    if events != [] {
      var k := |events| - 1;
      LaterInit(p, events);
      FoldByCycle(p, events[..k]);
      FoldByTask(p, events[..k], (0, 0));
      OneCycle(Fold(p, events[..k]), events[k]);
      CycleEntriesSnoc(p.cycle, events);
    }
  }

  lemma OneCycle(p: Picture, e: Entry)
    requires e.seqNo > p.lastSeq
    ensures Applied(p, e).cycle == if IsCycleEvent(e.payload.what) then CycleAfter(p.cycle, e) else p.cycle
  {
  }

  lemma CycleEntriesSnoc(c: Option<CycleView>, events: seq<Entry>)
    requires events != []
    ensures var before, e := FoldCycle(c, CycleEntries(events[..|events| - 1])), events[|events| - 1];
            FoldCycle(c, CycleEntries(events)) == if IsCycleEvent(e.payload.what) then CycleAfter(before, e) else before
  {
    var k := |events| - 1;
    CycleSnoc(c, CycleEntries(events[..k]), events[k]);
    assert CycleEntries(events) ==
           if IsCycleEvent(events[k].payload.what) then CycleEntries(events[..k]) + [events[k]] else CycleEntries(events[..k]);
  }

  lemma CycleSnoc(c: Option<CycleView>, entries: seq<Entry>, e: Entry)
    ensures FoldCycle(c, entries + [e]) == CycleAfter(FoldCycle(c, entries), e)
  {
    assert (entries + [e])[..|entries|] == entries;
  }

  lemma LaterInit(p: Picture, events: seq<Entry>)
    requires Later(p, events) && events != []
    ensures Later(p, events[..|events| - 1])
    ensures events[|events| - 1].seqNo > if |events| == 1 then p.lastSeq else events[|events| - 2].seqNo
  {
    IncreasingInit(events);
    assert |events| > 1 ==> events[..|events| - 1][0] == events[0];
  }

  lemma {:induction false} FoldRecent(p: Picture, events: seq<Entry>)
    requires Later(p, events) && |p.recent| <= RECENT
    ensures Fold(p, events).recent == Last(p.recent + events, RECENT)
  {
    if events == [] {
      assert p.recent + events == p.recent;
    } else {
      var k := |events| - 1;
      LaterInit(p, events);
      FoldRecent(p, events[..k]);
      FoldByTask(p, events[..k], (0, 0));
      LastSnoc(p.recent + events[..k], events[k], RECENT);
      InitAndLast(events);
      assert p.recent + events == p.recent + events[..k] + [events[k]];
    }
  }

  lemma LastSnoc<T>(s: seq<T>, x: T, n: nat)
    requires n >= 1
    ensures Last(Last(s, n) + [x], n) == Last(s + [x], n)
  {
  }

  /** What is said about the cycles makes the view what the latest row now says. */
  lemma CycleFolds(was: seq<Cycle>, s: CompanyStep, entries: seq<Entry>)
    requires CyclesOk(was) && Whats(entries) == CycleEvents(was, CyclesAfter(was, s))
    ensures FoldCycle(if was == [] then None else Some(LatestCycle(was)), entries) ==
            if CyclesAfter(was, s) == [] then None else Some(LatestCycle(CyclesAfter(was, s)))
    ensures CyclesOk(CyclesAfter(was, s))
  {
    var now, what := CyclesAfter(was, s), CycleEvents(was, CyclesAfter(was, s));
    if |what| == 1 {
      WhatsOne(entries, what[0]);
      assert [entries[0]][..0] == [];
    }
  }

  // ---- a client, transaction by transaction --------------------------------------------------

  /** What the client holds about a task, or why it does not hold it any more. */
  ghost predicate Follows(c: Company, log: seq<Entry>, client: Picture, now0: Time, id: TaskId) {
    match RowAt(c, id)
    case None => id !in client.tasks && LastAbout(log, id, |log|) == None
    case Some(row) =>
      var e := LastAbout(log, id, |log|);
      e.Some? && if id in client.tasks then client.tasks[id] == RowView(row, e.value) else !Shows(RowView(row, e.value), now0)
  }

  ghost predicate InStep(c: Company, log: seq<Entry>, client: Picture, now0: Time) {
    && Honest(c.world) && CyclesOk(c.cycles) && Increasing(log) && client.lastSeq <= Head(log)
    && (forall id {:trigger Follows(c, log, client, now0, id)} :: Follows(c, log, client, now0, id))
    && client.cycle == (if c.cycles == [] then None else Some(LatestCycle(c.cycles)))
  }

  lemma TailIsLater(log: seq<Entry>, log': seq<Entry>, client: Picture)
    requires log <= log' && Increasing(log') && client.lastSeq <= Head(log)
    ensures Increasing(log'[|log|..]) && Later(client, log'[|log|..])
  {
    var more := log'[|log|..];
    forall i, j {:trigger Before(more, i, j)} ensures Before(more, i, j) { assert Before(log', |log| + i, |log| + j); }
    if more != [] && log != [] { assert Before(log', |log| - 1, |log|); assert Before(log', 0, |log|); }
  }

  lemma ReadableIsLater(client: Picture, more: seq<Entry>)
    requires Later(client, more)
    ensures Later(client, Readable(more))
    ensures Readable(more) != [] ==> Readable(more)[|Readable(more)| - 1].seqNo <= Head(more)
  {
    BetweenIncreases(more, 0, |more|);
    if Readable(more) != [] {
      var e := Readable(more)[0];
      BetweenHolds(more, 0, |more|, e);
      var k :| 0 <= k < |more| && more[k] == e;
      if k > 0 { assert Before(more, 0, k); }
    }
  }

  /** One task through one transaction. */
  lemma {:induction false} FollowsOn(set': Settings, s: CompanyStep, c: Company, log: seq<Entry>, c': Company, log': seq<Entry>,
                                     client: Picture, now0: Time, id: TaskId)
    requires Commits(set', s, c, log, c', log') && InStep(c, log, client, now0) && Honest(c'.world)
    requires Follows(c, log, client, now0, id)
    ensures Follows(c', log', Fold(client, Readable(log'[|log|..])), now0, id)
  {
    var more := log'[|log|..];
    CommitTells(set', s, c, log, c', log');
    ClientFolds(log, log', client, id);
    RowThrough(set', s, c, c', id);
    RowFollows(c, c', id, client, log, now0, EntriesAbout(more, id));
  }

  /** The client and the log about one task, after later events. */
  lemma ClientFolds(log: seq<Entry>, log': seq<Entry>, client: Picture, id: TaskId)
    requires log <= log' && Increasing(log') && client.lastSeq <= Head(log) && UnreadableIsOther(log'[|log|..])
    ensures var es := EntriesAbout(log'[|log|..], id);
            && Get(Fold(client, Readable(log'[|log|..])).tasks, id) == FoldTask(Get(client.tasks, id), es)
            && LastAbout(log', id, |log'|) == if es == [] then LastAbout(log, id, |log|) else Some(es[|es| - 1])
  {
    var more := log'[|log|..];
    TailIsLater(log, log', client);
    ReadableIsLater(client, more);
    ReadableFolds(client, more, id);
    LastAboutAll(log, more, id);
    assert log' == log + more;
  }

  lemma ReadableFolds(client: Picture, more: seq<Entry>, id: TaskId)
    requires Later(client, Readable(more)) && UnreadableIsOther(more)
    ensures Get(Fold(client, Readable(more)).tasks, id) == FoldTask(Get(client.tasks, id), EntriesAbout(more, id))
  {
    FoldByTask(client, Readable(more), id);
    ReadableTellsAll(more, |more|, id);
    assert more[..|more|] == more;
  }

  lemma {:induction false} LastAboutAll(log: seq<Entry>, more: seq<Entry>, id: TaskId)
    ensures LastAbout(log + more, id, |log + more|) ==
            var es := EntriesAbout(more, id); if es == [] then LastAbout(log, id, |log|) else Some(es[|es| - 1])
  {
    LastAboutLater(log, more, id, |more|);
    assert more[..|more|] == more;
  }

  /** What a transaction makes of a row. */
  ghost predicate Through(was: Option<Task>, now: Option<Task>) {
    match was
    case None => now.Some? ==> Newcomer(now.value)
    case Some(w) => now.Some? && RowOk(now.value) && Face(w, now.value)
  }

  lemma RowThrough(set': Settings, s: CompanyStep, c: Company, c': Company, id: TaskId)
    requires c' == CompanyAfter(c, set', s) && Honest(c.world) && Honest(c'.world)
    ensures Through(RowAt(c, id), RowAt(c', id))
  {
    if s.Work? {
      if c.world.Has(id.0, id.1) { NextFace(c.world, set', s.step, id.0, id.1); }
      else if c'.world.Has(id.0, id.1) { NextAdds(c.world, set', s.step, id.0, id.1); }
    }
    if c'.world.Has(id.0, id.1) { assert FlowOk(c'.world.flows[id.0]) && RowOk(c'.world.Row(id.0, id.1)); }
  }

  lemma RowFollows(c: Company, c': Company, id: TaskId, client: Picture, log: seq<Entry>, now0: Time, entries: seq<Entry>)
    requires Through(RowAt(c, id), RowAt(c', id)) && Follows(c, log, client, now0, id)
    requires Whats(entries) == match RowAt(c', id) case None => [] case Some(row) => RowEvents(id, RowAt(c, id), row)
    ensures RowAt(c', id).None? ==> entries == [] && id !in client.tasks
    ensures RowAt(c', id).Some? ==>
              var e := if entries == [] then LastAbout(log, id, |log|) else Some(entries[|entries| - 1]);
              e.Some? && match FoldTask(Get(client.tasks, id), entries)
                         case Some(view) => view == RowView(RowAt(c', id).value, e.value)
                         case None => !Shows(RowView(RowAt(c', id).value, e.value), now0)
  {
    match (RowAt(c, id), RowAt(c', id))
    case (None, None) =>
    case (None, Some(now)) => NewRowFolds(id, now, entries);
    case (Some(was), Some(now)) =>
      if id in client.tasks { KnownRowFolds(id, was, now, LastAbout(log, id, |log|).value, entries); }
      else { EndedStays(id, was, now, LastAbout(log, id, |log|).value, entries, now0); }
  }

  /** A task that left the picture has ended, and nothing is said about it any more. */
  lemma EndedStays(id: TaskId, was: Task, now: Task, e0: Entry, entries: seq<Entry>, now0: Time)
    requires Face(was, now) && !Shows(RowView(was, e0), now0) && Whats(entries) == RowEvents(id, Some(was), now)
    ensures entries == [] && !Shows(RowView(now, e0), now0)
  {
    assert was.state.Terminal();
  }

  lemma StepStays(set': Settings, s: CompanyStep, c: Company, log: seq<Entry>, c': Company, log': seq<Entry>, client: Picture, now0: Time)
    requires Commits(set', s, c, log, c', log') && InStep(c, log, client, now0)
    ensures InStep(c', log', Fold(client, Readable(log'[|log|..])), now0)
  {
    var more := log'[|log|..];
    if s.Work? { Queue.NextKeeps(c.world, set', s.step); }
    forall id ensures Follows(c', log', Fold(client, Readable(more)), now0, id) {
      FollowsOn(set', s, c, log, c', log', client, now0, id);
    }
    CycleStays(set', s, c, log, c', log', client, now0);
    SeqStays(c, log, log', client);
  }

  lemma CycleStays(set': Settings, s: CompanyStep, c: Company, log: seq<Entry>, c': Company, log': seq<Entry>, client: Picture, now0: Time)
    requires Commits(set', s, c, log, c', log') && Honest(c.world) && CyclesOk(c.cycles) && Increasing(log) && client.lastSeq <= Head(log)
    requires client.cycle == (if c.cycles == [] then None else Some(LatestCycle(c.cycles)))
    ensures CyclesOk(c'.cycles)
    ensures Fold(client, Readable(log'[|log|..])).cycle == (if c'.cycles == [] then None else Some(LatestCycle(c'.cycles)))
  {
    var more := log'[|log|..];
    TailIsLater(log, log', client);
    ReadableIsLater(client, more);
    FoldByCycle(client, Readable(more));
    ReadableTellsAll(more, |more|, (0, 0));
    assert more[..|more|] == more;
    CommitTells(set', s, c, log, c', log');
    CycleFolds(c.cycles, s, CycleEntries(more));
  }

  lemma SeqStays(c: Company, log: seq<Entry>, log': seq<Entry>, client: Picture)
    requires log <= log' && Increasing(log') && Increasing(log) && client.lastSeq <= Head(log)
    ensures Fold(client, Readable(log'[|log|..])).lastSeq <= Head(log')
  {
    var more := log'[|log|..];
    TailIsLater(log, log', client);
    ReadableIsLater(client, more);
    FoldByTask(client, Readable(more), (0, 0));
    if more == [] { assert log' == log; }
    else if log != [] { assert Before(log', |log| - 1, |log'| - 1); }
  }

  /** A client whose picture was loaded at transaction `k` and who has applied the events up to
      transaction `m` that can be read. */
  function ClientAt(companies: seq<Company>, logs: seq<seq<Entry>>, k: nat, m: nat, now0: Time): Picture
    requires k <= m < |companies| == |logs| && |logs[k]| <= |logs[m]|
  {
    Fold(Snapshot(companies[k], logs[k], now0), Readable(logs[m][|logs[k]|..]))
  }

  lemma {:induction false} LogsGrow(set': Settings, steps: seq<CompanyStep>, companies: seq<Company>, logs: seq<seq<Entry>>, k: nat, m: nat)
    requires IsHistory(set', steps, companies, logs) && k <= m < |logs|
    ensures logs[k] <= logs[m]
  {
    if k < m { LogsGrow(set', steps, companies, logs, k, m - 1); }
  }

  lemma ReadableJoin(a: seq<Entry>, b: seq<Entry>)
    ensures Readable(a + b) == Readable(a) + Readable(b)
  {
    BetweenSplit(a + b, 0, |a|, |a + b|);
    assert (a + b)[0..|a|] == a[0..|a|];
    BetweenSame(a + b, 0, |a|, a, 0);
    assert (a + b)[|a|..|a + b|] == b[0..|b|];
    BetweenSame(a + b, |a|, |a + b|, b, 0);
  }

  lemma {:induction false} FromInStep(set': Settings, steps: seq<CompanyStep>, companies: seq<Company>, logs: seq<seq<Entry>>,
                                      k: nat, m: nat, client: Picture, now0: Time)
    requires IsHistory(set', steps, companies, logs) && k <= m < |logs|
    requires InStep(companies[k], logs[k], client, now0)
    ensures logs[k] <= logs[m] && InStep(companies[m], logs[m], Fold(client, Readable(logs[m][|logs[k]|..])), now0)
  {
    if k == m {
      assert logs[m][|logs[k]|..] == [];
    } else {
      FromInStep(set', steps, companies, logs, k, m - 1, client, now0);
      var before, more := logs[m - 1][|logs[k]|..], logs[m][|logs[m - 1]|..];
      assert Commits(set', steps[m - 1], companies[m - 1], logs[m - 1], companies[m], logs[m]);
      StepStays(set', steps[m - 1], companies[m - 1], logs[m - 1], companies[m], logs[m], Fold(client, Readable(before)), now0);
      assert logs[m][|logs[k]|..] == before + more;
      ReadableJoin(before, more);
      FoldJoin(client, Readable(before), Readable(more));
    }
  }

  lemma NothingYet(now0: Time)
    ensures InStep(Company(World([], 0), []), [], Picture(0, None, map[], []), now0)
  {
    forall id ensures Follows(Company(World([], 0), []), [], Picture(0, None, map[], []), now0, id) {}
  }

  /** A snapshot is in step with the rows and the log it was read from. */
  lemma SnapshotInStep(set': Settings, steps: seq<CompanyStep>, companies: seq<Company>, logs: seq<seq<Entry>>, k: nat, now0: Time)
    requires IsHistory(set', steps, companies, logs) && k < |logs|
    ensures InStep(companies[k], logs[k], Snapshot(companies[k], logs[k], now0), now0)
  {
    NothingYet(now0);
    var first := Picture(0, None, map[], []);
    FromInStep(set', steps, companies, logs, 0, k, first, now0);
    var c, log := companies[k], logs[k];
    forall id ensures Follows(c, log, Snapshot(c, log, now0), now0, id) {
      assert Follows(c, log, Fold(first, Readable(log[|logs[0]|..])), now0, id);
      assert id in TaskIds(c.world) <==> RowAt(c, id).Some?;
    }
  }

  /** A client hydrated at one transaction that has applied the later events holds, at every later
      transaction and every later moment, the tasks and the cycle the server reads from its rows. Of
      the recent events it may hold more than the server reads, which counts its rows before it
      passes over those it cannot read; where the last rows can all be read, it holds the same. */
  lemma ReducerAgreesWithProjection(set': Settings, steps: seq<CompanyStep>, companies: seq<Company>, logs: seq<seq<Entry>>,
                                    k: nat, m: nat, now0: Time, now: Time)
    requires IsHistory(set', steps, companies, logs) && k <= m < |logs| && now0 <= now
    ensures |logs[k]| <= |logs[m]|
    ensures ViewAt(ClientAt(companies, logs, k, m, now0), now).tasks == Snapshot(companies[m], logs[m], now).tasks
    ensures ClientAt(companies, logs, k, m, now0).cycle == Snapshot(companies[m], logs[m], now).cycle
    ensures EndsWith(ClientAt(companies, logs, k, m, now0).recent, Snapshot(companies[m], logs[m], now).recent)
    ensures (forall e :: e in Last(logs[m], RECENT) ==> e.readable) ==>
              ClientAt(companies, logs, k, m, now0).recent == Snapshot(companies[m], logs[m], now).recent
  {
    SnapshotInStep(set', steps, companies, logs, k, now0);
    FromInStep(set', steps, companies, logs, k, m, Snapshot(companies[k], logs[k], now0), now0);
    SameTasks(companies[m], logs[m], ClientAt(companies, logs, k, m, now0), now0, now);
    SameRecent(companies, logs, k, m, now0, now);
  }

  lemma SameTask(c: Company, log: seq<Entry>, client: Picture, now0: Time, now: Time, id: TaskId)
    requires InStep(c, log, client, now0) && now0 <= now
    ensures Get(ViewAt(client, now).tasks, id) == Get(Snapshot(c, log, now).tasks, id)
  {
    assert Follows(c, log, client, now0, id);
    assert id in TaskIds(c.world) <==> RowAt(c, id).Some?;
  }

  lemma SameTasks(c: Company, log: seq<Entry>, client: Picture, now0: Time, now: Time)
    requires InStep(c, log, client, now0) && now0 <= now
    ensures ViewAt(client, now).tasks == Snapshot(c, log, now).tasks
  {
    var mine, theirs := ViewAt(client, now).tasks, Snapshot(c, log, now).tasks;
    forall id ensures Get(mine, id) == Get(theirs, id) { SameTask(c, log, client, now0, now, id); }
    forall id ensures id in mine <==> id in theirs { assert Get(mine, id) == Get(theirs, id); }
    forall id | id in mine ensures mine[id] == theirs[id] { assert Get(mine, id) == Get(theirs, id); }
  }

  lemma {:induction false} AllReadable(rows: seq<Entry>, n: nat)
    requires n <= |rows| && forall k :: 0 <= k < n ==> rows[k].readable
    ensures Between(rows, 0, n) == rows[..n]
  {
    if n > 0 { AllReadable(rows, n - 1); }
  }

  lemma LastOfLast<T>(a: seq<T>, b: seq<T>, n: nat)
    ensures Last(Last(a, n) + b, n) == Last(a + b, n)
  {
  }

  lemma LastOfJoin<T>(a: seq<T>, b: seq<T>, n: nat)
    requires |b| <= n
    ensures EndsWith(Last(a + b, n), b)
    ensures |b| == n || a == [] ==> Last(a + b, n) == b
  {
    if a == [] { assert a + b == b; }
  }

  /** What can be read of the last rows is the end of the last that can be read; where the last rows
      can all be read, the two are the same. */
  lemma LastReadable(rows: seq<Entry>, n: nat)
    ensures EndsWith(Last(Readable(rows), n), Readable(Last(rows, n)))
    ensures (forall e :: e in Last(rows, n) ==> e.readable) ==> Last(Readable(rows), n) == Readable(Last(rows, n))
  {
    var tail := Last(rows, n);
    var front := rows[..|rows| - |tail|];
    assert rows == front + tail;
    ReadableJoin(front, tail);
    ReadableShorter(tail, |tail|);
    LastOfJoin(Readable(front), Readable(tail), n);
    if forall e :: e in tail ==> e.readable { ReadableWhole(tail); }
  }

  lemma ReadableWhole(rows: seq<Entry>)
    requires forall e :: e in rows ==> e.readable
    ensures Readable(rows) == rows
  {
    forall k | 0 <= k < |rows| ensures rows[k].readable { assert rows[k] in rows; }
    AllReadable(rows, |rows|);
    assert rows[..|rows|] == rows;
  }

  lemma SameRecent(companies: seq<Company>, logs: seq<seq<Entry>>, k: nat, m: nat, now0: Time, now: Time)
    requires k <= m < |companies| == |logs| && logs[k] <= logs[m] && Increasing(logs[m])
    ensures EndsWith(ClientAt(companies, logs, k, m, now0).recent, Snapshot(companies[m], logs[m], now).recent)
    ensures (forall e :: e in Last(logs[m], RECENT) ==> e.readable) ==>
              ClientAt(companies, logs, k, m, now0).recent == Snapshot(companies[m], logs[m], now).recent
  {
    var log, more := logs[k], logs[m][|logs[k]|..];
    var start := Snapshot(companies[k], log, now0);
    TailIsLater(log, logs[m], start);
    ReadableIsLater(start, more);
    ReadableShorter(Last(log, RECENT), |Last(log, RECENT)|);
    FoldRecent(start, Readable(more));
    ReadableJoin(Last(log, RECENT), more);
    LastOfLast(log, more, RECENT);
    assert log + more == logs[m];
    LastReadable(Last(log, RECENT) + more, RECENT);
  }

  lemma {:induction false} ReadableShorter(rows: seq<Entry>, n: nat)
    requires n <= |rows|
    ensures |Between(rows, 0, n)| <= n
  {
    if n > 0 { ReadableShorter(rows, n - 1); }
  }
}
