/** What the server reads for a client (backend/autora/realtime/projection.py:128-156, 219-284), in terms
    of the rows and of the log. */
module Views {
  import opened Wrappers
  import opened Lifecycles
  import opened Tasks
  import opened Rows
  import opened Queue
  import opened EventLog
  import opened Cycles
  import opened Events
  import opened Reducer
  import opened Projection
  import opened Mirror

  const TEN_MINUTES := 10 * 60 * 1000000

  /** The event stands last of those about the task. */
  ghost predicate IsLastAbout(log: seq<Entry>, id: TaskId, p: nat) {
    && p < |log| && About(log[p].payload.what) == Some(id)
    && forall q {:trigger log[q]} :: p < q < |log| ==> About(log[q].payload.what) != Some(id)
  }

  lemma {:induction false} LastAboutIs(log: seq<Entry>, id: TaskId, k: nat) returns (p: nat)
    requires k <= |log| && LastAbout(log, id, k).Some?
    ensures p < k && log[p] == LastAbout(log, id, k).value && About(log[p].payload.what) == Some(id)
    ensures forall q {:trigger log[q]} :: p < q < k ==> About(log[q].payload.what) != Some(id)
  {
    if About(log[k - 1].payload.what) == Some(id) { p := k - 1; } else { p := LastAboutIs(log, id, k - 1); }
  }

  /** The row as a client is to see it. */
  ghost predicate ShowsRow(v: TaskView, t: Task, e: Entry) {
    && v.name == t.name && v.role == t.role && v.state == t.state && v.attempt == t.attempt
    && (t.runs == [] ==> v.run.None? && v.agent.None?)
    && (t.runs != [] ==> v.run == Some(t.runs[|t.runs| - 1].attempt) && v.agent == Some(t.runs[|t.runs| - 1].agent))
    && v.since == e.payload.at && v.lastEventSeq == e.seqNo
  }

  ghost predicate TaskIsShown(c: Company, log: seq<Entry>, now: Time, shown: map<TaskId, TaskView>, r: nat, i: nat) {
    r < |c.world.flows| && i < |c.world.flows[r].tasks| ==>
      exists p: nat {:trigger IsLastAbout(log, (r, i), p)} :: IsLastAbout(log, (r, i), p)
        && var t, e := c.world.flows[r].tasks[i], log[p];
           && ((r, i) in shown <==> (t.state != Succeeded && t.state != Failed && t.state != Cancelled) || now - TEN_MINUTES < e.payload.at)
           && ((r, i) in shown ==> ShowsRow(shown[(r, i)], t, e))
  }

  lemma SnapshotHas(c: Company, log: seq<Entry>, now: Time, id: TaskId)
    ensures var row, e, shown := RowAt(c, id), LastAbout(log, id, |log|), Snapshot(c, log, now).tasks;
            && (id in shown <==> row.Some? && e.Some? && Shows(RowView(row.value, e.value), now))
            && (id in shown ==> shown[id] == RowView(row.value, e.value))
  {
    assert id in TaskIds(c.world) <==> RowAt(c, id).Some?;
  }

  lemma RowShows(t: Task, e: Entry, now: Time)
    ensures ShowsRow(RowView(t, e), t, e)
    ensures Shows(RowView(t, e), now) <==> (t.state != Succeeded && t.state != Failed && t.state != Cancelled) || now - TEN_MINUTES < e.payload.at
  {
  }

  lemma OneTaskIsShown(c: Company, log: seq<Entry>, now: Time, r: nat, i: nat)
    requires RowAt(c, (r, i)).Some? ==> LastAbout(log, (r, i), |log|).Some?
    ensures TaskIsShown(c, log, now, Snapshot(c, log, now).tasks, r, i)
  {
    if r < |c.world.flows| && i < |c.world.flows[r].tasks| {
      var t := c.world.flows[r].tasks[i];
      assert RowAt(c, (r, i)) == Some(t);
      var p := LastAboutIs(log, (r, i), |log|);
      SnapshotHas(c, log, now, (r, i));
      RowShows(t, log[p], now);
      assert IsLastAbout(log, (r, i), p);
    }
  }

  lemma EachHasAnEvent(c: Company, log: seq<Entry>, client: Picture, now: Time, id: TaskId)
    requires InStep(c, log, client, now)
    ensures Increasing(log) && (RowAt(c, id).Some? ==> LastAbout(log, id, |log|).Some?)
  {
    assert Follows(c, log, client, now, id);
  }

  /** In every history: each task has an event that is the last about it; the task is shown exactly while it
      is unfinished, or for ten minutes after that event, as its row, its last run and that event say. Nothing
      else is shown, the cycle is the last one, and the snapshot is as of the end of the log. */
  lemma SnapshotShows(set': Settings, steps: seq<CompanyStep>, companies: seq<Company>, logs: seq<seq<Entry>>, m: nat, now: Time)
    requires IsHistory(set', steps, companies, logs) && m < |logs|
    ensures var c, log, shown := companies[m], logs[m], Snapshot(companies[m], logs[m], now);
            && (forall r: nat, i: nat {:trigger TaskIsShown(c, log, now, shown.tasks, r, i)} :: TaskIsShown(c, log, now, shown.tasks, r, i))
            && (forall id :: id in shown.tasks ==> id.0 < |c.world.flows| && id.1 < |c.world.flows[id.0].tasks|)
            && (c.cycles == [] ==> shown.cycle.None?)
            && (c.cycles != [] ==>
                  var last := c.cycles[|c.cycles| - 1];
                  && shown.cycle.Some? && shown.cycle.value.number == last.number
                  && shown.cycle.value.stage == last.stage && shown.cycle.value.deadline == last.deadline)
            && (log == [] ==> shown.lastSeq == 0) && (log != [] ==> shown.lastSeq == log[|log| - 1].seqNo)
  {
    SnapshotInStep(set', steps, companies, logs, m, now);
    var c, log := companies[m], logs[m];
    forall r: nat, i: nat ensures TaskIsShown(c, log, now, Snapshot(c, log, now).tasks, r, i) {
      EachHasAnEvent(c, log, Snapshot(c, log, now), now, (r, i));
      OneTaskIsShown(c, log, now, r, i);
    }
    forall id | id in Snapshot(c, log, now).tasks ensures id.0 < |c.world.flows| && id.1 < |c.world.flows[id.0].tasks| {
      SnapshotHas(c, log, now, id);
    }
  }

  lemma LastIncreases<P>(log: seq<Event<P>>, n: nat)
    requires Increasing(log)
    ensures Increasing(Last(log, n))
  {
    var rows, first := Last(log, n), |log| - |Last(log, n)|;
    forall i, j {:trigger Before(rows, i, j)} ensures Before(rows, i, j) { assert Before(log, first + i, first + j); }
    if rows != [] && first > 0 { assert Before(log, 0, first); }
  }

  lemma LastHolds<T>(s: seq<T>, n: nat, x: T)
    ensures (exists k :: 0 <= k < |Last(s, n)| && Last(s, n)[k] == x) <==> exists j :: 0 <= j < |s| && |s| - n <= j && s[j] == x
  {
    var rows := Last(s, n);
    var first := |s| - |rows|;
    if exists k :: 0 <= k < |rows| && rows[k] == x {
      var k :| 0 <= k < |rows| && rows[k] == x;
      assert s[first + k] == x;
    }
    if exists j :: first <= j < |s| && s[j] == x {
      var j :| first <= j < |s| && s[j] == x;
      assert rows[j - first] == x;
    }
  }

  lemma ReadableOfLast<P>(log: seq<Event<P>>, n: nat, e: Event<P>)
    requires Increasing(log)
    ensures e in Readable(Last(log, n)) <==> e.readable && exists j :: 0 <= j < |log| && |log| - n <= j && log[j] == e
    ensures Increasing(Readable(Last(log, n)))
  {
    LastIncreases(log, n);
    LastHolds(log, n, e);
    BetweenHolds(Last(log, n), 0, |Last(log, n)|, e);
    BetweenIncreases(Last(log, n), 0, |Last(log, n)|);
  }

  lemma Orders<P>(log: seq<Event<P>>)
    requires Increasing(log)
    ensures forall i, j :: 0 <= i < j < |log| ==> log[i].seqNo < log[j].seqNo
  {
    forall i, j | 0 <= i < j < |log| ensures log[i].seqNo < log[j].seqNo { assert Before(log, i, j); }
  }

  /** The recent events are those of the last hundred rows that can be read, in their order. */
  lemma RecentAre(set': Settings, steps: seq<CompanyStep>, companies: seq<Company>, logs: seq<seq<Entry>>, m: nat, now: Time, e: Entry)
    requires IsHistory(set', steps, companies, logs) && m < |logs|
    ensures var log, recent := logs[m], Snapshot(companies[m], logs[m], now).recent;
            && (e in recent <==> e.readable && exists j :: 0 <= j < |log| && |log| - 100 <= j && log[j] == e)
            && forall i, j :: 0 <= i < j < |recent| ==> recent[i].seqNo < recent[j].seqNo
  {
    SnapshotInStep(set', steps, companies, logs, m, now);
    EachHasAnEvent(companies[m], logs[m], Snapshot(companies[m], logs[m], now), now, (0, 0));
    ReadableOfLast(logs[m], 100, e);
    Orders(Readable(Last(logs[m], 100)));
  }

  /** What the client shows of the tasks it holds: the unfinished, and the others for ten minutes. */
  lemma ClientShows(p: Picture, now: Time, id: TaskId)
    ensures var shown := ViewAt(p, now);
            && shown.lastSeq == p.lastSeq && shown.cycle == p.cycle && shown.recent == p.recent
            && (id in shown.tasks <==>
                  id in p.tasks
                  && (p.tasks[id].state in {Succeeded, Failed, Cancelled} ==> now - TEN_MINUTES < p.tasks[id].since))
            && (id in shown.tasks ==> shown.tasks[id] == p.tasks[id])
  {
  }
}
