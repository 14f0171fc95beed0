/** What a transaction emits tells what it did: event by event, per task, the difference between the rows
    before and after it. */
module Tellings {
  import opened Wrappers
  import opened Lifecycles
  import opened Templates
  import opened Tasks
  import opened Rows
  import opened Flows
  import opened FlowRounds
  import opened Events
  import opened Sayings
  import opened Engine
  import opened Queue
  import opened Emissions
  import opened Projection

  // ---- a cascade, one waiter after the other -----------------------------------------------------

  /** The tasks after cancelling what waits for `i`, from task `j` on. */
  ghost function CascadeTasks(tasks: seq<Task>, i: nat, j: nat, now: Time): seq<Task>
    decreases Unfinished(tasks), |tasks| - j
  {
    if j >= |tasks| then tasks
    else if Waits(tasks, i, j) then
      CancelOneShrinks(tasks, j, now);
      CascadeTasks(Cascade(CancelThese(tasks, {j}, now), j, now), i, j + 1, now)
    else CascadeTasks(tasks, i, j + 1, now)
  }

  lemma {:induction false} CascadeRuns(was: seq<Task>, i: nat, j: nat, c: set<nat>, now: Time)
    requires i < |was| && j <= |was| && Cascading(was, i, c) && WaitersIn(was, i, j, c)
    ensures CascadeTasks(CancelThese(was, c, now), i, j, now) == Cascade(was, i, now)
    decreases |was| - j
  {
    var tasks := CancelThese(was, c, now);
    if j == |was| {
      CascadeComplete(was, i, c);
    } else if Waits(tasks, i, j) {
      var mid := CancelThese(was, c + {j}, now);
      var more := Doomed(mid, j);
      CascadeOneMore(was, i, c, j, now);
      CancelTwice(was, c, {j}, now);
      CancelTwice(was, c + {j}, more, now);
      OneMoreWaiterIn(was, i, j, c, c + {j} + more);
      CascadeRuns(was, i, j + 1, c + {j} + more, now);
    } else {
      OneMoreWaiterIn(was, i, j, c, c);
      CascadeRuns(was, i, j + 1, c, now);
    }
  }

  lemma CascadeIsRun(tasks: seq<Task>, i: nat, now: Time)
    requires i < |tasks|
    ensures CascadeTasks(tasks, i, 0, now) == Cascade(tasks, i, now)
  {
    assert CancelThese(tasks, {}, now) == tasks;
    CascadeRuns(tasks, i, 0, {}, now);
  }

  /** A task is as it was, or was cancelled; then, and only then, that is said. */
  ghost predicate SaidCancelled(r: nat, before: seq<Task>, after: seq<Task>, says: seq<What>, id: TaskId) {
    && |after| == |before|
    && (id.1 < |before| && after[id.1] != before[id.1] ==> !before[id.1].state.Terminal() && after[id.1].state == Cancelled)
    && Telling(says, id) == if id.0 == r && id.1 < |before| && after[id.1] != before[id.1] then [TaskCancelled(id)] else []
  }

  lemma SaidBoth(r: nat, a: seq<Task>, b: seq<Task>, c: seq<Task>, says: seq<What>, more: seq<What>, id: TaskId)
    requires SaidCancelled(r, a, b, says, id) && SaidCancelled(r, b, c, more, id)
    ensures SaidCancelled(r, a, c, says + more, id)
  {
    TellingJoin(says, more, id);
  }

  lemma OneCancelled(r: nat, tasks: seq<Task>, j: nat, now: Time, id: TaskId)
    requires j < |tasks| && !tasks[j].state.Terminal()
    ensures SaidCancelled(r, tasks, CancelThese(tasks, {j}, now), [TaskCancelled((r, j))], id)
  {
    TellingOne(TaskCancelled((r, j)), id);
  }

  lemma {:induction false} CascadeTells(r: nat, tasks: seq<Task>, i: nat, j: nat, now: Time, id: TaskId)
    ensures SaidCancelled(r, tasks, CascadeTasks(tasks, i, j, now), CascadeSays(r, tasks, i, j, now), id)
    decreases Unfinished(tasks), |tasks| - j
  {
    if j < |tasks| {
      if Waits(tasks, i, j) {
        CancelOneShrinks(tasks, j, now);
        OneWithCascade(r, tasks, j, now, id);
        var t := CancelThese(tasks, {j}, now);
        var t2 := Cascade(t, j, now);
        CascadeTells(r, t2, i, j + 1, now, id);
        SaidBoth(r, tasks, t2, CascadeTasks(t2, i, j + 1, now), [TaskCancelled((r, j))] + CascadeSays(r, t, j, 0, now), CascadeSays(r, t2, i, j + 1, now), id);
      } else {
        CascadeTells(r, tasks, i, j + 1, now, id);
      }
    }
  }

  lemma {:induction false} OneWithCascade(r: nat, tasks: seq<Task>, j: nat, now: Time, id: TaskId)
    requires j < |tasks| && !tasks[j].state.Terminal()
    ensures var t := CancelThese(tasks, {j}, now);
            SaidCancelled(r, tasks, Cascade(t, j, now), [TaskCancelled((r, j))] + CascadeSays(r, t, j, 0, now), id)
    decreases Unfinished(tasks), 0
  {
    var t := CancelThese(tasks, {j}, now);
    CancelOneShrinks(tasks, j, now);
    OneCancelled(r, tasks, j, now, id);
    CascadeTells(r, t, j, 0, now, id);
    CascadeIsRun(t, j, now);
    SaidBoth(r, tasks, t, Cascade(t, j, now), [TaskCancelled((r, j))], CascadeSays(r, t, j, 0, now), id);
  }

  lemma WholeCascadeTells(r: nat, tasks: seq<Task>, i: nat, now: Time, id: TaskId)
    requires i < |tasks|
    ensures SaidCancelled(r, tasks, Cascade(tasks, i, now), CascadeSays(r, tasks, i, 0, now), id)
  {
    CascadeTells(r, tasks, i, 0, now, id);
    CascadeIsRun(tasks, i, now);
  }

  // ---- cancelling a run --------------------------------------------------------------------------

  ghost function StopTasks(tasks: seq<Task>, j: nat, now: Time): seq<Task>
    decreases |tasks| - j
  {
    if j >= |tasks| then tasks
    else if !tasks[j].state.Terminal() then StopTasks(Cascade(CancelThese(tasks, {j}, now), j, now), j + 1, now)
    else StopTasks(tasks, j + 1, now)
  }

  lemma StopOne(was: seq<Task>, j: nat, c: set<nat>, now: Time)
    requires j < |was| && c <= Unfinished(was) && !CancelThese(was, c, now)[j].state.Terminal()
    ensures var more := Doomed(CancelThese(was, c + {j}, now), j);
            && c + {j} + more <= Unfinished(was)
            && Cascade(CancelThese(CancelThese(was, c, now), {j}, now), j, now) == CancelThese(was, c + {j} + more, now)
  {
    var mid := CancelThese(was, c + {j}, now);
    CancelTwice(was, c, {j}, now);
    DoomedAreUnfinished(mid, j);
    CancelShrinks(was, c + {j}, now);
    DoomedAreOthers(was, c + {j}, j, now);
    CancelTwice(was, c + {j}, Doomed(mid, j), now);
  }

  lemma UptoNext(was: seq<Task>, j: nat, c: set<nat>, c': set<nat>)
    requires j < |was| && Upto(was, j) <= c <= c' && (j in Unfinished(was) ==> j in c')
    ensures Upto(was, j + 1) <= c'
  {
  }

  lemma {:induction false} StopStep(was: seq<Task>, j: nat, c: set<nat>, now: Time) returns (c': set<nat>)
    requires j < |was| && Upto(was, j) <= c <= Unfinished(was)
    ensures Upto(was, j + 1) <= c' <= Unfinished(was)
    ensures StopTasks(CancelThese(was, c, now), j, now) == StopTasks(CancelThese(was, c', now), j + 1, now)
  {
    c' := c;
    if !CancelThese(was, c, now)[j].state.Terminal() {
      StopOne(was, j, c, now);
      c' := c + {j} + Doomed(CancelThese(was, c + {j}, now), j);
    } else {
      assert j in Unfinished(was) ==> j in c;
    }
    UptoNext(was, j, c, c');
  }

  lemma {:induction false} StopRuns(was: seq<Task>, j: nat, c: set<nat>, now: Time)
    requires j <= |was| && Upto(was, j) <= c <= Unfinished(was)
    ensures StopTasks(CancelThese(was, c, now), j, now) == CancelThese(was, Unfinished(was), now)
    decreases |was| - j
  {
    if j == |was| {
      AllUnfinished(was, c);
    } else {
      var c' := StopStep(was, j, c, now);
      StopRuns(was, j + 1, c', now);
    }
  }

  lemma {:induction false} StopTells(r: nat, tasks: seq<Task>, j: nat, now: Time, id: TaskId)
    ensures SaidCancelled(r, tasks, StopTasks(tasks, j, now), StopSays(r, tasks, j, now), id)
    decreases |tasks| - j
  {
    if j < |tasks| {
      if !tasks[j].state.Terminal() {
        OneWithCascade(r, tasks, j, now, id);
        var t := CancelThese(tasks, {j}, now);
        var t2 := Cascade(t, j, now);
        StopTells(r, t2, j + 1, now, id);
        SaidBoth(r, tasks, t2, StopTasks(t2, j + 1, now), [TaskCancelled((r, j))] + CascadeSays(r, t, j, 0, now), StopSays(r, t2, j + 1, now), id);
      } else {
        StopTells(r, tasks, j + 1, now, id);
      }
    }
  }

  lemma WholeStopTells(r: nat, tasks: seq<Task>, now: Time, id: TaskId)
    ensures SaidCancelled(r, tasks, CancelThese(tasks, Unfinished(tasks), now), StopSays(r, tasks, 0, now), id)
  {
    StopTells(r, tasks, 0, now, id);
    assert CancelThese(tasks, {}, now) == tasks;
    StopRuns(tasks, 0, {}, now);
  }

  // ---- adding and unlocking ----------------------------------------------------------------------

  lemma AddedTells(id: TaskId, t: Task, about: TaskId)
    ensures Telling(AddedSays(id, t), about) == if about == id then AddedSays(id, t) else []
  {
    TellingOne(TaskCreated(id, t.name, t.role), about);
    TellingOne(TaskReady(id), about);
    TellingJoin([TaskCreated(id, t.name, t.role)], [TaskReady(id)], about);
    if t.state != Ready { assert AddedSays(id, t) == [TaskCreated(id, t.name, t.role)]; }
  }

  lemma {:induction false} AllAddedTell(r: nat, added: seq<Task>, base: nat, k: nat, id: TaskId)
    requires k <= |added|
    ensures Telling(AllAddedSay(r, added, base, k), id) ==
            if id.0 == r && base <= id.1 < base + k then AddedSays(id, added[id.1 - base]) else []
    decreases k
  {
    if k > 0 {
      var says, one := AllAddedSay(r, added, base, k - 1), AddedSays((r, base + k - 1), added[k - 1]);
      AllAddedTell(r, added, base, k - 1, id);
      AddedTells((r, base + k - 1), added[k - 1], id);
      TellingJoin(says, one, id);
      assert AllAddedSay(r, added, base, k) == says + one;
      assert id == (r, base + k - 1) <==> id.0 == r && id.1 == base + k - 1;
    }
  }

  lemma {:induction false} UnlockTells(r: nat, tasks: seq<Task>, i: nat, k: nat, id: TaskId)
    requires k <= |tasks|
    ensures Telling(UnlockSays(r, tasks, i, k), id) ==
            if id.0 == r && id.1 < k && Unlocks(tasks, i, tasks[id.1]) then [TaskReady(id)] else []
    decreases k
  {
    if k > 0 {
      var says, one := UnlockSays(r, tasks, i, k - 1), if Unlocks(tasks, i, tasks[k - 1]) then [TaskReady((r, k - 1))] else [];
      UnlockTells(r, tasks, i, k - 1, id);
      TellingOne(TaskReady((r, k - 1)), id);
      TellingJoin(says, one, id);
      assert UnlockSays(r, tasks, i, k) == says + one;
    }
  }

  // ---- the reaction to a success -----------------------------------------------------------------

  /** What a reaction makes of the tasks of run `r` is what is said. */
  ghost predicate SaidReaction(r: nat, before: seq<Task>, after: seq<Task>, says: seq<What>, id: TaskId) {
    && |before| <= |after|
    && (id.1 < |before| ==> Reacted(before[id.1], after[id.1]))
    && Telling(says, id) ==
       if id.0 != r || id.1 >= |after| then []
       else if id.1 >= |before| then AddedSays(id, after[id.1])
       else if after[id.1].state == before[id.1].state then []
       else if after[id.1].state == Cancelled then [TaskCancelled(id)]
       else [TaskReady(id)]
  }

  predicate Reacted(was: Task, now: Task) {
    now.state == was.state || (!was.state.Terminal() && now.state == Cancelled) || (was.state == Pending && now.state == Ready)
  }

  lemma CancelledIsReaction(r: nat, before: seq<Task>, after: seq<Task>, says: seq<What>, id: TaskId)
    requires SaidCancelled(r, before, after, says, id)
    ensures SaidReaction(r, before, after, says, id)
  {
  }

  lemma RoundTells(r: nat, f: Flow, i: nat, loop: Loop, id: TaskId)
    requires i < |f.tasks|
    ensures SaidReaction(r, f.tasks, RoundTasks(f, i, loop), AllAddedSay(r, NewCopies(f, loop), |f.tasks|, |NewCopies(f, loop)|), id)
  {
    AllAddedTell(r, NewCopies(f, loop), |f.tasks|, |NewCopies(f, loop)|, id);
    var after := RoundTasks(f, i, loop);
    if id.1 < |f.tasks| { RoundKept(f, i, loop, id.1); }
    else if id.1 < |after| { assert after[id.1] == NewCopies(f, loop)[id.1 - |f.tasks|]; }
  }

  lemma UnlockedTells(r: nat, tasks: seq<Task>, i: nat, id: TaskId)
    ensures SaidReaction(r, tasks, Unlock(tasks, i), UnlockSays(r, tasks, i, |tasks|), id)
  {
    UnlockTells(r, tasks, i, |tasks|, id);
  }

  lemma SuccessTells(r: nat, f: Flow, i: nat, output: Output, now: Time, id: TaskId)
    requires i < |f.tasks|
    ensures SaidReaction(r, f.tasks, AfterSuccess(f, i, output, now).tasks, SuccessSays(r, f, i, output, now), id)
  {
    var loop := FirstLoop(f.template.loops, f.tasks[i].name, output);
    if Halts(f.template, f.tasks[i].name, output) || (loop.Some? && !RoundsLeft(f, loop.value)) {
      WholeCascadeTells(r, f.tasks, i, now, id);
      CancelledIsReaction(r, f.tasks, Cascade(f.tasks, i, now), CascadeSays(r, f.tasks, i, 0, now), id);
    } else if loop.Some? {
      RoundTells(r, f, i, loop.value, id);
    } else {
      UnlockedTells(r, f.tasks, i, id);
    }
  }

  // ---- the transaction's own words ---------------------------------------------------------------

  /** The words are about one task and tell how its row changed. */
  ghost predicate SaidOwn(id: TaskId, was: Task, now: Task, own: seq<What>) {
    own == RowEvents(id, Some(was), now) && forall about {:trigger Telling(own, about)} :: Telling(own, about) == if about == id then own else []
  }

  lemma OwnAbout(id: TaskId, own: seq<What>)
    requires |own| <= 2 && forall k :: 0 <= k < |own| ==> About(own[k]) == Some(id)
    ensures forall about {:trigger Telling(own, about)} :: Telling(own, about) == if about == id then own else []
  {
    forall about ensures Telling(own, about) == if about == id then own else [] {
      if |own| == 1 {
        assert own == [own[0]];
        TellingOne(own[0], about);
      } else if |own| == 2 {
        assert own == [own[0]] + [own[1]];
        TellingOne(own[0], about);
        TellingOne(own[1], about);
        TellingJoin([own[0]], [own[1]], about);
      }
    }
  }

  lemma ClaimOpsSay(id: TaskId, t: Task, set': Settings, s: Step)
    requires RowOk(t) && !OutcomeOf(t, set', s).Refused?
    requires s.Beating? || s.Advancing? || s.Suspending? || s.Succeeding?
    ensures OwnSays(id, t, s, false) == RowEvents(id, Some(t), OutcomeOf(t, set', s).row)
  {
  }

  lemma EndingsSay(id: TaskId, t: Task, set': Settings, s: Step)
    requires RowOk(t) && !OutcomeOf(t, set', s).Refused?
    requires s.Failing? || s.Aborting? || s.Reaping?
    ensures OwnSays(id, t, s, false) == RowEvents(id, Some(t), OutcomeOf(t, set', s).row)
  {
  }

  lemma OthersSay(id: TaskId, t: Task, set': Settings, s: Step)
    requires RowOk(t) && !OutcomeOf(t, set', s).Refused?
    requires s.Cancelling? || s.Awaiting? || s.Releasing? || s.Completing? || s.FailingWithoutRun? || s.Unblocking?
    ensures OwnSays(id, t, s, false) == RowEvents(id, Some(t), OutcomeOf(t, set', s).row)
  {
  }

  lemma OutcomeSays(id: TaskId, t: Task, set': Settings, s: Step)
    requires RowOk(t) && !OutcomeOf(t, set', s).Refused?
    ensures SaidOwn(id, t, OutcomeOf(t, set', s).row, OwnSays(id, t, s, false))
  {
    OwnAbout(id, OwnSays(id, t, s, false));
    if s.Beating? || s.Advancing? || s.Suspending? || s.Succeeding? { ClaimOpsSay(id, t, set', s); }
    else if s.Failing? || s.Aborting? || s.Reaping? { EndingsSay(id, t, set', s); }
    else { OthersSay(id, t, set', s); }
  }

  lemma ClaimSays(w: World, set': Settings, s: Step)
    requires s.Claiming? && w.Has(s.r, s.i) && RowOk(w.Row(s.r, s.i)) && MayClaim(w, s.agent, s.role, s.r, s.i, s.now)
    ensures SaidOwn((s.r, s.i), w.Row(s.r, s.i), ClaimRow(w, set', s.agent, s.owner, s.r, s.i, s.now),
                    OwnSays((s.r, s.i), w.Row(s.r, s.i), s, Busy(w, s.agent)))
  {
    OwnAbout((s.r, s.i), OwnSays((s.r, s.i), w.Row(s.r, s.i), s, Busy(w, s.agent)));
  }

  // ---- one transaction ---------------------------------------------------------------------------

  /** What is said about a task is the difference between its rows. */
  ghost predicate Told(r: nat, before: seq<Task>, after: seq<Task>, says: seq<What>, id: TaskId) {
    Telling(says, id) ==
    if id.0 != r || id.1 >= |after| then []
    else RowEvents(id, if id.1 < |before| then Some(before[id.1]) else None, after[id.1])
  }

  lemma MoveTold(r: nat, f: Flow, i: nat, row: Task, own: seq<What>, id: TaskId)
    requires i < |f.tasks| && SaidOwn((r, i), f.tasks[i], row, own)
    ensures Told(r, f.tasks, f.tasks[i := row], own, id)
  {
  }

  lemma SucceedTold(r: nat, f: Flow, i: nat, row: Task, output: Output, now: Time, own: seq<What>, id: TaskId)
    requires i < |f.tasks| && SaidOwn((r, i), f.tasks[i], row, own) && row.state == Succeeded && f.tasks[i].state.Active()
    ensures var f1 := f.(tasks := f.tasks[i := row]);
            Told(r, f.tasks, AfterSuccess(f1, i, output, now).tasks, SuccessSays(r, f1, i, output, now) + own, id)
  {
    var f1 := f.(tasks := f.tasks[i := row]);
    SuccessTells(r, f1, i, output, now, id);
    TellingJoin(SuccessSays(r, f1, i, output, now), own, id);
    ReactionTold(r, f1.tasks, AfterSuccess(f1, i, output, now).tasks, SuccessSays(r, f1, i, output, now), id);
  }

  /** A reaction's words about a task that was not acted upon. */
  lemma ReactionTold(r: nat, before: seq<Task>, after: seq<Task>, says: seq<What>, id: TaskId)
    requires SaidReaction(r, before, after, says, id)
    ensures Told(r, before, after, says, id)
    ensures id.1 < |before| && before[id.1].state.Terminal() ==> after[id.1].state == before[id.1].state && Telling(says, id) == []
  {
  }

  lemma DieTold(r: nat, f: Flow, i: nat, row: Task, now: Time, own: seq<What>, id: TaskId)
    requires i < |f.tasks| && SaidOwn((r, i), f.tasks[i], row, own) && row.state.Dead() && !f.tasks[i].state.Terminal()
    ensures var mid := f.tasks[i := row];
            Told(r, f.tasks, Cascade(mid, i, now), own + CascadeSays(r, mid, i, 0, now), id)
  {
    var mid := f.tasks[i := row];
    WholeCascadeTells(r, mid, i, now, id);
    CancelledIsReaction(r, mid, Cascade(mid, i, now), CascadeSays(r, mid, i, 0, now), id);
    ReactionTold(r, mid, Cascade(mid, i, now), CascadeSays(r, mid, i, 0, now), id);
    TellingJoin(own, CascadeSays(r, mid, i, 0, now), id);
  }

  lemma StopTold(r: nat, f: Flow, now: Time, id: TaskId)
    ensures Told(r, f.tasks, CancelThese(f.tasks, Unfinished(f.tasks), now), StopSays(r, f.tasks, 0, now), id)
  {
    WholeStopTells(r, f.tasks, now, id);
    CancelledIsReaction(r, f.tasks, CancelThese(f.tasks, Unfinished(f.tasks), now), StopSays(r, f.tasks, 0, now), id);
    ReactionTold(r, f.tasks, CancelThese(f.tasks, Unfinished(f.tasks), now), StopSays(r, f.tasks, 0, now), id);
  }

  lemma ActionTold(r: nat, f: Flow, a: Action, own: seq<What>, id: TaskId)
    requires Enabled(f, a) && (!a.CancelRun? ==> SaidOwn((r, a.i), f.tasks[a.i], a.row, own))
    ensures Told(r, f.tasks, Apply(f, a).tasks, ActionSays(r, f, a, own), id)
  {
    match a
    case Move(i, row) => MoveTold(r, f, i, row, own, id);
    case Succeed(i, row, output, now) => SucceedTold(r, f, i, row, output, now, own, id);
    case Die(i, row, now) => DieTold(r, f, i, row, now, own, id);
    case CancelRun(now) => StopTold(r, f, now, id);
  }

  lemma StartTold(r: nat, tasks: seq<Task>, id: TaskId)
    ensures Told(r, [], tasks, AllAddedSay(r, tasks, 0, |tasks|), id)
  {
    AllAddedTell(r, tasks, 0, |tasks|, id);
  }

  function RowIn(w: World, id: TaskId): Option<Task> {
    if w.Has(id.0, id.1) then Some(w.Row(id.0, id.1)) else None
  }

  lemma OwnTold(w: World, set': Settings, s: Step)
    requires Honest(w) && !s.Instantiate? && !s.Stopping? && ActionOf(w, set', s).Some?
    ensures var (r, i) := Target(s);
            && w.Has(r, i) && Enabled(w.flows[r], ActionOf(w, set', s).value) && !ActionOf(w, set', s).value.CancelRun?
            && ActionOf(w, set', s).value.i == i
            && SaidOwn((r, i), w.Row(r, i), ActionOf(w, set', s).value.row, OwnSays((r, i), w.Row(r, i), s, s.Claiming? && Busy(w, s.agent)))
  {
    var (r, i) := Target(s);
    ActionIsLawful(w, set', s);
    assert FlowOk(w.flows[r]) && RowOk(w.Row(r, i));
    if s.Claiming? { ClaimSays(w, set', s); } else { OutcomeSays((r, i), w.Row(r, i), set', s); }
  }

  lemma StartsTell(w: World, set': Settings, s: Step, id: TaskId)
    requires s.Instantiate?
    ensures Telling(EmittedBy(w, set', s), id) ==
            match RowIn(Next(w, set', s), id) case None => [] case Some(row) => RowEvents(id, RowIn(w, id), row)
  {
    StartTold(|w.flows|, Start(s.template).tasks, id);
  }

  lemma StopsTell(w: World, set': Settings, s: Step, id: TaskId)
    requires s.Stopping? && s.r < |w.flows|
    ensures Told(s.r, w.flows[s.r].tasks, Next(w, set', s).flows[s.r].tasks, EmittedBy(w, set', s), id)
  {
    ActionTold(s.r, w.flows[s.r], CancelRun(s.now), [], id);
  }

  lemma ActsTell(w: World, set': Settings, s: Step, id: TaskId)
    requires Honest(w) && !s.Instantiate? && !s.Stopping? && ActionOf(w, set', s).Some?
    ensures var r := Target(s).0;
            && r < |w.flows| && |Next(w, set', s).flows| == |w.flows|
            && Told(r, w.flows[r].tasks, Next(w, set', s).flows[r].tasks, EmittedBy(w, set', s), id)
  {
    var (r, i) := Target(s);
    OwnTold(w, set', s);
    ActionTold(r, w.flows[r], ActionOf(w, set', s).value, OwnSays((r, i), w.Row(r, i), s, s.Claiming? && Busy(w, s.agent)), id);
  }

  lemma ToldInWorld(w: World, set': Settings, s: Step, r: nat, id: TaskId)
    requires !s.Instantiate? && ActionOf(w, set', s).Some? && r == FlowOf(s) < |w.flows| && |Next(w, set', s).flows| == |w.flows|
    requires |w.flows[r].tasks| <= |Next(w, set', s).flows[r].tasks|
    requires Told(r, w.flows[r].tasks, Next(w, set', s).flows[r].tasks, EmittedBy(w, set', s), id)
    ensures Telling(EmittedBy(w, set', s), id) ==
            match RowIn(Next(w, set', s), id) case None => [] case Some(row) => RowEvents(id, RowIn(w, id), row)
  {
    if id.0 < |w.flows| && id.0 != r { assert Next(w, set', s).flows[id.0] == w.flows[id.0]; }
  }

  lemma RowsStay(w: World, set': Settings, s: Step)
    requires Honest(w) && !s.Instantiate? && ActionOf(w, set', s).Some?
    ensures FlowOf(s) < |w.flows| && |Next(w, set', s).flows| == |w.flows|
    ensures |w.flows[FlowOf(s)].tasks| <= |Next(w, set', s).flows[FlowOf(s)].tasks|
  {
    ActionIsLawful(w, set', s);
    ApplyIsCalm(w.flows[FlowOf(s)], ActionOf(w, set', s).value);
  }

  /** Whatever transaction it is, what it emits about a task is exactly the difference between the task's
      rows before and after: retries, rounds, and cascades in their depth-first order included. */
  lemma EmittedTells(w: World, set': Settings, s: Step, id: TaskId)
    requires Honest(w)
    ensures Telling(EmittedBy(w, set', s), id) ==
            match RowIn(Next(w, set', s), id) case None => [] case Some(row) => RowEvents(id, RowIn(w, id), row)
  {
    if s.Instantiate? {
      StartsTell(w, set', s, id);
    } else if ActionOf(w, set', s).Some? {
      RowsStay(w, set', s);
      if s.Stopping? { StopsTell(w, set', s, id); } else { ActsTell(w, set', s, id); }
      ToldInWorld(w, set', s, FlowOf(s), id);
    }
  }

  // ---- no word about cycles ----------------------------------------------------------------------

  predicate AboutTasks(says: seq<What>) {
    forall k {:trigger says[k]} :: 0 <= k < |says| ==> About(says[k]).Some?
  }

  lemma {:induction false} CascadeIsAboutTasks(r: nat, tasks: seq<Task>, i: nat, j: nat, now: Time)
    ensures AboutTasks(CascadeSays(r, tasks, i, j, now))
    decreases Unfinished(tasks), |tasks| - j
  {
    if j < |tasks| {
      if Waits(tasks, i, j) {
        var t := CancelThese(tasks, {j}, now);
        CancelOneShrinks(tasks, j, now);
        CascadeIsAboutTasks(r, t, j, 0, now);
        CascadeIsAboutTasks(r, Cascade(t, j, now), i, j + 1, now);
      } else {
        CascadeIsAboutTasks(r, tasks, i, j + 1, now);
      }
    }
  }

  lemma {:induction false} StopIsAboutTasks(r: nat, tasks: seq<Task>, j: nat, now: Time)
    ensures AboutTasks(StopSays(r, tasks, j, now))
    decreases |tasks| - j
  {
    if j < |tasks| {
      if !tasks[j].state.Terminal() {
        var t := CancelThese(tasks, {j}, now);
        CascadeIsAboutTasks(r, t, j, 0, now);
        StopIsAboutTasks(r, Cascade(t, j, now), j + 1, now);
      } else {
        StopIsAboutTasks(r, tasks, j + 1, now);
      }
    }
  }

  lemma {:induction false} AddedAreAboutTasks(r: nat, added: seq<Task>, base: nat, k: nat)
    requires k <= |added|
    ensures AboutTasks(AllAddedSay(r, added, base, k))
  {
    if k > 0 { AddedAreAboutTasks(r, added, base, k - 1); }
  }

  lemma {:induction false} UnlockIsAboutTasks(r: nat, tasks: seq<Task>, i: nat, k: nat)
    requires k <= |tasks|
    ensures AboutTasks(UnlockSays(r, tasks, i, k))
  {
    if k > 0 { UnlockIsAboutTasks(r, tasks, i, k - 1); }
  }

  lemma SuccessIsAboutTasks(r: nat, f: Flow, i: nat, output: Output, now: Time)
    requires i < |f.tasks|
    ensures AboutTasks(SuccessSays(r, f, i, output, now))
  {
    var loop := FirstLoop(f.template.loops, f.tasks[i].name, output);
    CascadeIsAboutTasks(r, f.tasks, i, 0, now);
    if loop.Some? { AddedAreAboutTasks(r, NewCopies(f, loop.value), |f.tasks|, |NewCopies(f, loop.value)|); }
    UnlockIsAboutTasks(r, f.tasks, i, |f.tasks|);
  }

  lemma ActionIsAboutTasks(r: nat, f: Flow, a: Action, own: seq<What>)
    requires Enabled(f, a) && AboutTasks(own)
    ensures AboutTasks(ActionSays(r, f, a, own))
  {
    match a
    case Move(_, _) =>
    case Succeed(i, row, output, now) => SuccessIsAboutTasks(r, f.(tasks := f.tasks[i := row]), i, output, now);
    case Die(i, row, now) => CascadeIsAboutTasks(r, f.tasks[i := row], i, 0, now);
    case CancelRun(now) => StopIsAboutTasks(r, f.tasks, 0, now);
  }

  lemma OwnIsAboutTasks(id: TaskId, t: Task, s: Step, resumed: bool)
    ensures AboutTasks(OwnSays(id, t, s, resumed))
  {
  }

  lemma EmittedIsAboutTasks(w: World, set': Settings, s: Step)
    requires Honest(w)
    ensures AboutTasks(EmittedBy(w, set', s))
  {
    if s.Instantiate? {
      AddedAreAboutTasks(|w.flows|, FirstTasks(s.template), 0, |FirstTasks(s.template)|);
    } else if ActionOf(w, set', s).Some? {
      if s.Stopping? {
        StopIsAboutTasks(s.r, w.flows[s.r].tasks, 0, s.now);
      } else {
        var (r, i) := Target(s);
        OwnTold(w, set', s);
        var own := OwnSays((r, i), w.Row(r, i), s, s.Claiming? && Busy(w, s.agent));
        OwnIsAboutTasks((r, i), w.Row(r, i), s, s.Claiming? && Busy(w, s.agent));
        ActionIsAboutTasks(r, w.flows[r], ActionOf(w, set', s).value, own);
      }
    }
  }

  // ---- from words to entries ---------------------------------------------------------------------

  lemma TellingSnoc(says: seq<What>, w: What, id: TaskId)
    ensures Telling(says + [w], id) == Telling(says, id) + if About(w) == Some(id) then [w] else []
  {
    TellingJoin(says, [w], id);
    TellingOne(w, id);
  }

  lemma WhatsSnoc(entries: seq<Entry>, e: Entry)
    ensures Whats(entries + [e]) == Whats(entries) + [e.payload.what]
  {
  }

  lemma {:induction false} EntriesTell(events: seq<Entry>, k: nat, id: TaskId)
    requires k <= |events|
    ensures Whats(EntriesAbout(events[..k], id)) == Telling(SpokenIn(events, k), id)
  {
    if k > 0 {
      var e := events[k - 1];
      EntriesTell(events, k - 1, id);
      assert events[..k][..k - 1] == events[..k - 1];
      TellingSnoc(SpokenIn(events, k - 1), e.payload.what, id);
      WhatsSnoc(EntriesAbout(events[..k - 1], id), e);
    }
  }

  /** What is said about cycles. */
  function Cycling(says: seq<What>, k: nat): seq<What>
    requires k <= |says|
  {
    if k == 0 then []
    else if IsCycleEvent(says[k - 1]) then Cycling(says, k - 1) + [says[k - 1]]
    else Cycling(says, k - 1)
  }

  lemma {:induction false} CyclingPrefix(says: seq<What>, w: What, k: nat)
    requires k <= |says|
    ensures Cycling(says + [w], k) == Cycling(says, k)
  {
    if k > 0 { CyclingPrefix(says, w, k - 1); }
  }

  lemma {:induction false} CycleEntriesTell(events: seq<Entry>, k: nat)
    requires k <= |events|
    ensures Whats(CycleEntries(events[..k])) == Cycling(SpokenIn(events, k), |SpokenIn(events, k)|)
  {
    if k > 0 {
      var e := events[k - 1];
      CycleEntriesTell(events, k - 1);
      assert events[..k][..k - 1] == events[..k - 1];
      CyclingPrefix(SpokenIn(events, k - 1), e.payload.what, |SpokenIn(events, k - 1)|);
      WhatsSnoc(CycleEntries(events[..k - 1]), e);
    }
  }

  lemma {:induction false} NoCycling(says: seq<What>, k: nat)
    requires k <= |says| && AboutTasks(says)
    ensures Cycling(says, k) == []
  {
    if k > 0 { NoCycling(says, k - 1); }
  }

  lemma CompanyTells(c: Company, set': Settings, s: CompanyStep, id: TaskId)
    requires Honest(c.world)
    ensures Telling(CompanySays(c, set', s), id) ==
            match RowAt(CompanyAfter(c, set', s), id) case None => [] case Some(row) => RowEvents(id, RowAt(c, id), row)
  {
    if s.Work? {
      EmittedTells(c.world, set', s.step, id);
    } else if CompanySays(c, set', s) != [] {
      TellingOne(CompanySays(c, set', s)[0], id);
      assert CompanySays(c, set', s) == [CompanySays(c, set', s)[0]];
    }
  }

  lemma CompanyCycles(c: Company, set': Settings, s: CompanyStep)
    requires Honest(c.world)
    ensures Cycling(CompanySays(c, set', s), |CompanySays(c, set', s)|) == CycleEvents(c.cycles, CompanyAfter(c, set', s).cycles)
  {
    var says := CompanySays(c, set', s);
    if s.Work? {
      EmittedIsAboutTasks(c.world, set', s.step);
      NoCycling(says, |says|);
    } else if says != [] {
      assert says == [says[0]] && Cycling(says, 0) == [];
    }
  }

  /** What a transaction emits tells what it did to each task and to the cycle. */
  lemma CommitTells(set': Settings, s: CompanyStep, c: Company, log: seq<Entry>, c': Company, log': seq<Entry>)
    requires Commits(set', s, c, log, c', log') && Honest(c.world)
    ensures Tells(c, c', log'[|log|..])
  {
    var more := log'[|log|..];
    assert more[..|more|] == more;
    forall id ensures Whats(EntriesAbout(more, id)) == match RowAt(c', id) case None => [] case Some(row) => RowEvents(id, RowAt(c, id), row) {
      EntriesTell(more, |more|, id);
      CompanyTells(c, set', s, id);
    }
    CycleEntriesTell(more, |more|);
    CompanyCycles(c, set', s);
  }
}
