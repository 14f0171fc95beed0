/** What of a task row the outside sees, and how transactions change it. */
module Faces {
  import opened Lifecycles
  import opened Templates
  import opened Tasks
  import opened Rows
  import opened Flows
  import opened FlowRounds
  import opened Engine
  import opened Queue

  ghost predicate SameRuns(was: Task, now: Task) {
    && now.attempt == was.attempt && |now.runs| == |was.runs|
    && (was.runs != [] ==> now.runs[|now.runs| - 1].agent == was.runs[|was.runs| - 1].agent)
    && (was.runs != [] ==> now.runs[|now.runs| - 1].attempt == was.runs[|was.runs| - 1].attempt)
  }

  /** A row changes its runs only when it starts; what has ended stays as it ended. */
  ghost predicate Face(was: Task, now: Task) {
    && now.name == was.name && now.role == was.role
    && (was.state.Terminal() ==> now.state == was.state)
    && (if now.state == Running && was.state != Running then now.runs != [] else SameRuns(was, now))
    && (now.state == Pending ==> was.state == Pending)
  }

  /** As above, and nothing starts. */
  ghost predicate Quiet(was: Task, now: Task) {
    Face(was, now) && SameRuns(was, now) && (now.state == Running ==> was.state == Running)
  }

  lemma CancelIsQuiet(t: Task, now: Time)
    requires !t.state.Terminal()
    ensures Quiet(t, t.Cancel(now))
  {
  }

  // ---- what the engine does in reaction ------------------------------------------------------

  lemma CancelTheseIsQuiet(tasks: seq<Task>, which: set<nat>, now: Time, j: nat)
    requires which <= Unfinished(tasks) && j < |tasks|
    ensures Quiet(tasks[j], CancelThese(tasks, which, now)[j])
  {
    if j in which { CancelIsQuiet(tasks[j], now); }
  }

  lemma SuccessIsQuiet(f: Flow, i: nat, output: Output, now: Time, j: nat)
    requires i < |f.tasks| && j < |f.tasks|
    ensures j < |AfterSuccess(f, i, output, now).tasks| && Quiet(f.tasks[j], AfterSuccess(f, i, output, now).tasks[j])
  {
    var loop := FirstLoop(f.template.loops, f.tasks[i].name, output);
    if Halts(f.template, f.tasks[i].name, output) || (loop.Some? && !RoundsLeft(f, loop.value)) { CascadeIsQuiet(f.tasks, i, now, j); }
    else if loop.Some? { RoundIsQuiet(f, i, loop.value, j); }
    else { UnlockIsQuiet(f.tasks, i, j); }
  }

  lemma CascadeIsQuiet(tasks: seq<Task>, i: nat, now: Time, j: nat)
    requires j < |tasks|
    ensures j < |Cascade(tasks, i, now)| && Quiet(tasks[j], Cascade(tasks, i, now)[j])
  {
    DoomedAreUnfinished(tasks, i);
    CancelTheseIsQuiet(tasks, Doomed(tasks, i), now, j);
  }

  lemma RoundIsQuiet(f: Flow, i: nat, loop: Loop, j: nat)
    requires i < |f.tasks| && j < |f.tasks|
    ensures j < |Round(f, i, loop).tasks| && Quiet(f.tasks[j], Round(f, i, loop).tasks[j])
  {
    RoundKept(f, i, loop, j);
  }

  lemma UnlockIsQuiet(tasks: seq<Task>, i: nat, j: nat)
    requires i < |tasks| && j < |tasks|
    ensures Quiet(tasks[j], Unlock(tasks, i)[j])
  {
  }

  lemma ReactionIsQuiet(f: Flow, a: Action, j: nat)
    requires Enabled(f, a) && j < |f.tasks|
    ensures j < |Apply(f, a).tasks| && Quiet(Written(f, a)[j], Apply(f, a).tasks[j])
  {
    var f1 := f.(tasks := Written(f, a));
    match a
    case Move(_, _) =>
    case Succeed(i, _, output, now) => SuccessIsQuiet(f1, i, output, now, j);
    case Die(i, _, now) =>
      DoomedAreUnfinished(f1.tasks, i);
      CancelTheseIsQuiet(f1.tasks, Doomed(f1.tasks, i), now, j);
    case CancelRun(now) => CancelTheseIsQuiet(f.tasks, Unfinished(f.tasks), now, j);
  }

  // ---- what a transaction writes itself ------------------------------------------------------

  ghost predicate OutcomeFace(was: Task, o: RowOutcome) {
    o.Refused? || Face(was, o.row)
  }

  lemma ClaimOpsFace(t: Task, c: Claim, until: Time, to: RunState)
    requires RowOk(t)
    ensures OutcomeFace(t, Heartbeat(t, c, until)) && OutcomeFace(t, Rows.Advance(t, c, to)) && OutcomeFace(t, Rows.Suspend(t, c))
  {
  }

  lemma EndingsFace(t: Task, c: Claim, retryable: bool, reason: AbortReason, now: Time, s: Settings)
    requires RowOk(t)
    ensures OutcomeFace(t, Rows.Complete(t, c, now)) && OutcomeFace(t, Rows.Abort(t, c, reason, now)) && OutcomeFace(t, Rows.Fail(t, c, retryable, now, s))
    ensures OutcomeFace(t, Rows.Reap(t, now, s))
  {
  }

  lemma OthersFace(t: Task, now: Time)
    requires RowOk(t)
    ensures OutcomeFace(t, CancelOne(t, now)) && OutcomeFace(t, Await(t)) && OutcomeFace(t, Rows.ReleaseAfterApproval(t))
    ensures OutcomeFace(t, Rows.CompleteWithoutRun(t)) && OutcomeFace(t, Rows.FailWithoutRun(t)) && OutcomeFace(t, Rows.ReleaseBlocked(t))
  {
  }

  lemma OutcomeFaces(t: Task, set': Settings, s: Step)
    requires RowOk(t)
    ensures OutcomeFace(t, OutcomeOf(t, set', s))
  {
    match s
    case Beating(c, now) => ClaimOpsFace(t, c, now + set'.lease, Working);
    case Advancing(c, to) => ClaimOpsFace(t, c, 0, to);
    case Suspending(c) => ClaimOpsFace(t, c, 0, Working);
    case Succeeding(c, _, now) => EndingsFace(t, c, true, Budget, now, set');
    case Failing(c, retryable, now) => EndingsFace(t, c, retryable, Budget, now, set');
    case Aborting(c, reason, now) => EndingsFace(t, c, true, reason, now, set');
    case Reaping(_, _, now) => EndingsFace(t, Claim(0, 0, 0, 0, 0), true, Budget, now, set');
    case _ => OthersFace(t, TimeOf(s));
  }

  lemma ClaimFace(w: World, set': Settings, s: Step)
    requires s.Claiming? && w.Has(s.r, s.i) && RowOk(w.Row(s.r, s.i)) && MayClaim(w, s.agent, s.role, s.r, s.i, s.now)
    ensures Face(w.Row(s.r, s.i), ClaimRow(w, set', s.agent, s.owner, s.r, s.i, s.now))
  {
  }

  ghost predicate WrittenWell(was: Task, a: Action, now: Task) {
    Face(was, now) && (now != was ==> a.Move? || now.state.Terminal())
  }

  lemma OutcomeWritten(t: Task, set': Settings, s: Step, i: nat)
    requires RowOk(t) && !OutcomeOf(t, set', s).Refused?
    ensures WrittenWell(t, ActionFor(i, OutcomeOf(t, set', s), OutputOf(s), TimeOf(s)), OutcomeOf(t, set', s).row)
  {
    OutcomeFaces(t, set', s);
    OutcomeIsLawful(t, set', s);
  }

  lemma SameIsFace(t: Task, a: Action)
    ensures WrittenWell(t, a, t)
  {
  }

  /** The row as the transaction wrote it, before the engine's reaction. */
  lemma WrittenFace(w: World, set': Settings, s: Step, j: nat)
    requires forall r :: 0 <= r < |w.flows| ==> FlowOk(w.flows[r])
    requires ActionOf(w, set', s).Some? && FlowOf(s) < |w.flows| && Enabled(w.flows[FlowOf(s)], ActionOf(w, set', s).value)
    requires j < |w.flows[FlowOf(s)].tasks|
    ensures WrittenWell(w.flows[FlowOf(s)].tasks[j], ActionOf(w, set', s).value,
              Written(w.flows[FlowOf(s)], ActionOf(w, set', s).value)[j])
  {
    if s.Stopping? || j != Target(s).1 { OtherWritten(w, set', s, j); } else { TargetWritten(w, set', s); }
  }

  lemma OtherWritten(w: World, set': Settings, s: Step, j: nat)
    requires ActionOf(w, set', s).Some? && FlowOf(s) < |w.flows| && Enabled(w.flows[FlowOf(s)], ActionOf(w, set', s).value)
    requires j < |w.flows[FlowOf(s)].tasks| && (s.Stopping? || j != Target(s).1)
    ensures WrittenWell(w.flows[FlowOf(s)].tasks[j], ActionOf(w, set', s).value, Written(w.flows[FlowOf(s)], ActionOf(w, set', s).value)[j])
  {
    var f, a := w.flows[FlowOf(s)], ActionOf(w, set', s).value;
    assert Written(f, a)[j] == f.tasks[j];
    SameIsFace(f.tasks[j], a);
  }

  lemma TargetWritten(w: World, set': Settings, s: Step)
    requires forall r :: 0 <= r < |w.flows| ==> FlowOk(w.flows[r])
    requires !s.Stopping? && ActionOf(w, set', s).Some? && FlowOf(s) < |w.flows| && Enabled(w.flows[FlowOf(s)], ActionOf(w, set', s).value)
    requires Target(s).1 < |w.flows[FlowOf(s)].tasks|
    ensures WrittenWell(w.flows[FlowOf(s)].tasks[Target(s).1], ActionOf(w, set', s).value,
              Written(w.flows[FlowOf(s)], ActionOf(w, set', s).value)[Target(s).1])
  {
    var (r, i) := Target(s);
    assert FlowOk(w.flows[r]) && RowOk(w.Row(r, i));
    if s.Claiming? {
      ClaimWritten(w, set', s);
    } else {
      OutcomeWritten(w.Row(r, i), set', s, i);
      ActedWritten(w.flows[r], i, OutcomeOf(w.Row(r, i), set', s), OutputOf(s), TimeOf(s));
    }
  }

  lemma ActedWritten(f: Flow, i: nat, o: RowOutcome, output: Output, now: Time)
    requires i < |f.tasks| && !o.Refused? && Enabled(f, ActionFor(i, o, output, now))
    ensures Written(f, ActionFor(i, o, output, now))[i] == o.row
  {
  }

  lemma ClaimWritten(w: World, set': Settings, s: Step)
    requires s.Claiming? && w.Has(s.r, s.i) && RowOk(w.Row(s.r, s.i)) && ActionOf(w, set', s).Some?
    ensures WrittenWell(w.Row(s.r, s.i), ActionOf(w, set', s).value, Written(w.flows[s.r], ActionOf(w, set', s).value)[s.i])
  {
    ClaimFace(w, set', s);
  }

  lemma FaceThenQuiet(was: Task, mid: Task, now: Task)
    requires Face(was, mid) && Quiet(mid, now) && (mid != was ==> mid == now || mid.state.Terminal())
    ensures Face(was, now)
  {
  }

  /** Whatever a transaction does, every row there was keeps its face. */
  lemma NextFace(w: World, set': Settings, s: Step, r: nat, j: nat)
    requires Honest(w) && w.Has(r, j)
    ensures Next(w, set', s).Has(r, j) && Face(w.Row(r, j), Next(w, set', s).Row(r, j))
  {
    if !s.Instantiate? && ActionOf(w, set', s).Some? && r == FlowOf(s) {
      var f, a := w.flows[r], ActionOf(w, set', s).value;
      ActionIsLawful(w, set', s);
      WrittenFace(w, set', s, j);
      ReactionIsQuiet(f, a, j);
      FaceThenQuiet(f.tasks[j], Written(f, a)[j], Apply(f, a).tasks[j]);
    }
  }

  /** A new row: no attempt, no run, and it waits or is READY. */
  ghost predicate Newcomer(t: Task) {
    t.attempt == 0 && t.runs == [] && t.state in {Pending, Ready}
  }

  lemma SuccessAdds(f: Flow, i: nat, output: Output, now: Time, j: nat)
    requires i < |f.tasks| && |f.tasks| <= j < |AfterSuccess(f, i, output, now).tasks|
    ensures Newcomer(AfterSuccess(f, i, output, now).tasks[j])
  {
    var loop := FirstLoop(f.template.loops, f.tasks[i].name, output);
    if loop.Some? && RoundsLeft(f, loop.value) && !Halts(f.template, f.tasks[i].name, output) { AddedAt(f, i, loop.value, j); }
  }

  /** Rows that were not there before are newcomers. */
  lemma NextAdds(w: World, set': Settings, s: Step, r: nat, j: nat)
    requires Honest(w) && Next(w, set', s).Has(r, j) && !w.Has(r, j)
    ensures Newcomer(Next(w, set', s).Row(r, j))
  {
    if s.Instantiate? {
      if r == |w.flows| { assert Next(w, set', s).flows[r] == Start(s.template); }
    } else if ActionOf(w, set', s).Some? && r == FlowOf(s) {
      var f, a := w.flows[r], ActionOf(w, set', s).value;
      ActionIsLawful(w, set', s);
      if a.Succeed? { SuccessAdds(f.(tasks := Written(f, a)), a.i, a.output, a.now, j); }
    }
  }
}
