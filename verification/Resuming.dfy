/** Suspending and resuming a run is transparent: rebuilt from its stored steps it is the run that was
    suspended, and its conversation is the one it would have had without the interruption. */
module Resuming {
  import opened Wrappers
  import opened Conversations

  // ---- what a model may answer -----------------------------------------------------------------

  function UseIds(uses: seq<Use>): set<CallId> {
    set u | u in uses :: u.id
  }

  /** The ids of all tool calls made so far. */
  function CalledIds(messages: seq<Message>): set<CallId> {
    if messages == [] then {}
    else CalledIds(messages[..|messages| - 1]) +
         match messages[|messages| - 1] case Assistant(r) => UseIds(r.uses) case _ => {}
  }

  ghost predicate DistinctIds(uses: seq<Use>) {
    forall i, j {:trigger uses[i], uses[j]} :: 0 <= i < j < |uses| ==> uses[i].id != uses[j].id
  }

  /** The calls of an answer have ids of their own: none comes up twice in it or was used before it. */
  ghost predicate OwnIdsAt(messages: seq<Message>, k: int) {
    0 <= k < |messages| && messages[k].Assistant? ==>
      DistinctIds(messages[k].response.uses) && UseIds(messages[k].response.uses) !! CalledIds(messages[..k])
  }

  /** Every tool call of a conversation has an id of its own: the provider of the model sees to that. */
  ghost predicate OwnIds(messages: seq<Message>) {
    forall k {:trigger OwnIdsAt(messages, k)} :: OwnIdsAt(messages, k)
  }

  lemma OwnIdsBefore(messages: seq<Message>, more: seq<Message>)
    requires messages <= more && OwnIds(more)
    ensures OwnIds(messages)
  {
    forall k {:trigger OwnIdsAt(messages, k)} ensures OwnIdsAt(messages, k) {
      assert OwnIdsAt(more, k);
      if 0 <= k < |messages| { assert messages[..k] == more[..k]; }
    }
  }

  // ---- counters and steps ------------------------------------------------------------------------

  /** The counters are what the stored steps say; a repair that was granted is counted before its
      model call is stored. */
  ghost predicate Counted(s: State) {
    && s.modelCalls == Count(s.steps, {Think, Repair})
    && s.repairsUsed == Count(s.steps, {Repair}) + (if s.repairing then 1 else 0)
    && s.evalRound == Count(s.steps, {Evaluate})
  }

  lemma CountSnoc(steps: seq<Step>, step: Step, kinds: set<Kind>)
    ensures Count(steps + [step], kinds) == Count(steps, kinds) + if step.kind in kinds then 1 else 0
  {
    assert (steps + [step])[..|steps|] == steps;
  }

  lemma RecordCounts(s: State, kind: Kind, extra: seq<ToolResult>)
    ensures var s' := Record(s, kind, extra);
            && Count(s'.steps, {Think, Repair}) == Count(s.steps, {Think, Repair}) + (if kind in {Think, Repair} then 1 else 0)
            && Count(s'.steps, {Repair}) == Count(s.steps, {Repair}) + (if kind == Repair then 1 else 0)
            && Count(s'.steps, {Evaluate}) == Count(s.steps, {Evaluate}) + (if kind == Evaluate then 1 else 0)
            && s'.steps != []
  {
    var step := Record(s, kind, extra).steps[|s.steps|];
    CountSnoc(s.steps, step, {Think, Repair});
    CountSnoc(s.steps, step, {Repair});
    CountSnoc(s.steps, step, {Evaluate});
  }

  // ---- a turn's tool calls -----------------------------------------------------------------------

  /** The tool calls of the last turn. */
  function LastUses(s: State): seq<Use> {
    if s.messages != [] && s.messages[|s.messages| - 1].Assistant? then s.messages[|s.messages| - 1].response.uses else []
  }

  /** In the middle of a turn: `uses` are the calls still to run, the others have their results. */
  ghost predicate MidTurn(s: State, uses: seq<Use>) {
    && s.messages != [] && s.messages[|s.messages| - 1].Assistant?
    && var all := LastUses(s);
    && |uses| <= |all| && uses == all[|all| - |uses|..] && |s.results| == |all| - |uses|
    && forall k :: 0 <= k < |s.results| ==> s.results[k].id == all[k].id
  }

  /** A run that has just been suspended, whatever ids its calls have. */
  ghost predicate JustSuspended(s: State) {
    && Counted(s) && !s.repairing && s.pending != [] && MidTurn(s, s.pending)
    && s.steps != [] && s.steps[|s.steps| - 1] == Step(Observe, Stored(s.messages, s.results))
  }

  lemma {:induction false} UnansweredSkips(all: seq<Use>, k: nat, done: set<CallId>)
    requires k <= |all| && forall j :: 0 <= j < k ==> all[j].id in done
    ensures Unanswered(all, done) == Unanswered(all[k..], done)
    decreases k
  {
    if k > 0 {
      UnansweredSkips(all[1..], k - 1, done);
      assert all[1..][k - 1..] == all[k..];
    } else {
      assert all[0..] == all;
    }
  }

  lemma {:induction false} UnansweredAllIff(uses: seq<Use>, done: set<CallId>)
    ensures |Unanswered(uses, done)| <= |uses|
    ensures Unanswered(uses, done) == uses <==> forall j :: 0 <= j < |uses| ==> uses[j].id !in done
  {
    if uses != [] {
      UnansweredAllIff(uses[1..], done);
      assert uses == [uses[0]] + uses[1..];
      assert (forall j :: 0 <= j < |uses| ==> uses[j].id !in done) ==> forall j :: 0 <= j < |uses[1..]| ==> uses[1..][j].id !in done;
      if uses[0].id !in done && forall j :: 0 <= j < |uses[1..]| ==> uses[1..][j].id !in done {
        forall j | 0 <= j < |uses| ensures uses[j].id !in done { if j > 0 { assert uses[1..][j - 1] == uses[j]; } }
      }
    }
  }

  lemma StoredTakenApart(s: State)
    requires s.messages != [] && s.messages[|s.messages| - 1].Assistant?
    ensures TakenApart(Stored(s.messages, s.results)) == (s.messages, s.results, Unanswered(LastUses(s), Ids(s.results)))
  {
    if s.results != [] { assert (s.messages + [Results(s.results)])[..|s.messages|] == s.messages; }
  }

  lemma AnsweredAreSkipped(s: State)
    requires MidTurn(s, s.pending)
    ensures Unanswered(LastUses(s), Ids(s.results)) == Unanswered(s.pending, Ids(s.results))
  {
    var all := LastUses(s);
    var first := |all| - |s.pending|;
    forall j | 0 <= j < first ensures all[j].id in Ids(s.results) { assert s.results[j] in s.results; }
    UnansweredSkips(all, first, Ids(s.results));
  }

  /** The state rebuilt from the last stored step is the state at suspension, but for the calls still to
      run that have the id of one already answered. */
  lemma ResumeRebuilds(s: State, approved: set<CallId>)
    requires JustSuspended(s)
    ensures Resume(s.steps, approved) == s.(approved := approved, pending := Unanswered(s.pending, Ids(s.results)))
  {
    StoredTakenApart(s);
    AnsweredAreSkipped(s);
  }

  /** The state is rebuilt exactly when no call still to run has the id of one already answered. */
  lemma ResumeRestoresIff(s: State, approved: set<CallId>)
    requires JustSuspended(s)
    ensures Resume(s.steps, approved) == s.(approved := approved) <==> forall k :: 0 <= k < |s.pending| ==> s.pending[k].id !in Ids(s.results)
  {
    ResumeRebuilds(s, approved);
    UnansweredAllIff(s.pending, Ids(s.results));
  }

  /** Where the calls of the turn have ids of their own, it is the state at suspension: the conversation,
      the partial results, the calls still to run and all counters. */
  lemma ResumeRestores(s: State, approved: set<CallId>)
    requires JustSuspended(s) && DistinctIds(LastUses(s))
    ensures Resume(s.steps, approved) == s.(approved := approved)
  {
    var all := LastUses(s);
    forall k, r | 0 <= k < |s.pending| && r in s.results ensures r.id != s.pending[k].id {
      var i :| 0 <= i < |s.results| && s.results[i] == r;
      assert all[i].id != all[|all| - |s.pending| + k].id;
    }
    ResumeRestoresIff(s, approved);
  }

  // ---- every suspension is of this kind ----------------------------------------------------------

  /** Between turns: nothing collected, the counters as the steps say. */
  ghost predicate BetweenTurns(s: State) {
    Counted(s) && s.pending == [] && s.results == []
  }

  /** About to go on with a turn's tool calls. */
  ghost predicate InTurn(s: State, uses: seq<Use>) {
    Counted(s) && !s.repairing && MidTurn(s, uses)
  }

  lemma MidTurnNext(s: State, uses: seq<Use>, result: ToolResult)
    requires MidTurn(s, uses) && uses != [] && result.id == uses[0].id
    ensures MidTurn(s.(results := s.results + [result]), uses[1..])
  {
    var all := LastUses(s);
    assert uses[0] == all[|all| - |uses|] && uses[1..] == all[|all| - |uses| + 1..];
  }

  lemma AnsweredKeeps(s: State, uses: seq<Use>, result: ToolResult)
    requires InTurn(s, uses) && uses != [] && result.id == uses[0].id
    ensures InTurn(s.(results := s.results + [result]), uses[1..])
  {
    MidTurnNext(s, uses, result);
  }

  lemma RecordedKeeps(s: State, uses: seq<Use>, result: ToolResult)
    requires InTurn(s, uses) && uses != [] && result.id == uses[0].id
    ensures InTurn(Record(s, Act, [result]).(results := s.results + [result]), uses[1..])
  {
    MidTurnNext(s, uses, result);
    RecordCounts(s, Act, [result]);
  }

  lemma SuspendedKeeps(s: State, uses: seq<Use>)
    requires InTurn(s, uses) && uses != []
    ensures JustSuspended(Record(s, Observe, []).(pending := uses))
  {
    RecordCounts(s, Observe, []);
    assert s.results + [] == s.results;
  }

  lemma OneToolStays(env: Env, s: State, use: Use)
    ensures var (s1, result, o) := OneTool(env, s, use);
            && s1.messages == s.messages && s1.approved == s.approved && s1.results == s.results
            && (result.None? ==> o.Some?) && (result.Some? ==> result.value.id == use.id)
  {
  }

  lemma OneToolKeeps(env: Env, s: State, uses: seq<Use>)
    requires uses != [] && InTurn(s, uses)
    ensures var (s1, result, o) := OneTool(env, s, uses[0]);
            && (result.Some? ==> InTurn(s1.(results := s1.results + [result.value]), uses[1..]))
            && (result.None? && o.Some? && o.value.Suspended? ==> JustSuspended(s1.(pending := uses)))
  {
    if uses[0].tool !in env.tools { AnsweredKeeps(s, uses, ToolResult(uses[0].id, "unknown tool", true)); }
    else { KnownToolKeeps(env, s, uses); }
  }

  lemma KnownToolKeeps(env: Env, s: State, uses: seq<Use>)
    requires uses != [] && InTurn(s, uses) && uses[0].tool in env.tools
    ensures var (s1, result, o) := OneTool(env, s, uses[0]);
            && (result.Some? ==> InTurn(s1.(results := s1.results + [result.value]), uses[1..]))
            && (result.None? && o.Some? && o.value.Suspended? ==> JustSuspended(s1.(pending := uses)))
  {
    var decision := if uses[0].id in s.approved then Allow else env.policy(s.messages, s.results, uses[0]);
    if decision.Allow? {
      var (content, isError) := env.tool(s.messages, s.results, uses[0]);
      RecordedKeeps(s, uses, ToolResult(uses[0].id, content, isError));
    } else if decision.NeedsApproval? {
      SuspendedKeeps(s, uses);
    }
  }

  lemma {:induction false} ActKeeps(env: Env, s: State, uses: seq<Use>)
    requires InTurn(s, uses)
    ensures var (s', o) := ActOn(env, s, uses);
            && (o.None? ==> BetweenTurns(s'))
            && (o.Some? && o.value.Suspended? ==> JustSuspended(s'))
    decreases |uses|
  {
    if uses != [] {
      OneToolKeeps(env, s, uses);
      OneToolStays(env, s, uses[0]);
      var (s1, result, o) := OneTool(env, s, uses[0]);
      if result.Some? { ActKeeps(env, s1.(results := s1.results + [result.value]), uses[1..]); }
    }
  }

  /** The counters before the step of a model call is stored. */
  ghost predicate CountedBut(s: State, kind: Kind) {
    && kind in {Think, Repair} && !s.repairing
    && s.modelCalls == Count(s.steps, {Think, Repair}) + 1
    && s.repairsUsed == Count(s.steps, {Repair}) + (if kind == Repair then 1 else 0)
    && s.evalRound == Count(s.steps, {Evaluate})
  }

  lemma AnswerIsRecorded(a: State, kind: Kind, r: Response)
    requires CountedBut(a, kind) && a.pending == [] && a.results == []
    requires a.messages != [] && a.messages[|a.messages| - 1] == Assistant(r)
    ensures InTurn(Record(a, kind, []), r.uses) && Record(a, kind, []).pending == [] && Record(a, kind, []).results == []
  {
    RecordCounts(a, kind, []);
    assert r.uses == r.uses[|r.uses| - |r.uses|..];
  }

  lemma CallKeeps(env: Env, s: State)
    requires BetweenTurns(s)
    ensures InTurn(CallModel(env, s), env.model(s.messages).uses)
    ensures CallModel(env, s).pending == [] && CallModel(env, s).results == []
  {
    AnswerIsRecorded(Answering(s, env.model(s.messages)), if s.repairing then Repair else Think, env.model(s.messages));
  }

  lemma JudgeKeeps(env: Env, s: State, r: Response)
    requires Counted(s) && !s.repairing && s.pending == [] && s.results == []
    ensures var (s', o) := Judge(env, s, r); (o.None? ==> BetweenTurns(s')) && (o.Some? ==> !o.value.Suspended?)
  {
    var asked := s.(evalRound := s.evalRound + 1);
    var s1 := Record(asked, Evaluate, []);
    RecordCounts(asked, Evaluate, []);
    assert s1.messages == s.messages && s1.pending == [] && s1.results == [];
  }

  /** Where the loop may stand. */
  ghost predicate Ready(s: State) {
    if s.pending == [] then BetweenTurns(s) else InTurn(s, s.pending)
  }

  /** What the loop does with an answer of the model. */
  function Answered(env: Env, s: State, r: Response): (State, Option<Outcome>) {
    if r.stop.ToolUse? && r.uses != [] then ActOn(env, s, r.uses)
    else if r.stop.Refusal? then (s, Some(Failed("ModelRefusal")))
    else Judge(env, s, r)
  }

  lemma AnsweredKeepsReady(env: Env, s: State, r: Response)
    requires InTurn(s, r.uses) && s.pending == [] && s.results == []
    ensures var (s', o) := Answered(env, s, r);
            (o.None? ==> BetweenTurns(s')) && (o.Some? && o.value.Suspended? ==> JustSuspended(s'))
  {
    if r.stop.ToolUse? && r.uses != [] { ActKeeps(env, s, r.uses); }
    else if !r.stop.Refusal? { JudgeKeeps(env, s, r); }
  }

  lemma TurnKeeps(env: Env, s: State)
    requires Ready(s)
    ensures var (s', o) := Turn(env, s);
            (o.None? ==> Ready(s')) && (o.Some? && o.value.Suspended? ==> JustSuspended(s'))
  {
    if s.pending != [] {
      ActKeeps(env, s, s.pending);
    } else if s.modelCalls < env.maxSteps {
      CallKeeps(env, s);
      AnsweredKeepsReady(env, CallModel(env, s), env.model(s.messages));
      assert Turn(env, s) == Answered(env, CallModel(env, s), env.model(s.messages));
    }
  }

  /** However a run came to be suspended, it is suspended in this way: whatever ids the provider gives
      its calls. */
  lemma {:induction false} LoopKeeps(env: Env, s: State)
    requires Ready(s)
    ensures var (e, o) := Loop(env, s); o.Suspended? ==> JustSuspended(e)
    decreases env.maxSteps + 1 - s.modelCalls, if s.pending == [] then 0 else 1
  {
    TurnKeeps(env, s);
    ActKeepsCounters(env, s, s.pending);
    ActKeepsCounters(env, CallModel(env, s), env.model(s.messages).uses);
    var (s', o) := Turn(env, s);
    if o.None? { LoopKeeps(env, s'); }
  }

  /** Two calls of one turn with the same id, the second of which is to be approved. */
  function TwiceTheSame(): Env {
    Env(
      (messages: seq<Message>) => if |messages| == 1 then Response("", [Use(0, "read", ""), Use(0, "send", "")], ToolUse, None, [])
                  else Response("done", [], EndTurn, Some("done"), []),
      (messages: seq<Message>, results: seq<ToolResult>, use: Use) => if use.tool == "send" then NeedsApproval else Allow,
      (messages, results, use) => ("ok", false),
      (messages, text) => [],
      issues => "again",
      {"read", "send"}, 5, 1)
  }

  /** There the run is suspended before the second call, and when it is resumed the call is gone: the
      answer to the first is taken for its own. */
  lemma SameIdsAreLost(task: string)
    ensures var (e, o) := Loop(TwiceTheSame(), Fresh(task));
            && o == Suspended(0) && JustSuspended(e) && e.pending == [Use(0, "send", "")]
            && Resume(e.steps, {0}) == e.(approved := {0}, pending := [])
  {
    var env, s := TwiceTheSame(), Fresh(task);
    var read, send := Use(0, "read", ""), Use(0, "send", "");
    var asked := CallModel(env, s);
    var result := ToolResult(0, "ok", false);
    assert [read, send][1..] == [send];
    var answered := Record(asked, Act, [result]).(results := [result]);
    assert asked.results + [result] == [result];
    assert ActOn(env, asked, [read, send]) == ActOn(env, answered, [send]);
    assert ActOn(env, answered, [send]) == (Record(answered, Observe, []).(pending := [send]), Some(Suspended(0)));
    assert Turn(env, s) == ActOn(env, asked, [read, send]);
    var e := Loop(env, s).0;
    LoopKeeps(env, s);
    ResumeRebuilds(e, {0});
    assert e.results == [result] && result in e.results;
    assert Unanswered([send], Ids(e.results)) == [];
  }

  // ---- what a suspended run asks about ---------------------------------------------------------

  /** The calls still to run are calls of the model's last answer. */
  ghost predicate FromLast(s: State, uses: seq<Use>) {
    forall u :: u in uses ==> u in LastUses(s)
  }

  /** The run was suspended for a call of the last answer that was not approved before. */
  ghost predicate AskedAnew(s: State, e: State, id: CallId) {
    && id !in s.approved && e.approved == s.approved && s.messages <= e.messages
    && id in UseIds(LastUses(e))
    && e.steps != [] && e.steps[|e.steps| - 1] == Step(Observe, Stored(e.messages, e.results))
  }

  lemma {:induction false} ActAsksAnew(env: Env, s: State, uses: seq<Use>)
    requires FromLast(s, uses)
    ensures var (e, o) := ActOn(env, s, uses);
            && e.approved == s.approved && s.messages <= e.messages
            && (o.Some? && o.value.Suspended? ==> AskedAnew(s, e, o.value.id))
    decreases |uses|
  {
    if uses != [] {
      var (s1, result, outcome) := OneTool(env, s, uses[0]);
      assert uses[0] in uses && uses[0] in LastUses(s);
      if result.Some? { ActAsksAnew(env, s1.(results := s1.results + [result.value]), uses[1..]); }
      else { assert s.results + [] == s.results; }
    }
  }

  /** The conversation goes on, under the same approvals. */
  ghost predicate Onward(s: State, e: State) {
    e.approved == s.approved && s.messages <= e.messages
  }

  lemma CallGoesOnward(env: Env, s: State)
    ensures var s1 := CallModel(env, s);
            && s1.messages == s.messages + [Assistant(env.model(s.messages))] && s1.approved == s.approved && s1.pending == s.pending
            && FromLast(s1, env.model(s.messages).uses)
  {
  }

  lemma AnsweredAsksAnew(env: Env, s: State, r: Response)
    requires FromLast(s, r.uses) && s.pending == []
    ensures var (e, o) := Answered(env, s, r);
            && Onward(s, e) && (o.None? ==> e.pending == []) && (o.Some? && o.value.Suspended? ==> AskedAnew(s, e, o.value.id))
  {
    if r.stop.ToolUse? && r.uses != [] {
      ActKeepsCounters(env, s, r.uses);
      ActAsksAnew(env, s, r.uses);
    }
  }

  lemma TurnAsksAnew(env: Env, s: State)
    requires FromLast(s, s.pending)
    ensures var (e, o) := Turn(env, s);
            && Onward(s, e) && (o.None? ==> e.pending == []) && (o.Some? && o.value.Suspended? ==> AskedAnew(s, e, o.value.id))
  {
    if s.pending != [] {
      ActKeepsCounters(env, s, s.pending);
      ActAsksAnew(env, s, s.pending);
    } else if s.modelCalls < env.maxSteps {
      TurnIsAnswered(env, s);
      CallGoesOnward(env, s);
      AnsweredAsksAnew(env, CallModel(env, s), env.model(s.messages));
    }
  }

  lemma {:induction false} LoopSaysMore(env: Env, s: State)
    requires FromLast(s, s.pending)
    ensures s.messages <= Loop(env, s).0.messages
    decreases env.maxSteps + 1 - s.modelCalls, if s.pending == [] then 0 else 1
  {
    TurnAsksAnew(env, s);
    ActKeepsCounters(env, s, s.pending);
    ActKeepsCounters(env, CallModel(env, s), env.model(s.messages).uses);
    var (s', o) := Turn(env, s);
    if o.None? { LoopSaysMore(env, s'); }
  }

  lemma {:induction false} LoopAsksAnew(env: Env, s: State)
    requires FromLast(s, s.pending)
    ensures var (e, o) := Loop(env, s); o.Suspended? ==> AskedAnew(s, e, o.id)
    decreases env.maxSteps + 1 - s.modelCalls, if s.pending == [] then 0 else 1
  {
    TurnAsksAnew(env, s);
    ActKeepsCounters(env, s, s.pending);
    ActKeepsCounters(env, CallModel(env, s), env.model(s.messages).uses);
    var (s', o) := Turn(env, s);
    if o.None? { LoopAsksAnew(env, s'); }
  }

  lemma {:induction false} UnansweredAreUses(uses: seq<Use>, done: set<CallId>)
    ensures forall u :: u in Unanswered(uses, done) ==> u in uses
  {
    if uses != [] { UnansweredAreUses(uses[1..], done); }
  }

  /** Whatever is rebuilt of it, a suspended run goes on with its conversation and with calls of its last
      answer. */
  lemma ResumeGoesOn(s: State, e: State, id: CallId, approved: set<CallId>)
    requires AskedAnew(s, e, id)
    ensures var next := Resume(e.steps, approved); next.messages == e.messages && next.approved == approved && FromLast(next, next.pending)
  {
    assert e.messages != [] && e.messages[|e.messages| - 1].Assistant?;
    UnansweredAreUses(LastUses(e), Ids(e.results));
    UnansweredAreUses(LastUses(e), {});
    if e.results != [] { assert (e.messages + [Results(e.results)])[..|e.messages|] == e.messages; }
  }

  lemma {:induction false} CalledBefore(messages: seq<Message>, more: seq<Message>)
    requires messages <= more
    ensures CalledIds(messages) <= CalledIds(more)
    decreases |more|
  {
    if |messages| < |more| { CalledBefore(messages, more[..|more| - 1]); } else { assert messages == more; }
  }

  lemma LastAreCalled(e: State)
    ensures UseIds(LastUses(e)) <= CalledIds(e.messages)
  {
  }

  // ---- calls with ids of their own ---------------------------------------------------------------

  /** The calls of the last turn differ, and only calls that were made are approved. */
  ghost predicate Distinguished(s: State) {
    DistinctIds(LastUses(s)) && s.approved <= CalledIds(s.messages)
  }

  lemma CalledSnoc(messages: seq<Message>, m: Message)
    ensures CalledIds(messages + [m]) == CalledIds(messages) + match m case Assistant(r) => UseIds(r.uses) case _ => {}
  {
    assert (messages + [m])[..|messages|] == messages;
  }

  lemma {:induction false} ActDistinguishes(env: Env, s: State, uses: seq<Use>)
    requires Distinguished(s)
    ensures Distinguished(ActOn(env, s, uses).0)
    decreases |uses|
  {
    if uses == [] {
      CalledSnoc(s.messages, Results(s.results));
    } else {
      OneToolStays(env, s, uses[0]);
      var (s1, result, o) := OneTool(env, s, uses[0]);
      if result.Some? { ActDistinguishes(env, s1.(results := s1.results + [result.value]), uses[1..]); }
    }
  }

  lemma CallDistinguishes(env: Env, s: State)
    requires OwnIds(s.messages + [Assistant(env.model(s.messages))]) && Distinguished(s)
    ensures Distinguished(CallModel(env, s))
    ensures CallModel(env, s).approved !! UseIds(env.model(s.messages).uses)
  {
    var r := env.model(s.messages);
    CalledSnoc(s.messages, Assistant(r));
    assert OwnIdsAt(s.messages + [Assistant(r)], |s.messages|);
    assert (s.messages + [Assistant(r)])[..|s.messages|] == s.messages;
  }

  /** What the model answers in a turn stands in the conversation after it. */
  lemma TurnSaysAnswer(env: Env, s: State)
    requires s.pending == [] && s.modelCalls < env.maxSteps
    ensures s.messages + [Assistant(env.model(s.messages))] <= Turn(env, s).0.messages
  {
    var s1, r := CallModel(env, s), env.model(s.messages);
    assert FromLast(s1, r.uses);
    ActAsksAnew(env, s1, r.uses);
  }

  lemma JudgeDistinguishes(env: Env, s: State, r: Response)
    requires Distinguished(s)
    ensures Distinguished(Judge(env, s, r).0)
  {
    var s' := Judge(env, s, r).0;
    assert s'.approved == s.approved;
    if s'.messages != s.messages { SaidDistinguishes(s, s', env.prompt(Issues(env, s, r))); }
  }

  lemma SaidDistinguishes(s: State, s': State, text: string)
    requires Distinguished(s) && s'.approved == s.approved && s'.messages == s.messages + [User(text)]
    ensures Distinguished(s')
  {
    CalledSnoc(s.messages, User(text));
  }

  lemma TurnDistinguishes(env: Env, s: State)
    requires OwnIds(Turn(env, s).0.messages) && Distinguished(s)
    ensures Distinguished(Turn(env, s).0)
  {
    if s.pending != [] {
      ActDistinguishes(env, s, s.pending);
    } else if s.modelCalls < env.maxSteps {
      TurnSaysAnswer(env, s);
      OwnIdsBefore(s.messages + [Assistant(env.model(s.messages))], Turn(env, s).0.messages);
      CallDistinguishes(env, s);
      TurnIsAnswered(env, s);
      AnsweredDistinguishes(env, CallModel(env, s), env.model(s.messages));
    }
  }

  lemma AnsweredDistinguishes(env: Env, s: State, r: Response)
    requires Distinguished(s)
    ensures Distinguished(Answered(env, s, r).0)
  {
    if r.stop.ToolUse? && r.uses != [] { ActDistinguishes(env, s, r.uses); }
    else if !r.stop.Refusal? { JudgeDistinguishes(env, s, r); }
  }

  /** Ids of their own in the end means ids of their own after each turn. */
  lemma OwnIdsAfterTurn(env: Env, s: State)
    requires OwnIds(Loop(env, s).0.messages) && FromLast(s, s.pending)
    ensures OwnIds(Turn(env, s).0.messages)
  {
    TurnAsksAnew(env, s);
    ActKeepsCounters(env, s, s.pending);
    ActKeepsCounters(env, CallModel(env, s), env.model(s.messages).uses);
    var (s', o) := Turn(env, s);
    if o.None? {
      LoopSaysMore(env, s');
      OwnIdsBefore(s'.messages, Loop(env, s').0.messages);
    }
  }

  lemma {:induction false} LoopDistinguishes(env: Env, s: State)
    requires OwnIds(Loop(env, s).0.messages) && FromLast(s, s.pending) && Distinguished(s)
    ensures Distinguished(Loop(env, s).0)
    decreases env.maxSteps + 1 - s.modelCalls, if s.pending == [] then 0 else 1
  {
    OwnIdsAfterTurn(env, s);
    TurnDistinguishes(env, s);
    TurnAsksAnew(env, s);
    ActKeepsCounters(env, s, s.pending);
    ActKeepsCounters(env, CallModel(env, s), env.model(s.messages).uses);
    var (s', o) := Turn(env, s);
    if o.None? { LoopDistinguishes(env, s'); }
  }

  // ---- the run that was not interrupted --------------------------------------------------------

  /** The same, but where a person would have been asked the policy allows. */
  function Permissive(env: Env): Env {
    env.(policy := (m, r, u) => if env.policy(m, r, u).NeedsApproval? then Allow else env.policy(m, r, u))
  }

  /** The trace without the steps that only say what the run waits for. */
  function WithoutWaits(steps: seq<Step>): seq<Step> {
    if steps == [] then []
    else WithoutWaits(steps[..|steps| - 1]) + if steps[|steps| - 1].kind == Observe then [] else [steps[|steps| - 1]]
  }

  /** The same run but for its approvals and the steps that wait for them. */
  ghost predicate Like(s: State, t: State) {
    && t.messages == s.messages && t.results == s.results && t.pending == s.pending && t.approved == {}
    && t.modelCalls == s.modelCalls && t.repairsUsed == s.repairsUsed && t.evalRound == s.evalRound
    && t.repairing == s.repairing && t.steps == WithoutWaits(s.steps)
  }

  lemma WaitsSnoc(steps: seq<Step>, step: Step)
    ensures WithoutWaits(steps + [step]) == WithoutWaits(steps) + if step.kind == Observe then [] else [step]
  {
    assert (steps + [step])[..|steps|] == steps;
  }

  lemma RecordSim(s: State, t: State, kind: Kind, extra: seq<ToolResult>)
    requires Like(s, t)
    ensures if kind == Observe then Like(Record(s, kind, extra), t) else Like(Record(s, kind, extra), Record(t, kind, extra))
  {
    WaitsSnoc(s.steps, Step(kind, Stored(s.messages, s.results + extra)));
  }

  /** Of the calls still to run only the first may be approved, and then it had to be. */
  ghost predicate Cleared(env: Env, s: State, uses: seq<Use>) {
    && (forall k :: 1 <= k < |uses| ==> uses[k].id !in s.approved)
    && (uses != [] && uses[0].id in s.approved ==> env.policy(s.messages, s.results, uses[0]).NeedsApproval?)
  }

  lemma {:induction false} ActIgnoresPending(env: Env, s: State, pending: seq<Use>, uses: seq<Use>)
    ensures ActOn(env, s.(pending := pending), uses) == ActOn(env, s, uses)
    decreases |uses|
  {
    if uses != [] {
      var (s1, result, o) := OneTool(env, s, uses[0]);
      if result.Some? { ActIgnoresPending(env, s1.(results := s1.results + [result.value]), pending, uses[1..]); }
    }
  }

  lemma OneToolSim(env: Env, s: State, t: State, uses: seq<Use>)
    requires uses != [] && Cleared(env, s, uses) && Like(s, t)
    ensures var (s1, r1, o1) := OneTool(env, s, uses[0]);
            var (t1, r2, o2) := OneTool(Permissive(env), t, uses[0]);
            && s1.approved == s.approved
            && (r1.Some? ==> r2 == r1 && Like(s1, t1))
            && (r1.None? && !o1.value.Suspended? ==> r2.None? && o2 == o1 && Like(s1, t1))
            && (r1.None? && o1.value.Suspended? ==> o1.value.id == uses[0].id && Like(s1, t) && env.policy(s.messages, s.results, uses[0]).NeedsApproval?
                                                    && uses[0].id !in s.approved)
  {
    if uses[0].tool in env.tools { KnownToolSim(env, s, t, uses); }
  }

  lemma KnownToolSim(env: Env, s: State, t: State, uses: seq<Use>)
    requires uses != [] && Cleared(env, s, uses) && Like(s, t) && uses[0].tool in env.tools
    ensures var (s1, r1, o1) := OneTool(env, s, uses[0]);
            var (t1, r2, o2) := OneTool(Permissive(env), t, uses[0]);
            && s1.approved == s.approved
            && (r1.Some? ==> r2 == r1 && Like(s1, t1))
            && (r1.None? && !o1.value.Suspended? ==> r2.None? && o2 == o1 && Like(s1, t1))
            && (r1.None? && o1.value.Suspended? ==> o1.value.id == uses[0].id && Like(s1, t) && env.policy(s.messages, s.results, uses[0]).NeedsApproval?
                                                    && uses[0].id !in s.approved)
  {
    var decision := env.policy(s.messages, s.results, uses[0]);
    if uses[0].id in s.approved || decision.Allow? {
      var (content, isError) := env.tool(s.messages, s.results, uses[0]);
      RecordSim(s, t, Act, [ToolResult(uses[0].id, content, isError)]);
    } else if decision.NeedsApproval? {
      RecordSim(s, t, Observe, []);
    }
  }

  /** A turn's calls: the same results, or a suspension from which the uninterrupted run goes on. */
  lemma {:induction false} ActSim(env: Env, s: State, t: State, uses: seq<Use>) returns (t': State)
    requires Cleared(env, s, uses) && Like(s, t)
    ensures var (s1, o1) := ActOn(env, s, uses);
            var (t1, o2) := ActOn(Permissive(env), t, uses);
            && (o1.Some? && o1.value.Suspended? ==>
                  && Like(s1, t') && ActOn(Permissive(env), t', s1.pending) == (t1, o2)
                  && s1.pending != [] && s1.approved == s.approved
                  && o1.value.id == s1.pending[0].id && env.policy(s1.messages, s1.results, s1.pending[0]).NeedsApproval?
                  && (forall k :: 0 <= k < |s1.pending| ==> s1.pending[k].id !in s1.approved))
            && (!(o1.Some? && o1.value.Suspended?) ==> o2 == o1 && Like(s1, t1))
    decreases |uses|
  {
    t' := t;
    if uses != [] {
      OneToolSim(env, s, t, uses);
      var (s1, r1, o1) := OneTool(env, s, uses[0]);
      var (t1, r2, o2) := OneTool(Permissive(env), t, uses[0]);
      if r1.Some? {
        t' := ActSim(env, s1.(results := s1.results + [r1.value]), t1.(results := t1.results + [r1.value]), uses[1..]);
      } else if o1.value.Suspended? {
        t' := t.(pending := uses);
        ActIgnoresPending(Permissive(env), t, uses, uses);
      }
    }
  }

  lemma JudgeSim(env: Env, s: State, t: State, r: Response)
    requires Like(s, t)
    ensures Judge(Permissive(env), t, r).1 == Judge(env, s, r).1 && Like(Judge(env, s, r).0, Judge(Permissive(env), t, r).0)
    ensures var o := Judge(env, s, r).1; o.Some? ==> !o.value.Suspended?
  {
    RecordSim(s.(evalRound := s.evalRound + 1), t.(evalRound := t.evalRound + 1), Evaluate, []);
  }

  lemma AnsweredSim(env: Env, s: State, t: State, r: Response) returns (t': State)
    requires InTurn(s, r.uses) && Like(s, t) && s.approved !! UseIds(r.uses) && s.pending == [] && s.results == []
    ensures Simulated(env, Answered(env, s, r), Answered(Permissive(env), t, r), t')
  {
    forall k | 0 <= k < |r.uses| ensures r.uses[k].id !in s.approved { assert r.uses[k] in r.uses; }
    if r.stop.ToolUse? && r.uses != [] { t' := ActSim(env, s, t, r.uses); } else { t' := t; JudgeSim(env, s, t, r); }
  }

  /** The run with approvals has come to `a`, the uninterrupted one to `b`: to the same place, or the
      first is suspended, and from `t` with the same calls to run the second has come to `b`. */
  ghost predicate Simulated(env: Env, a: (State, Option<Outcome>), b: (State, Option<Outcome>), t: State) {
    if a.1.Some? && a.1.value.Suspended? then SuspendedLike(env, a.0, a.1.value.id, t) && ActOn(Permissive(env), t, a.0.pending) == b
    else b.1 == a.1 && Like(a.0, b.0)
  }

  ghost predicate SuspendedLike(env: Env, s: State, id: CallId, t: State) {
    && Like(s, t) && s.pending != [] && id == s.pending[0].id
    && env.policy(s.messages, s.results, s.pending[0]).NeedsApproval?
    && forall k :: 0 <= k < |s.pending| ==> s.pending[k].id !in s.approved
  }

  lemma AnsweringSim(s: State, t: State, r: Response)
    requires Like(s, t)
    ensures Like(Answering(s, r), Answering(t, r))
  {
  }

  lemma CallSim(env: Env, s: State, t: State)
    requires Like(s, t)
    ensures Like(CallModel(env, s), CallModel(Permissive(env), t)) && Permissive(env).model(t.messages) == env.model(s.messages)
  {
    AnsweringSim(s, t, env.model(s.messages));
    RecordSim(Answering(s, env.model(s.messages)), Answering(t, env.model(s.messages)), if s.repairing then Repair else Think, []);
  }

  lemma TurnIsAnswered(env: Env, s: State)
    requires s.pending == [] && s.modelCalls < env.maxSteps
    ensures Turn(env, s) == Answered(env, CallModel(env, s), env.model(s.messages))
  {
  }

  lemma PendingSim(env: Env, s: State, t: State) returns (t': State)
    requires s.pending != [] && Cleared(env, s, s.pending) && Like(s, t)
    ensures Simulated(env, Turn(env, s), Turn(Permissive(env), t), t')
  {
    t' := ActSim(env, s, t, s.pending);
    assert Turn(env, s) == ActOn(env, s, s.pending);
    assert Turn(Permissive(env), t) == ActOn(Permissive(env), t, s.pending);
  }

  lemma AskingSim(env: Env, s: State, t: State) returns (t': State)
    requires OwnIds(Turn(env, s).0.messages) && BetweenTurns(s) && Distinguished(s) && Like(s, t) && s.modelCalls < env.maxSteps
    ensures Simulated(env, Turn(env, s), Turn(Permissive(env), t), t')
  {
    TurnSaysAnswer(env, s);
    OwnIdsBefore(s.messages + [Assistant(env.model(s.messages))], Turn(env, s).0.messages);
    CallKeeps(env, s);
    CallDistinguishes(env, s);
    CallSim(env, s, t);
    t' := AnsweredSim(env, CallModel(env, s), CallModel(Permissive(env), t), env.model(s.messages));
    TurnIsAnswered(env, s);
    TurnIsAnswered(Permissive(env), t);
  }

  lemma TurnSim(env: Env, s: State, t: State) returns (t': State)
    requires OwnIds(Turn(env, s).0.messages) && Ready(s) && Distinguished(s) && Cleared(env, s, s.pending) && Like(s, t)
    ensures Simulated(env, Turn(env, s), Turn(Permissive(env), t), t')
  {
    if s.pending != [] { t' := PendingSim(env, s, t); }
    else if s.modelCalls < env.maxSteps { t' := AskingSim(env, s, t); }
    else { t' := t; }
  }

  lemma ReadyIsFromLast(s: State)
    requires Ready(s)
    ensures FromLast(s, s.pending)
  {
  }

  /** The loop: the same end, or a suspension from which the uninterrupted run goes on. */
  lemma {:induction false} LoopSim(env: Env, s: State, t: State) returns (t': State)
    requires OwnIds(Loop(env, s).0.messages) && Ready(s) && Distinguished(s) && Cleared(env, s, s.pending) && Like(s, t)
    ensures var (e, o) := Loop(env, s);
            var (x, p) := Loop(Permissive(env), t);
            && (o.Suspended? ==> SuspendedLike(env, e, o.id, t') && Loop(Permissive(env), t') == (x, p))
            && (!o.Suspended? ==> p == o && Like(e, x))
    decreases env.maxSteps + 1 - s.modelCalls, if s.pending == [] then 0 else 1
  {
    ReadyIsFromLast(s);
    OwnIdsAfterTurn(env, s);
    t' := TurnSim(env, s, t);
    TurnKeeps(env, s);
    TurnDistinguishes(env, s);
    ActKeepsCounters(env, s, s.pending);
    ActKeepsCounters(env, CallModel(env, s), env.model(s.messages).uses);
    var (s', o) := Turn(env, s);
    if o.None? {
      t' := LoopSim(env, s', Turn(Permissive(env), t).0);
    }
  }

  // ---- a whole life ------------------------------------------------------------------------------

  /** Suspended, approved, resumed. */
  ghost predicate Goes(env: Env, s: State, next: State) {
    var (e, o) := Loop(env, s);
    o.Suspended? && e.steps != [] && next == Resume(e.steps, e.approved + {o.id})
  }

  /** A run as the states its loop was entered with: fresh, and then once for every approval. */
  ghost predicate IsLife(env: Env, task: string, starts: seq<State>) {
    && starts != [] && starts[0] == Fresh(task)
    && forall i {:trigger starts[i]} :: 0 < i < |starts| ==> Goes(env, starts[i - 1], starts[i])
  }

  /** The last resumption of a life. */
  lemma LastGoes(env: Env, task: string, starts: seq<State>) returns (s: State, next: State)
    requires IsLife(env, task, starts) && |starts| > 1
    ensures var before := starts[..|starts| - 1];
            && IsLife(env, task, before) && s == before[|before| - 1]
            && next == starts[|starts| - 1] && Goes(env, s, next)
  {
    s, next := starts[|starts| - 2], starts[|starts| - 1];
  }

  /** The run was asked about `n` different calls, all of which the model made. */
  ghost predicate Asked(s: State, n: nat) {
    |s.approved| == n && s.approved <= CalledIds(s.messages) && FromLast(s, s.pending)
  }

  lemma AskedOnceMore(env: Env, s: State, next: State, n: nat)
    requires Asked(s, n) && Goes(env, s, next)
    ensures Asked(next, n + 1)
  {
    var (e, o) := Loop(env, s);
    LoopAsksAnew(env, s);
    ResumeGoesOn(s, e, o.id, e.approved + {o.id});
    CalledBefore(s.messages, e.messages);
    LastAreCalled(e);
  }

  lemma {:induction false} LifeIsAsked(env: Env, task: string, starts: seq<State>)
    requires IsLife(env, task, starts)
    ensures Asked(starts[|starts| - 1], |starts| - 1)
    decreases |starts|
  {
    if |starts| > 1 {
      var s, next := LastGoes(env, task, starts);
      LifeIsAsked(env, task, starts[..|starts| - 1]);
      AskedOnceMore(env, s, next, |starts| - 2);
    }
  }

  /** Each call is asked about at most once, whatever ids the provider gives: a run resumed so often has
      so many different calls approved, all of them calls the model made. */
  lemma CallsAreAskedOnce(env: Env, task: string, starts: seq<State>)
    requires IsLife(env, task, starts)
    ensures var s := starts[|starts| - 1]; |s.approved| == |starts| - 1 && s.approved <= CalledIds(s.messages)
  {
    LifeIsAsked(env, task, starts);
  }

  /** Where an uninterrupted run would be when the loop is entered with `s`. */
  ghost predicate Tracks(env: Env, task: string, s: State, t: State) {
    Ready(s) && Distinguished(s) && Cleared(env, s, s.pending) && Like(s, t) && Loop(Permissive(env), t) == Loop(Permissive(env), Fresh(task))
  }

  lemma ApprovedGoesOn(env: Env, e: State, id: CallId, t: State)
    requires JustSuspended(e) && Distinguished(e) && SuspendedLike(env, e, id, t)
    ensures var next := e.(approved := e.approved + {id}); Ready(next) && Distinguished(next) && Cleared(env, next, next.pending) && Like(next, t)
  {
    var all := e.messages[|e.messages| - 1].response.uses;
    var first := |all| - |e.pending|;
    assert e.pending[0] == all[first] && all[first] in all;
    assert id in UseIds(all) && UseIds(all) <= CalledIds(e.messages);
    forall k | 1 <= k < |e.pending| ensures e.pending[k].id != id { assert e.pending[k] == all[first + k]; }
  }

  lemma GoesOn(env: Env, task: string, s: State, next: State, t: State) returns (t': State)
    requires OwnIds(Loop(env, s).0.messages) && Tracks(env, task, s, t) && Goes(env, s, next)
    ensures Tracks(env, task, next, t')
  {
    ReadyIsFromLast(s);
    var u := LoopSim(env, s, t);
    LoopKeeps(env, s);
    LoopDistinguishes(env, s);
    var (e, o) := Loop(env, s);
    ResumeRestores(e, e.approved + {o.id});
    ApprovedGoesOn(env, e, o.id, u);
    t' := u;
  }

  /** The loop is entered with the conversation in which it was left. */
  lemma GoesOnTalking(env: Env, s: State, next: State)
    requires FromLast(s, s.pending) && Goes(env, s, next)
    ensures next.messages == Loop(env, s).0.messages
  {
    var (e, o) := Loop(env, s);
    LoopAsksAnew(env, s);
    ResumeGoesOn(s, e, o.id, e.approved + {o.id});
  }

  lemma OwnIdsOfGoes(env: Env, s: State, next: State)
    requires FromLast(s, s.pending) && Goes(env, s, next) && OwnIds(next.messages)
    ensures OwnIds(s.messages) && OwnIds(Loop(env, s).0.messages)
  {
    GoesOnTalking(env, s, next);
    LoopSaysMore(env, s);
    OwnIdsBefore(s.messages, next.messages);
  }

  lemma {:induction false} LifeTracks(env: Env, task: string, starts: seq<State>) returns (t: State)
    requires IsLife(env, task, starts) && OwnIds(starts[|starts| - 1].messages)
    ensures Tracks(env, task, starts[|starts| - 1], t)
    decreases |starts|
  {
    if |starts| == 1 {
      t := Fresh(task);
    } else {
      var s, next := LastGoes(env, task, starts);
      LifeIsAsked(env, task, starts[..|starts| - 1]);
      OwnIdsOfGoes(env, s, next);
      t := LifeTracks(env, task, starts[..|starts| - 1]);
      t := GoesOn(env, task, s, next, t);
    }
  }

  /** However often a run was suspended and resumed, it ends as the run would have ended had the policy
      allowed the calls it asked about: the same outcome, conversation and counters, and the same trace
      but for the steps that record the waiting. All it takes is that in its conversation every call has
      an id of its own. */
  lemma ApprovalsAreTransparent(env: Env, task: string, starts: seq<State>)
    requires IsLife(env, task, starts) && OwnIds(Loop(env, starts[|starts| - 1]).0.messages)
    ensures var (e, o) := Loop(env, starts[|starts| - 1]);
            var (x, p) := Loop(Permissive(env), Fresh(task));
            !o.Suspended? ==> p == o && x == e.(approved := {}, steps := WithoutWaits(e.steps))
  {
    var s := starts[|starts| - 1];
    LifeIsAsked(env, task, starts);
    LoopSaysMore(env, s);
    OwnIdsBefore(s.messages, Loop(env, s).0.messages);
    var t := LifeTracks(env, task, starts);
    var u := LoopSim(env, s, t);
  }

  /** A call that is to be approved, and after it another one with its id that the policy forbids. */
  function Returning(): Env {
    Env(
      (messages: seq<Message>) => if |messages| == 1 then Response("", [Use(0, "send", "")], ToolUse, None, [])
                                  else if |messages| == 3 then Response("", [Use(0, "erase", "")], ToolUse, None, [])
                                  else Response("done", [], EndTurn, Some("done"), []),
      (messages: seq<Message>, results: seq<ToolResult>, use: Use) => if use.tool == "send" then NeedsApproval else Deny,
      (messages, results, use) => ("ok", false),
      (messages, text) => [],
      issues => "again",
      {"send", "erase"}, 5, 1)
  }

  lemma OneCall(env: Env, s: State, use: Use)
    requires use.tool in env.tools && s.results == []
    ensures var result := ToolResult(use.id, env.tool(s.messages, [], use).0, env.tool(s.messages, [], use).1);
            var made := Record(s, Act, [result]).(pending := [], messages := s.messages + [Results([result])], results := []);
            && (use.id in s.approved || env.policy(s.messages, [], use).Allow? ==> ActOn(env, s, [use]) == (made, None))
            && (use.id !in s.approved && env.policy(s.messages, [], use).Deny? ==> ActOn(env, s, [use]).1 == Some(Aborted))
            && (use.id !in s.approved && env.policy(s.messages, [], use).NeedsApproval? ==>
                  ActOn(env, s, [use]) == (Record(s, Observe, []).(pending := [use]), Some(Suspended(use.id))))
  {
    var result := ToolResult(use.id, env.tool(s.messages, [], use).0, env.tool(s.messages, [], use).1);
    assert [use][1..] == [] && s.results + [result] == [result];
  }

  /** An id that comes back after its approval passes the policy unasked: the call the policy forbids is
      made, and the run completes; had the policy allowed the first call, it would have been aborted. */
  lemma ReturningIdsPassUnasked(task: string)
    ensures var (e, o) := Loop(Returning(), Fresh(task));
            && o == Suspended(0) && e.steps != []
            && var next := Resume(e.steps, {0});
               && IsLife(Returning(), task, [Fresh(task), next])
               && Loop(Returning(), next).1 == Completed("done")
               && Loop(Permissive(Returning()), Fresh(task)).1 == Aborted
  {
    FirstIsSuspended(task);
    ResumedCompletes(task);
    UninterruptedIsAborted(task);
  }

  lemma FirstIsSuspended(task: string)
    ensures var env, s := Returning(), Fresh(task);
            && Loop(env, s) == (Record(CallModel(env, s), Observe, []).(pending := [Use(0, "send", "")]), Suspended(0))
            && Resume(Loop(env, s).0.steps, {0}) == Loop(env, s).0.(approved := {0})
  {
    var env, s, send := Returning(), Fresh(task), Use(0, "send", "");
    OneCall(env, CallModel(env, s), send);
    assert Turn(env, s) == ActOn(env, CallModel(env, s), [send]);
    var e := Loop(env, s).0;
    LoopKeeps(env, s);
    ResumeRestores(e, {0});
  }

  lemma ResumedCompletes(task: string)
    ensures var env := Returning(); Loop(env, Loop(env, Fresh(task)).0.(approved := {0})).1 == Completed("done")
  {
    var env, send, erase := Returning(), Use(0, "send", ""), Use(0, "erase", "");
    FirstIsSuspended(task);
    var next := Loop(env, Fresh(task)).0.(approved := {0});
    OneCall(env, next, send);
    var s1 := Turn(env, next).0;
    assert Turn(env, next) == ActOn(env, next, [send]);
    OneCall(env, CallModel(env, s1), erase);
    var s2 := Turn(env, s1).0;
    assert Turn(env, s1) == ActOn(env, CallModel(env, s1), [erase]);
    assert Turn(env, s2).1 == Some(Completed("done"));
    assert Loop(env, s2).1 == Completed("done");
    assert Loop(env, s1) == Loop(env, s2);
  }

  lemma UninterruptedIsAborted(task: string)
    ensures Loop(Permissive(Returning()), Fresh(task)).1 == Aborted
  {
    var env, s, send, erase := Permissive(Returning()), Fresh(task), Use(0, "send", ""), Use(0, "erase", "");
    OneCall(env, CallModel(env, s), send);
    var s1 := Turn(env, s).0;
    assert Turn(env, s) == ActOn(env, CallModel(env, s), [send]);
    OneCall(env, CallModel(env, s1), erase);
    assert Turn(env, s1) == ActOn(env, CallModel(env, s1), [erase]);
    assert Loop(env, s1).1 == Aborted;
  }

  // ---- bounds over a whole life ------------------------------------------------------------------

  /** The counters are what the steps say, and within the limits. */
  ghost predicate Within(env: Env, s: State) {
    Counted(s) && s.modelCalls <= env.maxSteps && s.repairsUsed <= env.repairLimit
  }

  lemma OneToolKeepsWithin(env: Env, s: State, use: Use)
    requires Within(env, s)
    ensures Within(env, OneTool(env, s, use).0)
  {
    if use.tool in env.tools {
      var decision := if use.id in s.approved then Allow else env.policy(s.messages, s.results, use);
      if decision.Allow? {
        var (content, isError) := env.tool(s.messages, s.results, use);
        RecordCounts(s, Act, [ToolResult(use.id, content, isError)]);
      } else {
        RecordCounts(s, Observe, []);
      }
    }
  }

  lemma {:induction false} ActKeepsWithin(env: Env, s: State, uses: seq<Use>)
    requires Within(env, s)
    ensures Within(env, ActOn(env, s, uses).0)
    decreases |uses|
  {
    if uses != [] {
      OneToolKeepsWithin(env, s, uses[0]);
      var (s1, result, o) := OneTool(env, s, uses[0]);
      if result.Some? { ActKeepsWithin(env, s1.(results := s1.results + [result.value]), uses[1..]); }
    }
  }

  lemma CallKeepsWithin(env: Env, s: State)
    requires Within(env, s) && s.modelCalls < env.maxSteps
    ensures Within(env, CallModel(env, s)) && !CallModel(env, s).repairing
  {
    RecordCounts(Answering(s, env.model(s.messages)), if s.repairing then Repair else Think, []);
  }

  lemma EvaluationIsRecorded(env: Env, a: State)
    requires a.evalRound == Count(a.steps, {Evaluate}) + 1 && Within(env, a.(evalRound := Count(a.steps, {Evaluate}))) && !a.repairing
    ensures Within(env, Record(a, Evaluate, [])) && !Record(a, Evaluate, []).repairing
  {
    RecordCounts(a, Evaluate, []);
  }

  lemma JudgeKeepsWithin(env: Env, s: State, r: Response)
    requires Within(env, s) && !s.repairing
    ensures Within(env, Judge(env, s, r).0)
  {
    EvaluationIsRecorded(env, s.(evalRound := s.evalRound + 1));
  }

  lemma AnsweredKeepsWithin(env: Env, s: State, r: Response)
    requires Within(env, s) && !s.repairing
    ensures Within(env, Answered(env, s, r).0)
  {
    if r.stop.ToolUse? && r.uses != [] { ActKeepsWithin(env, s, r.uses); }
    else if !r.stop.Refusal? { JudgeKeepsWithin(env, s, r); }
  }

  lemma TurnKeepsWithin(env: Env, s: State)
    requires Within(env, s)
    ensures Within(env, Turn(env, s).0)
  {
    if s.pending != [] {
      ActKeepsWithin(env, s, s.pending);
    } else if s.modelCalls < env.maxSteps {
      CallKeepsWithin(env, s);
      AnsweredKeepsWithin(env, CallModel(env, s), env.model(s.messages));
      TurnIsAnswered(env, s);
    }
  }

  lemma {:induction false} LoopKeepsWithin(env: Env, s: State)
    requires Within(env, s)
    ensures Within(env, Loop(env, s).0)
    decreases env.maxSteps + 1 - s.modelCalls, if s.pending == [] then 0 else 1
  {
    TurnKeepsWithin(env, s);
    ActKeepsCounters(env, s, s.pending);
    ActKeepsCounters(env, CallModel(env, s), env.model(s.messages).uses);
    var (s', o) := Turn(env, s);
    if o.None? { LoopKeepsWithin(env, s'); }
  }

  lemma ResumeIsWithin(env: Env, e: State, approved: set<CallId>)
    requires Within(env, e) && e.steps != []
    ensures Within(env, Resume(e.steps, approved))
  {
  }

  lemma GoesOnWithin(env: Env, s: State, next: State)
    requires Within(env, s) && Goes(env, s, next)
    ensures Within(env, next)
  {
    LoopKeepsWithin(env, s);
    ResumeIsWithin(env, Loop(env, s).0, Loop(env, s).0.approved + {Loop(env, s).1.id});
  }

  lemma {:induction false} LifeIsWithin(env: Env, task: string, starts: seq<State>)
    requires IsLife(env, task, starts)
    ensures Within(env, starts[|starts| - 1])
    decreases |starts|
  {
    if |starts| > 1 {
      var s, next := LastGoes(env, task, starts);
      LifeIsWithin(env, task, starts[..|starts| - 1]);
      GoesOnWithin(env, s, next);
    }
  }

  /** Over its whole life, interruptions included, a run makes at most `maxSteps` model calls and
      `repairLimit` repairs, whatever ids the provider gives its calls. */
  lemma LifeIsBounded(env: Env, task: string, starts: seq<State>)
    requires IsLife(env, task, starts)
    ensures var e := Loop(env, starts[|starts| - 1]).0;
            Count(e.steps, {Think, Repair}) <= env.maxSteps && Count(e.steps, {Repair}) <= env.repairLimit
  {
    LifeIsWithin(env, task, starts);
    LoopKeepsWithin(env, starts[|starts| - 1]);
  }
}
