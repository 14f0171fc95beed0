/** How an agent run ends, in terms of the conversation, the policy and the validators alone
    (backend/autora/runtime/agent_runner.py:312-349, 446-651). */
module Endings {
  import opened Wrappers
  import opened Conversations

  // ---- answers -------------------------------------------------------------------------------

  /** The answer is meant as the result: no tool is called, and the model does not refuse. */
  predicate IsFinal(r: Response) {
    !(r.stop.ToolUse? && r.uses != []) && !r.stop.Refusal?
  }

  /** The answer is whole and of the asked form, and the validators have nothing against it. */
  predicate IsGood(env: Env, messages: seq<Message>, r: Response) {
    r.parsed.Some? && r.issues == [] && !r.stop.MaxTokens? && env.validate(messages, r.parsed.value) == []
  }

  predicate LastAnswer(messages: seq<Message>, r: Response) {
    messages != [] && messages[|messages| - 1] == Assistant(r)
  }

  // ---- why a run ends ------------------------------------------------------------------------

  /** The call the run stopped at: of a known tool, not approved, and decided so by the policy. */
  predicate StoppedAt(env: Env, e: State, d: Decision) {
    e.pending != [] && e.pending[0].tool in env.tools && e.pending[0].id !in e.approved
    && env.policy(e.messages, e.results, e.pending[0]) == d
  }

  ghost predicate EndedFor(env: Env, e: State, o: Outcome) {
    match o
    case Completed(output) =>
      exists r :: LastAnswer(e.messages, r) && IsFinal(r) && IsGood(env, e.messages, r) && r.parsed == Some(output)
    case Failed(why) =>
      || (why == "EvaluationFailed" && e.repairsUsed >= env.repairLimit
          && exists r :: LastAnswer(e.messages, r) && IsFinal(r) && !IsGood(env, e.messages, r))
      || (why == "ModelRefusal" && exists r :: LastAnswer(e.messages, r) && r.stop.Refusal?)
      || (why == "MaxStepsExceeded" && e.pending == [] && e.modelCalls >= env.maxSteps)
    case Aborted => StoppedAt(env, e, Deny)
    case Suspended(id) => StoppedAt(env, e, NeedsApproval) && e.pending[0].id == id
  }

  lemma {:induction false} ActEndsFor(env: Env, s: State, uses: seq<Use>)
    ensures var (e, o) := ActOn(env, s, uses);
            (o.Some? ==> EndedFor(env, e, o.value)) && e.repairsUsed == s.repairsUsed
    decreases |uses|
  {
    if uses != [] {
      var (s1, result, o) := OneTool(env, s, uses[0]);
      if result.Some? { ActEndsFor(env, s1.(results := s1.results + [result.value]), uses[1..]); }
    }
  }

  lemma IssuesAreFaults(env: Env, s: State, r: Response)
    ensures Issues(env, s, r) == [] <==> IsGood(env, s.messages, r)
  {
  }

  lemma JudgeEndsFor(env: Env, s: State, r: Response)
    requires LastAnswer(s.messages, r) && IsFinal(r)
    ensures var (e, o) := Judge(env, s, r);
            && (o.Some? ==> EndedFor(env, e, o.value))
            && (s.repairsUsed <= env.repairLimit ==> e.repairsUsed <= env.repairLimit)
  {
    IssuesAreFaults(env, s, r);
    assert LastAnswer(Judge(env, s, r).0.messages, r) || Judge(env, s, r).1.None?;
  }

  lemma CallIsAnswered(env: Env, s: State)
    ensures LastAnswer(CallModel(env, s).messages, env.model(s.messages))
    ensures CallModel(env, s).messages == s.messages + [Assistant(env.model(s.messages))]
    ensures CallModel(env, s).repairsUsed == s.repairsUsed && CallModel(env, s).pending == s.pending
  {
  }

  lemma TurnEndsFor(env: Env, s: State)
    ensures var (e, o) := Turn(env, s);
            && (o.Some? ==> EndedFor(env, e, o.value))
            && (s.repairsUsed <= env.repairLimit ==> e.repairsUsed <= env.repairLimit)
  {
    if s.pending != [] {
      ActEndsFor(env, s, s.pending);
    } else if s.modelCalls < env.maxSteps {
      var s1, r := CallModel(env, s), env.model(s.messages);
      CallIsAnswered(env, s);
      if r.stop.ToolUse? && r.uses != [] { ActEndsFor(env, s1, r.uses); }
      else if !r.stop.Refusal? { JudgeEndsFor(env, s1, r); }
      else { assert LastAnswer(s1.messages, r) && r.stop.Refusal?; }
    }
  }

  /** A run completes only with its last answer, when that is whole, of the asked form and past the
      validators; it fails for its evaluation only with such an answer missing and all repairs used; it
      is aborted or suspended only at a call the policy denies or wants approved. */
  lemma {:induction false} EndsFor(env: Env, s: State)
    ensures var (e, o) := Loop(env, s);
            && EndedFor(env, e, o)
            && (s.repairsUsed <= env.repairLimit ==>
                  e.repairsUsed <= env.repairLimit && (o == Failed("EvaluationFailed") ==> e.repairsUsed == env.repairLimit))
    decreases env.maxSteps + 1 - s.modelCalls, if s.pending == [] then 0 else 1
  {
    TurnEndsFor(env, s);
    ActKeepsCounters(env, s, s.pending);
    ActKeepsCounters(env, CallModel(env, s), env.model(s.messages).uses);
    var (s', o) := Turn(env, s);
    if o.None? { EndsFor(env, s'); }
  }

  // ---- what an answer leads to ---------------------------------------------------------------

  /** The model is asked: no call is left to run, and it may be asked once more. */
  predicate Asks(env: Env, s: State) {
    s.pending == [] && s.modelCalls < env.maxSteps
  }

  lemma FinalIsJudged(env: Env, s: State)
    requires Asks(env, s) && IsFinal(env.model(s.messages))
    ensures Turn(env, s) == Judge(env, CallModel(env, s), env.model(s.messages))
  {
  }

  /** A good answer completes the run. */
  lemma GoodAnswerCompletes(env: Env, s: State)
    requires Asks(env, s)
    requires var r := env.model(s.messages); IsFinal(r) && IsGood(env, s.messages + [Assistant(r)], r)
    ensures var (e, o), r := Loop(env, s), env.model(s.messages);
            o == Completed(r.parsed.value) && e.messages == s.messages + [Assistant(r)] && e.modelCalls == s.modelCalls + 1
  {
    var r := env.model(s.messages);
    CallIsAnswered(env, s);
    FinalIsJudged(env, s);
    IssuesAreFaults(env, CallModel(env, s), r);
  }

  /** What the model is told is wrong: what it was known to be, that it was cut off, that there is
      nothing of the asked form; only where none of that is so, what the validators say. */
  predicate IsTold(env: Env, messages: seq<Message>, r: Response, issues: seq<string>) {
    if r.stop.MaxTokens? then issues == r.issues + ["cut off"]
    else if r.issues != [] then issues == r.issues
    else if r.parsed.None? then issues == ["no structured output"]
    else issues == env.validate(messages, r.parsed.value)
  }

  /** Another answer is sent back while repairs are left: the run goes on with what is wrong with it said,
      and one repair used. */
  lemma BadAnswerIsSentBack(env: Env, s: State)
    requires Asks(env, s) && s.repairsUsed < env.repairLimit
    requires var r := env.model(s.messages); IsFinal(r) && !IsGood(env, s.messages + [Assistant(r)], r)
    ensures var r, next := env.model(s.messages), Turn(env, s).0;
            && Loop(env, s) == Loop(env, next)
            && (exists issues :: IsTold(env, s.messages + [Assistant(r)], r, issues)
                                 && next.messages == s.messages + [Assistant(r)] + [User(env.prompt(issues))])
            && next.repairsUsed == s.repairsUsed + 1 && next.modelCalls == s.modelCalls + 1 && next.pending == []
            && next.repairing && next.evalRound == s.evalRound + 1
  {
    var r := env.model(s.messages);
    CallIsAnswered(env, s);
    FinalIsJudged(env, s);
    IssuesAreFaults(env, CallModel(env, s), r);
    assert IsTold(env, s.messages + [Assistant(r)], r, Issues(env, CallModel(env, s), r));
  }

  /** And with no repairs left it is the end. */
  lemma BadAnswerFails(env: Env, s: State)
    requires Asks(env, s) && s.repairsUsed >= env.repairLimit
    requires var r := env.model(s.messages); IsFinal(r) && !IsGood(env, s.messages + [Assistant(r)], r)
    ensures Loop(env, s).1 == Failed("EvaluationFailed")
  {
    CallIsAnswered(env, s);
    FinalIsJudged(env, s);
    IssuesAreFaults(env, CallModel(env, s), env.model(s.messages));
  }

  lemma RefusalFails(env: Env, s: State)
    requires Asks(env, s) && env.model(s.messages).stop.Refusal?
    ensures Loop(env, s).1 == Failed("ModelRefusal")
  {
  }

  /** A model that was asked often enough is not asked again. */
  lemma StepsRunOut(env: Env, s: State)
    requires s.pending == [] && s.modelCalls >= env.maxSteps
    ensures Loop(env, s) == (s, Failed("MaxStepsExceeded"))
  {
  }

  // ---- the calls of a turn -------------------------------------------------------------------

  /** A call that is made: of an unknown tool, approved, or allowed by the policy. */
  predicate IsMade(env: Env, s: State, results: seq<ToolResult>, use: Use) {
    use.tool !in env.tools || use.id in s.approved || env.policy(s.messages, results, use) == Allow
  }

  /** What comes back from a call. */
  function Comeback(env: Env, s: State, results: seq<ToolResult>, use: Use): ToolResult {
    if use.tool !in env.tools then ToolResult(use.id, "unknown tool", true)
    else ToolResult(use.id, env.tool(s.messages, results, use).0, env.tool(s.messages, results, use).1)
  }

  ghost predicate ComesFrom(env: Env, s: State, use: Use, results: seq<ToolResult>, j: nat) {
    j < |results| && IsMade(env, s, results[..j], use) && results[j] == Comeback(env, s, results[..j], use)
  }

  /** Results that come from the first `n` of some calls, made one after the other. */
  ghost predicate ComeFrom(env: Env, s: State, uses: seq<Use>, n: nat, results: seq<ToolResult>) {
    && n <= |uses| && |results| == |s.results| + n && s.results <= results
    && forall k: nat {:trigger uses[k]} :: k < n ==> ComesFrom(env, s, uses[k], results, |s.results| + k)
  }

  lemma ComesFirst(env: Env, s: State, s1: State, uses: seq<Use>, result: ToolResult, n: nat, results: seq<ToolResult>)
    requires uses != [] && s1.messages == s.messages && s1.approved == s.approved && s1.results == s.results + [result]
    requires IsMade(env, s, s.results, uses[0]) && result == Comeback(env, s, s.results, uses[0])
    requires ComeFrom(env, s1, uses[1..], n, results)
    ensures ComeFrom(env, s, uses, n + 1, results)
  {
    var m := |s.results|;
    assert s.results == s1.results[..m] == results[..m];
    assert results[m] == s1.results[m] == result;
    assert ComesFrom(env, s, uses[0], results, m);
    forall k: nat {:trigger uses[k]} | k < n + 1 ensures ComesFrom(env, s, uses[k], results, m + k) {
      if k > 0 {
        assert uses[1..][k - 1] == uses[k];
        assert ComesFrom(env, s1, uses[1..][k - 1], results, |s1.results| + (k - 1));
      }
    }
  }

  lemma FirstCall(env: Env, s: State, use: Use)
    ensures var (s1, result, o) := OneTool(env, s, use);
            && s1.messages == s.messages && s1.approved == s.approved && s1.results == s.results
            && (result.Some? <==> IsMade(env, s, s.results, use))
            && (result.Some? ==> result.value == Comeback(env, s, s.results, use) && o.None?)
  {
  }

  /** The calls of a turn are made in their order, each after the results of those before it, up to the
      first that the policy denies or wants approved; that one and the rest are kept. */
  lemma {:induction false} CallsAreMadeInOrder(env: Env, s: State, uses: seq<Use>) returns (n: nat, results: seq<ToolResult>)
    ensures ComeFrom(env, s, uses, n, results)
    ensures var (e, o) := ActOn(env, s, uses);
            && (n == |uses| ==> o.None? && e.messages == s.messages + [Results(results)] && e.results == [] && e.pending == [])
            && (n < |uses| ==> !IsMade(env, s, results, uses[n]) && o.Some? && e.messages == s.messages && e.results == results && e.pending == uses[n..])
    decreases |uses|
  {
    if uses == [] {
      n, results := 0, s.results;
    } else {
      FirstCall(env, s, uses[0]);
      var (s1, result, o) := OneTool(env, s, uses[0]);
      if result.Some? {
        var s2 := s1.(results := s1.results + [result.value]);
        var k;
        k, results := CallsAreMadeInOrder(env, s2, uses[1..]);
        ComesFirst(env, s, s2, uses, result.value, k, results);
        n := k + 1;
      } else {
        n, results := 0, s.results;
      }
    }
  }
}
