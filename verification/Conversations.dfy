/** One agent run as a conversation (backend/autora/runtime/agent_runner.py): model calls, tool calls
    behind a policy, evaluation and repair, and the steps from which a suspended run is rebuilt.
    The model, the policy, the tools and the validators are whatever they are. */
module Conversations {
  import opened Wrappers

  type CallId = nat

  datatype Use = Use(id: CallId, tool: string, args: string)

  datatype ToolResult = ToolResult(id: CallId, content: string, isError: bool)

  datatype Stop = ToolUse | EndTurn | Refusal | MaxTokens

  datatype Response = Response(text: string, uses: seq<Use>, stop: Stop, parsed: Option<string>, issues: seq<string>)

  datatype Message =
    | User(text: string)
    | Assistant(response: Response)
    | Results(results: seq<ToolResult>)

  datatype Decision = Allow | Deny | NeedsApproval

  /** What answers the run. */
  datatype Env = Env(
    model: seq<Message> -> Response,
    policy: (seq<Message>, seq<ToolResult>, Use) -> Decision,
    tool: (seq<Message>, seq<ToolResult>, Use) -> (string, bool),
    validate: (seq<Message>, string) -> seq<string>,
    prompt: seq<string> -> string,
    tools: set<string>,
    maxSteps: nat,
    repairLimit: nat)

  datatype Kind = Think | Act | Observe | Evaluate | Repair

  /** A stored step, with the conversation at that point. */
  datatype Step = Step(kind: Kind, after: seq<Message>)

  datatype State = State(
    messages: seq<Message>,
    results: seq<ToolResult>,
    pending: seq<Use>,
    approved: set<CallId>,
    modelCalls: nat,
    repairsUsed: nat,
    evalRound: nat,
    repairing: bool,
    steps: seq<Step>)

  datatype Outcome = Completed(output: string) | Failed(why: string) | Aborted | Suspended(id: CallId)

  /** The conversation as it is stored: with the results so far of an unfinished turn. */
  function Stored(messages: seq<Message>, results: seq<ToolResult>): seq<Message> {
    if results == [] then messages else messages + [Results(results)]
  }

  /** A new step, which stores what was said up to here (agent_runner.py:682-697). */
  function Record(s: State, kind: Kind, extra: seq<ToolResult>): State {
    s.(steps := s.steps + [Step(kind, Stored(s.messages, s.results + extra))])
  }

  // ---- tools ---------------------------------------------------------------------------------

  /** One tool call: its result, or what ends the run here (agent_runner.py:458-586). */
  function OneTool(env: Env, s: State, use: Use): (State, Option<ToolResult>, Option<Outcome>) {
    if use.tool !in env.tools then
      (s, Some(ToolResult(use.id, "unknown tool", true)), None)
    else
      var decision := if use.id in s.approved then Allow else env.policy(s.messages, s.results, use);
      match decision
      case Deny => (s, None, Some(Aborted))
      case NeedsApproval => (Record(s, Observe, []), None, Some(Suspended(use.id)))
      case Allow =>
        var (content, isError) := env.tool(s.messages, s.results, use);
        var result := ToolResult(use.id, content, isError);
        (Record(s, Act, [result]), Some(result), None)
  }

  /** The tool calls of a turn, one after the other (agent_runner.py:446-456). */
  function ActOn(env: Env, s: State, uses: seq<Use>): (State, Option<Outcome>)
    decreases |uses|
  {
    if uses == [] then
      (s.(pending := [], messages := s.messages + [Results(s.results)], results := []), None)
    else
      var (s1, result, outcome) := OneTool(env, s, uses[0]);
      if result.Some? then ActOn(env, s1.(results := s1.results + [result.value]), uses[1..])
      else (s1.(pending := uses), outcome)
  }

  // ---- the model and the evaluator -----------------------------------------------------------

  /** The model has answered. */
  function Answering(s: State, r: Response): State {
    s.(modelCalls := s.modelCalls + 1, repairing := false, messages := s.messages + [Assistant(r)], results := [])
  }

  /** agent_runner.py:374-444. */
  function CallModel(env: Env, s: State): State {
    Record(Answering(s, env.model(s.messages)), if s.repairing then Repair else Think, [])
  }

  /** What is wrong with a final answer before anybody looks at it (agent_runner.py:342-346). */
  function Complaints(r: Response): seq<string> {
    var issues := r.issues + if r.stop.MaxTokens? then ["cut off"] else [];
    issues + if r.parsed.None? && issues == [] then ["no structured output"] else []
  }

  /** What is wrong with it in the end: the validators see only an answer without complaints. */
  function Issues(env: Env, s: State, r: Response): seq<string> {
    var first := Complaints(r);
    if r.parsed.Some? && first == [] then env.validate(s.messages, r.parsed.value) else first
  }

  /** agent_runner.py:588-651. */
  function Judge(env: Env, s: State, r: Response): (State, Option<Outcome>) {
    var issues := Issues(env, s, r);
    var s1 := Record(s.(evalRound := s.evalRound + 1), Evaluate, []);
    if issues == [] then (s1, Some(Completed(if r.parsed.Some? then r.parsed.value else "")))
    else if s.repairsUsed < env.repairLimit then
      (s1.(repairsUsed := s.repairsUsed + 1, messages := s.messages + [User(env.prompt(issues))], repairing := true), None)
    else (s1, Some(Failed("EvaluationFailed")))
  }

  /** One turn of the loop (agent_runner.py:313-349). */
  function Turn(env: Env, s: State): (State, Option<Outcome>) {
    if s.pending != [] then ActOn(env, s, s.pending)
    else if s.modelCalls >= env.maxSteps then (s, Some(Failed("MaxStepsExceeded")))
    else
      var s1, r := CallModel(env, s), env.model(s.messages);
      if r.stop.ToolUse? && r.uses != [] then ActOn(env, s1, r.uses)
      else if r.stop.Refusal? then (s1, Some(Failed("ModelRefusal")))
      else Judge(env, s1, r)
  }

  lemma {:induction false} ActKeepsCounters(env: Env, s: State, uses: seq<Use>)
    ensures var (s', o) := ActOn(env, s, uses);
            && s'.modelCalls == s.modelCalls && s'.repairsUsed == s.repairsUsed && s'.evalRound == s.evalRound && s'.repairing == s.repairing
            && (o.None? ==> s'.pending == []) && (o.Some? ==> !o.value.Completed? && !o.value.Failed?)
    decreases |uses|
  {
    if uses != [] {
      var (s1, result, outcome) := OneTool(env, s, uses[0]);
      if result.Some? { ActKeepsCounters(env, s1.(results := s1.results + [result.value]), uses[1..]); }
    }
  }

  /** Until the run ends or is suspended. */
  function Loop(env: Env, s: State): (State, Outcome)
    decreases env.maxSteps + 1 - s.modelCalls, if s.pending == [] then 0 else 1
  {
    var (s', o) := Turn(env, s);
    ActKeepsCounters(env, s, s.pending);
    ActKeepsCounters(env, CallModel(env, s), env.model(s.messages).uses);
    if o.Some? then (s', o.value) else Loop(env, s')
  }

  // ---- resuming ------------------------------------------------------------------------------

  function Count(steps: seq<Step>, kinds: set<Kind>): nat {
    if steps == [] then 0
    else Count(steps[..|steps| - 1], kinds) + if steps[|steps| - 1].kind in kinds then 1 else 0
  }

  function Unanswered(uses: seq<Use>, done: set<CallId>): seq<Use> {
    if uses == [] then []
    else (if uses[0].id in done then [] else [uses[0]]) + Unanswered(uses[1..], done)
  }

  function Ids(results: seq<ToolResult>): set<CallId> {
    set r | r in results :: r.id
  }

  /** What a stored conversation is taken apart into: the conversation, the results of the turn that
      was not finished, and the calls of that turn still to run (agent_runner.py:277-292). */
  function TakenApart(stored: seq<Message>): (seq<Message>, seq<ToolResult>, seq<Use>) {
    var answered := stored != [] && stored[|stored| - 1].Results? && stored[|stored| - 1].results != [];
    var results := if answered then stored[|stored| - 1].results else [];
    var messages := if answered then stored[..|stored| - 1] else stored;
    (messages, results,
      if messages != [] && messages[|messages| - 1].Assistant?
      then Unanswered(messages[|messages| - 1].response.uses, Ids(results)) else [])
  }

  /** The state rebuilt from the stored steps and the approvals (agent_runner.py:267-308). */
  function Resume(steps: seq<Step>, approved: set<CallId>): State
    requires steps != []
  {
    var (messages, results, pending) := TakenApart(steps[|steps| - 1].after);
    State(messages, results, pending, approved, Count(steps, {Think, Repair}), Count(steps, {Repair}), Count(steps, {Evaluate}), false, steps)
  }

  /** A fresh run: the task, and nothing asked yet. */
  function Fresh(task: string): State {
    State([User(task)], [], [], {}, 0, 0, 0, false, [])
  }
}
