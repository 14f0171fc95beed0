/** The runner itself (backend/autora/runtime/agent_runner.py): the state of a run in fields, which its
    loop, its tool calls and its evaluation change in place. */
module Runners {
  import opened Wrappers
  import C = Conversations

  class Runner {
    const env: C.Env
    var messages: seq<C.Message>
    var results: seq<C.ToolResult>
    var pending: seq<C.Use>
    var approved: set<C.CallId>
    var modelCalls: nat
    var repairsUsed: nat
    var evalRound: nat
    var repairing: bool
    var steps: seq<C.Step>

    ghost function Value(): C.State reads this {
      C.State(messages, results, pending, approved, modelCalls, repairsUsed, evalRound, repairing, steps)
    }

    constructor (env: C.Env, task: string)
      ensures this.env == env && Value() == C.Fresh(task)
    {
      this.env := env;
      messages, results, pending, approved := [C.User(task)], [], [], {};
      modelCalls, repairsUsed, evalRound, repairing, steps := 0, 0, 0, false, [];
    }

    method Record(kind: C.Kind, extra: seq<C.ToolResult>)
      modifies this`steps
      ensures Value() == C.Record(old(Value()), kind, extra)
    {
      steps := steps + [C.Step(kind, C.Stored(messages, results + extra))];
    }

    method OneTool(use: C.Use) returns (result: Option<C.ToolResult>, outcome: Option<C.Outcome>)
      modifies this`steps
      ensures (Value(), result, outcome) == C.OneTool(env, old(Value()), use)
    {
      result, outcome := None, None;
      if use.tool !in env.tools {
        result := Some(C.ToolResult(use.id, "unknown tool", true));
        return;
      }
      if use.id !in approved {
        var decision := env.policy(messages, results, use);
        if decision == C.Deny {
          outcome := Some(C.Aborted);
          return;
        }
        if decision == C.NeedsApproval {
          Record(C.Observe, []);
          outcome := Some(C.Suspended(use.id));
          return;
        }
      }
      var (content, isError) := env.tool(messages, results, use);
      Record(C.Act, [C.ToolResult(use.id, content, isError)]);
      result := Some(C.ToolResult(use.id, content, isError));
    }

    /** The calls of a turn; those not yet run are kept when one of them ends or suspends the run. */
    method Act(uses: seq<C.Use>) returns (outcome: Option<C.Outcome>)
      modifies this
      ensures (Value(), outcome) == C.ActOn(env, old(Value()), uses)
    {
      var index := 0;
      while index < |uses|
        invariant index <= |uses|
        invariant C.ActOn(env, old(Value()), uses) == C.ActOn(env, Value(), uses[index..])
      {
        var result, ended := OneTool(uses[index]);
        assert uses[index..][0] == uses[index] && uses[index..][1..] == uses[index + 1..];
        if result.None? {
          pending := uses[index..];
          return ended;
        }
        results := results + [result.value];
        index := index + 1;
      }
      pending := [];
      messages := messages + [C.Results(results)];
      results := [];
      outcome := None;
    }

    method CallModel() returns (response: C.Response)
      modifies this
      ensures Value() == C.CallModel(env, old(Value())) && response == env.model(old(messages))
    {
      response := env.model(messages);
      modelCalls := modelCalls + 1;
      var kind := if repairing then C.Repair else C.Think;
      repairing := false;
      messages := messages + [C.Assistant(response)];
      results := [];
      Record(kind, []);
    }

    method Evaluate(response: C.Response) returns (outcome: Option<C.Outcome>)
      modifies this
      ensures (Value(), outcome) == C.Judge(env, old(Value()), response)
    {
      var issues := C.Complaints(response);
      evalRound := evalRound + 1;
      if response.parsed.Some? && issues == [] {
        issues := env.validate(messages, response.parsed.value);
      }
      Record(C.Evaluate, []);
      if issues == [] {
        return Some(C.Completed(if response.parsed.Some? then response.parsed.value else ""));
      }
      if repairsUsed < env.repairLimit {
        repairsUsed := repairsUsed + 1;
        messages := messages + [C.User(env.prompt(issues))];
        repairing := true;
        return None;
      }
      outcome := Some(C.Failed("EvaluationFailed"));
    }

    /** One turn: the calls still to run, or a model call and what follows from its answer. */
    method Turn() returns (outcome: Option<C.Outcome>)
      modifies this
      ensures (Value(), outcome) == C.Turn(env, old(Value()))
    {
      if pending != [] {
        outcome := Act(pending);
        return;
      }
      if modelCalls >= env.maxSteps {
        return Some(C.Failed("MaxStepsExceeded"));
      }
      var response := CallModel();
      if response.stop.ToolUse? && response.uses != [] {
        outcome := Act(response.uses);
      } else if response.stop.Refusal? {
        outcome := Some(C.Failed("ModelRefusal"));
      } else {
        outcome := Evaluate(response);
      }
    }

    method Loop() returns (outcome: C.Outcome)
      modifies this
      ensures (Value(), outcome) == C.Loop(env, old(Value()))
    {
      while true
        invariant C.Loop(env, Value()) == C.Loop(env, old(Value()))
        decreases env.maxSteps + 1 - modelCalls, if pending == [] then 0 else 1
      {
        ghost var s := Value();
        C.ActKeepsCounters(env, s, s.pending);
        C.ActKeepsCounters(env, C.CallModel(env, s), env.model(s.messages).uses);
        var ended := Turn();
        if ended.Some? { return ended.value; }
      }
    }

    /** The state rebuilt from the stored steps of the run and its approvals; without any step there
        is nothing to resume. */
    method Resume(stored: seq<C.Step>, granted: set<C.CallId>) returns (resumed: bool)
      modifies this
      ensures resumed <==> stored != []
      ensures Value() == if stored != [] then C.Resume(stored, granted) else old(Value())
    {
      if stored == [] { return false; }
      resumed := true;
      var conversation := stored[|stored| - 1].after;
      results := [];
      if conversation != [] && conversation[|conversation| - 1].Results? && conversation[|conversation| - 1].results != [] {
        results := conversation[|conversation| - 1].results;
        conversation := conversation[..|conversation| - 1];
      }
      pending := [];
      if conversation != [] && conversation[|conversation| - 1].Assistant? {
        pending := C.Unanswered(conversation[|conversation| - 1].response.uses, C.Ids(results));
      }
      messages, approved, steps := conversation, granted, stored;
      modelCalls := C.Count(stored, {C.Think, C.Repair});
      repairsUsed := C.Count(stored, {C.Repair});
      evalRound := C.Count(stored, {C.Evaluate});
      repairing := false;
    }
  }
}
