/** Ending and suspending an agent run along its lifecycle
    (backend/autora/runtime/task_manager.py:460-463, 615-633). */
module AgentRuns {
  import opened Wrappers
  import opened Graphs
  import opened Fsm
  import opened Lifecycles
  import opened Tasks

  /** The run's row as it is written at each hop. */
  datatype Written = Written(state: RunState, finishedAt: Option<Time>)

  /** The database's rule: a run has an end exactly when it is over. */
  predicate FinishedIffTerminal(w: Written) {
    w.finishedAt.Some? <==> w.state.Terminal()
  }

  /** A step of a legal path leaves an unfinished state by one of its moves. */
  lemma HopIsMove(path: seq<RunState>, i: nat)
    requires Walk(AgentRunFsm().transitions, path) && i + 1 < |path|
    ensures path[i + 1] in RunMoves(path[i]) && !path[i].Terminal()
  {
    assert Linked(AgentRunFsm().transitions, path, i);
    assert path[i + 1] in AgentRunFsm().AllowedFrom(path[i]);
  }

  class RunRow {
    var state: RunState
    var finishedAt: Option<Time>
    ghost var written: seq<Written>

    constructor ()
      ensures state == Created && finishedAt == None && written == [Written(Created, None)]
    {
      state, finishedAt, written := Created, None, [Written(Created, None)];
    }

    method Hop(target: RunState)
      requires target in RunMoves(state)
      modifies this
      ensures state == target && finishedAt == old(finishedAt)
      ensures written == old(written) + [Written(state, finishedAt)]
    {
      state := target;
      written := written + [Written(state, finishedAt)];
    }

    /** Take all hops of a legal path; `stamp` is set right before the last one. */
    method Follow(hops: seq<RunState>, stamp: Option<Time>)
      requires hops != [] && Walk(AgentRunFsm().transitions, [state] + hops) && finishedAt == None
      requires stamp.Some? <==> hops[|hops| - 1].Terminal()
      modifies this
      ensures state == hops[|hops| - 1] && finishedAt == stamp
      ensures |written| == |old(written)| + |hops| && old(written) <= written
      ensures forall k :: |old(written)| <= k < |written| ==> FinishedIffTerminal(written[k])
    {
      ghost var before := written;
      ghost var path := [state] + hops;
      for i := 0 to |hops|
        invariant state == path[i] && finishedAt == if i == |hops| then stamp else None
        invariant |written| == |before| + i && before <= written
        invariant forall k :: |before| <= k < |written| ==> FinishedIffTerminal(written[k])
      {
        HopIsMove(path, i);
        if i == |hops| - 1 { finishedAt := stamp; } else { HopIsMove(path, i + 1); }
        Hop(hops[i]);
      }
    }

    /** An unfinished run can always be ended, in any terminal state: the move never fails, and the
        row keeps the database's rule at every hop. */
    method Finish(target: RunState, now: Time)
      requires !state.Terminal() && finishedAt == None && target.Terminal()
      modifies this
      ensures state == target && finishedAt == Some(now)
      ensures old(written) < written && forall k :: |old(written)| <= k < |written| ==> FinishedIffTerminal(written[k])
    {
      OpenRunsCanFinish(state);
      var path := ShortestPath(AgentRunFsm(), state, target);
      Follow(path.value, Some(now));
    }

    /** So can it be suspended, unless it waits already. */
    method Suspend()
      requires !state.Terminal() && finishedAt == None
      modifies this
      ensures state == AwaitingApproval && finishedAt == None
      ensures old(written) <= written && forall k :: |old(written)| <= k < |written| ==> FinishedIffTerminal(written[k])
    {
      OpenRunsCanFinish(state);
      var path := ShortestPath(AgentRunFsm(), state, AwaitingApproval);
      if path.value != [] { Follow(path.value, None); }
    }
  }
}
