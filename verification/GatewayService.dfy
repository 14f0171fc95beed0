/** Nothing stands in the way of a client: from every reachable hub a connection can be served to the end
    of the log (backend/autora/realtime/gateway.py:146-311). */
module GatewayService {
  import opened Wrappers
  import opened Sequences
  import opened EventLog
  import opened Gateway
  import opened GatewayInvariant
  import opened GatewayResults
  import opened GatewayAnswers

  /** The hub after some more steps. */
  ghost function Then<P>(h: Hub<P>, l: Limits, more: seq<Step<P>>): Hub<P> {
    if more == [] then h else Next(Then(h, l, more[..|more| - 1]), l, more[|more| - 1])
  }

  ghost predicate NoCommit<P>(more: seq<Step<P>>) {
    forall s :: s in more ==> !s.Commit?
  }

  lemma {:induction false} ThenJoin<P>(h: Hub<P>, l: Limits, a: seq<Step<P>>, b: seq<Step<P>>)
    ensures Then(h, l, a + b) == Then(Then(h, l, a), l, b)
    decreases |b|
  {
    if b == [] {
      assert a + b == a;
    } else {
      assert (a + b)[..|a + b| - 1] == a + b[..|b| - 1];
      ThenJoin(h, l, a, b[..|b| - 1]);
    }
  }

  lemma OneThen<P>(h: Hub<P>, l: Limits, s: Step<P>, more: seq<Step<P>>)
    ensures Then(h, l, [s] + more) == Then(Next(h, l, s), l, more)
  {
    assert Then(h, l, [s]) == Next(Then(h, l, []), l, s) by { assert [s][..0] == []; }
    ThenJoin(h, l, [s], more);
  }

  // ---- what a step does to one connection ----------------------------------------------------

  /** The connection streams, with a queue that was not cut off. */
  ghost predicate Streams<P>(h: Hub<P>, i: nat) {
    i < |h.conns| && h.conns[i].phase.Streaming? && !h.conns[i].closing
  }

  /** The same log and the same client. */
  ghost predicate SameClient<P>(h: Hub<P>, h': Hub<P>, i: nat) {
    h'.log == h.log && i < |h.conns| && i < |h'.conns| && h'.conns[i].since == h.conns[i].since
  }

  lemma SendOne<P>(h: Hub<P>, l: Limits, i: nat)
    requires Streams(h, i) && h.conns[i].queue != [] && !h.conns[i].queue[0].SnapshotRequired?
    ensures var h' := Next(h, l, Send(i));
            && Streams(h', i) && SameClient(h, h', i) && h'.conns[i].queue == h.conns[i].queue[1..]
            && h'.holder == h.holder && h'.cursor == h.cursor
  {
    var c' := Sent(h.log, h.conns[i]);
    assert h.conns[i := c'][i].Open();
  }

  lemma StreamIsOk<P>(h: Hub<P>, l: Limits, i: nat)
    requires Good(h, l) && Streams(h, i)
    ensures forall k :: 0 <= k < |h.conns[i].queue| ==> !h.conns[i].queue[k].SnapshotRequired?
    ensures h.cursor.Some? && (h.holder.Nobody? || h.holder.Reading? || h.holder.Offering?)
  {
    assert ConnOk(h.log, Frontier(h), l, h.conns[i]);
  }

  /** What is on the queue can be sent. */
  lemma {:induction false} Drains<P>(h: Hub<P>, l: Limits, i: nat) returns (more: seq<Step<P>>)
    requires Good(h, l) && Positive(l) && Streams(h, i)
    ensures NoCommit(more)
    ensures var h' := Then(h, l, more);
            && Good(h', l) && Streams(h', i) && SameClient(h, h', i) && h'.conns[i].queue == []
            && h'.holder == h.holder && h'.cursor == h.cursor
    decreases |h.conns[i].queue|
  {
    if h.conns[i].queue == [] {
      more := [];
    } else {
      StreamIsOk(h, l, i);
      SendOne(h, l, i);
      NextKeeps(h, l, Send(i));
      var rest := Drains(Next(h, l, Send(i)), l, i);
      more := [Send(i)] + rest;
      OneThen(h, l, Send(i), rest);
    }
  }

  lemma BeginOne<P>(h: Hub<P>, l: Limits, i: nat)
    requires Streams(h, i) && h.holder.Nobody? && h.cursor.Some?
    ensures var h' := Next(h, l, FetchBegin);
            Streams(h', i) && SameClient(h, h', i) && h'.conns == h.conns && h'.cursor == h.cursor && h'.holder == Reading(h.cursor.value)
  {
  }

  lemma ReadOne<P>(h: Hub<P>, l: Limits, i: nat)
    requires Streams(h, i) && h.holder.Reading?
    ensures var h', rows := Next(h, l, FetchRows), RowsAfter(h.log, h.holder.cursor, l.fetch);
            && Streams(h', i) && SameClient(h, h', i) && h'.conns == h.conns && h'.cursor == h.cursor
            && h'.holder == if rows == [] then Nobody else Offering(h.holder.cursor, rows, 0)
  {
  }

  lemma OfferOne<P>(h: Hub<P>, l: Limits, i: nat)
    requires Positive(l) && Streams(h, i) && h.conns[i].queue == [] && h.holder.Offering? && h.holder.done < |h.holder.rows|
    ensures var h' := Next(h, l, FetchOffer);
            && Streams(h', i) && SameClient(h, h', i) && h'.cursor == h.cursor
            && h'.holder == Offering(h.holder.cursor, h.holder.rows, h.holder.done + 1)
  {
  }

  lemma AdvanceOne<P>(h: Hub<P>, l: Limits, i: nat)
    requires Streams(h, i) && h.holder.Offering? && h.holder.rows != [] && h.holder.done == |h.holder.rows|
    ensures var h', last := Next(h, l, FetchAdvance), h.holder.rows[|h.holder.rows| - 1].seqNo;
            && Streams(h', i) && SameClient(h, h', i) && h'.conns == h.conns && h'.cursor == Some(last)
            && (h'.holder == Nobody || h'.holder == Reading(last))
  {
  }

  // ---- the fetcher comes to the head ---------------------------------------------------------

  /** How many events are still to be offered, and how far the fetcher is from looking at them. */
  ghost function Ahead<P>(h: Hub<P>, l: Limits): int {
    match Frontier(h) case Some(f) => |h.log| - f case None => 0
  }

  ghost function Rank<P>(h: Hub<P>): nat {
    match h.holder
    case Offering(_, rows, done) => if done == |rows| then 4 else 1
    case Nobody => 3
    case Reading(_) => 2
    case _ => 5
  }

  ghost predicate AtHead<P>(h: Hub<P>) { h.holder.Nobody? && h.cursor == Some(Head(h.log)) }

  /** The next step of the fetcher. */
  ghost function FetchStep<P>(h: Hub<P>): Step<P> {
    match h.holder
    case Nobody => FetchBegin
    case Reading(_) => FetchRows
    case Offering(_, rows, done) => if done < |rows| then FetchOffer else FetchAdvance
    case _ => FetchBegin
  }

  lemma FetchGoesOn<P>(h: Hub<P>, l: Limits, i: nat)
    requires Good(h, l) && Positive(l) && Streams(h, i) && h.conns[i].queue == [] && !AtHead(h)
    ensures var h' := Next(h, l, FetchStep(h));
            && Streams(h', i) && SameClient(h, h', i) && 0 <= Ahead(h, l)
            && (AtHead(h') || Ahead(h', l) < Ahead(h, l) || (Ahead(h', l) == Ahead(h, l) && Rank(h') < Rank(h)))
  {
    StreamIsOk(h, l, i);
    match h.holder
    case Nobody => BeginOne(h, l, i);
    case Reading(cursor) => ReadOne(h, l, i); NothingAfter(h.log, cursor, l);
    case Offering(cursor, rows, done) =>
      if done < |rows| {
        OfferOne(h, l, i);
      } else {
        AdvanceOne(h, l, i);
        BatchDone(h.log, Upto(h.log, cursor), rows);
      }
  }

  lemma NothingAfter<P>(log: seq<Event<P>>, cursor: nat, l: Limits)
    requires Positive(l) && Increasing(log) && cursor <= Head(log)
    ensures RowsAfter(log, cursor, l.fetch) == [] ==> cursor == Head(log)
    ensures Upto(log, cursor) <= |log|
  {
  }

  /** The fetcher can be run to the head, with the client's queue emptied in between. */
  lemma {:induction false} Fetches<P>(h: Hub<P>, l: Limits, i: nat) returns (more: seq<Step<P>>)
    requires Good(h, l) && Positive(l) && Streams(h, i)
    ensures NoCommit(more)
    ensures var h' := Then(h, l, more);
            Good(h', l) && Streams(h', i) && SameClient(h, h', i) && h'.conns[i].queue == [] && AtHead(h')
    decreases Ahead(h, l), Rank(h)
  {
    var sends := Drains(h, l, i);
    var h1 := Then(h, l, sends);
    if AtHead(h1) {
      more := sends;
    } else {
      FetchGoesOn(h1, l, i);
      NextKeeps(h1, l, FetchStep(h1));
      var h2 := Next(h1, l, FetchStep(h1));
      var rest;
      if AtHead(h2) { rest := Drains(h2, l, i); } else { rest := Fetches(h2, l, i); }
      more := sends + ([FetchStep(h1)] + rest);
      OneThen(h1, l, FetchStep(h1), rest);
      ThenJoin(h, l, sends, [FetchStep(h1)] + rest);
    }
  }

  // ---- the backlog ---------------------------------------------------------------------------

  /** The connection is being sent its backlog, with a queue that was not cut off. */
  ghost predicate CatchesUp<P>(h: Hub<P>, i: nat) {
    i < |h.conns| && h.conns[i].phase.CatchingUp? && !h.conns[i].closing
  }

  ghost function Behind<P>(h: Hub<P>, i: nat): int
    requires i < |h.conns|
  {
    |h.log| - Upto(h.log, h.conns[i].lastSent)
  }

  lemma ReadBatchOne<P>(h: Hub<P>, l: Limits, i: nat)
    requires CatchesUp(h, i) && h.conns[i].phase.rows.None?
    ensures var h' := Next(h, l, ReadBatch(i));
            && CatchesUp(h', i) && h'.conns[i].phase.rows.Some? && SameClient(h, h', i)
            && h'.conns[i].lastSent == h.conns[i].lastSent && h'.holder == h.holder
  {
  }

  lemma SendBatchOne<P>(h: Hub<P>, l: Limits, i: nat)
    requires Good(h, l) && Positive(l) && CatchesUp(h, i) && h.conns[i].phase.rows.Some?
    ensures var h' := Next(h, l, SendBatch(i));
            && SameClient(h, h', i) && h'.holder == h.holder
            && (Streams(h', i) || (CatchesUp(h', i) && 0 <= Behind(h', i) < Behind(h, i)))
  {
    var c := h.conns[i];
    var rows := c.phase.rows.value;
    assert ConnOk(h.log, Frontier(h), l, c);
    if rows != [] { BatchDone(h.log, Upto(h.log, c.lastSent), rows); }
  }

  /** The backlog can be sent, batch after batch. */
  lemma {:induction false} Backlogs<P>(h: Hub<P>, l: Limits, i: nat) returns (more: seq<Step<P>>)
    requires Good(h, l) && Positive(l) && CatchesUp(h, i)
    ensures NoCommit(more)
    ensures var h' := Then(h, l, more); Good(h', l) && Streams(h', i) && SameClient(h, h', i)
    decreases Behind(h, i), if h.conns[i].phase.rows.None? then 1 else 0
  {
    var s := if h.conns[i].phase.rows.None? then ReadBatch(i) else SendBatch(i);
    if h.conns[i].phase.rows.None? { ReadBatchOne(h, l, i); } else { SendBatchOne(h, l, i); }
    NextKeeps(h, l, s);
    var rest := [];
    if CatchesUp(Next(h, l, s), i) { rest := Backlogs(Next(h, l, s), l, i); }
    more := [s] + rest;
    OneThen(h, l, s, rest);
  }

  // ---- setting up ----------------------------------------------------------------------------

  /** The connection is being set up, and nothing but its own steps is waited for. */
  ghost predicate SetsUp<P>(h: Hub<P>, l: Limits, i: nat) {
    && i < |h.conns| && !h.conns[i].closing
    && match h.conns[i].phase
       case Registered => h.holder.Nobody? && MayCatchUp(h.log, h.conns[i].since, Head(h.log), l)
       case Tracking => h.holder.Tracker? && h.holder.conn == i && MayCatchUp(h.log, h.conns[i].since, Head(h.log), l)
       case Tracked => MayCatchUp(h.log, h.conns[i].since, Head(h.log), l)
       case Headed(head) => MayCatchUp(h.log, h.conns[i].since, head, l)
       case _ => false
  }

  ghost function SetupStep<P>(h: Hub<P>, i: nat): Step<P>
    requires i < |h.conns|
  {
    match h.conns[i].phase
    case Registered => Acquire(i)
    case Tracking => if h.holder == Tracker(i, None) then ReadTracked(i) else SetTracked(i)
    case Tracked => ReadHead(i)
    case _ => Greet(i)
  }

  ghost function SetupRank<P>(h: Hub<P>, i: nat): nat
    requires i < |h.conns|
  {
    match h.conns[i].phase
    case Registered => 5
    case Tracking => if h.holder == Tracker(i, None) then 4 else 3
    case Tracked => 2
    case _ => 1
  }

  lemma SetupGoesOn<P>(h: Hub<P>, l: Limits, i: nat)
    requires Increasing(h.log) && SetsUp(h, l, i)
    ensures var h' := Next(h, l, SetupStep(h, i));
            && SameClient(h, h', i)
            && ((SetsUp(h', l, i) && SetupRank(h', i) < SetupRank(h, i)) || CatchesUp(h', i) || Streams(h', i))
  {
    if h.conns[i].phase.Headed? { GreetIs(h, l, i, h.conns[i].phase.head); }
  }

  /** From any place in its life a connection can be brought to stream. */
  lemma {:induction false} SetsUpThenStreams<P>(h: Hub<P>, l: Limits, i: nat) returns (more: seq<Step<P>>)
    requires Good(h, l) && Positive(l) && (SetsUp(h, l, i) || CatchesUp(h, i) || Streams(h, i))
    ensures NoCommit(more)
    ensures var h' := Then(h, l, more); Good(h', l) && Streams(h', i) && SameClient(h, h', i)
    decreases SetupRank(h, i)
  {
    if Streams(h, i) {
      more := [];
    } else if CatchesUp(h, i) {
      more := Backlogs(h, l, i);
    } else {
      var s := SetupStep(h, i);
      SetupGoesOn(h, l, i);
      NextKeeps(h, l, s);
      var rest;
      if SetsUp(Next(h, l, s), l, i) { rest := SetsUpThenStreams(Next(h, l, s), l, i); }
      else if CatchesUp(Next(h, l, s), i) { rest := Backlogs(Next(h, l, s), l, i); }
      else { rest := []; }
      more := [s] + rest;
      OneThen(h, l, s, rest);
    }
  }

  // ---- to the end of the log -----------------------------------------------------------------

  lemma {:induction false} ThenTold<P>(h: Hub<P>, l: Limits, more: seq<Step<P>>)
    requires Good(h, l) && Positive(l) && ToldAreEnded(h) && NoCommit(more)
    ensures Good(Then(h, l, more), l) && ToldAreEnded(Then(h, l, more))
    decreases |more|
  {
    if more != [] {
      var n := |more| - 1;
      assert forall s :: s in more[..n] ==> s in more;
      assert more[n] in more;
      ThenTold(h, l, more[..n]);
      ToldStep(Then(h, l, more[..n]), l, more[n]);
      NextKeeps(Then(h, l, more[..n]), l, more[n]);
    }
  }

  /** An open connection that was not cut off, with a `since` it can catch up from, can be served from
      every state of every run: some steps without a new commit, its own and the fetcher's, bring it to
      stream with every readable event after its `since` delivered, untold. A connection that has only
      registered waits for the company's lock first. */
  lemma CanBeServed<P(!new)>(l: Limits, steps: seq<Step<P>>, hubs: seq<Hub<P>>, k: nat, i: nat) returns (more: seq<Step<P>>)
    requires Positive(l) && IsRun(l, steps, hubs) && k < |hubs| && i < |hubs[k].conns|
    requires var h, c := hubs[k], hubs[k].conns[i];
             && c.Open() && !c.closing && (c.phase.Registered? ==> h.holder.Nobody?)
             && (c.phase.Registered? || c.phase.Tracking? || c.phase.Tracked? ==> MayCatchUp(h.log, c.since, Head(h.log), l))
             && (c.phase.Headed? ==> MayCatchUp(h.log, c.since, c.phase.head, l))
    ensures NoCommit(more)
    ensures var h, h' := hubs[k], Then(hubs[k], l, more);
            && i < |h'.conns| && h'.log == h.log && h'.conns[i].phase.Streaming? && !h'.conns[i].told
            && h.conns[i].since.Some? && h'.conns[i].delivered == Between(h.log, Upto(h.log, h.conns[i].since.value), |h.log|)
  {
    var h := hubs[k];
    RunKeeps(l, steps, hubs, k);
    ToldHaveEnded(l, steps, hubs, k);
    assert h.conns[i].phase.Tracking? ==> h.holder.Tracker? && h.holder.conn == i;
    var a := SetsUpThenStreams(h, l, i);
    var b := Fetches(Then(h, l, a), l, i);
    more := a + b;
    ThenJoin(h, l, a, b);
    ThenTold(h, l, more);
    AllDelivered(Then(h, l, more), l, i);
  }
}
