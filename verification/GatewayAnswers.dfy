/** What a client that connects is answered, and that it can always be served
    (backend/autora/realtime/gateway.py:146-311). */
module GatewayAnswers {
  import opened Wrappers
  import opened Sequences
  import opened EventLog
  import opened Gateway
  import opened GatewayInvariant
  import opened GatewayResults

  // ---- the greeting --------------------------------------------------------------------------

  /** The places of the events with a seq above `x`. */
  ghost function RowsAbove<P>(log: seq<Event<P>>, x: int): set<nat> {
    set k: nat | k < |log| && log[k].seqNo > x
  }

  lemma {:induction false} RowsAboveAreLast<P>(log: seq<Event<P>>, x: int, n: nat)
    requires Increasing(log) && n <= |log|
    ensures |set k: nat | k < n && log[k].seqNo > x| == if n <= Upto(log, x) then 0 else n - Upto(log, x)
    decreases n
  {
    var all := set k: nat | k < n && log[k].seqNo > x;
    if n == 0 {
      assert all == {};
    } else {
      RowsAboveAreLast(log, x, n - 1);
      UptoSplits(log, x, n - 1);
      var before := set k: nat | k < n - 1 && log[k].seqNo > x;
      assert all == if log[n - 1].seqNo > x then before + {n - 1} else before;
    }
  }

  /** A client may catch up from its `since`: it is at the head, or behind it by no more rows than a
      backlog may have. */
  ghost predicate MayCatchUp<P>(log: seq<Event<P>>, since: Option<int>, head: nat, l: Limits) {
    since.Some? && 0 <= since.value <= head && (since.value == head || |RowsAbove(log, since.value)| <= l.backlogMax)
  }

  lemma GreetIs<P>(h: Hub<P>, l: Limits, i: nat, head: nat)
    requires Increasing(h.log) && i < |h.conns| && h.conns[i].phase == Headed(head)
    ensures var c := h.conns[i];
            Next(h, l, Greet(i)).conns == h.conns[i :=
              if MayCatchUp(h.log, c.since, head, l)
              then c.(lastSent := c.since.value, phase := if c.since.value == head then Streaming else CatchingUp(None))
              else c.(told := true, phase := Ended)]
  {
    if h.conns[i].since.Some? { RowsAboveAreLast(h.log, h.conns[i].since.value, |h.log|); }
  }

  lemma NotToldOn<P>(h: Hub<P>, l: Limits, s: Step<P>, i: nat)
    requires (s.Acquire? || s.ReadTracked? || s.SetTracked? || s.ReadHead? || s.Greet? || s.ReadBatch? || s.SendBatch?
              || s.Send? || s.Notify? || s.Disconnect?) && s.i < |h.conns| && i < |h.conns|
    requires h.conns[i].told ==> h.conns[i].phase.Ended?
    requires s.ReadTracked? && h.holder == Tracker(s.i, None) ==> h.conns[s.i].phase.Tracking?
    requires s.SetTracked? && h.holder.Tracker? && h.holder.conn == s.i ==> h.conns[s.i].phase.Tracking?
    ensures i < |OnConn(h, l, s).conns| && (OnConn(h, l, s).conns[i].told ==> OnConn(h, l, s).conns[i].phase.Ended?)
  {
  }

  lemma NotToldStep<P>(h: Hub<P>, l: Limits, s: Step<P>, i: nat)
    requires Good(h, l) && i < |Next(h, l, s).conns| && (i < |h.conns| && h.conns[i].told ==> h.conns[i].phase.Ended?)
    ensures Next(h, l, s).conns[i].told ==> Next(h, l, s).conns[i].phase.Ended?
  {
    match s
    case Commit(_) =>
    case Register(_) =>
    case FetchOffer =>
    case FetchBegin =>
    case FetchHead =>
    case FetchSet =>
    case FetchRows =>
    case FetchAdvance =>
    case _ => if s.i < |h.conns| { NotToldOn(h, l, s, i); }
  }

  ghost predicate ToldAreEnded<P>(h: Hub<P>) {
    forall i {:trigger h.conns[i]} :: 0 <= i < |h.conns| && h.conns[i].told ==> h.conns[i].phase.Ended?
  }

  lemma ToldStep<P>(h: Hub<P>, l: Limits, s: Step<P>)
    requires Good(h, l) && ToldAreEnded(h)
    ensures ToldAreEnded(Next(h, l, s))
  {
    forall i: nat | i < |Next(h, l, s).conns| ensures Next(h, l, s).conns[i].told ==> Next(h, l, s).conns[i].phase.Ended? {
      NotToldStep(h, l, s, i);
    }
  }

  /** Whoever was told to take a new snapshot is not served any more. */
  lemma {:induction false} ToldHaveEnded<P(!new)>(l: Limits, steps: seq<Step<P>>, hubs: seq<Hub<P>>, k: nat)
    requires Positive(l) && IsRun(l, steps, hubs) && k < |hubs|
    ensures ToldAreEnded(hubs[k])
  {
    if k > 0 {
      ToldHaveEnded(l, steps, hubs, k - 1);
      RunKeeps(l, steps, hubs, k - 1);
      ToldStep(hubs[k - 1], l, steps[k - 1]);
    }
  }

  /** The head a connection is greeted with is the largest seq there is when it is read. */
  lemma HeadIsRead<P(!new)>(l: Limits, steps: seq<Step<P>>, hubs: seq<Hub<P>>, k: nat, i: nat)
    requires IsRun(l, steps, hubs) && k < |steps| && steps[k] == ReadHead(i) && i < |hubs[k].conns| && hubs[k].conns[i].phase.Tracked?
    ensures var log := hubs[k].log;
            && i < |hubs[k + 1].conns|
            && hubs[k + 1].conns[i] == hubs[k].conns[i].(phase := Headed(if log == [] then 0 else log[|log| - 1].seqNo))
  {
  }

  /** A greeted connection stays open, untold, exactly when its `since` is a seq up to the head it was
      greeted with, and either that head or followed by no more rows than a backlog may have. At the head
      it streams, behind it it catches up, from its `since` on; in every other case it has been told to
      take a new snapshot and has ended. */
  lemma GreetAnswers<P(!new)>(l: Limits, steps: seq<Step<P>>, hubs: seq<Hub<P>>, k: nat, i: nat, head: nat)
    requires Positive(l) && IsRun(l, steps, hubs) && k < |steps| && steps[k] == Greet(i)
    requires i < |hubs[k].conns| && hubs[k].conns[i].phase == Headed(head)
    ensures i < |hubs[k + 1].conns|
    ensures var log, c, c' := hubs[k].log, hubs[k].conns[i], hubs[k + 1].conns[i];
            var welcome := c.since.Some? && 0 <= c.since.value <= head
                           && (c.since.value == head || |RowsAbove(log, c.since.value)| <= l.backlogMax);
            && (welcome ==> c'.Open() && !c'.told && c'.lastSent == c.since.value
                            && c'.phase == if c.since.value == head then Streaming else CatchingUp(None))
            && (!welcome ==> c'.told && c'.phase.Ended?)
  {
    RunKeeps(l, steps, hubs, k);
    ToldHaveEnded(l, steps, hubs, k);
    GreetIs(hubs[k], l, i, head);
  }
}
