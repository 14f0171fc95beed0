/** What a client of the gateway can rely on, whatever the interleaving. */
module GatewayResults {
  import opened Wrappers
  import opened Sequences
  import opened EventLog
  import opened Gateway
  import opened GatewayInvariant

  /** What a client was sent, live or from the backlog, is exactly the company's readable log after
      `since` up to the last event sent: strictly increasing, without a gap, without a repetition. */
  lemma DeliveredIsTheLog<P(!new)>(l: Limits, steps: seq<Step<P>>, hubs: seq<Hub<P>>, k: nat, i: nat)
    requires Positive(l) && IsRun(l, steps, hubs) && k < |hubs| && i < |hubs[k].conns|
    ensures var log, c := hubs[k].log, hubs[k].conns[i];
            c.delivered != [] || c.phase.CatchingUp? || c.phase.Streaming? ==>
              && c.since.Some? && 0 <= c.since.value <= c.lastSent <= Head(log)
              && Upto(log, c.since.value) <= Upto(log, c.lastSent)
              && c.delivered == Between(log, Upto(log, c.since.value), Upto(log, c.lastSent))
              && Increasing(c.delivered)
  {
    RunKeeps(l, steps, hubs, k);
    var log, c := hubs[k].log, hubs[k].conns[i];
    assert ConnOk(log, Frontier(hubs[k]), l, c);
    if c.delivered != [] || c.phase.CatchingUp? || c.phase.Streaming? {
      assert Heard(log, c);
      BetweenIncreases(log, Upto(log, c.since.value), Upto(log, c.lastSent));
    }
  }

  lemma AllDelivered<P>(h: Hub<P>, l: Limits, i: nat)
    requires Good(h, l) && i < |h.conns|
    requires h.conns[i].phase.Streaming? && !h.conns[i].closing && EventsOf(h.conns[i].queue) == []
    requires h.holder.Nobody? && h.cursor == Some(Head(h.log))
    ensures var c := h.conns[i]; c.since.Some? && c.delivered == Between(h.log, Upto(h.log, c.since.value), |h.log|)
  {
    var log, c := h.log, h.conns[i];
    assert ConnOk(log, Frontier(h), l, c);
    UptoHead(log);
    var s, u := Upto(log, c.since.value), Upto(log, c.lastSent);
    BetweenSplit(log, c.next, u, |log|);
    BetweenSplit(log, s, u, |log|);
  }

  /** A socket that streams, did not overflow and has no event left on its queue, while the fetcher
      has reached the end of the log, has delivered every readable event after its `since`. */
  lemma NothingIsLeftOut<P(!new)>(l: Limits, steps: seq<Step<P>>, hubs: seq<Hub<P>>, k: nat, i: nat)
    requires Positive(l) && IsRun(l, steps, hubs) && k < |hubs| && i < |hubs[k].conns|
    requires var c := hubs[k].conns[i]; c.phase.Streaming? && !c.closing && EventsOf(c.queue) == []
    requires hubs[k].holder.Nobody? && hubs[k].cursor == Some(Head(hubs[k].log))
    ensures var log, c := hubs[k].log, hubs[k].conns[i];
            c.since.Some? && c.delivered == Between(log, Upto(log, c.since.value), |log|)
  {
    RunKeeps(l, steps, hubs, k);
    AllDelivered(hubs[k], l, i);
  }

  /** What is still to come is on the queue: what was delivered, then the events on the queue that
      were not sent yet, are the readable log up to the frontier. */
  lemma QueueContinues<P(!new)>(l: Limits, steps: seq<Step<P>>, hubs: seq<Hub<P>>, k: nat, i: nat)
    requires Positive(l) && IsRun(l, steps, hubs) && k < |hubs| && i < |hubs[k].conns|
    requires var c := hubs[k].conns[i]; c.phase.Streaming? && !c.closing
    ensures var log, c, f := hubs[k].log, hubs[k].conns[i], Frontier(hubs[k]);
            && c.since.Some? && f.Some? && f.value <= |log|
            && (Upto(log, c.lastSent) <= f.value ==>
                  EndsWith(EventsOf(c.queue), Between(log, Upto(log, c.lastSent), f.value)))
            && (f.value < Upto(log, c.lastSent) ==> forall e :: e in EventsOf(c.queue) ==> e.seqNo <= c.lastSent)
  {
    RunKeeps(l, steps, hubs, k);
    var log, c, f := hubs[k].log, hubs[k].conns[i], Frontier(hubs[k]);
    assert ConnOk(log, f, l, c);
    var u := Upto(log, c.lastSent);
    if u <= f.value {
      BetweenSplit(log, c.next, u, f.value);
      assert EventsOf(c.queue) == Between(log, c.next, u) + Between(log, u, f.value);
    } else {
      forall e | e in EventsOf(c.queue) ensures e.seqNo <= c.lastSent {
        BetweenHolds(log, c.next, f.value, e);
        var p :| c.next <= p < f.value && log[p] == e;
        UptoSplits(log, c.lastSent, p);
      }
    }
  }

  // ---- overflow ends a stream --------------------------------------------------------------

  /** A connection that could not keep up, before and after a step: it stays so, its queue holds
      SNAPSHOT_REQUIRED alone until that is sent, and nothing but the backlog it was still being
      sent is added to what it heard. */
  ghost predicate WindsDown<P>(c: Conn<P>, c': Conn<P>) {
    && c'.closing && c.delivered <= c'.delivered
    && (c'.Open() ==> c'.queue == [SnapshotRequired])
    && (c.phase.Streaming? || c.phase.Ended? ==> c'.delivered == c.delivered)
    && (c.phase.Ended? ==> c'.phase.Ended? && c'.told == c.told)
  }

  lemma OverflowStays<P>(h: Hub<P>, l: Limits, s: Step<P>, i: nat)
    requires i < |h.conns| && h.conns[i].closing && (h.conns[i].Open() ==> h.conns[i].queue == [SnapshotRequired])
    requires !(s.Acquire? || s.ReadTracked? || s.SetTracked? || s.ReadHead? || s.Greet? || s.ReadBatch? || s.SendBatch?
               || s.Send? || s.Notify? || s.Disconnect?)
    ensures i < |Next(h, l, s).conns| && WindsDown(h.conns[i], Next(h, l, s).conns[i])
  {
  }

  lemma OverflowStaysOn<P>(h: Hub<P>, l: Limits, s: Step<P>, i: nat)
    requires i < |h.conns| && h.conns[i].closing && (h.conns[i].Open() ==> h.conns[i].queue == [SnapshotRequired])
    requires (s.Acquire? || s.ReadTracked? || s.SetTracked? || s.ReadHead? || s.Greet? || s.ReadBatch? || s.SendBatch?
              || s.Send? || s.Notify? || s.Disconnect?) && s.i < |h.conns|
    requires s.ReadTracked? && h.holder == Tracker(s.i, None) ==> h.conns[s.i].phase.Tracking?
    requires s.SetTracked? && h.holder.Tracker? && h.holder.conn == s.i ==> h.conns[s.i].phase.Tracking?
    ensures i < |OnConn(h, l, s).conns| && WindsDown(h.conns[i], OnConn(h, l, s).conns[i])
    ensures s == Send(i) && h.conns[i].phase.Streaming? ==> OnConn(h, l, s).conns[i].told && OnConn(h, l, s).conns[i].phase.Ended?
  {
  }

  /** Once a connection has overflowed it only winds down, whatever runs; its sender's next turn
      tells the client to take a new snapshot and ends the stream. */
  lemma OverflowEndsTheStream<P(!new)>(l: Limits, steps: seq<Step<P>>, hubs: seq<Hub<P>>, k: nat, i: nat)
    requires Positive(l) && IsRun(l, steps, hubs) && k < |steps| && i < |hubs[k].conns| && hubs[k].conns[i].closing
    ensures i < |hubs[k + 1].conns| && WindsDown(hubs[k].conns[i], hubs[k + 1].conns[i])
    ensures hubs[k].conns[i].phase.Streaming? && steps[k] == Send(i) ==>
              hubs[k + 1].conns[i].told && hubs[k + 1].conns[i].phase.Ended?
  {
    RunKeeps(l, steps, hubs, k);
    var h, s := hubs[k], steps[k];
    assert ConnOk(h.log, Frontier(h), l, h.conns[i]);
    match s
    case Commit(_) => OverflowStays(h, l, s, i);
    case Register(_) => OverflowStays(h, l, s, i);
    case FetchBegin => OverflowStays(h, l, s, i);
    case FetchHead => OverflowStays(h, l, s, i);
    case FetchSet => OverflowStays(h, l, s, i);
    case FetchRows => OverflowStays(h, l, s, i);
    case FetchOffer => OverflowStays(h, l, s, i);
    case FetchAdvance => OverflowStays(h, l, s, i);
    case _ => if s.i < |h.conns| { OverflowStaysOn(h, l, s, i); }
  }

  /** The step offers connection `k` a message that may not be dropped. */
  predicate OffersForGood<P>(h: Hub<P>, s: Step<P>, k: nat)
    requires k < |h.conns|
  {
    h.conns[k].Open() &&
    match s
    case Notify(i, droppable) => i == k && !droppable
    case FetchOffer => h.holder.Offering? && h.holder.done < |h.holder.rows| && h.holder.rows[h.holder.done].readable
    case _ => false
  }

  lemma OffersOn<P>(h: Hub<P>, l: Limits, s: Step<P>, k: nat)
    requires (s.Acquire? || s.ReadTracked? || s.SetTracked? || s.ReadHead? || s.Greet? || s.ReadBatch? || s.SendBatch?
              || s.Send? || s.Notify? || s.Disconnect?) && s.i < |h.conns| && k < |h.conns| && !h.conns[k].closing
    ensures k < |OnConn(h, l, s).conns|
    ensures OnConn(h, l, s).conns[k].closing <==> OffersForGood(h, s, k) && |h.conns[k].queue| >= l.queue
  {
  }

  /** A connection overflows exactly when a message that may not be dropped meets a full queue; whatever
      else happens, ephemeral messages included, does not end its stream so. */
  lemma OverflowsIff<P>(h: Hub<P>, l: Limits, s: Step<P>, k: nat)
    requires k < |h.conns| && !h.conns[k].closing
    ensures k < |Next(h, l, s).conns|
    ensures Next(h, l, s).conns[k].closing <==> OffersForGood(h, s, k) && |h.conns[k].queue| >= l.queue
  {
    match s
    case Commit(_) =>
    case Register(_) =>
    case FetchOffer =>
    case FetchBegin =>
    case FetchHead =>
    case FetchSet =>
    case FetchRows =>
    case FetchAdvance =>
    case _ => if s.i < |h.conns| { OffersOn(h, l, s, k); }
  }

  lemma GrowsOn<P>(h: Hub<P>, l: Limits, s: Step<P>, i: nat)
    requires (s.Acquire? || s.ReadTracked? || s.SetTracked? || s.ReadHead? || s.Greet? || s.ReadBatch? || s.SendBatch?
              || s.Send? || s.Notify? || s.Disconnect?) && s.i < |h.conns| && i < |h.conns|
    ensures i < |OnConn(h, l, s).conns| && h.conns[i].delivered <= OnConn(h, l, s).conns[i].delivered
    ensures OnConn(h, l, s).conns[i].since == h.conns[i].since
  {
  }

  lemma StepGrows<P>(h: Hub<P>, l: Limits, s: Step<P>, i: nat)
    requires i < |h.conns|
    ensures i < |Next(h, l, s).conns| && h.conns[i].delivered <= Next(h, l, s).conns[i].delivered
    ensures Next(h, l, s).conns[i].since == h.conns[i].since
  {
    match s
    case Commit(_) =>
    case Register(_) =>
    case FetchOffer => assert Offered(h, l).conns[i].delivered == h.conns[i].delivered;
    case FetchBegin =>
    case FetchHead =>
    case FetchSet =>
    case FetchRows =>
    case FetchAdvance =>
    case _ => if s.i < |h.conns| { GrowsOn(h, l, s, i); }
  }

  /** A connection of the first hub, perhaps further on in the second. */
  ghost predicate FurtherOn<P>(h: Hub<P>, h': Hub<P>, i: nat) {
    && i < |h.conns| && i < |h'.conns|
    && h.conns[i].delivered <= h'.conns[i].delivered && h.conns[i].since == h'.conns[i].since
  }

  lemma FurtherAndFurther<P>(h: Hub<P>, h': Hub<P>, h'': Hub<P>, i: nat)
    requires FurtherOn(h, h', i) && FurtherOn(h', h'', i)
    ensures FurtherOn(h, h'', i)
  {
    var a, b, c := h.conns[i].delivered, h'.conns[i].delivered, h''.conns[i].delivered;
    assert a == b[..|a|] && b == c[..|b|];
    assert a == c[..|a|];
  }

  ghost predicate StepIsFurtherOn<P>(hubs: seq<Hub<P>>, k: nat) {
    k + 1 < |hubs| && forall i: nat {:trigger FurtherOn(hubs[k], hubs[k + 1], i)} :: i < |hubs[k].conns| ==> FurtherOn(hubs[k], hubs[k + 1], i)
  }

  lemma RunGrows<P(!new)>(l: Limits, steps: seq<Step<P>>, hubs: seq<Hub<P>>, k: nat)
    requires IsRun(l, steps, hubs) && k < |steps|
    ensures StepIsFurtherOn(hubs, k)
  {
    forall i: nat {:trigger FurtherOn(hubs[k], hubs[k + 1], i)} | i < |hubs[k].conns| ensures FurtherOn(hubs[k], hubs[k + 1], i) {
      StepGrows(hubs[k], l, steps[k], i);
    }
  }

  lemma {:induction false} StretchIsFurtherOn<P>(hubs: seq<Hub<P>>, k: nat, m: nat, i: nat)
    requires k <= m < |hubs| && i < |hubs[k].conns|
    requires forall j: nat {:trigger StepIsFurtherOn(hubs, j)} :: j < m ==> StepIsFurtherOn(hubs, j)
    ensures FurtherOn(hubs[k], hubs[m], i)
    decreases m
  {
    if k < m {
      StretchIsFurtherOn(hubs, k, m - 1, i);
      assert StepIsFurtherOn(hubs, m - 1);
      FurtherAndFurther(hubs[k], hubs[m - 1], hubs[m], i);
    }
  }

  /** Delivered is delivered: over any stretch of a run it is only added to. */
  lemma DeliveredOnlyGrows<P(!new)>(l: Limits, steps: seq<Step<P>>, hubs: seq<Hub<P>>, k: nat, m: nat, i: nat)
    requires IsRun(l, steps, hubs) && k <= m < |hubs| && i < |hubs[k].conns|
    ensures i < |hubs[m].conns| && hubs[k].conns[i].delivered <= hubs[m].conns[i].delivered
    ensures hubs[m].conns[i].since == hubs[k].conns[i].since
  {
    forall j: nat {:trigger StepIsFurtherOn(hubs, j)} | j < m ensures StepIsFurtherOn(hubs, j) { RunGrows(l, steps, hubs, j); }
    StretchIsFurtherOn(hubs, k, m, i);
  }
}
