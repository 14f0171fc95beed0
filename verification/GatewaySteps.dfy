/** When connections come and go, and when fetches and backlogs end
    (backend/autora/realtime/gateway.py:122-226, 279-311). */
module GatewaySteps {
  import opened Wrappers
  import opened EventLog
  import opened Gateway

  /** A socket that comes is one more connection, with the `since` it asked for, that has been sent nothing. */
  lemma ComingAdds<P>(h: Hub<P>, l: Limits, since: Option<int>)
    ensures var h', n := Next(h, l, Register(since)), |h.conns|;
            && h'.log == h.log && h'.cursor == h.cursor && h'.holder == h.holder
            && |h'.conns| == n + 1 && h'.conns[..n] == h.conns
            && h'.conns[n].since == since && h'.conns[n].phase.Registered? && h'.conns[n].queue == [] && !h'.conns[n].closing
            && h'.conns[n].delivered == [] && !h'.conns[n].told
  {
  }

  /** A socket that goes has ended, has been sent what it was sent, and nobody else notices, unless it waits
      for the head of the log, which it does to the end. */
  lemma GoingEnds<P>(h: Hub<P>, l: Limits, i: nat, j: nat)
    requires i < |h.conns| && j < |h.conns| && !h.conns[i].phase.Ended? && !h.conns[i].phase.Tracking?
    ensures var h' := Next(h, l, Disconnect(i));
            && h'.log == h.log && h'.holder == h.holder && |h'.conns| == |h.conns|
            && h'.conns[i].phase.Ended? && h'.conns[i].delivered == h.conns[i].delivered && h'.conns[i].told == h.conns[i].told
            && (j != i ==> h'.conns[j] == h.conns[j])
  {
  }

  ghost predicate SomeoneIsOpen<P>(h: Hub<P>) {
    exists i :: 0 <= i < |h.conns| && !h.conns[i].phase.Ended?
  }

  /** When a connection ends, the cursor is forgotten if it was the last one, and kept if it was not. */
  lemma LastOneForgets<P>(h: Hub<P>, l: Limits, s: Step<P>, i: nat)
    requires i < |h.conns| && !h.conns[i].phase.Ended? && i < |Next(h, l, s).conns| && Next(h, l, s).conns[i].phase.Ended?
    ensures Next(h, l, s).cursor == if SomeoneIsOpen(Next(h, l, s)) then h.cursor else None
  {
    var h' := Next(h, l, s);
    if s.Greet? || s.Send? || s.Disconnect? {
      assert SomeoneListens(h'.conns) <==> SomeoneIsOpen(h');
    }
  }

  /** A fetch ends when it finds nothing behind its cursor, or has offered fewer rows than it may read at
      once; until then it goes on. */
  lemma FetchEndsIff<P>(h: Hub<P>, l: Limits, s: Step<P>)
    requires Positive(l) && (h.holder.Reading? || h.holder.Offering?)
    ensures Next(h, l, s).holder.Nobody? <==>
              (s.FetchRows? && h.holder.Reading? && Upto(h.log, h.holder.cursor) == |h.log|)
              || (s.FetchAdvance? && h.holder.Offering? && 0 < |h.holder.rows| < l.fetch && h.holder.done == |h.holder.rows|)
  {
  }

  /** A backlog ends, and its connection streams, with the first batch that is not full. */
  lemma BacklogEndsIff<P>(h: Hub<P>, l: Limits, s: Step<P>, i: nat)
    requires Positive(l) && i < |h.conns| && h.conns[i].phase.CatchingUp?
    ensures Next(h, l, s).conns[i].phase.Streaming? <==>
              s == SendBatch(i) && h.conns[i].phase.rows.Some? && |h.conns[i].phase.rows.value| < l.batch
  {
  }
}
