/** The gateway's objects as the source updates them between two awaits: a connection with its
    bounded queue, and the hub that offers it events (backend/autora/realtime/gateway.py). */
module Connections {
  import opened Wrappers
  import opened Sequences
  import opened EventLog
  import opened Gateway
  import opened GatewayInvariant

  class Connection<P> {
    const since: Option<int>
    const size: nat
    var phase: Phase<P>
    var queue: seq<Message<P>>
    var closing: bool
    var lastSent: int
    ghost var delivered: seq<Event<P>>
    ghost var told: bool
    ghost var next: nat

    ghost function Value(): Conn<P>
      reads this
    {
      Conn(since, phase, queue, closing, lastSent, delivered, told, next)
    }

    constructor (since: Option<int>, size: nat, ghost next: nat)
      ensures Value() == Conn(since, Registered, [], false, 0, [], false, next) && this.size == size
    {
      this.since, this.size := since, size;
      phase, queue, closing, lastSent := Registered, [], false, 0;
      delivered, told, this.next := [], false, next;
    }

    /** gateway.py:87-100. */
    method Offer(m: Message<P>, droppable: bool)
      modifies this`queue, this`closing
      ensures Value() == Gateway.Offer(old(Value()), m, droppable, size)
    {
      if closing { return; }
      if |queue| < size {
        queue := queue + [m];
      } else if !droppable {
        closing := true;
        while queue != []
          invariant closing
        {
          queue := queue[1..];
        }
        queue := queue + [SnapshotRequired];
      }
    }

    /** One turn of the sender: gateway.py:228-236. */
    method SendNext(ghost log: seq<Event<P>>)
      requires queue != []
      modifies this
      ensures Value() == Sent(log, old(Value()))
    {
      var message := queue[0];
      queue := queue[1..];
      match message
      case Live(e) =>
        next := Upto(log, e.seqNo);
        if e.seqNo > lastSent {
          lastSent := e.seqNo;
          delivered := delivered + [e];
        }
      case Signal =>
      case SnapshotRequired =>
        told := true;
        phase := Ended;
    }

    /** One batch of the backlog (gateway.py:201-220). */
    method SendBatch(log: seq<Event<P>>, l: Limits)
      requires Increasing(log) && phase == CatchingUp(None)
      modifies this
      ensures Value() == BatchSent(old(Value()), RowsAfter(log, old(lastSent), l.batch), l)
    {
      var rows := RowsAfter(log, lastSent, l.batch);
      if rows == [] {
        phase := Streaming;
      } else {
        delivered := delivered + Readable(rows);
        lastSent := rows[|rows| - 1].seqNo;
        if |rows| < l.batch { phase := Streaming; }
      }
    }

    /** The whole backlog of a client (gateway.py:199-223), batch after batch until a short one. Each
        batch reads the log as it is by then: `views` are the logs of the batches, the last of them
        for the rest. Told is what is readable after `since` in the log of the last batch. */
    method SendBacklog(views: seq<seq<Event<P>>>, l: Limits) returns (n: nat)
      requires views != [] && Grow(views) && Positive(l) && phase == CatchingUp(None) && 0 <= lastSent <= Head(views[0])
      modifies this
      ensures n < |views| && phase.Streaming? && lastSent == Head(views[n])
      ensures delivered == old(delivered) + Between(views[n], Upto(views[n], old(lastSent)), |views[n]|)
      ensures queue == old(queue) && closing == old(closing) && next == old(next) && told == old(told)
    {
      ghost var first := Value();
      n := 0;
      assert GrowsAt(views, 0);
      while true
        invariant n < |views| && phase == CatchingUp(None) && CaughtUp(views[n], first, Value())
        invariant 0 <= first.lastSent <= Head(views[n])
        decreases |views| - n, |views[n]| - Upto(views[n], lastSent)
      {
        assert GrowsAt(views, n);
        CatchUpMore(views[n], l, first, Value());
        SendBatch(views[n], l);
        if !phase.CatchingUp? { break; }
        if n + 1 < |views| {
          assert GrowsAt(views, n + 1);
          CaughtUpLater(views[n], views[n + 1], first, Value());
          n := n + 1;
        }
      }
      HeadIsLast(views[n], lastSent);
    }
  }

  /** The log at successive moments: it only grows. */
  ghost predicate Grow<P>(views: seq<seq<Event<P>>>) {
    forall n {:trigger GrowsAt(views, n)} :: 0 <= n < |views| ==> GrowsAt(views, n)
  }

  ghost predicate GrowsAt<P>(views: seq<seq<Event<P>>>, n: int) {
    0 <= n < |views| && Increasing(views[n]) && (n + 1 < |views| ==> views[n] <= views[n + 1])
  }

  /** What was committed meanwhile is still to come. */
  lemma CaughtUpLater<P>(log: seq<Event<P>>, later: seq<Event<P>>, first: Conn<P>, c: Conn<P>)
    requires log <= later && Increasing(later) && CaughtUp(log, first, c) && c.phase == CatchingUp(None)
    requires 0 <= first.lastSent <= Head(log)
    ensures CaughtUp(later, first, c) && 0 <= first.lastSent <= Head(later)
  {
    var more := later[|log|..];
    assert later == log + more;
    HeadLater(log, more);
    UptoLater(log, more, first.lastSent);
    UptoLater(log, more, c.lastSent);
    SliceLater(log, more, Upto(log, first.lastSent), Upto(log, c.lastSent));
  }

  /** Where a client stands that has been sent its backlog from `first` on. */
  ghost predicate CaughtUp<P>(log: seq<Event<P>>, first: Conn<P>, c: Conn<P>) {
    && Upto(log, first.lastSent) <= Upto(log, c.lastSent) && 0 <= c.lastSent <= Head(log)
    && c.delivered == first.delivered + Between(log, Upto(log, first.lastSent), Upto(log, c.lastSent))
    && (c.phase == CatchingUp(None) || (c.phase.Streaming? && Upto(log, c.lastSent) == |log|))
    && c.queue == first.queue && c.closing == first.closing && c.next == first.next && c.told == first.told
  }

  lemma CatchUpMore<P>(log: seq<Event<P>>, l: Limits, first: Conn<P>, c: Conn<P>)
    requires Increasing(log) && Positive(l) && CaughtUp(log, first, c) && c.phase == CatchingUp(None)
    ensures var c' := BatchSent(c, RowsAfter(log, c.lastSent, l.batch), l);
            CaughtUp(log, first, c') && (c'.phase.CatchingUp? ==> Upto(log, c.lastSent) < Upto(log, c'.lastSent))
  {
    var rows := RowsAfter(log, c.lastSent, l.batch);
    if rows != [] {
      BatchEnds(log, c.lastSent, rows, l.batch);
      DeliveredMore(log, first.delivered, c.delivered, Upto(log, first.lastSent), Upto(log, c.lastSent), rows);
    }
  }

  lemma DeliveredMore<P>(log: seq<Event<P>>, before: seq<Event<P>>, now: seq<Event<P>>, a: nat, b: nat, rows: seq<Event<P>>)
    requires a <= b && b + |rows| <= |log| && rows == log[b..b + |rows|] && now == before + Between(log, a, b)
    ensures now + Readable(rows) == before + Between(log, a, b + |rows|)
  {
    BetweenSplit(log, a, b, b + |rows|);
    BetweenSame(rows, 0, |rows|, log, b);
    Regroup(before, Between(log, a, b), Between(log, b, b + |rows|));
  }

  lemma BatchEnds<P>(log: seq<Event<P>>, x: int, rows: seq<Event<P>>, limit: nat)
    requires Increasing(log) && rows == RowsAfter(log, x, limit) && rows != []
    ensures Upto(log, rows[|rows| - 1].seqNo) == Upto(log, x) + |rows| && rows[|rows| - 1].seqNo <= Head(log)
    ensures rows == log[Upto(log, x)..Upto(log, x) + |rows|]
    ensures |rows| < limit ==> Upto(log, x) + |rows| == |log|
  {
    var k := Upto(log, x) + |rows|;
    assert rows[|rows| - 1] == log[k - 1];
    UptoAt(log, k - 1);
    if k < |log| { assert Before(log, k - 1, |log| - 1); }
  }

  lemma HeadIsLast<P>(log: seq<Event<P>>, x: int)
    requires Increasing(log) && 0 <= x <= Head(log) && Upto(log, x) == |log|
    ensures x == Head(log)
  {
  }

  /** One company's hub. */
  class EventHub<P> {
    const limits: Limits
    var conns: seq<Connection<P>>
    var cursor: Option<nat>

    /** No socket is listed twice, and all have queues of the hub's size. */
    ghost predicate Valid()
      reads this, conns
    {
      && (forall i, j :: 0 <= i < j < |conns| ==> conns[i] != conns[j])
      && forall i {:trigger conns[i]} :: 0 <= i < |conns| ==> conns[i].size == limits.queue
    }

    ghost function Values(): seq<Conn<P>>
      reads this, conns
    {
      seq(|conns|, i requires 0 <= i < |conns| reads this, conns => conns[i].Value())
    }

    constructor (l: Limits)
      ensures limits == l && conns == [] && cursor == None && Valid()
    {
      limits, conns, cursor := l, [], None;
    }

    /** A new socket is registered before anything else is read (gateway.py:151-154). */
    method Register(since: Option<int>, ghost next: nat) returns (c: Connection<P>)
      requires Valid()
      modifies this`conns
      ensures Valid() && fresh(c) && conns == old(conns) + [c]
      ensures Values() == old(Values()) + [Conn(since, Registered, [], false, 0, [], false, next)]
    {
      c := new Connection(since, limits.queue, next);
      conns := conns + [c];
    }

    /** Offer a row to everybody listening (gateway.py:299-304); a row that cannot be read to nobody. */
    method OfferRow(row: Event<P>)
      requires Valid()
      modifies conns
      ensures Valid() && conns == old(conns)
      ensures Values() == if row.readable then OfferAll(old(Values()), Live(row), limits.queue) else old(Values())
    {
      if !row.readable { return; }
      ghost var before := Values();
      for i := 0 to |conns|
        invariant Valid() && conns == old(conns)
        invariant forall k {:trigger conns[k]} :: 0 <= k < |conns| ==>
          conns[k].Value() == if k < i then OfferAll(before, Live(row), limits.queue)[k] else before[k]
      {
        if !conns[i].phase.Ended? { conns[i].Offer(Live(row), false); }
      }
    }

    /** The last one to leave takes the cursor along (gateway.py:175-179). */
    method Forget(i: nat)
      requires Valid() && i < |conns|
      modifies conns[i], this`cursor
      ensures Valid() && conns == old(conns)
      ensures Values() == old(Values())[i := old(Values())[i].(phase := Ended)]
      ensures cursor == if SomeoneListens(Values()) then old(cursor) else None
    {
      ghost var before := Values();
      conns[i].phase := Ended;
      var left := false;
      for k := 0 to |conns|
        invariant conns == old(conns) && cursor == old(cursor)
        invariant left <==> exists m :: 0 <= m < k && !conns[m].phase.Ended?
      {
        if !conns[k].phase.Ended? { left := true; }
      }
      assert forall m :: 0 <= m < |conns| ==> Values()[m].phase == conns[m].phase;
      if !left { cursor := None; }
      assert Values() == before[i := before[i].(phase := Ended)];
    }
  }
}
