/** What every step of the gateway keeps. */
module GatewayInvariant {
  import opened Wrappers
  import opened Sequences
  import opened EventLog
  import opened Gateway

  /** The events on a queue, in order. */
  function EventsOf<P>(queue: seq<Message<P>>): seq<Event<P>> { EventsIn(queue, 0, |queue|) }

  function EventsIn<P>(queue: seq<Message<P>>, a: nat, b: nat): seq<Event<P>>
    requires a <= b <= |queue|
    decreases b
  {
    if a == b then [] else EventsIn(queue, a, b - 1) + match queue[b - 1] case Live(e) => [e] case _ => []
  }

  lemma {:induction false} EventsInSame<P>(queue: seq<Message<P>>, a: nat, b: nat, other: seq<Message<P>>, c: nat)
    requires a <= b <= |queue| && c + (b - a) <= |other|
    requires queue[a..b] == other[c..c + (b - a)]
    ensures EventsIn(queue, a, b) == EventsIn(other, c, c + (b - a))
  {
    if a < b {
      SameInit(queue, a, b, other, c);
      EventsInSame(queue, a, b - 1, other, c);
    }
  }

  lemma EventsOfSnoc<P>(queue: seq<Message<P>>, m: Message<P>)
    ensures EventsOf(queue + [m]) == EventsOf(queue) + match m case Live(e) => [e] case _ => []
  {
    EventsInSame(queue + [m], 0, |queue|, queue, 0);
  }

  lemma {:induction false} EventsInSplit<P>(queue: seq<Message<P>>, a: nat, b: nat, c: nat)
    requires a <= b <= c <= |queue|
    ensures EventsIn(queue, a, c) == EventsIn(queue, a, b) + EventsIn(queue, b, c)
  {
    if b < c { EventsInSplit(queue, a, b, c - 1); }
  }

  // ---- one connection ----------------------------------------------------------------------

  /** What was delivered is the readable log from `since` up to what was last sent. */
  ghost predicate Heard<P>(log: seq<Event<P>>, c: Conn<P>) {
    && c.since.Some? && 0 <= c.since.value <= c.lastSent <= Head(log)
    && Upto(log, c.since.value) <= Upto(log, c.lastSent)
    && c.delivered == Between(log, Upto(log, c.since.value), Upto(log, c.lastSent))
  }

  ghost predicate QueueOk<P>(c: Conn<P>, size: nat) {
    && |c.queue| <= size
    && (c.closing ==> c.queue == [SnapshotRequired] || !c.Open())
    && (!c.closing ==> forall k :: 0 <= k < |c.queue| ==> !c.queue[k].SnapshotRequired?)
  }

  /** The queue holds the readable log from `next` up to the frontier: nothing is missing and
      nothing is there twice. */
  ghost predicate Fed<P>(log: seq<Event<P>>, f: Option<nat>, c: Conn<P>) {
    match f
    case None => EventsOf(c.queue) == []
    case Some(place) => c.next <= place <= |log| && EventsOf(c.queue) == Between(log, c.next, place)
  }

  /** Where a connection stands. `next` is never beyond what it has caught up with when the sender
      starts: live delivery overlaps the backlog, it does not leave a gap. */
  ghost predicate PhaseOk<P>(log: seq<Event<P>>, l: Limits, c: Conn<P>) {
    match c.phase
    case Headed(head) => head <= Head(log) && (!c.closing ==> c.next <= Upto(log, head))
    case CatchingUp(rows) =>
      && Heard(log, c)
      && (rows.Some? ==> IsBatch(log, l, c, rows.value))
    case Streaming => Heard(log, c) && (!c.closing ==> c.next <= Upto(log, c.lastSent))
    case Ended => c.delivered == [] || Heard(log, c)
    case _ => c.delivered == []
  }

  ghost predicate IsBatch<P>(log: seq<Event<P>>, l: Limits, c: Conn<P>, rows: seq<Event<P>>) {
    var p := Upto(log, c.lastSent);
    && p + |rows| <= |log| && rows == log[p..p + |rows|]
    && (|rows| < l.batch && !c.closing ==> c.next <= p + |rows|)
  }

  ghost predicate ConnOk<P>(log: seq<Event<P>>, f: Option<nat>, l: Limits, c: Conn<P>) {
    && QueueOk(c, l.queue) && PhaseOk(log, l, c)
    && (c.phase.Headed? ==> c.delivered == [])
    && (c.Open() && !c.closing ==> Fed(log, f, c))
    && (c.Settled() ==> f.Some?)
  }

  // ---- the hub -----------------------------------------------------------------------------

  ghost predicate HolderOk<P>(h: Hub<P>) {
    match h.holder
    case Nobody => true
    case Tracker(i, head) =>
      i < |h.conns| && h.conns[i].phase.Tracking? && h.cursor.None? && (head.Some? ==> head.value <= Head(h.log))
    case FetchTracking(head) => h.cursor.None? && (head.Some? ==> head.value <= Head(h.log))
    case Reading(cursor) =>
      cursor <= Head(h.log) && (h.cursor.Some? ==> h.cursor.value == cursor) &&
      (h.cursor.None? ==> forall i {:trigger h.conns[i]} :: 0 <= i < |h.conns| && h.conns[i].Open() && !h.conns[i].closing ==>
        h.conns[i].next == Upto(h.log, cursor))
    case Offering(cursor, rows, done) =>
      var p := Upto(h.log, cursor);
      && cursor <= Head(h.log) && rows != [] && done <= |rows|
      && p + |rows| <= |h.log| && rows == h.log[p..p + |rows|]
  }

  ghost predicate Good<P>(h: Hub<P>, l: Limits) {
    && Increasing(h.log)
    && (h.cursor.Some? ==> h.cursor.value <= Head(h.log))
    && HolderOk(h)
    && (forall i {:trigger h.conns[i]} :: 0 <= i < |h.conns| ==>
         && ConnOk(h.log, Frontier(h), l, h.conns[i])
         && (h.conns[i].Settled() ==> h.cursor.Some?)
         && (h.conns[i].phase.Tracking? ==> h.holder.Tracker? && h.holder.conn == i))
  }

  // ---- the log grows -----------------------------------------------------------------------

  lemma SliceLater<P>(log: seq<Event<P>>, more: seq<Event<P>>, a: nat, b: nat)
    requires a <= b <= |log|
    ensures (log + more)[a..b] == log[a..b] && Between(log + more, a, b) == Between(log, a, b)
  {
    BetweenSame(log + more, a, b, log, a);
  }

  lemma HeardLater<P>(log: seq<Event<P>>, more: seq<Event<P>>, c: Conn<P>)
    requires Increasing(log + more) && Heard(log, c)
    ensures Heard(log + more, c) && Upto(log + more, c.lastSent) == Upto(log, c.lastSent)
    ensures Head(log) <= Head(log + more)
  {
    UptoLater(log, more, c.since.value);
    UptoLater(log, more, c.lastSent);
    HeadLater(log, more);
    SliceLater(log, more, Upto(log, c.since.value), Upto(log, c.lastSent));
  }

  lemma HeadLater<P>(log: seq<Event<P>>, more: seq<Event<P>>)
    requires Increasing(log + more)
    ensures Head(log) <= Head(log + more)
  {
    if log != [] && more != [] { assert Before(log + more, |log| - 1, |log + more| - 1); }
  }

  lemma ConnOkLater<P>(log: seq<Event<P>>, more: seq<Event<P>>, f: Option<nat>, l: Limits, c: Conn<P>)
    requires Increasing(log + more) && ConnOk(log, f, l, c)
    ensures ConnOk(log + more, f, l, c)
  {
    HeadLater(log, more);
    if Heard(log, c) { HeardLater(log, more, c); }
    if c.phase.Headed? { UptoLater(log, more, c.phase.head); }
    if c.phase.CatchingUp? && c.phase.rows.Some? {
      SliceLater(log, more, Upto(log, c.lastSent), Upto(log, c.lastSent) + |c.phase.rows.value|);
    }
    if f.Some? && c.Open() && !c.closing { SliceLater(log, more, c.next, f.value); }
  }

  lemma FrontierLater<P>(h: Hub<P>, l: Limits, more: seq<Event<P>>)
    requires Good(h, l) && Increasing(h.log + more)
    ensures Frontier(Committed(h, more)) == Frontier(h)
  {
    match h.holder
    case Reading(cursor) => UptoLater(h.log, more, cursor);
    case Offering(cursor, _, _) => UptoLater(h.log, more, cursor);
    case Tracker(_, head) => if head.Some? { UptoLater(h.log, more, head.value); }
    case FetchTracking(head) => if head.Some? { UptoLater(h.log, more, head.value); }
    case Nobody => if h.cursor.Some? { UptoLater(h.log, more, h.cursor.value); }
  }

  lemma HolderLater<P>(h: Hub<P>, l: Limits, more: seq<Event<P>>)
    requires Good(h, l) && Increasing(h.log + more)
    ensures HolderOk(Committed(h, more))
  {
    HeadLater(h.log, more);
    match h.holder
    case Reading(cursor) => UptoLater(h.log, more, cursor);
    case Offering(cursor, rows, _) =>
      UptoLater(h.log, more, cursor);
      SliceLater(h.log, more, Upto(h.log, cursor), Upto(h.log, cursor) + |rows|);
    case _ =>
  }

  lemma CommitKeeps<P>(h: Hub<P>, l: Limits, more: seq<Event<P>>)
    requires Good(h, l) && Increasing(h.log + more)
    ensures Good(Committed(h, more), l)
  {
    var h' := Committed(h, more);
    HeadLater(h.log, more);
    FrontierLater(h, l, more);
    HolderLater(h, l, more);
    forall i | 0 <= i < |h'.conns| ensures ConnOk(h'.log, Frontier(h'), l, h'.conns[i]) {
      ConnOkLater(h.log, more, Frontier(h), l, h.conns[i]);
    }
  }

  // ---- the sender --------------------------------------------------------------------------

  /** The first readable event of a stretch: nothing before it can be read. */
  lemma {:induction false} FirstReadable<P>(log: seq<Event<P>>, a: nat, b: nat, e: Event<P>, rest: seq<Event<P>>) returns (p: nat)
    requires a <= b <= |log| && Between(log, a, b) == [e] + rest
    ensures a <= p < b && log[p] == e && e.readable && Between(log, a, p) == [] && Between(log, p + 1, b) == rest
    decreases b - a
  {
    BetweenSplit(log, a, a + 1, b);
    BetweenOne(log, a);
    if log[a].readable {
      p := a;
      assert ([e] + rest)[1..] == rest && ([log[a]] + Between(log, a + 1, b))[1..] == Between(log, a + 1, b);
      assert ([e] + rest)[0] == e;
    } else {
      p := FirstReadable(log, a + 1, b, e, rest);
      BetweenSplit(log, a, a + 1, p);
    }
  }

  lemma TailOfQueue<P>(queue: seq<Message<P>>)
    requires queue != []
    ensures EventsOf(queue) == (match queue[0] case Live(e) => [e] case _ => []) + EventsOf(queue[1..])
  {
    EventsInSplit(queue, 0, 1, |queue|);
    assert EventsIn(queue, 0, 0) == [];
    EventsInSame(queue, 1, |queue|, queue[1..], 0);
  }

  /** Everything readable up to place `k` is delivered. */
  lemma HeardUpTo<P>(log: seq<Event<P>>, c: Conn<P>, k: nat)
    requires Increasing(log) && Heard(log, c) && Upto(log, c.lastSent) < k <= |log|
    ensures Upto(log, log[k - 1].seqNo) == k
    ensures Heard(log, c.(lastSent := log[k - 1].seqNo, delivered := c.delivered + Between(log, Upto(log, c.lastSent), k)))
  {
    UptoAt(log, k - 1);
    UptoSplits(log, c.lastSent, k - 1);
    BetweenSplit(log, Upto(log, c.since.value), Upto(log, c.lastSent), k);
    if k < |log| { assert Before(log, k - 1, |log| - 1); }
  }

  /** The event at `p` is the next one to be heard after `lastSent`. */
  lemma HeardOneMore<P>(log: seq<Event<P>>, c: Conn<P>, a: nat, p: nat)
    requires Increasing(log) && Heard(log, c) && a <= Upto(log, c.lastSent) <= p < |log|
    requires log[p].readable && Between(log, a, p) == []
    ensures Heard(log, c.(lastSent := log[p].seqNo, delivered := c.delivered + [log[p]]))
    ensures Upto(log, log[p].seqNo) == p + 1
  {
    var u := Upto(log, c.lastSent);
    BetweenSplit(log, a, u, p);
    BetweenSplit(log, u, p, p + 1);
    BetweenOne(log, p);
    HeardUpTo(log, c, p + 1);
  }

  /** An event from the queue: sent before and passed over, or the next one to be heard. */
  lemma LiveKeeps<P>(log: seq<Event<P>>, f: nat, c: Conn<P>, e: Event<P>)
    requires Increasing(log) && c.queue != [] && c.queue[0] == Live(e) && Fed(log, Some(f), c)
    requires Heard(log, c) && c.next <= Upto(log, c.lastSent)
    ensures Heard(log, Sent(log, c)) && Fed(log, Some(f), Sent(log, c)) && Sent(log, c).next <= Upto(log, Sent(log, c).lastSent)
  {
    TailOfQueue(c.queue);
    var p := FirstReadable(log, c.next, f, e, EventsOf(c.queue[1..]));
    UptoAt(log, p);
    UptoSplits(log, c.lastSent, p);
    if e.seqNo > c.lastSent { HeardOneMore(log, c, c.next, p); }
  }

  lemma SentKeeps<P>(log: seq<Event<P>>, f: Option<nat>, l: Limits, c: Conn<P>)
    requires Increasing(log) && ConnOk(log, f, l, c) && c.phase.Streaming? && c.queue != []
    ensures ConnOk(log, f, l, Sent(log, c))
  {
    match c.queue[0]
    case Live(e) => SentLiveKeeps(log, f.value, l, c, e);
    case Signal => SentSignalKeeps(log, f, l, c);
    case SnapshotRequired => SentLastKeeps(log, f, l, c);
  }

  lemma SentLiveKeeps<P>(log: seq<Event<P>>, f: nat, l: Limits, c: Conn<P>, e: Event<P>)
    requires Increasing(log) && ConnOk(log, Some(f), l, c) && c.phase.Streaming? && c.queue != [] && c.queue[0] == Live(e)
    ensures ConnOk(log, Some(f), l, Sent(log, c))
  {
    LiveKeeps(log, f, c, e);
  }

  lemma SentSignalKeeps<P>(log: seq<Event<P>>, f: Option<nat>, l: Limits, c: Conn<P>)
    requires Increasing(log) && ConnOk(log, f, l, c) && c.phase.Streaming? && c.queue != [] && c.queue[0] == Signal
    ensures ConnOk(log, f, l, Sent(log, c))
  {
    TailOfQueue(c.queue);
  }

  lemma SentLastKeeps<P>(log: seq<Event<P>>, f: Option<nat>, l: Limits, c: Conn<P>)
    requires Increasing(log) && ConnOk(log, f, l, c) && c.phase.Streaming? && c.queue != [] && c.queue[0] == SnapshotRequired
    ensures ConnOk(log, f, l, Sent(log, c))
  {
  }

  // ---- setting up --------------------------------------------------------------------------

  lemma HeardNothingYet<P>(log: seq<Event<P>>, c: Conn<P>)
    requires c.since.Some? && 0 <= c.since.value == c.lastSent <= Head(log) && c.delivered == []
    ensures Heard(log, c)
  {
  }

  lemma GreetedKeeps<P>(log: seq<Event<P>>, f: Option<nat>, l: Limits, c: Conn<P>)
    requires Increasing(log) && ConnOk(log, f, l, c) && c.phase.Headed?
    ensures ConnOk(log, f, l, Greeted(log, c, c.phase.head, l))
  {
    if !CannotCatchUp(log, c.since, c.phase.head, l) { HeardNothingYet(log, Greeted(log, c, c.phase.head, l)); }
  }

  lemma ReadBatchKeeps<P>(log: seq<Event<P>>, f: Option<nat>, l: Limits, c: Conn<P>)
    requires ConnOk(log, f, l, c) && c.phase == CatchingUp(None)
    ensures ConnOk(log, f, l, c.(phase := CatchingUp(Some(RowsAfter(log, c.lastSent, l.batch)))))
  {
  }

  lemma HeardBatch<P>(log: seq<Event<P>>, l: Limits, c: Conn<P>, rows: seq<Event<P>>)
    requires Increasing(log) && Heard(log, c) && rows != [] && IsBatch(log, l, c, rows)
    ensures Heard(log, c.(lastSent := rows[|rows| - 1].seqNo, delivered := c.delivered + Readable(rows)))
    ensures Upto(log, rows[|rows| - 1].seqNo) == Upto(log, c.lastSent) + |rows|
  {
    var u, k := Upto(log, c.lastSent), Upto(log, c.lastSent) + |rows|;
    LastOfSlice(log, u, k);
    HeardUpTo(log, c, k);
    BetweenSame(rows, 0, |rows|, log, u);
  }

  lemma LastOfSlice<T>(s: seq<T>, a: nat, b: nat)
    requires a < b <= |s|
    ensures s[a..b][|s[a..b]| - 1] == s[b - 1]
  {
  }

  lemma BatchSentKeeps<P>(log: seq<Event<P>>, f: Option<nat>, l: Limits, c: Conn<P>)
    requires Increasing(log) && Positive(l) && ConnOk(log, f, l, c) && c.phase.CatchingUp? && c.phase.rows.Some?
    ensures ConnOk(log, f, l, BatchSent(c, c.phase.rows.value, l))
  {
    if c.phase.rows.value != [] { HeardBatch(log, l, c, c.phase.rows.value); }
  }

  // ---- offering ----------------------------------------------------------------------------

  lemma FedSignal<P>(log: seq<Event<P>>, f: Option<nat>, c: Conn<P>)
    requires Fed(log, f, c)
    ensures Fed(log, f, c.(queue := c.queue + [Signal]))
  {
    EventsOfSnoc(c.queue, Signal);
  }

  lemma SignalKeeps<P>(log: seq<Event<P>>, f: Option<nat>, l: Limits, c: Conn<P>, droppable: bool)
    requires Positive(l) && ConnOk(log, f, l, c) && c.Open()
    ensures ConnOk(log, f, l, Offer(c, Signal, droppable, l.queue))
  {
    if !c.closing { FedSignal(log, f, c); }
  }

  lemma FedOneMore<P>(log: seq<Event<P>>, f: nat, c: Conn<P>)
    requires f < |log| && Fed(log, Some(f), c)
    ensures Fed(log, Some(f + 1), if log[f].readable then c.(queue := c.queue + [Live(log[f])]) else c)
  {
    BetweenSplit(log, c.next, f, f + 1);
    BetweenOne(log, f);
    EventsOfSnoc(c.queue, Live(log[f]));
  }

  /** Offering the next readable row, or passing over one that is not, moves the frontier by one. */
  lemma RowKeeps<P>(log: seq<Event<P>>, f: nat, l: Limits, c: Conn<P>)
    requires Positive(l) && f < |log| && ConnOk(log, Some(f), l, c)
    ensures ConnOk(log, Some(f + 1), l, if log[f].readable && c.Open() then Offer(c, Live(log[f]), false, l.queue) else c)
  {
    if c.Open() && !c.closing { FedOneMore(log, f, c); }
  }

  // ---- one step of the hub -----------------------------------------------------------------

  ghost predicate ConnFits<P>(h: Hub<P>, l: Limits, i: nat, c: Conn<P>) {
    && ConnOk(h.log, Frontier(h), l, c)
    && (c.Settled() ==> h.cursor.Some?)
    && (c.phase.Tracking? ==> h.holder.Tracker? && h.holder.conn == i)
  }

  /** One connection changes, holder and cursor stay. */
  lemma ReplaceKeeps<P>(h: Hub<P>, l: Limits, i: nat, c: Conn<P>)
    requires Good(h, l) && i < |h.conns| && ConnFits(h, l, i, c)
    requires h.holder.Tracker? && h.holder.conn == i ==> c.phase.Tracking?
    requires h.holder.Reading? && h.cursor.None? && c.Open() && !c.closing ==> c.next == Upto(h.log, h.holder.cursor)
    ensures Good(h.(conns := h.conns[i := c]), l)
  {
  }

  lemma LeaveKeeps<P>(h: Hub<P>, l: Limits)
    requires Good(h, l)
    ensures Good(Leave(h), l)
  {
  }

  lemma NewcomerFits<P>(h: Hub<P>, l: Limits, since: Option<int>, next: nat)
    requires Good(h, l) && Positive(l) && (Frontier(h).Some? ==> next == Frontier(h).value)
    ensures ConnOk(h.log, Frontier(h), l, Conn(since, Registered, [], false, 0, [], false, next))
  {
    if Frontier(h).Some? { FrontierInLog(h, l); }
  }

  lemma RegisterKeeps<P>(h: Hub<P>, l: Limits, since: Option<int>)
    requires Good(h, l) && Positive(l)
    ensures Good(Next(h, l, Register(since)), l)
  {
    var h' := Next(h, l, Register(since));
    NewcomerFits(h, l, since, h'.conns[|h.conns|].next);
    assert Frontier(h') == Frontier(h);
  }

  lemma FrontierInLog<P>(h: Hub<P>, l: Limits)
    requires Good(h, l) && Frontier(h).Some?
    ensures Frontier(h).value <= |h.log|
  {
  }

  /** While the frontier is unknown, everybody's queue is empty of events; it starts at the head. */
  lemma StartKeeps<P>(log: seq<Event<P>>, l: Limits, c: Conn<P>)
    requires ConnOk(log, None, l, c)
    ensures ConnOk(log, Some(|log|), l, c.(next := |log|))
  {
  }

  lemma ReadTrackedKeeps<P>(h: Hub<P>, l: Limits, i: nat)
    requires Good(h, l) && h.holder == Tracker(i, None)
    ensures Good(h.(holder := Tracker(i, Some(Head(h.log))), conns := StartAt(h.conns, |h.log|)), l)
  {
    var h' := h.(holder := Tracker(i, Some(Head(h.log))), conns := StartAt(h.conns, |h.log|));
    UptoHead(h.log);
    forall k | 0 <= k < |h'.conns| ensures ConnFits(h', l, k, h'.conns[k]) { StartKeeps(h.log, l, h.conns[k]); }
  }

  lemma FetchHeadKeeps<P>(h: Hub<P>, l: Limits)
    requires Good(h, l) && h.holder == FetchTracking(None)
    ensures Good(Next(h, l, FetchHead), l)
  {
    var h' := Next(h, l, FetchHead);
    UptoHead(h.log);
    forall k | 0 <= k < |h'.conns| ensures ConnFits(h', l, k, h'.conns[k]) { StartKeeps(h.log, l, h.conns[k]); }
  }

  lemma OfferedFits<P>(h: Hub<P>, l: Limits, k: nat)
    requires Good(h, l) && Positive(l) && h.holder.Offering? && h.holder.done < |h.holder.rows| && k < |h.conns|
    ensures ConnFits(Offered(h, l), l, k, Offered(h, l).conns[k])
  {
    var f := Upto(h.log, h.holder.cursor) + h.holder.done;
    assert h.holder.rows[h.holder.done] == h.log[f];
    RowKeeps(h.log, f, l, h.conns[k]);
  }

  lemma OfferedKeeps<P>(h: Hub<P>, l: Limits)
    requires Good(h, l) && Positive(l)
    ensures Good(Offered(h, l), l)
  {
    if h.holder.Offering? && h.holder.done < |h.holder.rows| {
      var h' := Offered(h, l);
      forall k | 0 <= k < |h'.conns| ensures ConnFits(h', l, k, h'.conns[k]) { OfferedFits(h, l, k); }
    }
  }

  /** The last row of the batch is where the frontier is. */
  lemma BatchDone<P>(log: seq<Event<P>>, p: nat, rows: seq<Event<P>>)
    requires Increasing(log) && rows != [] && p + |rows| <= |log| && rows == log[p..p + |rows|]
    ensures Upto(log, rows[|rows| - 1].seqNo) == p + |rows| && rows[|rows| - 1].seqNo <= Head(log)
  {
    LastOfSlice(log, p, p + |rows|);
    UptoAt(log, p + |rows| - 1);
    if p + |rows| < |log| { assert Before(log, p + |rows| - 1, |log| - 1); }
  }

  lemma AdvancedKeeps<P>(h: Hub<P>, l: Limits)
    requires Good(h, l)
    ensures Good(Advanced(h, l), l)
  {
    if h.holder.Offering? && h.holder.done == |h.holder.rows| {
      BatchDone(h.log, Upto(h.log, h.holder.cursor), h.holder.rows);
      assert Frontier(Advanced(h, l)) == Frontier(h);
    }
  }

  /** Nothing was there to read: those who came since the cursor was forgotten have been offered
      nothing, so the next head read is a fair start for them. */
  lemma FetchedKeeps<P>(h: Hub<P>, l: Limits)
    requires Good(h, l)
    ensures Good(Fetched(h, l), l)
  {
    if h.holder.Reading? {
      var h' := Fetched(h, l);
      forall k | 0 <= k < |h'.conns| ensures ConnFits(h', l, k, h'.conns[k]) {
        if h'.holder.Nobody? && h.cursor.None? { assert ConnFits(h, l, k, h.conns[k]); }
      }
    }
  }

  lemma AcquireKeeps<P>(h: Hub<P>, l: Limits, i: nat)
    requires Good(h, l) && i < |h.conns|
    ensures Good(OnConn(h, l, Acquire(i)), l)
  {
    if h.conns[i].phase.Registered? && h.holder.Nobody? {
      if h.cursor.Some? { ReplaceKeeps(h, l, i, h.conns[i].(phase := Tracked)); }
    }
  }

  lemma SetTrackedKeeps<P>(h: Hub<P>, l: Limits, i: nat)
    requires Good(h, l) && i < |h.conns|
    ensures Good(OnConn(h, l, SetTracked(i)), l)
  {
    var h' := OnConn(h, l, SetTracked(i));
    assert Frontier(h') == Frontier(h);
    forall k | 0 <= k < |h'.conns| ensures ConnFits(h', l, k, h'.conns[k]) { assert ConnFits(h, l, k, h.conns[k]); }
  }

  lemma SetupKeeps<P>(h: Hub<P>, l: Limits, i: nat)
    requires Good(h, l) && Positive(l) && i < |h.conns|
    ensures Good(OnConn(h, l, ReadHead(i)), l) && Good(OnConn(h, l, Greet(i)), l)
  {
    var c := h.conns[i];
    assert ConnFits(h, l, i, c);
    if c.phase.Tracked? {
      FrontierInLog(h, l);
      UptoHead(h.log);
      ReplaceKeeps(h, l, i, c.(phase := Headed(Head(h.log))));
    }
    if c.phase.Headed? {
      GreetedKeeps(h.log, Frontier(h), l, c);
      ReplaceKeeps(h, l, i, Greeted(h.log, c, c.phase.head, l));
      LeaveKeeps(h.(conns := h.conns[i := Greeted(h.log, c, c.phase.head, l)]), l);
    }
  }

  lemma BacklogKeeps<P>(h: Hub<P>, l: Limits, i: nat)
    requires Good(h, l) && Positive(l) && i < |h.conns|
    ensures Good(OnConn(h, l, ReadBatch(i)), l) && Good(OnConn(h, l, SendBatch(i)), l)
  {
    var c := h.conns[i];
    assert ConnFits(h, l, i, c);
    if c.phase == CatchingUp(None) {
      ReadBatchKeeps(h.log, Frontier(h), l, c);
      ReplaceKeeps(h, l, i, c.(phase := CatchingUp(Some(RowsAfter(h.log, c.lastSent, l.batch)))));
    }
    if c.phase.CatchingUp? && c.phase.rows.Some? {
      BatchSentKeeps(h.log, Frontier(h), l, c);
      ReplaceKeeps(h, l, i, BatchSent(c, c.phase.rows.value, l));
    }
  }

  lemma SendKeeps<P>(h: Hub<P>, l: Limits, i: nat)
    requires Good(h, l) && i < |h.conns|
    ensures Good(OnConn(h, l, Send(i)), l)
  {
    var c := h.conns[i];
    assert ConnFits(h, l, i, c);
    if c.phase.Streaming? && c.queue != [] {
      SentKeeps(h.log, Frontier(h), l, c);
      ReplaceKeeps(h, l, i, Sent(h.log, c));
      LeaveKeeps(h.(conns := h.conns[i := Sent(h.log, c)]), l);
    }
  }

  lemma NotifyKeeps<P>(h: Hub<P>, l: Limits, i: nat, droppable: bool)
    requires Good(h, l) && Positive(l) && i < |h.conns|
    ensures Good(OnConn(h, l, Notify(i, droppable)), l)
  {
    var c := h.conns[i];
    assert ConnFits(h, l, i, c);
    if c.Open() {
      SignalKeeps(h.log, Frontier(h), l, c, droppable);
      ReplaceKeeps(h, l, i, Offer(c, Signal, droppable, l.queue));
    }
  }

  lemma DisconnectKeeps<P>(h: Hub<P>, l: Limits, i: nat)
    requires Good(h, l) && i < |h.conns|
    ensures Good(OnConn(h, l, Disconnect(i)), l)
  {
    var c := h.conns[i];
    assert ConnFits(h, l, i, c);
    if c.Open() && !c.phase.Tracking? {
      ReplaceKeeps(h, l, i, c.(phase := Ended));
      LeaveKeeps(h.(conns := h.conns[i := c.(phase := Ended)]), l);
    }
  }

  /** Whatever runs next, the hub stays in order. */
  lemma NextKeeps<P>(h: Hub<P>, l: Limits, s: Step<P>)
    requires Good(h, l) && Positive(l) && Possible(h, s)
    ensures Good(Next(h, l, s), l)
  {
    match s
    case Commit(more) => CommitKeeps(h, l, more);
    case Register(since) => RegisterKeeps(h, l, since);
    case FetchBegin =>
    case FetchHead => if h.holder == FetchTracking(None) { FetchHeadKeeps(h, l); }
    case FetchSet =>
    case FetchRows => FetchedKeeps(h, l);
    case FetchOffer => OfferedKeeps(h, l);
    case FetchAdvance => AdvancedKeeps(h, l);
    case _ => if s.i < |h.conns| { OnConnKeeps(h, l, s); }
  }

  lemma OnConnKeeps<P>(h: Hub<P>, l: Limits, s: Step<P>)
    requires Good(h, l) && Positive(l)
    requires (s.Acquire? || s.ReadTracked? || s.SetTracked? || s.ReadHead? || s.Greet? || s.ReadBatch? || s.SendBatch?
              || s.Send? || s.Notify? || s.Disconnect?) && s.i < |h.conns|
    ensures Good(OnConn(h, l, s), l)
  {
    match s
    case Acquire(i) => AcquireKeeps(h, l, i);
    case ReadTracked(i) => if h.holder == Tracker(i, None) { ReadTrackedKeeps(h, l, i); }
    case SetTracked(i) => SetTrackedKeeps(h, l, i);
    case ReadHead(i) => SetupKeeps(h, l, i);
    case Greet(i) => SetupKeeps(h, l, i);
    case ReadBatch(i) => BacklogKeeps(h, l, i);
    case SendBatch(i) => BacklogKeeps(h, l, i);
    case Send(i) => SendKeeps(h, l, i);
    case Notify(i, droppable) => NotifyKeeps(h, l, i, droppable);
    case Disconnect(i) => DisconnectKeeps(h, l, i);
  }

  lemma {:induction false} RunKeeps<P(!new)>(l: Limits, steps: seq<Step<P>>, hubs: seq<Hub<P>>, k: nat)
    requires Positive(l) && IsRun(l, steps, hubs) && k < |hubs|
    ensures Good(hubs[k], l)
  {
    if k > 0 {
      RunKeeps(l, steps, hubs, k - 1);
      NextKeeps(hubs[k - 1], l, steps[k - 1]);
    }
  }
}
