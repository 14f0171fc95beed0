/** The realtime gateway as a concurrent protocol (backend/autora/realtime/gateway.py): committers
    append to the log, at most one fetcher moves a cursor, sockets register, catch up and stream.
    A step is what runs between two awaits; any step may come next. */
module Gateway {
  import opened Wrappers
  import opened EventLog

  datatype Limits = Limits(batch: nat, fetch: nat, backlogMax: nat, queue: nat)

  ghost predicate Positive(l: Limits) { l.batch >= 1 && l.fetch >= 1 && l.queue >= 1 }

  /** What is put on a connection's queue: an event, something without a seq (an ephemeral event, a
      heartbeat), or the end of the stream. */
  datatype Message<P> = Live(event: Event<P>) | Signal | SnapshotRequired

  /** How far setting up a connection has come. */
  datatype Phase<P> =
    | Registered                               // waits for the company's lock
    | Tracking                                 // holds the lock, reads the head for the cursor
    | Tracked                                  // about to read the head for itself
    | Headed(head: nat)                        // about to check `since` and greet
    | CatchingUp(rows: Option<seq<Event<P>>>)  // about to read, or to send, a batch
    | Streaming                                // the sender runs
    | Ended

  /** One socket. `delivered` are the events sent so far; `next` is the place in the log from which
      the queue goes on; `told` says that SNAPSHOT_REQUIRED was sent. */
  datatype Conn<P> = Conn(
    since: Option<int>,
    phase: Phase<P>,
    queue: seq<Message<P>>,
    closing: bool,
    lastSent: int,
    delivered: seq<Event<P>>,
    told: bool,
    next: nat)
  {
    predicate Open() { !phase.Ended? }

    /** Past the cursor's setting up. */
    predicate Settled() { phase.Tracked? || phase.Headed? || phase.CatchingUp? || phase.Streaming? }
  }

  /** Who holds the company's lock, and how far that has come. */
  datatype Holder<P> =
    | Nobody
    | Tracker(conn: nat, head: Option<nat>)
    | FetchTracking(head: Option<nat>)
    | Reading(cursor: nat)
    | Offering(cursor: nat, rows: seq<Event<P>>, done: nat)

  /** One company's part of the hub, and its log. */
  datatype Hub<P> = Hub(log: seq<Event<P>>, cursor: Option<nat>, conns: seq<Conn<P>>, holder: Holder<P>)

  // ---- connections -------------------------------------------------------------------------

  /** Queue a message without waiting (gateway.py:87-100): when the queue is full, what may be dropped
      is, and anything else is the end of the connection. */
  function Offer<P>(c: Conn<P>, m: Message<P>, droppable: bool, size: nat): Conn<P> {
    if c.closing then c
    else if |c.queue| < size then c.(queue := c.queue + [m])
    else if droppable then c
    else c.(closing := true, queue := [SnapshotRequired])
  }

  function OfferAll<P>(conns: seq<Conn<P>>, m: Message<P>, size: nat): (r: seq<Conn<P>>)
    ensures |r| == |conns|
    ensures forall i {:trigger r[i]} :: 0 <= i < |r| ==> r[i] == if conns[i].Open() then Offer(conns[i], m, false, size) else conns[i]
  {
    seq(|conns|, i requires 0 <= i < |conns| => if conns[i].Open() then Offer(conns[i], m, false, size) else conns[i])
  }

  /** Why a client cannot catch up (gateway.py:261-277). */
  predicate CannotCatchUp<P>(log: seq<Event<P>>, since: Option<int>, head: nat, l: Limits) {
    since.None? || since.value < 0 || since.value > head || (since.value != head && |log| - Upto(log, since.value) > l.backlogMax)
  }

  /** One turn of the sender (gateway.py:228-236): what was already sent is passed over. */
  function Sent<P>(log: seq<Event<P>>, c: Conn<P>): Conn<P>
    requires c.queue != []
  {
    var rest := c.(queue := c.queue[1..]);
    match c.queue[0]
    case Live(e) =>
      if e.seqNo <= c.lastSent then rest.(next := Upto(log, e.seqNo))
      else rest.(lastSent := e.seqNo, delivered := c.delivered + [e], next := Upto(log, e.seqNo))
    case Signal => rest
    case SnapshotRequired => rest.(told := true, phase := Ended)
  }

  /** HELLO, and what it says about `since` (gateway.py:159-172). */
  function Greeted<P>(log: seq<Event<P>>, c: Conn<P>, head: nat, l: Limits): Conn<P> {
    if CannotCatchUp(log, c.since, head, l) then c.(told := true, phase := Ended)
    else c.(lastSent := c.since.value, phase := if c.since.value == head then Streaming else CatchingUp(None))
  }

  /** One batch of the backlog is sent (gateway.py:213-220). */
  function BatchSent<P>(c: Conn<P>, rows: seq<Event<P>>, l: Limits): Conn<P> {
    if rows == [] then c.(phase := Streaming)
    else c.(delivered := c.delivered + Readable(rows), lastSent := rows[|rows| - 1].seqNo,
            phase := if |rows| < l.batch then Streaming else CatchingUp(None))
  }

  // ---- the hub -----------------------------------------------------------------------------

  predicate SomeoneListens<P>(conns: seq<Conn<P>>) {
    exists i :: 0 <= i < |conns| && conns[i].Open()
  }

  /** The cursor is forgotten with the last connection (gateway.py:176-179). */
  function Leave<P>(h: Hub<P>): Hub<P> {
    if SomeoneListens(h.conns) then h else h.(cursor := None)
  }

  /** The place in the log up to which events have been offered to everybody listening; none until
      the first head is read. */
  function Frontier<P>(h: Hub<P>): Option<nat> {
    match h.holder
    case Reading(cursor) => Some(Upto(h.log, cursor))
    case Offering(cursor, _, done) => Some(Upto(h.log, cursor) + done)
    case Tracker(_, head) => if head.Some? then Some(Upto(h.log, head.value)) else None
    case FetchTracking(head) => if head.Some? then Some(Upto(h.log, head.value)) else None
    case Nobody => if h.cursor.Some? then Some(Upto(h.log, h.cursor.value)) else None
  }

  /** Everybody's queue starts at `place`. */
  function StartAt<P>(conns: seq<Conn<P>>, place: nat): (r: seq<Conn<P>>)
    ensures |r| == |conns| && forall i {:trigger r[i]} :: 0 <= i < |r| ==> r[i] == conns[i].(next := place)
  {
    seq(|conns|, i requires 0 <= i < |conns| => conns[i].(next := place))
  }

  datatype Step<P> =
    | Commit(more: seq<Event<P>>)
    | Register(since: Option<int>)
    | Acquire(i: nat)
    | ReadTracked(i: nat)
    | SetTracked(i: nat)
    | ReadHead(i: nat)
    | Greet(i: nat)
    | ReadBatch(i: nat)
    | SendBatch(i: nat)
    | Send(i: nat)
    | Notify(i: nat, droppable: bool)
    | Disconnect(i: nat)
    | FetchBegin
    | FetchHead
    | FetchSet
    | FetchRows
    | FetchOffer
    | FetchAdvance

  function Next<P>(h: Hub<P>, l: Limits, s: Step<P>): Hub<P> {
    match s
    case Commit(more) => Committed(h, more)
    case Register(since) =>
      h.(conns := h.conns + [Conn(since, Registered, [], false, 0, [], false, if Frontier(h).Some? then Frontier(h).value else 0)])
    case FetchBegin => Begun(h)
    case FetchHead =>
      if h.holder != FetchTracking(None) then h
      else h.(holder := FetchTracking(Some(Head(h.log))), conns := StartAt(h.conns, |h.log|))
    case FetchSet =>
      if !(h.holder.FetchTracking? && h.holder.head.Some?) then h
      else h.(cursor := h.holder.head, holder := Reading(h.holder.head.value))
    case FetchRows => Fetched(h, l)
    case FetchOffer => Offered(h, l)
    case FetchAdvance => Advanced(h, l)
    case _ => if s.i < |h.conns| then OnConn(h, l, s) else h
  }

  function Committed<P>(h: Hub<P>, more: seq<Event<P>>): Hub<P> {
    h.(log := h.log + more)
  }

  /** A fetch takes the lock (gateway.py:281-285). It looked for listeners before it waited for the
      lock, so there may be none any more. */
  function Begun<P>(h: Hub<P>): Hub<P> {
    if !h.holder.Nobody? then h
    else if h.cursor.Some? then h.(holder := Reading(h.cursor.value))
    else h.(holder := FetchTracking(None))
  }

  function Fetched<P>(h: Hub<P>, l: Limits): Hub<P> {
    if !h.holder.Reading? then h
    else
      var rows := RowsAfter(h.log, h.holder.cursor, l.fetch);
      if rows == [] then h.(holder := Nobody) else h.(holder := Offering(h.holder.cursor, rows, 0))
  }

  /** The next row, offered to everybody listening now; a row that cannot be read is passed over. */
  function Offered<P>(h: Hub<P>, l: Limits): Hub<P> {
    if !(h.holder.Offering? && h.holder.done < |h.holder.rows|) then h
    else
      var row := h.holder.rows[h.holder.done];
      h.(conns := if row.readable then OfferAll(h.conns, Live(row), l.queue) else h.conns,
         holder := h.holder.(done := h.holder.done + 1))
  }

  function Advanced<P>(h: Hub<P>, l: Limits): Hub<P> {
    if !(h.holder.Offering? && h.holder.rows != [] && h.holder.done == |h.holder.rows|) then h
    else
      var last := h.holder.rows[|h.holder.rows| - 1].seqNo;
      h.(cursor := Some(last), holder := if |h.holder.rows| < l.fetch then Nobody else Reading(last))
  }

  function OnConn<P>(h: Hub<P>, l: Limits, s: Step<P>): Hub<P>
    requires (s.Acquire? || s.ReadTracked? || s.SetTracked? || s.ReadHead? || s.Greet? || s.ReadBatch? || s.SendBatch?
              || s.Send? || s.Notify? || s.Disconnect?) && s.i < |h.conns|
  {
    var c, i := h.conns[s.i], s.i;
    match s
    case Acquire(_) =>
      if !(c.phase.Registered? && h.holder.Nobody?) then h
      else if h.cursor.Some? then h.(conns := h.conns[i := c.(phase := Tracked)])
      else h.(conns := h.conns[i := c.(phase := Tracking)], holder := Tracker(i, None))
    case ReadTracked(_) =>
      if h.holder != Tracker(i, None) then h
      else h.(holder := Tracker(i, Some(Head(h.log))), conns := StartAt(h.conns, |h.log|))
    case SetTracked(_) =>
      if !(h.holder.Tracker? && h.holder.conn == i && h.holder.head.Some?) then h
      else h.(cursor := h.holder.head, holder := Nobody, conns := h.conns[i := c.(phase := Tracked)])
    case ReadHead(_) => if c.phase.Tracked? then h.(conns := h.conns[i := c.(phase := Headed(Head(h.log)))]) else h
    case Greet(_) => if c.phase.Headed? then Leave(h.(conns := h.conns[i := Greeted(h.log, c, c.phase.head, l)])) else h
    case ReadBatch(_) =>
      if c.phase == CatchingUp(None) then h.(conns := h.conns[i := c.(phase := CatchingUp(Some(RowsAfter(h.log, c.lastSent, l.batch))))]) else h
    case SendBatch(_) =>
      if c.phase.CatchingUp? && c.phase.rows.Some? then h.(conns := h.conns[i := BatchSent(c, c.phase.rows.value, l)]) else h
    case Send(_) => if c.phase.Streaming? && c.queue != [] then Leave(h.(conns := h.conns[i := Sent(h.log, c)])) else h
    case Notify(_, droppable) => if c.Open() then h.(conns := h.conns[i := Offer(c, Signal, droppable, l.queue)]) else h
    case Disconnect(_) => if c.Open() && !c.phase.Tracking? then Leave(h.(conns := h.conns[i := c.(phase := Ended)])) else h
  }

  ghost predicate Possible<P>(h: Hub<P>, s: Step<P>) {
    s.Commit? ==> Increasing(h.log + s.more)
  }

  /** The hub after a sequence of steps, in any order. */
  ghost predicate IsRun<P(!new)>(l: Limits, steps: seq<Step<P>>, hubs: seq<Hub<P>>) {
    && |hubs| == |steps| + 1
    && hubs[0] == Hub([], None, [], Nobody)
    && forall k :: 0 <= k < |steps| ==> Possible(hubs[k], steps[k]) && hubs[k + 1] == Next(hubs[k], l, steps[k])
  }
}
