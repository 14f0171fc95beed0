/** A company's event log (backend/autora/runtime/events/outbox.py): committed in seq order, read by
    cursor. Some stored events cannot be read by this process; readers pass over them. */
module EventLog {
  import opened Sequences

  /** `seqNo` is global, so the numbers of one company start above 0 and
      increase, but are not consecutive. */
  datatype Event<P> = Event(seqNo: nat, readable: bool, payload: P)

  ghost predicate Before<P>(log: seq<Event<P>>, i: int, j: int) {
    0 <= i < j < |log| ==> log[i].seqNo < log[j].seqNo
  }

  ghost predicate Increasing<P>(log: seq<Event<P>>) {
    (log != [] ==> log[0].seqNo > 0) && forall i, j {:trigger Before(log, i, j)} :: Before(log, i, j)
  }

  /** The largest seq, 0 when there is none. */
  function Head<P>(log: seq<Event<P>>): nat {
    if log == [] then 0 else log[|log| - 1].seqNo
  }

  /** How many events have a seq up to `x`. */
  function Upto<P>(log: seq<Event<P>>, x: int): (k: nat)
    ensures k <= |log|
  {
    UptoIn(log, x, |log|)
  }

  function UptoIn<P>(log: seq<Event<P>>, x: int, n: nat): (k: nat)
    requires n <= |log|
    ensures k <= n
    ensures k > 0 ==> log[k - 1].seqNo <= x
    ensures forall i {:trigger log[i]} :: k <= i < n ==> log[i].seqNo > x
  {
    if n == 0 || log[n - 1].seqNo <= x then n else UptoIn(log, x, n - 1)
  }

  /** The place splits the log: everything before it is up to `x`, everything after is beyond. */
  lemma UptoSplits<P>(log: seq<Event<P>>, x: int, i: nat)
    requires Increasing(log) && i < |log|
    ensures i < Upto(log, x) <==> log[i].seqNo <= x
  {
    var k: int := Upto(log, x);
    if i < k - 1 { assert Before(log, i, k - 1); }
  }

  lemma UptoIs<P>(log: seq<Event<P>>, x: int, k: nat)
    requires Increasing(log) && k <= |log|
    requires k > 0 ==> log[k - 1].seqNo <= x
    requires k < |log| ==> log[k].seqNo > x
    ensures Upto(log, x) == k
  {
    if k > 0 { UptoSplits(log, x, k - 1); }
    if k < |log| { UptoSplits(log, x, k); }
  }

  lemma UptoHead<P>(log: seq<Event<P>>)
    requires Increasing(log)
    ensures Upto(log, Head(log)) == |log|
  {
  }

  /** A place at an event's own seq is right after the event. */
  lemma UptoAt<P>(log: seq<Event<P>>, i: nat)
    requires Increasing(log) && i < |log|
    ensures Upto(log, log[i].seqNo) == i + 1
  {
    if i + 1 < |log| { assert Before(log, i, i + 1); }
    UptoIs(log, log[i].seqNo, i + 1);
  }

  /** Later commits do not move a place that is not beyond the head. */
  lemma UptoLater<P>(log: seq<Event<P>>, more: seq<Event<P>>, x: int)
    requires Increasing(log + more) && x <= Head(log) && x >= 0
    ensures Increasing(log) && Upto(log + more, x) == Upto(log, x)
  {
    var all, k := log + more, Upto(log, x);
    forall i, j {:trigger Before(log, i, j)} ensures Before(log, i, j) { assert Before(all, i, j); }
    if k > 0 { assert all[k - 1] == log[k - 1]; }
    if k < |log| { assert all[k] == log[k]; }
    else if more != [] && log != [] { assert Before(all, |log| - 1, |log|); }
    assert log != [] ==> all[0] == log[0];
    UptoIs(all, x, k);
  }

  /** At most `limit` events after `x`, in order. */
  function RowsAfter<P>(log: seq<Event<P>>, x: int, limit: nat): (rows: seq<Event<P>>)
    ensures |rows| <= limit
  {
    var k := Upto(log, x);
    log[k..if |log| - k < limit then |log| else k + limit]
  }

  /** The events this process can read, from place `a` up to place `b`. */
  function Between<P>(log: seq<Event<P>>, a: nat, b: nat): seq<Event<P>>
    requires a <= b <= |log|
    decreases b
  {
    if a == b then [] else Between(log, a, b - 1) + if log[b - 1].readable then [log[b - 1]] else []
  }

  function Readable<P>(rows: seq<Event<P>>): seq<Event<P>> { Between(rows, 0, |rows|) }

  lemma {:induction false} BetweenSplit<P>(log: seq<Event<P>>, a: nat, b: nat, c: nat)
    requires a <= b <= c <= |log|
    ensures Between(log, a, c) == Between(log, a, b) + Between(log, b, c)
  {
    if b < c { BetweenSplit(log, a, b, c - 1); }
  }

  /** Only the stretch itself matters. */
  lemma {:induction false} BetweenSame<P>(log: seq<Event<P>>, a: nat, b: nat, other: seq<Event<P>>, c: nat)
    requires a <= b <= |log| && c + (b - a) <= |other|
    requires log[a..b] == other[c..c + (b - a)]
    ensures Between(log, a, b) == Between(other, c, c + (b - a))
  {
    if a < b {
      SameInit(log, a, b, other, c);
      BetweenSame(log, a, b - 1, other, c);
    }
  }

  lemma BetweenOne<P>(log: seq<Event<P>>, a: nat)
    requires a < |log|
    ensures Between(log, a, a + 1) == if log[a].readable then [log[a]] else []
  {
    assert Between(log, a, a) == [];
  }

  lemma {:induction false} BetweenHolds<P>(log: seq<Event<P>>, a: nat, b: nat, e: Event<P>)
    requires a <= b <= |log|
    ensures e in Between(log, a, b) <==> e.readable && exists k :: a <= k < b && log[k] == e
  {
    if a < b { BetweenHolds(log, a, b - 1, e); }
  }

  /** What is left of an increasing log is increasing. */
  lemma {:induction false} BetweenIncreases<P>(log: seq<Event<P>>, a: nat, b: nat)
    requires Increasing(log) && a <= b <= |log|
    ensures Increasing(Between(log, a, b))
    ensures Between(log, a, b) != [] ==> b > 0 && Head(Between(log, a, b)) <= log[b - 1].seqNo
  {
    if a < b {
      var rest, r := Between(log, a, b - 1), Between(log, a, b);
      BetweenIncreases(log, a, b - 1);
      if b > 1 { assert Before(log, b - 2, b - 1); }
      if b > 1 { assert Before(log, 0, b - 1); }
      forall i, j {:trigger Before(r, i, j)} ensures Before(r, i, j) {
        assert Before(rest, i, j) && Before(rest, i, |rest| - 1);
      }
    }
  }
}
