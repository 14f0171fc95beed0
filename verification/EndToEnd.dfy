/** From the rows to the client's picture, through the gateway. */
module EndToEnd {
  import opened Wrappers
  import opened Sequences
  import opened Tasks
  import opened Rows
  import opened EventLog
  import opened Gateway
  import opened GatewayInvariant
  import opened GatewayResults
  import opened Events
  import opened Reducer
  import opened Projection
  import opened Mirror

  /** The part of the delivered stream that belongs to the transactions up to `m`. */
  function UpToTransaction(logs: seq<seq<Entry>>, log: seq<Entry>, k: nat, m: nat): seq<Entry>
    requires k <= m < |logs| && |logs[k]| <= |logs[m]| <= |log|
  {
    Between(log, |logs[k]|, |logs[m]|)
  }

  lemma SameStretch(small: seq<Entry>, log: seq<Entry>, a: nat)
    requires small <= log && a <= |small|
    ensures Readable(small[a..]) == Between(log, a, |small|)
  {
    assert small[a..][0..|small[a..]|] == log[a..|small|];
    BetweenSame(small[a..], 0, |small[a..]|, log, a);
  }

  lemma HeadPlace(small: seq<Entry>, log: seq<Entry>)
    requires Increasing(log) && small <= log
    ensures Upto(log, Head(small)) == |small|
  {
    if small != [] { UptoAt(log, |small| - 1); } else { UptoIs(log, 0, 0); }
  }

  lemma LogIncreases(l: Limits, turns: seq<Gateway.Step<Fact>>, hubs: seq<Hub<Fact>>, h: nat)
    requires Positive(l) && IsRun(l, turns, hubs) && h < |hubs|
    ensures Increasing(hubs[h].log)
  {
    RunKeeps(l, turns, hubs, h);
  }

  /** What was delivered since a snapshot starts with the events of the transactions sent in full. */
  lemma SentTransactions(log: seq<Entry>, delivered: seq<Entry>, end: nat, small: seq<Entry>, big: seq<Entry>)
    requires small <= big <= log && |big| <= end <= |log| && delivered == Between(log, |small|, end)
    ensures Between(log, |small|, |big|) <= delivered
    ensures |big| == end ==> Between(log, |small|, |big|) == delivered
  {
    BetweenSplit(log, |small|, |big|, end);
  }

  /** The client applies the same events, whether they are cut from the log of the transaction or
      from a longer one. */
  lemma ToldIsApplied(companies: seq<Company>, logs: seq<seq<Entry>>, log: seq<Entry>, k: nat, m: nat, now0: Time)
    requires k <= m < |companies| == |logs| && logs[k] <= logs[m] <= log
    ensures Fold(Snapshot(companies[k], logs[k], now0), UpToTransaction(logs, log, k, m)) == ClientAt(companies, logs, k, m, now0)
  {
    SameStretch(logs[m], log, |logs[k]|);
  }

  /** A client hydrates from the snapshot of transaction `k`, connects with `since` its last seq and
      applies what the gateway delivers. As soon as the events of transaction `m` have been sent,
      however commits, fetches, the backlog and the other sockets were interleaved, the client has
      held exactly what the server reads from its rows after transaction `m`, for every `m` it has
      been sent so far. */
  lemma ClientHoldsTheProjection(
    set': Settings, steps: seq<CompanyStep>, companies: seq<Company>, logs: seq<seq<Entry>>,
    l: Limits, turns: seq<Gateway.Step<Fact>>, hubs: seq<Hub<Fact>>, h: nat, i: nat,
    k: nat, m: nat, now0: Time, now: Time)
    requires IsHistory(set', steps, companies, logs) && k <= m < |logs| && now0 <= now
    requires Positive(l) && IsRun(l, turns, hubs) && h < |hubs| && i < |hubs[h].conns|
    requires hubs[h].log == logs[|logs| - 1]
    requires hubs[h].conns[i].since == Some(Head(logs[k]))
    requires hubs[h].conns[i].delivered != [] || hubs[h].conns[i].phase.CatchingUp? || hubs[h].conns[i].phase.Streaming?
    requires |logs[m]| <= Upto(hubs[h].log, hubs[h].conns[i].lastSent)
    ensures |logs[k]| <= |logs[m]| <= |hubs[h].log|
    ensures var told, sent := UpToTransaction(logs, hubs[h].log, k, m), hubs[h].conns[i].delivered;
            && told <= sent
            && ViewAt(Fold(Snapshot(companies[k], logs[k], now0), told), now).tasks == Snapshot(companies[m], logs[m], now).tasks
            && Fold(Snapshot(companies[k], logs[k], now0), told).cycle == Snapshot(companies[m], logs[m], now).cycle
            && EndsWith(Fold(Snapshot(companies[k], logs[k], now0), told).recent, Snapshot(companies[m], logs[m], now).recent)
            && ((forall e :: e in Last(logs[m], RECENT) ==> e.readable) ==>
                  Fold(Snapshot(companies[k], logs[k], now0), told).recent == Snapshot(companies[m], logs[m], now).recent)
            && (|logs[m]| == Upto(hubs[h].log, hubs[h].conns[i].lastSent) ==> told == sent)
  {
    LogsGrow(set', steps, companies, logs, k, m);
    LogsGrow(set', steps, companies, logs, m, |logs| - 1);
    DeliveredIsTheLog(l, turns, hubs, h, i);
    LogIncreases(l, turns, hubs, h);
    HeadPlace(logs[k], hubs[h].log);
    SentTransactions(hubs[h].log, hubs[h].conns[i].delivered, Upto(hubs[h].log, hubs[h].conns[i].lastSent), logs[k], logs[m]);
    ToldIsApplied(companies, logs, hubs[h].log, k, m, now0);
    ReducerAgreesWithProjection(set', steps, companies, logs, k, m, now0, now);
  }

  // ---- reconnecting ----------------------------------------------------------------------------

  /** Events up to place `b` were applied; those of a later connection that overlap change nothing,
      the others go on from there. */
  lemma OverlapIsHarmless(p: Picture, log: seq<Entry>, a: nat, b: nat, c: nat, d: nat)
    requires Increasing(log) && c <= b && a <= b <= |log| && c <= d <= |log|
    requires (forall j :: 0 <= j < a ==> log[j].seqNo <= p.lastSeq) && (forall j :: a <= j < |log| ==> log[j].seqNo > p.lastSeq)
    ensures Fold(Fold(p, Between(log, a, b)), Between(log, c, d)) == Fold(p, Between(log, a, if d <= b then b else d))
  {
    var q := Fold(p, Between(log, a, b));
    var e := if d <= b then d else b;
    BetweenSplit(log, c, e, d);
    FoldJoin(q, Between(log, c, e), Between(log, e, d));
    forall j | 0 <= j < |Between(log, c, e)| ensures Between(log, c, e)[j].seqNo <= q.lastSeq {
      AppliedBefore(p, log, a, b, c, e, Between(log, c, e)[j]);
    }
    RepeatsAreIgnored(q, Between(log, c, e));
    if d > b {
      BetweenSplit(log, a, b, d);
      FoldJoin(p, Between(log, a, b), Between(log, b, d));
    }
  }

  lemma LastSeqOf(p: Picture, log: seq<Entry>, a: nat, b: nat)
    requires Increasing(log) && a <= b <= |log| && forall j :: a <= j < |log| ==> log[j].seqNo > p.lastSeq
    ensures var told := Between(log, a, b);
            Increasing(told) && Fold(p, told).lastSeq == if told == [] then p.lastSeq else told[|told| - 1].seqNo
    ensures p.lastSeq <= Fold(p, Between(log, a, b)).lastSeq
  {
    var told := Between(log, a, b);
    BetweenIncreases(log, a, b);
    if told != [] {
      BetweenHolds(log, a, b, told[0]);
      FoldByTask(p, told, (0, 0));
      if |told| > 1 { assert Before(told, 0, |told| - 1); }
    }
  }

  lemma IsToldBefore(log: seq<Entry>, a: nat, b: nat, j: nat)
    requires Increasing(log) && a <= j < b <= |log| && log[j].readable
    ensures var told := Between(log, a, b); told != [] && log[j].seqNo <= told[|told| - 1].seqNo
  {
    var told := Between(log, a, b);
    BetweenIncreases(log, a, b);
    BetweenHolds(log, a, b, log[j]);
    var n :| 0 <= n < |told| && told[n] == log[j];
    assert Before(told, n, |told| - 1);
  }

  lemma AppliedBefore(p: Picture, log: seq<Entry>, a: nat, b: nat, c: nat, e: nat, x: Entry)
    requires Increasing(log) && c <= e <= b && a <= b <= |log| && x in Between(log, c, e)
    requires (forall j :: 0 <= j < a ==> log[j].seqNo <= p.lastSeq) && (forall j :: a <= j < |log| ==> log[j].seqNo > p.lastSeq)
    ensures x.seqNo <= Fold(p, Between(log, a, b)).lastSeq
  {
    BetweenHolds(log, c, e, x);
    var j: nat :| c <= j < e && log[j] == x;
    LastSeqOf(p, log, a, b);
    if j >= a { IsToldBefore(log, a, b, j); }
  }
}
