/** What a customer's payments for one product add up to (backend/autora/company/memberships.py:307-335,
    406-419): the stretches of access they bought, and the membership row. */
module Grants {
  import opened Wrappers
  import opened Calendar

  type Time = int

  datatype Ref = Ref(provider: string, external: string)

  datatype Key = Key(customer: string, product: string)

  datatype Payment = Payment(ref: Ref, key: Key, interval: Interval, amount: int, paidAt: Time, from: Time, until: Time)

  datatype Row = Row(startedAt: Time, expiresAt: Time, active: bool)

  /** How an interval is added: always forward. */
  ghost predicate Forward(ends: (Time, Interval) -> Time) {
    forall t, i {:trigger ends(t, i)} :: t < ends(t, i)
  }

  /** The calendar is one. */
  lemma CalendarIsForward()
    ensures Forward((t, i) => Ends(t, i))
  {
    forall t, i ensures t < Ends(t, i) { EndsIsAhead(t, i); }
  }

  // ---- one purchase ------------------------------------------------------------------------------

  predicate Extends(row: Option<Row>, paidAt: Time) {
    row.Some? && row.value.expiresAt > paidAt
  }

  /** Where the stretch of a purchase starts. */
  function From(row: Option<Row>, paidAt: Time): Time {
    if Extends(row, paidAt) then row.value.expiresAt else paidAt
  }

  /** The row after the purchase. */
  function RowAfter(ends: (Time, Interval) -> Time, row: Option<Row>, paidAt: Time, interval: Interval): Row {
    Row(if Extends(row, paidAt) then row.value.startedAt else paidAt, ends(From(row, paidAt), interval), true)
  }

  // ---- a history of purchases --------------------------------------------------------------------

  predicate Covers(p: Payment, t: Time) {
    p.from <= t < p.until
  }

  ghost predicate Covered(ps: seq<Payment>, t: Time) {
    exists i :: 0 <= i < |ps| && Covers(ps[i], t)
  }

  /** The payment bought while the one before it still ran. */
  predicate Continues(ps: seq<Payment>, i: int)
    requires 0 <= i < |ps|
  {
    i > 0 && ps[i - 1].until > ps[i].paidAt
  }

  ghost predicate GrantOk(ends: (Time, Interval) -> Time, ps: seq<Payment>, i: int) {
    0 <= i < |ps| ==>
      && ps[i].from == (if Continues(ps, i) then ps[i - 1].until else ps[i].paidAt)
      && ps[i].until == ends(ps[i].from, ps[i].interval)
  }

  /** Every payment starts where the one before it ends, or when it was paid if nothing ran then. */
  ghost predicate Granted(ends: (Time, Interval) -> Time, ps: seq<Payment>) {
    forall i {:trigger GrantOk(ends, ps, i)} :: GrantOk(ends, ps, i)
  }

  /** Where the last row of continued stretches begins. */
  function RunStart(ps: seq<Payment>): (k: nat)
    requires ps != []
    ensures k < |ps|
  {
    var last := |ps| - 1;
    if Continues(ps, last) then RunStart(ps[..last]) else last
  }

  /** What the row ought to be: from the start of the last continued stretches to their end. */
  ghost predicate Matches(row: Option<Row>, ps: seq<Payment>) {
    if ps == [] then row == None
    else row.Some? && row.value.startedAt == ps[RunStart(ps)].from && row.value.expiresAt == ps[|ps| - 1].until
  }

  function Paid(ends: (Time, Interval) -> Time, row: Option<Row>, ref: Ref, key: Key, interval: Interval, amount: int, paidAt: Time): Payment {
    Payment(ref, key, interval, amount, paidAt, From(row, paidAt), ends(From(row, paidAt), interval))
  }

  lemma GrantedPrefix(ends: (Time, Interval) -> Time, ps: seq<Payment>, k: nat)
    requires Granted(ends, ps) && k <= |ps|
    ensures Granted(ends, ps[..k])
  {
    forall i {:trigger GrantOk(ends, ps[..k], i)} ensures GrantOk(ends, ps[..k], i) { assert GrantOk(ends, ps, i); }
  }

  /** A purchase keeps the row what it ought to be. */
  lemma PurchaseMatches(ends: (Time, Interval) -> Time, row: Option<Row>, ps: seq<Payment>, ref: Ref, key: Key, interval: Interval, amount: int, paidAt: Time)
    requires Granted(ends, ps) && Matches(row, ps)
    ensures var p := Paid(ends, row, ref, key, interval, amount, paidAt);
            Granted(ends, ps + [p]) && Matches(Some(RowAfter(ends, row, paidAt, interval)), ps + [p])
  {
    var p := Paid(ends, row, ref, key, interval, amount, paidAt);
    var n := |ps|;
    assert (ps + [p])[..n] == ps;
    forall i {:trigger GrantOk(ends, ps + [p], i)} ensures GrantOk(ends, ps + [p], i) { assert GrantOk(ends, ps, i); }
  }

  // ---- what the stretches are --------------------------------------------------------------------

  /** Each stretch has some length. */
  lemma StretchIsForward(ends: (Time, Interval) -> Time, ps: seq<Payment>, i: nat)
    requires Forward(ends) && Granted(ends, ps) && i < |ps|
    ensures ps[i].from < ps[i].until && ps[i].paidAt <= ps[i].from
  {
    assert GrantOk(ends, ps, i);
  }

  lemma {:induction false} StretchesFollow(ends: (Time, Interval) -> Time, ps: seq<Payment>, i: nat, j: nat)
    requires Forward(ends) && Granted(ends, ps) && i < j < |ps|
    ensures ps[i].until <= ps[j].from
    decreases j
  {
    assert GrantOk(ends, ps, j);
    if i + 1 < j {
      StretchesFollow(ends, ps, i, j - 1);
      StretchIsForward(ends, ps, j - 1);
    }
  }

  /** No moment is paid for twice. */
  lemma StretchesAreDisjoint(ends: (Time, Interval) -> Time, ps: seq<Payment>, i: nat, j: nat, t: Time)
    requires Forward(ends) && Granted(ends, ps) && i < |ps| && j < |ps| && Covers(ps[i], t) && Covers(ps[j], t)
    ensures i == j
  {
    if i < j { StretchesFollow(ends, ps, i, j); } else if j < i { StretchesFollow(ends, ps, j, i); }
  }

  lemma {:induction false} RunIsContiguous(ps: seq<Payment>, i: nat)
    requires ps != [] && RunStart(ps) < i < |ps|
    ensures Continues(ps, i)
    decreases |ps|
  {
    var last := |ps| - 1;
    if i < last { RunIsContiguous(ps[..last], i); }
  }

  lemma {:induction false} RunStartsAtPayment(ps: seq<Payment>)
    requires ps != []
    ensures !Continues(ps, RunStart(ps))
    decreases |ps|
  {
    var last := |ps| - 1;
    if Continues(ps, last) { RunStartsAtPayment(ps[..last]); }
  }

  lemma {:induction false} RunCovers(ends: (Time, Interval) -> Time, ps: seq<Payment>, t: Time, n: nat) returns (i: nat)
    requires Granted(ends, ps) && ps != [] && RunStart(ps) < n <= |ps| && ps[RunStart(ps)].from <= t < ps[n - 1].until
    ensures RunStart(ps) <= i < n && Covers(ps[i], t)
    decreases n
  {
    i := n - 1;
    if t < ps[i].from && RunStart(ps) < i {
      RunIsContiguous(ps, i);
      assert GrantOk(ends, ps, i);
      i := RunCovers(ends, ps, t, n - 1);
    }
  }

  /** Some stretch of the last run covers the moment. */
  ghost predicate InLastRun(ps: seq<Payment>, t: Time)
    requires ps != []
  {
    exists i :: RunStart(ps) <= i < |ps| && Covers(ps[i], t)
  }

  lemma RunIsWithin(ends: (Time, Interval) -> Time, ps: seq<Payment>, i: nat, t: Time)
    requires Forward(ends) && Granted(ends, ps) && ps != [] && RunStart(ps) <= i < |ps| && Covers(ps[i], t)
    ensures ps[RunStart(ps)].from <= t < ps[|ps| - 1].until
  {
    var k := RunStart(ps);
    if k < i { StretchesFollow(ends, ps, k, i); StretchIsForward(ends, ps, k); }
    NothingAfterTheRow(ends, ps, i);
  }

  lemma RunIsItsUnion(ends: (Time, Interval) -> Time, ps: seq<Payment>, t: Time)
    requires Forward(ends) && Granted(ends, ps) && ps != []
    ensures ps[RunStart(ps)].from <= t < ps[|ps| - 1].until <==> InLastRun(ps, t)
  {
    if ps[RunStart(ps)].from <= t < ps[|ps| - 1].until {
      var i := RunCovers(ends, ps, t, |ps|);
    }
    if InLastRun(ps, t) {
      var i :| RunStart(ps) <= i < |ps| && Covers(ps[i], t);
      RunIsWithin(ends, ps, i, t);
    }
  }

  /** The row is the union of the last continued stretches: they follow each other without a gap from
      the start of the row, when the first was paid, to its end; what was bought before ended before. */
  lemma RowIsTheLastRun(ends: (Time, Interval) -> Time, row: Option<Row>, ps: seq<Payment>, t: Time)
    requires Forward(ends) && Granted(ends, ps) && Matches(row, ps) && ps != []
    ensures row.value.startedAt == ps[RunStart(ps)].paidAt
    ensures forall i :: RunStart(ps) < i < |ps| ==> ps[i].from == ps[i - 1].until
    ensures forall i :: 0 <= i < RunStart(ps) ==> ps[i].until <= row.value.startedAt
    ensures row.value.startedAt <= t < row.value.expiresAt <==> InLastRun(ps, t)
  {
    var k := RunStart(ps);
    RunStartsAtPayment(ps);
    assert GrantOk(ends, ps, k);
    forall i | k < i < |ps| ensures ps[i].from == ps[i - 1].until {
      RunIsContiguous(ps, i);
      assert GrantOk(ends, ps, i);
    }
    forall i | 0 <= i < k ensures ps[i].until <= row.value.startedAt { StretchesFollow(ends, ps, i, k); }
    RunIsItsUnion(ends, ps, t);
  }

  /** May they read it? */
  predicate HasAccess(row: Option<Row>, t: Time) {
    row.Some? && row.value.expiresAt > t
  }

  lemma NothingAfterTheRow(ends: (Time, Interval) -> Time, ps: seq<Payment>, i: nat)
    requires Forward(ends) && Granted(ends, ps) && i < |ps|
    ensures ps[i].until <= ps[|ps| - 1].until
  {
    var last := |ps| - 1;
    if i < last { StretchesFollow(ends, ps, i, last); StretchIsForward(ends, ps, last); }
  }

  /** Asking the row is asking whether some payment covers the moment, from the start of the row on. */
  lemma AccessIsCoverage(ends: (Time, Interval) -> Time, row: Option<Row>, ps: seq<Payment>, t: Time)
    requires Forward(ends) && Granted(ends, ps) && Matches(row, ps) && (ps != [] ==> row.value.startedAt <= t)
    ensures HasAccess(row, t) <==> Covered(ps, t)
  {
    if ps != [] {
      RowIsTheLastRun(ends, row, ps, t);
      if Covered(ps, t) {
        var i :| 0 <= i < |ps| && Covers(ps[i], t);
        NothingAfterTheRow(ends, ps, i);
      }
    }
  }

  /** The row says yes exactly where some payment covers the moment, and everywhere before its start. */
  lemma AccessIs(ends: (Time, Interval) -> Time, row: Option<Row>, ps: seq<Payment>, t: Time)
    requires Forward(ends) && Granted(ends, ps) && Matches(row, ps)
    ensures HasAccess(row, t) <==> Covered(ps, t) || (row.Some? && t < row.value.startedAt)
  {
    if ps != [] && t < row.value.startedAt {
      var k := RunStart(ps);
      StretchIsForward(ends, ps, k);
      NothingAfterTheRow(ends, ps, k);
    } else {
      AccessIsCoverage(ends, row, ps, t);
    }
  }

  /** At the time of every payment or later, whoever has access is covered and the other way round. */
  lemma AccessAfterThePayments(ends: (Time, Interval) -> Time, row: Option<Row>, ps: seq<Payment>, t: Time)
    requires Forward(ends) && Granted(ends, ps) && Matches(row, ps) && forall i :: 0 <= i < |ps| ==> ps[i].paidAt <= t
    ensures HasAccess(row, t) <==> Covered(ps, t)
  {
    if ps != [] { RowIsTheLastRun(ends, row, ps, t); }
    AccessIsCoverage(ends, row, ps, t);
  }

  /** The row as it was at a past moment: the purchases up to then, and nothing else, replayed. */
  function Replayed(ends: (Time, Interval) -> Time, ps: seq<Payment>): Option<Row> {
    if ps == [] then None
    else
      var last := ps[|ps| - 1];
      Some(RowAfter(ends, Replayed(ends, ps[..|ps| - 1]), last.paidAt, last.interval))
  }

  lemma {:induction false} ReplayedMatches(ends: (Time, Interval) -> Time, ps: seq<Payment>)
    requires Granted(ends, ps)
    ensures Matches(Replayed(ends, ps), ps)
    decreases |ps|
  {
    if ps != [] {
      var n := |ps| - 1;
      var p := ps[n];
      GrantedPrefix(ends, ps, n);
      ReplayedMatches(ends, ps[..n]);
      var row := Replayed(ends, ps[..n]);
      PurchaseMatches(ends, row, ps[..n], p.ref, p.key, p.interval, p.amount, p.paidAt);
      assert GrantOk(ends, ps, n);
      assert p == Paid(ends, row, p.ref, p.key, p.interval, p.amount, p.paidAt);
      assert ps == ps[..n] + [p];
    }
  }

  /** The payments made by a moment. */
  function PaidBy(ps: seq<Payment>, until: Time): (r: seq<Payment>) {
    if ps == [] then []
    else PaidBy(ps[..|ps| - 1], until) + if ps[|ps| - 1].paidAt <= until then [ps[|ps| - 1]] else []
  }

  lemma {:induction false} PaidByIn(ps: seq<Payment>, until: Time, p: Payment)
    ensures p in PaidBy(ps, until) <==> p in ps && p.paidAt <= until
  {
    if ps != [] {
      PaidByIn(ps[..|ps| - 1], until, p);
      assert ps == ps[..|ps| - 1] + [ps[|ps| - 1]];
    }
  }

  /** The payments that had come in before the first one that was made later. */
  function Prompt(ps: seq<Payment>, t: Time): (r: seq<Payment>)
    ensures r <= ps && (forall i {:trigger r[i]} :: 0 <= i < |r| ==> r[i].paidAt <= t)
    ensures |r| < |ps| ==> ps[|r|].paidAt > t
  {
    if ps == [] || ps[0].paidAt > t then [] else [ps[0]] + Prompt(ps[1..], t)
  }

  /** A payment made by a moment came in after one that was made later. */
  ghost predicate Late(ps: seq<Payment>, t: Time) {
    exists i, j {:trigger ps[i], ps[j]} :: 0 <= i < j < |ps| && ps[j].paidAt <= t < ps[i].paidAt
  }

  /** What came in late was granted only after the moment it was paid for. */
  lemma LateIsLater(ends: (Time, Interval) -> Time, ps: seq<Payment>, t: Time, i: nat, j: nat)
    requires Forward(ends) && Granted(ends, ps) && i < j < |ps| && t < ps[i].paidAt
    ensures t < ps[j].from < ps[j].until
  {
    StretchIsForward(ends, ps, i);
    StretchIsForward(ends, ps, j);
    StretchesFollow(ends, ps, i, j);
  }

  lemma PromptOrLate(ps: seq<Payment>, t: Time, i: nat)
    requires i < |ps| && ps[i].paidAt <= t
    ensures i < |Prompt(ps, t)| || (|Prompt(ps, t)| < i && t < ps[|Prompt(ps, t)|].paidAt && Late(ps, t))
  {
  }

  /** Only payments that came in promptly cover a moment. */
  lemma CoveredByPrompt(ends: (Time, Interval) -> Time, ps: seq<Payment>, t: Time)
    requires Forward(ends) && Granted(ends, ps)
    ensures Covered(PaidBy(ps, t), t) <==> Covered(Prompt(ps, t), t)
  {
    var all, prompt := PaidBy(ps, t), Prompt(ps, t);
    forall k | 0 <= k < |all| && Covers(all[k], t) ensures Covered(prompt, t) {
      assert all[k] in all;
      PaidByIn(ps, t, all[k]);
      var i :| 0 <= i < |ps| && ps[i] == all[k];
      PromptOrLate(ps, t, i);
      if i >= |prompt| { LateIsLater(ends, ps, t, |prompt|, i); }
      assert prompt[i] == ps[i];
    }
    forall i | 0 <= i < |prompt| && Covers(prompt[i], t) ensures Covered(all, t) {
      assert prompt[i] == ps[i];
      PaidByIn(ps, t, ps[i]);
      var k :| 0 <= k < |all| && all[k] == ps[i];
    }
  }

  /** In whatever order payments came in: at any past moment those made by then cover it exactly when the
      row gave access that had been reached by what had come in promptly. */
  lemma PastAccessIsCoverage(ends: (Time, Interval) -> Time, ps: seq<Payment>, t: Time)
    requires Forward(ends) && Granted(ends, ps)
    ensures Covered(PaidBy(ps, t), t) <==> HasAccess(Replayed(ends, Prompt(ps, t)), t)
  {
    var prompt := Prompt(ps, t);
    CoveredByPrompt(ends, ps, t);
    assert prompt == ps[..|prompt|];
    GrantedPrefix(ends, ps, |prompt|);
    ReplayedMatches(ends, prompt);
    AccessAfterThePayments(ends, Replayed(ends, prompt), prompt, t);
  }

  /** Where nothing came in late, that is the row replayed from all payments made by then. */
  lemma NothingLate(ps: seq<Payment>, t: Time)
    requires !Late(ps, t)
    ensures PaidBy(ps, t) == Prompt(ps, t)
  {
    var n := |Prompt(ps, t)|;
    forall i | n <= i < |ps| ensures ps[i].paidAt > t { if ps[i].paidAt <= t { PromptOrLate(ps, t, i); } }
    PaidByIsThePrefix(ps, t, n);
  }

  lemma {:induction false} PaidByIsThePrefix(ps: seq<Payment>, t: Time, n: nat)
    requires n <= |ps| && (forall i :: 0 <= i < n ==> ps[i].paidAt <= t) && forall i :: n <= i < |ps| ==> ps[i].paidAt > t
    ensures PaidBy(ps, t) == ps[..n]
    decreases |ps|
  {
    if ps != [] {
      var last := |ps| - 1;
      if n == |ps| {
        PaidByIsThePrefix(ps[..last], t, last);
        assert ps[..n] == ps[..last] + [ps[last]] && ps[..last][..last] == ps[..last];
      } else {
        PaidByIsThePrefix(ps[..last], t, n);
        assert ps[..last][..n] == ps[..n];
      }
    }
  }

  // ---- replaying everything that was paid --------------------------------------------------------

  lemma {:induction false} PaidByGrows(ps: seq<Payment>, t: Time, n: nat)
    requires n <= |ps|
    ensures PaidBy(ps[..n], t) <= PaidBy(ps, t)
    decreases |ps|
  {
    if n == |ps| {
      assert ps[..n] == ps;
    } else {
      PaidByGrows(ps[..|ps| - 1], t, n);
      assert ps[..|ps| - 1][..n] == ps[..n];
    }
  }

  lemma PromptComesFirst(ps: seq<Payment>, t: Time)
    ensures Prompt(ps, t) <= PaidBy(ps, t)
  {
    var n := |Prompt(ps, t)|;
    forall i | 0 <= i < n ensures ps[..n][i].paidAt <= t { assert Prompt(ps, t)[i] == ps[i]; }
    PaidByIsThePrefix(ps[..n], t, n);
    PaidByGrows(ps, t, n);
    assert ps[..n][..n] == Prompt(ps, t);
  }

  /** The stretches the payments would have been granted, had nothing else come in between them. */
  function Regranted(ends: (Time, Interval) -> Time, ps: seq<Payment>): (r: seq<Payment>)
    ensures |r| == |ps|
  {
    if ps == [] then []
    else
      var init, p := ps[..|ps| - 1], ps[|ps| - 1];
      Regranted(ends, init) + [Paid(ends, Replayed(ends, init), p.ref, p.key, p.interval, p.amount, p.paidAt)]
  }

  lemma {:induction false} RegrantedIsReplayed(ends: (Time, Interval) -> Time, ps: seq<Payment>)
    ensures Granted(ends, Regranted(ends, ps)) && Matches(Replayed(ends, ps), Regranted(ends, ps))
    ensures forall i :: 0 <= i < |ps| ==> Regranted(ends, ps)[i].paidAt == ps[i].paidAt
    decreases |ps|
  {
    if ps != [] {
      var init, p := ps[..|ps| - 1], ps[|ps| - 1];
      RegrantedIsReplayed(ends, init);
      PurchaseMatches(ends, Replayed(ends, init), Regranted(ends, init), p.ref, p.key, p.interval, p.amount, p.paidAt);
    }
  }

  lemma {:induction false} RegrantedPrefix(ends: (Time, Interval) -> Time, ps: seq<Payment>, n: nat)
    requires n <= |ps|
    ensures Regranted(ends, ps[..n]) == Regranted(ends, ps)[..n]
    decreases |ps|
  {
    if n == |ps| {
      assert ps[..n] == ps;
    } else {
      RegrantedPrefix(ends, ps[..|ps| - 1], n);
      assert ps[..|ps| - 1][..n] == ps[..n];
    }
  }

  /** The row replayed from payments made by the moment gives access exactly where one of them would
      have been granted the moment. */
  lemma ReplayedIsRegranted(ends: (Time, Interval) -> Time, ps: seq<Payment>, t: Time)
    requires Forward(ends) && forall i :: 0 <= i < |ps| ==> ps[i].paidAt <= t
    ensures HasAccess(Replayed(ends, ps), t) <==> Covered(Regranted(ends, ps), t)
  {
    RegrantedIsReplayed(ends, ps);
    AccessAfterThePayments(ends, Replayed(ends, ps), Regranted(ends, ps), t);
  }

  lemma PaidByAreMade(ps: seq<Payment>, t: Time)
    ensures forall i :: 0 <= i < |PaidBy(ps, t)| ==> PaidBy(ps, t)[i].paidAt <= t
  {
    forall i | 0 <= i < |PaidBy(ps, t)| ensures PaidBy(ps, t)[i].paidAt <= t { PaidByIn(ps, t, PaidBy(ps, t)[i]); }
  }

  /** A late payment would have been granted the moment, had it come in right behind the prompt ones. */
  ghost predicate LateCovers(ends: (Time, Interval) -> Time, ps: seq<Payment>, t: Time) {
    exists i :: |Prompt(ps, t)| <= i < |PaidBy(ps, t)| && Covers(Regranted(ends, PaidBy(ps, t))[i], t)
  }

  /** Of the stretches the first `n` cover the moment, or one of the others does, never both. */
  lemma CoveredEitherWay(ends: (Time, Interval) -> Time, ps: seq<Payment>, n: nat, t: Time)
    requires Forward(ends) && Granted(ends, ps) && n <= |ps|
    ensures Covered(ps, t) <==> Covered(ps[..n], t) || exists i :: n <= i < |ps| && Covers(ps[i], t)
    ensures Covered(ps[..n], t) ==> forall i :: n <= i < |ps| ==> !Covers(ps[i], t)
  {
    if Covered(ps[..n], t) {
      var i :| 0 <= i < n && Covers(ps[..n][i], t);
      assert Covers(ps[i], t);
      forall j | n <= j < |ps| ensures !Covers(ps[j], t) { if Covers(ps[j], t) { StretchesAreDisjoint(ends, ps, i, j, t); } }
    }
    if i :| 0 <= i < |ps| && Covers(ps[i], t) { if i < n { assert Covers(ps[..n][i], t); } }
  }

  /** What replaying everything adds to the row that had been reached. */
  lemma ReplayingAddsLate(ends: (Time, Interval) -> Time, ps: seq<Payment>, t: Time)
    requires Forward(ends)
    ensures HasAccess(Replayed(ends, PaidBy(ps, t)), t) <==> HasAccess(Replayed(ends, Prompt(ps, t)), t) || LateCovers(ends, ps, t)
    ensures !(HasAccess(Replayed(ends, Prompt(ps, t)), t) && LateCovers(ends, ps, t))
  {
    var all, n := PaidBy(ps, t), |Prompt(ps, t)|;
    PromptComesFirst(ps, t);
    assert all[..n] == Prompt(ps, t);
    RegrantedPrefix(ends, all, n);
    RegrantedIsReplayed(ends, all);
    PaidByAreMade(ps, t);
    ReplayedIsRegranted(ends, all, t);
    ReplayedIsRegranted(ends, Prompt(ps, t), t);
    CoveredEitherWay(ends, Regranted(ends, all), n, t);
  }

  /** Replaying every payment made by a moment is right about it exactly when no late one of them would
      have been granted the moment. It errs by giving access nobody paid for, never by taking it away:
      after the row that had been reached has run out, where the late payments reach past the moment. */
  lemma ReplayingAllIsRightIff(ends: (Time, Interval) -> Time, ps: seq<Payment>, t: Time)
    requires Forward(ends) && Granted(ends, ps)
    ensures var right := HasAccess(Replayed(ends, PaidBy(ps, t)), t) <==> Covered(PaidBy(ps, t), t);
            && (right <==> !LateCovers(ends, ps, t))
            && (right <==> HasAccess(Replayed(ends, Prompt(ps, t)), t) || !HasAccess(Replayed(ends, PaidBy(ps, t)), t))
            && (!Late(ps, t) ==> right)
    ensures Covered(PaidBy(ps, t), t) ==> HasAccess(Replayed(ends, PaidBy(ps, t)), t)
  {
    PastAccessIsCoverage(ends, ps, t);
    ReplayingAddsLate(ends, ps, t);
    if !Late(ps, t) { NothingLate(ps, t); }
  }
}
