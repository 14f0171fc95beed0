/** What a settlement books, project by project, and which calls it counts
    (backend/autora/company/ledger.py:186-262). */
module Settlements {
  import opened Wrappers
  import opened Sequences
  import opened Money
  import opened Ledgers

  /** The expense of one project: in dollars where they are the base, at the rate of the dollar otherwise,
      at most half a millionth off and the even one of two. */
  ghost predicate Books(fx: Fx, t: Transaction, cycle: string, project: Option<string>, cost: int) {
    && t.kind == Expense && t.project == project && t.key == CycleCost(cycle, project) && 0 < t.amount
    && if fx.base == "USD" then t.amount == cost && t.sourceAmount.None? && t.rate.None?
       else
         && "USD" in fx.rates && t.rate == Some(fx.rates["USD"]) && t.sourceAmount == Some(cost)
         && var (num, den) := (fx.rates["USD"].num, fx.rates["USD"].den);
            && 0 < num && 2 * Abs(t.amount * den - cost * num) <= den
            && (2 * Abs(t.amount * den - cost * num) == den ==> t.amount % 2 == 0)
  }

  lemma RecordBooks(fx: Fx, rows: seq<Transaction>, cycle: string, project: Option<string>, cost: nat)
    requires Record(fx, rows, Expense, project, cost, METER, CycleCost(cycle, project)).Ok?
    ensures var (rows', posted) := Record(fx, rows, Expense, project, cost, METER, CycleCost(cycle, project)).value;
            && (posted.None? <==> exists i :: 0 <= i < |rows| && rows[i].key == CycleCost(cycle, project))
            && (posted.None? ==> rows' == rows)
            && (posted.Some? ==> rows' == rows + [posted.value] && Books(fx, posted.value, cycle, project, cost))
  {
    if fx.base != METER && RateOf(fx, METER).Some? {
      HalfEvenIsNear(cost * fx.rates[METER].num, fx.rates[METER].den);
    }
  }

  ghost predicate HasKey(rows: seq<Transaction>, key: Key) {
    exists i :: 0 <= i < |rows| && rows[i].key == key
  }

  /** A project with a cost that no row of the ledger is booked under yet. */
  ghost predicate ToBook(rows: seq<Transaction>, cycle: string, calls: seq<Call>, project: Option<string>) {
    CostOf(calls, cycle, project) > 0 && !HasKey(rows, CycleCost(cycle, project))
  }

  ghost predicate BookedFor(fx: Fx, rows: seq<Transaction>, cycle: string, calls: seq<Call>, projects: seq<Option<string>>, t: Transaction) {
    t.project in projects && ToBook(rows, cycle, calls, t.project) && Books(fx, t, cycle, t.project, CostOf(calls, cycle, t.project))
  }

  ghost predicate IsBooked(written: seq<Transaction>, project: Option<string>) {
    exists t :: t in written && t.project == project
  }

  ghost predicate SettledAsIs(fx: Fx, rows: seq<Transaction>, cycle: string, calls: seq<Call>, projects: seq<Option<string>>, s: Settled) {
    && s.rows == rows + s.written
    && (forall t {:trigger t in s.written} :: t in s.written ==> BookedFor(fx, rows, cycle, calls, projects, t))
    && (forall p {:trigger IsBooked(s.written, p)} :: p in projects ==> (IsBooked(s.written, p) <==> ToBook(rows, cycle, calls, p)))
    && (s.skipped <==> exists p :: p in projects && CostOf(calls, cycle, p) > 0 && HasKey(rows, CycleCost(cycle, p)))
    && s.total == Sum(Costs(calls, cycle, projects))
  }

  lemma KeyIsNew(fx: Fx, rows: seq<Transaction>, cycle: string, calls: seq<Call>, projects: seq<Option<string>>, s: Settled, p: Option<string>)
    requires SettledAsIs(fx, rows, cycle, calls, projects, s) && p !in projects
    ensures HasKey(s.rows, CycleCost(cycle, p)) <==> HasKey(rows, CycleCost(cycle, p))
  {
    if HasKey(rows, CycleCost(cycle, p)) {
      var i :| 0 <= i < |rows| && rows[i].key == CycleCost(cycle, p);
      assert s.rows[i] == rows[i];
    }
    if HasKey(s.rows, CycleCost(cycle, p)) {
      var i :| 0 <= i < |s.rows| && s.rows[i].key == CycleCost(cycle, p);
      if i >= |rows| {
        assert s.rows[i] == s.written[i - |rows|];
        assert s.written[i - |rows|] in s.written;
      }
    }
  }

  lemma SettleOneIs(fx: Fx, rows: seq<Transaction>, cycle: string, calls: seq<Call>, done: seq<Option<string>>, s: Settled, p: Option<string>)
    requires SettledAsIs(fx, rows, cycle, calls, done, s) && p !in done
    requires SettleOne(fx, s, cycle, p, CostOf(calls, cycle, p)).Ok?
    ensures SettledAsIs(fx, rows, cycle, calls, done + [p], SettleOne(fx, s, cycle, p, CostOf(calls, cycle, p)).value)
  {
    var cost := CostOf(calls, cycle, p);
    var s' := SettleOne(fx, s, cycle, p, cost).value;
    KeyIsNew(fx, rows, cycle, calls, done, s, p);
    assert (done + [p])[..|done|] == done;
    SumSnoc(Costs(calls, cycle, done), cost);
    if cost > 0 { RecordBooks(fx, s.rows, cycle, p, cost); }
    assert forall q :: q in done + [p] <==> q in done || q == p;
    assert !IsBooked(s.written, p);
    if s'.written != s.written {
      var t := s'.written[|s.written|];
      assert s'.written == s.written + [t] && t in s'.written;
      assert forall u :: u in s'.written <==> u in s.written || u == t;
    }
    forall q {:trigger IsBooked(s'.written, q)} | q in done + [p]
      ensures IsBooked(s'.written, q) <==> ToBook(rows, cycle, calls, q)
    {
      if q in done { assert IsBooked(s.written, q) <==> ToBook(rows, cycle, calls, q); }
    }
  }

  /** A settlement adds, behind the rows there are, one expense for each project with a cost that no row is
      booked under, and none for any other; it says that something was settled before exactly when some
      cost was, and its total is of all costs. */
  lemma {:induction false} SettlementIs(fx: Fx, rows: seq<Transaction>, cycle: string, calls: seq<Call>, projects: seq<Option<string>>)
    requires Distinct(projects) && Settle(fx, rows, cycle, calls, projects).Ok?
    ensures SettledAsIs(fx, rows, cycle, calls, projects, Settle(fx, rows, cycle, calls, projects).value)
    decreases |projects|
  {
    if projects == [] {
      assert Sum(Costs(calls, cycle, projects)) == 0;
    } else {
      var n := |projects| - 1;
      DistinctInit(projects, n);
      SettlementIs(fx, rows, cycle, calls, projects[..n]);
      InitAndLast(projects);
      SettleOneIs(fx, rows, cycle, calls, projects[..n], Settle(fx, rows, cycle, calls, projects[..n]).value, projects[n]);
    }
  }

  // ---- which calls count -------------------------------------------------------------------------

  lemma {:induction false} GroupsOfFewer(calls: seq<Call>, c: Call, cycle: string, projects: seq<Option<string>>)
    requires Groups(calls + [c], cycle, projects)
    ensures Groups(calls, cycle, projects)
  {
    forall d | d in calls && Counts(d, cycle) ensures d.project in projects { assert d in calls + [c]; }
  }

  /** One more call moves what a settlement comes to by its cost if it is a successful call of the cycle,
      and otherwise not at all; and it moves no project's cost but its own. */
  lemma {:induction false} OnlyOwnCallsCount(fx: Fx, rows: seq<Transaction>, cycle: string, calls: seq<Call>, c: Call, projects: seq<Option<string>>)
    requires Groups(calls + [c], cycle, projects)
    requires Settle(fx, rows, cycle, calls, projects).Ok? && Settle(fx, rows, cycle, calls + [c], projects).Ok?
    ensures Settle(fx, rows, cycle, calls + [c], projects).value.total
              == Settle(fx, rows, cycle, calls, projects).value.total + if c.cycle == cycle && c.ok then c.cost else 0
    ensures forall p {:trigger CostOf(calls, cycle, p)} ::
              CostOf(calls + [c], cycle, p) == CostOf(calls, cycle, p) + if c.cycle == cycle && c.ok && c.project == p then c.cost else 0
  {
    assert (calls + [c])[..|calls|] == calls;
    GroupsOfFewer(calls, c, cycle, projects);
    SettlementIs(fx, rows, cycle, calls, projects);
    SettlementIs(fx, rows, cycle, calls + [c], projects);
    CostsAddUp(calls, cycle, projects);
    CostsAddUp(calls + [c], cycle, projects);
  }

  // ---- the balance -------------------------------------------------------------------------------

  /** What comes in adds to the balance, what goes out is taken from it, a transfer moves nothing. */
  lemma {:induction false} BalanceMoves(rows: seq<Transaction>, t: Transaction)
    ensures Balance([]) == 0
    ensures Balance(rows + [t]) - Balance(rows) ==
              match t.kind
              case Revenue => t.amount
              case CapitalIn => t.amount
              case Expense => -t.amount
              case CapitalOut => -t.amount
              case Transfer => 0
  {
    BalanceSnoc(rows, t);
  }

  /** A transaction is refused without a rate first, and then if it moves no money; otherwise it keeps what
      it came in as. */
  lemma RecordAnswers(fx: Fx, rows: seq<Transaction>, kind: Kind, project: Option<string>, amount: int, currency: string, key: Key)
    ensures var r := Record(fx, rows, kind, project, amount, currency, key);
            var known := currency == fx.base || (currency in fx.rates && 0 < fx.rates[currency].num);
            && (r == Err(NoRate) <==> !known)
            && (r == Err(NoMoney) <==> known && (if currency == fx.base then amount <= 0
                                                 else 2 * (amount * fx.rates[currency].num) <= fx.rates[currency].den))
            && (r.Ok? && r.value.1.Some? ==>
                  var t := r.value.1.value;
                  && r.value.0 == rows + [t] && t.kind == kind && t.project == project && t.key == key
                  && (currency == fx.base ==> t.amount == amount && t.sourceAmount.None? && t.rate.None?)
                  && (currency != fx.base ==> t.sourceAmount == Some(amount) && t.rate == Some(fx.rates[currency])))
  {
    if currency != fx.base && RateOf(fx, currency).Some? {
      RoundsToNothing(amount * fx.rates[currency].num, fx.rates[currency].den);
    }
  }

  lemma RoundsToNothing(n: int, d: Positive)
    ensures HalfEven(n, d) <= 0 <==> 2 * n <= d
  {
    DivMod(n, d);
    if n / d >= 1 {
      Times(n / d, d);
    } else if n / d < 0 {
      Times(-(n / d), d);
    }
  }
}
