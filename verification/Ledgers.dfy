/** The ledger: transactions, and settling a cycle's model calls into them once
    (backend/autora/company/ledger.py). Amounts are millionths. */
module Ledgers {
  import opened Wrappers
  import opened Sequences
  import opened Money

  datatype Kind = Expense | Revenue | CapitalIn | CapitalOut | Transfer

  /** A caller's name for a fact: a cycle's cost of a project, or anything else. */
  datatype Key = CycleCost(cycle: string, project: Option<string>) | Other(name: string)

  datatype Transaction = Transaction(kind: Kind, project: Option<string>, amount: int, sourceAmount: Option<int>, rate: Option<Rate>, key: Key)

  datatype Failure = NoRate | NoMoney

  predicate Earns(k: Kind) { k.Revenue? || k.CapitalIn? }

  predicate Spends(k: Kind) { k.Expense? || k.CapitalOut? }

  predicate Used(rows: seq<Transaction>, key: Key) {
    exists i :: 0 <= i < |rows| && rows[i].key == key
  }

  /** Post one transaction; a key that was used before posts nothing (ledger.py:134-184). */
  function Record(fx: Fx, rows: seq<Transaction>, kind: Kind, project: Option<string>, amount: int, currency: string, key: Key)
    : (r: Result<(seq<Transaction>, Option<Transaction>), Failure>)
    ensures r.Ok? ==> rows <= r.value.0 && Used(r.value.0, key)
  {
    var converted := ToBase(fx, amount, currency);
    if converted.None? then Err(NoRate)
    else if converted.value.amount <= 0 then Err(NoMoney)
    else if Used(rows, key) then Ok((rows, None))
    else
      var t := Transaction(kind, project, converted.value.amount, converted.value.sourceAmount, converted.value.rate, key);
      assert (rows + [t])[|rows|] == t;
      Ok((rows + [t], Some(t)))
  }

  /** A fact is posted once: the first time its key comes up, as the one new row behind the others;
      whatever is posted under the key after that changes nothing, or fails. */
  lemma RecordedOnce(fx: Fx, rows: seq<Transaction>, kind: Kind, project: Option<string>, amount: int, currency: string, key: Key,
                     fx': Fx, kind': Kind, project': Option<string>, amount': int, currency': string)
    requires Record(fx, rows, kind, project, amount, currency, key).Ok?
    ensures var (rows', posted) := Record(fx, rows, kind, project, amount, currency, key).value;
            && (posted.None? <==> Used(rows, key))
            && (posted.None? ==> rows' == rows)
            && (posted.Some? ==> rows' == rows + [posted.value] && posted.value.key == key && posted.value.amount > 0
                                 && Convert(fx, amount, currency, fx.base) == Some(posted.value.amount))
            && var again := Record(fx', rows', kind', project', amount', currency', key);
               again.Ok? ==> again.value == (rows', None)
  {
    ConvertToBase(fx, amount, currency);
  }

  // ---- the meter ---------------------------------------------------------------------------------

  datatype Call = Call(cycle: string, project: Option<string>, ok: bool, cost: nat)

  predicate Counts(c: Call, cycle: string) { c.cycle == cycle && c.ok }

  /** What the calls of a cycle cost (ledger.py:309-322). */
  function Metered(calls: seq<Call>, cycle: string): nat {
    if calls == [] then 0
    else Metered(calls[..|calls| - 1], cycle) + if Counts(calls[|calls| - 1], cycle) then calls[|calls| - 1].cost else 0
  }

  function CostOf(calls: seq<Call>, cycle: string, project: Option<string>): nat {
    if calls == [] then 0
    else
      var last := calls[|calls| - 1];
      CostOf(calls[..|calls| - 1], cycle, project) + if Counts(last, cycle) && last.project == project then last.cost else 0
  }

  /** The projects with calls in the cycle, each once, in whatever order the query has them. */
  ghost predicate Groups(calls: seq<Call>, cycle: string, projects: seq<Option<string>>) {
    Distinct(projects) && forall c :: c in calls && Counts(c, cycle) ==> c.project in projects
  }

  function Costs(calls: seq<Call>, cycle: string, projects: seq<Option<string>>): seq<int> {
    if projects == [] then [] else Costs(calls, cycle, projects[..|projects| - 1]) + [CostOf(calls, cycle, projects[|projects| - 1])]
  }

  lemma {:induction false} CostsWithoutLast(calls: seq<Call>, cycle: string, projects: seq<Option<string>>)
    requires calls != [] && Distinct(projects)
    ensures var last := calls[|calls| - 1];
            Sum(Costs(calls, cycle, projects)) == Sum(Costs(calls[..|calls| - 1], cycle, projects))
              + if Counts(last, cycle) && last.project in projects then last.cost else 0
    decreases |projects|
  {
    if projects != [] {
      var n := |projects| - 1;
      DistinctInit(projects, n);
      CostsWithoutLast(calls, cycle, projects[..n]);
      InitAndLast(projects);
      var init := calls[..|calls| - 1];
      SumSnoc(Costs(calls, cycle, projects[..n]), CostOf(calls, cycle, projects[n]));
      SumSnoc(Costs(init, cycle, projects[..n]), CostOf(init, cycle, projects[n]));
    }
  }

  lemma SumSnoc(amounts: seq<int>, x: int)
    ensures Sum(amounts + [x]) == Sum(amounts) + x
  {
    assert (amounts + [x])[..|amounts|] == amounts;
  }

  lemma {:induction false} NoCallsNoCosts(cycle: string, projects: seq<Option<string>>)
    ensures Sum(Costs([], cycle, projects)) == 0
  {
    if projects != [] {
      NoCallsNoCosts(cycle, projects[..|projects| - 1]);
      SumSnoc(Costs([], cycle, projects[..|projects| - 1]), 0);
    }
  }

  /** The projects' costs add up to what was metered. */
  lemma {:induction false} CostsAddUp(calls: seq<Call>, cycle: string, projects: seq<Option<string>>)
    requires Groups(calls, cycle, projects)
    ensures Sum(Costs(calls, cycle, projects)) == Metered(calls, cycle)
    decreases |calls|
  {
    if calls == [] {
      NoCallsNoCosts(cycle, projects);
    } else {
      var init := calls[..|calls| - 1];
      InitAndLast(calls);
      assert calls[|calls| - 1] in calls;
      CostsAddUp(init, cycle, projects);
      CostsWithoutLast(calls, cycle, projects);
    }
  }

  // ---- settling ----------------------------------------------------------------------------------

  datatype Settled = Settled(rows: seq<Transaction>, written: seq<Transaction>, total: int, skipped: bool)

  /** One project of the cycle (ledger.py:206-228). */
  function SettleOne(fx: Fx, s: Settled, cycle: string, project: Option<string>, cost: nat): Result<Settled, Failure> {
    if cost == 0 then Ok(s)
    else match Record(fx, s.rows, Expense, project, cost, METER, CycleCost(cycle, project))
      case Err(e) => Err(e)
      case Ok((rows, None)) => Ok(s.(rows := rows, total := s.total + cost, skipped := true))
      case Ok((rows, Some(t))) => Ok(s.(rows := rows, total := s.total + cost, written := s.written + [t]))
  }

  /** All projects, one after the other; the first failure undoes everything. */
  function Settle(fx: Fx, rows: seq<Transaction>, cycle: string, calls: seq<Call>, projects: seq<Option<string>>): Result<Settled, Failure> {
    if projects == [] then Ok(Settled(rows, [], 0, false))
    else
      var last := projects[|projects| - 1];
      match Settle(fx, rows, cycle, calls, projects[..|projects| - 1])
      case Err(e) => Err(e)
      case Ok(s) => SettleOne(fx, s, cycle, last, CostOf(calls, cycle, last))
  }

  // ---- what a settlement is worth ----------------------------------------------------------------

  /** The amount in the currency it came in. */
  function Source(t: Transaction): int {
    if t.sourceAmount.Some? then t.sourceAmount.value else t.amount
  }

  /** The settled expenses of a cycle, in the meter's currency. */
  function SettledSource(rows: seq<Transaction>, cycle: string): int {
    if rows == [] then 0
    else
      var t := rows[|rows| - 1];
      SettledSource(rows[..|rows| - 1], cycle) + if t.key.CycleCost? && t.key.cycle == cycle then Source(t) else 0
  }

  function SettledAmount(rows: seq<Transaction>, cycle: string): int {
    if rows == [] then 0
    else
      var t := rows[|rows| - 1];
      SettledAmount(rows[..|rows| - 1], cycle) + if t.key.CycleCost? && t.key.cycle == cycle then t.amount else 0
  }

  lemma SettledSnoc(rows: seq<Transaction>, t: Transaction, cycle: string)
    ensures SettledSource(rows + [t], cycle) == SettledSource(rows, cycle) + if t.key.CycleCost? && t.key.cycle == cycle then Source(t) else 0
    ensures SettledAmount(rows + [t], cycle) == SettledAmount(rows, cycle) + if t.key.CycleCost? && t.key.cycle == cycle then t.amount else 0
  {
    assert (rows + [t])[..|rows|] == rows;
  }

  /** What one project's cost becomes in the base currency. */
  function InBase(fx: Fx, cost: int): int {
    match ToBase(fx, cost, METER) case Some(c) => c.amount case None => 0
  }

  function AllInBase(fx: Fx, costs: seq<int>): int {
    if costs == [] then 0 else AllInBase(fx, costs[..|costs| - 1]) + InBase(fx, costs[|costs| - 1])
  }

  predicate NotSettled(rows: seq<Transaction>, cycle: string) {
    forall i :: 0 <= i < |rows| ==> !(rows[i].key.CycleCost? && rows[i].key.cycle == cycle)
  }

  /** The keys a settlement has used so far are those of the projects it came to. */
  ghost predicate OnlyFor(rows: seq<Transaction>, cycle: string, projects: seq<Option<string>>) {
    forall i {:trigger rows[i]} :: 0 <= i < |rows| && rows[i].key.CycleCost? && rows[i].key.cycle == cycle ==> rows[i].key.project in projects
  }

  lemma InBaseOfNothing(fx: Fx)
    ensures InBase(fx, 0) == 0
  {
    var c := ToBase(fx, 0, METER);
    if c.Some? && METER != fx.base {
      var rate := RateOf(fx, METER).value;
      assert 0 * rate.num == 0;
      HalfEvenIsTheOne(0, rate.den, 0);
    }
  }

  lemma FirstSettleOne(fx: Fx, s: Settled, cycle: string, project: Option<string>, cost: nat, done: seq<Option<string>>)
    requires OnlyFor(s.rows, cycle, done) && project !in done && SettleOne(fx, s, cycle, project, cost).Ok?
    ensures var s' := SettleOne(fx, s, cycle, project, cost).value;
            && OnlyFor(s'.rows, cycle, done + [project])
            && SettledSource(s'.rows, cycle) == SettledSource(s.rows, cycle) + cost
            && SettledAmount(s'.rows, cycle) == SettledAmount(s.rows, cycle) + InBase(fx, cost)
            && s'.total == s.total + cost && (!s.skipped ==> !s'.skipped)
  {
    InBaseOfNothing(fx);
    if cost > 0 {
      var key := CycleCost(cycle, project);
      assert !Used(s.rows, key);
      var c := ToBase(fx, cost, METER).value;
      var t := Transaction(Expense, project, c.amount, c.sourceAmount, c.rate, key);
      SettledSnoc(s.rows, t, cycle);
    }
  }

  lemma {:induction false} FirstSettle(fx: Fx, rows: seq<Transaction>, cycle: string, calls: seq<Call>, projects: seq<Option<string>>)
    requires Distinct(projects) && NotSettled(rows, cycle) && Settle(fx, rows, cycle, calls, projects).Ok?
    ensures var s := Settle(fx, rows, cycle, calls, projects).value;
            && OnlyFor(s.rows, cycle, projects) && !s.skipped
            && SettledSource(s.rows, cycle) == SettledSource(rows, cycle) + Sum(Costs(calls, cycle, projects))
            && SettledAmount(s.rows, cycle) == SettledAmount(rows, cycle) + AllInBase(fx, Costs(calls, cycle, projects))
            && s.total == Sum(Costs(calls, cycle, projects))
    decreases |projects|
  {
    if projects != [] {
      var n := |projects| - 1;
      DistinctInit(projects, n);
      FirstSettle(fx, rows, cycle, calls, projects[..n]);
      var s := Settle(fx, rows, cycle, calls, projects[..n]).value;
      var cost := CostOf(calls, cycle, projects[n]);
      FirstSettleOne(fx, s, cycle, projects[n], cost, projects[..n]);
      InitAndLast(projects);
      var init := Costs(calls, cycle, projects[..n]);
      SumSnoc(init, cost);
      assert (init + [cost])[..|init|] == init;
    }
  }

  lemma {:induction false} NothingSettled(rows: seq<Transaction>, cycle: string)
    requires NotSettled(rows, cycle)
    ensures SettledSource(rows, cycle) == 0 && SettledAmount(rows, cycle) == 0
  {
    if rows != [] { NothingSettled(rows[..|rows| - 1], cycle); }
  }

  /** The settled expenses of a cycle, before conversion, are what its calls were metered at. */
  lemma SettledIsMetered(fx: Fx, rows: seq<Transaction>, cycle: string, calls: seq<Call>, projects: seq<Option<string>>)
    requires Groups(calls, cycle, projects) && NotSettled(rows, cycle) && Settle(fx, rows, cycle, calls, projects).Ok?
    ensures var s := Settle(fx, rows, cycle, calls, projects).value;
            SettledSource(s.rows, cycle) == Metered(calls, cycle) && s.total == Metered(calls, cycle)
  {
    FirstSettle(fx, rows, cycle, calls, projects);
    NothingSettled(rows, cycle);
    CostsAddUp(calls, cycle, projects);
  }

  lemma {:induction false} AllInBaseIsParts(fx: Fx, costs: seq<int>)
    ensures METER == fx.base ==> AllInBase(fx, costs) == Sum(costs)
    ensures METER != fx.base && RateOf(fx, METER).Some? ==> AllInBase(fx, costs) == Parts(costs, RateOf(fx, METER).value)
  {
    if costs != [] { AllInBaseIsParts(fx, costs[..|costs| - 1]); }
  }

  lemma {:induction false} CostsLength(calls: seq<Call>, cycle: string, projects: seq<Option<string>>)
    ensures |Costs(calls, cycle, projects)| == |projects|
  {
    if projects != [] { CostsLength(calls, cycle, projects[..|projects| - 1]); }
  }

  lemma AllInBaseIsNear(fx: Fx, costs: seq<int>)
    requires RateOf(fx, METER).Some?
    ensures 2 * Abs(AllInBase(fx, costs) - InBase(fx, Sum(costs))) <= |costs| + 1
  {
    AllInBaseIsParts(fx, costs);
    if METER != fx.base { PartsAndTotal(costs, RateOf(fx, METER).value); }
  }

  /** In the base currency, converted per project, they differ from the report's single conversion by
      at most (n + 1) / 2 millionths for n projects. */
  lemma SettledIsNearTheReport(fx: Fx, rows: seq<Transaction>, cycle: string, calls: seq<Call>, projects: seq<Option<string>>)
    requires Groups(calls, cycle, projects) && NotSettled(rows, cycle) && Settle(fx, rows, cycle, calls, projects).Ok?
    requires RateOf(fx, METER).Some?
    ensures 2 * Abs(SettledAmount(Settle(fx, rows, cycle, calls, projects).value.rows, cycle) - InBase(fx, Metered(calls, cycle))) <= |projects| + 1
  {
    var costs := Costs(calls, cycle, projects);
    FirstSettle(fx, rows, cycle, calls, projects);
    NothingSettled(rows, cycle);
    CostsAddUp(calls, cycle, projects);
    CostsLength(calls, cycle, projects);
    AllInBaseIsNear(fx, costs);
  }

  // ---- settling again ----------------------------------------------------------------------------

  lemma {:induction false} SettleGrows(fx: Fx, rows: seq<Transaction>, cycle: string, calls: seq<Call>, projects: seq<Option<string>>)
    requires Settle(fx, rows, cycle, calls, projects).Ok?
    ensures rows <= Settle(fx, rows, cycle, calls, projects).value.rows
    ensures forall i :: 0 <= i < |projects| && CostOf(calls, cycle, projects[i]) > 0 ==>
              Used(Settle(fx, rows, cycle, calls, projects).value.rows, CycleCost(cycle, projects[i])) && InBase(fx, CostOf(calls, cycle, projects[i])) > 0
    decreases |projects|
  {
    if projects != [] {
      var n := |projects| - 1;
      SettleGrows(fx, rows, cycle, calls, projects[..n]);
      var s := Settle(fx, rows, cycle, calls, projects[..n]).value;
      var s' := Settle(fx, rows, cycle, calls, projects).value;
      assert s.rows <= s'.rows;
      forall i | 0 <= i < |projects| && CostOf(calls, cycle, projects[i]) > 0
        ensures Used(s'.rows, CycleCost(cycle, projects[i])) && InBase(fx, CostOf(calls, cycle, projects[i])) > 0
      {
        if i < n {
          assert projects[..n][i] == projects[i];
          UsedStays(s.rows, s'.rows, CycleCost(cycle, projects[i]));
        }
      }
    }
  }

  lemma UsedStays(rows: seq<Transaction>, later: seq<Transaction>, key: Key)
    requires rows <= later && Used(rows, key)
    ensures Used(later, key)
  {
    var i :| 0 <= i < |rows| && rows[i].key == key;
    assert later[i] == rows[i];
  }

  lemma {:induction false} SettledAlready(fx: Fx, rows: seq<Transaction>, cycle: string, calls: seq<Call>, projects: seq<Option<string>>)
    requires forall i :: 0 <= i < |projects| && CostOf(calls, cycle, projects[i]) > 0 ==>
               Used(rows, CycleCost(cycle, projects[i])) && InBase(fx, CostOf(calls, cycle, projects[i])) > 0
    ensures var r := Settle(fx, rows, cycle, calls, projects); r.Ok? && r.value.rows == rows && r.value.written == []
    decreases |projects|
  {
    if projects != [] {
      var n := |projects| - 1;
      forall i | 0 <= i < n && CostOf(calls, cycle, projects[..n][i]) > 0
        ensures Used(rows, CycleCost(cycle, projects[..n][i])) && InBase(fx, CostOf(calls, cycle, projects[..n][i])) > 0
      {
        assert projects[..n][i] == projects[i];
      }
      SettledAlready(fx, rows, cycle, calls, projects[..n]);
    }
  }

  /** Settling a cycle again writes nothing, in whatever order the projects come the second time. */
  lemma SettledTwiceIsOnce(fx: Fx, rows: seq<Transaction>, cycle: string, calls: seq<Call>, projects: seq<Option<string>>, again: seq<Option<string>>)
    requires Groups(calls, cycle, projects) && Settle(fx, rows, cycle, calls, projects).Ok?
    ensures var once := Settle(fx, rows, cycle, calls, projects).value.rows;
            var r := Settle(fx, once, cycle, calls, again);
            r.Ok? && r.value.rows == once && r.value.written == []
  {
    var once := Settle(fx, rows, cycle, calls, projects).value.rows;
    SettleGrows(fx, rows, cycle, calls, projects);
    forall i | 0 <= i < |again| && CostOf(calls, cycle, again[i]) > 0
      ensures Used(once, CycleCost(cycle, again[i])) && InBase(fx, CostOf(calls, cycle, again[i])) > 0
    {
      CostMeansCall(calls, cycle, again[i]);
      var j :| 0 <= j < |projects| && projects[j] == again[i];
    }
    SettledAlready(fx, once, cycle, calls, again);
  }

  lemma {:induction false} CostMeansCall(calls: seq<Call>, cycle: string, project: Option<string>)
    requires CostOf(calls, cycle, project) > 0
    ensures exists c :: c in calls && Counts(c, cycle) && c.project == project
  {
    var init, last := calls[..|calls| - 1], calls[|calls| - 1];
    assert last in calls;
    if CostOf(init, cycle, project) > 0 {
      CostMeansCall(init, cycle, project);
      var c :| c in init && Counts(c, cycle) && c.project == project;
      assert c in calls;
    }
  }

  // ---- when a settlement fails -------------------------------------------------------------------

  /** A cost that cannot be booked: without a rate, or worth at most half a millionth. */
  predicate Unbookable(fx: Fx, cost: nat) {
    cost > 0 && match RateOf(fx, METER)
      case None => true
      case Some(rate) => METER != fx.base && 2 * (cost * rate.num) <= rate.den
  }

  lemma RecordFailsIff(fx: Fx, rows: seq<Transaction>, project: Option<string>, cost: nat, key: Key)
    requires cost > 0
    ensures Record(fx, rows, Expense, project, cost, METER, key).Err? <==> Unbookable(fx, cost)
  {
    var rate := RateOf(fx, METER);
    if METER != fx.base && rate.Some? {
      assert 0 <= cost * rate.value.num;
      RoundsAway(cost * rate.value.num, rate.value.den);
    }
  }

  /** A settlement fails exactly when some project's cost cannot be booked; then nothing is written. */
  lemma {:induction false} SettleFailsIff(fx: Fx, rows: seq<Transaction>, cycle: string, calls: seq<Call>, projects: seq<Option<string>>)
    ensures Settle(fx, rows, cycle, calls, projects).Err? <==> exists p :: p in projects && Unbookable(fx, CostOf(calls, cycle, p))
    decreases |projects|
  {
    if projects != [] {
      var n := |projects| - 1;
      SettleFailsIff(fx, rows, cycle, calls, projects[..n]);
      InitAndLast(projects);
      var last := projects[n];
      var before := Settle(fx, rows, cycle, calls, projects[..n]);
      if before.Ok? && CostOf(calls, cycle, last) > 0 {
        RecordFailsIff(fx, before.value.rows, last, CostOf(calls, cycle, last), CycleCost(cycle, last));
        assert Settle(fx, rows, cycle, calls, projects) == SettleOne(fx, before.value, cycle, last, CostOf(calls, cycle, last));
      }
      assert forall p :: p in projects <==> p in projects[..n] || p == last;
    }
  }

  /** A cost of one millionth of a dollar at half a base unit to the dollar cannot be booked. */
  lemma SmallCostsFail()
    ensures Settle(Fx("TWD", map["USD" := Rate(1, 2)]), [], "c", [Call("c", None, true, 1)], [None]) == Err(NoMoney)
  {
    var fx, calls := Fx("TWD", map["USD" := Rate(1, 2)]), [Call("c", None, true, 1)];
    var projects: seq<Option<string>> := [None];
    assert calls[..0] == [] && projects[..0] == [];
    assert CostOf(calls, "c", None) == 1;
    RoundsAway(1, 2);
    assert ToBase(fx, 1, METER) == Some(Converted(HalfEven(1, 2), Some(Rate(1, 2)), Some(1)));
  }

  // ---- the balance -------------------------------------------------------------------------------

  function TotalOf(rows: seq<Transaction>, kind: Kind): int {
    if rows == [] then 0
    else TotalOf(rows[..|rows| - 1], kind) + if rows[|rows| - 1].kind == kind then rows[|rows| - 1].amount else 0
  }

  /** The four kinds that move money, each summed on its own (ledger.py:243-262). */
  function Balance(rows: seq<Transaction>): int {
    TotalOf(rows, Revenue) + TotalOf(rows, CapitalIn) - (TotalOf(rows, Expense) + TotalOf(rows, CapitalOut))
  }

  function Signed(t: Transaction): int {
    if Earns(t.kind) then t.amount else if Spends(t.kind) then -t.amount else 0
  }

  lemma BalanceSnoc(rows: seq<Transaction>, t: Transaction)
    ensures Balance(rows + [t]) == Balance(rows) + Signed(t)
  {
    assert (rows + [t])[..|rows|] == rows;
  }

  /** A settlement lowers the balance by what it settled in the base currency, and by nothing else. */
  lemma {:induction false} SettlingCostsItsAmount(fx: Fx, rows: seq<Transaction>, cycle: string, calls: seq<Call>, projects: seq<Option<string>>)
    requires Settle(fx, rows, cycle, calls, projects).Ok?
    ensures var s := Settle(fx, rows, cycle, calls, projects).value;
            Balance(s.rows) - Balance(rows) == SettledAmount(rows, cycle) - SettledAmount(s.rows, cycle)
    decreases |projects|
  {
    if projects != [] {
      var n := |projects| - 1;
      SettlingCostsItsAmount(fx, rows, cycle, calls, projects[..n]);
      var s := Settle(fx, rows, cycle, calls, projects[..n]).value;
      var cost, key := CostOf(calls, cycle, projects[n]), CycleCost(cycle, projects[n]);
      if cost > 0 && !Used(s.rows, key) {
        var c := ToBase(fx, cost, METER).value;
        var t := Transaction(Expense, projects[n], c.amount, c.sourceAmount, c.rate, key);
        BalanceSnoc(s.rows, t);
        SettledSnoc(s.rows, t, cycle);
      }
    }
  }
}
