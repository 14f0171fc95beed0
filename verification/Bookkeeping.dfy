/** The ledger on its rows (backend/autora/company/ledger.py:104-262). */
module Bookkeeping {
  import opened Wrappers
  import opened Money
  import L = Ledgers

  class Ledger {
    const fx: Fx
    var rows: seq<L.Transaction>

    constructor (fx: Fx)
      ensures this.fx == fx && rows == []
    {
      this.fx, rows := fx, [];
    }

    method Record(kind: L.Kind, project: Option<string>, amount: int, currency: string, key: L.Key)
      returns (result: Result<Option<L.Transaction>, L.Failure>)
      modifies this`rows
      ensures match L.Record(fx, old(rows), kind, project, amount, currency, key)
              case Err(e) => result == Err(e) && rows == old(rows)
              case Ok((after, written)) => result == Ok(written) && rows == after
    {
      var converted := ToBase(fx, amount, currency);
      if converted.None? { return Err(L.NoRate); }
      if converted.value.amount <= 0 { return Err(L.NoMoney); }
      if L.Used(rows, key) { return Ok(None); }
      var t := L.Transaction(kind, project, converted.value.amount, converted.value.sourceAmount, converted.value.rate, key);
      rows := rows + [t];
      result := Ok(Some(t));
    }

    /** The cycle's model calls become one expense per project. A failure leaves the rows as they were,
        as the caller's transaction is rolled back. */
    method SettleCycle(cycle: string, calls: seq<L.Call>, projects: seq<Option<string>>) returns (result: Result<L.Settled, L.Failure>)
      modifies this`rows
      ensures result == L.Settle(fx, old(rows), cycle, calls, projects)
      ensures rows == if result.Ok? then result.value.rows else old(rows)
    {
      var before := rows;
      var written, total, skipped := [], 0, false;
      var i := 0;
      while i < |projects|
        invariant 0 <= i <= |projects|
        invariant L.Settle(fx, before, cycle, calls, projects[..i]) == Ok(L.Settled(rows, written, total, skipped))
      {
        ghost var s := L.Settled(rows, written, total, skipped);
        ghost var step := L.SettleOne(fx, s, cycle, projects[i], L.CostOf(calls, cycle, projects[i]));
        assert projects[..i + 1][..i] == projects[..i];
        assert L.Settle(fx, before, cycle, calls, projects[..i + 1]) == step;
        var cost := L.CostOf(calls, cycle, projects[i]);
        if cost > 0 {
          var recorded := Record(L.Expense, projects[i], cost, METER, L.CycleCost(cycle, projects[i]));
          if recorded.Err? {
            rows := before;
            FailsFrom(fx, before, cycle, calls, projects, i + 1);
            return Err(recorded.error);
          }
          total := total + cost;
          if recorded.value.None? { skipped := true; } else { written := written + [recorded.value.value]; }
        }
        i := i + 1;
      }
      assert projects[..|projects|] == projects;
      result := Ok(L.Settled(rows, written, total, skipped));
    }

    method BalanceOf() returns (balance: int)
      ensures balance == L.Balance(rows)
    {
      var earned, spent := 0, 0;
      var i := 0;
      while i < |rows|
        invariant 0 <= i <= |rows|
        invariant earned - spent == L.Balance(rows[..i])
      {
        L.BalanceSnoc(rows[..i], rows[i]);
        assert rows[..i + 1] == rows[..i] + [rows[i]];
        if L.Earns(rows[i].kind) { earned := earned + rows[i].amount; }
        if L.Spends(rows[i].kind) { spent := spent + rows[i].amount; }
        i := i + 1;
      }
      assert rows[..|rows|] == rows;
      balance := earned - spent;
    }
  }

  /** Once a settlement has failed it has failed. */
  lemma {:induction false} FailsFrom(fx: Fx, rows: seq<L.Transaction>, cycle: string, calls: seq<L.Call>, projects: seq<Option<string>>, n: nat)
    requires n <= |projects| && L.Settle(fx, rows, cycle, calls, projects[..n]).Err?
    ensures L.Settle(fx, rows, cycle, calls, projects) == L.Settle(fx, rows, cycle, calls, projects[..n])
    decreases |projects|
  {
    if n < |projects| {
      var init := projects[..|projects| - 1];
      assert init[..n] == projects[..n];
      FailsFrom(fx, rows, cycle, calls, init, n);
    } else {
      assert projects[..n] == projects;
    }
  }
}
