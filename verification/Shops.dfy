/** The membership operations on their rows (backend/autora/company/memberships.py:163-400). */
module Shops {
  import opened Wrappers
  import opened Calendar
  import opened Grants
  import M = Memberships

  lemma DueIsThere(b: M.Books, now: Time, due: seq<Key>, i: nat)
    requires M.DueList(b, now, due) && i < |due|
    ensures due[i] in M.Expire(b, now, due[..i]).rows
  {
    M.ExpireKeepsDates(b, now, due[..i], due[i]);
    assert M.IsDue(b.rows, due[i], now);
  }

  lemma ExpireStep(b: M.Books, now: Time, due: seq<Key>, i: nat)
    requires i < |due|
    ensures M.Expire(b, now, due[..i + 1]) == M.ExpireOne(M.Expire(b, now, due[..i]), due[i], now)
  {
    assert due[..i + 1][..i] == due[..i];
  }

  class Shop {
    const ends: (Time, Interval) -> Time
    var payments: seq<Payment>
    var rows: map<Key, Row>
    var customers: map<string, M.Customer>
    var keys: set<string>

    ghost function Value(): M.Books reads this {
      M.Books(payments, rows, customers, keys)
    }

    constructor (ends: (Time, Interval) -> Time)
      ensures this.ends == ends && Value() == M.Books([], map[], map[], {})
    {
      this.ends := ends;
      payments, rows, customers, keys := [], map[], map[], {};
    }

    method ByProviderRef(ref: Ref) returns (found: Option<Payment>)
      ensures found == M.WithRef(payments, ref)
    {
      var i := |payments|;
      assert payments[..i] == payments;
      while i > 0
        invariant 0 <= i <= |payments|
        invariant M.WithRef(payments, ref) == M.WithRef(payments[..i], ref)
      {
        i := i - 1;
        assert payments[..i + 1][..i] == payments[..i];
        if payments[i].ref == ref { return Some(payments[i]); }
      }
      found := None;
    }

    /** Money arrived: recorded, booked, and granted what it bought, once per reference. A refusal
        leaves everything as it was, as the caller's transaction is rolled back. */
    method Purchase(sale: M.Sale) returns (result: Result<(Payment, bool), M.Refusal>)
      modifies this
      ensures (Value(), result) == M.Purchase(ends, old(Value()), sale)
      ensures M.BooksOk(ends, old(Value())) ==> M.BooksOk(ends, Value())
    {
      ghost var before := Value();
      var existing := ByProviderRef(sale.ref);
      if existing.Some? { return Ok((existing.value, false)); }
      if !sale.forSale { return Err(M.Retired); }
      if sale.key.customer !in customers && M.Blank(sale.key.customer) { return Err(M.NobodyPays); }
      if sale.booked.None? { return Err(M.NoRate); }
      if sale.booked.value <= 0 { return Err(M.NoMoney); }
      if M.PaymentKey(sale.ref) in keys { return Err(M.KeyTaken); }
      if sale.key.customer in customers {
        customers := customers[sale.key.customer := customers[sale.key.customer].(churnedAt := None)];
      } else {
        customers := customers[sale.key.customer := M.Customer(sale.paidAt, None)];
      }
      var from, started := sale.paidAt, sale.paidAt;
      if sale.key in rows && rows[sale.key].expiresAt > sale.paidAt {
        from, started := rows[sale.key].expiresAt, rows[sale.key].startedAt;
      }
      var until := ends(from, sale.interval);
      rows := rows[sale.key := Row(started, until, true)];
      keys := keys + {M.PaymentKey(sale.ref)};
      var payment := Payment(sale.ref, sale.key, sale.interval, sale.amount, sale.paidAt, from, until);
      payments := payments + [payment];
      result := Ok((payment, true));
      if M.BooksOk(ends, before) { M.PurchaseKeepsBooks(ends, before, sale); }
    }

    /** Write off one row that ran out; a customer it leaves with nothing is marked. */
    method WriteOff(key: Key, now: Time)
      requires key in rows
      modifies this`rows, this`customers
      ensures Value() == M.ExpireOne(old(Value()), key, now)
    {
      var expired := rows[key].expiresAt;
      rows := rows[key := rows[key].(active := false)];
      if !M.AnyAccess(rows, key.customer, now) && key.customer in customers && customers[key.customer].churnedAt.None? {
        customers := customers[key.customer := customers[key.customer].(churnedAt := Some(expired))];
      }
    }

    /** Write off the rows that are due, and mark the customers who have nothing left. `due` is what the query found. */
    method ExpireDue(now: Time, due: seq<Key>)
      requires M.DueList(Value(), now, due)
      modifies this`rows, this`customers
      ensures Value() == M.Expire(old(Value()), now, due)
    {
      ghost var before := Value();
      var i := 0;
      while i < |due|
        invariant 0 <= i <= |due|
        invariant Value() == M.Expire(before, now, due[..i])
      {
        ExpireStep(before, now, due, i);
        DueIsThere(before, now, due, i);
        WriteOff(due[i], now);
        i := i + 1;
      }
      assert due[..|due|] == due;
    }

    method HasAccess(key: Key, at: Time) returns (may: bool)
      ensures may == Grants.HasAccess(M.RowAt(rows, key), at)
      ensures (Forward(ends) && M.KeyOk(ends, Value(), key) && (key in rows ==> rows[key].startedAt <= at)) ==>
                (may <==> Covered(M.Of(payments, key), at))
    {
      may := key in rows && rows[key].expiresAt > at;
      if Forward(ends) && M.KeyOk(ends, Value(), key) && (key in rows ==> rows[key].startedAt <= at) {
        AccessIsCoverage(ends, M.RowAt(rows, key), M.Of(payments, key), at);
      }
    }
  }
}
