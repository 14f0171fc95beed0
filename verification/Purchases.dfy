/** What a purchase and a write-off leave on the rows (backend/autora/company/memberships.py:163-400),
    field by field. */
module Purchases {
  import opened Wrappers
  import opened Sequences
  import opened Calendar
  import opened Grants
  import opened Memberships

  ghost predicate IsPaid(b: Books, ref: Ref) {
    exists p :: p in b.payments && p.ref == ref
  }

  /** A customer who is known, or has a name that is more than white space. */
  ghost predicate SomebodyPays(b: Books, name: string) {
    name in b.customers || exists i :: 0 <= i < |name| && name[i] != ' ' && name[i] != '\t' && name[i] != '\n' && name[i] != '\r'
  }

  ghost predicate MovesMoney(sale: Sale) {
    sale.booked.Some? && 0 < sale.booked.value
  }

  ghost predicate IsTaken(b: Books, ref: Ref) {
    ("payment:" + ref.provider + ":" + ref.external) in b.keys
  }

  /** What the charge bought: from the end of what still runs, or from now; the row runs on to its end. */
  ghost predicate Gives(ends: (Time, Interval) -> Time, b: Books, sale: Sale, b': Books, p: Payment) {
    var runs := sale.key in b.rows && sale.paidAt < b.rows[sale.key].expiresAt;
    && p.ref == sale.ref && p.key == sale.key && p.interval == sale.interval && p.amount == sale.amount && p.paidAt == sale.paidAt
    && p.from == (if runs then b.rows[sale.key].expiresAt else sale.paidAt) && p.until == ends(p.from, sale.interval)
    && b'.payments == b.payments + [p]
    && sale.key in b'.rows && b'.rows - {sale.key} == b.rows - {sale.key}
    && b'.rows[sale.key] == Row(if runs then b.rows[sale.key].startedAt else sale.paidAt, p.until, true)
  }

  /** The customer is one from now on, since when they first came, and marked as gone no more. */
  ghost predicate Welcomes(b: Books, sale: Sale, b': Books) {
    var name := sale.key.customer;
    && name in b'.customers && b'.customers - {name} == b.customers - {name}
    && b'.customers[name].churnedAt.None?
    && b'.customers[name].acquiredAt == (if name in b.customers then b.customers[name].acquiredAt else sale.paidAt)
    && b'.keys == b.keys + {"payment:" + sale.ref.provider + ":" + sale.ref.external}
  }

  /** A charge that was paid for gets that payment again. Any other is granted exactly when its price is for
      sale, somebody pays, it moves money in the base currency and its key is free; what is missing first
      is what it is refused for, and a refusal changes nothing. */
  lemma PurchaseAnswers(ends: (Time, Interval) -> Time, b: Books, sale: Sale)
    ensures var (b', r) := Purchase(ends, b, sale);
            && (IsPaid(b, sale.ref) ==> b' == b && r.Ok? && !r.value.1 && r.value.0 in b.payments && r.value.0.ref == sale.ref)
            && (r == Err(Retired) <==> !IsPaid(b, sale.ref) && !sale.forSale)
            && (r == Err(NobodyPays) <==> !IsPaid(b, sale.ref) && sale.forSale && !SomebodyPays(b, sale.key.customer))
            && (r == Err(NoRate) <==> !IsPaid(b, sale.ref) && sale.forSale && SomebodyPays(b, sale.key.customer) && sale.booked.None?)
            && (r == Err(NoMoney) <==>
                  !IsPaid(b, sale.ref) && sale.forSale && SomebodyPays(b, sale.key.customer) && sale.booked.Some? && sale.booked.value <= 0)
            && (r == Err(KeyTaken) <==>
                  !IsPaid(b, sale.ref) && sale.forSale && SomebodyPays(b, sale.key.customer) && MovesMoney(sale) && IsTaken(b, sale.ref))
            && (r.Err? ==> b' == b)
            && (r.Ok? && !IsPaid(b, sale.ref) ==> r.value.1 && Gives(ends, b, sale, b', r.value.0) && Welcomes(b, sale, b'))
  {
    WithRefFinds(b.payments, sale.ref);
    if IsPaid(b, sale.ref) {
      var p :| p in b.payments && p.ref == sale.ref;
      var i :| 0 <= i < |b.payments| && b.payments[i] == p;
    }
    BlankIs(sale.key.customer);
  }

  lemma BlankIs(s: string)
    ensures !Blank(s) <==> exists i :: 0 <= i < |s| && s[i] != ' ' && s[i] != '\t' && s[i] != '\n' && s[i] != '\r'
  {
    if !Blank(s) {
      var c :| c in s && c !in " \t\n\r";
      var i :| 0 <= i < |s| && s[i] == c;
      assert " \t\n\r"[0] == ' ' && " \t\n\r"[1] == '\t' && " \t\n\r"[2] == '\n' && " \t\n\r"[3] == '\r';
    } else {
      forall i | 0 <= i < |s| ensures s[i] == ' ' || s[i] == '\t' || s[i] == '\n' || s[i] == '\r' {
        assert s[i] in s && s[i] in " \t\n\r";
      }
    }
  }

  /** Who pays can read from then on to the end of what was bought, and a payment takes nothing from what
      any customer could read before. */
  lemma PayingGivesAccess(ends: (Time, Interval) -> Time, b: Books, sale: Sale, t: Time)
    requires Forward(ends) && Purchase(ends, b, sale).1.Ok? && Purchase(ends, b, sale).1.value.1
    ensures var (b', r) := Purchase(ends, b, sale);
            && (HasAccess(RowAt(b'.rows, sale.key), t) <==> t < r.value.0.until)
            && sale.paidAt < r.value.0.until
            && forall key {:trigger RowAt(b.rows, key)} :: HasAccess(RowAt(b.rows, key), t) && sale.paidAt <= t ==> HasAccess(RowAt(b'.rows, key), t)
  {
    PurchaseAnswers(ends, b, sale);
    var (b', r) := Purchase(ends, b, sale);
    assert r.value.0.from < ends(r.value.0.from, sale.interval);
    forall key | key != sale.key ensures RowAt(b'.rows, key) == RowAt(b.rows, key) {
      assert key in b'.rows - {sale.key} <==> key in b.rows - {sale.key};
      if key in b.rows { assert (b'.rows - {sale.key})[key] == (b.rows - {sale.key})[key]; }
    }
  }

  // ---- running out -------------------------------------------------------------------------------

  /** Nothing but whether a row runs is written off, and only of those that have run out. */
  lemma WrittenOffIff(b: Books, now: Time, due: seq<Key>, key: Key)
    requires DueList(b, now, due) && key in b.rows
    ensures var e := Expire(b, now, due);
            && e.payments == b.payments && key in e.rows
            && e.rows[key].startedAt == b.rows[key].startedAt && e.rows[key].expiresAt == b.rows[key].expiresAt
            && (e.rows[key].active <==> b.rows[key].active && now < b.rows[key].expiresAt)
  {
    ExpireKeepsDates(b, now, due, key);
    assert key in due <==> IsDue(b.rows, key, now);
  }

  ghost predicate FirstOf(due: seq<Key>, customer: string, i: nat) {
    i < |due| && due[i].customer == customer && forall j :: 0 <= j < i ==> due[j].customer != customer
  }

  /** What the rows worked through so far make of a customer. */
  ghost predicate ChurnIs(b: Books, now: Time, due: seq<Key>, customer: string, was: Customer, later: Customer) {
    if was.churnedAt.Some? || AnyAccess(b.rows, customer, now) || forall i :: 0 <= i < |due| ==> due[i].customer != customer
    then later == was
    else later.acquiredAt == was.acquiredAt && exists i: nat :: FirstOf(due, customer, i) && later.churnedAt == Some(Expiry(b.rows, due[i]))
  }

  /** What one more row does to a customer. */
  lemma ExpireOneChurns(b: Books, key: Key, now: Time, customer: string)
    requires customer in b.customers && key in b.rows
    ensures var e := ExpireOne(b, key, now);
            && customer in e.customers && e.customers[customer].acquiredAt == b.customers[customer].acquiredAt
            && e.customers[customer].churnedAt ==
                 if key.customer == customer && !AnyAccess(b.rows, customer, now) && b.customers[customer].churnedAt.None?
                 then Some(b.rows[key].expiresAt) else b.customers[customer].churnedAt
  {
    SameAccessAfter(b, key, now);
  }

  lemma ChurnStep(b: Books, now: Time, due: seq<Key>, key: Key, customer: string, was: Customer, before: Customer, later: Customer)
    requires ChurnIs(b, now, due, customer, was, before) && later.acquiredAt == before.acquiredAt
    requires later.churnedAt ==
               if key.customer == customer && !AnyAccess(b.rows, customer, now) && before.churnedAt.None?
               then Some(Expiry(b.rows, key)) else before.churnedAt
    ensures ChurnIs(b, now, due + [key], customer, was, later)
  {
    var n := |due|;
    if was.churnedAt.None? && !AnyAccess(b.rows, customer, now) {
      if forall i :: 0 <= i < n ==> due[i].customer != customer {
        if key.customer == customer {
          assert FirstOf(due + [key], customer, n) && (due + [key])[n] == key;
        } else {
          assert forall i :: 0 <= i <= n ==> (due + [key])[i].customer != customer;
        }
      } else {
        var i: nat :| FirstOf(due, customer, i) && before.churnedAt == Some(Expiry(b.rows, due[i]));
        assert FirstOf(due + [key], customer, i) && (due + [key])[i] == due[i];
      }
    }
  }

  lemma {:induction false} ExpireChurns(b: Books, now: Time, due: seq<Key>, customer: string)
    requires customer in b.customers && forall k :: k in due ==> k in b.rows
    ensures customer in Expire(b, now, due).customers
    ensures ChurnIs(b, now, due, customer, b.customers[customer], Expire(b, now, due).customers[customer])
  {
    if due != [] {
      var init, key := due[..|due| - 1], due[|due| - 1];
      InitAndLast(due);
      ExpireChurns(b, now, init, customer);
      var e := Expire(b, now, init);
      ExpireKeepsDates(b, now, init, key);
      AccessSame(b, now, init, customer, now);
      ExpireOneChurns(e, key, now, customer);
      ChurnStep(b, now, init, key, customer, b.customers[customer], e.customers[customer], ExpireOne(e, key, now).customers[customer]);
      assert due == init + [key];
    }
  }

  ghost predicate HasDueRow(b: Books, customer: string, now: Time) {
    exists k :: k in b.rows && k.customer == customer && b.rows[k].active && b.rows[k].expiresAt <= now
  }

  /** A customer is marked as gone by a write-off exactly when it is the last of what they had that runs
      out, and then as of the moment the first of it did; otherwise they stay as they are. */
  lemma ChurnedIff(b: Books, now: Time, due: seq<Key>, customer: string)
    requires DueList(b, now, due) && customer in b.customers
    ensures customer in Expire(b, now, due).customers
    ensures var was, later := b.customers[customer], Expire(b, now, due).customers[customer];
            if was.churnedAt.None? && HasDueRow(b, customer, now) && !(exists k :: k in b.rows && k.customer == customer && now < b.rows[k].expiresAt)
            then later.acquiredAt == was.acquiredAt && later.churnedAt.Some? && FirstToRunOut(b, customer, now, later.churnedAt.value)
            else later == was
  {
    forall k | k in due ensures k in b.rows { assert IsDue(b.rows, k, now); }
    ExpireChurns(b, now, due, customer);
    if HasDueRow(b, customer, now) {
      var k :| k in b.rows && k.customer == customer && b.rows[k].active && b.rows[k].expiresAt <= now;
      assert IsDue(b.rows, k, now);
      assert k in due;
      var m :| 0 <= m < |due| && due[m] == k;
      if b.customers[customer].churnedAt.None? && !AnyAccess(b.rows, customer, now) {
        var later := Expire(b, now, due).customers[customer];
        var i: nat :| FirstOf(due, customer, i) && later.churnedAt == Some(Expiry(b.rows, due[i]));
        FirstIsEarliest(b, now, due, customer, i);
      }
    } else {
      forall i | 0 <= i < |due| ensures due[i].customer != customer {
        assert due[i] in due;
        assert IsDue(b.rows, due[i], now);
      }
    }
  }

  ghost predicate FirstToRunOut(b: Books, customer: string, now: Time, at: Time) {
    && (exists k :: k in b.rows && k.customer == customer && b.rows[k].active && b.rows[k].expiresAt == at)
    && forall k :: k in b.rows && k.customer == customer && b.rows[k].active && b.rows[k].expiresAt <= now ==> at <= b.rows[k].expiresAt
  }

  lemma FirstIsEarliest(b: Books, now: Time, due: seq<Key>, customer: string, i: nat)
    requires DueList(b, now, due) && FirstOf(due, customer, i)
    ensures due[i] in b.rows && FirstToRunOut(b, customer, now, b.rows[due[i]].expiresAt)
  {
    assert due[i] in due;
    assert IsDue(b.rows, due[i], now);
    forall k | k in b.rows && k.customer == customer && b.rows[k].active && b.rows[k].expiresAt <= now
      ensures b.rows[due[i]].expiresAt <= b.rows[k].expiresAt
    {
      assert IsDue(b.rows, k, now);
      assert k in due;
      var m :| 0 <= m < |due| && due[m] == k;
      assert i <= m;
      assert Expiry(b.rows, due[i]) <= Expiry(b.rows, due[m]);
    }
  }
}
