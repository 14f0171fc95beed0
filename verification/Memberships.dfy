/** Buying access once and letting it run out (backend/autora/company/memberships.py). Times are
    instants, `ends` is how the calendar adds an interval. */
module Memberships {
  import opened Wrappers
  import opened Sequences
  import opened Calendar
  import opened Grants

  datatype Customer = Customer(acquiredAt: Time, churnedAt: Option<Time>)

  /** The rows of a company: payments as they came in, memberships, customers, and the ledger's keys. */
  datatype Books = Books(payments: seq<Payment>, rows: map<Key, Row>, customers: map<string, Customer>, keys: set<string>)

  /** A notification of the provider; `booked` is what the ledger makes of the amount, if it has a rate. */
  datatype Sale = Sale(ref: Ref, key: Key, interval: Interval, amount: int, booked: Option<int>, paidAt: Time, forSale: bool)

  datatype Refusal = Retired | NobodyPays | NoRate | NoMoney | KeyTaken

  /** One charge, one row (memberships.py:80-82). */
  function PaymentKey(ref: Ref): string {
    "payment:" + ref.provider + ":" + ref.external
  }

  /** Providers are named in lower-case letters, digits and underscores. */
  predicate PlainName(s: string) {
    ':' !in s
  }

  lemma ColonPlaced(a: string, x: string, b: string, y: string)
    requires PlainName(b)
    ensures a + ":" + x == b + ":" + y ==> |b| <= |a|
  {
    if |a| < |b| {
      assert (a + ":" + x)[|a|] == ':';
      assert (b + ":" + y)[|a|] == b[|a|] && b[|a|] in b;
    }
  }

  /** Charges of plainly named providers have the same key only if they are the same. */
  lemma PaymentKeysDiffer(r: Ref, s: Ref)
    requires PlainName(r.provider) && PlainName(s.provider)
    ensures PaymentKey(r) == PaymentKey(s) <==> r == s
  {
    if PaymentKey(r) == PaymentKey(s) {
      assert PaymentKey(r)[8..] == r.provider + ":" + r.external;
      assert PaymentKey(s)[8..] == s.provider + ":" + s.external;
      ColonPlaced(r.provider, r.external, s.provider, s.external);
      ColonPlaced(s.provider, s.external, r.provider, r.external);
      assert (r.provider + ":" + r.external)[..|r.provider|] == r.provider;
      assert (s.provider + ":" + s.external)[..|s.provider|] == s.provider;
      assert (r.provider + ":" + r.external)[|r.provider| + 1..] == r.external;
      assert (s.provider + ":" + s.external)[|s.provider| + 1..] == s.external;
    }
  }

  predicate Blank(s: string) {
    forall c :: c in s ==> c in " \t\n\r"
  }

  function WithRef(ps: seq<Payment>, ref: Ref): Option<Payment> {
    if ps == [] then None
    else if ps[|ps| - 1].ref == ref then Some(ps[|ps| - 1]) else WithRef(ps[..|ps| - 1], ref)
  }

  function RowAt(rows: map<Key, Row>, key: Key): Option<Row> {
    if key in rows then Some(rows[key]) else None
  }

  function Welcome(customers: map<string, Customer>, name: string, at: Time): Customer {
    if name in customers then customers[name].(churnedAt := None) else Customer(at, None)
  }

  /** What is wrong with a sale that is not known yet (memberships.py:186-226). */
  function Refused(b: Books, sale: Sale): Option<Refusal> {
    if !sale.forSale then Some(Retired)
    else if sale.key.customer !in b.customers && Blank(sale.key.customer) then Some(NobodyPays)
    else if sale.booked.None? then Some(NoRate)
    else if sale.booked.value <= 0 then Some(NoMoney)
    else if PaymentKey(sale.ref) in b.keys then Some(KeyTaken)
    else None
  }

  function Bought(ends: (Time, Interval) -> Time, b: Books, sale: Sale): Payment {
    Paid(ends, RowAt(b.rows, sale.key), sale.ref, sale.key, sale.interval, sale.amount, sale.paidAt)
  }

  function Sold(ends: (Time, Interval) -> Time, b: Books, sale: Sale): Books {
    Books(b.payments + [Bought(ends, b, sale)],
      b.rows[sale.key := RowAfter(ends, RowAt(b.rows, sale.key), sale.paidAt, sale.interval)],
      b.customers[sale.key.customer := Welcome(b.customers, sale.key.customer, sale.paidAt)],
      b.keys + {PaymentKey(sale.ref)})
  }

  /** The purchase: the payment, and whether it is new (memberships.py:163-285). */
  function Purchase(ends: (Time, Interval) -> Time, b: Books, sale: Sale): (Books, Result<(Payment, bool), Refusal>) {
    var existing := WithRef(b.payments, sale.ref);
    if existing.Some? then (b, Ok((existing.value, false)))
    else
      var refused := Refused(b, sale);
      if refused.Some? then (b, Err(refused.value))
      else (Sold(ends, b, sale), Ok((Bought(ends, b, sale), true)))
  }

  // ---- running out -------------------------------------------------------------------------------

  predicate AnyAccess(rows: map<Key, Row>, customer: string, at: Time) {
    exists k :: k in rows && k.customer == customer && rows[k].expiresAt > at
  }

  function Expiry(rows: map<Key, Row>, key: Key): Time {
    if key in rows then rows[key].expiresAt else 0
  }

  predicate IsDue(rows: map<Key, Row>, key: Key, now: Time) {
    key in rows && rows[key].active && rows[key].expiresAt <= now
  }

  /** The due memberships, the first to run out first. */
  ghost predicate DueList(b: Books, now: Time, due: seq<Key>) {
    && Distinct(due)
    && (forall k {:trigger k in due} {:trigger IsDue(b.rows, k, now)} :: k in due <==> IsDue(b.rows, k, now))
    && forall i, j {:trigger due[i], due[j]} :: 0 <= i < j < |due| ==> Expiry(b.rows, due[i]) <= Expiry(b.rows, due[j])
  }

  function Churn(c: Customer, at: Time): Customer {
    if c.churnedAt.Some? then c else c.(churnedAt := Some(at))
  }

  /** One membership written off (memberships.py:360-388). */
  function ExpireOne(b: Books, key: Key, now: Time): Books {
    if key !in b.rows then b
    else
      var row := b.rows[key];
      var b1 := b.(rows := b.rows[key := row.(active := false)]);
      if AnyAccess(b1.rows, key.customer, now) || key.customer !in b.customers then b1
      else b1.(customers := b.customers[key.customer := Churn(b.customers[key.customer], row.expiresAt)])
  }

  function Expire(b: Books, now: Time, due: seq<Key>): Books {
    if due == [] then b else ExpireOne(Expire(b, now, due[..|due| - 1]), due[|due| - 1], now)
  }

  // ---- what the books keep -----------------------------------------------------------------------

  /** A customer's payments for one product, in the order they came in. */
  function Of(ps: seq<Payment>, key: Key): seq<Payment> {
    if ps == [] then []
    else Of(ps[..|ps| - 1], key) + if ps[|ps| - 1].key == key then [ps[|ps| - 1]] else []
  }

  ghost predicate KeyOk(ends: (Time, Interval) -> Time, b: Books, key: Key) {
    Granted(ends, Of(b.payments, key)) && Matches(RowAt(b.rows, key), Of(b.payments, key))
  }

  ghost predicate RefsDiffer(ps: seq<Payment>, i: int, j: int) {
    0 <= i < j < |ps| ==> ps[i].ref != ps[j].ref
  }

  /** Every row is what the payments say, and no reference was paid for twice. */
  ghost predicate BooksOk(ends: (Time, Interval) -> Time, b: Books) {
    && (forall key {:trigger KeyOk(ends, b, key)} :: KeyOk(ends, b, key))
    && (forall i, j {:trigger RefsDiffer(b.payments, i, j)} :: RefsDiffer(b.payments, i, j))
    && (forall i {:trigger b.payments[i]} :: 0 <= i < |b.payments| ==> PaymentKey(b.payments[i].ref) in b.keys)
    && (forall key {:trigger key in b.rows} :: key in b.rows ==> key.customer in b.customers)
  }

  lemma {:induction false} WithRefFinds(ps: seq<Payment>, ref: Ref)
    ensures match WithRef(ps, ref) case Some(p) => p in ps && p.ref == ref
                                   case None => forall i :: 0 <= i < |ps| ==> ps[i].ref != ref
  {
    if ps != [] { WithRefFinds(ps[..|ps| - 1], ref); }
  }

  lemma OfSnoc(ps: seq<Payment>, p: Payment, key: Key)
    ensures Of(ps + [p], key) == if p.key == key then Of(ps, key) + [p] else Of(ps, key)
  {
    assert (ps + [p])[..|ps|] == ps;
  }

  lemma SoldKeepsKey(ends: (Time, Interval) -> Time, b: Books, sale: Sale, key: Key)
    requires KeyOk(ends, b, key)
    ensures KeyOk(ends, Sold(ends, b, sale), key)
  {
    OfSnoc(b.payments, Bought(ends, b, sale), key);
    if key == sale.key {
      PurchaseMatches(ends, RowAt(b.rows, key), Of(b.payments, key), sale.ref, sale.key, sale.interval, sale.amount, sale.paidAt);
    }
  }

  lemma SoldKeepsRefs(ends: (Time, Interval) -> Time, b: Books, sale: Sale)
    requires BooksOk(ends, b) && WithRef(b.payments, sale.ref).None?
    ensures var ps := Sold(ends, b, sale).payments; forall i, j {:trigger RefsDiffer(ps, i, j)} :: RefsDiffer(ps, i, j)
  {
    var ps := Sold(ends, b, sale).payments;
    WithRefFinds(b.payments, sale.ref);
    forall i, j {:trigger RefsDiffer(ps, i, j)} ensures RefsDiffer(ps, i, j) { assert RefsDiffer(b.payments, i, j); }
  }

  /** Every purchase, new, repeated or refused, keeps the books in order. */
  lemma PurchaseKeepsBooks(ends: (Time, Interval) -> Time, b: Books, sale: Sale)
    requires BooksOk(ends, b)
    ensures BooksOk(ends, Purchase(ends, b, sale).0)
  {
    var after := Purchase(ends, b, sale).0;
    if after != b {
      SoldKeepsRefs(ends, b, sale);
      forall key {:trigger KeyOk(ends, after, key)} ensures KeyOk(ends, after, key) {
        assert KeyOk(ends, b, key);
        SoldKeepsKey(ends, b, sale, key);
      }
    }
  }

  lemma {:induction false} ExpireKeepsDates(b: Books, now: Time, due: seq<Key>, key: Key)
    ensures var e := Expire(b, now, due);
            && e.payments == b.payments && e.keys == b.keys && e.customers.Keys == b.customers.Keys && e.rows.Keys == b.rows.Keys
            && (key in b.rows ==> e.rows[key] == b.rows[key].(active := b.rows[key].active && key !in due))
  {
    if due != [] {
      ExpireKeepsDates(b, now, due[..|due| - 1], key);
      ExpireKeepsDates(b, now, due[..|due| - 1], due[|due| - 1]);
      assert due == due[..|due| - 1] + [due[|due| - 1]];
    }
  }

  /** Writing off changes no date: whoever could read still can, and nobody else. */
  lemma ExpireKeepsBooks(ends: (Time, Interval) -> Time, b: Books, now: Time, due: seq<Key>)
    requires BooksOk(ends, b)
    ensures BooksOk(ends, Expire(b, now, due))
    ensures forall key, t {:trigger HasAccess(RowAt(Expire(b, now, due).rows, key), t)} ::
              HasAccess(RowAt(Expire(b, now, due).rows, key), t) == HasAccess(RowAt(b.rows, key), t)
  {
    var e := Expire(b, now, due);
    forall key ensures KeyOk(ends, e, key) && forall t :: HasAccess(RowAt(e.rows, key), t) == HasAccess(RowAt(b.rows, key), t) {
      ExpireKeepsDates(b, now, due, key);
      assert KeyOk(ends, b, key);
    }
    ExpireKeepsDates(b, now, due, Key("", ""));
  }

  // ---- once per reference ------------------------------------------------------------------------

  /** Notified again, nothing changes, and the answer is the first payment. */
  lemma NotifiedTwiceIsOnce(ends: (Time, Interval) -> Time, b: Books, sale: Sale, again: Sale)
    requires BooksOk(ends, b) && again.ref == sale.ref
    ensures var (b1, r1) := Purchase(ends, b, sale);
            r1.Ok? ==> Purchase(ends, b1, again) == (b1, Ok((r1.value.0, false)))
  {
    WithRefFinds(b.payments, sale.ref);
    var (b1, r1) := Purchase(ends, b, sale);
    if r1.Ok? && r1.value.1 { assert b1.payments[|b1.payments| - 1].ref == sale.ref; }
  }

  /** A payment is refused for its key only if the ledger has a row under it that no payment points at. */
  lemma KeyTakenMeansOrphan(ends: (Time, Interval) -> Time, b: Books, sale: Sale)
    requires BooksOk(ends, b) && PlainName(sale.ref.provider) && forall p :: p in b.payments ==> PlainName(p.ref.provider)
    requires Purchase(ends, b, sale).1 == Err(KeyTaken)
    ensures PaymentKey(sale.ref) in b.keys && forall p :: p in b.payments ==> PaymentKey(p.ref) != PaymentKey(sale.ref)
  {
    WithRefFinds(b.payments, sale.ref);
    forall p | p in b.payments ensures PaymentKey(p.ref) != PaymentKey(sale.ref) {
      var i :| 0 <= i < |b.payments| && b.payments[i] == p;
      PaymentKeysDiffer(p.ref, sale.ref);
    }
  }

  // ---- who has left ------------------------------------------------------------------------------

  ghost predicate HasActiveRow(b: Books, customer: string) {
    exists k :: k in b.rows && k.customer == customer && b.rows[k].active
  }

  /** Customers may also be acquired without a membership. */
  ghost predicate HasRow(b: Books, customer: string) {
    exists k :: k in b.rows && k.customer == customer
  }

  ghost predicate CustomerOk(b: Books, customer: string, clock: Time) {
    customer in b.customers ==>
      if b.customers[customer].churnedAt.Some? then !AnyAccess(b.rows, customer, clock) else HasActiveRow(b, customer) || !HasRow(b, customer)
  }

  /** As of the last time anything was written off. */
  ghost predicate Clocked(b: Books, clock: Time) {
    && (forall k {:trigger b.rows[k]} :: k in b.rows && !b.rows[k].active ==> b.rows[k].expiresAt <= clock)
    && (forall c {:trigger CustomerOk(b, c, clock)} :: CustomerOk(b, c, clock))
    && (forall k {:trigger k in b.rows} :: k in b.rows ==> k.customer in b.customers)
  }

  lemma SoldKeepsClocked(ends: (Time, Interval) -> Time, b: Books, sale: Sale, clock: Time)
    requires Clocked(b, clock)
    ensures Clocked(Sold(ends, b, sale), clock)
  {
    var b1 := Sold(ends, b, sale);
    forall c ensures CustomerOk(b1, c, clock) {
      assert CustomerOk(b, c, clock);
      if c == sale.key.customer {
        assert sale.key in b1.rows && b1.rows[sale.key].active;
      } else if c in b.customers && b.customers[c].churnedAt.None? && HasActiveRow(b, c) {
        var k :| k in b.rows && k.customer == c && b.rows[k].active;
        assert k in b1.rows && b1.rows[k] == b.rows[k];
      }
    }
  }

  /** While the list is worked through: whoever is still marked as a customer has a running row, or one
      that is still to come. */
  ghost predicate Midway(b: Books, before: Books, customer: string, now: Time, rest: set<Key>) {
    customer in before.customers ==>
      && customer in b.customers
      && (b.customers[customer].churnedAt.Some? ==> !AnyAccess(before.rows, customer, now))
      && (b.customers[customer].churnedAt.None? ==>
            AnyAccess(before.rows, customer, now) || !HasRow(before, customer) || exists k :: k in rest && k.customer == customer)
  }

  lemma AccessSame(b: Books, now: Time, due: seq<Key>, customer: string, at: Time)
    ensures AnyAccess(Expire(b, now, due).rows, customer, at) == AnyAccess(b.rows, customer, at)
  {
    var e := Expire(b, now, due);
    forall k ensures k in e.rows <==> k in b.rows { ExpireKeepsDates(b, now, due, k); }
    forall k | k in b.rows ensures e.rows[k].expiresAt == b.rows[k].expiresAt { ExpireKeepsDates(b, now, due, k); }
  }

  lemma {:induction false} ExpireMarks(b: Books, now: Time, due: seq<Key>, all: set<Key>, customer: string)
    requires forall k :: k in due ==> k in b.rows && k.customer in b.customers
    requires Midway(b, b, customer, now, all)
    ensures Midway(Expire(b, now, due), b, customer, now, all - Elements(due))
    decreases |due|
  {
    if due != [] {
      var n := |due| - 1;
      var key := due[n];
      ExpireMarks(b, now, due[..n], all, customer);
      var e := Expire(b, now, due[..n]);
      ExpireKeepsDates(b, now, due[..n], key);
      AccessSame(b, now, due[..n], key.customer, now);
      SameAccessAfter(e, key, now);
      assert due == due[..n] + [key];
      assert Elements(due) == Elements(due[..n]) + {key};
    } else {
      assert all - Elements(due) == all;
    }
  }

  lemma SameAccessAfter(b: Books, key: Key, now: Time)
    requires key in b.rows
    ensures AnyAccess(b.rows[key := b.rows[key].(active := false)], key.customer, now) == AnyAccess(b.rows, key.customer, now)
  {
    var rows := b.rows[key := b.rows[key].(active := false)];
    assert forall k :: k in rows ==> k in b.rows && rows[k].expiresAt == b.rows[k].expiresAt;
    assert forall k :: k in b.rows ==> k in rows && rows[k].expiresAt == b.rows[k].expiresAt;
  }

  /** After the memberships that ran out are written off, exactly those customers are marked as gone
      who have no access to anything, of all that ever had a membership. */
  lemma ExpireTellsWhoLeft(b: Books, now: Time, due: seq<Key>, clock: Time, customer: string)
    requires Clocked(b, clock) && clock <= now && DueList(b, now, due) && customer in b.customers
    ensures customer in Expire(b, now, due).customers
    ensures Expire(b, now, due).customers[customer].churnedAt.Some? ==> !AnyAccess(Expire(b, now, due).rows, customer, now)
    ensures HasRow(b, customer) && !AnyAccess(Expire(b, now, due).rows, customer, now) ==> Expire(b, now, due).customers[customer].churnedAt.Some?
  {
    assert CustomerOk(b, customer, clock);
    var all := Elements(due);
    if b.customers[customer].churnedAt.None? && !AnyAccess(b.rows, customer, now) && HasRow(b, customer) {
      var k :| k in b.rows && k.customer == customer && b.rows[k].active;
      assert IsDue(b.rows, k, now);
      assert k in all;
    }
    ExpireMarks(b, now, due, all, customer);
    assert all - Elements(due) == {};
    AccessSame(b, now, due, customer, now);
  }

  lemma ExpireKeepsClocked(b: Books, now: Time, due: seq<Key>, clock: Time)
    requires Clocked(b, clock) && clock <= now && DueList(b, now, due)
    ensures Clocked(Expire(b, now, due), now)
  {
    var e := Expire(b, now, due);
    forall k ensures k in e.rows <==> k in b.rows { ExpireKeepsDates(b, now, due, k); }
    forall k | k in e.rows && !e.rows[k].active ensures e.rows[k].expiresAt <= now {
      ExpireKeepsDates(b, now, due, k);
      assert k in due ==> IsDue(b.rows, k, now);
    }
    ExpireKeepsDates(b, now, due, Key("", ""));
    forall c ensures CustomerOk(e, c, now) {
      if c in e.customers {
        ExpireTellsWhoLeft(b, now, due, clock, c);
        if e.customers[c].churnedAt.None? && HasRow(e, c) {
          var h :| h in e.rows && h.customer == c;
          ExpireKeepsDates(b, now, due, h);
          var k :| k in e.rows && k.customer == c && e.rows[k].expiresAt > now;
          ExpireKeepsDates(b, now, due, k);
          assert k in due ==> IsDue(b.rows, k, now);
        }
      }
    }
  }

  /** Safe to repeat: a second time nothing is due. */
  lemma ExpireTwiceIsOnce(b: Books, now: Time, due: seq<Key>, again: seq<Key>)
    requires DueList(b, now, due) && DueList(Expire(b, now, due), now, again)
    ensures Expire(Expire(b, now, due), now, again) == Expire(b, now, due)
  {
    var e := Expire(b, now, due);
    if again != [] {
      var k := again[0];
      ExpireKeepsDates(b, now, due, k);
      assert IsDue(e.rows, k, now);
      assert IsDue(b.rows, k, now);
      assert false;
    }
  }

  // ---- all that may happen -----------------------------------------------------------------------

  /** A notification, a day's write-off, or a customer who comes without a membership. */
  datatype BookStep = Buy(sale: Sale) | WriteOff(now: Time, due: seq<Key>) | Acquire(name: string, at: Time)

  /** A write-off is of what is due, and not before the one before it. */
  ghost predicate Possible(b: Books, clock: Time, s: BookStep) {
    s.WriteOff? ==> clock <= s.now && DueList(b, s.now, s.due)
  }

  ghost function BooksNext(ends: (Time, Interval) -> Time, b: Books, s: BookStep): Books {
    match s
    case Buy(sale) => Purchase(ends, b, sale).0
    case WriteOff(now, due) => Expire(b, now, due)
    case Acquire(name, at) => if name in b.customers then b else b.(customers := b.customers[name := Customer(at, None)])
  }

  /** The books and the moment of the last write-off after some steps; one that is not possible does not
      happen. */
  ghost function BooksAfter(ends: (Time, Interval) -> Time, start: Time, steps: seq<BookStep>): (Books, Time) {
    if steps == [] then (Books([], map[], map[], {}), start)
    else
      var (b, clock) := BooksAfter(ends, start, steps[..|steps| - 1]);
      var s := steps[|steps| - 1];
      if !Possible(b, clock, s) then (b, clock)
      else (BooksNext(ends, b, s), if s.WriteOff? then s.now else clock)
  }

  lemma AcquiredKeeps(ends: (Time, Interval) -> Time, b: Books, clock: Time, name: string, at: Time)
    requires BooksOk(ends, b) && Clocked(b, clock)
    ensures BooksOk(ends, BooksNext(ends, b, Acquire(name, at))) && Clocked(BooksNext(ends, b, Acquire(name, at)), clock)
  {
    var b' := BooksNext(ends, b, Acquire(name, at));
    forall key ensures KeyOk(ends, b', key) { assert KeyOk(ends, b, key); }
    forall i, j {:trigger RefsDiffer(b'.payments, i, j)} ensures RefsDiffer(b'.payments, i, j) { assert RefsDiffer(b.payments, i, j); }
    forall c ensures CustomerOk(b', c, clock) { assert CustomerOk(b, c, clock); }
  }

  lemma BoughtKeepsClocked(ends: (Time, Interval) -> Time, b: Books, clock: Time, sale: Sale)
    requires Clocked(b, clock)
    ensures Clocked(Purchase(ends, b, sale).0, clock)
  {
    SoldKeepsClocked(ends, b, sale, clock);
  }

  /** Whatever notifications and write-offs there are, every row is what its payments say, no reference was
      paid for twice, and nobody with access is marked as gone. */
  lemma {:induction false} BooksAreKept(ends: (Time, Interval) -> Time, start: Time, steps: seq<BookStep>)
    ensures BooksOk(ends, BooksAfter(ends, start, steps).0) && Clocked(BooksAfter(ends, start, steps).0, BooksAfter(ends, start, steps).1)
  {
    if steps == [] {
      EmptyBooksAreKept(ends, start);
    } else {
      var (b, clock) := BooksAfter(ends, start, steps[..|steps| - 1]);
      var s := steps[|steps| - 1];
      BooksAreKept(ends, start, steps[..|steps| - 1]);
      if Possible(b, clock, s) {
        match s
        case Buy(sale) => PurchaseKeepsBooks(ends, b, sale); BoughtKeepsClocked(ends, b, clock, sale);
        case WriteOff(now, due) => ExpireKeepsBooks(ends, b, now, due); ExpireKeepsClocked(b, now, due, clock);
        case Acquire(name, at) => AcquiredKeeps(ends, b, clock, name, at);
      }
    }
  }

  lemma EmptyBooksAreKept(ends: (Time, Interval) -> Time, start: Time)
    ensures BooksOk(ends, Books([], map[], map[], {})) && Clocked(Books([], map[], map[], {}), start)
  {
    var b := Books([], map[], map[], {});
    forall key ensures KeyOk(ends, b, key) {}
    forall i, j {:trigger RefsDiffer(b.payments, i, j)} ensures RefsDiffer(b.payments, i, j) {}
    forall c ensures CustomerOk(b, c, start) {}
  }

  /** In every reachable state: right after a write-off exactly those who ever had a membership and have
      access to nothing are marked as gone. */
  lemma WriteOffTellsWhoLeft(ends: (Time, Interval) -> Time, start: Time, steps: seq<BookStep>, now: Time, due: seq<Key>, customer: string)
    requires var (b, clock) := BooksAfter(ends, start, steps); Possible(b, clock, WriteOff(now, due)) && HasRow(b, customer)
    ensures var b := BooksAfter(ends, start, steps + [WriteOff(now, due)]).0;
            customer in b.customers && (b.customers[customer].churnedAt.Some? <==> !AnyAccess(b.rows, customer, now))
  {
    var (b, clock) := BooksAfter(ends, start, steps);
    assert (steps + [WriteOff(now, due)])[..|steps|] == steps;
    BooksAreKept(ends, start, steps);
    var k :| k in b.rows && k.customer == customer;
    ExpireTellsWhoLeft(b, now, due, clock, customer);
  }

  /** And at any moment from the start of the row on, whoever has access has it by some payment. */
  lemma ReachableAccessIsCoverage(ends: (Time, Interval) -> Time, start: Time, steps: seq<BookStep>, key: Key, t: Time)
    requires Forward(ends)
    ensures var b := BooksAfter(ends, start, steps).0;
            var row := RowAt(b.rows, key);
            HasAccess(row, t) <==> Covered(Of(b.payments, key), t) || (row.Some? && t < row.value.startedAt)
  {
    var b := BooksAfter(ends, start, steps).0;
    BooksAreKept(ends, start, steps);
    assert KeyOk(ends, b, key);
    AccessIs(ends, RowAt(b.rows, key), Of(b.payments, key), t);
  }
}
