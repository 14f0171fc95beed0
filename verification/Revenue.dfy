/** Members and payments of a period, all of it counted from payments alone
    (backend/autora/company/revenue.py:81-165). */
module Revenue {
  import opened Wrappers
  import opened Sequences
  import opened Calendar
  import opened Grants
  import opened Memberships

  const EXPIRING_WITHIN := 30 * DAY

  /** A customer's payments, for whatever product. */
  function ByCustomer(ps: seq<Payment>, customer: string): seq<Payment> {
    if ps == [] then []
    else ByCustomer(ps[..|ps| - 1], customer) + if ps[|ps| - 1].key.customer == customer then [ps[|ps| - 1]] else []
  }

  function Customers(ps: seq<Payment>): set<string> {
    set p | p in ps :: p.key.customer
  }

  /** How far anything paid for by a moment reaches. */
  function Reach(ps: seq<Payment>): Time
    requires ps != []
  {
    var init, last := ps[..|ps| - 1], ps[|ps| - 1].until;
    if init == [] || Reach(init) <= last then last else Reach(init)
  }

  predicate Member(ps: seq<Payment>, customer: string, at: Time) {
    exists p :: p in PaidBy(ByCustomer(ps, customer), at) && Covers(p, at)
  }

  predicate Expiring(ps: seq<Payment>, customer: string, at: Time) {
    var paid := PaidBy(ByCustomer(ps, customer), at);
    Member(ps, customer, at) && paid != [] && Reach(paid) <= at + EXPIRING_WITHIN
  }

  predicate Lapsed(ps: seq<Payment>, customer: string, since: Time, until: Time) {
    var paid := PaidBy(ByCustomer(ps, customer), until);
    paid != [] && since < Reach(paid) <= until
  }

  function Members(ps: seq<Payment>, at: Time): set<string> {
    set c | c in Customers(ps) && Member(ps, c, at)
  }

  function ExpiringMembers(ps: seq<Payment>, at: Time): set<string> {
    set c | c in Customers(ps) && Expiring(ps, c, at)
  }

  function LapsedMembers(ps: seq<Payment>, since: Time, until: Time): set<string> {
    set c | c in Customers(ps) && Lapsed(ps, c, since, until)
  }

  // ---- payments, new and renewed -----------------------------------------------------------------

  predicate InPeriod(p: Payment, since: Time, until: Time) {
    since <= p.paidAt <= until
  }

  /** Nothing of theirs was paid before it; of payments at the same moment the one with the smaller id,
      which is the one that came in first. */
  predicate First(ps: seq<Payment>, i: int)
    requires 0 <= i < |ps|
  {
    forall j :: 0 <= j < |ps| && ps[j].key.customer == ps[i].key.customer ==>
      ps[i].paidAt < ps[j].paidAt || (ps[i].paidAt == ps[j].paidAt && i <= j)
  }

  function Payments(ps: seq<Payment>, since: Time, until: Time): set<int> {
    set i | 0 <= i < |ps| && InPeriod(ps[i], since, until)
  }

  function NewMembers(ps: seq<Payment>, since: Time, until: Time): set<int> {
    set i | 0 <= i < |ps| && InPeriod(ps[i], since, until) && First(ps, i)
  }

  /** The numbers of a period. */
  datatype Numbers = Numbers(payments: nat, newMembers: nat, renewals: int, members: nat, expiring: nat, lapsed: nat)

  function MembershipNumbers(ps: seq<Payment>, since: Time, until: Time): Numbers {
    var payments, news := |Payments(ps, since, until)|, |NewMembers(ps, since, until)|;
    Numbers(payments, news, payments - news, |Members(ps, until)|, |ExpiringMembers(ps, until)|, |LapsedMembers(ps, since, until)|)
  }

  // ---- payments and rows agree -------------------------------------------------------------------

  ghost predicate ProductOk(ends: (Time, Interval) -> Time, ps: seq<Payment>, key: Key) {
    Granted(ends, Of(ps, key))
  }

  /** Payments of well-kept books, in whatever order they came in. */
  ghost predicate History(ends: (Time, Interval) -> Time, ps: seq<Payment>) {
    forall key {:trigger ProductOk(ends, ps, key)} :: ProductOk(ends, ps, key)
  }

  /** The row of a product as what had come in promptly had left it at a past moment. */
  function PastRow(ends: (Time, Interval) -> Time, ps: seq<Payment>, key: Key, at: Time): Option<Row> {
    Replayed(ends, Prompt(Of(ps, key), at))
  }

  /** Some product's payment made by the moment came in after one made later. */
  ghost predicate LateCustomer(ps: seq<Payment>, customer: string, at: Time) {
    exists product {:trigger Of(ps, Key(customer, product))} :: Late(Of(ps, Key(customer, product)), at)
  }

  lemma {:induction false} OfIn(ps: seq<Payment>, key: Key, p: Payment)
    ensures p in Of(ps, key) <==> p in ps && p.key == key
  {
    if ps != [] {
      OfIn(ps[..|ps| - 1], key, p);
      InitAndLast(ps);
    }
  }

  lemma {:induction false} ByCustomerIn(ps: seq<Payment>, customer: string, p: Payment)
    ensures p in ByCustomer(ps, customer) <==> p in ps && p.key.customer == customer
  {
    if ps != [] {
      ByCustomerIn(ps[..|ps| - 1], customer, p);
      InitAndLast(ps);
    }
  }

  lemma PaidAndOf(ps: seq<Payment>, customer: string, at: Time, p: Payment)
    ensures p in PaidBy(ByCustomer(ps, customer), at) <==> p in ps && p.key.customer == customer && p.paidAt <= at
    ensures p in PaidBy(Of(ps, p.key), at) <==> p in ps && p.paidAt <= at
  {
    PaidByIn(ByCustomer(ps, customer), at, p);
    ByCustomerIn(ps, customer, p);
    PaidByIn(Of(ps, p.key), at, p);
    OfIn(ps, p.key, p);
  }

  lemma CoveredIs(ps: seq<Payment>, t: Time)
    ensures Covered(ps, t) <==> exists p :: p in ps && Covers(p, t)
  {
    if Covered(ps, t) {
      var i :| 0 <= i < |ps| && Covers(ps[i], t);
      assert ps[i] in ps;
    }
    forall p | p in ps && Covers(p, t) ensures Covered(ps, t) {
      var i :| 0 <= i < |ps| && ps[i] == p;
    }
  }

  lemma RowCovers(ends: (Time, Interval) -> Time, ps: seq<Payment>, key: Key, at: Time)
    requires Forward(ends) && History(ends, ps)
    ensures HasAccess(PastRow(ends, ps, key, at), at) <==> exists p :: p in PaidBy(Of(ps, key), at) && Covers(p, at)
  {
    assert ProductOk(ends, ps, key);
    PastAccessIsCoverage(ends, Of(ps, key), at);
    CoveredIs(PaidBy(Of(ps, key), at), at);
  }

  /** Who was a member at a past moment by the payments is who the rows, replayed to it, gave access to
      some product. */
  lemma MembersAreTheRows(ends: (Time, Interval) -> Time, ps: seq<Payment>, customer: string, at: Time)
    requires Forward(ends) && History(ends, ps)
    ensures Member(ps, customer, at) <==> exists product :: HasAccess(PastRow(ends, ps, Key(customer, product), at), at)
  {
    if Member(ps, customer, at) {
      var p :| p in PaidBy(ByCustomer(ps, customer), at) && Covers(p, at);
      PaidAndOf(ps, customer, at, p);
      RowCovers(ends, ps, p.key, at);
      assert p.key == Key(customer, p.key.product);
    }
    forall product | HasAccess(PastRow(ends, ps, Key(customer, product), at), at) ensures Member(ps, customer, at) {
      RowCovers(ends, ps, Key(customer, product), at);
      var p :| p in PaidBy(Of(ps, Key(customer, product)), at) && Covers(p, at);
      PaidByIn(Of(ps, Key(customer, product)), at, p);
      OfIn(ps, Key(customer, product), p);
      PaidAndOf(ps, customer, at, p);
    }
  }

  // ---- how far access reaches --------------------------------------------------------------------

  lemma {:induction false} ReachIsFurthest(ps: seq<Payment>)
    requires ps != []
    ensures exists p :: p in ps && p.until == Reach(ps)
    ensures forall p :: p in ps ==> p.until <= Reach(ps)
  {
    var init := ps[..|ps| - 1];
    assert ps == init + [ps[|ps| - 1]];
    assert ps[|ps| - 1] in ps;
    if init != [] {
      ReachIsFurthest(init);
      var q :| q in init && q.until == Reach(init);
      assert q in ps;
    }
  }

  lemma LateReaches(ends: (Time, Interval) -> Time, ps: seq<Payment>, customer: string, at: Time)
    requires Forward(ends) && History(ends, ps) && LateCustomer(ps, customer, at)
    ensures exists p :: p in PaidBy(ByCustomer(ps, customer), at) && p.until > at
  {
    var product :| Late(Of(ps, Key(customer, product)), at);
    var mine := Of(ps, Key(customer, product));
    assert ProductOk(ends, ps, Key(customer, product));
    var i, j :| 0 <= i < j < |mine| && mine[j].paidAt <= at < mine[i].paidAt;
    LateIsLater(ends, mine, at, i, j);
    OfIn(ps, Key(customer, product), mine[j]);
    PaidAndOf(ps, customer, at, mine[j]);
  }

  lemma ReachesPromptOrLate(ends: (Time, Interval) -> Time, ps: seq<Payment>, customer: string, at: Time, p: Payment)
    requires Forward(ends) && History(ends, ps) && p in PaidBy(ByCustomer(ps, customer), at) && p.until > at
    ensures Member(ps, customer, at) || LateCustomer(ps, customer, at)
  {
    PaidAndOf(ps, customer, at, p);
    var mine := Of(ps, p.key);
    OfIn(ps, p.key, p);
    assert p.key == Key(customer, p.key.product);
    var i :| 0 <= i < |mine| && mine[i] == p;
    PromptOrLate(mine, at, i);
    if i < |Prompt(mine, at)| { PromptIsMember(ends, ps, p.key, at, i); }
  }

  lemma PromptIsMember(ends: (Time, Interval) -> Time, ps: seq<Payment>, key: Key, at: Time, i: nat)
    requires Forward(ends) && History(ends, ps) && i < |Prompt(Of(ps, key), at)| && Prompt(Of(ps, key), at)[i].until > at
    ensures Member(ps, key.customer, at)
  {
    var mine := Of(ps, key);
    var prompt := Prompt(mine, at);
    assert ProductOk(ends, ps, key);
    assert prompt == mine[..|prompt|];
    GrantedPrefix(ends, mine, |prompt|);
    NothingAfterTheRow(ends, prompt, i);
    ReplayedMatches(ends, prompt);
    assert HasAccess(PastRow(ends, ps, Key(key.customer, key.product), at), at);
    MembersAreTheRows(ends, ps, key.customer, at);
  }

  /** What was paid for by a moment reaches past it exactly when the customer was a member then, or some
      payment came in late. */
  lemma ReachingIsMemberOrLate(ends: (Time, Interval) -> Time, ps: seq<Payment>, customer: string, at: Time)
    requires Forward(ends) && History(ends, ps)
    ensures var paid := PaidBy(ByCustomer(ps, customer), at);
            paid != [] && Reach(paid) > at <==> Member(ps, customer, at) || LateCustomer(ps, customer, at)
  {
    var paid := PaidBy(ByCustomer(ps, customer), at);
    if paid != [] {
      ReachIsFurthest(paid);
      if Reach(paid) > at {
        var p :| p in paid && p.until == Reach(paid);
        ReachesPromptOrLate(ends, ps, customer, at, p);
      }
    }
    if LateCustomer(ps, customer, at) { LateReaches(ends, ps, customer, at); }
  }

  lemma PaidEarlier(ps: seq<Payment>, customer: string, since: Time, until: Time, p: Payment)
    requires since <= until && p in PaidBy(ByCustomer(ps, customer), since)
    ensures p in PaidBy(ByCustomer(ps, customer), until)
  {
    PaidByIn(ByCustomer(ps, customer), since, p);
    PaidByIn(ByCustomer(ps, customer), until, p);
  }

  /** Members who lapse are not members at the end; nobody is about to expire who is not a member. */
  lemma LapsedAreNotMembers(ends: (Time, Interval) -> Time, ps: seq<Payment>, since: Time, until: Time)
    requires Forward(ends) && History(ends, ps)
    ensures Members(ps, until) !! LapsedMembers(ps, since, until)
    ensures ExpiringMembers(ps, until) <= Members(ps, until)
  {
    forall c | c in Members(ps, until) ensures c !in LapsedMembers(ps, since, until) {
      ReachingIsMemberOrLate(ends, ps, c, until);
    }
  }

  /** A member of the start of a period who is none at its end has lapsed in it exactly when no payment of
      theirs made by the end came in late. */
  lemma LapsedIffNothingLate(ends: (Time, Interval) -> Time, ps: seq<Payment>, since: Time, until: Time, customer: string)
    requires Forward(ends) && History(ends, ps) && since <= until
    requires customer in Members(ps, since) && customer !in Members(ps, until)
    ensures customer in LapsedMembers(ps, since, until) <==> !LateCustomer(ps, customer, until)
  {
    ReachingIsMemberOrLate(ends, ps, customer, until);
    var p :| p in PaidBy(ByCustomer(ps, customer), since) && Covers(p, since);
    PaidEarlier(ps, customer, since, until, p);
    ReachIsFurthest(PaidBy(ByCustomer(ps, customer), until));
  }

  function LateCustomers(ps: seq<Payment>, at: Time): set<string> {
    set c | c in Customers(ps) && c !in Members(ps, at) && c in Reaching(ps, at)
  }

  /** The customers for whom something paid for by the moment reaches past it. */
  function Reaching(ps: seq<Payment>, at: Time): set<string> {
    set c | c in Customers(ps) && PaidBy(ByCustomer(ps, c), at) != [] && Reach(PaidBy(ByCustomer(ps, c), at)) > at
  }

  lemma MembersStayOrLapse(ends: (Time, Interval) -> Time, ps: seq<Payment>, since: Time, until: Time)
    requires Forward(ends) && History(ends, ps) && since <= until
    ensures Members(ps, since) <= Members(ps, until) + LapsedMembers(ps, since, until) + LateCustomers(ps, until)
    ensures forall c :: c in LateCustomers(ps, until) ==> LateCustomer(ps, c, until)
  {
    forall c | c in Members(ps, since) ensures c in Members(ps, until) + LapsedMembers(ps, since, until) + LateCustomers(ps, until) {
      if c !in Members(ps, until) { LapsedIffNothingLate(ends, ps, since, until, c); }
      ReachingIsMemberOrLate(ends, ps, c, until);
    }
    forall c | c in LateCustomers(ps, until) ensures LateCustomer(ps, c, until) { ReachingIsMemberOrLate(ends, ps, c, until); }
  }

  lemma UnionSize<T>(a: set<T>, b: set<T>, c: set<T>, d: set<T>)
    requires a <= b + c + d
    ensures |a| <= |b| + |c| + |d|
  {
    SubsetSize(a, b + c + d);
    assert |b + c| == |b| + |c| - |b * c|;
    assert |b + c + d| == |b + c| + |d| - |(b + c) * d|;
  }

  lemma SubsetSize<T>(a: set<T>, b: set<T>)
    requires a <= b
    ensures |a| <= |b|
    decreases |a|
  {
    if a != {} {
      var x :| x in a;
      SubsetSize(a - {x}, b - {x});
    }
  }

  /** As numbers: the members lost over a period are at most those that lapsed, and those a late payment
      was granted to elsewhere. */
  lemma NumbersAddUp(ends: (Time, Interval) -> Time, ps: seq<Payment>, since: Time, until: Time, before: Time)
    requires Forward(ends) && History(ends, ps) && before <= since <= until
    ensures var start, end := MembershipNumbers(ps, before, since), MembershipNumbers(ps, since, until);
            && start.members <= end.members + end.lapsed + |LateCustomers(ps, until)|
            && end.expiring <= end.members && 0 <= end.renewals
  {
    MembersStayOrLapse(ends, ps, since, until);
    LapsedAreNotMembers(ends, ps, since, until);
    UnionSize(Members(ps, since), Members(ps, until), LapsedMembers(ps, since, until), LateCustomers(ps, until));
    SubsetSize(ExpiringMembers(ps, until), Members(ps, until));
    SubsetSize(NewMembers(ps, since, until), Payments(ps, since, until));
  }

  // ---- payments that come in late ----------------------------------------------------------------

  /** Three payments for a month, the last of which was made before the second. */
  function LateHistory(ends: (Time, Interval) -> Time): seq<Payment> {
    var key := Key("reader", "news");
    var end := ends(500 * DAY, Month);
    [Payment(Ref("card", "a"), key, Month, 1, 0, 0, ends(0, Month)),
     Payment(Ref("card", "b"), key, Month, 1, 500 * DAY, 500 * DAY, end),
     Payment(Ref("card", "c"), key, Month, 1, 450 * DAY, end, ends(end, Month))]
  }

  /** A month is some four weeks to a year here. */
  ghost predicate Monthly(ends: (Time, Interval) -> Time) {
    forall t {:trigger ends(t, Month)} :: t + 28 * DAY <= ends(t, Month) <= t + 366 * DAY
  }

  lemma LateHistoryOf(ends: (Time, Interval) -> Time, key: Key)
    ensures Of(LateHistory(ends), key) == if key == Key("reader", "news") then LateHistory(ends) else []
    ensures ByCustomer(LateHistory(ends), "reader") == LateHistory(ends)
  {
    var ps := LateHistory(ends);
    assert ps[..2] == [ps[0], ps[1]] && [ps[0], ps[1]][..1] == [ps[0]] && [ps[0]][..0] == [];
    var mine := key == Key("reader", "news");
    assert Of([ps[0]], key) == if mine then [ps[0]] else [];
    assert Of([ps[0], ps[1]], key) == if mine then [ps[0], ps[1]] else [];
    assert ByCustomer([ps[0]], "reader") == [ps[0]];
    assert ByCustomer([ps[0], ps[1]], "reader") == [ps[0], ps[1]];
  }

  lemma LateHistoryIsGranted(ends: (Time, Interval) -> Time)
    requires Monthly(ends)
    ensures Granted(ends, LateHistory(ends)) && History(ends, LateHistory(ends))
  {
    var ps := LateHistory(ends);
    assert ends(0, Month) <= 366 * DAY && ends(500 * DAY, Month) >= 528 * DAY;
    forall i {:trigger GrantOk(ends, ps, i)} ensures GrantOk(ends, ps, i) { assert i == 0 || i == 1 || i == 2 || i < 0 || i > 2; }
    forall key {:trigger ProductOk(ends, ps, key)} ensures ProductOk(ends, ps, key) { LateHistoryOf(ends, key); }
  }

  lemma LatePaidBy(ends: (Time, Interval) -> Time)
    requires Monthly(ends)
    ensures var ps := LateHistory(ends); PaidBy(ps, 460 * DAY) == [ps[0], ps[2]] && PaidBy(ps, DAY) == [ps[0]]
  {
    var ps := LateHistory(ends);
    assert ps[..2] == [ps[0], ps[1]] && [ps[0], ps[1]][..1] == [ps[0]] && [ps[0]][..0] == [];
    assert PaidBy([ps[0]], 460 * DAY) == [ps[0]] && PaidBy([ps[0]], DAY) == [ps[0]];
    assert PaidBy([ps[0], ps[1]], 460 * DAY) == [ps[0]] && PaidBy([ps[0], ps[1]], DAY) == [ps[0]];
  }

  lemma LateReplayed(ends: (Time, Interval) -> Time)
    requires Monthly(ends)
    ensures var ps := LateHistory(ends); HasAccess(Replayed(ends, [ps[0], ps[2]]), 460 * DAY) && !Covered([ps[0], ps[2]], 460 * DAY)
  {
    var ps := LateHistory(ends);
    assert [ps[0], ps[2]][..1] == [ps[0]] && [ps[0]][..0] == [];
    assert Replayed(ends, [ps[0]]) == Some(Row(0, ends(0, Month), true));
    assert ends(450 * DAY, Month) >= 478 * DAY && ends(0, Month) <= 366 * DAY && ends(500 * DAY, Month) >= 528 * DAY;
  }

  lemma LateIsLost(ends: (Time, Interval) -> Time)
    requires Monthly(ends)
    ensures var ps := LateHistory(ends);
            "reader" in Members(ps, DAY) && "reader" !in Members(ps, 460 * DAY) && "reader" !in LapsedMembers(ps, DAY, 460 * DAY)
  {
    var ps := LateHistory(ends);
    LateHistoryOf(ends, Key("reader", "news"));
    LatePaidBy(ends);
    LateReplayed(ends);
    CoveredIs([ps[0], ps[2]], 460 * DAY);
    assert [ps[0], ps[2]][..1] == [ps[0]];
    assert ends(0, Month) >= 28 * DAY && ends(500 * DAY, Month) >= 528 * DAY && ends(ends(500 * DAY, Month), Month) >= 556 * DAY;
    assert Reach([ps[0], ps[2]]) == ps[2].until;
    assert ps[0] in ps && Covers(ps[0], DAY) && ps[0] in PaidBy(ps, DAY);
  }

  /** By the calendar: at day 460 the row replayed from all payments made by then gives access that the
      payments do not cover, and a member of day 1 is neither a member any more nor lapsed. */
  lemma LatePaymentsDiffer()
    ensures var ends := (t, i) => Ends(t, i);
            var ps := LateHistory(ends);
            var paid := PaidBy(Of(ps, Key("reader", "news")), 460 * DAY);
            && History(ends, ps) && HasAccess(Replayed(ends, paid), 460 * DAY) && !Covered(paid, 460 * DAY)
            && "reader" in Members(ps, DAY) && "reader" !in Members(ps, 460 * DAY) && "reader" !in LapsedMembers(ps, DAY, 460 * DAY)
  {
    var ends := (t, i) => Ends(t, i);
    forall t ensures t + 28 * DAY <= ends(t, Month) <= t + 366 * DAY { EndsIsAhead(t, Month); }
    LateHistoryIsGranted(ends);
    LateHistoryOf(ends, Key("reader", "news"));
    LatePaidBy(ends);
    LateReplayed(ends);
    LateIsLost(ends);
  }

  // ---- first payments ----------------------------------------------------------------------------

  /** Everybody who ever paid has a first payment. */
  lemma {:induction false} HasFirst(ps: seq<Payment>, customer: string, n: nat) returns (i: int)
    requires n <= |ps| && exists j :: 0 <= j < n && ps[j].key.customer == customer
    ensures 0 <= i < n && ps[i].key.customer == customer
    ensures forall j :: 0 <= j < n && ps[j].key.customer == customer ==> ps[i].paidAt < ps[j].paidAt || (ps[i].paidAt == ps[j].paidAt && i <= j)
    decreases n
  {
    if exists j :: 0 <= j < n - 1 && ps[j].key.customer == customer {
      i := HasFirst(ps, customer, n - 1);
      if ps[n - 1].key.customer == customer && ps[n - 1].paidAt < ps[i].paidAt { i := n - 1; }
    } else {
      i := n - 1;
    }
  }

  lemma FirstIsUnique(ps: seq<Payment>, i: int, j: int)
    requires 0 <= i < |ps| && 0 <= j < |ps| && First(ps, i) && First(ps, j) && ps[i].key.customer == ps[j].key.customer
    ensures i == j
  {
  }

  /** The customers whose first payment is in the period. */
  function Newcomers(ps: seq<Payment>, since: Time, until: Time): set<string> {
    set i | i in NewMembers(ps, since, until) && 0 <= i < |ps| :: ps[i].key.customer
  }

  lemma {:induction false} SameCount(ps: seq<Payment>, some: set<int>)
    requires forall i :: i in some ==> 0 <= i < |ps| && First(ps, i)
    ensures |set i | i in some && 0 <= i < |ps| :: ps[i].key.customer| == |some|
    decreases |some|
  {
    var names := set i | i in some && 0 <= i < |ps| :: ps[i].key.customer;
    if !exists x :: x in some {
      assert some == {} && names == {};
    } else {
      var x :| x in some;
      var rest := some - {x};
      var others := set i | i in rest && 0 <= i < |ps| :: ps[i].key.customer;
      SameCount(ps, rest);
      if ps[x].key.customer in others {
        var i :| i in rest && 0 <= i < |ps| && ps[i].key.customer == ps[x].key.customer;
        FirstIsUnique(ps, i, x);
      }
      assert names == others + {ps[x].key.customer};
    }
  }

  /** New members are counted once each: over all time they are the customers that ever paid. */
  lemma NewMembersAreCustomers(ps: seq<Payment>, since: Time, until: Time)
    ensures |Newcomers(ps, since, until)| == |NewMembers(ps, since, until)|
    ensures (forall p :: p in ps ==> InPeriod(p, since, until)) ==> |NewMembers(ps, since, until)| == |Customers(ps)|
  {
    SameCount(ps, NewMembers(ps, since, until));
    if forall p :: p in ps ==> InPeriod(p, since, until) {
      forall c | c in Customers(ps) ensures c in Newcomers(ps, since, until) {
        var p :| p in ps && p.key.customer == c;
        var j :| 0 <= j < |ps| && ps[j] == p;
        var i := HasFirst(ps, c, |ps|);
        assert ps[i] in ps && First(ps, i);
        assert i in NewMembers(ps, since, until);
      }
      assert Newcomers(ps, since, until) == Customers(ps);
    }
  }

  /** Both ends belong to a period, so two that meet count a payment made just then twice. */
  lemma MeetingPeriods(ps: seq<Payment>, a: Time, b: Time, c: Time)
    requires a <= b <= c
    ensures |Payments(ps, a, b)| + |Payments(ps, b, c)| == |Payments(ps, a, c)| + |Payments(ps, b, b)|
  {
    var left, right := Payments(ps, a, b), Payments(ps, b, c);
    assert left + right == Payments(ps, a, c);
    assert left * right == Payments(ps, b, b);
  }

  // ---- what the numbers count --------------------------------------------------------------------

  ghost predicate PaidFor(ps: seq<Payment>, customer: string, at: Time, p: Payment) {
    p in ps && p.key.customer == customer && p.paidAt <= at
  }

  /** Members have a payment by the moment whose stretch covers it; they are about to expire when nothing
      they paid for by then reaches further than thirty days on; and a customer has lapsed when something
      they paid for by the end reached past the start, and nothing past the end. */
  lemma WhoIsCounted(ps: seq<Payment>, since: Time, until: Time, customer: string)
    ensures customer in Members(ps, until) <==> exists p :: PaidFor(ps, customer, until, p) && p.from <= until < p.until
    ensures customer in ExpiringMembers(ps, until) <==>
              (exists p :: PaidFor(ps, customer, until, p) && p.from <= until < p.until)
              && forall p :: PaidFor(ps, customer, until, p) ==> p.until <= until + 30 * 24 * 60 * 60 * 1000000
    ensures customer in LapsedMembers(ps, since, until) <==>
              (exists p :: PaidFor(ps, customer, until, p) && since < p.until)
              && forall p :: PaidFor(ps, customer, until, p) ==> p.until <= until
  {
    var paid := PaidBy(ByCustomer(ps, customer), until);
    forall p ensures p in paid <==> PaidFor(ps, customer, until, p) { PaidAndOf(ps, customer, until, p); }
    if paid != [] {
      ReachIsFurthest(paid);
      assert paid[0] in paid;
      assert paid[0] in ps;
    }
    if exists p :: p in paid {
      var p :| p in paid;
      assert p in ps && customer in Customers(ps);
    }
  }

  /** The numbers are of the payments made in the period, both ends included; new are those of customers who
      paid nothing before, and of several at one moment the one that came in first. */
  lemma WhatIsCounted(ps: seq<Payment>, since: Time, until: Time)
    ensures var n := MembershipNumbers(ps, since, until);
            && n.payments == |set i | 0 <= i < |ps| && since <= ps[i].paidAt && ps[i].paidAt <= until|
            && n.newMembers == |set i | 0 <= i < |ps| && since <= ps[i].paidAt && ps[i].paidAt <= until && !PaidBefore(ps, i)|
            && n.newMembers + n.renewals == n.payments
            && n.members == |Members(ps, until)| && n.expiring == |ExpiringMembers(ps, until)| && n.lapsed == |LapsedMembers(ps, since, until)|
  {
    assert Payments(ps, since, until) == set i | 0 <= i < |ps| && since <= ps[i].paidAt && ps[i].paidAt <= until;
    forall i | 0 <= i < |ps| ensures First(ps, i) <==> !PaidBefore(ps, i) {
      if !First(ps, i) {
        var j :| 0 <= j < |ps| && ps[j].key.customer == ps[i].key.customer && !(ps[i].paidAt < ps[j].paidAt || (ps[i].paidAt == ps[j].paidAt && i <= j));
        assert EarlierOf(ps, i, j);
      }
    }
    assert NewMembers(ps, since, until) == set i | 0 <= i < |ps| && since <= ps[i].paidAt && ps[i].paidAt <= until && !PaidBefore(ps, i);
  }

  /** Another payment of the customer, made earlier, or at the same moment and in earlier. */
  predicate EarlierOf(ps: seq<Payment>, i: int, j: int) {
    && 0 <= i < |ps| && 0 <= j < |ps| && ps[j].key.customer == ps[i].key.customer
    && (ps[j].paidAt < ps[i].paidAt || (ps[j].paidAt == ps[i].paidAt && j < i))
  }

  predicate PaidBefore(ps: seq<Payment>, i: int) {
    exists j :: 0 <= j < |ps| && EarlierOf(ps, i, j)
  }
}
