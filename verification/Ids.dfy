/** Time-ordered identifiers (backend/autora/infra/ids.py): section 5.7 of RFC 9562, with the counter of
    method 1 of its section 6.2. */
module Ids {
  import opened Wrappers

  const TWO_48 := 0x1_0000_0000_0000
  const TWO_62 := 0x4000_0000_0000_0000
  const TWO_64 := 0x1_0000_0000_0000_0000
  const TWO_76 := 0x1000_0000_0000_0000_0000
  const TWO_80 := 0x1_0000_0000_0000_0000_0000
  const COUNTER_MAX := 0xFFF
  const SEED_MAX := 0x7FF

  /** The fields of an identifier put in their places: they do not overlap, so putting them together is
      adding them. */
  function Assemble(ms: nat, counter: nat, random: nat): nat {
    (ms % 0x1_0000_0000_0000) * 0x1_0000_0000_0000_0000_0000 + 7 * 0x1000_0000_0000_0000_0000
      + counter * 0x1_0000_0000_0000_0000 + 2 * 0x4000_0000_0000_0000 + random
  }

  function Version(id: nat): nat { id / TWO_76 % 16 }

  function Variant(id: nat): nat { id / TWO_62 % 4 }

  function CounterOf(id: nat): nat { id / TWO_64 % 0x1000 }

  /** The embedded milliseconds, of an identifier of this version and variant. */
  function Timestamp(id: nat): Option<nat> {
    if Variant(id) == 2 && Version(id) == 7 then Some(id / TWO_80) else None
  }

  // ---- the parts are where they belong -----------------------------------------------------------

  lemma Grows(a: nat, b: nat, d: nat)
    requires a <= b
    ensures a * d <= b * d
  {
    assert (b - a) * d == b * d - a * d;
    assert (b - a) * d >= 0;
  }

  lemma Smaller(a: nat, b: nat, d: nat)
    requires a * d < b * d
    ensures a < b
  {
    if b <= a { Grows(b, a, d); }
  }

  lemma Quotient(a: nat, b: nat, d: nat)
    requires b < d
    ensures (a * d + b) / d == a
  {
    var x := a * d + b;
    var q := x / d;
    assert x == q * d + x % d;
    assert (a + 1) * d == a * d + d && (q + 1) * d == q * d + d;
    Smaller(q, a + 1, d);
    Smaller(a, q + 1, d);
  }

  lemma Remainder(a: nat, b: nat, d: nat)
    requires b < d
    ensures (a * d + b) % d == b
  {
    Quotient(a, b, d);
  }

  lemma VersionIsInPlace(m: nat, counter: nat, low: nat)
    requires counter <= COUNTER_MAX && low < TWO_64
    ensures (m * TWO_80 + 7 * TWO_76 + counter * TWO_64 + low) / TWO_76 % 16 == 7
  {
    Quotient(m * 16 + 7, counter * TWO_64 + low, TWO_76);
    assert (m * 16 + 7) * TWO_76 == m * TWO_80 + 7 * TWO_76;
    Remainder(m, 7, 16);
  }

  lemma CounterIsInPlace(m: nat, counter: nat, low: nat)
    requires counter <= COUNTER_MAX && low < TWO_64
    ensures (m * TWO_80 + 7 * TWO_76 + counter * TWO_64 + low) / TWO_64 % 0x1000 == counter
  {
    Quotient(m * 0x10000 + 0x7000 + counter, low, TWO_64);
    assert (m * 0x10000 + 0x7000 + counter) * TWO_64 == m * TWO_80 + 7 * TWO_76 + counter * TWO_64;
    Remainder(m * 16 + 7, counter, 0x1000);
  }

  lemma TimeIsInPlace(m: nat, counter: nat, low: nat)
    requires counter <= COUNTER_MAX && low < TWO_64
    ensures (m * TWO_80 + 7 * TWO_76 + counter * TWO_64 + low) / TWO_80 == m
  {
    Quotient(m, 7 * TWO_76 + counter * TWO_64 + low, TWO_80);
  }

  lemma VariantIsInPlace(high: nat, random: nat)
    requires random < TWO_62
    ensures (high * TWO_64 + 2 * TWO_62 + random) / TWO_62 % 4 == 2
  {
    Quotient(high * 4 + 2, random, TWO_62);
    assert (high * 4 + 2) * TWO_62 == high * TWO_64 + 2 * TWO_62;
    Remainder(high, 2, 4);
  }

  /** Version 7 and variant 10 are in place, and counter and milliseconds can be read back. */
  lemma PartsAreInPlace(ms: nat, counter: nat, random: nat)
    requires counter <= COUNTER_MAX && random < TWO_62
    ensures var id := Assemble(ms, counter, random);
            && Version(id) == 7 && Variant(id) == 2 && CounterOf(id) == counter
            && Timestamp(id) == Some(ms % TWO_48) && id < TWO_48 * TWO_80
  {
    var m, low := ms % TWO_48, 2 * TWO_62 + random;
    VersionIsInPlace(m, counter, low);
    CounterIsInPlace(m, counter, low);
    TimeIsInPlace(m, counter, low);
    VariantIsInPlace(m * 0x10000 + 0x7000 + counter, random);
    assert Assemble(ms, counter, random) == (m * 0x10000 + 0x7000 + counter) * TWO_64 + 2 * TWO_62 + random;
  }

  /** Identifiers are ordered by milliseconds and then by counter, whatever their random parts are. */
  lemma OrderedByTime(ms: nat, counter: nat, random: nat, ms': nat, counter': nat, random': nat)
    requires counter <= COUNTER_MAX && random < TWO_62 && counter' <= COUNTER_MAX && random' < TWO_62
    requires ms' < TWO_48 && (ms < ms' || (ms == ms' && counter < counter'))
    ensures Assemble(ms, counter, random) < Assemble(ms', counter', random')
  {
    assert ms % TWO_48 == ms && ms' % TWO_48 == ms';
  }

  // ---- the generator -----------------------------------------------------------------------------

  /** What the process keeps. */
  datatype State = State(lastMs: nat, counter: nat)

  /** What one identifier is made of: the clock, and random bytes for the counter and for the rest. */
  datatype Reading = Reading(now: nat, two: nat, eight: nat)

  /** Seeded low, so that there is headroom. */
  function Seed(r: Reading): nat { r.two % (SEED_MAX + 1) }

  function Random(r: Reading): nat { r.eight % TWO_62 }

  function Advance(s: State, r: Reading): State {
    if r.now > s.lastMs then State(r.now, Seed(r))
    else if s.counter + 1 > COUNTER_MAX then State(s.lastMs + 1, 0)
    else State(s.lastMs, s.counter + 1)
  }

  function IdOf(s: State, r: Reading): nat {
    Assemble(s.lastMs, s.counter, Random(r))
  }

  const START := State(0, 0)

  /** The state after so many identifiers. */
  function After(rs: seq<Reading>): State {
    if rs == [] then START else Advance(After(rs[..|rs| - 1]), rs[|rs| - 1])
  }

  /** The n-th identifier of a process. */
  function Nth(rs: seq<Reading>, n: nat): nat
    requires n < |rs|
  {
    IdOf(After(rs[..n + 1]), rs[n])
  }

  lemma {:induction false} CounterIsSmall(rs: seq<Reading>)
    ensures After(rs).counter <= COUNTER_MAX
  {
    if rs != [] { CounterIsSmall(rs[..|rs| - 1]); }
  }

  predicate Before(s: State, t: State) {
    s.lastMs < t.lastMs || (s.lastMs == t.lastMs && s.counter < t.counter)
  }

  lemma {:induction false} StatesGrow(rs: seq<Reading>, m: nat, n: nat)
    requires m < n <= |rs|
    ensures Before(After(rs[..m]), After(rs[..n]))
    decreases n
  {
    assert rs[..n][..n - 1] == rs[..n - 1];
    if m < n - 1 { StatesGrow(rs, m, n - 1); }
  }

  /** Whatever the clock does, backwards jumps included, the identifiers of a process increase, as long
      as its milliseconds fit 48 bits. */
  lemma IdsIncrease(rs: seq<Reading>, m: nat, n: nat)
    requires m < n < |rs| && After(rs[..n + 1]).lastMs < TWO_48
    ensures Nth(rs, m) < Nth(rs, n)
  {
    StatesGrow(rs, m + 1, n + 1);
    CounterIsSmall(rs[..m + 1]);
    CounterIsSmall(rs[..n + 1]);
    var s, t := After(rs[..m + 1]), After(rs[..n + 1]);
    OrderedByTime(s.lastMs, s.counter, Random(rs[m]), t.lastMs, t.counter, Random(rs[n]));
  }

  /** Each is a proper identifier, whose counter and time can be read back. */
  lemma IdsAreProper(rs: seq<Reading>, n: nat)
    requires n < |rs|
    ensures var id, s := Nth(rs, n), After(rs[..n + 1]);
            Version(id) == 7 && Variant(id) == 2 && CounterOf(id) == s.counter && Timestamp(id) == Some(s.lastMs % TWO_48)
  {
    CounterIsSmall(rs[..n + 1]);
    var s := After(rs[..n + 1]);
    PartsAreInPlace(s.lastMs, s.counter, Random(rs[n]));
  }

  // ---- how far the time may run ahead ------------------------------------------------------------

  /** The counter was taken anew from the clock. */
  predicate Reseeds(rs: seq<Reading>, n: nat)
    requires n < |rs|
  {
    rs[n].now > After(rs[..n]).lastMs
  }

  lemma {:induction false} BorrowedSince(rs: seq<Reading>, m: nat, n: nat)
    requires m < n <= |rs| && Reseeds(rs, m) && forall k :: m < k < n ==> !Reseeds(rs, k)
    ensures var s := After(rs[..n]);
            s.lastMs * 0x1000 + s.counter == rs[m].now * 0x1000 + Seed(rs[m]) + (n - m - 1)
    decreases n
  {
    assert rs[..n][..n - 1] == rs[..n - 1];
    if m < n - 1 {
      BorrowedSince(rs, m, n - 1);
      CounterIsSmall(rs[..n - 1]);
      assert !Reseeds(rs, n - 1);
    }
  }

  /** Ids borrow time when there are many in a millisecond or the clock stands still: the n-th since the
      last reseed is ahead of its clock by at most (n + 2046) / 4096 milliseconds. */
  lemma RunsAheadByAtMost(rs: seq<Reading>, m: nat, n: nat)
    requires m < n <= |rs| && Reseeds(rs, m) && forall k :: m < k < n ==> !Reseeds(rs, k)
    ensures 0 <= After(rs[..n]).lastMs - rs[m].now <= (n - m + 2046) / 0x1000
  {
    BorrowedSince(rs, m, n);
    CounterIsSmall(rs[..n]);
  }

  // ---- what the clock and the random bytes become ------------------------------------------------

  lemma {:induction false} RandomIsInPlace(high: nat, random: nat)
    requires random < TWO_62
    ensures ((high * 4 + 2) * TWO_62 + random) % TWO_62 == random
  {
    Remainder(high * 4 + 2, random, TWO_62);
  }

  /** An identifier carries the clock where the clock has moved past all before it, with a counter of eleven
      random bits; where it has not, the one before counted on by one, over milliseconds and counter
      together. It is never behind its own clock, and ends in 62 random bits of its own. */
  lemma IdsCarryTheClock(rs: seq<Reading>, n: nat)
    requires n < |rs|
    ensures var was, s, id := After(rs[..n]), After(rs[..n + 1]), Nth(rs, n);
            && Timestamp(id) == Some(s.lastMs % TWO_48) && CounterOf(id) == s.counter
            && rs[n].now <= s.lastMs
            && (was.lastMs < rs[n].now ==> s.lastMs == rs[n].now && s.counter == rs[n].two % 2048)
            && (rs[n].now <= was.lastMs ==> s.lastMs * 4096 + s.counter == was.lastMs * 4096 + was.counter + 1)
            && id % 0x4000_0000_0000_0000 == rs[n].eight % 0x4000_0000_0000_0000
  {
    assert rs[..n + 1][..n] == rs[..n];
    CounterIsSmall(rs[..n]);
    CounterIsSmall(rs[..n + 1]);
    IdsAreProper(rs, n);
    var s := After(rs[..n + 1]);
    var high := ((s.lastMs % TWO_48) * 0x10000 + 0x7000 + s.counter);
    RandomIsInPlace(high, Random(rs[n]));
    assert Nth(rs, n) == (high * 4 + 2) * TWO_62 + Random(rs[n]);
  }

  // ---- the generator with its variables ----------------------------------------------------------

  /** The two globals of the process, changed under its lock. */
  class Generator {
    var lastMs: nat
    var counter: nat
    ghost var readings: seq<Reading>

    ghost predicate Valid() reads this {
      State(lastMs, counter) == After(readings)
    }

    constructor ()
      ensures Valid() && readings == []
    {
      lastMs, counter, readings := 0, 0, [];
    }

    /** Take the clock if it has moved on, count otherwise; a full counter borrows a millisecond. */
    method Tick(r: Reading)
      modifies this`lastMs, this`counter
      ensures State(lastMs, counter) == Advance(State(old(lastMs), old(counter)), r)
    {
      if r.now > lastMs {
        lastMs := r.now;
        counter := Seed(r);
      } else {
        counter := counter + 1;
        if counter > COUNTER_MAX {
          lastMs := lastMs + 1;
          counter := 0;
        }
      }
    }

    method Uuid7(r: Reading) returns (id: nat)
      requires Valid()
      modifies this
      ensures Valid() && readings == old(readings) + [r] && id == Nth(readings, |old(readings)|)
    {
      Tick(r);
      readings := readings + [r];
      NthIs(old(readings), r);
      id := IdOf(State(lastMs, counter), r);
    }
  }

  lemma NthIs(rs: seq<Reading>, r: Reading)
    ensures After(rs + [r]) == Advance(After(rs), r) && Nth(rs + [r], |rs|) == IdOf(After(rs + [r]), r)
  {
    assert (rs + [r])[..|rs|] == rs && (rs + [r])[..|rs| + 1] == rs + [r];
  }
}
