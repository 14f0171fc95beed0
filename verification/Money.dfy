/** Money in millionths and the one conversion between currencies (backend/autora/infra/money.py). */
module Money {
  import opened Wrappers

  type Positive = n: int | n > 0 witness 1

  /** Base units per unit of another currency: a decimal, as a fraction. */
  datatype Rate = Rate(num: int, den: Positive)

  /** What is settled once: the base currency and the rates to it. */
  datatype Fx = Fx(base: string, rates: map<string, Rate>)

  const METER := "USD"

  /** What `ToBase` makes of an amount: where nothing was converted there is no rate and no source. */
  datatype Converted = Converted(amount: int, rate: Option<Rate>, sourceAmount: Option<int>)

  // ---- rounding ----------------------------------------------------------------------------------

  /** The nearest integer, the even one of two. */
  function HalfEven(n: int, d: Positive): int {
    var q, r := n / d, n % d;
    if 2 * r < d || (2 * r == d && q % 2 == 0) then q else q + 1
  }

  function Abs(n: int): nat { if n < 0 then -n else n }

  lemma DivMod(n: int, d: Positive)
    ensures n == (n / d) * d + n % d && 0 <= n % d < d
  {
  }

  /** At most half a unit off, and even where it is exactly half. */
  lemma HalfEvenIsNear(n: int, d: Positive)
    ensures 2 * Abs(HalfEven(n, d) * d - n) <= d
    ensures 2 * Abs(HalfEven(n, d) * d - n) == d ==> HalfEven(n, d) % 2 == 0
  {
    DivMod(n, d);
    var q := n / d;
    assert (q + 1) * d == q * d + d;
  }

  lemma Times(k: int, d: Positive)
    requires k >= 1
    ensures k * d >= d
  {
    assert (k - 1) * d >= 0;
    assert (k - 1) * d == k * d - d;
  }

  lemma Scaled(a: int, b: int, d: Positive)
    requires a > b
    ensures a * d >= b * d + d
  {
    Times(a - b, d);
    assert (a - b) * d == a * d - b * d;
  }

  lemma Cancel(a: int, b: int, d: Positive)
    requires a * d <= b * d
    ensures a <= b
  {
    if a > b { Scaled(a, b, d); }
  }

  lemma HalvesMeet(a: int, b: int, n: int, d: Positive)
    requires a > b && 2 * Abs(a * d - n) <= d && 2 * Abs(b * d - n) <= d
    ensures 2 * Abs(a * d - n) == d && 2 * Abs(b * d - n) == d && a == b + 1
  {
    Scaled(a, b, d);
    assert (b + 1) * d == b * d + d;
    Cancel(a, b + 1, d);
  }

  /** There is one such integer: whatever is at most half a unit off, and even where it is exactly half,
      is the rounded value. */
  lemma HalfEvenIsTheOne(n: int, d: Positive, k: int)
    requires 2 * Abs(k * d - n) <= d && (2 * Abs(k * d - n) == d ==> k % 2 == 0)
    ensures k == HalfEven(n, d)
  {
    HalfEvenIsNear(n, d);
    if k > HalfEven(n, d) { HalvesMeet(k, HalfEven(n, d), n, d); }
    if k < HalfEven(n, d) { HalvesMeet(HalfEven(n, d), k, n, d); }
  }

  /** What rounds to nothing: at most half a unit. */
  lemma RoundsAway(n: int, d: Positive)
    requires 0 <= n
    ensures HalfEven(n, d) <= 0 <==> 2 * n <= d
    ensures 0 <= HalfEven(n, d)
  {
    DivMod(n, d);
    if n / d >= 1 { assert (n / d) * d >= d; }
  }

  // ---- conversion --------------------------------------------------------------------------------

  function RateOf(fx: Fx, currency: string): Option<Rate> {
    if currency == fx.base then Some(Rate(1, 1))
    else if currency !in fx.rates || fx.rates[currency].num <= 0 then None
    else Some(fx.rates[currency])
  }

  /** Into the base; None where there is no rate (money.py:72-77). */
  function ToBase(fx: Fx, amount: int, currency: string): Option<Converted> {
    if currency == fx.base then Some(Converted(amount, None, None))
    else match RateOf(fx, currency)
      case None => None
      case Some(rate) => Some(Converted(HalfEven(amount * rate.num, rate.den), Some(rate), Some(amount)))
  }

  /** Between two currencies by way of the base, with one rounding (money.py:79-84). */
  function Convert(fx: Fx, amount: int, source: string, target: string): Option<int> {
    if source == target then Some(amount)
    else
      var s, t := RateOf(fx, source), RateOf(fx, target);
      if s.None? || t.None? then None
      else Some(HalfEven(amount * s.value.num * t.value.den, s.value.den * t.value.num))
  }

  /** Into the base, both conversions are the same. */
  lemma ConvertToBase(fx: Fx, amount: int, source: string)
    ensures Convert(fx, amount, source, fx.base) == match ToBase(fx, amount, source) case None => None case Some(c) => Some(c.amount)
  {
    var s := RateOf(fx, source);
    if source != fx.base && s.Some? {
      assert amount * s.value.num * 1 == amount * s.value.num && s.value.den * 1 == s.value.den;
    }
  }

  // ---- converting parts and converting the sum ---------------------------------------------------

  function Sum(amounts: seq<int>): int {
    if amounts == [] then 0 else Sum(amounts[..|amounts| - 1]) + amounts[|amounts| - 1]
  }

  /** Each part converted on its own. */
  function Parts(amounts: seq<int>, rate: Rate): int {
    if amounts == [] then 0
    else Parts(amounts[..|amounts| - 1], rate) + HalfEven(amounts[|amounts| - 1] * rate.num, rate.den)
  }

  lemma {:induction false} PartsAreNear(amounts: seq<int>, rate: Rate)
    ensures 2 * Abs(Parts(amounts, rate) * rate.den - Sum(amounts) * rate.num) <= |amounts| * rate.den
  {
    if amounts != [] {
      var init, last := amounts[..|amounts| - 1], amounts[|amounts| - 1];
      PartsAreNear(init, rate);
      HalfEvenIsNear(last * rate.num, rate.den);
      PartsAdd(Parts(init, rate), HalfEven(last * rate.num, rate.den), Sum(init), last, |init|, rate);
    }
  }

  lemma PartsAdd(p: int, h: int, s: int, last: int, n: nat, rate: Rate)
    requires 2 * Abs(p * rate.den - s * rate.num) <= n * rate.den && 2 * Abs(h * rate.den - last * rate.num) <= rate.den
    ensures 2 * Abs((p + h) * rate.den - (s + last) * rate.num) <= (n + 1) * rate.den
  {
    assert (p + h) * rate.den == p * rate.den + h * rate.den;
    assert (s + last) * rate.num == s * rate.num + last * rate.num;
    assert (n + 1) * rate.den == n * rate.den + rate.den;
  }

  /** Converted part by part the total is at most (n + 1) / 2 millionths from the total converted once. */
  lemma PartsAndTotal(amounts: seq<int>, rate: Rate)
    ensures 2 * Abs(Parts(amounts, rate) - HalfEven(Sum(amounts) * rate.num, rate.den)) <= |amounts| + 1
  {
    var p, r := Parts(amounts, rate), HalfEven(Sum(amounts) * rate.num, rate.den);
    PartsAreNear(amounts, rate);
    HalfEvenIsNear(Sum(amounts) * rate.num, rate.den);
    Near(p, r, Sum(amounts) * rate.num, |amounts|, rate.den);
  }

  lemma Near(p: int, r: int, x: int, n: nat, d: Positive)
    requires 2 * Abs(p * d - x) <= n * d && 2 * Abs(r * d - x) <= d
    ensures 2 * Abs(p - r) <= n + 1
  {
    assert (n + 1) * d == n * d + d;
    assert (2 * (p - r)) * d == 2 * (p * d) - 2 * (r * d);
    assert (2 * (r - p)) * d == 2 * (r * d) - 2 * (p * d);
    if p >= r { Cancel(2 * (p - r), n + 1, d); } else { Cancel(2 * (r - p), n + 1, d); }
  }
}
