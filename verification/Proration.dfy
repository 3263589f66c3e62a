/** Charges in integer cents. Amounts the source computes as doubles and rounds with
    `Math.round(x * 100) / 100` are exact rationals here, rounded half up once. */
module Proration {
  import opened Options

  function Max(a: int, b: int): int {
    if a <= b then b else a
  }

  /** `Math.round(num / den)`: the nearest integer, a half going up. */
  function RoundDiv(num: int, den: int): int
    requires 0 < den
  {
    (2 * num + den) / (2 * den)
  }

  /** Milliseconds left of a period, clamped to the period. */
  function Remaining(start: int, end: int, now: int): int {
    var left := Max(end - now, 0);
    if left <= end - start then left else end - start
  }

  /** Price difference for the rest of the current period. */
  function SameIntervalCharge(target: int, current: int, start: int, end: int, now: int): int {
    if start < end then RoundDiv((target - current) * Remaining(start, end, now), end - start) else 0
  }

  function SeatCharge(delta: int, price: int, start: int, end: int, now: int): int {
    if start < end then RoundDiv(delta * price * Remaining(start, end, now), end - start) else 0
  }

  /** A full year at the new plan, less the unused part of the month already paid. */
  function CrossIntervalCharge(full: int, monthly: int, start: int, end: int, now: int): int {
    if start < end
    then Max(0, RoundDiv(full * (end - start) - monthly * Remaining(start, end, now), end - start))
    else Max(0, full)
  }

  // ---- Rounding -----------------------------------------------------------------------------

  /** The rounded quotient is within half a unit of the exact one. */
  lemma RoundDivHalf(num: int, den: int)
    requires 0 < den
    ensures 2 * num - den < 2 * den * RoundDiv(num, den) <= 2 * num + den
  {
    var a, b := 2 * num + den, 2 * den;
    assert a == b * (a / b) + a % b;
  }

  lemma RoundDivIs(num: int, den: int, r: int)
    requires 0 < den && 2 * num - den < 2 * den * r <= 2 * num + den
    ensures RoundDiv(num, den) == r
  {
    var q := RoundDiv(num, den);
    RoundDivHalf(num, den);
    if q < r {
      Scale(den, q + 1, r);
    } else if r < q {
      Scale(den, r + 1, q);
    }
  }

  lemma Scale(den: int, a: int, b: int)
    requires 0 <= den && a <= b
    ensures den * a <= den * b
  {
  }

  lemma RoundDivMonotone(a: int, b: int, den: int)
    requires 0 < den && a <= b
    ensures RoundDiv(a, den) <= RoundDiv(b, den)
  {
    RoundDivHalf(a, den);
    RoundDivHalf(b, den);
    var p, q := RoundDiv(a, den), RoundDiv(b, den);
    if q < p {
      Scale(den, q + 1, p);
    }
  }

  lemma RoundDivWhole(k: int, den: int)
    requires 0 < den
    ensures RoundDiv(k * den, den) == k
  {
    RoundDivIs(k * den, den, k);
  }

  /** The nearest whole number to a fraction, a half going up. */
  predicate Nearest(r: int, num: int, den: int) {
    2 * num - den < 2 * (den * r) <= 2 * num + den
  }

  lemma RoundDivNearest(num: int, den: int)
    requires 0 < den
    ensures Nearest(RoundDiv(num, den), num, den)
    ensures RoundDiv(num, den) <= 0 <==> 2 * num < den
  {
    hide RoundDiv;
    RoundDivHalf(num, den);
    var r := RoundDiv(num, den);
    assert 2 * den * r == 2 * (den * r);
    if r <= 0 {
      Scale(den, r, 0);
    } else {
      Scale(den, 1, r);
    }
  }

  // ---- Same-interval changes ------------------------------------------------------------------

  lemma LeftOf(start: int, end: int, now: int)
    requires start < end
    ensures now <= start ==> Remaining(start, end, now) == end - start
    ensures start <= now <= end ==> Remaining(start, end, now) == end - now
    ensures end <= now ==> Remaining(start, end, now) == 0
  {
  }

  /** Within the period an upgrade costs the price difference for the part of the period still to
      come, to the nearest cent, and is free exactly when that is under half a cent. */
  lemma UpgradeIsProrated(target: int, current: int, start: int, end: int, now: int)
    requires start <= now <= end && start < end
    ensures Nearest(SameIntervalCharge(target, current, start, end, now), (target - current) * (end - now), end - start)
    ensures SameIntervalCharge(target, current, start, end, now) <= 0 <==> 2 * ((target - current) * (end - now)) < end - start
  {
    hide RoundDiv, Remaining, Nearest;
    LeftOf(start, end, now);
    RoundDivNearest((target - current) * (end - now), end - start);
  }

  /** Added seats are prorated in the same way. */
  lemma SeatsAreProrated(delta: int, price: int, start: int, end: int, now: int)
    requires start <= now <= end && start < end
    ensures Nearest(SeatCharge(delta, price, start, end, now), delta * price * (end - now), end - start)
    ensures SeatCharge(delta, price, start, end, now) <= 0 <==> 2 * (delta * price * (end - now)) < end - start
  {
    hide RoundDiv, Remaining, Nearest;
    LeftOf(start, end, now);
    RoundDivNearest(delta * price * (end - now), end - start);
  }

  /** The move to yearly costs the full year less the price of the month for the part of it still to
      come, to the nearest cent, and nothing when that credit is worth more. */
  lemma YearlyMoveIsProrated(full: int, monthly: int, start: int, end: int, now: int)
    requires start <= now <= end && start < end
    ensures
      var num := full * (end - start) - monthly * (end - now);
      var charge := CrossIntervalCharge(full, monthly, start, end, now);
      if 2 * num < end - start then charge == 0 else Nearest(charge, num, end - start)
  {
    hide RoundDiv, Remaining, Nearest;
    LeftOf(start, end, now);
    RoundDivNearest(full * (end - start) - monthly * (end - now), end - start);
  }

  lemma RemainingFalls(start: int, end: int, now: int, later: int)
    requires start < end && now <= later
    ensures 0 <= Remaining(start, end, later) <= Remaining(start, end, now) <= end - start
  {
  }

  /** An upgrade costs between nothing and the price difference: the whole of it up to the
      period's start, nothing from its end. */
  lemma UpgradeChargeIsBounded(target: int, current: int, start: int, end: int, now: int)
    requires current <= target
    ensures 0 <= SameIntervalCharge(target, current, start, end, now) <= target - current
    ensures start < end && now <= start ==> SameIntervalCharge(target, current, start, end, now) == target - current
    ensures end <= now ==> SameIntervalCharge(target, current, start, end, now) == 0
  {
    if start < end {
      var d, rem, whole := target - current, Remaining(start, end, now), end - start;
      RemainingFalls(start, end, now, now);
      Scale(d, 0, rem);
      Scale(d, rem, whole);
      RoundDivMonotone(0, d * rem, whole);
      RoundDivMonotone(d * rem, d * whole, whole);
      RoundDivWhole(0, whole);
      RoundDivWhole(d, whole);
    }
  }

  /** Waiting never makes an upgrade dearer. */
  lemma UpgradeChargeFalls(target: int, current: int, start: int, end: int, now: int, later: int)
    requires current <= target && now <= later
    ensures SameIntervalCharge(target, current, start, end, later) <= SameIntervalCharge(target, current, start, end, now)
  {
    if start < end {
      RemainingFalls(start, end, now, later);
      Scale(target - current, Remaining(start, end, later), Remaining(start, end, now));
      RoundDivMonotone((target - current) * Remaining(start, end, later), (target - current) * Remaining(start, end, now), end - start);
    }
  }

  lemma SeatChargeFalls(delta: int, price: nat, start: int, end: int, now: int, later: int)
    requires 0 <= delta && now <= later
    ensures 0 <= SeatCharge(delta, price, start, end, later) <= SeatCharge(delta, price, start, end, now) <= delta * price
  {
    assert SeatCharge(delta, price, start, end, now) == SameIntervalCharge(delta * price, 0, start, end, now);
    assert SeatCharge(delta, price, start, end, later) == SameIntervalCharge(delta * price, 0, start, end, later);
    assert 0 <= delta * price;
    UpgradeChargeIsBounded(delta * price, 0, start, end, later);
    UpgradeChargeIsBounded(delta * price, 0, start, end, now);
    UpgradeChargeFalls(delta * price, 0, start, end, now, later);
  }

  /** What a chain of upgrades at one instant costs, through a list of prices. */
  function ChainCharge(prices: seq<int>, start: int, end: int, now: int): int {
    if |prices| < 2 then 0
    else ChainCharge(prices[..|prices| - 1], start, end, now)
         + SameIntervalCharge(prices[|prices| - 1], prices[|prices| - 2], start, end, now)
  }

  /** A sum of `n` rounded quotients against the exact sum `num / den`: under n/2 below it, at
      most n/2 above. */
  predicate Near(r: int, num: int, den: int, n: nat) {
    && 2 * num - n * den <= 2 * (den * r) <= 2 * num + n * den
    && (0 < n ==> 2 * num - n * den < 2 * (den * r))
  }

  lemma NearOnce(num: int, den: int)
    requires 0 < den
    ensures Near(RoundDiv(num, den), num, den, 1)
  {
    hide RoundDiv;
    RoundDivHalf(num, den);
    assert 2 * den * RoundDiv(num, den) == 2 * (den * RoundDiv(num, den));
  }

  lemma NearSum(r: int, num: int, m: nat, r': int, num': int, n: nat, den: int)
    requires Near(r, num, den, m) && Near(r', num', den, n)
    ensures Near(r + r', num + num', den, m + n)
  {
    assert den * (r + r') == den * r + den * r';
    assert (m + n) * den == m * den + n * den;
  }

  /** Two roundings of one exact sum. */
  lemma NearTwice(r: int, m: nat, r': int, n: nat, num: int, den: int)
    requires 0 < den && 0 < m && 0 < n && Near(r, num, den, m) && Near(r', num, den, n)
    ensures -(m + n) < 2 * (r - r') < m + n
  {
    var gap := r - r';
    assert den * gap == den * r - den * r';
    assert (m + n) * den == m * den + n * den;
    if m + n <= 2 * gap {
      Scale(den, m + n, 2 * gap);
    } else if 2 * gap <= -(m + n) {
      Scale(den, 2 * gap, -(m + n));
    }
  }

  lemma {:induction false} ChainIsNear(prices: seq<int>, start: int, end: int, now: int)
    requires 1 <= |prices| && start < end
    ensures Near(ChainCharge(prices, start, end, now), (prices[|prices| - 1] - prices[0]) * Remaining(start, end, now), end - start, |prices| - 1)
  {
    hide Near, RoundDiv, Remaining;
    var n, whole, rem := |prices| - 1, end - start, Remaining(start, end, now);
    if n == 0 {
      NearNothing(whole);
      assert (prices[n] - prices[0]) * rem == 0;
    } else {
      var init := prices[..n];
      ChainIsNear(init, start, end, now);
      NearOnce((prices[n] - prices[n - 1]) * rem, whole);
      NearSum(ChainCharge(init, start, end, now), (prices[n - 1] - prices[0]) * rem, n - 1,
              RoundDiv((prices[n] - prices[n - 1]) * rem, whole), (prices[n] - prices[n - 1]) * rem, 1, whole);
      Telescope(prices[0], prices[n - 1], prices[n], rem);
    }
  }

  lemma NearNothing(den: int)
    ensures Near(0, 0, den, 0)
  {
  }

  lemma Telescope(a: int, b: int, c: int, rem: int)
    ensures (b - a) * rem + (c - b) * rem == (c - a) * rem
  {
  }

  /** `n` upgrades at one instant cost within n/2 cents of the direct one, whatever prices lie
      between. */
  lemma ChainedUpgradesCostTheSame(prices: seq<int>, start: int, end: int, now: int)
    requires 2 <= |prices|
    ensures
      var n := |prices| - 1;
      var gap := ChainCharge(prices, start, end, now) - SameIntervalCharge(prices[n], prices[0], start, end, now);
      -n <= 2 * gap <= n
  {
    hide Near, RoundDiv, Remaining, ChainCharge;
    var n, whole := |prices| - 1, end - start;
    if start < end {
      var exact := (prices[n] - prices[0]) * Remaining(start, end, now);
      ChainIsNear(prices, start, end, now);
      NearOnce(exact, whole);
      NearTwice(ChainCharge(prices, start, end, now), n, RoundDiv(exact, whole), 1, exact, whole);
    } else {
      NoPeriodNoCharge(prices, start, end, now);
    }
  }

  lemma {:induction false} NoPeriodNoCharge(prices: seq<int>, start: int, end: int, now: int)
    requires end <= start
    ensures ChainCharge(prices, start, end, now) == 0
  {
    if 2 <= |prices| {
      NoPeriodNoCharge(prices[..|prices| - 1], start, end, now);
    }
  }

  // ---- Monthly to yearly ----------------------------------------------------------------------

  lemma YearlyNumerator(yearly: nat, full: nat, monthly: nat, rem: nat, whole: nat)
    requires 12 * monthly < yearly <= full && rem <= whole
    ensures whole <= full * whole - monthly * rem <= full * whole
    ensures 11 * (whole * yearly) <= 12 * (full * whole - monthly * rem)
  {
    assert 0 <= monthly * rem <= monthly * whole by {
      Scale(monthly, 0, rem);
      Scale(monthly, rem, whole);
    }
    assert whole * (12 * monthly + 1) <= whole * yearly <= whole * full by {
      Scale(whole, 12 * monthly + 1, yearly);
      Scale(whole, yearly, full);
    }
    assert whole * (12 * monthly + 1) == 12 * (monthly * whole) + whole;
  }

  /** The move to a yearly plan that costs more than twelve of the present months always charges:
      at least a cent, at least eleven twelfths of the yearly price less half a cent, and never
      more than the full price. */
  lemma YearlyMoveAlwaysCharges(yearly: nat, seats: nat, monthly: nat, start: int, end: int, now: int)
    requires 12 * monthly < yearly
    ensures
      var charge := CrossIntervalCharge(yearly + seats, monthly, start, end, now);
      1 <= charge <= yearly + seats && 22 * yearly - 12 <= 24 * charge
  {
    hide RoundDiv, Remaining;
    if start < end {
      var full, whole, rem := yearly + seats, end - start, Remaining(start, end, now);
      RemainingFalls(start, end, now, now);
      YearlyQuotient(yearly, full, monthly, rem, whole);
    }
  }

  lemma YearlyQuotient(yearly: nat, full: nat, monthly: nat, rem: nat, whole: nat)
    requires 0 < whole && 12 * monthly < yearly <= full && rem <= whole
    ensures
      var charge := RoundDiv(full * whole - monthly * rem, whole);
      1 <= charge <= full && 22 * yearly - 12 <= 24 * charge
  {
    hide RoundDiv;
    var num := full * whole - monthly * rem;
    YearlyNumerator(yearly, full, monthly, rem, whole);
    RoundDivMonotone(whole, num, whole);
    RoundDivMonotone(num, full * whole, whole);
    RoundDivWhole(1, whole);
    RoundDivWhole(full, whole);
    NearOnce(num, whole);
    ElevenTwelfths(yearly, num, whole, RoundDiv(num, whole));
  }

  lemma ElevenTwelfths(yearly: nat, num: int, whole: nat, charge: int)
    requires 0 < whole && 11 * (whole * yearly) <= 12 * num && Near(charge, num, whole, 1)
    ensures 22 * yearly - 12 <= 24 * charge
  {
    var x := 24 * charge - 22 * yearly + 12;
    assert whole * x == 24 * (whole * charge) - 22 * (whole * yearly) + 12 * whole;
    if x < 0 {
      Scale(whole, x, -1);
    }
  }

  // ---- Tax --------------------------------------------------------------------------------------

  /** A payment's base, IVA and total; the rate is a fraction. */
  datatype Amounts = Amounts(base: int, iva: int, total: int)

  function BreakdownAmount(base: int, rate: (nat, nat)): Amounts
    requires 0 < rate.1
  {
    if base <= 0 then Amounts(0, 0, 0)
    else
      var iva := RoundDiv(base * rate.0, rate.1);
      Amounts(base, iva, base + iva)
  }

  /** A payment is its base and the tax on it, to the nearest cent; nothing is taxed on nothing. */
  lemma BreakdownIsTaxed(base: int, rate: (nat, nat))
    requires 0 < rate.1
    ensures
      var a := BreakdownAmount(base, rate);
      && a.total == a.base + a.iva
      && (if base <= 0 then a.base == a.iva == 0 else a.base == base && Nearest(a.iva, base * rate.0, rate.1))
  {
    hide RoundDiv;
    RoundDivNearest(base * rate.0, rate.1);
  }

  /** The card gateway's view of a payment: the taxed base is what the tax leaves of the total. */
  datatype CardAmounts = CardAmounts(amount: int, tax: int, amountWithTax: int)

  function ToAmountBreakdown(a: Amounts): (r: Option<CardAmounts>) {
    var amountWithTax := a.total - a.iva;
    if amountWithTax < 0 || amountWithTax + a.iva != a.total then None
    else Some(CardAmounts(a.total, a.iva, amountWithTax))
  }

  /** No payment the system creates is refused by the card gateway's amount check, and what the
      gateway is told to tax is the payment's base. */
  lemma CardBreakdownAlwaysFits(base: int, rate: (nat, nat))
    requires 0 < rate.1
    ensures
      var a := BreakdownAmount(base, rate);
      var card := ToAmountBreakdown(a);
      && card.Some? && card.value.amountWithTax == a.base && card.value.tax >= 0
      && card.value.amount == card.value.amountWithTax + card.value.tax
  {
    if 0 < base {
      Scale(base, 0, rate.0);
      RoundDivMonotone(0, base * rate.0, rate.1);
      RoundDivWhole(0, rate.1);
    }
  }
}
