/** UTC calendar arithmetic as ECMAScript's `Date` performs it (ECMA-262, section 21.4.1), and
    the month addition every billing and quota period goes through.

    An instant is an integer number of milliseconds since 1 January 1970, 00:00 UTC. Months are
    numbered by one index, `12 * year + month` with January as month 0. */
module Calendar {

  const MS_PER_DAY := 86_400_000

  function Days(n: int): int {
    n * MS_PER_DAY
  }

  predicate IsLeap(year: int) {
    year % 4 == 0 && (year % 100 != 0 || year % 400 == 0)
  }

  /** Day number of 1 January of a year. */
  function DayFromYear(year: int): int {
    365 * (year - 1970) + (year - 1969) / 4 - (year - 1901) / 100 + (year - 1601) / 400
  }

  function DaysBeforeMonth(month: int, leap: bool): int
    requires 0 <= month < 12
  {
    var common := [0, 31, 59, 90, 120, 151, 181, 212, 243, 273, 304, 334][month];
    if leap && 2 <= month then common + 1 else common
  }

  /** ECMA-262's MakeDay: the month may lie outside 0..11 and the date outside the month. */
  function MakeDay(year: int, month: int, date: int): int {
    var y := year + month / 12;
    DayFromYear(y) + DaysBeforeMonth(month % 12, IsLeap(y)) + date - 1
  }

  function MonthLength(k: int): int {
    match k % 12
    case 1 => if IsLeap(k / 12) then 29 else 28
    case 3 => 30
    case 5 => 30
    case 8 => 30
    case 10 => 30
    case _ => 31
  }

  /** Day number of the first day of month `k`. */
  function MonthStart(k: int): int {
    MakeDay(0, k, 1)
  }

  /** The month a day falls in, searched from a given month. */
  function MonthFrom(day: int, k: int): (r: int)
    ensures MonthStart(r) <= day < MonthStart(r + 1)
    decreases day < MonthStart(k), if day < MonthStart(k) then MonthStart(k) - day else day - MonthStart(k)
  {
    hide MonthStart, MonthLength;
    MonthStartStep(k);
    MonthStartStep(k - 1);
    if day < MonthStart(k) then MonthFrom(day, k - 1)
    else if MonthStart(k + 1) <= day then MonthFrom(day, k + 1)
    else k
  }

  function Day(t: int): int {
    t / MS_PER_DAY
  }

  function MonthOf(t: int): (k: int)
    ensures MonthStart(k) <= Day(t) < MonthStart(k + 1)
  {
    hide MonthStart;
    MonthFrom(Day(t), 12 * 1970)
  }

  /** Day of the month, from 1. */
  function DayOfMonth(t: int): (d: int)
    ensures 1 <= d <= MonthLength(MonthOf(t))
  {
    MonthStartStep(MonthOf(t));
    Day(t) - MonthStart(MonthOf(t)) + 1
  }

  function Min(a: int, b: int): int {
    if a <= b then a else b
  }

  /** The instant `n` months on: same time of day, same day of the month or, when the target
      month is shorter, its last day. */
  function AddMonths(t: int, n: int): int {
    var k := MonthOf(t) + n;
    Days(MonthStart(k) + Min(DayOfMonth(t), MonthLength(k)) - 1) + t % MS_PER_DAY
  }

  // ---- The coded form -----------------------------------------------------------------------

  /** A JavaScript `Date`: one time value changed in place by the setters. */
  class UtcDate {
    var time: int

    constructor (t: int)
      ensures time == t
    {
      time := t;
    }

    function GetUTCDate(): int
      reads this
    {
      DayOfMonth(time)
    }

    function GetUTCMonth(): int
      reads this
    {
      MonthOf(time) % 12
    }

    function GetUTCFullYear(): int
      reads this
    {
      MonthOf(time) / 12
    }

    method SetUTCMonth(month: int)
      modifies this
      ensures time == Days(MakeDay(old(GetUTCFullYear()), month, old(GetUTCDate()))) + old(time) % MS_PER_DAY
    {
      time := Days(MakeDay(GetUTCFullYear(), month, GetUTCDate())) + time % MS_PER_DAY;
    }

    method SetUTCDate(date: int)
      modifies this
      ensures time == Days(MakeDay(old(GetUTCFullYear()), old(GetUTCMonth()), date)) + old(time) % MS_PER_DAY
    {
      time := Days(MakeDay(GetUTCFullYear(), GetUTCMonth(), date)) + time % MS_PER_DAY;
    }
  }

  /** Letting the month overflow and then falling back to day 0 is the clamped addition, for
      every instant and every number of months, negative ones included. */
  method ShiftMonths(date: int, months: int) returns (next: UtcDate)
    ensures fresh(next) && next.time == AddMonths(date, months)
  {
    hide MonthStart, MonthLength, MonthOf, MakeDay;
    next := new UtcDate(date);
    var day := next.GetUTCDate();
    ghost var k := MonthOf(date) + months;
    MakeDayByIndex(next.GetUTCFullYear(), next.GetUTCMonth() + months, day);
    next.SetUTCMonth(next.GetUTCMonth() + months);
    MonthStartStep(MonthOf(date));
    MonthStartStep(k);
    MonthStartStep(k + 1);
    if day <= MonthLength(k) {
      MonthIsUnique(next.time, k);
    } else {
      MonthIsUnique(next.time, k + 1);
    }
    if next.GetUTCDate() != day {
      MakeDayByIndex(next.GetUTCFullYear(), next.GetUTCMonth(), 0);
      next.SetUTCDate(0);
    }
  }

  // ---- The calendar -------------------------------------------------------------------------

  /** Month starts and month lengths agree, across year ends, leap years and centuries. */
  lemma MonthStartStep(k: int)
    ensures MonthStart(k + 1) == MonthStart(k) + MonthLength(k)
    ensures 28 <= MonthLength(k) <= 31
  {
    var y := k / 12;
    if k % 12 == 11 {
      assert (k + 1) / 12 == y + 1 && (k + 1) % 12 == 0;
      YearStep(y);
    } else {
      assert (k + 1) / 12 == y && (k + 1) % 12 == k % 12 + 1;
    }
  }

  lemma FloorStep(a: int, d: int)
    requires d in {4, 100, 400}
    ensures (a + 1) / d == a / d + if (a + 1) % d == 0 then 1 else 0
  {
  }

  lemma YearStep(y: int)
    ensures DayFromYear(y + 1) == DayFromYear(y) + if IsLeap(y) then 366 else 365
  {
    FloorStep(y - 1969, 4);
    FloorStep(y - 1901, 100);
    FloorStep(y - 1601, 400);
    LeapResidues(y);
  }

  lemma LeapResidues(y: int)
    ensures (y - 1968) % 4 == y % 4 && (y - 1900) % 100 == y % 100 && (y - 1600) % 400 == y % 400
    ensures y % 400 == 0 ==> y % 100 == 0
    ensures y % 100 == 0 ==> y % 4 == 0
  {
    assert (y - 1968) % 4 == y % 4;
    assert (y - 1900) % 100 == y % 100;
    assert (y - 1600) % 400 == y % 400;
    Hundredfold(y, y / 100);
    FourHundredfold(y, y / 400);
  }

  lemma Hundredfold(y: int, q: int)
    ensures y == 100 * q ==> y % 4 == 0
  {
    assert 100 * q == 4 * (25 * q);
  }

  lemma FourHundredfold(y: int, q: int)
    ensures y == 400 * q ==> y % 100 == 0
  {
    assert 400 * q == 100 * (4 * q);
  }

  lemma MakeDayByIndex(year: int, month: int, date: int)
    ensures MakeDay(year, month, date) == MonthStart(12 * year + month) + date - 1
  {
    assert (12 * year + month) / 12 == year + month / 12;
    assert (12 * year + month) % 12 == month % 12;
  }

  lemma {:induction false} MonthStartsRise(j: int, k: int)
    requires j <= k
    ensures MonthStart(j) + 28 * (k - j) <= MonthStart(k) <= MonthStart(j) + 31 * (k - j)
    decreases k - j
  {
    hide MonthStart, MonthLength;
    if j < k {
      MonthStartsRise(j, k - 1);
      MonthStartStep(k - 1);
    }
  }

  lemma MonthIsUnique(t: int, k: int)
    requires MonthStart(k) <= Day(t) < MonthStart(k + 1)
    ensures MonthOf(t) == k
  {
    hide MonthStart, MonthLength, MonthOf, Day;
    var m := MonthOf(t);
    if m < k {
      MonthStartsRise(m + 1, k);
    } else if k < m {
      MonthStartsRise(k + 1, m);
    }
  }

  /** The twelve months from `k` hold the 29 February of the year March is in. */
  lemma TwelveMonths(k: int)
    ensures MonthStart(k + 12) - MonthStart(k) == if IsLeap((k + 10) / 12) then 366 else 365
  {
    var y := k / 12;
    assert (k + 12) / 12 == y + 1 && (k + 12) % 12 == k % 12;
    assert (k + 10) / 12 == if k % 12 < 2 then y else y + 1;
    YearStep(y);
  }

  // ---- Month addition -----------------------------------------------------------------------

  /** Where the addition lands: the target month, at the clamped day, at the same time of day. */
  lemma AddMonthsLands(t: int, n: int)
    ensures MonthOf(AddMonths(t, n)) == MonthOf(t) + n
    ensures DayOfMonth(AddMonths(t, n)) == Min(DayOfMonth(t), MonthLength(MonthOf(t) + n))
    ensures AddMonths(t, n) % MS_PER_DAY == t % MS_PER_DAY
  {
    hide MonthStart, MonthLength, MonthOf;
    var k := MonthOf(t) + n;
    MonthStartStep(k);
    MonthIsUnique(AddMonths(t, n), k);
  }

  lemma AddNoMonths(t: int)
    ensures AddMonths(t, 0) == t
  {
  }

  /** Two instants of one month that the target month clamps to one day, the earlier instant
      having the later time of day. */
  predicate ClampsOutOfOrder(s: int, t: int, n: int) {
    && MonthOf(s) == MonthOf(t)
    && MonthLength(MonthOf(s) + n) <= DayOfMonth(s) < DayOfMonth(t)
    && t % MS_PER_DAY < s % MS_PER_DAY
  }

  /** The addition keeps the order of days for all instants, and the order of instants exactly
      when the clamp does not fold two days into one against their times of day. */
  lemma AddMonthsMonotone(s: int, t: int, n: int)
    requires s <= t
    ensures Day(AddMonths(s, n)) <= Day(AddMonths(t, n))
    ensures AddMonths(s, n) <= AddMonths(t, n) <==> !ClampsOutOfOrder(s, t, n)
  {
    hide MonthStart, MonthLength, MonthOf;
    var j, k := MonthOf(s), MonthOf(t);
    MonthStartStep(j + n);
    MonthStartStep(k + n);
    if j < k {
      MonthStartsRise(j + n + 1, k + n);
    } else if k < j {
      MonthStartsRise(k + 1, j);
      assert false;
    }
  }

  lemma FoldedDays(k: int)
    requires MonthLength(k) == 31 && MonthLength(k + 1) == 28
    ensures exists s, t :: MonthOf(s) == k && s <= t && AddMonths(t, 1) < AddMonths(s, 1)
  {
    hide MonthStart, MonthLength, MonthOf;
    var s := Days(MonthStart(k) + 29) + 82_800_000;
    var t := Days(MonthStart(k) + 30) + 3_600_000;
    MonthStartStep(k);
    MonthIsUnique(s, k);
    MonthIsUnique(t, k);
    AddMonthsMonotone(s, t, 1);
  }

  /** 30 January 2023 at 23:00 and 31 January 2023 at 01:00, one month on. */
  lemma InstantOrderIsNotKept()
    ensures exists s, t :: MonthOf(s) == 12 * 2023 && s <= t && AddMonths(t, 1) < AddMonths(s, 1)
  {
    FoldedDays(12 * 2023);
  }

  /** A positive number of months moves at least 28 days a month, less the clamp. */
  lemma AddMonthsLater(t: int, n: int)
    requires 0 < n
    ensures t + Days(28) <= AddMonths(t, n)
  {
    hide MonthStart, MonthLength, MonthOf;
    var k := MonthOf(t);
    MonthStartStep(k);
    MonthStartStep(k + n);
    MonthStartsRise(k + 1, k + n);
  }

  lemma OneMonthSpan(t: int)
    ensures Days(28) <= AddMonths(t, 1) - t <= Days(31)
  {
    hide MonthStart, MonthLength, MonthOf;
    MonthStartStep(MonthOf(t));
    MonthStartStep(MonthOf(t) + 1);
  }

  lemma OneYearSpan(t: int)
    ensures AddMonths(t, 12) - t in {Days(365), Days(366)}
  {
    hide MonthStart, MonthOf;
    var k := MonthOf(t);
    TwelveMonths(k);
    MonthStartStep(k);
    MonthStartStep(k + 12);
    assert (k + 12) % 12 == k % 12 && (k + 12) / 12 == k / 12 + 1;
  }

  /** `n` consecutive monthly steps. */
  function MonthlySteps(t: int, n: nat): int {
    if n == 0 then t else AddMonths(MonthlySteps(t, n - 1), 1)
  }

  /** Along a chain of monthly steps the day of the month never rises and never drops below the
      28th (or the starting day, when that is earlier); the chain stays in the month the single
      long step reaches, at most three days before it. */
  lemma {:induction false} MonthlyChain(t: int, n: nat)
    ensures MonthOf(MonthlySteps(t, n)) == MonthOf(t) + n
    ensures Min(DayOfMonth(t), 28) <= DayOfMonth(MonthlySteps(t, n)) <= DayOfMonth(t)
    ensures n > 0 ==> DayOfMonth(MonthlySteps(t, n)) <= DayOfMonth(MonthlySteps(t, n - 1))
    ensures 0 <= AddMonths(t, n) - MonthlySteps(t, n) <= Days(3)
    ensures MonthlySteps(t, n) % MS_PER_DAY == t % MS_PER_DAY
  {
    hide MonthStart, MonthLength, MonthOf;
    if n == 0 {
      AddNoMonths(t);
    } else {
      var u := MonthlySteps(t, n - 1);
      MonthlyChain(t, n - 1);
      AddMonthsLands(u, 1);
      AddMonthsLands(t, n);
      MonthStartStep(MonthOf(t) + n);
    }
  }

  /** Twelve monthly steps and one yearly step end in the same month, the monthly ones at most three
      days earlier. */
  lemma TwelveMonthlyStepsVersusOneYear(t: int)
    ensures MonthOf(MonthlySteps(t, 12)) == MonthOf(AddMonths(t, 12))
    ensures 0 <= AddMonths(t, 12) - MonthlySteps(t, 12) <= Days(3)
  {
    MonthlyChain(t, 12);
    AddMonthsLands(t, 12);
  }
}
