/**
 The calendar windows of the limit checks.  An instant counts seconds from
 1970-01-01T00:00:00Z, so `date_trunc` is taken in UTC.
 */
module Calendar {
  const DAY := 86400

  datatype Window = Window(start: nat, end: nat) {
    predicate Has(t: nat) { start <= t < end }
  }

  // [date_trunc('day', t), date_trunc('day', t) + 1 day)
  function DayWindow(t: nat): (w: Window)
    ensures w.Has(t)
  {
    var start := t / DAY * DAY;
    Window(start, start + DAY)
  }

  lemma DayWindowsPartition(t: nat, u: nat)
    requires DayWindow(t).Has(u)
    ensures DayWindow(u) == DayWindow(t)
  {
  }

  predicate LeapYear(year: nat) {
    year % 4 == 0 && (year % 100 != 0 || year % 400 == 0)
  }

  // Length of the month number `k`, counted from January 1970.
  function MonthDays(k: nat): (days: nat)
    ensures 28 <= days <= 31
  {
    var month := k % 12;
    if month == 1 then (if LeapYear(1970 + k / 12) then 29 else 28)
    else if month in {3, 5, 8, 10} then 30
    else 31
  }

  function MonthStart(k: nat): nat {
    if k == 0 then 0 else MonthStart(k - 1) + MonthDays(k - 1) * DAY
  }

  lemma MonthStartMonotone(j: nat, k: nat)
    requires j <= k
    ensures MonthStart(j) <= MonthStart(k)
    decreases k - j
  {
  }

  function MonthFrom(t: nat, k: nat): (m: nat)
    requires MonthStart(k) <= t
    ensures MonthStart(m) <= t < MonthStart(m + 1)
    decreases t - MonthStart(k)
  {
    if t < MonthStart(k + 1) then k else MonthFrom(t, k + 1)
  }

  // [date_trunc('month', t), date_trunc('month', t) + 1 month)
  function MonthWindow(t: nat): (w: Window)
    ensures w.Has(t)
  {
    var m := MonthFrom(t, 0);
    Window(MonthStart(m), MonthStart(m + 1))
  }

  /** Every instant of a calendar month truncates to that month. */
  lemma MonthWindowsPartition(t: nat, u: nat)
    requires MonthWindow(t).Has(u)
    ensures MonthWindow(u) == MonthWindow(t)
  {
    var m, n := MonthFrom(t, 0), MonthFrom(u, 0);
    if m < n {
      MonthStartMonotone(m + 1, n);
    } else if n < m {
      MonthStartMonotone(n + 1, m);
    }
  }

  /* ---- civil dates ---- */

  // Days of the months before each month of a common year.
  const OFFSETS: seq<nat> := [0, 31, 59, 90, 120, 151, 181, 212, 243, 273, 304, 334]

  // Leap days of the Gregorian calendar from 1970 up to the first of January of a year.
  function LeapDaysBefore(year: nat): int
    requires year >= 1970
  {
    (year - 1) / 4 - (year - 1) / 100 + (year - 1) / 400 - 477
  }

  // 00:00 of the first day of a month, January being 0.
  function FirstOfMonth(year: nat, month: nat): int
    requires year >= 1970 && month < 12
  {
    var leap := if month >= 2 then LeapDaysBefore(year + 1) else LeapDaysBefore(year);
    86400 * (365 * (year - 1970) + leap + OFFSETS[month])
  }

  lemma LeapDayOfYear(year: nat)
    requires year >= 1970
    ensures LeapDaysBefore(year + 1) == LeapDaysBefore(year) + (if LeapYear(year) then 1 else 0)
  {
    FourthYears(year);
    CenturyYears(year);
  }

  lemma Fours(q: int, r: nat)
    requires r < 4
    ensures (4 * q + r) / 4 == q && (4 * q + r) % 4 == r
  {
  }

  lemma Hundreds(q: int, r: nat)
    requires r < 100
    ensures (100 * q + r) / 100 == q && (100 * q + r) % 100 == r
  {
  }

  lemma FourHundreds(q: int, r: nat)
    requires r < 400
    ensures (400 * q + r) / 400 == q && (400 * q + r) % 400 == r
  {
  }

  lemma FourthYears(year: nat)
    requires year > 0
    ensures year / 4 == (year - 1) / 4 + (if year % 4 == 0 then 1 else 0)
    ensures year % 100 == 0 ==> year % 4 == 0
  {
    var q, r := year / 4, year % 4;
    if r == 0 { Fours(q - 1, 3); } else { Fours(q, r - 1); }
    assert year - 1 == if r == 0 then 4 * (q - 1) + 3 else 4 * q + (r - 1);
    if year % 100 == 0 {
      Fours(25 * (year / 100), 0);
      assert year == 4 * (25 * (year / 100)) + 0;
    }
  }

  lemma CenturyYears(year: nat)
    requires year > 0
    ensures year / 100 == (year - 1) / 100 + (if year % 100 == 0 then 1 else 0)
    ensures year / 400 == (year - 1) / 400 + (if year % 400 == 0 then 1 else 0)
    ensures year % 400 == 0 ==> year % 100 == 0
  {
    HundredthYears(year);
    FourHundredthYears(year);
    if year % 400 == 0 {
      Hundreds(4 * (year / 400), 0);
      assert year == 100 * (4 * (year / 400)) + 0;
    }
  }

  lemma HundredthYears(year: nat)
    requires year > 0
    ensures year / 100 == (year - 1) / 100 + (if year % 100 == 0 then 1 else 0)
  {
    var q, r := year / 100, year % 100;
    if r == 0 { Hundreds(q - 1, 99); } else { Hundreds(q, r - 1); }
    assert year - 1 == if r == 0 then 100 * (q - 1) + 99 else 100 * q + (r - 1);
  }

  lemma FourHundredthYears(year: nat)
    requires year > 0
    ensures year / 400 == (year - 1) / 400 + (if year % 400 == 0 then 1 else 0)
  {
    var q, r := year / 400, year % 400;
    if r == 0 { FourHundreds(q - 1, 399); } else { FourHundreds(q, r - 1); }
    assert year - 1 == if r == 0 then 400 * (q - 1) + 399 else 400 * q + (r - 1);
  }

  lemma MonthNumber(n: nat, month: nat)
    requires month < 12
    ensures (12 * n + month) / 12 == n && (12 * n + month) % 12 == month
  {
  }

  // A month ends where the next one begins.
  lemma MonthFollows(year: nat, month: nat)
    requires year >= 1970 && month < 12
    ensures FirstOfMonth(year, month) + 86400 * MonthDays(12 * (year - 1970) + month)
            == if month == 11 then FirstOfMonth(year + 1, 0) else FirstOfMonth(year, month + 1)
  {
    MonthNumber(year - 1970, month);
    LeapDayOfYear(year);
    hide LeapYear, LeapDaysBefore;
  }

  lemma {:induction false} MonthStartIsCivil(year: nat, month: nat)
    requires year >= 1970 && month < 12
    ensures MonthStart(12 * (year - 1970) + month) == FirstOfMonth(year, month)
    decreases year, month
  {
    hide MonthStart, FirstOfMonth, MonthDays;
    var k := 12 * (year - 1970) + month;
    if k == 0 {
      Epoch();
    } else {
      MonthStartNext(k);
      if month > 0 {
        MonthStartIsCivil(year, month - 1);
        MonthFollows(year, month - 1);
      } else {
        MonthStartIsCivil(year - 1, 11);
        MonthFollows(year - 1, 11);
        assert k - 1 == 12 * (year - 1 - 1970) + 11;
      }
    }
  }

  lemma Epoch()
    ensures MonthStart(0) == FirstOfMonth(1970, 0)
  {
  }

  lemma MonthStartNext(k: nat)
    requires k > 0
    ensures MonthStart(k) == MonthStart(k - 1) + 86400 * MonthDays(k - 1)
  {
  }

  /** The monthly window of an instant runs from the first of a month of the Gregorian calendar to the first
      of the next one. */
  lemma MonthWindowIsCivil(t: nat) returns (year: nat, month: nat)
    ensures year >= 1970 && month < 12
    ensures MonthWindow(t).start == FirstOfMonth(year, month) <= t
    ensures t < MonthWindow(t).end == (if month == 11 then FirstOfMonth(year + 1, 0) else FirstOfMonth(year, month + 1))
  {
    var m := MonthFrom(t, 0);
    year, month := 1970 + m / 12, m % 12;
    assert MonthWindow(t) == Window(MonthStart(m), MonthStart(m + 1));
    MonthStartIsCivil(year, month);
    MonthFollows(year, month);
    MonthStartNext(m + 1);
    hide MonthStart, FirstOfMonth, MonthDays, MonthFrom, MonthWindow;
  }
}
