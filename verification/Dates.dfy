/** Calendar dates as the contract engine uses them: a month counted from year 0 and a day of that month.
    Adding months clips the day; the difference in months counts whole months from the earlier date. */
module Dates {

  /** `month` is 12 * year + (month of year - 1). */
  datatype Date = Date(month: int, day: int)

  predicate LeapYear(year: int) {
    year % 4 == 0 && (year % 100 != 0 || year % 400 == 0)
  }

  function DaysIn(month: int): (d: int)
    ensures 28 <= d <= 31
  {
    var m := month % 12;
    if m == 1 then (if LeapYear(month / 12) then 29 else 28)
    else if m == 3 || m == 5 || m == 8 || m == 10 then 30
    else 31
  }

  predicate Valid(d: Date) {
    1 <= d.day <= DaysIn(d.month)
  }

  predicate Before(a: Date, b: Date) {
    a.month < b.month || (a.month == b.month && a.day < b.day)
  }

  predicate NotAfter(a: Date, b: Date) {
    !Before(b, a)
  }

  function PlusMonths(d: Date, k: int): (r: Date)
    ensures r.month == d.month + k
    ensures Valid(d) ==> Valid(r)
    ensures d.day <= 28 ==> r.day == d.day
    // The same day, or the last one of a month that has no such day.
    ensures r.day == d.day || (r.day < d.day && !Valid(Date(r.month, r.day + 1)))
    ensures Valid(Date(r.month, d.day)) ==> r.day == d.day
  {
    var last := DaysIn(d.month + k);
    Date(d.month + k, if d.day <= last then d.day else last)
  }

  /** Ten days later, the due date of every generated entry. */
  function PlusTenDays(d: Date): (r: Date)
    ensures Valid(d) ==> Valid(r) && Before(d, r)
  {
    if d.day + 10 <= DaysIn(d.month) then Date(d.month, d.day + 10)
    else Date(d.month + 1, d.day + 10 - DaysIn(d.month))
  }

  /** Whole months from `a` to a later `b`: the last k with a + k months not after b. */
  function WholeMonths(a: Date, b: Date): (k: int)
    requires NotAfter(a, b)
    requires Valid(a) && Valid(b)
    ensures 0 <= k
    ensures NotAfter(PlusMonths(a, k), b) && Before(b, PlusMonths(a, k + 1))
  {
    var k := b.month - a.month;
    if Before(b, PlusMonths(a, k)) then k - 1 else k
  }

  /** `Math.ceil(end.diff(start, 'months').months)` for start not after end. */
  function CeilMonths(a: Date, b: Date): (k: int)
    requires NotAfter(a, b)
    requires Valid(a) && Valid(b)
    ensures 0 <= k
    ensures NotAfter(b, PlusMonths(a, k))
    ensures k > 0 ==> Before(PlusMonths(a, k - 1), b)
  {
    var k := WholeMonths(a, b);
    if PlusMonths(a, k) == b then k else k + 1
  }

  /** `Math.floor(end.diff(start, 'months').months)`; the difference is negative when end is earlier. */
  function FloorMonths(start: Date, end: Date): (k: int)
    requires Valid(start) && Valid(end)
    ensures NotAfter(start, end) ==>
              0 <= k && NotAfter(PlusMonths(start, k), end) && Before(end, PlusMonths(start, k + 1))
    ensures Before(end, start) ==>
              k < 0 && NotAfter(start, PlusMonths(end, -k)) && Before(PlusMonths(end, -k - 1), start)
  {
    if NotAfter(start, end) then WholeMonths(start, end) else -CeilMonths(end, start)
  }

  /** Only one number of months is the last that does not pass a date. */
  lemma {:induction false} MesesUnicos(a: Date, b: Date, j: int, k: int)
    requires Valid(a) && Valid(b)
    requires NotAfter(PlusMonths(a, j), b) && Before(b, PlusMonths(a, j + 1))
    requires NotAfter(PlusMonths(a, k), b) && Before(b, PlusMonths(a, k + 1))
    ensures j == k
  {
  }

  // ---------- day by day ----------

  function NextDay(d: Date): (r: Date)
    ensures Valid(d) ==> Valid(r) && Before(d, r)
  {
    if Valid(Date(d.month, d.day + 1)) then Date(d.month, d.day + 1) else Date(d.month + 1, 1)
  }

  function DaysAfter(d: Date, n: nat): Date {
    if n == 0 then d else NextDay(DaysAfter(d, n - 1))
  }

  /** Nothing lies between a day and the next. */
  lemma {:induction false} NadaEntreDias(d: Date, e: Date)
    requires Valid(d) && Valid(e)
    ensures Before(d, e) <==> NotAfter(NextDay(d), e)
  {
  }

  lemma {:induction false} DiasEnElMes(d: Date, n: nat)
    requires Valid(d) && Valid(Date(d.month, d.day + n))
    ensures DaysAfter(d, n) == Date(d.month, d.day + n)
  {
    if n > 0 { DiasEnElMes(d, n - 1); }
  }

  lemma {:induction false} DiasSumados(d: Date, m: nat, n: nat)
    ensures DaysAfter(d, m + n) == DaysAfter(DaysAfter(d, m), n)
  {
    if n > 0 { DiasSumados(d, m, n - 1); }
  }

  /** The due date comes ten days later, counted one by one. */
  lemma {:induction false} DiezDias(d: Date)
    requires Valid(d)
    ensures PlusTenDays(d) == DaysAfter(d, 10)
  {
    var resto := DaysIn(d.month) - d.day;
    if resto >= 10 {
      DiasEnElMes(d, 10);
    } else {
      DiasEnElMes(d, resto);
      DiasSumados(d, resto, 1);
      DiasSumados(d, resto + 1, 9 - resto);
      assert DaysAfter(d, resto + 1) == Date(d.month + 1, 1) by {
        assert DaysAfter(DaysAfter(d, resto), 1) == NextDay(DaysAfter(DaysAfter(d, resto), 0));
      }
      DiasEnElMes(Date(d.month + 1, 1), 9 - resto);
    }
  }

  function DiasHasta(month: int, n: nat): nat {
    if n == 0 then 0 else DiasHasta(month, n - 1) + DaysIn(month + n - 1)
  }

  /** Days of a common year before each month. */
  const ANTES := [0, 31, 59, 90, 120, 151, 181, 212, 243, 273, 304, 334, 365]

  predicate Bisiesto(year: int) {
    year % 400 == 0 || (year % 4 == 0 && year % 100 != 0)
  }

  /** A year has 365 days in the usual months, and one more in February in every fourth year but three of four
      centuries. */
  lemma {:induction false} DiasDelAnio(year: int, n: nat)
    requires n <= 12
    ensures DiasHasta(12 * year, n) == ANTES[n] + if n >= 2 && Bisiesto(year) then 1 else 0
  {
    if n > 0 {
      DiasDelAnio(year, n - 1);
      MesDelAnio(year, n - 1);
    }
  }

  lemma {:induction false} MesDelAnio(year: int, i: int)
    requires 0 <= i < 12
    ensures (12 * year + i) % 12 == i && (12 * year + i) / 12 == year
    ensures LeapYear(year) <==> Bisiesto(year)
  {
  }
}
