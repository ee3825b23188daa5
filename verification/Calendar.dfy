/** Dates as JavaScript computes them (section 21.4.1 of ECMA-262), and the month
    arithmetic of a subscription (apps/api/src/modules/billing/billing.math.ts).

    An instant is a whole number of milliseconds since 1970-01-01T00:00Z, a day is a whole
    number of days since then, and a month is numbered `12 * year + month`, with January 0. */
module Calendar {

  const MS_PER_DAY := 86_400_000

  const EPOCH := 12 * 1970

  // ----- the calendar as a sequence of months

  predicate IsLeap(y: int) {
    y % 4 == 0 && (y % 100 != 0 || y % 400 == 0)
  }

  function DaysInMonth(y: int, m: int): int {
    if m == 1 then (if IsLeap(y) then 29 else 28)
    else if m == 3 || m == 5 || m == 8 || m == 10 then 30
    else 31
  }

  function MonthLength(month: int): int {
    DaysInMonth(month / 12, month % 12)
  }

  /** The first day of a month, counted from January 1970 in either direction. */
  function MonthStart(month: int): int
    decreases if month < EPOCH then EPOCH - month else month - EPOCH
  {
    if month == EPOCH then 0
    else if EPOCH < month then MonthStart(month - 1) + MonthLength(month - 1)
    else MonthStart(month + 1) - MonthLength(month)
  }

  lemma NextMonth(month: int)
    ensures MonthStart(month + 1) == MonthStart(month) + MonthLength(month)
    ensures 28 <= MonthLength(month) <= 31
  {
  }

  /** `n` consecutive months last between 28 * n and 31 * n days. */
  lemma {:induction false} MonthsApart(month: int, n: nat)
    ensures 28 * n <= MonthStart(month + n) - MonthStart(month) <= 31 * n
  {
    if n > 0 {
      MonthsApart(month, n - 1);
      NextMonth(month + n - 1);
    }
  }

  // ----- the same days by the formula of section 21.4.1.3 of ECMA-262

  function DayFromYear(y: int): int {
    365 * (y - 1970) + (y - 1969) / 4 - (y - 1901) / 100 + (y - 1601) / 400
  }

  /** Days of year `y` that come before its month `m`. */
  function DaysBefore(y: int, m: int): int
    requires 0 <= m < 12
  {
    [0, 31, 59, 90, 120, 151, 181, 212, 243, 273, 304, 334][m] + (if m > 1 && IsLeap(y) then 1 else 0)
  }

  lemma {:induction false} MonthStartIsEcma(month: int)
    ensures MonthStart(month) == DayFromYear(month / 12) + DaysBefore(month / 12, month % 12)
    decreases if month < EPOCH then EPOCH - month else month - EPOCH
  {
    hide DayFromYear, DaysBefore, MonthLength;
    if EPOCH < month {
      MonthStartIsEcma(month - 1);
      EcmaNextMonth(month - 1);
    } else if month < EPOCH {
      MonthStartIsEcma(month + 1);
      EcmaNextMonth(month);
    } else {
      EpochIsEcma();
    }
  }

  lemma EpochIsEcma()
    ensures DayFromYear(EPOCH / 12) + DaysBefore(EPOCH / 12, EPOCH % 12) == 0
  {
  }

  lemma EcmaNextMonth(month: int)
    ensures DayFromYear((month + 1) / 12) + DaysBefore((month + 1) / 12, (month + 1) % 12)
         == DayFromYear(month / 12) + DaysBefore(month / 12, month % 12) + MonthLength(month)
  {
    hide DayFromYear;
    var y := month / 12;
    if month % 12 == 11 {
      assert (month + 1) / 12 == y + 1 && (month + 1) % 12 == 0;
      YearLength(y);
    } else {
      assert (month + 1) / 12 == y && (month + 1) % 12 == month % 12 + 1;
    }
  }

  lemma YearLength(y: int)
    ensures DayFromYear(y + 1) == DayFromYear(y) + (if IsLeap(y) then 366 else 365)
  {
    FloorStep(y - 1969, 4);
    FloorStep(y - 1901, 100);
    FloorStep(y - 1601, 400);
  }

  lemma FloorStep(a: int, n: int)
    requires n == 4 || n == 100 || n == 400
    ensures (a + 1) / n == a / n + (if (a + 1) % n == 0 then 1 else 0)
  {
  }

  // ----- from a day back to its month and date

  /** The month whose days include `day`. */
  function MonthOf(day: int): (month: int)
    ensures MonthStart(month) <= day < MonthStart(month + 1)
  {
    if 0 <= day then MonthFrom(day, EPOCH) else MonthBefore(day, EPOCH)
  }

  function MonthFrom(day: int, month: int): (r: int)
    requires MonthStart(month) <= day
    ensures MonthStart(r) <= day < MonthStart(r + 1)
    decreases day - MonthStart(month)
  {
    NextMonth(month);
    if day < MonthStart(month + 1) then month else MonthFrom(day, month + 1)
  }

  function MonthBefore(day: int, month: int): (r: int)
    requires day < MonthStart(month)
    ensures MonthStart(r) <= day < MonthStart(r + 1)
    decreases MonthStart(month) - day
  {
    NextMonth(month - 1);
    if MonthStart(month - 1) <= day then month - 1 else MonthBefore(day, month - 1)
  }

  /** The date within the month, from 1. */
  function DateOf(day: int): (d: int)
    ensures 1 <= d <= MonthLength(MonthOf(day))
  {
    NextMonth(MonthOf(day));
    day - MonthStart(MonthOf(day)) + 1
  }

  /** Month and date round-trip: every date of every month is read back as itself. */
  lemma DateRoundTrip(month: int, d: int)
    requires 1 <= d <= MonthLength(month)
    ensures MonthOf(MonthStart(month) + d - 1) == month
    ensures DateOf(MonthStart(month) + d - 1) == d
  {
    hide MonthLength, MonthStart;
    var found := MonthOf(MonthStart(month) + d - 1);
    NextMonth(month);
    if found < month {
      MonthsApart(found + 1, month - found - 1);
    } else if month < found {
      MonthsApart(month + 1, found - month - 1);
    }
  }

  // ----- the Date object's accessors and setters

  function DayOf(t: int): int { t / MS_PER_DAY }

  function TimeWithinDay(t: int): int { t % MS_PER_DAY }

  function MakeDay(year: int, month: int, date: int): int {
    MonthStart(12 * (year + month / 12) + month % 12) + date - 1
  }

  function MakeDate(day: int, time: int): int { day * MS_PER_DAY + time }

  function UtcFullYear(t: int): int { MonthOf(DayOf(t)) / 12 }

  function UtcMonth(t: int): int { MonthOf(DayOf(t)) % 12 }

  function UtcDate(t: int): int { DateOf(DayOf(t)) }

  function SetUtcDate(t: int, date: int): int {
    MakeDate(MakeDay(UtcFullYear(t), UtcMonth(t), date), TimeWithinDay(t))
  }

  function SetUtcMonth(t: int, month: int): int {
    MakeDate(MakeDay(UtcFullYear(t), month, UtcDate(t)), TimeWithinDay(t))
  }

  /** `Date.UTC(year, month, date)`, which reads the years 0 to 99 as 1900 to 1999. */
  function DateUtc(year: int, month: int, date: int): int {
    MakeDate(MakeDay(if 0 <= year <= 99 then 1900 + year else year, month, date), 0)
  }

  lemma MakeDayIsMonthStart(year: int, month: int, date: int)
    ensures MakeDay(year, month, date) == MonthStart(12 * year + month) + date - 1
  {
    assert 12 * (year + month / 12) + month % 12 == 12 * year + month;
  }

  /** Reading back an instant that was put together from a month, a date and a time. */
  lemma OnDate(t: int, month: int, d: int, time: int)
    requires 0 <= time < MS_PER_DAY && 1 <= d <= MonthLength(month)
    requires t == MakeDate(MonthStart(month) + d - 1, time)
    ensures MonthOf(DayOf(t)) == month && UtcDate(t) == d && TimeWithinDay(t) == time
  {
    hide MonthLength, MonthStart;
    assert DayOf(t) == MonthStart(month) + d - 1;
    DateRoundTrip(month, d);
  }

  // ----- adding calendar months

  function Min(a: int, b: int): int { if a <= b then a else b }

  /** The last day `addMonths` believes `month` has. */
  function BelievedLength(month: int): int {
    if month == 1 then 28 else MonthLength(month)
  }

  /** Where `addMonths` lands. */
  function Shifted(from: int, months: int): int {
    var target := MonthOf(DayOf(from)) + months;
    MakeDate(MonthStart(target) + Min(DateOf(DayOf(from)), BelievedLength(target)) - 1, TimeWithinDay(from))
  }

  /** The method of billing.math.ts, setter by setter. */
  method AddMonths(from: int, months: int) returns (shifted: int)
    ensures shifted == Shifted(from, months)
  {
    hide MonthLength, MonthStart;
    var day := UtcDate(from);
    ghost var start, target, time := MonthOf(DayOf(from)), MonthOf(DayOf(from)) + months, TimeWithinDay(from);
    NextMonth(start);
    NextMonth(target);
    shifted := from;

    shifted := SetUtcDate(shifted, 1);
    MakeDayIsMonthStart(UtcFullYear(from), UtcMonth(from), 1);
    OnDate(shifted, start, 1, time);

    shifted := SetUtcMonth(shifted, UtcMonth(shifted) + months);
    MakeDayIsMonthStart(start / 12, start % 12 + months, 1);
    OnDate(shifted, target, 1, time);

    var lastDay := UtcDate(DateUtc(UtcFullYear(shifted), UtcMonth(shifted) + 1, 0));
    LastDayBelieved(target);

    shifted := SetUtcDate(shifted, Min(day, lastDay));
    MakeDayIsMonthStart(target / 12, target % 12, Min(day, lastDay));
  }

  /** Day 0 of the month after `month`, through `Date.UTC`, is what `BelievedLength` says:
      the 19xx reading of the years 0 to 99 changes the length of February of the year 0
      and of nothing else. */
  lemma LastDayBelieved(month: int)
    ensures UtcDate(DateUtc(month / 12, month % 12 + 1, 0)) == BelievedLength(month)
  {
    hide MonthLength, MonthStart;
    var y := if 0 <= month / 12 <= 99 then 1900 + month / 12 else month / 12;
    var read := 12 * y + month % 12;
    MakeDayIsMonthStart(y, month % 12 + 1, 0);
    NextMonth(read);
    OnDate(DateUtc(month / 12, month % 12 + 1, 0), read, MonthLength(read), 0);
    LengthsOfTheFirstCentury(month);
  }

  lemma LengthsOfTheFirstCentury(month: int)
    ensures var y := if 0 <= month / 12 <= 99 then 1900 + month / 12 else month / 12;
            MonthLength(12 * y + month % 12) == BelievedLength(month)
  {
    var y := if 0 <= month / 12 <= 99 then 1900 + month / 12 else month / 12;
    assert (12 * y + month % 12) / 12 == y && (12 * y + month % 12) % 12 == month % 12;
  }

  // ----- what the month arithmetic promises

  /** The civil rule: `months` calendar months on, on the same date or the month's last one,
      at the same time of day. */
  predicate LandsOn(from: int, months: int, t: int) {
    var target := MonthOf(DayOf(from)) + months;
    && MonthOf(DayOf(t)) == target
    && DateOf(DayOf(t)) == Min(DateOf(DayOf(from)), MonthLength(target))
    && TimeWithinDay(t) == TimeWithinDay(from)
  }

  /** `addMonths` keeps the civil rule for every instant and every number of months, except
      exactly when the target is February of the year 0 and the starting date is past 28. */
  lemma AddMonthsIsCivil(from: int, months: int)
    ensures LandsOn(from, months, Shifted(from, months))
       <==> !(MonthOf(DayOf(from)) + months == 1 && DateOf(DayOf(from)) > 28)
  {
    ShiftedDay(from, months);
    assert MonthLength(1) == 29;
  }

  /** Where `n` bought months end: the civil rule, but for the one February. */
  predicate IsMonthsLater(from: int, n: int, t: int) {
    var target := MonthOf(DayOf(from)) + n;
    && MonthOf(DayOf(t)) == target
    && DateOf(DayOf(t)) == (if target == 1 then Min(DateOf(DayOf(from)), 28)
                            else Min(DateOf(DayOf(from)), MonthLength(target)))
    && TimeWithinDay(t) == TimeWithinDay(from)
  }

  lemma ShiftedIsMonthsLater(from: int, n: int)
    ensures IsMonthsLater(from, n, Shifted(from, n))
  {
    ShiftedDay(from, n);
  }

  /** The day an `addMonths` lands on, with the only facts later proofs need. */
  lemma ShiftedDay(from: int, months: int)
    ensures var t := Shifted(from, months);
            && MonthOf(DayOf(t)) == MonthOf(DayOf(from)) + months
            && DateOf(DayOf(t)) == Min(DateOf(DayOf(from)), BelievedLength(MonthOf(DayOf(t))))
            && TimeWithinDay(t) == TimeWithinDay(from)
            && 28 <= BelievedLength(MonthOf(DayOf(t))) <= MonthLength(MonthOf(DayOf(t))) <= 31
  {
    var target := MonthOf(DayOf(from)) + months;
    NextMonth(target);
    assert MonthLength(1) == 29;
    OnDate(Shifted(from, months), target, Min(DateOf(DayOf(from)), BelievedLength(target)), TimeWithinDay(from));
  }

  /** A purchase of `n` months, one at least, lasts between 28 * n and 31 * n days, to the
      millisecond. */
  lemma PeriodLength(from: int, n: nat)
    requires 1 <= n
    ensures 28 * n * MS_PER_DAY <= Shifted(from, n) - from <= 31 * n * MS_PER_DAY
  {
    hide MonthLength, MonthStart;
    var start, d := MonthOf(DayOf(from)), DateOf(DayOf(from));
    var t := Shifted(from, n);
    ShiftedDay(from, n);
    MonthsApart(start, n);
    MonthsApart(start + 1, n - 1);
    NextMonth(start);
    assert 28 * n <= DayOf(t) - DayOf(from) <= 31 * n;
  }

  /** Of two starting days, the later one never lands on an earlier day. */
  lemma AddMonthsMonotone(a: int, b: int, n: int)
    requires DayOf(a) <= DayOf(b)
    ensures DayOf(Shifted(a, n)) <= DayOf(Shifted(b, n))
  {
    hide MonthLength, MonthStart;
    ShiftedDay(a, n);
    ShiftedDay(b, n);
    var ma, mb := MonthOf(DayOf(a)), MonthOf(DayOf(b));
    if mb < ma {
      MonthsApart(mb + 1, ma - mb - 1);
    } else if ma < mb {
      MonthsApart(ma + n + 1, mb - ma - 1);
    }
  }

  /** At the granularity of instants the order reverses exactly for two dates of one month that
      are both cut to the last date of the target month, the later one at an earlier time of day. */
  lemma ReversedWithinADay(a: int, b: int, n: int)
    requires a < b
    ensures Shifted(b, n) < Shifted(a, n)
       <==> && MonthOf(DayOf(a)) == MonthOf(DayOf(b))
            && DateOf(DayOf(a)) >= BelievedLength(MonthOf(DayOf(a)) + n)
            && TimeWithinDay(b) < TimeWithinDay(a)
  {
    hide MonthLength, MonthStart, Shifted, BelievedLength;
    var s, t := Shifted(a, n), Shifted(b, n);
    ShiftedDay(a, n);
    ShiftedDay(b, n);
    AddMonthsMonotone(a, b, n);
    assert t < s <==> DayOf(t) == DayOf(s) && TimeWithinDay(t) < TimeWithinDay(s);
    if MonthOf(DayOf(a)) == MonthOf(DayOf(b)) {
      assert DateOf(DayOf(b)) - DateOf(DayOf(a)) == DayOf(b) - DayOf(a);
      assert DateOf(DayOf(t)) - DateOf(DayOf(s)) == DayOf(t) - DayOf(s);
    }
  }

  /** It does: 30 January 2023, 12:00 and 31 January 2023, 00:00 both land on 28 February. */
  lemma NotMonotoneWithinADay()
    ensures exists a, b :: a < b && Shifted(b, 1) < Shifted(a, 1)
  {
    hide MonthStart, Shifted;
    var january := 12 * 2023;
    var a := MakeDate(MonthStart(january) + 29, MS_PER_DAY / 2);
    var b := MakeDate(MonthStart(january) + 30, 0);
    assert MonthLength(january) == 31 && MonthLength(january + 1) == 28;
    OnDate(a, january, 30, MS_PER_DAY / 2);
    OnDate(b, january, 31, 0);
    ReversedWithinADay(a, b, 1);
  }

  /** Buying `p` months and then `q` never reaches further than buying `p + q` at once, and
      loses at most three days. */
  lemma SplittingAPurchase(from: int, p: nat, q: nat)
    ensures var split, whole := Shifted(Shifted(from, p), q), Shifted(from, p + q);
            split <= whole <= split + 3 * MS_PER_DAY
  {
    hide MonthLength, MonthStart;
    ShiftedDay(from, p);
    ShiftedDay(Shifted(from, p), q);
    ShiftedDay(from, p + q);
  }
}
