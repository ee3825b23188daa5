/** `Date.prototype.toISOString` (section 21.4.1.32 of ECMA-262), on which the seal's signed
    bytes and the Date Signed box both rest. */
module IsoTime {
  import opened JsText
  import opened Calendar

  /** Every instant a Date can hold has a year that fits the six digits of the extended form. */
  predicate InRange(t: int) {
    -999_999 <= UtcFullYear(t) <= 999_999
  }

  function YearText(y: int): (s: JsString)
    ensures 0 <= y <= 9999 ==> |s| == 4 && AllDigits(s)
    ensures !(0 <= y <= 9999) ==> |s| == 7
  {
    if 0 <= y <= 9999 then Digits(y, 4)
    else if y < 0 then [0x2D] + Digits(-y, 6)
    else [0x2B] + Digits(y, 6)
  }

  function Hour(t: int): int { TimeWithinDay(t) / 3_600_000 }
  function Minute(t: int): int { TimeWithinDay(t) / 60_000 % 60 }
  function Second(t: int): int { TimeWithinDay(t) / 1000 % 60 }
  function Milli(t: int): int { TimeWithinDay(t) % 1000 }

  /** `YYYY-MM-DD` of an instant. */
  function DayText(t: int): JsString {
    YearText(UtcFullYear(t)) + [0x2D] + Digits(UtcMonth(t) + 1, 2) + [0x2D] + Digits(UtcDate(t), 2)
  }

  /** `THH:MM:SS.mmmZ` of an instant. */
  function ClockText(t: int): JsString {
    [0x54] + Digits(Hour(t), 2) + [0x3A] + Digits(Minute(t), 2) + [0x3A] + Digits(Second(t), 2)
    + [0x2E] + Digits(Milli(t), 3) + [0x5A]
  }

  function IsoString(t: int): JsString {
    DayText(t) + ClockText(t)
  }

  /** The text shows the day and the time it stands for, each part where ISO 8601 has it. */
  lemma IsoStringReadsBack(t: int)
    requires 0 <= UtcFullYear(t) <= 9999
    ensures var s := IsoString(t);
            && |s| == 24 && s[..10] == DayText(t)
            && s[4] == s[7] == 0x2D && s[10] == 0x54 && s[13] == s[16] == 0x3A && s[19] == 0x2E && s[23] == 0x5A
            && AllDigits(s[..4]) && NumberOf(s[..4]) == UtcFullYear(t)
            && AllDigits(s[5..7]) && NumberOf(s[5..7]) == UtcMonth(t) + 1
            && AllDigits(s[8..10]) && NumberOf(s[8..10]) == UtcDate(t)
            && AllDigits(s[11..13]) && AllDigits(s[14..16]) && AllDigits(s[17..19]) && AllDigits(s[20..23])
            && TimeWithinDay(t) == 3_600_000 * NumberOf(s[11..13]) + 60_000 * NumberOf(s[14..16])
                                   + 1000 * NumberOf(s[17..19]) + NumberOf(s[20..23])
  {
    hide Digits, NumberOf, MonthStart, MonthLength, Hour, Minute, Second, Milli;
    var s := IsoString(t);
    PartsAreSmall(t);
    ClockParts(t);
    SmallPowers();
    assert s[..4] == Digits(UtcFullYear(t), 4) && s[5..7] == Digits(UtcMonth(t) + 1, 2);
    assert s[8..10] == Digits(UtcDate(t), 2) && s[11..13] == Digits(Hour(t), 2);
    assert s[14..16] == Digits(Minute(t), 2) && s[17..19] == Digits(Second(t), 2) && s[20..23] == Digits(Milli(t), 3);
    DigitsRoundTrip(UtcFullYear(t), 4);
    DigitsRoundTrip(UtcMonth(t) + 1, 2);
    DigitsRoundTrip(UtcDate(t), 2);
    DigitsRoundTrip(Hour(t), 2);
    DigitsRoundTrip(Minute(t), 2);
    DigitsRoundTrip(Second(t), 2);
    DigitsRoundTrip(Milli(t), 3);
  }

  lemma PartsAreSmall(t: int)
    ensures 0 <= Hour(t) < 100 && 0 <= Minute(t) < 100 && 0 <= Second(t) < 100 && 0 <= Milli(t) < 1000
    ensures 0 <= UtcMonth(t) < 12 && 1 <= UtcDate(t) <= 31
  {
    hide MonthStart, MonthLength;
    DateIsSmall(DayOf(t));
  }

  lemma SmallPowers()
    ensures Pow10(2) == 100 && Pow10(3) == 1000 && Pow10(4) == 10_000 && Pow10(6) == 1_000_000
  {
    assert Pow10(3) == 10 * Pow10(2);
    assert Pow10(4) == 10 * Pow10(3);
    assert Pow10(5) == 10 * Pow10(4);
  }

  lemma DigitsInjective(m: nat, n: nat, width: nat)
    requires m < Pow10(width) && n < Pow10(width) && Digits(m, width) == Digits(n, width)
    ensures m == n
  {
    DigitsRoundTrip(m, width);
    DigitsRoundTrip(n, width);
  }

  lemma YearTextInjective(y: int, z: int)
    requires -999_999 <= y <= 999_999 && -999_999 <= z <= 999_999
    requires YearText(y) == YearText(z)
    ensures y == z
  {
    SmallPowers();
    if 0 <= y <= 9999 {
      DigitsInjective(y, z, 4);
    } else {
      var s, r := YearText(y), YearText(z);
      assert s[1..] == Digits(if y < 0 then -y else y, 6) && r[1..] == Digits(if z < 0 then -z else z, 6);
      DigitsInjective(if y < 0 then -y else y, if z < 0 then -z else z, 6);
      assert s[0] == r[0];
    }
  }

  lemma DayTextInjective(a: int, b: int)
    requires InRange(a) && InRange(b) && DayText(a) == DayText(b)
    ensures DayOf(a) == DayOf(b)
  {
    hide MonthStart, MonthLength, Digits;
    var ya, yb := YearText(UtcFullYear(a)), YearText(UtcFullYear(b));
    var s, r, n := DayText(a), DayText(b), |ya|;
    assert |ya| == |yb|;
    assert ya == s[..n] && yb == r[..n];
    YearTextInjective(UtcFullYear(a), UtcFullYear(b));
    SmallPowers();
    assert Digits(UtcMonth(a) + 1, 2) == s[n + 1..n + 3] && Digits(UtcMonth(b) + 1, 2) == r[n + 1..n + 3];
    DigitsInjective(UtcMonth(a) + 1, UtcMonth(b) + 1, 2);
    DateIsSmall(DayOf(a));
    DateIsSmall(DayOf(b));
    assert Digits(UtcDate(a), 2) == s[n + 4..] && Digits(UtcDate(b), 2) == r[n + 4..];
    DigitsInjective(UtcDate(a), UtcDate(b), 2);
    assert MonthOf(DayOf(a)) == 12 * UtcFullYear(a) + UtcMonth(a);
    assert MonthOf(DayOf(b)) == 12 * UtcFullYear(b) + UtcMonth(b);
  }

  lemma DateIsSmall(day: int)
    ensures 1 <= DateOf(day) <= 31
  {
    hide MonthStart, MonthLength;
    NextMonth(MonthOf(day));
  }

  lemma ClockTextInjective(a: int, b: int)
    requires ClockText(a) == ClockText(b)
    ensures TimeWithinDay(a) == TimeWithinDay(b)
  {
    hide Digits;
    SmallPowers();
    var s, r := ClockText(a), ClockText(b);
    assert Digits(Hour(a), 2) == s[1..3] && Digits(Hour(b), 2) == r[1..3];
    assert Digits(Minute(a), 2) == s[4..6] && Digits(Minute(b), 2) == r[4..6];
    assert Digits(Second(a), 2) == s[7..9] && Digits(Second(b), 2) == r[7..9];
    assert Digits(Milli(a), 3) == s[10..13] && Digits(Milli(b), 3) == r[10..13];
    DigitsInjective(Hour(a), Hour(b), 2);
    DigitsInjective(Minute(a), Minute(b), 2);
    DigitsInjective(Second(a), Second(b), 2);
    DigitsInjective(Milli(a), Milli(b), 3);
    ClockParts(a);
    ClockParts(b);
  }

  lemma ClockParts(t: int)
    ensures TimeWithinDay(t) == 3_600_000 * Hour(t) + 60_000 * Minute(t) + 1000 * Second(t) + Milli(t)
  {
    var u := TimeWithinDay(t);
    assert u / 1000 == 60 * (u / 60_000) + u / 1000 % 60;
    assert u / 60_000 == 60 * (u / 3_600_000) + u / 60_000 % 60;
  }

  /** Two instants with the same ISO text are the same instant. */
  lemma IsoStringInjective(a: int, b: int)
    requires InRange(a) && InRange(b) && IsoString(a) == IsoString(b)
    ensures a == b
  {
    var s, r := IsoString(a), IsoString(b);
    assert |ClockText(a)| == |ClockText(b)| == 14;
    var n := |s| - 14;
    assert DayText(a) == s[..n] && DayText(b) == r[..n];
    assert ClockText(a) == s[n..] && ClockText(b) == r[n..];
    DayTextInjective(a, b);
    ClockTextInjective(a, b);
    assert a == DayOf(a) * MS_PER_DAY + TimeWithinDay(a) && b == DayOf(b) * MS_PER_DAY + TimeWithinDay(b);
  }

  /** No ISO text holds the seal's delimiter. */
  lemma IsoStringHasNoBar(t: int)
    ensures 0x7C !in IsoString(t)
  {
    hide Digits;
    forall u | u in IsoString(t) ensures u != 0x7C {
      if u in DayText(t) {
        DayTextHasNoBar(t);
      }
    }
  }

  lemma DayTextHasNoBar(t: int)
    ensures 0x7C !in DayText(t)
  {
    hide Digits;
  }
}
