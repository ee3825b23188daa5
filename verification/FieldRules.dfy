/** The field types of a template and what a signer may enter into each box
    (packages/contracts/src/index.ts). One definition serves the browser and the server. */
module FieldRules {
  import opened Wrappers
  import opened JsText
  import opened Calendar

  datatype FieldType =
    | Signature | Initial | Stamp
    | Date
    | Name | FirstName | LastName | Email | Company | Title | Text | Number | Phone | Address
    | Checkbox | Dropdown | Radio | DateInput

  /** One placed field. Coordinates are fractions of the page, from its top-left corner. */
  datatype Field = Field(
    id: string, kind: FieldType, page: int, x: real, y: real, w: real, h: real,
    required: bool, recipientKey: string, options: seq<JsString>)

  // ----- the characters of a value

  predicate IsLetter(u: Unit) {
    0x41 <= u <= 0x5A || 0x61 <= u <= 0x7A
  }

  predicate IsAlnum(u: Unit) {
    IsLetter(u) || IsDigit(u)
  }

  /** The Latin-1 supplement's letters, its two arithmetic signs left out. */
  predicate IsAccented(u: Unit) {
    0xC0 <= u <= 0xD6 || 0xD8 <= u <= 0xF6 || 0xF8 <= u <= 0xFF
  }

  /** The typographic marks a value may hold beyond Latin-1. */
  predicate IsTypographic(u: Unit) {
    || u == 0x2018 || u == 0x2019 || u == 0x201C || u == 0x201D || u == 0x2013 || u == 0x2014
    || u == 0x2026 || u == 0x2022 || u == 0x02BB || u == 0x02BC
  }

  predicate IsPrintable(u: Unit) {
    0x20 <= u <= 0x7E || 0xA0 <= u <= 0xFF || IsTypographic(u)
  }

  predicate IsNameUnit(u: Unit) {
    || IsLetter(u) || IsAccented(u)
    || u == 0x20 || u == 0x27 || u == 0x60 || u == 0x2018 || u == 0x2019
    || u == 0x02BB || u == 0x02BC || u == 0x2E || u == 0x2D
  }

  // ----- the whole value, per kind of box

  predicate IsPersonName(v: JsString) {
    && v != []
    && (forall i :: 0 <= i < |v| ==> IsNameUnit(v[i]))
    && (exists i :: 0 <= i < |v| && (IsLetter(v[i]) || IsAccented(v[i])))
  }

  predicate IsPrintableText(v: JsString) {
    forall i :: 0 <= i < |v| ==> IsPrintable(v[i])
  }

  /** An optional minus, digits, and at most one decimal mark with digits after it. */
  predicate IsNumber(v: JsString) {
    var w := if v != [] && v[0] == 0x2D then v[1..] else v;
    exists k :: 1 <= k <= |w| && IsNumberAt(w, k)
  }

  predicate IsNumberAt(w: JsString, k: nat)
    requires k <= |w|
  {
    && AllDigits(w[..k])
    && (k == |w| || ((w[k] == 0x2E || w[k] == 0x2C) && k + 1 < |w| && AllDigits(w[k + 1..])))
  }

  function DigitCount(v: JsString): nat {
    if v == [] then 0 else DigitCount(v[..|v| - 1]) + (if IsDigit(v[|v| - 1]) then 1 else 0)
  }

  predicate IsPhoneUnit(u: Unit) {
    IsDigit(u) || u == 0x20 || u == 0x28 || u == 0x29 || u == 0x2D
  }

  predicate AllPhoneUnits(w: JsString) {
    forall i :: 0 <= i < |w| ==> IsPhoneUnit(w[i])
  }

  predicate IsPhone(v: JsString) {
    var w := if v != [] && v[0] == 0x2B then v[1..] else v;
    w != [] && AllPhoneUnits(w) && 7 <= DigitCount(v) <= 15
  }

  predicate IsLocalUnit(u: Unit) {
    IsAlnum(u) || u == 0x5F || u == 0x27 || u == 0x2B || u == 0x2D || u == 0x2E
  }

  /** The pattern behind `z.email()` in version 4 of zod: a local part that neither starts nor
      ends with a dot, no two dots in a row, and dot-separated labels before a top-level name
      of two letters or more. */
  predicate IsEmail(v: JsString) {
    exists at, dot :: 0 < at < dot < |v| && IsEmailAt(v, at, dot)
  }

  predicate IsEmailAt(v: JsString, at: int, dot: int)
    requires 0 < at < dot < |v|
  {
    && (forall i :: 0 <= i < at ==> IsLocalUnit(v[i]))
    && v[0] != 0x2E && v[at - 1] != 0x2E && v[at - 1] != 0x27
    && (forall i :: 0 <= i < |v| - 1 ==> !(v[i] == 0x2E && v[i + 1] == 0x2E))
    && v[at] == 0x40
    && at + 1 < dot && v[dot] == 0x2E
    && (forall i :: at < i < dot ==> IsAlnum(v[i]) || v[i] == 0x2D || v[i] == 0x2E)
    && (forall i :: at < i <= dot && (i == at + 1 || v[i - 1] == 0x2E) ==> IsAlnum(v[i]))
    && dot + 2 < |v| && (forall i :: dot < i < |v| ==> IsLetter(v[i]))
  }

  // ----- dates

  predicate LexLess(a: JsString, b: JsString) {
    if b == [] then false
    else if a == [] then true
    else if a[0] != b[0] then a[0] < b[0]
    else LexLess(a[1..], b[1..])
  }

  /** `YYYY-MM-DD`. */
  predicate HasDateShape(v: JsString) {
    && |v| == 10 && v[4] == 0x2D && v[7] == 0x2D
    && AllDigits(v[..4]) && AllDigits(v[5..7]) && AllDigits(v[8..])
  }

  /** The earliest and the latest day a Date box accepts: 1900-01-01 and 2200-12-31. */
  const DATE_INPUT_MIN: JsString := [0x31, 0x39, 0x30, 0x30, 0x2D, 0x30, 0x31, 0x2D, 0x30, 0x31]
  const DATE_INPUT_MAX: JsString := [0x32, 0x32, 0x30, 0x30, 0x2D, 0x31, 0x32, 0x2D, 0x33, 0x31]

  /** The roll-over check of the source: build the date and see whether it reads back. */
  predicate IsCalendarDate(v: JsString) {
    && HasDateShape(v) && !LexLess(v, DATE_INPUT_MIN) && !LexLess(DATE_INPUT_MAX, v)
    && var y, mo, d := NumberOf(v[..4]), NumberOf(v[5..7]), NumberOf(v[8..]);
       var day := DateUtc(y, mo - 1, d);
       UtcFullYear(day) == y && UtcMonth(day) == mo - 1 && UtcDate(day) == d
  }

  // ----- the rule table

  /** The longest accepted value, or None for a type nobody types into. */
  function MaxLength(kind: FieldType): Option<nat> {
    match kind
    case Signature | Initial | Stamp | Date => None
    case Name => Some(100)
    case FirstName | LastName => Some(60)
    case Email => Some(254)
    case Company => Some(200)
    case Title => Some(120)
    case Text => Some(500)
    case Number | Phone => Some(30)
    case Address => Some(300)
    case Checkbox => Some(4)
    case Dropdown | Radio => Some(120)
    case DateInput => Some(10)
  }

  /** The whole value, trimmed and not empty. */
  predicate Valid(kind: FieldType, v: JsString) {
    match kind
    case Signature | Initial | Stamp | Date => false
    case Name | FirstName | LastName => IsPersonName(v)
    case Email => IsEmail(v)
    case Company | Title | Text | Address => IsPrintableText(v)
    case Number => IsNumber(v)
    case Phone => IsPhone(v)
    case Checkbox => v == [0x74, 0x72, 0x75, 0x65]
    case Dropdown | Radio => true
    case DateInput => IsCalendarDate(v)
  }

  function Hint(kind: FieldType): string {
    match kind
    case Signature | Initial | Stamp | Date => ""
    case Name | FirstName | LastName => "Latin letters only — spaces, hyphens and apostrophes are fine"
    case Email => "An email address, like name@example.com"
    case Company | Title | Text | Address => "Latin letters, numbers and punctuation only"
    case Number => "Numbers only, like 42 or 3.5"
    case Phone => "A phone number, like +998 90 123 45 67"
    case Checkbox => "Tick the box"
    case Dropdown | Radio => "Choose one of the offered options"
    case DateInput => "A date, picked from the calendar"
  }

  /** Why `value` cannot go into a box of this kind, or None when it can. */
  function FieldValueProblem(kind: FieldType, value: JsString): Option<string> {
    var v := Trim(value);
    if MaxLength(kind).None? || v == [] then None
    else if |v| > MaxLength(kind).value || !Valid(kind, v) then Some(Hint(kind))
    else None
  }

  // ----- what the patterns let through

  /** A number is written as digits, with a minus in front or not, and with a point or a comma and
      more digits behind or not. */
  ghost predicate IsWrittenAs(v: JsString, minus: bool, whole: JsString, tail: JsString) {
    && v == (if minus then [0x2D] else []) + whole + tail
    && whole != [] && AllDigits(whole)
    && (tail == [] || (|tail| > 1 && (tail[0] == 0x2E || tail[0] == 0x2C) && AllDigits(tail[1..])))
  }

  function Unsigned(v: JsString): JsString {
    if v != [] && v[0] == 0x2D then v[1..] else v
  }

  lemma NumberMeaning(v: JsString)
    ensures IsNumber(v) <==> exists minus, whole, tail :: IsWrittenAs(v, minus, whole, tail)
  {
    hide AllDigits, IsNumberAt;
    var w := Unsigned(v);
    if IsNumber(v) {
      var k: nat :| 1 <= k <= |w| && IsNumberAt(w, k);
      NumberIsWritten(v, k);
    }
    if minus, whole, tail :| IsWrittenAs(v, minus, whole, tail) {
      WrittenIsNumber(v, minus, whole, tail);
    }
  }

  lemma NumberIsWritten(v: JsString, k: nat)
    requires 1 <= k <= |Unsigned(v)| && IsNumberAt(Unsigned(v), k)
    ensures IsWrittenAs(v, v != [] && v[0] == 0x2D, Unsigned(v)[..k], Unsigned(v)[k..])
  {
    hide AllDigits;
    var w := Unsigned(v);
    assert v == (if v != [] && v[0] == 0x2D then [0x2D] else []) + w[..k] + w[k..];
    assert k < |w| ==> w[k..][1..] == w[k + 1..] && w[k..][0] == w[k];
  }

  lemma WrittenIsNumber(v: JsString, minus: bool, whole: JsString, tail: JsString)
    requires IsWrittenAs(v, minus, whole, tail)
    ensures IsNumberAt(Unsigned(v), |whole|) && 1 <= |whole| <= |Unsigned(v)| && IsNumber(v)
  {
    var w := whole + tail;
    assert IsDigit(whole[0]);
    assert v == (if minus then [0x2D] else []) + w;
    assert w[0] == whole[0] && Unsigned(v) == w;
    assert w[..|whole|] == whole;
    if tail != [] {
      assert w[|whole|] == tail[0] && w[|whole| + 1..] == tail[1..];
    }
    assert IsNumberAt(w, |whole|);
  }

  lemma {:induction false} DigitsCount(v: JsString)
    requires AllDigits(v)
    ensures DigitCount(v) == |v|
  {
    if v != [] {
      DigitsCount(v[..|v| - 1]);
    }
  }

  /** Bare digits are a phone number exactly when there are seven to fifteen, with a plus too. */
  lemma PhoneMeaning(v: JsString)
    requires AllDigits(v)
    ensures IsPhone(v) <==> 7 <= |v| <= 15
    ensures IsPhone([0x2B] + v) <==> 7 <= |v| <= 15
  {
    DigitsCount(v);
    PlusIsNoDigit(v);
    assert ([0x2B] + v)[1..] == v;
    assert AllPhoneUnits(v);
    assert v != [] ==> v[0] != 0x2B;
  }

  lemma {:induction false} PlusIsNoDigit(v: JsString)
    ensures DigitCount([0x2B] + v) == DigitCount(v)
  {
    if v == [] {
      var plus: JsString := [0x2B];
      assert plus + v == plus && plus[..0] == [];
    } else {
      var n := |v| - 1;
      PlusIsNoDigit(v[..n]);
      assert ([0x2B] + v)[..n + 1] == [0x2B] + v[..n];
    }
  }

  /** An address has one @, no two dots in a row, no dot on either side of its local part, and ends
      in two letters or more after a dot. */
  lemma EmailShape(v: JsString) returns (at: nat)
    requires IsEmail(v)
    ensures 0 < at < |v| && v[at] == 0x40 && forall i :: 0 <= i < |v| && i != at ==> v[i] != 0x40
    ensures forall i :: 0 <= i < |v| - 1 ==> !(v[i] == 0x2E && v[i + 1] == 0x2E)
    ensures v[0] != 0x2E && v[at - 1] != 0x2E && IsAlnum(v[at + 1])
    ensures exists dot :: at + 1 < dot < |v| - 2 && v[dot] == 0x2E && forall i :: dot < i < |v| ==> IsLetter(v[i])
  {
    var mark: nat, dot: nat :| 0 < mark < dot < |v| && IsEmailAt(v, mark, dot);
    at := mark;
    assert at + 1 < dot < |v| - 2;
  }

  // ----- the date rule accepts the civil calendar

  lemma {:induction false} NumberBound(s: JsString)
    requires AllDigits(s)
    ensures NumberOf(s) < Pow10(|s|)
  {
    if s != [] {
      NumberBound(s[..|s| - 1]);
    }
  }

  lemma {:induction false} LexOfConcat(a: JsString, b: JsString, x: JsString, y: JsString)
    requires |a| == |b|
    ensures LexLess(a + x, b + y) <==> LexLess(a, b) || (a == b && LexLess(x, y))
  {
    if a == [] {
      assert a + x == x && b + y == y;
    } else {
      assert (a + x)[1..] == a[1..] + x && (b + y)[1..] == b[1..] + y;
      LexOfConcat(a[1..], b[1..], x, y);
    }
  }

  /** Comparing runs of digits of one length as strings compares the numbers. */
  lemma {:induction false} LexIsNumeric(a: JsString, b: JsString)
    requires |a| == |b| && AllDigits(a) && AllDigits(b)
    ensures LexLess(a, b) <==> NumberOf(a) < NumberOf(b)
    ensures NumberOf(a) == NumberOf(b) ==> a == b
  {
    if a != [] {
      var n := |a| - 1;
      assert a == a[..n] + a[n..] && b == b[..n] + b[n..];
      LexOfConcat(a[..n], b[..n], a[n..], b[n..]);
      LexIsNumeric(a[..n], b[..n]);
      assert LexLess(a[n..], b[n..]) <==> a[n] < b[n];
    }
  }

  /** `v < m` for two values in date shape, year by year, then month, then day. */
  lemma LexOfDates(v: JsString, m: JsString)
    requires HasDateShape(v) && HasDateShape(m)
    ensures LexLess(v, m) <==>
            || NumberOf(v[..4]) < NumberOf(m[..4])
            || (NumberOf(v[..4]) == NumberOf(m[..4]) && NumberOf(v[5..7]) < NumberOf(m[5..7]))
            || (v[..7] == m[..7] && NumberOf(v[8..]) < NumberOf(m[8..]))
  {
    hide NumberOf;
    var dash: JsString := [0x2D];
    assert v == v[..4] + (dash + (v[5..7] + (dash + v[8..])));
    assert m == m[..4] + (dash + (m[5..7] + (dash + m[8..])));
    LexOfConcat(v[..4], m[..4], dash + (v[5..7] + (dash + v[8..])), dash + (m[5..7] + (dash + m[8..])));
    LexOfConcat(dash, dash, v[5..7] + (dash + v[8..]), m[5..7] + (dash + m[8..]));
    LexOfConcat(v[5..7], m[5..7], dash + v[8..], dash + m[8..]);
    LexOfConcat(dash, dash, v[8..], m[8..]);
    LexIsNumeric(v[..4], m[..4]);
    LexIsNumeric(v[5..7], m[5..7]);
    LexIsNumeric(v[8..], m[8..]);
    assert v[..7] == v[..4] + dash + v[5..7] && m[..7] == m[..4] + dash + m[5..7];
    assert v[..7] == m[..7] <==> v[..4] == m[..4] && v[5..7] == m[5..7] by {
      if v[..7] == m[..7] {
        assert v[..4] == v[..7][..4] && m[..4] == m[..7][..4];
        assert v[5..7] == v[..7][5..] && m[5..7] == m[..7][5..];
      }
    }
  }

  /** The bounds, read as numbers. */
  lemma DateBounds()
    ensures HasDateShape(DATE_INPUT_MIN) && HasDateShape(DATE_INPUT_MAX)
    ensures NumberOf(DATE_INPUT_MIN[..4]) == 1900 && NumberOf(DATE_INPUT_MAX[..4]) == 2200
    ensures NumberOf(DATE_INPUT_MIN[5..7]) == 1 && NumberOf(DATE_INPUT_MAX[5..7]) == 12
    ensures NumberOf(DATE_INPUT_MIN[8..]) == 1 && NumberOf(DATE_INPUT_MAX[8..]) == 31
  {
    ReadTwo(0, 1);
    ReadTwo(1, 2);
    ReadTwo(3, 1);
    ReadFour(1, 9, 0, 0);
    ReadFour(2, 2, 0, 0);
    var lo, hi := DATE_INPUT_MIN, DATE_INPUT_MAX;
    assert lo[..4] == [0x31, 0x39, 0x30, 0x30] && hi[..4] == [0x32, 0x32, 0x30, 0x30];
    assert lo[5..7] == [0x30, 0x31] == lo[8..] && hi[5..7] == [0x31, 0x32] && hi[8..] == [0x33, 0x31];
  }

  lemma ReadTwo(a: nat, b: nat)
    requires a < 10 && b < 10
    ensures NumberOf([0x30 + a, 0x30 + b]) == 10 * a + b
  {
    var s: JsString := [0x30 + a, 0x30 + b];
    var first := s[..1];
    assert first[..0] == [] && NumberOf(first) == a;
  }

  lemma ReadFour(a: nat, b: nat, c: nat, d: nat)
    requires a < 10 && b < 10 && c < 10 && d < 10
    ensures NumberOf([0x30 + a, 0x30 + b, 0x30 + c, 0x30 + d]) == 1000 * a + 100 * b + 10 * c + d
  {
    var s: JsString := [0x30 + a, 0x30 + b, 0x30 + c, 0x30 + d];
    ReadTwo(a, b);
    assert s[..3] == [0x30 + a, 0x30 + b, 0x30 + c] && s[..3][..2] == [0x30 + a, 0x30 + b];
  }

  /** The date rule accepts exactly the days the civil calendar has from 1900 to 2200. */
  lemma CalendarDateMeaning(v: JsString)
    requires HasDateShape(v)
    ensures var y, mo, d := NumberOf(v[..4]), NumberOf(v[5..7]), NumberOf(v[8..]);
            IsCalendarDate(v)
            <==> 1900 <= y <= 2200 && 1 <= mo <= 12 && 1 <= d <= DaysInMonth(y, mo - 1)
  {
    hide MonthStart, NumberOf;
    var y: int, mo: int, d: int := NumberOf(v[..4]), NumberOf(v[5..7]), NumberOf(v[8..]);
    DateBounds();
    LexOfDates(v, DATE_INPUT_MIN);
    LexOfDates(DATE_INPUT_MAX, v);
    var day := DateUtc(y, mo - 1, d);
    if 1900 <= y <= 2200 && 1 <= mo <= 12 && 1 <= d <= DaysInMonth(y, mo - 1) {
      MakeDayIsMonthStart(y, mo - 1, d);
      assert (12 * y + mo - 1) / 12 == y && (12 * y + mo - 1) % 12 == mo - 1;
      OnDate(day, 12 * y + mo - 1, d, 0);
    }
    if IsCalendarDate(v) {
      ReadBack(day, y, mo - 1, d);
    }
  }

  lemma ReadBack(t: int, y: int, m: int, d: int)
    requires UtcFullYear(t) == y && UtcMonth(t) == m && UtcDate(t) == d
    ensures 0 <= m < 12 && 1 <= d <= DaysInMonth(y, m)
  {
    hide MonthStart, DaysInMonth;
  }
}
