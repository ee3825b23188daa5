/** JavaScript strings as what they are, sequences of UTF-16 code units, with the few
    operations the sources use on them. */
module JsText {

  type Unit = u: int | 0 <= u < 0x1_0000

  type JsString = seq<Unit>

  // ----- trim

  /** The white space and line terminators `trim` removes (section 22.1.3.32 of ECMA-262). */
  predicate IsSpace(u: Unit) {
    || 0x09 <= u <= 0x0D || u == 0x20 || u == 0xA0 || u == 0x1680 || 0x2000 <= u <= 0x200A
    || u == 0x2028 || u == 0x2029 || u == 0x202F || u == 0x205F || u == 0x3000 || u == 0xFEFF
  }

  function TrimStart(s: JsString): JsString {
    if s != [] && IsSpace(s[0]) then TrimStart(s[1..]) else s
  }

  function TrimEnd(s: JsString): JsString {
    if s != [] && IsSpace(s[|s| - 1]) then TrimEnd(s[..|s| - 1]) else s
  }

  function Trim(s: JsString): JsString {
    TrimEnd(TrimStart(s))
  }

  predicate IsTrimmed(s: JsString) {
    s == [] || (!IsSpace(s[0]) && !IsSpace(s[|s| - 1]))
  }

  lemma {:induction false} TrimEndKeepsStart(s: JsString)
    requires s == [] || !IsSpace(s[0])
    ensures IsTrimmed(TrimEnd(s))
  {
    if s != [] && IsSpace(s[|s| - 1]) {
      TrimEndKeepsStart(s[..|s| - 1]);
    }
  }

  lemma {:induction false} TrimStartStops(s: JsString)
    ensures TrimStart(s) == [] || !IsSpace(TrimStart(s)[0])
  {
    if s != [] && IsSpace(s[0]) {
      TrimStartStops(s[1..]);
    }
  }

  lemma TrimTrims(s: JsString)
    ensures IsTrimmed(Trim(s))
  {
    TrimStartStops(s);
    TrimEndKeepsStart(TrimStart(s));
  }

  lemma TrimOfTrimmed(s: JsString)
    requires IsTrimmed(s)
    ensures Trim(s) == s
  {
  }

  predicate IsBlank(s: JsString) {
    forall i :: 0 <= i < |s| ==> IsSpace(s[i])
  }

  lemma {:induction false} TrimStartMeaning(s: JsString) returns (i: nat)
    ensures i <= |s| && IsBlank(s[..i]) && TrimStart(s) == s[i..]
  {
    i := 0;
    if s != [] && IsSpace(s[0]) {
      i := TrimStartMeaning(s[1..]);
      assert s[..i + 1] == [s[0]] + s[1..][..i] && s[i + 1..] == s[1..][i..];
      i := i + 1;
    }
  }

  lemma {:induction false} TrimEndMeaning(s: JsString) returns (j: nat)
    ensures j <= |s| && IsBlank(s[j..]) && TrimEnd(s) == s[..j]
  {
    j := |s|;
    if s != [] && IsSpace(s[|s| - 1]) {
      var t := s[..|s| - 1];
      j := TrimEndMeaning(t);
      assert s[j..] == t[j..] + [s[|s| - 1]] && s[..j] == t[..j];
    }
  }

  /** Trimming takes white space off both ends, all of it and nothing else. */
  lemma TrimMeaning(s: JsString) returns (i: nat, j: nat)
    ensures i <= j <= |s| && IsBlank(s[..i]) && IsBlank(s[j..]) && Trim(s) == s[i..j]
    ensures IsTrimmed(Trim(s))
  {
    hide TrimStart, TrimEnd, IsBlank;
    TrimTrims(s);
    i := TrimStartMeaning(s);
    j := TrimEndMeaning(s[i..]);
    assert s[i + j..] == s[i..][j..] && s[i..i + j] == s[i..][..j];
    j := i + j;
  }

  // ----- code points

  predicate IsHigh(u: Unit) { 0xD800 <= u <= 0xDBFF }

  predicate IsLow(u: Unit) { 0xDC00 <= u <= 0xDFFF }

  /** The code units of the first code point of `s`: a surrogate pair, or one unit. */
  function FirstLength(s: JsString): (n: nat)
    requires s != []
    ensures 1 <= n <= 2 && n <= |s|
  {
    if IsHigh(s[0]) && |s| > 1 && IsLow(s[1]) then 2 else 1
  }

  function FirstPoint(s: JsString): (c: int)
    requires s != []
    ensures FirstLength(s) == 1 ==> c == s[0]
    ensures FirstLength(s) == 2 ==> 0x1_0000 <= c
  {
    if FirstLength(s) == 2 then 0x1_0000 + (s[0] as int - 0xD800) * 0x400 + (s[1] as int - 0xDC00) else s[0]
  }

  // ----- decimal digits

  predicate IsDigit(u: Unit) { 0x30 <= u <= 0x39 }

  predicate AllDigits(s: JsString) {
    forall i :: 0 <= i < |s| ==> IsDigit(s[i])
  }

  function Pow10(k: nat): (p: int)
    ensures p >= 1
  {
    if k == 0 then 1 else 10 * Pow10(k - 1)
  }

  /** `n` in `width` decimal digits, leading zeros included. */
  function Digits(n: nat, width: nat): (s: JsString)
    ensures |s| == width && AllDigits(s)
  {
    if width == 0 then [] else Digits(n / 10, width - 1) + [0x30 + n % 10]
  }

  /** The number a run of digits writes. */
  function NumberOf(s: JsString): (n: nat)
    requires AllDigits(s)
  {
    if s == [] then 0 else 10 * NumberOf(s[..|s| - 1]) + (s[|s| - 1] - 0x30)
  }

  lemma {:induction false} DigitsRoundTrip(n: nat, width: nat)
    requires n < Pow10(width)
    ensures NumberOf(Digits(n, width)) == n
  {
    if width > 0 {
      DigitsRoundTrip(n / 10, width - 1);
      assert Digits(n, width)[..width - 1] == Digits(n / 10, width - 1);
    }
  }
}
