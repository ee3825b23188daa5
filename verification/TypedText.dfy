/** Text on its way from the keyboard to the page: what a box lets through as it is typed
    (packages/contracts/src/index.ts) and what the stamper draws (packages/crypto/src/pdf-text.ts). */
module TypedText {
  import opened Wrappers
  import opened JsText
  import opened FieldRules
  import FieldValues

  // ----- code points one by one

  /** Everything in `s` from its second code point on. */
  function AfterFirst(s: JsString): JsString
    requires s != []
  {
    s[FirstLength(s)..]
  }

  /** `Array.from(s).filter(...).join('')`: the code points that `keep` wants. */
  function KeepPoints(s: JsString, keep: int -> bool): JsString {
    if s == [] then []
    else if keep(FirstPoint(s)) then s[..FirstLength(s)] + KeepPoints(AfterFirst(s), keep)
    else KeepPoints(AfterFirst(s), keep)
  }

  predicate AllKept(s: JsString, keep: int -> bool) {
    s == [] || (keep(FirstPoint(s)) && AllKept(AfterFirst(s), keep))
  }

  lemma {:induction false} KeepingAllKept(s: JsString, keep: int -> bool)
    requires AllKept(s, keep)
    ensures KeepPoints(s, keep) == s
  {
    if s != [] {
      KeepingAllKept(AfterFirst(s), keep);
    }
  }

  /** No half of a surrogate pair is wanted on its own. */
  ghost predicate WantsWholePoints(keep: int -> bool) {
    forall c :: 0xD800 <= c <= 0xDFFF ==> !keep(c)
  }

  lemma FirstPointOfPair(s: JsString)
    requires s != []
    ensures FirstLength(s) == 1 && !(0xD800 <= FirstPoint(s) <= 0xDFFF) ==> !IsHigh(s[0]) && !IsLow(s[0])
    ensures FirstLength(s) == 2 ==> IsHigh(s[0]) && IsLow(s[1])
  {
  }

  /** A whole code point in front of `t` is the first code point of the two together. */
  lemma WholePointFirst(s: JsString, t: JsString)
    requires s != [] && !(0xD800 <= FirstPoint(s) <= 0xDFFF)
    ensures var u := s[..FirstLength(s)] + t;
            FirstLength(u) == FirstLength(s) && FirstPoint(u) == FirstPoint(s) && AfterFirst(u) == t
  {
    var u := s[..FirstLength(s)] + t;
    assert u[0] == s[0];
    assert FirstLength(s) == 2 ==> u[1] == s[1];
  }

  lemma {:induction false} KeptPointsAreKept(s: JsString, keep: int -> bool)
    requires WantsWholePoints(keep)
    ensures AllKept(KeepPoints(s, keep), keep)
  {
    hide FirstLength, FirstPoint;
    if s != [] {
      KeptPointsAreKept(AfterFirst(s), keep);
      if keep(FirstPoint(s)) {
        WholePointFirst(s, KeepPoints(AfterFirst(s), keep));
      }
    }
  }

  /** Cutting a text of whole code points leaves either whole code points or, when the cut falls
      inside a surrogate pair, its first half to be dropped. */
  lemma {:induction false} CutText(s: JsString, n: nat, keep: int -> bool)
    requires WantsWholePoints(keep) && AllKept(s, keep) && n <= |s|
    ensures n > 0 && n < |s| && IsHigh(s[n - 1]) ==> KeepPoints(s[..n], keep) == s[..n - 1]
    ensures !(n > 0 && n < |s| && IsHigh(s[n - 1])) ==> KeepPoints(s[..n], keep) == s[..n]
    decreases |s|
  {
    if s != [] && n > 0 {
      var k := FirstLength(s);
      FirstPointOfPair(s);
      if n < k {
        var half := s[..1];
        assert half[1..] == [] && KeepPoints(half[1..], keep) == [];
        assert FirstPoint(half) == s[0];
        assert s[..0] == [];
      } else {
        CutText(AfterFirst(s), n - k, keep);
        assert s[..n] == s[..k] + AfterFirst(s)[..n - k];
        WholePointFirst(s, AfterFirst(s)[..n - k]);
        assert n > k ==> AfterFirst(s)[n - k - 1] == s[n - 1];
        assert n > k ==> s[..n - 1] == s[..k] + AfterFirst(s)[..n - k - 1];
      }
    }
  }

  // ----- what each box lets through

  predicate IsNameKind(kind: FieldType) {
    kind == Name || kind == FirstName || kind == LastName
  }

  /** Letters and marks of any script, which only a Unicode table can tell, and the joins. */
  predicate IsNameChar(letterOrMark: int -> bool, c: int) {
    || letterOrMark(c)
    || c == 0x20 || c == 0x27 || c == 0x60 || c == 0x2018 || c == 0x2019 || c == 0x2E || c == 0x2D
  }

  /** What is known of that table: the Latin letters are in it, surrogates are not. */
  ghost predicate IsUnicodeTable(letterOrMark: int -> bool) {
    && (forall u: Unit :: IsLetter(u) || IsAccented(u) || u == 0x02BB || u == 0x02BC ==> letterOrMark(u))
    && (forall c :: 0xD800 <= c <= 0xDFFF ==> !letterOrMark(c))
  }

  /** The characters a box drops as they are typed; None is a box that drops none. */
  function Wanted(kind: FieldType, letterOrMark: int -> bool): Option<int -> bool> {
    match kind
    case Name | FirstName | LastName => Some(c => IsNameChar(letterOrMark, c))
    case Email => Some(c => c > 0xFFFF || c < 0 || !IsSpace(c))
    case Number => Some(c => 0x30 <= c <= 0x39 || c == 0x2E || c == 0x2C || c == 0x2D)
    case Phone => Some(c => 0x30 <= c <= 0x39 || c == 0x2B || c == 0x28 || c == 0x29 || c == 0x20 || c == 0x2D)
    case _ => None
  }

  /** What is left before the cut. */
  function Kept(kind: FieldType, letterOrMark: int -> bool, raw: JsString): JsString {
    var wanted := Wanted(kind, letterOrMark);
    if wanted.Some? then KeepPoints(raw, wanted.value) else raw
  }

  /** `sanitizeFieldInput`. */
  function Sanitize(kind: FieldType, letterOrMark: int -> bool, raw: JsString): JsString {
    if MaxLength(kind).None? then raw
    else
      var kept, max := Kept(kind, letterOrMark, raw), MaxLength(kind).value;
      if |kept| <= max then kept else kept[..max]
  }

  /** The cut at the box's length falls inside a surrogate pair of a name. */
  predicate CutsALetter(kind: FieldType, letterOrMark: int -> bool, raw: JsString) {
    && IsNameKind(kind)
    && var kept, max := Kept(kind, letterOrMark, raw), MaxLength(kind).value;
       |kept| > max && IsHigh(kept[max - 1])
  }

  // ----- typing it again changes nothing, but for one case

  predicate HasNoSpace(s: JsString) {
    forall i :: 0 <= i < |s| ==> !IsSpace(s[i])
  }

  lemma {:induction false} EmailKeepsWords(s: JsString, letterOrMark: int -> bool)
    ensures HasNoSpace(KeepPoints(s, Wanted(Email, letterOrMark).value))
    ensures HasNoSpace(s) ==> KeepPoints(s, Wanted(Email, letterOrMark).value) == s
  {
    if s != [] {
      EmailKeepsWords(AfterFirst(s), letterOrMark);
      FirstPointOfPair(s);
      assert s == s[..FirstLength(s)] + AfterFirst(s);
    }
  }

  lemma CutKept(kind: FieldType, letterOrMark: int -> bool, raw: JsString)
    requires IsUnicodeTable(letterOrMark) && (IsNameKind(kind) || kind == Number || kind == Phone)
    ensures WantsWholePoints(Wanted(kind, letterOrMark).value)
    ensures var keep, kept := Wanted(kind, letterOrMark).value, Kept(kind, letterOrMark, raw);
            var max := MaxLength(kind).value;
            && KeepPoints(kept, keep) == kept
            && (|kept| > max && IsHigh(kept[max - 1]) ==> KeepPoints(kept[..max], keep) == kept[..max - 1])
            && (|kept| > max && !IsHigh(kept[max - 1]) ==> KeepPoints(kept[..max], keep) == kept[..max])
  {
    var keep, kept, max := Wanted(kind, letterOrMark).value, Kept(kind, letterOrMark, raw), MaxLength(kind).value;
    KeptPointsAreKept(raw, keep);
    KeepingAllKept(kept, keep);
    if |kept| > max {
      CutText(kept, max, keep);
    }
  }

  /** Numbers and phone numbers are written without surrogates. */
  lemma {:induction false} PlainPoints(kind: FieldType, letterOrMark: int -> bool, s: JsString, i: nat)
    requires (kind == Number || kind == Phone) && AllKept(s, Wanted(kind, letterOrMark).value) && i < |s|
    ensures !IsHigh(s[i])
    decreases |s|
  {
    FirstPointOfPair(s);
    if i > 0 {
      PlainPoints(kind, letterOrMark, AfterFirst(s), i - FirstLength(s));
    }
  }

  /** Sanitizing what has been sanitized changes nothing, unless the box is a name box and its cut
      split a letter written as a surrogate pair: then, and only then, the half that was left is
      dropped the second time. */
  lemma SanitizeTwice(kind: FieldType, letterOrMark: int -> bool, raw: JsString)
    requires IsUnicodeTable(letterOrMark)
    ensures Sanitize(kind, letterOrMark, Sanitize(kind, letterOrMark, raw)) == Sanitize(kind, letterOrMark, raw)
            <==> !CutsALetter(kind, letterOrMark, raw)
  {
    hide KeepPoints, AllKept;
    var once := Sanitize(kind, letterOrMark, raw);
    if IsNameKind(kind) {
      CutKept(kind, letterOrMark, raw);
    } else if kind == Number || kind == Phone {
      CutKept(kind, letterOrMark, raw);
      var kept := Kept(kind, letterOrMark, raw);
      KeptPointsAreKept(raw, Wanted(kind, letterOrMark).value);
      if |kept| > 30 {
        PlainPoints(kind, letterOrMark, kept, 29);
      }
    } else if kind == Email {
      EmailKeepsWords(raw, letterOrMark);
      EmailKeepsWords(once, letterOrMark);
    }
  }

  /** It does happen: ninety-nine letters and one Gothic letter in a Name box. */
  lemma NamesCanBeCutInTwo(letterOrMark: int -> bool)
    requires IsUnicodeTable(letterOrMark) && letterOrMark(0x1_0330)
    ensures exists raw :: CutsALetter(Name, letterOrMark, raw)
  {
    var a: Unit := 0x61;
    var raw: JsString := seq(99, _ => a) + [0xD800, 0xDF30];
    LettersAreKept(99, letterOrMark);
    assert CutsALetter(Name, letterOrMark, raw);
  }

  lemma {:induction false} LettersAreKept(n: nat, letterOrMark: int -> bool)
    requires IsUnicodeTable(letterOrMark) && letterOrMark(0x1_0330)
    ensures var a: Unit := 0x61;
            var raw: JsString := seq(n, _ => a) + [0xD800, 0xDF30];
            KeepPoints(raw, Wanted(Name, letterOrMark).value) == raw
  {
    var a: Unit := 0x61;
    var tail: JsString := [0xD800, 0xDF30];
    var raw: JsString := seq(n, _ => a) + tail;
    if n == 0 {
      assert raw == tail && FirstPoint(raw) == 0x1_0330 && AfterFirst(raw) == [] && raw[..2] == raw;
    } else {
      LettersAreKept(n - 1, letterOrMark);
      assert raw[0] == a && FirstPoint(raw) == 0x61;
      assert raw[1..] == seq(n - 1, _ => a) + tail;
    }
  }

  // ----- an accepted value is never changed under the signer's hands

  lemma {:induction false} UnitsKept(s: JsString, keep: int -> bool)
    requires forall i :: 0 <= i < |s| ==> !IsHigh(s[i]) && keep(s[i])
    ensures KeepPoints(s, keep) == s
  {
    if s != [] {
      UnitsKept(s[1..], keep);
    }
  }

  lemma NumberUnits(v: JsString)
    requires IsNumber(v)
    ensures forall i :: 0 <= i < |v| ==> IsDigit(v[i]) || v[i] == 0x2E || v[i] == 0x2C || v[i] == 0x2D
  {
    var w := if v != [] && v[0] == 0x2D then v[1..] else v;
    var k: nat :| 1 <= k <= |w| && IsNumberAt(w, k);
    forall i | 0 <= i < |w| ensures IsDigit(w[i]) || w[i] == 0x2E || w[i] == 0x2C {
      NumberUnit(w, k, i);
    }
    forall i | 0 <= i < |v| ensures IsDigit(v[i]) || v[i] == 0x2E || v[i] == 0x2C || v[i] == 0x2D {
      if w != v && i > 0 {
        assert v[i] == w[i - 1];
      }
    }
  }

  lemma NumberUnit(w: JsString, k: nat, i: nat)
    requires k <= |w| && IsNumberAt(w, k) && i < |w|
    ensures IsDigit(w[i]) || w[i] == 0x2E || w[i] == 0x2C
  {
    if i < k {
      assert w[..k][i] == w[i];
    } else if i > k {
      assert w[k + 1..][i - k - 1] == w[i];
    }
  }

  lemma PhoneUnits(v: JsString)
    requires IsPhone(v)
    ensures forall i :: 0 <= i < |v| ==> IsPhoneUnit(v[i]) || v[i] == 0x2B
  {
    var w := if v != [] && v[0] == 0x2B then v[1..] else v;
    forall i | 0 <= i < |v| ensures IsPhoneUnit(v[i]) || v[i] == 0x2B {
      if w != v && i > 0 {
        assert v[i] == w[i - 1];
      }
    }
  }

  lemma EmailUnits(v: JsString)
    requires IsEmail(v)
    ensures forall i :: 0 <= i < |v| ==> 0x20 < v[i] <= 0x7E
  {
    var at, dot :| 0 < at < dot < |v| && IsEmailAt(v, at, dot);
  }

  /** A value the rules accept, trimmed as it is sent, survives the box unchanged. */
  lemma AcceptedValuesSurvive(kind: FieldType, letterOrMark: int -> bool, v: JsString)
    requires IsUnicodeTable(letterOrMark) && Trim(v) == v && v != [] && FieldValueProblem(kind, v).None?
    ensures Sanitize(kind, letterOrMark, v) == v
  {
    hide Trim, KeepPoints, IsPhone, IsNumber, IsEmail, IsCalendarDate;
    if IsNameKind(kind) {
      UnitsKept(v, Wanted(kind, letterOrMark).value);
    } else if kind == Number {
      NumberUnits(v);
      UnitsKept(v, Wanted(kind, letterOrMark).value);
    } else if kind == Phone {
      PhoneUnits(v);
      UnitsKept(v, Wanted(kind, letterOrMark).value);
    } else if kind == Email {
      EmailUnits(v);
      EmailKeepsWords(v, letterOrMark);
    }
  }

  // ----- what the stamper draws

  const QUESTION: Unit := 0x3F

  /** What the standard font can draw. */
  predicate IsDrawable(u: Unit) {
    0x20 <= u <= 0x7E || 0xA0 <= u <= 0xFF
  }

  function Transliteration(c: int): Option<JsString> {
    if c == 0x2018 || c == 0x2019 || c == 0x02BB || c == 0x02BC then Some([0x27])
    else if c == 0x201C || c == 0x201D then Some([0x22])
    else if c == 0x2013 || c == 0x2014 || c == 0x2022 then Some([0x2D])
    else if c == 0x2026 then Some([0x2E, 0x2E, 0x2E])
    else if c == 0xA0 then Some([0x20])
    else None
  }

  /** What one code point is drawn as. */
  function Drawn(c: int): JsString {
    if 0x20 <= c <= 0x7E || 0xA0 <= c <= 0xFF then [c]
    else if Transliteration(c).Some? then Transliteration(c).value
    else if c == 0x09 || c == 0x0A || c == 0x0D then [0x20]
    else [QUESTION]
  }

  function PdfSafe(s: JsString): JsString {
    if s == [] then [] else Drawn(FirstPoint(s)) + PdfSafe(AfterFirst(s))
  }

  /** `toPdfSafeText`, code point by code point. */
  method ToPdfSafeText(value: JsString) returns (out: JsString)
    ensures out == PdfSafe(value)
  {
    hide PdfSafe, FirstPoint, FirstLength, Transliteration;
    out := [];
    var i := 0;
    assert value[0..] == value;
    while i < |value|
      invariant i <= |value|
      invariant out + PdfSafe(value[i..]) == PdfSafe(value)
    {
      var rest := value[i..];
      var code, drawn: JsString := FirstPoint(rest), [];
      if 0x20 <= code <= 0x7E || 0xA0 <= code <= 0xFF {
        drawn := [code];
      } else if Transliteration(code).Some? {
        drawn := Transliteration(code).value;
      } else if code == 0x09 || code == 0x0A || code == 0x0D {
        drawn := [0x20];
      } else {
        drawn := [QUESTION];
      }
      DrawnFirst(rest);
      assert AfterFirst(rest) == value[i + FirstLength(rest)..];
      assert out + (drawn + PdfSafe(AfterFirst(rest))) == (out + drawn) + PdfSafe(AfterFirst(rest));
      out := out + drawn;
      i := i + FirstLength(rest);
    }
    assert value[|value|..] == [];
    NothingDrawn();
  }

  predicate AllDrawable(s: JsString) {
    forall i :: 0 <= i < |s| ==> IsDrawable(s[i])
  }

  /** Whatever goes in, the font can draw what comes out. */
  lemma {:induction false} PdfSafeIsDrawable(s: JsString)
    ensures AllDrawable(PdfSafe(s))
  {
    if s != [] {
      PdfSafeIsDrawable(AfterFirst(s));
    }
  }

  /** What the font can draw is left alone, so doing it twice is doing it once. */
  lemma {:induction false} DrawableIsLeftAlone(s: JsString)
    requires AllDrawable(s)
    ensures PdfSafe(s) == s
  {
    if s != [] {
      DrawableIsLeftAlone(s[1..]);
      assert FirstPoint(s) == s[0];
    }
  }

  lemma PdfSafeTwice(s: JsString)
    ensures PdfSafe(PdfSafe(s)) == PdfSafe(s)
  {
    PdfSafeIsDrawable(s);
    DrawableIsLeftAlone(PdfSafe(s));
  }

  /** Nothing the font, the transliterations or the white space rule knows. */
  predicate IsLost(c: int) {
    && !(0x20 <= c <= 0x7E) && !(0xA0 <= c <= 0xFF) && Transliteration(c).None?
    && c != 0x09 && c != 0x0A && c != 0x0D
  }

  function LostPoints(s: JsString): nat {
    if s == [] then 0 else (if IsLost(FirstPoint(s)) then 1 else 0) + LostPoints(AfterFirst(s))
  }

  function QuestionMarks(s: JsString): nat {
    if s == [] then 0 else (if s[0] == QUESTION then 1 else 0) + QuestionMarks(s[1..])
  }

  lemma {:induction false} QuestionMarksAddUp(a: JsString, b: JsString)
    ensures QuestionMarks(a + b) == QuestionMarks(a) + QuestionMarks(b)
  {
    if a == [] {
      assert a + b == b;
    } else {
      assert (a + b)[1..] == a[1..] + b;
      QuestionMarksAddUp(a[1..], b);
    }
  }

  /** Every code point that is lost is drawn as one question mark, and no other code point is
      drawn as one it was not. */
  lemma {:induction false} EveryLossIsMarked(s: JsString)
    ensures QuestionMarks(PdfSafe(s)) == QuestionMarks(s) + LostPoints(s)
  {
    hide PdfSafe;
    if s == [] {
      assert PdfSafe(s) == [] by {
        NothingDrawn();
      }
    } else {
      var point := s[..FirstLength(s)];
      EveryLossIsMarked(AfterFirst(s));
      DrawnFirst(s);
      QuestionMarksAddUp(Drawn(FirstPoint(s)), PdfSafe(AfterFirst(s)));
      assert s == point + AfterFirst(s);
      QuestionMarksAddUp(point, AfterFirst(s));
      MarksOfOne(s);
    }
  }

  lemma NothingDrawn()
    ensures PdfSafe([]) == []
  {
  }

  lemma DrawnFirst(s: JsString)
    requires s != []
    ensures PdfSafe(s) == Drawn(FirstPoint(s)) + PdfSafe(AfterFirst(s))
  {
  }

  lemma MarksOfOne(s: JsString)
    requires s != []
    ensures QuestionMarks(Drawn(FirstPoint(s))) ==
            QuestionMarks(s[..FirstLength(s)]) + (if IsLost(FirstPoint(s)) then 1 else 0)
  {
    FirstPointOfPair(s);
    var c, point := FirstPoint(s), s[..FirstLength(s)];
    assert FirstLength(s) == 1 ==> point == [s[0]];
    assert FirstLength(s) == 2 ==> point == [s[0], s[1]] && point[1..] == [s[1]] && [s[1]][1..] == [];
    if c == 0x2026 {
      assert Drawn(c) == [0x2E, 0x2E, 0x2E] && Drawn(c)[1..] == [0x2E, 0x2E] && [0x2E, 0x2E][1..] == [0x2E];
    }
  }

  lemma {:induction false} PrintableIsNeverLost(s: JsString)
    requires forall i :: 0 <= i < |s| ==> IsPrintable(s[i])
    ensures LostPoints(s) == 0
  {
    if s != [] {
      PrintableIsNeverLost(s[1..]);
      assert FirstPoint(s) == s[0];
    }
  }

  /** An accepted value that is not a choice of the sender's is printed without a single mark the
      signer never typed. */
  lemma AcceptedValuesPrint(kind: FieldType, v: JsString)
    requires Trim(v) == v && v != [] && MaxLength(kind).Some? && !FieldValues.IsChoice(kind)
    requires FieldValueProblem(kind, v).None?
    ensures LostPoints(v) == 0 && QuestionMarks(PdfSafe(v)) == QuestionMarks(v)
  {
    hide Trim, PdfSafe, LostPoints, IsPhone, IsNumber, IsEmail;
    AcceptedUnits(kind, v);
    PrintableIsNeverLost(v);
    EveryLossIsMarked(v);
  }

  lemma AcceptedUnits(kind: FieldType, v: JsString)
    requires Trim(v) == v && v != [] && MaxLength(kind).Some? && !FieldValues.IsChoice(kind)
    requires FieldValueProblem(kind, v).None?
    ensures forall i :: 0 <= i < |v| ==> IsPrintable(v[i])
  {
    hide Trim, IsPhone, IsNumber, IsEmail;
    if kind == Number {
      NumberUnits(v);
    } else if kind == Phone {
      PhoneUnits(v);
    } else if kind == Email {
      EmailUnits(v);
    } else if kind == DateInput {
      DateUnits(v);
    } else if kind == Checkbox {
      assert v == [0x74, 0x72, 0x75, 0x65];
    }
  }

  lemma DateUnits(v: JsString)
    requires IsCalendarDate(v)
    ensures forall i :: 0 <= i < |v| ==> IsPrintable(v[i])
  {
    forall i | 0 <= i < |v| ensures IsDigit(v[i]) || v[i] == 0x2D {
      assert i < 4 ==> v[i] == v[..4][i];
      assert 5 <= i < 7 ==> v[i] == v[5..7][i - 5];
      assert 8 <= i ==> v[i] == v[8..][i - 8];
    }
  }
}
