/** The server's decision about what text is stamped into the sealed document
    (apps/api/src/modules/signing/field-values.ts). */
module FieldValues {
  import opened Wrappers
  import opened JsText
  import opened Calendar
  import opened IsoTime
  import opened FieldRules

  type Values = map<string, JsString>

  datatype Resolved = Resolved(values: Values, missingRequired: seq<string>, invalid: seq<string>)

  predicate IsImage(kind: FieldType) {
    kind == Signature || kind == Initial || kind == Stamp
  }

  predicate IsAuto(kind: FieldType) {
    kind == Date
  }

  predicate IsChoice(kind: FieldType) {
    kind == Dropdown || kind == Radio
  }

  /** The signer authors every type that has a rule. */
  predicate IsTyped(kind: FieldType) {
    MaxLength(kind).Some?
  }

  /** What the client sent for a field, trimmed; nothing at all reads as empty. */
  function Supplied(client: Values, id: string): JsString {
    if id in client then Trim(client[id]) else []
  }

  predicate Accepts(f: Field, v: JsString) {
    (IsChoice(f.kind) ==> v in f.options) && FieldValueProblem(f.kind, v).None?
  }

  /** The three results, as a fold over the fields in order. */
  function Resolve(fields: seq<Field>, client: Values, signedAt: int): Resolved
  {
    if fields == [] then Resolved(map[], [], [])
    else
      var f, r := fields[|fields| - 1], Resolve(fields[..|fields| - 1], client, signedAt);
      if f.kind == Date then r.(values := r.values[f.id := DayText(signedAt)])
      else if !IsTyped(f.kind) then r
      else
        var v := Supplied(client, f.id);
        if v == [] then (if f.required then r.(missingRequired := r.missingRequired + [f.id]) else r)
        else if Accepts(f, v) then r.(values := r.values[f.id := v])
        else r.(invalid := r.invalid + [f.id])
  }

  /** The loop of `resolveFieldValues`. */
  method ResolveFieldValues(fields: seq<Field>, clientValues: Values, signedAt: int) returns (resolved: Resolved)
    ensures resolved == Resolve(fields, clientValues, signedAt)
  {
    var values: Values, missingRequired, invalid := map[], [], [];
    for i := 0 to |fields|
      invariant Resolved(values, missingRequired, invalid) == Resolve(fields[..i], clientValues, signedAt)
    {
      assert fields[..i + 1][..i] == fields[..i];
      var field := fields[i];
      if IsImage(field.kind) {
        continue;
      }
      if IsAuto(field.kind) {
        values := values[field.id := DayText(signedAt)];
        continue;
      }
      if MaxLength(field.kind).None? {
        continue;
      }
      var value := if field.id in clientValues then Trim(clientValues[field.id]) else [];
      if value == [] {
        if field.required {
          missingRequired := missingRequired + [field.id];
        }
        continue;
      }
      var offered := !IsChoice(field.kind) || value in field.options;
      if !offered || FieldValueProblem(field.kind, value) != None {
        invalid := invalid + [field.id];
        continue;
      }
      values := values[field.id := value];
    }
    assert fields[..|fields|] == fields;
    resolved := Resolved(values, missingRequired, invalid);
  }

  // ----- what the three results mean

  /** What the submission leaves open in one typed field. */
  predicate LeavesMissing(f: Field, client: Values) {
    IsTyped(f.kind) && f.required && Supplied(client, f.id) == []
  }

  predicate LeavesInvalid(f: Field, client: Values) {
    IsTyped(f.kind) && Supplied(client, f.id) != [] && !Accepts(f, Supplied(client, f.id))
  }

  /** The two refusal lists name exactly the fields that are open. */
  lemma {:induction false} RefusalMeaning(fields: seq<Field>, client: Values, signedAt: int)
    ensures forall id :: id in Resolve(fields, client, signedAt).missingRequired
                         <==> exists f :: f in fields && f.id == id && LeavesMissing(f, client)
    ensures forall id :: id in Resolve(fields, client, signedAt).invalid
                         <==> exists f :: f in fields && f.id == id && LeavesInvalid(f, client)
  {
    hide FieldValueProblem, DayText, Trim;
    if fields != [] {
      var n := |fields| - 1;
      RefusalMeaning(fields[..n], client, signedAt);
      assert forall f :: f in fields <==> f in fields[..n] || f == fields[n] by {
        assert fields == fields[..n] + [fields[n]];
      }
    }
  }

  // Nothing keeps two fields of a layout from carrying one id, and a stored value belongs to an id.

  predicate HasDate(fields: seq<Field>, id: string) {
    exists f :: f in fields && f.id == id && f.kind.Date?
  }

  /** Of the fields with this id that write a value, the last is one the signer types into. */
  predicate TypedWritesLast(fields: seq<Field>, id: string) {
    fields != []
    && var f := fields[|fields| - 1];
    if f.id == id && (f.kind.Date? || IsTyped(f.kind)) then IsTyped(f.kind)
    else TypedWritesLast(fields[..|fields| - 1], id)
  }

  /** A form the evidence can rest on: every required box and every Date Signed is filled, a typed
      box by a value its rule and option list accept and Date Signed by the day of signing, as
      far as the form itself does not let one id be written by both. */
  predicate FormComplete(fields: seq<Field>, values: Values, signedAt: int) {
    forall f :: f in fields ==> FieldComplete(fields, f, values, signedAt)
  }

  predicate FieldComplete(fields: seq<Field>, f: Field, values: Values, signedAt: int) {
    && (f.kind.Date? || (IsTyped(f.kind) && f.required) ==> f.id in values)
    && (f.kind.Date? && !TypedWritesLast(fields, f.id) ==> values[f.id] == DayText(signedAt))
    && (IsTyped(f.kind) && f.required && TypedWritesLast(fields, f.id) ==> Fits(f, values[f.id]))
    && (IsTyped(f.kind) && !HasDate(fields, f.id) && f.id in values ==> Fits(f, values[f.id]))
    && (IsTyped(f.kind) && f.id in values ==> Fits(f, values[f.id]) || values[f.id] == DayText(signedAt))
  }

  /** Not empty, and what the field's rule and options accept. */
  predicate Fits(f: Field, v: JsString) {
    v != [] && Accepts(f, v)
  }

  /** Where each stored value comes from: the signer's accepted input, or the server's clock. */
  lemma {:induction false} ValueSource(fields: seq<Field>, client: Values, signedAt: int, id: string)
    ensures var values := Resolve(fields, client, signedAt).values;
            && (id in values ==>
                  || (values[id] == DayText(signedAt) && exists f :: f in fields && f.id == id && f.kind.Date?)
                  || (values[id] == Supplied(client, id) && values[id] != []
                      && exists f :: f in fields && f.id == id && IsTyped(f.kind)))
            && (forall f :: f in fields && f.id == id && f.kind.Date? ==> id in values)
            && (forall f | f in fields && f.id == id && IsTyped(f.kind) ::
                  Supplied(client, id) != [] && Accepts(f, Supplied(client, id)) ==> id in values)
  {
    hide FieldValueProblem, DayText, Trim, Accepts;
    if fields != [] {
      var n := |fields| - 1;
      ValueSource(fields[..n], client, signedAt, id);
      assert fields == fields[..n] + [fields[n]];
      assert fields[n] in fields;
    }
  }

  /** What is stored under an id nobody's rule is broken for: the last writer's value. */
  lemma {:induction false} StoredValue(fields: seq<Field>, client: Values, signedAt: int, id: string)
    requires forall f :: f in fields && f.id == id ==> !LeavesInvalid(f, client)
    ensures var values, v := Resolve(fields, client, signedAt).values, Supplied(client, id);
            && (v != [] && TypedWritesLast(fields, id) ==> id in values && values[id] == v)
            && (HasDate(fields, id) && (v == [] || !TypedWritesLast(fields, id)) ==>
                  id in values && values[id] == DayText(signedAt))
            && (!HasDate(fields, id) && (v == [] || !TypedWritesLast(fields, id)) ==> id !in values)
  {
    hide FieldValueProblem, DayText, Trim, Accepts;
    if fields != [] {
      var n := |fields| - 1;
      assert fields == fields[..n] + [fields[n]];
      StoredValue(fields[..n], client, signedAt, id);
      assert HasDate(fields, id) <==> HasDate(fields[..n], id) || (fields[n].id == id && fields[n].kind.Date?);
    }
  }

  lemma {:induction false} WriterOfLast(fields: seq<Field>, id: string)
    ensures TypedWritesLast(fields, id) ==> exists f :: f in fields && f.id == id && IsTyped(f.kind)
    ensures (exists f :: f in fields && f.id == id && IsTyped(f.kind)) && !HasDate(fields, id) ==>
              TypedWritesLast(fields, id)
  {
    if fields != [] {
      var n := |fields| - 1;
      assert fields == fields[..n] + [fields[n]];
      WriterOfLast(fields[..n], id);
    }
  }

  /** The server lets the submission through. */
  predicate IsAccepted(fields: seq<Field>, client: Values, signedAt: int) {
    Resolve(fields, client, signedAt).missingRequired == [] && Resolve(fields, client, signedAt).invalid == []
  }

  lemma AcceptedMeaning(fields: seq<Field>, client: Values, signedAt: int)
    ensures IsAccepted(fields, client, signedAt)
       <==> forall f :: f in fields ==> !LeavesMissing(f, client) && !LeavesInvalid(f, client)
  {
    hide LeavesMissing, LeavesInvalid, Resolve;
    RefusalMeaning(fields, client, signedAt);
    var r := Resolve(fields, client, signedAt);
    forall f | f in fields && (LeavesMissing(f, client) || LeavesInvalid(f, client))
      ensures !IsAccepted(fields, client, signedAt)
    {
      assert f.id in r.missingRequired || f.id in r.invalid;
    }
    if r.missingRequired != [] {
      assert r.missingRequired[0] in r.missingRequired;
    } else if r.invalid != [] {
      assert r.invalid[0] in r.invalid;
    }
  }

  /** A submission the server does not refuse leaves a complete form. */
  lemma AcceptedFormIsComplete(fields: seq<Field>, client: Values, signedAt: int)
    requires IsAccepted(fields, client, signedAt)
    ensures FormComplete(fields, Resolve(fields, client, signedAt).values, signedAt)
  {
    hide FieldValueProblem, DayText, Trim, Accepts, TypedWritesLast, HasDate, IsAccepted, Resolve;
    AcceptedMeaning(fields, client, signedAt);
    forall f | f in fields
      ensures FieldComplete(fields, f, Resolve(fields, client, signedAt).values, signedAt)
    {
      StoredValue(fields, client, signedAt, f.id);
      WriterOfLast(fields, f.id);
      if f.kind.Date? {
        DateIsThere(fields, f);
      }
    }
  }

  lemma DateIsThere(fields: seq<Field>, f: Field)
    requires f in fields && f.kind.Date?
    ensures HasDate(fields, f.id)
  {
  }

  // ----- when one id is written by two kinds of field

  function StoredUnder(fields: seq<Field>, client: Values, signedAt: int, id: string): JsString {
    var values := Resolve(fields, client, signedAt).values;
    if id in values then values[id] else []
  }

  /** What a signer may send for an id: trimmed, and something. */
  predicate IsText(v: JsString) {
    v != [] && Trim(v) == v
  }

  /** Every typed field with this id takes `v`. */
  predicate AllTake(fields: seq<Field>, id: string, v: JsString) {
    forall f :: f in fields && f.id == id && IsTyped(f.kind) ==> Accepts(f, v)
  }

  /** The signer can have `v` stored where the server's day belongs. */
  predicate CanForge(fields: seq<Field>, id: string, v: JsString, day: JsString) {
    TypedWritesLast(fields, id) && IsText(v) && AllTake(fields, id, v) && v != day
  }

  lemma ResentUnder(fields: seq<Field>, client: Values, signedAt: int, id: string, v: JsString)
    requires IsAccepted(fields, client, signedAt) && IsText(v) && AllTake(fields, id, v)
    ensures IsAccepted(fields, client[id := v], signedAt) && Supplied(client[id := v], id) == v
  {
    hide Accepts, Trim, Resolve, IsAccepted;
    AcceptedMeaning(fields, client, signedAt);
    AcceptedMeaning(fields, client[id := v], signedAt);
    forall f | f in fields ensures !LeavesMissing(f, client[id := v]) && !LeavesInvalid(f, client[id := v]) {
      assert f.id != id ==> Supplied(client[id := v], f.id) == Supplied(client, f.id);
    }
  }

  /** For a form that can be submitted at all, Date Signed is the server's day in every accepted
      submission if and only if no value but the day can be forged: the last field that writes
      its id is not a typed one, or every value all typed fields of that id take is the day. */
  lemma DateSignedIgnoresClient(fields: seq<Field>, f: Field, submitted: Values, signedAt: int)
    requires f in fields && f.kind.Date? && IsAccepted(fields, submitted, signedAt)
    ensures (forall client :: IsAccepted(fields, client, signedAt) ==>
               StoredUnder(fields, client, signedAt, f.id) == DayText(signedAt))
       <==> !(exists v :: CanForge(fields, f.id, v, DayText(signedAt)))
  {
    hide FieldValueProblem, DayText, Trim, Accepts, TypedWritesLast, IsAccepted, Resolve;
    DateIsThere(fields, f);
    forall client | IsAccepted(fields, client, signedAt)
                    && StoredUnder(fields, client, signedAt, f.id) != DayText(signedAt)
      ensures CanForge(fields, f.id, Supplied(client, f.id), DayText(signedAt))
    {
      AcceptedMeaning(fields, client, signedAt);
      StoredValue(fields, client, signedAt, f.id);
      SuppliedIsText(client, f.id);
    }
    if v :| CanForge(fields, f.id, v, DayText(signedAt)) {
      ResentUnder(fields, submitted, signedAt, f.id, v);
      AcceptedMeaning(fields, submitted[f.id := v], signedAt);
      StoredValue(fields, submitted[f.id := v], signedAt, f.id);
    }
  }

  lemma SuppliedIsText(client: Values, id: string)
    ensures Supplied(client, id) != [] ==> IsText(Supplied(client, id))
  {
    if id in client {
      TrimTrims(client[id]);
      TrimOfTrimmed(Trim(client[id]));
    }
  }

  /** A required box holds a value its rule accepts in every accepted submission if and only if
      its id is not overwritten by a later Date Signed, or the rule accepts the day as well. */
  lemma RequiredBoxIsRuleAbiding(fields: seq<Field>, f: Field, submitted: Values, signedAt: int)
    requires f in fields && IsTyped(f.kind) && f.required && IsAccepted(fields, submitted, signedAt)
    ensures (forall client :: IsAccepted(fields, client, signedAt) ==>
               Fits(f, StoredUnder(fields, client, signedAt, f.id)))
       <==> TypedWritesLast(fields, f.id) || Fits(f, DayText(signedAt))
  {
    hide FieldValueProblem, DayText, Trim, Accepts, TypedWritesLast, IsAccepted, Resolve;
    WriterOfLast(fields, f.id);
    forall client | IsAccepted(fields, client, signedAt)
      ensures Fits(f, StoredUnder(fields, client, signedAt, f.id))
         <==> TypedWritesLast(fields, f.id) || Fits(f, DayText(signedAt))
    {
      AcceptedMeaning(fields, client, signedAt);
      StoredValue(fields, client, signedAt, f.id);
    }
  }

  // ----- the same, read off the layout

  /** This typed field takes some value other than the day. */
  predicate CanStray(f: Field, day: JsString) {
    IsTyped(f.kind) && (IsChoice(f.kind) ==> exists o :: o in f.options && IsText(o) && |o| <= 120 && o != day)
  }

  /** A typed field after the last Date Signed of this id takes some value other than the day. */
  predicate StraysAfterDate(fields: seq<Field>, id: string, day: JsString) {
    fields != []
    && var f := fields[|fields| - 1];
    if f.id == id && f.kind.Date? then false
    else (f.id == id && CanStray(f, day)) || StraysAfterDate(fields[..|fields| - 1], id, day)
  }

  lemma {:induction false} StrayIsStored(fields: seq<Field>, client: Values, signedAt: int, id: string)
    requires HasDate(fields, id) && StoredUnder(fields, client, signedAt, id) != DayText(signedAt)
    ensures StraysAfterDate(fields, id, DayText(signedAt))
  {
    hide DayText, Trim, FieldValueProblem;
    var n := |fields| - 1;
    var f := fields[n];
    assert fields == fields[..n] + [f];
    SuppliedIsText(client, id);
    if f.id == id && IsTyped(f.kind) && Supplied(client, id) != [] && Accepts(f, Supplied(client, id)) {
      if IsChoice(f.kind) {
        ChoiceIsShort(f, Supplied(client, id));
      }
    } else if !(f.id == id && f.kind.Date?) {
      StrayIsStored(fields[..n], client, signedAt, id);
    }
  }

  lemma ChoiceIsShort(f: Field, v: JsString)
    requires IsText(v) && Accepts(f, v) && IsChoice(f.kind)
    ensures v in f.options && |v| <= 120
  {
    hide Trim;
  }

  lemma IsTaken(f: Field, v: JsString)
    requires v != [] && IsTrimmed(v) && MaxLength(f.kind).Some? && |v| <= MaxLength(f.kind).value && Valid(f.kind, v)
    requires IsChoice(f.kind) ==> v in f.options
    ensures IsText(v) && Accepts(f, v)
  {
    hide Valid, MaxLength, Trim;
    TrimOfTrimmed(v);
  }

  /** Something each straying field takes, other than a given text of ten characters or more. */
  lemma StrayValue(f: Field, day: JsString) returns (v: JsString)
    requires CanStray(f, day) && |day| >= 10
    ensures IsText(v) && v != day && Accepts(f, v)
  {
    hide Valid, Trim, Accepts;
    if IsChoice(f.kind) {
      v :| v in f.options && IsText(v) && |v| <= 120 && v != day;
      ChoiceIsTaken(f, v);
    } else if f.kind == DateInput {
      v := AnotherDay(day);
      DayIsTaken(f, v);
    } else {
      v := ShortValue(f.kind);
      IsTaken(f, v);
    }
  }

  lemma ChoiceIsTaken(f: Field, v: JsString)
    requires IsText(v) && IsChoice(f.kind) && v in f.options && |v| <= 120
    ensures Accepts(f, v)
  {
    hide Trim;
  }

  lemma DayIsTaken(f: Field, v: JsString)
    requires f.kind == DateInput && |v| == 10 && IsCalendarDate(v) && v[0] == 0x32 && 0x30 <= v[9] <= 0x39
    ensures IsText(v) && Accepts(f, v)
  {
    hide Trim, IsCalendarDate;
    IsTaken(f, v);
  }

  function ShortSample(kind: FieldType): JsString {
    match kind
    case Checkbox => [0x74, 0x72, 0x75, 0x65]
    case Email => [0x61, 0x40, 0x62, 0x2E, 0x63, 0x6F]
    case Number => [0x31]
    case Phone => [0x31, 0x31, 0x31, 0x31, 0x31, 0x31, 0x31]
    case _ => [0x61]
  }

  /** Each kind that is not a choice or a date takes its sample. */
  lemma ShortValue(kind: FieldType) returns (v: JsString)
    requires IsTyped(kind) && !IsChoice(kind) && kind != DateInput
    ensures v != [] && IsTrimmed(v) && |v| < 10 && |v| <= MaxLength(kind).value && Valid(kind, v)
  {
    hide IsPhone, IsEmail, IsNumber, IsPersonName, IsPrintableText;
    v := ShortSample(kind);
    match kind
    case Email => EmailSample();
    case Number => NumberSample();
    case Phone => PhoneSample();
    case Checkbox =>
    case _ => LetterSample();
  }

  lemma LetterSample()
    ensures IsPersonName([0x61]) && IsPrintableText([0x61])
  {
    var v: JsString := [0x61];
    assert IsLetter(v[0]);
  }

  lemma NumberSample()
    ensures IsNumber([0x31])
  {
    var v: JsString := [0x31];
    assert IsNumberAt(v, 1);
  }

  lemma EmailSample()
    ensures IsEmail([0x61, 0x40, 0x62, 0x2E, 0x63, 0x6F])
  {
    var v: JsString := [0x61, 0x40, 0x62, 0x2E, 0x63, 0x6F];
    assert IsEmailAt(v, 1, 3);
  }

  lemma PhoneSample()
    ensures IsPhone([0x31, 0x31, 0x31, 0x31, 0x31, 0x31, 0x31])
  {
    hide DigitCount;
    var v: JsString := [0x31, 0x31, 0x31, 0x31, 0x31, 0x31, 0x31];
    SevenOnes();
    assert v[0] != 0x2B;
    assert forall i :: 0 <= i < |v| ==> v[i] == 0x31;
    assert forall i :: 0 <= i < |v| ==> IsPhoneUnit(v[i]);
    assert DigitCount(v) == 7;
    assert IsPhone(v);
  }

  lemma SevenOnes()
    ensures DigitCount([0x31, 0x31, 0x31, 0x31, 0x31, 0x31, 0x31]) == 7
  {
    var ones: JsString := [0x31, 0x31, 0x31, 0x31, 0x31, 0x31, 0x31];
    assert DigitCount(ones[..0]) == 0;
    assert ones[..1][..0] == ones[..0] && DigitCount(ones[..1]) == 1;
    assert ones[..2][..1] == ones[..1] && DigitCount(ones[..2]) == 2;
    assert ones[..3][..2] == ones[..2] && DigitCount(ones[..3]) == 3;
    assert ones[..4][..3] == ones[..3] && DigitCount(ones[..4]) == 4;
    assert ones[..5][..4] == ones[..4] && DigitCount(ones[..5]) == 5;
    assert ones[..6][..5] == ones[..5] && DigitCount(ones[..6]) == 6;
    assert ones[..7] == ones;
  }

  lemma AnotherDay(day: JsString) returns (v: JsString)
    ensures |v| == 10 && v != day && IsCalendarDate(v) && v[0] == 0x32 && 0x30 <= v[9] <= 0x39
  {
    hide IsCalendarDate;
    var first: JsString := [0x32, 0x30, 0x30, 0x30, 0x2D, 0x30, 0x31, 0x2D, 0x30, 0x31];
    var second: JsString := [0x32, 0x30, 0x30, 0x30, 0x2D, 0x30, 0x31, 0x2D, 0x30, 0x32];
    assert first[9] != second[9];
    v := if first != day then first else second;
    JanuaryOf2000(v);
  }

  lemma JanuaryOf2000(v: JsString)
    requires |v| == 10 && v[..9] == [0x32, 0x30, 0x30, 0x30, 0x2D, 0x30, 0x31, 0x2D, 0x30] && 0x31 <= v[9] <= 0x39
    ensures IsCalendarDate(v)
  {
    hide IsCalendarDate, NumberOf;
    ReadFour(2, 0, 0, 0);
    ReadTwo(0, 1);
    ReadTwo(0, v[9] - 0x30);
    assert v[..4] == v[..9][..4] == [0x32, 0x30, 0x30, 0x30];
    assert v[5..7] == v[..9][5..7] == [0x30, 0x31];
    assert v[8..] == [v[..9][8], v[9]] == [0x30, 0x30 + (v[9] - 0x30)];
    assert v[4] == v[..9][4] && v[7] == v[..9][7];
    CalendarDateMeaning(v);
  }

  lemma {:induction false} StrayCanBeStored(fields: seq<Field>, signedAt: int, id: string) returns (v: JsString)
    requires StraysAfterDate(fields, id, DayText(signedAt))
    ensures IsText(v) && v != DayText(signedAt)
    ensures var stored := Resolve(fields, map[id := v], signedAt).values; id in stored && stored[id] == v
  {
    hide DayText, Trim, FieldValueProblem, CanStray;
    var n := |fields| - 1;
    var f := fields[n];
    if f.id == id && CanStray(f, DayText(signedAt)) {
      DayIsLong(signedAt);
      v := StrayValue(f, DayText(signedAt));
      StraysAreTyped(f, DayText(signedAt));
    } else {
      v := StrayCanBeStored(fields[..n], signedAt, id);
    }
  }

  lemma StraysAreTyped(f: Field, day: JsString)
    requires CanStray(f, day)
    ensures IsTyped(f.kind)
  {
  }

  lemma DayIsLong(t: int)
    ensures |DayText(t)| >= 10
  {
    hide Digits;
  }

  /** Read off the layout alone, refused submissions included: an id with a Date Signed always
      stores the day if and only if no typed field after its last Date Signed takes any other
      value, which only a choice offering nothing else does not. */
  lemma OverwritableIffStrays(fields: seq<Field>, id: string, signedAt: int)
    requires HasDate(fields, id)
    ensures (forall client :: StoredUnder(fields, client, signedAt, id) == DayText(signedAt))
       <==> !StraysAfterDate(fields, id, DayText(signedAt))
  {
    hide DayText, Trim, StraysAfterDate, Resolve;
    forall client | StoredUnder(fields, client, signedAt, id) != DayText(signedAt)
      ensures StraysAfterDate(fields, id, DayText(signedAt))
    {
      StrayIsStored(fields, client, signedAt, id);
    }
    if StraysAfterDate(fields, id, DayText(signedAt)) {
      var v := StrayCanBeStored(fields, signedAt, id);
      assert StoredUnder(fields, map[id := v], signedAt, id) == v;
    }
  }

  /** The smallest forgery: a Date Signed and a typed box that share an id. Whatever the box takes
      is stored as the day of signing, and nothing is refused. */
  lemma SharedIdForgesTheDate(d: Field, t: Field, client: Values, signedAt: int)
    requires d.kind.Date? && IsTyped(t.kind) && t.id == d.id
    requires Supplied(client, t.id) != [] && Accepts(t, Supplied(client, t.id))
    ensures IsAccepted([d, t], client, signedAt)
    ensures d.id in Resolve([d, t], client, signedAt).values
    ensures Resolve([d, t], client, signedAt).values[d.id] == Supplied(client, t.id)
  {
    hide Accepts, DayText, Trim;
    assert [d, t][..1] == [d] && [d][..0] == [];
    assert Resolve([d], client, signedAt) == Resolved(map[d.id := DayText(signedAt)], [], []);
  }
}
