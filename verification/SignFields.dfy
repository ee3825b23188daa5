/** The signing page's own completion rule (apps/sign/lib/sign-fields.ts) and the values it
    sends on Finish, held against the server's decision. */
module SignFields {
  import opened Wrappers
  import opened JsText
  import opened IsoTime
  import opened FieldRules
  import opened FieldValues

  datatype FieldKind = SignatureKind | AutoKind | InputKind

  function KindOf(f: Field): FieldKind {
    if f.kind == Signature || f.kind == Initial || f.kind == Stamp then SignatureKind
    else if f.kind == Date then AutoKind
    else InputKind
  }

  function FieldProblem(f: Field, value: JsString): Option<string> {
    if KindOf(f) != InputKind then None
    else
      var v := Trim(value);
      if v == [] then None
      else if (f.kind == Dropdown || f.kind == Radio) && v !in f.options then Some(Hint(f.kind))
      else FieldValueProblem(f.kind, v)
  }

  predicate IsUnsigned(f: Field, filled: Values) {
    f.required && KindOf(f) != AutoKind && (f.id in filled ==> Trim(filled[f.id]) == [])
  }

  predicate IsInvalid(f: Field, filled: Values) {
    FieldProblem(f, if f.id in filled then filled[f.id] else []).Some?
  }

  /** Everything standing between the signer and Finish, in document order. */
  function BlockingFields(fields: seq<Field>, filled: Values): seq<Field> {
    if fields == [] then []
    else (if IsUnsigned(fields[0], filled) || IsInvalid(fields[0], filled) then [fields[0]] else [])
         + BlockingFields(fields[1..], filled)
  }

  predicate CanFinish(fields: seq<Field>, filled: Values) {
    BlockingFields(fields, filled) == []
  }

  /** What the Finish button sends: every value held for a field that is not a mark. */
  method FinishValues(fields: seq<Field>, filled: Values) returns (values: Values)
    ensures values == Sent(fields, filled)
    ensures forall id :: id in values
              <==> id in filled && filled[id] != [] && exists f :: f in fields && f.id == id && !IsImage(f.kind)
    ensures forall id :: id in values ==> values[id] == filled[id]
  {
    values := map[];
    for i := 0 to |fields|
      invariant values == Sent(fields[..i], filled)
    {
      var f := fields[i];
      assert fields[..i + 1] == fields[..i] + [f];
      if KindOf(f) == SignatureKind {
        continue;
      }
      if f.id in filled && filled[f.id] != [] {
        values := values[f.id := filled[f.id]];
      }
    }
    assert fields[..|fields|] == fields;
  }

  function Sent(fields: seq<Field>, filled: Values): Values {
    map id | id in filled && filled[id] != [] && SendsId(fields, id) :: filled[id]
  }

  predicate SendsId(fields: seq<Field>, id: string) {
    exists f :: f in fields && f.id == id && KindOf(f) != SignatureKind
  }

  lemma {:induction false} BlockingMeaning(fields: seq<Field>, filled: Values, f: Field)
    ensures f in BlockingFields(fields, filled)
       <==> f in fields && (IsUnsigned(f, filled) || IsInvalid(f, filled))
  {
    hide IsUnsigned, IsInvalid;
    if fields != [] {
      BlockingMeaning(fields[1..], filled, f);
      assert f in fields <==> f == fields[0] || f in fields[1..];
    }
  }

  /** Field by field, the page blocks a typed box exactly when the server would refuse it. */
  lemma SidesAgreeOnField(fields: seq<Field>, filled: Values, f: Field)
    requires f in fields && KindOf(f) == InputKind
    ensures IsUnsigned(f, filled) <==> LeavesMissing(f, Sent(fields, filled))
    ensures IsInvalid(f, filled) <==> LeavesInvalid(f, Sent(fields, filled))
  {
    hide Valid, MaxLength;
    assert SendsId(fields, f.id);
    assert Supplied(Sent(fields, filled), f.id) == (if f.id in filled then Trim(filled[f.id]) else []);
    TypedIsInput(f);
    if f.id in filled {
      TrimTrims(filled[f.id]);
      TrimOfTrimmed(Trim(filled[f.id]));
    }
  }

  lemma TypedIsInput(f: Field)
    ensures IsTyped(f.kind) <==> KindOf(f) == InputKind
  {
  }

  /** The two sides agree for every form and every state of filling it in: the server finds
      nothing missing and nothing invalid in what Finish sends exactly when the page is blocked
      by no typed box. */
  lemma ServerAcceptsWhatThePageAllows(fields: seq<Field>, filled: Values, signedAt: int)
    ensures (var r := Resolve(fields, Sent(fields, filled), signedAt); r.missingRequired == [] && r.invalid == [])
       <==> (forall f :: f in BlockingFields(fields, filled) ==> KindOf(f) == SignatureKind)
  {
    hide IsUnsigned, IsInvalid, LeavesMissing, LeavesInvalid, Resolve;
    var sent := Sent(fields, filled);
    var r := Resolve(fields, sent, signedAt);
    RefusalMeaning(fields, sent, signedAt);
    forall f | f in fields && KindOf(f) != SignatureKind
      ensures f in BlockingFields(fields, filled) <==> LeavesMissing(f, sent) || LeavesInvalid(f, sent)
    {
      BlockingMeaning(fields, filled, f);
      if KindOf(f) == InputKind {
        SidesAgreeOnField(fields, filled, f);
      } else {
        AutoNeverBlocks(f, filled, sent);
      }
    }
    forall f | f in BlockingFields(fields, filled) ensures f in fields {
      BlockingMeaning(fields, filled, f);
    }
    if r.missingRequired != [] {
      assert r.missingRequired[0] in r.missingRequired;
      var f :| f in fields && f.id == r.missingRequired[0] && LeavesMissing(f, sent);
      MarksAreNeverRefused(f, sent);
      assert f in BlockingFields(fields, filled);
    }
    if r.invalid != [] {
      assert r.invalid[0] in r.invalid;
      var f :| f in fields && f.id == r.invalid[0] && LeavesInvalid(f, sent);
      MarksAreNeverRefused(f, sent);
      assert f in BlockingFields(fields, filled);
    }
    if f :| f in BlockingFields(fields, filled) && KindOf(f) != SignatureKind {
      assert f.id in r.missingRequired || f.id in r.invalid;
    }
  }

  lemma AutoNeverBlocks(f: Field, filled: Values, sent: Values)
    requires KindOf(f) == AutoKind
    ensures !IsUnsigned(f, filled) && !IsInvalid(f, filled) && !LeavesMissing(f, sent) && !LeavesInvalid(f, sent)
  {
  }

  lemma MarksAreNeverRefused(f: Field, sent: Values)
    ensures LeavesMissing(f, sent) || LeavesInvalid(f, sent) ==> KindOf(f) == InputKind
  {
  }

  /** What the signer holds for a field, trimmed. */
  function Held(f: Field, filled: Values): JsString {
    if f.id in filled then Trim(filled[f.id]) else []
  }

  /** The page lets the signer finish if and only if every required box and mark holds something
      and every box that holds something holds what the server would take. */
  lemma CanFinishMeaning(fields: seq<Field>, filled: Values)
    ensures CanFinish(fields, filled)
       <==> forall f :: f in fields ==>
              && (f.required && f.kind != Date ==> Held(f, filled) != [])
              && (IsTyped(f.kind) && Held(f, filled) != [] ==> Accepts(f, Held(f, filled)))
  {
    hide IsUnsigned, IsInvalid, Accepts, Trim, IsTyped;
    forall f | f in fields
      ensures f in BlockingFields(fields, filled)
         <==> !((f.required && f.kind != Date ==> Held(f, filled) != [])
                && (IsTyped(f.kind) && Held(f, filled) != [] ==> Accepts(f, Held(f, filled))))
    {
      BlockingMeaning(fields, filled, f);
      BlockedField(f, filled);
    }
    if BlockingFields(fields, filled) != [] {
      var f := BlockingFields(fields, filled)[0];
      BlockingMeaning(fields, filled, f);
      assert f in BlockingFields(fields, filled);
    }
  }

  lemma BlockedField(f: Field, filled: Values)
    ensures IsUnsigned(f, filled) || IsInvalid(f, filled)
       <==> !((f.required && f.kind != Date ==> Held(f, filled) != [])
              && (IsTyped(f.kind) && Held(f, filled) != [] ==> Accepts(f, Held(f, filled))))
  {
    hide Valid;
    if f.id in filled {
      TrimTrims(filled[f.id]);
      TrimOfTrimmed(Trim(filled[f.id]));
    }
  }

  /** A form the page lets finish is one the server accepts, and it is complete evidence. */
  lemma FinishIsAccepted(fields: seq<Field>, filled: Values, signedAt: int)
    requires CanFinish(fields, filled)
    ensures var r := Resolve(fields, Sent(fields, filled), signedAt);
            && r.missingRequired == [] && r.invalid == []
            && FormComplete(fields, r.values, signedAt)
  {
    hide IsUnsigned, IsInvalid, Resolve, FormComplete;
    ServerAcceptsWhatThePageAllows(fields, filled, signedAt);
    AcceptedFormIsComplete(fields, Sent(fields, filled), signedAt);
  }
}
