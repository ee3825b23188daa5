/** What the completion pipeline promises, for any number of duplicate, crashed and retried jobs
    on any number of envelopes. */
module CompletionSafety {
  import opened Wrappers
  import opened JsText
  import opened IsoTime
  import opened Seal
  import opened Envelope
  import opened Completion
  import opened CompletionRun
  import opened CompletionInvariant
  import opened Verification

  ghost predicate IsReachable(w: World) {
    exists start, actions :: IsStart(start) && w == Run(start, actions)
  }

  lemma ReachableIsOk(w: World)
    requires IsReachable(w)
    ensures Inv(w)
  {
    hide Inv, Run, IsStart;
    var start, actions :| IsStart(start) && w == Run(start, actions);
    StartIsOk(start);
    RunKeepsInv(start, actions);
  }

  // ----- one record, written once

  /** The five artifact columns are written together, and once written they never change: no
      second job ever replaces a sealed document. */
  lemma ArtifactsAreWrittenOnce(w: World, actions: seq<Action>, id: JsString)
    requires IsReachable(w) && id in w.rows
    ensures var w' := Run(w, actions);
            && id in w'.rows
            && (w.rows[id].columns == UNSEALED || IsSealed(w.rows[id].columns))
            && (w.rows[id].columns != UNSEALED ==> w'.rows[id].columns == w.rows[id].columns)
            && (w.rows[id].emailedAt.Some? ==> w'.rows[id].emailedAt == w.rows[id].emailedAt)
  {
    hide IsReachable, Run;
    ReachableIsOk(w);
    assert RowOk(w, id);
    RunGrows(w, actions);
    assert RowMoves(w.rows[id], Run(w, actions).rows[id]);
  }

  /** What is on record exists, is what the recorded fingerprint is a fingerprint of, and stays
      in the store for good. */
  lemma RecordedObjectsExist(w: World, actions: seq<Action>, id: JsString)
    requires IsReachable(w) && id in w.rows && w.rows[id].columns != UNSEALED
    ensures var w', c := Run(w, actions), w.rows[id].columns;
            && IsSealed(c)
            && c.pdfKey.value in w.store && c.certificateKey.value in w.store
            && Sha256Hex(w.store[c.pdfKey.value].bytes) == c.documentHash.value
            && c.pdfKey.value in w'.store && w'.store[c.pdfKey.value] == w.store[c.pdfKey.value]
            && c.certificateKey.value in w'.store && w'.store[c.certificateKey.value] == w.store[c.certificateKey.value]
  {
    hide IsReachable, Run, Sha256Hex;
    ReachableIsOk(w);
    assert RowOk(w, id);
    RunGrows(w, actions);
  }

  // ----- the mails

  /** Every email ever sent carries exactly the two objects on record, and goes to somebody on
      the envelope or to its sender. */
  lemma EveryCopyIsTheRecord(w: World, m: Mail)
    requires IsReachable(w) && m in w.mails
    ensures m.request in w.rows
    ensures IsOnRecord(w.rows[m.request].columns, w.store, m.pdf, m.certificate)
    ensures IsOwedACopy(w.rows[m.request].life.env.people, w.rows[m.request].sender, m.to)
  {
    hide IsReachable, RowOk, JobOk;
    ReachableIsOk(w);
    var k :| 0 <= k < |w.mails| && w.mails[k] == m;
    assert MailOk(w, w.mails[k]);
  }

  /** Two mails about one envelope carry the same bytes, whichever jobs sent them. */
  lemma CopiesAgree(w: World, m: Mail, n: Mail)
    requires IsReachable(w) && m in w.mails && n in w.mails && m.request == n.request
    ensures m.pdf == n.pdf && m.certificate == n.certificate
  {
    hide IsReachable;
    EveryCopyIsTheRecord(w, m);
    EveryCopyIsTheRecord(w, n);
  }

  /** An envelope marked as emailed has been: every recipient and the sender were sent it. */
  lemma EmailedMeansEveryone(w: World, id: JsString, address: string)
    requires IsReachable(w) && id in w.rows && w.rows[id].emailedAt.Some?
    requires IsOwedACopy(w.rows[id].life.env.people, w.rows[id].sender, address)
    ensures exists m :: m in w.mails && m.request == id && Lower(m.to) == Lower(address)
  {
    hide IsReachable, RecordOk, Lower;
    ReachableIsOk(w);
    assert RowOk(w, id) && IsServed(w, id, []);
    assert LowerSet([]) == {};
  }

  // ----- what the two documents show

  /** The certificate lists exactly the envelope's signers, each once and in routing order, with
      the moments on their rows; the document carries one pass for each, with their own fields,
      values and mark; and both name the same fingerprint and seal. */
  lemma CertificateListsTheSigners(w: World, id: JsString) returns (signers: seq<nat>)
    requires IsReachable(w) && id in w.rows && w.rows[id].columns != UNSEALED
    ensures var e, c := w.rows[id].life.env, w.rows[id].columns;
            && IsSigned(e) && IsSealed(c)
            && c.pdfKey.value in w.store && c.certificateKey.value in w.store
            && var document, certificate := w.store[c.pdfKey.value].shows, w.store[c.certificateKey.value].shows;
            && document.Stamped? && certificate.Certificate?
            && InRows(e.people, signers)
            && (forall i: nat :: i in signers <==> i < |e.people| && e.people[i].role == Signer)
            && (forall k, l :: 0 <= k < l < |signers| ==> signers[k] != signers[l])
            && (forall k, l :: 0 <= k < l < |signers| ==> e.people[signers[k]].order <= e.people[signers[l]].order)
            && |certificate.signers| == |document.passes| == |signers|
            && (forall k :: 0 <= k < |signers| ==>
                  && IsListingOf(e.people[signers[k]], certificate.signers[k])
                  && IsPassOf(e.request, e.people[signers[k]], document.passes[k]))
            && certificate.sealed == Payload(id, e.request.completedAt.value, c.documentHash.value)
            && certificate.mark == c.mark.value && certificate.kid == c.kid.value
  {
    hide IsReachable, Sha256Hex, CanonicalBytes, IsPassOf, IsListingOf;
    ReachableIsOk(w);
    assert RowOk(w, id) && RecordOk(w, id);
    var e, c := w.rows[id].life.env, w.rows[id].columns;
    var d := Draft(w.store[c.pdfKey.value], w.store[c.certificateKey.value],
                   c.documentHash.value, c.mark.value, c.kid.value);
    var order :| IsDraftIn(id, e, w.ring, d, order);
    SignersInOrder(e.people, order);
    OnePassAndListingEach(e.request, e.people, order);
    signers := SignersIn(e.people, order);
  }

  // ----- verification

  lemma RecordIsSealed(w: World, id: JsString)
    requires IsReachable(w) && id in w.rows && w.rows[id].columns != UNSEALED
    ensures var e, c := w.rows[id].life.env, w.rows[id].columns;
            && IsSealed(c) && c.pdfKey.value in w.store && e.request.completedAt.Some?
            && c.documentHash.value == Sha256Hex(w.store[c.pdfKey.value].bytes)
            && VerifyMark(w.ring, Payload(id, e.request.completedAt.value, c.documentHash.value),
                          c.mark.value, c.kid.value)
  {
    hide IsReachable, Sha256Hex, CanonicalBytes, PassesFor, ListingsFor, IsInRoutingOrder;
    ReachableIsOk(w);
    assert RowOk(w, id) && RecordOk(w, id);
  }

  function CheckStored(w: World, id: JsString, bytes: Bytes): Result<VerifyResult, VerifyError>
    requires id in w.rows
  {
    Verdict(id, w.rows[id].columns, w.rows[id].life.env.request.completedAt, w.ring, bytes)
  }

  /** The sender's check accepts the stored bytes and no others, whatever somebody may have put
      in their place, as long as they are not too many to be checked. */
  lemma CheckAcceptsTheRecordOnly(w: World, id: JsString, bytes: Bytes)
    requires IsReachable(w) && id in w.rows && w.rows[id].columns != UNSEALED
    ensures w.rows[id].columns.pdfKey.Some? && w.rows[id].columns.pdfKey.value in w.store
    ensures CheckStored(w, id, bytes) == Err(TooLarge) <==> |bytes| > MAX_VERIFY_BYTES
    ensures |bytes| <= MAX_VERIFY_BYTES ==>
              && CheckStored(w, id, bytes).Ok?
              && var answer, c := CheckStored(w, id, bytes).value, w.rows[id].columns;
              && (answer.valid <==> bytes == w.store[c.pdfKey.value].bytes)
              && (answer.hashMatches <==> answer.valid) && (answer.sealValid <==> answer.valid)
              && answer.computedHash == Some(Sha256Hex(bytes)) && answer.recordedHash == c.documentHash
              && answer.sealKid == c.kid
  {
    hide IsReachable, Sha256Hex, CanonicalBytes;
    RecordIsSealed(w, id);
    var stored, moment := w.store[w.rows[id].columns.pdfKey.value].bytes, w.rows[id].life.env.request.completedAt;
    if Sha256Hex(bytes) == Sha256Hex(stored) {
      DigestInjective(bytes, stored);
    } else if CanonicalBytes(Payload(id, moment.value, Sha256Hex(bytes)))
              == CanonicalBytes(Payload(id, moment.value, Sha256Hex(stored))) {
      SameButDocument(id, moment.value, Sha256Hex(bytes), Sha256Hex(stored));
    }
  }

  /** An envelope that is not sealed is never reported valid, whatever bytes it is checked with. */
  lemma UnsealedIsNeverValid(w: World, id: JsString, bytes: Bytes)
    requires IsReachable(w) && id in w.rows && !IsSealed(w.rows[id].columns)
    ensures CheckStored(w, id, bytes).Ok?
    ensures var answer := CheckStored(w, id, bytes).value;
            !answer.valid && !answer.hashMatches && !answer.sealValid && answer.computedHash.None?
  {
    hide IsReachable, IsDraftOf, IsServed, Sha256Hex, VerifyMark, JobOk, MailOk;
    ReachableIsOk(w);
    assert RowOk(w, id);
  }

  lemma RunStaysReachable(w: World, actions: seq<Action>)
    requires IsReachable(w)
    ensures IsReachable(Run(w, actions))
  {
    hide IsStart;
    var start, before :| IsStart(start) && w == Run(start, before);
    RunConcat(start, before, actions);
    assert IsStart(start) && Run(w, actions) == Run(start, before + actions);
  }

  lemma {:induction false} RunConcat(w: World, a: seq<Action>, b: seq<Action>)
    ensures Run(w, a + b) == Run(Run(w, a), b)
    decreases a
  {
    hide Step;
    if a == [] {
      assert a + b == b;
    } else {
      assert (a + b)[1..] == a[1..] + b;
      RunConcat(Step(w, a[0]), a[1..], b);
    }
  }

  /** Once sealed, always verifiable: at any later moment, with whatever keys the ring has gained
      since, the stored document passes the sender's check. */
  lemma SealedVerifiesForever(w: World, actions: seq<Action>, id: JsString)
    requires IsReachable(w) && id in w.rows && w.rows[id].columns != UNSEALED
    ensures var w', c := Run(w, actions), w.rows[id].columns;
            && c.pdfKey.Some? && c.pdfKey.value in w.store && id in w'.rows
            && var stored := w.store[c.pdfKey.value].bytes;
            && c.pdfKey.value in w'.store && w'.store[c.pdfKey.value].bytes == stored
            && (|stored| <= MAX_VERIFY_BYTES ==>
                  CheckStored(w', id, stored).Ok? && CheckStored(w', id, stored).value.valid)
  {
    hide IsReachable, Run, CheckStored;
    var w' := Run(w, actions);
    RunStaysReachable(w, actions);
    ArtifactsAreWrittenOnce(w, actions, id);
    RecordedObjectsExist(w, actions, id);
    CheckAcceptsTheRecordOnly(w', id, w.store[w.rows[id].columns.pdfKey.value].bytes);
  }

  /** `find_seal_by_hash` may answer with this row: any one sealed row with the fingerprint. */
  ghost predicate MayFind(w: World, hash: JsString, found: Option<SealRow>) {
    match found
    case Some(row) =>
      && row.request in w.rows
      && var r := w.rows[row.request];
      && r.columns.documentHash == Some(hash) && r.columns.mark == Some(row.mark) && r.columns.kid == Some(row.kid)
      && r.life.env.request.completedAt == Some(row.completedAt)
    case None =>
      forall id :: id in w.rows && w.rows[id].columns.documentHash == Some(hash) ==>
        w.rows[id].columns.mark.None? || w.rows[id].columns.kid.None?
        || w.rows[id].life.env.request.completedAt.None?
  }

  ghost predicate IsSealedDocument(w: World, bytes: Bytes) {
    exists id :: id in w.rows && IsStoredAs(w, id, bytes)
  }

  ghost predicate IsStoredAs(w: World, id: JsString, bytes: Bytes)
    requires id in w.rows
  {
    var c := w.rows[id].columns;
    c.pdfKey.Some? && c.pdfKey.value in w.store && w.store[c.pdfKey.value].bytes == bytes
  }

  /** The public check says yes to the holder of a file exactly when that file, byte for byte, is
      a document sealed here; and since documents stay sealed, it keeps saying yes. */
  lemma PublicCheckIsExact(w: World, bytes: Bytes, found: Option<SealRow>)
    requires IsReachable(w) && MayFind(w, Sha256Hex(bytes), found)
    ensures ByHash(found, Sha256Hex(bytes), w.ring).verified <==> IsSealedDocument(w, bytes)
    ensures var answer := ByHash(found, Sha256Hex(bytes), w.ring);
            if answer.verified then
              exists id :: id in w.rows && IsStoredAs(w, id, bytes)
                           && answer.sealedAt == w.rows[id].life.env.request.completedAt
                           && answer.sealKid == w.rows[id].columns.kid
            else answer.sealedAt.None? && answer.sealKid.None?
  {
    hide IsReachable, Sha256Hex, VerifyMark;
    if found.Some? {
      var id := found.value.request;
      RecordIsSealed(w, id);
      DigestInjective(bytes, w.store[w.rows[id].columns.pdfKey.value].bytes);
      assert IsStoredAs(w, id, bytes);
    } else if IsSealedDocument(w, bytes) {
      var id :| id in w.rows && IsStoredAs(w, id, bytes);
      RecordIsSealed(w, id);
    }
  }

  lemma SealedStaysSealed(w: World, actions: seq<Action>, bytes: Bytes)
    requires IsReachable(w) && IsSealedDocument(w, bytes)
    ensures IsSealedDocument(Run(w, actions), bytes)
  {
    hide IsReachable, Run;
    var id :| id in w.rows && IsStoredAs(w, id, bytes);
    ArtifactsAreWrittenOnce(w, actions, id);
    RecordedObjectsExist(w, actions, id);
    assert IsStoredAs(Run(w, actions), id, bytes);
  }

  /** The seal on one envelope's row speaks for no other envelope and no other moment. */
  lemma SealCannotBeLifted(w: World, id: JsString, q: Payload)
    requires IsReachable(w) && id in w.rows && w.rows[id].columns != UNSEALED
    requires BAR !in id && w.rows[id].life.env.request.completedAt.Some?
    requires InRange(w.rows[id].life.env.request.completedAt.value) && IsClean(q)
    ensures IsSealed(w.rows[id].columns)
    ensures var c := w.rows[id].columns;
            VerifyMark(w.ring, q, c.mark.value, c.kid.value) <==>
            q == Payload(id, w.rows[id].life.env.request.completedAt.value, c.documentHash.value)
  {
    hide IsReachable, Sha256Hex, VerifyMark, InRange;
    RecordIsSealed(w, id);
    var c := w.rows[id].columns;
    var p := Payload(id, w.rows[id].life.env.request.completedAt.value, c.documentHash.value);
    DigestHasNoBar(w.store[c.pdfKey.value].bytes);
    SealIsBoundAndLasting(w.ring, w.ring, p, q, c.mark.value, c.kid.value);
  }
}
