/** One completion job from start to end with nothing going wrong around it, in the source's own
    imperative form (apps/api/src/modules/signing/completion.ts). */
module CompletionJob {
  import opened Wrappers
  import opened JsText
  import opened Seal
  import opened Envelope
  import opened Completion
  import opened CompletionRun
  import CompletionInvariant
  import CompletionSafety
  import SigningRun
  import SigningInvariant

  datatype CompletionError =
    RequestNotFound | NotSigned | NoCompletionTime | DocumentNotFound | NoSignature | ObjectMissing

  /** One mail per address, each with the same pair. */
  function MailsTo(request: JsString, list: seq<string>, pdf: Pdf, certificate: Pdf): seq<Mail> {
    seq(|list|, i requires 0 <= i < |list| => Mail(request, list[i], pdf, certificate))
  }

  predicate IsDone(row: Row) {
    row.columns.pdfKey.Some? && row.emailedAt.Some?
  }

  /** What a completed envelope brings along: everyone's mark in the store, and if it has been
      sealed already, the objects on record. */
  ghost predicate IsReady(row: Row, store: map<ObjectKey, Pdf>, images: set<ObjectKey>) {
    && CompletionInvariant.IsSigned(row.life.env)
    && (exists i :: 0 <= i < |row.life.env.people| && row.life.env.people[i].role == Signer)
    && (forall i :: 0 <= i < |row.life.env.people| && HasStampableSignature(row.life.env.people[i]) ==>
          row.life.env.people[i].image.value in images)
    && (row.columns == UNSEALED
        || (CompletionInvariant.IsSealed(row.columns)
            && row.columns.pdfKey.value in store && row.columns.certificateKey.value in store))
  }

  /** The job has all it needs: for an envelope sealed before, the two objects; otherwise the
      document, somebody's signature, and every mark. */
  predicate HasEverything(row: Row, store: map<ObjectKey, Pdf>, images: set<ObjectKey>, hasDocument: bool) {
    && row.life.env.request.status == IsCompleted && row.life.env.request.completedAt.Some?
    && if row.columns.pdfKey.Some? && row.columns.certificateKey.Some?
       then row.columns.pdfKey.value in store && row.columns.certificateKey.value in store
       else hasDocument && HasMarks(row.life.env.people, images)
  }

  predicate HasMarks(people: seq<Recipient>, images: set<ObjectKey>) {
    && (exists i :: 0 <= i < |people| && HasStampableSignature(people[i]))
    && (forall i :: 0 <= i < |people| && HasStampableSignature(people[i]) ==> people[i].image.value in images)
  }

  ghost predicate IsMark(people: seq<Recipient>, i: nat, mark: ObjectKey) {
    i < |people| && HasStampableSignature(people[i]) && people[i].image.value == mark
  }

  lemma {:induction false} MarksOfPasses(q: Request, people: seq<Recipient>, order: seq<nat>, mark: ObjectKey)
    requires InRows(people, order)
    ensures (exists pass :: pass in PassesFor(q, people, order) && pass.image == mark)
       <==> exists i :: i in order && IsMark(people, i, mark)
  {
    hide FieldsOf, IsMark;
    if order != [] {
      var first, rest := order[0], order[1..];
      MarksOfPasses(q, people, rest, mark);
      assert order == [first] + rest;
      var passes, later := PassesFor(q, people, order), PassesFor(q, people, rest);
      MarkOfPass(q, people, first, mark);
      if HasStampableSignature(people[first]) {
        assert passes == [PassOf(q, people[first])] + later;
        assert forall pass :: pass in passes <==> pass == PassOf(q, people[first]) || pass in later;
      } else {
        assert passes == later;
      }
    }
  }

  lemma MarkOfPass(q: Request, people: seq<Recipient>, i: nat, mark: ObjectKey)
    requires i < |people|
    ensures IsMark(people, i, mark)
       <==> HasStampableSignature(people[i]) && PassOf(q, people[i]).image == mark
  {
  }

  lemma MarksOfEveryone(q: Request, people: seq<Recipient>, order: seq<nat>, images: set<ObjectKey>)
    requires IsEveryone(|people|, order)
    ensures var passes := PassesFor(q, people, order);
            HasMarks(people, images) <==> passes != [] && forall k :: 0 <= k < |passes| ==> passes[k].image in images
  {
    hide PassesFor;
    var passes := PassesFor(q, people, order);
    forall i: nat | i < |people| && HasStampableSignature(people[i])
      ensures exists pass :: pass in passes && pass.image == people[i].image.value
    {
      assert i in order && IsMark(people, i, people[i].image.value);
      MarksOfPasses(q, people, order, people[i].image.value);
    }
    forall pass | pass in passes ensures exists i: nat :: IsMark(people, i, pass.image) {
      MarksOfPasses(q, people, order, pass.image);
    }
    if passes != [] {
      assert passes[0] in passes;
    }
    AllImages(passes, images);
  }

  lemma AllImages(passes: seq<Pass>, images: set<ObjectKey>)
    ensures (forall k :: 0 <= k < |passes| ==> passes[k].image in images)
       <==> forall pass :: pass in passes ==> pass.image in images
  {
    if forall k :: 0 <= k < |passes| ==> passes[k].image in images {
      forall pass | pass in passes ensures pass.image in images {
        var k :| 0 <= k < |passes| && passes[k] == pass;
      }
    }
    if forall pass :: pass in passes ==> pass.image in images {
      forall k | 0 <= k < |passes| ensures passes[k].image in images {
        assert passes[k] in passes;
      }
    }
  }

  lemma {:induction false} PassImages(q: Request, people: seq<Recipient>, order: seq<nat>, images: set<ObjectKey>)
    requires InRows(people, order)
    requires forall i :: 0 <= i < |people| && HasStampableSignature(people[i]) ==> people[i].image.value in images
    ensures forall k :: 0 <= k < |PassesFor(q, people, order)| ==> PassesFor(q, people, order)[k].image in images
    ensures (exists k :: 0 <= k < |order| && HasStampableSignature(people[order[k]])) ==>
              PassesFor(q, people, order) != []
  {
    hide FieldsOf;
    if order != [] {
      PassImages(q, people, order[1..], images);
    }
  }

  /** Somebody signs, so there is something to stamp, and every mark can be fetched. */
  lemma SomethingToStamp(row: Row, store: map<ObjectKey, Pdf>, order: seq<nat>, images: set<ObjectKey>)
    requires IsReady(row, store, images) && IsInRoutingOrder(row.life.env.people, order)
    ensures var passes := PassesFor(row.life.env.request, row.life.env.people, order);
            passes != [] && forall k :: 0 <= k < |passes| ==> passes[k].image in images
  {
    var people := row.life.env.people;
    PassImages(row.life.env.request, people, order, images);
    var i: nat :| i < |people| && people[i].role == Signer;
    assert i in order;
    var k :| 0 <= k < |order| && order[k] == i;
    assert HasStampableSignature(people[order[k]]);
  }

  /** A completed envelope of any reachable world is ready for its job. */
  lemma CompletedIsReady(w: World, id: JsString)
    requires CompletionSafety.IsReachable(w) && id in w.rows
    requires w.rows[id].life.env.request.status == IsCompleted
    ensures IsReady(w.rows[id], w.store, w.rows[id].life.images)
  {
    hide CompletionSafety.IsReachable, SigningInvariant.RoutingOk, SigningInvariant.TasksOk, SigningInvariant.ClaimsOk,
         CompletionInvariant.IsDraftOf;
    CompletionSafety.ReachableIsOk(w);
    assert CompletionInvariant.RowOk(w, id);
    var s := w.rows[id].life;
    CompletionInvariant.CompletedIsSigned(s);
    forall i | 0 <= i < |s.env.people| && HasStampableSignature(s.env.people[i])
      ensures s.env.people[i].image.value in s.images
    {
      assert SigningInvariant.PersonOk(s, i);
    }
  }

  class Worker {
    var rows: map<JsString, Row>
    var store: map<ObjectKey, Pdf>
    var mails: seq<Mail>
    const seal: SealService

    constructor (rows: map<JsString, Row>, store: map<ObjectKey, Pdf>, mails: seq<Mail>, seal: SealService)
      ensures this.rows == rows && this.store == store && this.mails == mails && this.seal == seal
    {
      this.rows := rows;
      this.store := store;
      this.mails := mails;
      this.seal := seal;
    }

    /** `deliver`: everyone once, then the sender unless they already were, then the flag. */
    method Deliver(request: JsString, sender: Option<string>, pdf: Pdf, certificate: Pdf, order: seq<nat>, now: int)
      requires request in rows && IsEveryone(|rows[request].life.env.people|, order)
      modifies this`mails, this`rows
      ensures mails == old(mails) + MailsTo(
                request, Audience(old(rows)[request].life.env.people, order, sender), pdf, certificate)
      ensures rows == old(rows)[request := old(rows)[request].(
                emailedAt := if old(rows)[request].emailedAt.None? then Some(now) else old(rows)[request].emailedAt)]
    {
      hide Lower, LowerSet, IsEveryone, MailsTo;
      var people := rows[request].life.env.people;
      EveryoneIsInRows(people, order);
      NobodyYet(request, pdf, certificate);
      var seen: set<string> := {};
      ghost var sent: seq<string> := [];
      for i := 0 to |order|
        invariant rows == old(rows)
        invariant seen == LowerSet(sent)
        invariant mails == old(mails) + MailsTo(request, sent, pdf, certificate)
        invariant sent + Copies(people, order[i..], seen) == Copies(people, order, {})
      {
        var person := people[order[i]];
        var key := Lower(person.email);
        assert order[i..][1..] == order[i + 1..] && order[i..][0] == order[i];
        if key !in seen {
          OneMoreReader(sent, person.email);
          OneMoreMail(request, sent, person.email, pdf, certificate);
          seen := seen + {key};
          mails := mails + [Mail(request, person.email, pdf, certificate)];
          sent := sent + [person.email];
        }
      }
      assert order[|order|..] == [];
      assert sent == Copies(people, order, {});
      if sender.Some? && sender.value != "" && Lower(sender.value) !in seen {
        OneMoreMail(request, sent, sender.value, pdf, certificate);
        mails := mails + [Mail(request, sender.value, pdf, certificate)];
      }
      if rows[request].emailedAt.None? {
        rows := rows[request := rows[request].(emailedAt := Some(now))];
      }
    }

    /** The passes, one saved file after another. */
    static method StampAll(sourceBytes: Bytes, passes: seq<Pass>, images: set<ObjectKey>, save: nat -> Bytes)
      returns (stamped: Result<Pdf, CompletionError>)
      ensures stamped.Ok? <==> forall k :: 0 <= k < |passes| ==> passes[k].image in images
      ensures stamped.Ok? ==> stamped.value.shows == Stamped(passes)
      ensures stamped.Err? ==> stamped.error == ObjectMissing
    {
      var signedPdf := Pdf(sourceBytes, Stamped([]));
      for i := 0 to |passes|
        invariant signedPdf.shows == Stamped(passes[..i])
        invariant forall k :: 0 <= k < i ==> passes[k].image in images
      {
        if passes[i].image !in images {
          return Err(ObjectMissing);
        }
        assert passes[..i + 1] == passes[..i] + [passes[i]];
        signedPdf := Pdf(save(i), Stamped(signedPdf.shows.passes + [passes[i]]));
      }
      assert passes[..|passes|] == passes;
      return Ok(signedPdf);
    }

    /** `completeSignature`. `save(i)` is what the i-th save of the stamped file comes out as;
        the two keys are minted. */
    method CompleteSignature(
        request: JsString, hasDocument: bool, sourceBytes: Bytes, images: set<ObjectKey>,
        order: seq<nat>, audience: seq<nat>, save: nat -> Bytes, certificateBytes: Bytes,
        pdfKey: ObjectKey, certificateKey: ObjectKey, now: int)
      returns (outcome: Result<bool, CompletionError>)
      requires pdfKey !in store && certificateKey !in store && pdfKey != certificateKey
      requires request in rows ==> IsInRoutingOrder(rows[request].life.env.people, order)
      requires request in rows ==> IsEveryone(|rows[request].life.env.people|, audience)
      requires seal.activeKid in seal.entries
      modifies this
      ensures outcome.Err? ==> rows == old(rows) && store == old(store) && mails == old(mails)
      ensures outcome.Ok? <==>
                request in old(rows)
                && (IsDone(old(rows)[request])
                    || HasEverything(old(rows)[request], old(store), images, hasDocument))
      ensures outcome.Ok? && (old(rows)[request].columns == UNSEALED
                              || CompletionInvariant.IsSealed(old(rows)[request].columns)) ==>
                request in rows && IsDone(rows[request])
      ensures request in old(rows) && IsDone(old(rows)[request]) ==>
                outcome.Ok? && rows == old(rows) && store == old(store) && mails == old(mails)
      ensures request in old(rows) && !IsDone(old(rows)[request]) && hasDocument
              && IsReady(old(rows)[request], old(store), images) ==>
                var row, row' := old(rows)[request], if request in rows then rows[request] else old(rows)[request];
                && outcome.Ok? && request in rows
                && rows == old(rows)[request := row']
                && CompletionInvariant.IsSealed(row'.columns) && row'.emailedAt.Some? && row'.life == row.life
                && row'.columns.pdfKey.value in store && row'.columns.certificateKey.value in store
                && (row.columns != UNSEALED ==> row'.columns == row.columns && store == old(store))
                && (row.columns == UNSEALED ==>
                      && row'.columns.pdfKey == Some(pdfKey) && row'.columns.certificateKey == Some(certificateKey)
                      && SigningInvariant.Extends(old(store), store)
                      && CompletionInvariant.IsDraftIn(
                           request, row.life.env, seal.entries,
                           Draft(store[pdfKey], store[certificateKey], row'.columns.documentHash.value,
                                 row'.columns.mark.value, row'.columns.kid.value), order)
                      && row'.columns.kid.value == seal.activeKid)
                && mails == old(mails) + MailsTo(
                     request, Audience(row.life.env.people, audience, row.sender),
                     store[row'.columns.pdfKey.value], store[row'.columns.certificateKey.value])
    {
      hide Sha256Hex, CanonicalBytes, PassesFor, ListingsFor, Audience, MailsTo, Copies, HasMarks;
      if request !in rows {
        return Err(RequestNotFound);
      }
      var row := rows[request];
      var e := row.life.env;
      if row.columns.pdfKey.Some? && row.emailedAt.Some? {
        return Ok(true);
      }
      if e.request.status != IsCompleted {
        return Err(NotSigned);
      }
      if e.request.completedAt.None? {
        return Err(NoCompletionTime);
      }
      if row.columns.pdfKey.Some? && row.columns.certificateKey.Some? {
        if row.columns.pdfKey.value !in store || row.columns.certificateKey.value !in store {
          return Err(ObjectMissing);
        }
        Deliver(request, row.sender, store[row.columns.pdfKey.value], store[row.columns.certificateKey.value],
                audience, now);
        return Ok(true);
      }
      if !hasDocument {
        return Err(DocumentNotFound);
      }
      var passes := PassesFor(e.request, e.people, order);
      MarksOfEveryone(e.request, e.people, order, images);
      if IsReady(row, store, images) {
        SomethingToStamp(row, store, order, images);
      }
      if passes == [] {
        return Err(NoSignature);
      }
      var stamped := StampAll(sourceBytes, passes, images, save);
      if stamped.Err? {
        return Err(stamped.error);
      }
      var signedPdf := stamped.value;
      var documentHash := Sha256Hex(signedPdf.bytes);
      var payload := Payload(request, e.request.completedAt.value, documentHash);
      var mark, kid := seal.Sign(payload);
      var certificate := Pdf(certificateBytes, Certificate(ListingsFor(e.people, order), payload, mark, kid));
      store := store[pdfKey := signedPdf][certificateKey := certificate];
      var count := 0;
      if rows[request].columns.pdfKey.None? {
        rows := rows[request := row.(columns := Sealing(Artifacts(pdfKey, certificateKey, documentHash, mark, kid)))];
        count := 1;
      }
      if count != 1 {
        return Ok(true);
      }
      Deliver(request, row.sender, signedPdf, certificate, audience, now);
      return Ok(true);
    }
  }

  lemma OneMoreReader(sent: seq<string>, email: string)
    ensures LowerSet(sent + [email]) == LowerSet(sent) + {Lower(email)}
  {
    hide Lower;
    assert email in sent + [email];
    forall address | address in sent ensures address in sent + [email] {
    }
  }

  lemma OneMoreMail(request: JsString, sent: seq<string>, email: string, pdf: Pdf, certificate: Pdf)
    ensures MailsTo(request, sent + [email], pdf, certificate) ==
            MailsTo(request, sent, pdf, certificate) + [Mail(request, email, pdf, certificate)]
  {
  }

  lemma NobodyYet(request: JsString, pdf: Pdf, certificate: Pdf)
    ensures LowerSet([]) == {} && MailsTo(request, [], pdf, certificate) == []
  {
  }

  lemma EveryoneIsInRows(people: seq<Recipient>, order: seq<nat>)
    requires IsEveryone(|people|, order)
    ensures InRows(people, order) && forall i :: 0 <= i <= |order| ==> InRows(people, order[i..])
  {
  }
}
