/** What every step of the completion pipeline keeps. */
module CompletionInvariant {
  import opened Wrappers
  import opened JsText
  import opened Seal
  import opened Envelope
  import opened Completion
  import opened CompletionRun
  import SigningRun
  import SigningInvariant

  // ----- how the world may move

  ghost predicate RowMoves(r: Row, r': Row) {
    && SigningInvariant.Moves(r.life, r'.life)
    && r'.sender == r.sender
    && (r.columns.pdfKey.Some? ==> r'.columns == r.columns)
    && (r.emailedAt.Some? ==> r'.emailedAt == r.emailedAt)
  }

  ghost predicate Grows(w: World, w': World) {
    && w'.rows.Keys == w.rows.Keys
    && (forall id :: id in w.rows ==> RowMoves(w.rows[id], w'.rows[id]))
    && SigningInvariant.Extends(w.store, w'.store)
    && w.mails <= w'.mails
    && RingGrows(w.ring, w'.ring)
  }

  lemma NothingMoves(w: World, w': World)
    requires w'.rows == w.rows && w'.store == w.store && w'.mails == w.mails && w'.ring == w.ring
    ensures Grows(w, w')
  {
  }

  lemma LiveGrows(w: World, a: Action)
    requires a.Live?
    ensures Grows(w, Step(w, a))
  {
    hide SigningRun.Step;
    if a.request in w.rows {
      SigningInvariant.StepMoves(w.rows[a.request].life, a.action);
    }
  }

  lemma StayingPut(w: World)
    ensures forall id :: id in w.rows ==> RowMoves(w.rows[id], w.rows[id])
  {
  }

  lemma RowWriteGrows(w: World, a: Action)
    requires a.Record? || a.MarkEmailed?
    ensures Grows(w, Step(w, a))
  {
    hide SigningInvariant.Moves;
    StayingPut(w);
    assert forall id :: id in w.rows ==> RowMoves(w.rows[id], w.rows[id]);
  }

  lemma JobStepGrows(w: World, a: Action)
    requires !a.Live? && !a.Record? && !a.MarkEmailed?
    ensures Grows(w, Step(w, a))
  {
    hide RowMoves, DraftOf, PassesFor, Audience, IsInRoutingOrder, IsEveryone;
    StayingPut(w);
  }

  /** Every step moves the world forward only: what is on record stays. */
  lemma StepGrows(w: World, a: Action)
    ensures Grows(w, Step(w, a))
  {
    hide Step, Grows;
    if a.Live? {
      LiveGrows(w, a);
    } else if a.Record? || a.MarkEmailed? {
      RowWriteGrows(w, a);
    } else {
      JobStepGrows(w, a);
    }
  }

  lemma {:induction false} RunGrows(w: World, actions: seq<Action>)
    ensures Grows(w, Run(w, actions))
    decreases actions
  {
    hide Step;
    if actions == [] {
      NothingMoves(w, w);
    } else {
      StepGrows(w, actions[0]);
      RunGrows(Step(w, actions[0]), actions[1..]);
      GrowsOn(w, Step(w, actions[0]), Run(w, actions));
    }
  }

  lemma GrowsOn(w: World, v: World, u: World)
    requires Grows(w, v) && Grows(v, u)
    ensures Grows(w, u)
  {
    hide SigningInvariant.Moves;
    forall id | id in w.rows ensures RowMoves(w.rows[id], u.rows[id]) {
      assert RowMoves(w.rows[id], v.rows[id]) && RowMoves(v.rows[id], u.rows[id]);
      MovesOn(w.rows[id].life, v.rows[id].life, u.rows[id].life);
    }
  }

  lemma MovesOn(a: SigningRun.State, b: SigningRun.State, c: SigningRun.State)
    requires SigningInvariant.Moves(a, b) && SigningInvariant.Moves(b, c)
    ensures SigningInvariant.Moves(a, c)
  {
    forall i | 0 <= i < |a.env.people| ensures SigningInvariant.PersonMoves(a.env.people[i], c.env.people[i]) {
      assert SigningInvariant.PersonMoves(a.env.people[i], b.env.people[i]);
      assert SigningInvariant.PersonMoves(b.env.people[i], c.env.people[i]);
    }
  }

  // ----- the invariant

  /** The envelope is signed by everyone, with a moment to bind the seal to. */
  ghost predicate IsSigned(e: Envelope) {
    e.request.status == IsCompleted && e.request.completedAt.Some?
    && forall i :: 0 <= i < |e.people| && e.people[i].role == Signer ==> HasStampableSignature(e.people[i])
  }

  ghost predicate IsDraftIn(request: JsString, e: Envelope, ring: Ring, d: Draft, order: seq<nat>)
    requires e.request.completedAt.Some?
  {
    && IsInRoutingOrder(e.people, order) && d.kid in ring
    && d == DraftOf(request, e.request.completedAt.value, e, order, d.pdf.bytes, d.certificate.bytes, ring, d.kid)
  }

  /** A draft is one of the documents this envelope, as signed, can be stamped into. */
  ghost predicate IsDraftOf(request: JsString, e: Envelope, ring: Ring, d: Draft) {
    IsSigned(e) && exists order :: IsDraftIn(request, e, ring, d, order)
  }

  predicate IsSealed(c: Columns) {
    c.pdfKey.Some? && c.certificateKey.Some? && c.documentHash.Some? && c.mark.Some? && c.kid.Some?
  }

  /** `pdf` and `certificate` are the very objects on record. */
  ghost predicate IsOnRecord(c: Columns, store: map<ObjectKey, Pdf>, pdf: Pdf, certificate: Pdf) {
    && IsSealed(c) && c.pdfKey.value in store && c.certificateKey.value in store
    && pdf == store[c.pdfKey.value] && certificate == store[c.certificateKey.value]
  }

  ghost predicate RecordOk(w: World, id: JsString)
    requires id in w.rows
  {
    var c := w.rows[id].columns;
    && IsSealed(c) && c.pdfKey.value in w.store && c.certificateKey.value in w.store
    && IsDraftOf(id, w.rows[id].life.env, w.ring,
                 Draft(w.store[c.pdfKey.value], w.store[c.certificateKey.value],
                       c.documentHash.value, c.mark.value, c.kid.value))
  }

  ghost predicate WasMailed(mails: seq<Mail>, id: JsString, reader: string) {
    exists m :: m in mails && m.request == id && Lower(m.to) == reader
  }

  /** Everyone who is owed a copy has had one, or is still on the list. */
  ghost predicate IsServed(w: World, id: JsString, todo: seq<string>)
    requires id in w.rows
  {
    forall address :: IsOwedACopy(w.rows[id].life.env.people, w.rows[id].sender, address) ==>
      WasMailed(w.mails, id, Lower(address)) || Lower(address) in LowerSet(todo)
  }

  ghost predicate RowOk(w: World, id: JsString)
    requires id in w.rows
  {
    var row := w.rows[id];
    && SigningInvariant.Inv(row.life)
    && (row.columns == UNSEALED || RecordOk(w, id))
    && (row.emailedAt.Some? ==> RecordOk(w, id) && IsServed(w, id, []))
  }

  ghost predicate JobOk(w: World, job: Job) {
    && job.request in w.rows
    && var row := w.rows[job.request];
    && IsSigned(row.life.env)
    && match job.at
       case Begun(signedAt) => row.life.env.request.completedAt == Some(signedAt)
       case Drafted(draft, pdfKey, certificateKey) =>
         && IsDraftOf(job.request, row.life.env, w.ring, draft)
         && (pdfKey.Some? ==> pdfKey.value in w.store && w.store[pdfKey.value] == draft.pdf)
         && (certificateKey.Some? ==>
               certificateKey.value in w.store && w.store[certificateKey.value] == draft.certificate)
       case Fetching(pdfKey, certificateKey) =>
         row.columns.pdfKey == Some(pdfKey) && row.columns.certificateKey == Some(certificateKey)
       case Delivering(pdf, certificate) => IsOnRecord(row.columns, w.store, pdf, certificate)
       case Mailing(pdf, certificate, todo) =>
         && IsOnRecord(row.columns, w.store, pdf, certificate)
         && IsServed(w, job.request, todo)
         && (forall k :: 0 <= k < |todo| ==> IsOwedACopy(row.life.env.people, row.sender, todo[k]))
  }

  ghost predicate MailOk(w: World, m: Mail) {
    && m.request in w.rows
    && var row := w.rows[m.request];
    && IsOnRecord(row.columns, w.store, m.pdf, m.certificate)
    && IsOwedACopy(row.life.env.people, row.sender, m.to)
  }

  ghost predicate Inv(w: World) {
    && (forall id :: id in w.rows ==> RowOk(w, id))
    && (forall id :: id in w.jobs ==> JobOk(w, w.jobs[id]))
    && (forall k :: 0 <= k < |w.mails| ==> MailOk(w, w.mails[k]))
  }

  // ----- what lasts

  lemma CompletedIsSigned(s: SigningRun.State)
    requires SigningInvariant.Inv(s) && s.env.request.status == IsCompleted
    ensures IsSigned(s.env)
  {
    hide SigningInvariant.RoutingOk, SigningInvariant.TasksOk, SigningInvariant.ClaimsOk;
    forall i | 0 <= i < |s.env.people| && s.env.people[i].role == Signer
      ensures HasStampableSignature(s.env.people[i])
    {
      assert SigningInvariant.PersonOk(s, i);
    }
  }

  lemma SignedStays(s: SigningRun.State, s': SigningRun.State)
    requires IsSigned(s.env) && SigningInvariant.Moves(s, s')
    ensures IsSigned(s'.env) && s'.env.request.completedAt == s.env.request.completedAt
    ensures forall i :: 0 <= i < |s.env.people| ==>
              && s'.env.people[i].role == s.env.people[i].role
              && s'.env.people[i].order == s.env.people[i].order
              && (s.env.people[i].role == Signer ==> s'.env.people[i] == s.env.people[i])
  {
    forall i | 0 <= i < |s.env.people|
      ensures SigningInvariant.PersonMoves(s.env.people[i], s'.env.people[i])
    {
    }
  }

  lemma {:induction false} PassesOfFields(q: Request, q': Request, people: seq<Recipient>, order: seq<nat>)
    requires InRows(people, order) && q'.fields == q.fields
    ensures PassesFor(q', people, order) == PassesFor(q, people, order)
  {
    if order != [] {
      PassesOfFields(q, q', people, order[1..]);
    }
  }

  /** A draft stays a draft: whatever happens to a signed envelope, stamping it again would put
      the same marks on the page. */
  lemma DraftStays(request: JsString, s: SigningRun.State, s': SigningRun.State, ring: Ring, ring': Ring, d: Draft)
    requires IsDraftOf(request, s.env, ring, d) && SigningInvariant.Moves(s, s') && RingGrows(ring, ring')
    ensures IsDraftOf(request, s'.env, ring', d)
  {
    hide Sha256Hex, CanonicalBytes, PassesFor, ListingsFor;
    var order :| IsDraftIn(request, s.env, ring, d, order);
    SignedStays(s, s');
    OnlySignersMatter(s.env.request, s.env.people, s'.env.people, order);
    PassesOfFields(s.env.request, s'.env.request, s'.env.people, order);
    assert IsDraftIn(request, s'.env, ring', d, order);
  }

  lemma OwedStays(s: SigningRun.State, s': SigningRun.State, sender: Option<string>, address: string)
    requires SigningInvariant.Moves(s, s')
    ensures IsOwedACopy(s'.env.people, sender, address) <==> IsOwedACopy(s.env.people, sender, address)
  {
    forall i | 0 <= i < |s.env.people| ensures SigningInvariant.PersonMoves(s.env.people[i], s'.env.people[i]) {
    }
  }

  lemma ServedStays(w: World, w': World, id: JsString, todo: seq<string>)
    requires id in w.rows && Grows(w, w') && IsServed(w, id, todo)
    ensures IsServed(w', id, todo)
  {
    hide Lower, IsOwedACopy, LowerSet, SigningInvariant.Moves;
    assert RowMoves(w.rows[id], w'.rows[id]);
    forall address | IsOwedACopy(w'.rows[id].life.env.people, w'.rows[id].sender, address)
      ensures WasMailed(w'.mails, id, Lower(address)) || Lower(address) in LowerSet(todo)
    {
      OwedStays(w.rows[id].life, w'.rows[id].life, w.rows[id].sender, address);
    }
  }

  lemma RecordStays(w: World, w': World, id: JsString)
    requires id in w.rows && RecordOk(w, id) && Grows(w, w')
    ensures RecordOk(w', id)
  {
    hide IsDraftOf, SigningInvariant.Moves;
    assert RowMoves(w.rows[id], w'.rows[id]);
    var c := w.rows[id].columns;
    DraftStays(id, w.rows[id].life, w'.rows[id].life, w.ring, w'.ring,
               Draft(w.store[c.pdfKey.value], w.store[c.certificateKey.value],
                     c.documentHash.value, c.mark.value, c.kid.value));
  }

  lemma MailStays(w: World, w': World, m: Mail)
    requires MailOk(w, m) && Grows(w, w')
    ensures MailOk(w', m)
  {
    hide IsOwedACopy, SigningInvariant.Moves;
    assert RowMoves(w.rows[m.request], w'.rows[m.request]);
    OwedStays(w.rows[m.request].life, w'.rows[m.request].life, w.rows[m.request].sender, m.to);
  }

  lemma JobStays(w: World, w': World, job: Job)
    requires JobOk(w, job) && Grows(w, w')
    ensures JobOk(w', job)
  {
    hide IsDraftOf, IsSigned, IsServed, IsOwedACopy, SigningInvariant.Moves;
    var row, row' := w.rows[job.request], w'.rows[job.request];
    assert RowMoves(row, row');
    SignedStays(row.life, row'.life);
    match job.at
    case Drafted(draft, _, _) =>
      DraftStays(job.request, row.life, row'.life, w.ring, w'.ring, draft);
    case Mailing(pdf, certificate, todo) =>
      ServedStays(w, w', job.request, todo);
      forall k | 0 <= k < |todo| ensures IsOwedACopy(row'.life.env.people, row'.sender, todo[k]) {
        OwedStays(row.life, row'.life, row.sender, todo[k]);
      }
    case _ =>
  }

  /** A row whose own record and delivery mark did not change. */
  lemma RowStays(w: World, w': World, id: JsString)
    requires id in w.rows && RowOk(w, id) && Grows(w, w')
    requires w'.rows[id].columns == w.rows[id].columns && w'.rows[id].emailedAt == w.rows[id].emailedAt
    requires SigningInvariant.Inv(w'.rows[id].life)
    ensures RowOk(w', id)
  {
    hide RecordOk, IsServed, RowMoves, SigningInvariant.Inv;
    if RecordOk(w, id) {
      RecordStays(w, w', id);
    }
    if IsServed(w, id, []) {
      ServedStays(w, w', id, []);
    }
  }

  // ----- what each step adds

  lemma SameRowStays(w: World, w': World, id: JsString)
    requires id in w.rows && id in w'.rows && RowOk(w, id) && Grows(w, w') && w'.rows[id] == w.rows[id]
    ensures RowOk(w', id)
  {
    hide RecordOk, IsServed, Grows, SigningInvariant.Inv;
    RowStays(w, w', id);
  }

  /** A step that leaves rows and mails as they are, and whose one job, if any, is in order. */
  lemma JobStepKeepsInv(w: World, w': World)
    requires Inv(w) && Grows(w, w')
    requires w'.rows == w.rows && w'.mails == w.mails
    requires forall id :: id in w'.jobs ==> (id in w.jobs && w'.jobs[id] == w.jobs[id]) || JobOk(w', w'.jobs[id])
    ensures Inv(w')
  {
    hide RowOk, JobOk, MailOk, Grows;
    forall id | id in w'.jobs ensures JobOk(w', w'.jobs[id]) {
      if id in w.jobs && w'.jobs[id] == w.jobs[id] {
        JobStays(w, w', w.jobs[id]);
      }
    }
    forall request | request in w'.rows ensures RowOk(w', request) {
      SameRowStays(w, w', request);
    }
    forall k | 0 <= k < |w'.mails| ensures MailOk(w', w'.mails[k]) {
      MailStays(w, w', w.mails[k]);
    }
  }

  /** A step that changes one row, whose own invariant is shown apart, and drops or keeps jobs. */
  lemma RowStepKeepsInv(w: World, w': World, request: JsString)
    requires Inv(w) && Grows(w, w')
    requires w'.mails == w.mails
    requires forall other :: other in w.rows && other != request ==> w'.rows[other] == w.rows[other]
    requires request in w'.rows ==> RowOk(w', request)
    requires forall id :: id in w'.jobs ==> (id in w.jobs && w'.jobs[id] == w.jobs[id]) || JobOk(w', w'.jobs[id])
    ensures Inv(w')
  {
    hide RowOk, JobOk, MailOk, RowMoves;
    forall id | id in w'.jobs ensures JobOk(w', w'.jobs[id]) {
      if id in w.jobs && w'.jobs[id] == w.jobs[id] {
        JobStays(w, w', w.jobs[id]);
      }
    }
    forall other | other in w'.rows ensures RowOk(w', other) {
      if other != request {
        SameRowStays(w, w', other);
      }
    }
    forall k | 0 <= k < |w'.mails| ensures MailOk(w', w'.mails[k]) {
      MailStays(w, w', w.mails[k]);
    }
  }

  lemma LiveKeepsInv(w: World, a: Action)
    requires Inv(w) && a.Live?
    ensures Inv(Step(w, a))
  {
    hide RecordOk, IsServed, JobOk, MailOk, Grows, SigningInvariant.Inv, SigningRun.Step;
    var w' := Step(w, a);
    StepGrows(w, a);
    if a.request in w.rows {
      SigningInvariant.StepKeepsInv(w.rows[a.request].life, a.action);
      RowStays(w, w', a.request);
      RowStepKeepsInv(w, w', a.request);
    }
  }

  // What one job's own action makes of it, and of the row it writes.

  lemma BegunJobOk(w: World, a: Action)
    requires a.Begin? && a.id !in w.jobs && (a.request in w.rows ==> RowOk(w, a.request))
    ensures a.id in Step(w, a).jobs ==> JobOk(Step(w, a), Step(w, a).jobs[a.id])
  {
    hide RecordOk, IsServed, IsSigned, SigningInvariant.Inv;
    if a.request in w.rows && w.rows[a.request].life.env.request.status == IsCompleted {
      CompletedIsSigned(w.rows[a.request].life);
    }
  }

  lemma DraftedJobOk(w: World, a: Action)
    requires a.DraftBoth? && a.id in w.jobs && JobOk(w, w.jobs[a.id])
    ensures a.id in Step(w, a).jobs ==> JobOk(Step(w, a), Step(w, a).jobs[a.id])
  {
    hide IsServed, IsInRoutingOrder, PassesFor, ListingsFor, Sha256Hex, CanonicalBytes, IsSigned;
    var job := w.jobs[a.id];
    if Step(w, a) != w && a.id in Step(w, a).jobs {
      DraftIsADraft(job.request, w.rows[job.request].life.env, a.order, a.bytes, a.certificateBytes, w.ring, a.kid);
    }
  }

  lemma DraftIsADraft(
      request: JsString, e: Envelope, order: seq<nat>, bytes: Bytes, certificateBytes: Bytes, ring: Ring, kid: string)
    requires IsSigned(e) && IsInRoutingOrder(e.people, order) && kid in ring
    ensures IsDraftOf(request, e, ring,
                      DraftOf(request, e.request.completedAt.value, e, order, bytes, certificateBytes, ring, kid))
  {
    hide PassesFor, ListingsFor, Sha256Hex, CanonicalBytes;
    var d := DraftOf(request, e.request.completedAt.value, e, order, bytes, certificateBytes, ring, kid);
    assert IsDraftIn(request, e, ring, d, order);
  }

  lemma PuttingJobOk(w: World, a: Action)
    requires (a.PutPdf? || a.PutCertificate?) && a.id in w.jobs && JobOk(w, w.jobs[a.id])
    requires Grows(w, Step(w, a))
    ensures a.id in Step(w, a).jobs && JobOk(Step(w, a), Step(w, a).jobs[a.id])
  {
    hide IsServed, Grows, IsDraftOf, IsSigned;
    if Step(w, a) == w {
      JobStays(w, w, w.jobs[a.id]);
    }
  }

  lemma FetchedJobOk(w: World, a: Action)
    requires a.Fetch? && a.id in w.jobs && JobOk(w, w.jobs[a.id]) && RowOk(w, w.jobs[a.id].request)
    ensures a.id in Step(w, a).jobs ==> JobOk(Step(w, a), Step(w, a).jobs[a.id])
  {
    hide IsServed, IsDraftOf, IsSigned, SigningInvariant.Inv;
  }

  lemma AudienceJobOk(w: World, a: Action)
    requires a.ReadAudience? && a.id in w.jobs && JobOk(w, w.jobs[a.id])
    ensures a.id in Step(w, a).jobs && JobOk(Step(w, a), Step(w, a).jobs[a.id])
  {
    hide IsDraftOf, IsSigned, Audience, IsOwedACopy, Lower, LowerSet, IsEveryone;
    if Step(w, a) != w {
      var row := w.rows[w.jobs[a.id].request];
      AudienceMeaning(row.life.env.people, a.order, row.sender);
    }
  }

  lemma SenderJobOk(w: World, a: Action)
    requires a.SendNext? && a.id in w.jobs && JobOk(w, w.jobs[a.id])
    ensures a.id in Step(w, a).jobs && JobOk(Step(w, a), Step(w, a).jobs[a.id])
  {
    hide IsOwedACopy, Lower, IsSigned, IsDraftOf;
    if Step(w, a) != w {
      ServedByOneMore(w, a);
    }
  }

  /** One address moves from the list to the mails. */
  lemma ServedByOneMore(w: World, a: Action)
    requires a.SendNext? && a.id in w.jobs && w.jobs[a.id].at.Mailing? && w.jobs[a.id].at.todo != []
    requires w.jobs[a.id].request in w.rows && IsServed(w, w.jobs[a.id].request, w.jobs[a.id].at.todo)
    ensures IsServed(Step(w, a), w.jobs[a.id].request, w.jobs[a.id].at.todo[1..])
  {
    hide Lower, IsOwedACopy;
    var w', id, todo := Step(w, a), w.jobs[a.id].request, w.jobs[a.id].at.todo;
    var m := Mail(id, todo[0], w.jobs[a.id].at.pdf, w.jobs[a.id].at.certificate);
    assert m in w'.mails && forall other :: other in w.mails ==> other in w'.mails;
    assert todo == [todo[0]] + todo[1..];
  }

  lemma NewMailOk(w: World, a: Action, k: nat)
    requires a.SendNext? && a.id in w.jobs && JobOk(w, w.jobs[a.id])
    requires |w.mails| <= k < |Step(w, a).mails|
    ensures MailOk(Step(w, a), Step(w, a).mails[k])
  {
    hide IsServed, IsOwedACopy, Lower, IsSigned, IsDraftOf;
  }

  lemma RecordedRow(w: World, a: Action)
    requires a.Record? && a.id in w.jobs && JobOk(w, w.jobs[a.id]) && RowOk(w, w.jobs[a.id].request)
    requires Step(w, a).rows != w.rows
    ensures w.jobs[a.id].request in Step(w, a).rows && RowOk(Step(w, a), w.jobs[a.id].request)
  {
    hide IsServed, IsDraftOf, IsSigned, SigningInvariant.Inv;
  }

  lemma RecorderJobOk(w: World, a: Action)
    requires a.Record? && a.id in w.jobs && JobOk(w, w.jobs[a.id])
    ensures a.id in Step(w, a).jobs ==> JobOk(Step(w, a), Step(w, a).jobs[a.id])
  {
    hide IsDraftOf, IsSigned;
  }

  lemma MarkedRow(w: World, a: Action)
    requires a.MarkEmailed? && a.id in w.jobs && JobOk(w, w.jobs[a.id]) && RowOk(w, w.jobs[a.id].request)
    ensures w.jobs[a.id].request in Step(w, a).rows && RowOk(Step(w, a), w.jobs[a.id].request)
  {
    hide IsDraftOf, IsSigned, IsOwedACopy, SigningInvariant.Inv;
  }

  // ----- all together

  /** Steps that leave the rows and the mails alone. */
  lemma JobActionKeepsInv(w: World, a: Action)
    requires Inv(w) && !a.Live? && !a.SendNext? && !a.Record? && !a.MarkEmailed?
    ensures Inv(Step(w, a))
  {
    hide RowOk, JobOk, MailOk, Grows;
    StepGrows(w, a);
    if a.Begin? && a.id !in w.jobs {
      BegunJobOk(w, a);
    } else if a.DraftBoth? && a.id in w.jobs {
      DraftedJobOk(w, a);
    } else if (a.PutPdf? || a.PutCertificate?) && a.id in w.jobs {
      PuttingJobOk(w, a);
    } else if a.Fetch? && a.id in w.jobs {
      JobNamesARow(w, a.id);
      FetchedJobOk(w, a);
    } else if a.ReadAudience? && a.id in w.jobs {
      AudienceJobOk(w, a);
    }
    JobStepKeepsInv(w, Step(w, a));
  }

  lemma JobNamesARow(w: World, id: nat)
    requires id in w.jobs && JobOk(w, w.jobs[id])
    ensures w.jobs[id].request in w.rows
  {
  }

  lemma RowActionKeepsInv(w: World, a: Action)
    requires Inv(w) && (a.Record? || a.MarkEmailed?)
    ensures Inv(Step(w, a))
  {
    hide RowOk, JobOk, MailOk, Grows;
    StepGrows(w, a);
    if a.id in w.jobs {
      JobNamesARow(w, a.id);
      var request := w.jobs[a.id].request;
      if Step(w, a).rows == w.rows {
        SameRowStays(w, Step(w, a), request);
      } else if a.Record? {
        RecordedRow(w, a);
      } else {
        MarkedRow(w, a);
      }
      if a.Record? {
        RecorderJobOk(w, a);
      }
      RowStepKeepsInv(w, Step(w, a), request);
    }
  }

  lemma SendKeepsInv(w: World, a: Action)
    requires Inv(w) && a.SendNext?
    ensures Inv(Step(w, a))
  {
    hide RowOk, JobOk, MailOk, Grows;
    var w' := Step(w, a);
    StepGrows(w, a);
    forall id | id in w'.jobs ensures JobOk(w', w'.jobs[id]) {
      if id == a.id {
        SenderJobOk(w, a);
      } else {
        JobStays(w, w', w.jobs[id]);
      }
    }
    forall id | id in w'.rows ensures RowOk(w', id) {
      SameRowStays(w, w', id);
    }
    forall k | 0 <= k < |w'.mails| ensures MailOk(w', w'.mails[k]) {
      if k < |w.mails| {
        MailStays(w, w', w.mails[k]);
      } else {
        NewMailOk(w, a, k);
      }
    }
  }

  lemma StepKeepsInv(w: World, a: Action)
    requires Inv(w)
    ensures Inv(Step(w, a))
  {
    hide Inv, Step;
    if a.Live? {
      LiveKeepsInv(w, a);
    } else if a.SendNext? {
      SendKeepsInv(w, a);
    } else if a.Record? || a.MarkEmailed? {
      RowActionKeepsInv(w, a);
    } else {
      JobActionKeepsInv(w, a);
    }
  }

  lemma {:induction false} RunKeepsInv(w: World, actions: seq<Action>)
    requires Inv(w)
    ensures Inv(Run(w, actions))
    decreases actions
  {
    hide Step, Inv;
    if actions != [] {
      StepKeepsInv(w, actions[0]);
      RunKeepsInv(Step(w, actions[0]), actions[1..]);
    }
  }

  lemma StartIsOk(w: World)
    requires IsStart(w)
    ensures Inv(w)
  {
    hide SigningRun.IsStart, SigningInvariant.Inv;
    forall id | id in w.rows ensures RowOk(w, id) {
      SigningInvariant.StartIsOk(w.rows[id].life);
    }
  }
}
