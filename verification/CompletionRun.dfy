/** Any number of envelopes being signed while any number of completion jobs run on them:
    duplicates, retries and crashes included (apps/api/src/modules/signing/completion.ts).
    `Step` is one transaction, one object-store call, one email or one signing step. */
module CompletionRun {
  import opened Wrappers
  import opened JsText
  import opened Seal
  import opened Envelope
  import opened Completion
  import SigningRun

  datatype Row = Row(life: SigningRun.State, sender: Option<string>, columns: Columns, emailedAt: Option<int>)

  datatype Mail = Mail(request: JsString, to: string, pdf: Pdf, certificate: Pdf)

  /** What a job has made but not yet recorded. */
  datatype Draft = Draft(pdf: Pdf, certificate: Pdf, documentHash: JsString, mark: Mark, kid: string)

  datatype Progress =
    | Begun(signedAt: int)
    | Drafted(draft: Draft, pdfKey: Option<ObjectKey>, certificateKey: Option<ObjectKey>)
    | Fetching(oldPdfKey: ObjectKey, oldCertificateKey: ObjectKey)
    | Delivering(pdf: Pdf, certificate: Pdf)
    | Mailing(pdf: Pdf, certificate: Pdf, todo: seq<string>)

  datatype Job = Job(request: JsString, at: Progress)

  datatype World = World(
    rows: map<JsString, Row>, store: map<ObjectKey, Pdf>, mails: seq<Mail>, ring: Ring, jobs: map<nat, Job>)

  /** `bytes` and `certificateBytes` are whatever this save of the two files comes out as; `kid`
      is the key that is active in the worker's ring. */
  datatype Action =
    | Live(request: JsString, action: SigningRun.Action)
    | TurnRing(ring: Ring)
    | Begin(id: nat, request: JsString)
    | DraftBoth(id: nat, order: seq<nat>, bytes: Bytes, certificateBytes: Bytes, kid: string)
    | PutPdf(id: nat, key: ObjectKey)
    | PutCertificate(id: nat, key: ObjectKey)
    | Record(id: nat)
    | Fetch(id: nat)
    | ReadAudience(id: nat, order: seq<nat>)
    | SendNext(id: nat)
    | MarkEmailed(id: nat, at: int)
    | Crash(id: nat)

  /** Envelopes just sent, nothing sealed, nobody at work. */
  ghost predicate IsStart(w: World) {
    && (forall id :: id in w.rows ==>
          SigningRun.IsStart(w.rows[id].life) && w.rows[id].columns == UNSEALED && w.rows[id].emailedAt.None?)
    && w.store == map[] && w.mails == [] && w.jobs == map[]
  }

  function Drop(w: World, id: nat): World {
    w.(jobs := w.jobs - {id})
  }

  function MoveTo(w: World, id: nat, at: Progress): World
    requires id in w.jobs
  {
    w.(jobs := w.jobs[id := w.jobs[id].(at := at)])
  }

  function DoLive(w: World, request: JsString, a: SigningRun.Action): World {
    if request !in w.rows then w
    else w.(rows := w.rows[request := w.rows[request].(life := SigningRun.Step(w.rows[request].life, a))])
  }

  /** The first transaction and the checks on what it read. */
  function DoBegin(w: World, id: nat, request: JsString): World {
    if id in w.jobs || request !in w.rows then w
    else
      var row := w.rows[request];
      var q, c := row.life.env.request, row.columns;
      if c.pdfKey.Some? && row.emailedAt.Some? then w
      else if q.status != IsCompleted || q.completedAt.None? then w
      else if c.pdfKey.Some? && c.certificateKey.Some? then
        w.(jobs := w.jobs[id := Job(request, Fetching(c.pdfKey.value, c.certificateKey.value))])
      else w.(jobs := w.jobs[id := Job(request, Begun(q.completedAt.value))])
  }

  function DraftOf(
      request: JsString, signedAt: int, e: Envelope, order: seq<nat>,
      bytes: Bytes, certificateBytes: Bytes, ring: Ring, kid: string): Draft
    requires InRows(e.people, order) && kid in ring
  {
    var payload := Payload(request, signedAt, Sha256Hex(bytes));
    var mark := Mark(ring[kid], CanonicalBytes(payload));
    Draft(
      Pdf(bytes, Stamped(PassesFor(e.request, e.people, order))),
      Pdf(certificateBytes, Certificate(ListingsFor(e.people, order), payload, mark, kid)),
      payload.documentHash, mark, kid)
  }

  /** The people are read, the document is stamped and sealed, the certificate is made. */
  function DoDraft(
      w: World, id: nat, order: seq<nat>, bytes: Bytes, certificateBytes: Bytes, kid: string): World
  {
    if id !in w.jobs || !w.jobs[id].at.Begun? || w.jobs[id].request !in w.rows then w
    else
      var request, e := w.jobs[id].request, w.rows[w.jobs[id].request].life.env;
      if !IsInRoutingOrder(e.people, order) || kid !in w.ring then w
      else if PassesFor(e.request, e.people, order) == [] then Drop(w, id)
      else
        var draft := DraftOf(request, w.jobs[id].at.signedAt, e, order, bytes, certificateBytes, w.ring, kid);
        MoveTo(w, id, Drafted(draft, None, None))
  }

  /** Object keys are minted, so no two puts share one. */
  function DoPutPdf(w: World, id: nat, key: ObjectKey): World {
    if id !in w.jobs || !w.jobs[id].at.Drafted? || w.jobs[id].at.pdfKey.Some? || key in w.store then w
    else
      var at := w.jobs[id].at;
      MoveTo(w, id, at.(pdfKey := Some(key))).(store := w.store[key := at.draft.pdf])
  }

  function DoPutCertificate(w: World, id: nat, key: ObjectKey): World {
    if id !in w.jobs || !w.jobs[id].at.Drafted? || w.jobs[id].at.certificateKey.Some? || key in w.store then w
    else
      var at := w.jobs[id].at;
      MoveTo(w, id, at.(certificateKey := Some(key))).(store := w.store[key := at.draft.certificate])
  }

  /** The conditional update of all five columns; whoever finds the row already sealed stops. */
  function DoRecord(w: World, id: nat): World {
    if id !in w.jobs || !w.jobs[id].at.Drafted? || w.jobs[id].at.pdfKey.None? || w.jobs[id].at.certificateKey.None?
       || w.jobs[id].request !in w.rows then w
    else
      var at, row := w.jobs[id].at, w.rows[w.jobs[id].request];
      var d := at.draft;
      if row.columns.pdfKey.Some? then Drop(w, id)
      else
        var a := Artifacts(at.pdfKey.value, at.certificateKey.value, d.documentHash, d.mark, d.kid);
        MoveTo(w, id, Delivering(d.pdf, d.certificate)).(
          rows := w.rows[w.jobs[id].request := row.(columns := Sealing(a))])
  }

  /** The retry after a failed delivery takes the artifacts on record. */
  function DoFetch(w: World, id: nat): World {
    if id !in w.jobs || !w.jobs[id].at.Fetching? then w
    else
      var at := w.jobs[id].at;
      if at.oldPdfKey !in w.store || at.oldCertificateKey !in w.store then Drop(w, id)
      else MoveTo(w, id, Delivering(w.store[at.oldPdfKey], w.store[at.oldCertificateKey]))
  }

  function DoReadAudience(w: World, id: nat, order: seq<nat>): World {
    if id !in w.jobs || !w.jobs[id].at.Delivering? || w.jobs[id].request !in w.rows then w
    else
      var at, row := w.jobs[id].at, w.rows[w.jobs[id].request];
      if !IsEveryone(|row.life.env.people|, order) then w
      else MoveTo(w, id, Mailing(at.pdf, at.certificate, Audience(row.life.env.people, order, row.sender)))
  }

  function DoSendNext(w: World, id: nat): World {
    if id !in w.jobs || !w.jobs[id].at.Mailing? || w.jobs[id].at.todo == [] then w
    else
      var at := w.jobs[id].at;
      MoveTo(w, id, at.(todo := at.todo[1..])).(
        mails := w.mails + [Mail(w.jobs[id].request, at.todo[0], at.pdf, at.certificate)])
  }

  function DoMarkEmailed(w: World, id: nat, at: int): World {
    if id !in w.jobs || !w.jobs[id].at.Mailing? || w.jobs[id].at.todo != [] || w.jobs[id].request !in w.rows then w
    else
      var row := w.rows[w.jobs[id].request];
      if row.emailedAt.Some? then Drop(w, id)
      else Drop(w, id).(rows := w.rows[w.jobs[id].request := row.(emailedAt := Some(at))])
  }

  function Step(w: World, a: Action): World {
    match a
    case Live(request, action) => DoLive(w, request, action)
    case TurnRing(ring) => if RingGrows(w.ring, ring) then w.(ring := ring) else w
    case Begin(id, request) => DoBegin(w, id, request)
    case DraftBoth(id, order, bytes, certificateBytes, kid) => DoDraft(w, id, order, bytes, certificateBytes, kid)
    case PutPdf(id, key) => DoPutPdf(w, id, key)
    case PutCertificate(id, key) => DoPutCertificate(w, id, key)
    case Record(id) => DoRecord(w, id)
    case Fetch(id) => DoFetch(w, id)
    case ReadAudience(id, order) => DoReadAudience(w, id, order)
    case SendNext(id) => DoSendNext(w, id)
    case MarkEmailed(id, at) => DoMarkEmailed(w, id, at)
    case Crash(id) => Drop(w, id)
  }

  function Run(w: World, actions: seq<Action>): World
    decreases actions
  {
    if actions == [] then w else Run(Step(w, actions[0]), actions[1..])
  }
}
