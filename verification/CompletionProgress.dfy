/** However many jobs have crashed on it, a completed envelope can still be sealed and delivered
    (apps/api/src/modules/signing/completion.ts). */
module CompletionProgress {
  import opened Wrappers
  import opened JsText
  import opened Seal
  import opened Envelope
  import opened Completion
  import opened CompletionRun
  import opened CompletionInvariant
  import CompletionSafety
  import CompletionJob
  import SigningRun
  import SigningStall

  // ----- an order the query may return

  function Inserted(people: seq<Recipient>, order: seq<nat>, i: nat): (r: seq<nat>)
    requires InRows(people, order) && i < |people|
    ensures InRows(people, r)
  {
    if order == [] || people[i].order <= people[order[0]].order then [i] + order
    else [order[0]] + Inserted(people, order[1..], i)
  }

  lemma {:induction false} InsertedMeaning(people: seq<Recipient>, order: seq<nat>, i: nat)
    requires InRows(people, order) && i < |people| && i !in order
    requires forall k, l :: 0 <= k < l < |order| ==> order[k] != order[l]
    requires forall k, l :: 0 <= k < l < |order| ==> people[order[k]].order <= people[order[l]].order
    ensures var r := Inserted(people, order, i);
            && (forall j :: j in r <==> j == i || j in order)
            && (forall k, l :: 0 <= k < l < |r| ==> r[k] != r[l])
            && (forall k, l :: 0 <= k < l < |r| ==> people[r[k]].order <= people[r[l]].order)
  {
    if order != [] && people[order[0]].order < people[i].order {
      InsertedMeaning(people, order[1..], i);
      assert order == [order[0]] + order[1..];
      var rest := Inserted(people, order[1..], i);
      forall l | 0 <= l < |rest|
        ensures rest[l] != order[0] && people[order[0]].order <= people[rest[l]].order
      {
        assert rest[l] in rest;
      }
    }
  }

  lemma {:induction false} OrderUpTo(people: seq<Recipient>, n: nat) returns (order: seq<nat>)
    requires n <= |people|
    ensures InRows(people, order) && forall j: nat :: j in order <==> j < n
    ensures forall k, l :: 0 <= k < l < |order| ==> order[k] != order[l]
    ensures forall k, l :: 0 <= k < l < |order| ==> people[order[k]].order <= people[order[l]].order
  {
    if n == 0 {
      order := [];
    } else {
      var before := OrderUpTo(people, n - 1);
      InsertedMeaning(people, before, n - 1);
      order := Inserted(people, before, n - 1);
    }
  }

  lemma SomeOrder(people: seq<Recipient>) returns (order: seq<nat>)
    ensures IsInRoutingOrder(people, order)
  {
    order := OrderUpTo(people, |people|);
    forall k | 0 <= k < |order| ensures order[k] < |people| {
      assert order[k] in order;
    }
  }

  // ----- one job, undisturbed

  lemma RunTwo(w: World, a: Action, b: Action)
    ensures Run(w, [a, b]) == Step(Step(w, a), b)
  {
    hide Step;
    assert [a, b][1..] == [b] && [b][1..] == [];
    assert Run(w, [a, b]) == Run(Step(w, a), [b]);
  }

  lemma {:induction false} SendAll(w: World, job: nat) returns (actions: seq<Action>)
    requires job in w.jobs && w.jobs[job].at.Mailing?
    ensures var w', at := Run(w, actions), w.jobs[job].at;
            && w'.rows == w.rows && job in w'.jobs
            && w'.jobs[job] == Job(w.jobs[job].request, Mailing(at.pdf, at.certificate, []))
    decreases w.jobs[job].at.todo
  {
    if w.jobs[job].at.todo == [] {
      actions := [];
    } else {
      var rest := SendAll(Step(w, SendNext(job)), job);
      actions := [SendNext(job)] + rest;
      assert actions[1..] == rest;
    }
  }

  /** What is left of a job that holds the two files. */
  lemma DeliverAll(w: World, job: nat, now: int) returns (actions: seq<Action>)
    requires job in w.jobs && w.jobs[job].at.Delivering? && w.jobs[job].request in w.rows
    ensures var w', id := Run(w, actions), w.jobs[job].request;
            && id in w'.rows && w'.rows[id].emailedAt.Some?
            && w'.rows[id] == w.rows[id].(emailedAt := w'.rows[id].emailedAt)
  {
    hide Audience, Run;
    var id := w.jobs[job].request;
    var everyone := seq(|w.rows[id].life.env.people|, i requires 0 <= i < |w.rows[id].life.env.people| => i);
    Everyone(everyone);
    var mailing := Step(w, ReadAudience(job, everyone));
    var sending := SendAll(mailing, job);
    var last := Run(mailing, sending);
    actions := [ReadAudience(job, everyone)] + (sending + [MarkEmailed(job, now)]);
    OneThen(w, ReadAudience(job, everyone), sending + [MarkEmailed(job, now)]);
    CompletionSafety.RunConcat(mailing, sending, [MarkEmailed(job, now)]);
    OneThen(last, MarkEmailed(job, now), []);
    NothingThen(Step(last, MarkEmailed(job, now)));
    assert [MarkEmailed(job, now)] + [] == [MarkEmailed(job, now)];
  }

  lemma Everyone(everyone: seq<nat>)
    requires forall i :: 0 <= i < |everyone| ==> everyone[i] == i
    ensures IsEveryone(|everyone|, everyone)
  {
    forall i: nat | i < |everyone| ensures i in everyone {
      assert everyone[i] == i;
    }
  }

  lemma OneThen(w: World, a: Action, rest: seq<Action>)
    ensures Run(w, [a] + rest) == Run(Step(w, a), rest)
  {
    hide Step;
    assert ([a] + rest)[1..] == rest;
  }

  lemma NothingThen(w: World)
    ensures Run(w, []) == w
  {
  }

  /** A job on an envelope sealed before fetches what is on record. */
  lemma FetchesTheRecord(w: World, id: JsString, job: nat)
    requires Inv(w) && id in w.rows && w.rows[id].life.env.request.status == IsCompleted
    requires w.rows[id].columns != UNSEALED && w.rows[id].emailedAt.None? && job !in w.jobs
    ensures var w' := Step(Step(w, Begin(job, id)), Fetch(job));
            w'.rows == w.rows && job in w'.jobs && w'.jobs[job].request == id && w'.jobs[job].at.Delivering?
  {
    hide Inv;
    RecordIsThere(w, id);
  }

  lemma RecordIsThere(w: World, id: JsString)
    requires Inv(w) && id in w.rows && w.rows[id].life.env.request.status == IsCompleted
    requires w.rows[id].columns != UNSEALED
    ensures var c := w.rows[id].columns;
            && IsSealed(c) && c.pdfKey.value in w.store && c.certificateKey.value in w.store
            && w.rows[id].life.env.request.completedAt.Some?
  {
    hide IsDraftOf, IsServed, JobOk, MailOk;
    assert RowOk(w, id) && RecordOk(w, id);
    CompletedIsSigned(w.rows[id].life);
  }

  /** A job on an unsealed one drafts, stores and records. */
  lemma DraftsBoth(w: World, id: JsString, job: nat, order: seq<nat>, kid: string)
    requires Inv(w) && id in w.rows && w.rows[id].columns == UNSEALED
    requires IsSigned(w.rows[id].life.env) && job !in w.jobs && kid in w.ring
    requires IsInRoutingOrder(w.rows[id].life.env.people, order)
    requires PassesFor(w.rows[id].life.env.request, w.rows[id].life.env.people, order) != []
    ensures var w' := Step(Step(w, Begin(job, id)), DraftBoth(job, order, [], [], kid));
            && w'.rows == w.rows && w'.store == w.store && job in w'.jobs && w'.jobs[job].request == id
            && w'.jobs[job].at.Drafted? && w'.jobs[job].at.pdfKey.None? && w'.jobs[job].at.certificateKey.None?
  {
    hide Inv, PassesFor, IsInRoutingOrder, DraftOf;
  }

  lemma StoresAndRecords(w: World, id: JsString, job: nat, key: ObjectKey)
    requires job in w.jobs && w.jobs[job].request == id && id in w.rows && w.rows[id].columns == UNSEALED
    requires w.jobs[job].at.Drafted? && w.jobs[job].at.pdfKey.None? && w.jobs[job].at.certificateKey.None?
    requires key !in w.store && key + 1 !in w.store
    ensures var w' := Step(Step(Step(w, PutPdf(job, key)), PutCertificate(job, key + 1)), Record(job));
            && job in w'.jobs && w'.jobs[job].request == id && w'.jobs[job].at.Delivering?
            && id in w'.rows && IsSealed(w'.rows[id].columns) && w'.rows[id].life == w.rows[id].life
  {
  }

  /** In every state any number of jobs may have left behind, a completed envelope has a run that
      ends with it sealed and with everyone who is owed a copy served. */
  lemma CanAlwaysBeDelivered(w: World, id: JsString, kid: string, now: int) returns (actions: seq<Action>)
    requires CompletionSafety.IsReachable(w) && id in w.rows && kid in w.ring
    requires w.rows[id].life.env.request.status == IsCompleted
    ensures var w' := Run(w, actions);
            && id in w'.rows && IsSealed(w'.rows[id].columns) && w'.rows[id].emailedAt.Some?
            && forall address :: IsOwedACopy(w'.rows[id].life.env.people, w'.rows[id].sender, address) ==>
                 exists m :: m in w'.mails && m.request == id && Lower(m.to) == Lower(address)
  {
    hide Run, Step, Inv, CompletionSafety.IsReachable, PassesFor, IsInRoutingOrder, IsOwedACopy, Lower, IsSigned;
    CompletionSafety.ReachableIsOk(w);
    var row := w.rows[id];
    if row.emailedAt.Some? {
      actions := [];
      NothingThen(w);
    } else {
      var job := SigningStall.Above(w.jobs.Keys);
      var reached: World;
      if row.columns != UNSEALED {
        FetchesTheRecord(w, id, job);
        actions := [Begin(job, id), Fetch(job)];
        RunTwo(w, Begin(job, id), Fetch(job));
      } else {
        actions := SealsFirst(w, id, job, kid);
      }
      reached := Run(w, actions);
      var rest := DeliverAll(reached, job, now);
      CompletionSafety.RunConcat(w, actions, rest);
      actions := actions + rest;
    }
    var w' := Run(w, actions);
    CompletionSafety.RunStaysReachable(w, actions);
    EmailedIsSealed(w', id);
    forall address | IsOwedACopy(w'.rows[id].life.env.people, w'.rows[id].sender, address)
      ensures exists m :: m in w'.mails && m.request == id && Lower(m.to) == Lower(address)
    {
      CompletionSafety.EmailedMeansEveryone(w', id, address);
    }
  }

  lemma EmailedIsSealed(w: World, id: JsString)
    requires CompletionSafety.IsReachable(w) && id in w.rows && w.rows[id].emailedAt.Some?
    ensures IsSealed(w.rows[id].columns)
  {
    hide CompletionSafety.IsReachable, IsDraftOf, IsServed, JobOk, MailOk;
    CompletionSafety.ReachableIsOk(w);
    assert RowOk(w, id);
  }

  lemma SealsFirst(w: World, id: JsString, job: nat, kid: string) returns (actions: seq<Action>)
    requires CompletionSafety.IsReachable(w) && id in w.rows && kid in w.ring && job !in w.jobs
    requires w.rows[id].life.env.request.status == IsCompleted && w.rows[id].columns == UNSEALED
    ensures var w' := Run(w, actions);
            job in w'.jobs && w'.jobs[job].request == id && w'.jobs[job].at.Delivering? && id in w'.rows
  {
    hide Run, Step, Inv, CompletionSafety.IsReachable, PassesFor, IsInRoutingOrder, IsSigned;
    CompletionSafety.ReachableIsOk(w);
    CompletionJob.CompletedIsReady(w, id);
    var order := SomeOrder(w.rows[id].life.env.people);
    CompletionJob.SomethingToStamp(w.rows[id], w.store, order, w.rows[id].life.images);
    DraftsBoth(w, id, job, order, kid);
    var drafted := Step(Step(w, Begin(job, id)), DraftBoth(job, order, [], [], kid));
    var key := SigningStall.Above(w.store.Keys);
    StoresAndRecords(drafted, id, job, key);
    RunTwo(w, Begin(job, id), DraftBoth(job, order, [], [], kid));
    var store := [PutPdf(job, key)] + ([PutCertificate(job, key + 1)] + ([Record(job)] + []));
    OneThen(drafted, PutPdf(job, key), [PutCertificate(job, key + 1)] + ([Record(job)] + []));
    OneThen(Step(drafted, PutPdf(job, key)), PutCertificate(job, key + 1), [Record(job)] + []);
    OneThen(Step(Step(drafted, PutPdf(job, key)), PutCertificate(job, key + 1)), Record(job), []);
    NothingThen(Step(Step(Step(drafted, PutPdf(job, key)), PutCertificate(job, key + 1)), Record(job)));
    CompletionSafety.RunConcat(w, [Begin(job, id), DraftBoth(job, order, [], [], kid)], store);
    actions := [Begin(job, id), DraftBoth(job, order, [], [], kid)] + store;
  }

  // ----- and once it has been, it is left alone

  /** Sealed, marked as delivered, and no job at work on it. */
  predicate IsFinished(w: World, id: JsString) {
    && id in w.rows && w.rows[id].columns.pdfKey.Some? && w.rows[id].emailedAt.Some?
    && forall job :: job in w.jobs ==> w.jobs[job].request != id
  }

  lemma FinishedStep(w: World, a: Action, id: JsString)
    requires IsFinished(w, id)
    ensures IsFinished(Step(w, a), id)
    ensures |w.mails| <= |Step(w, a).mails|
    ensures forall k :: |w.mails| <= k < |Step(w, a).mails| ==> Step(w, a).mails[k].request != id
  {
    hide SigningRun.Step, DraftOf, PassesFor, Audience, IsInRoutingOrder, IsEveryone;
  }

  /** However often the queue repeats the job, nobody is mailed about a finished envelope again. */
  lemma {:induction false} FinishedIsLeftAlone(w: World, actions: seq<Action>, id: JsString)
    requires IsFinished(w, id)
    ensures var w' := Run(w, actions);
            && IsFinished(w', id) && |w.mails| <= |w'.mails|
            && (forall k :: |w.mails| <= k < |w'.mails| ==> w'.mails[k].request != id)
    decreases actions
  {
    hide Step, IsFinished;
    if actions != [] {
      FinishedStep(w, actions[0], id);
      FinishedIsLeftAlone(Step(w, actions[0]), actions[1..], id);
      RunGrows(Step(w, actions[0]), actions[1..]);
      StepGrows(w, actions[0]);
    }
  }
}
