/** An envelope, its people, and what each database transaction does to them.

    Every function below is one transaction callback of the sources: it is given the rows as
    they are and says what the rows become. The rows themselves, updated in place, are the
    class of EnvelopeRows.dfy. A person is identified by an index into `people`; a token is
    identified by its hash. */
module Envelope {
  import opened Wrappers
  import FieldRules
  import FieldValues

  type TokenHash = nat

  type ObjectKey = nat

  datatype Role = Signer | Cc

  datatype Status = Pending | Sent | Viewed | Completed

  datatype Recipient = Recipient(
    email: string, role: Role, order: int, key: string, status: Status, hash: Option<TokenHash>,
    sentAt: Option<int>, viewedAt: Option<int>, consentAt: Option<int>, completedAt: Option<int>,
    lastRemindedAt: Option<int>, reminderCount: nat,
    image: Option<ObjectKey>, values: FieldValues.Values)

  datatype Routing = Parallel | Sequential

  datatype RequestStatus = IsSent | IsViewed | IsCompleted | IsVoided | IsExpired

  datatype Request = Request(
    routing: Routing, fields: seq<FieldRules.Field>, status: RequestStatus, expiresAt: int,
    viewedAt: Option<int>, completedAt: Option<int>, voidedAt: Option<int>, expiredNotifiedAt: Option<int>)

  datatype Envelope = Envelope(request: Request, people: seq<Recipient>)

  // ----- reading the rows

  predicate IsLive(q: Request) {
    q.status == IsSent || q.status == IsViewed
  }

  predicate IsRetired(q: Request) {
    q.status == IsVoided || q.status == IsExpired
  }

  /** Invited and not finished: the only person a claim may flip. */
  predicate IsOpen(r: Recipient) {
    r.status == Sent || r.status == Viewed
  }

  predicate IsUnfinished(r: Recipient) {
    r.role == Signer && r.status != Completed
  }

  predicate AllSigned(people: seq<Recipient>) {
    forall i :: 0 <= i < |people| && people[i].role == Signer ==> people[i].status == Completed
  }

  /** The fields one person fills. */
  function FieldsOf(q: Request, key: string): seq<FieldRules.Field> {
    FieldsWithKey(q.fields, key)
  }

  function FieldsWithKey(fields: seq<FieldRules.Field>, key: string): seq<FieldRules.Field> {
    if fields == [] then []
    else (if fields[0].recipientKey == key then [fields[0]] else []) + FieldsWithKey(fields[1..], key)
  }

  /** How many of the first `n` fields have this key. */
  function OwnedBefore(all: seq<FieldRules.Field>, key: string, n: nat): (k: nat)
    requires n <= |all|
    ensures k <= n
  {
    if n == 0 then 0 else OwnedBefore(all, key, n - 1) + (if all[n - 1].recipientKey == key then 1 else 0)
  }

  /** `picked` is what `all` holds with this key, in the same order. */
  predicate IsSelection(all: seq<FieldRules.Field>, key: string, picked: seq<FieldRules.Field>) {
    && |picked| == OwnedBefore(all, key, |all|)
    && forall i :: 0 <= i < |all| && all[i].recipientKey == key ==>
         OwnedBefore(all, key, i) < |picked| && picked[OwnedBefore(all, key, i)] == all[i]
  }

  lemma {:induction false} OwnedAfterFirst(all: seq<FieldRules.Field>, key: string, n: nat)
    requires 0 < n <= |all|
    ensures OwnedBefore(all, key, n)
         == OwnedBefore(all[1..], key, n - 1) + (if all[0].recipientKey == key then 1 else 0)
  {
    if n > 1 {
      OwnedAfterFirst(all, key, n - 1);
      assert all[1..][n - 2] == all[n - 1];
    }
  }

  lemma {:induction false} KeyedAreSelected(fields: seq<FieldRules.Field>, key: string)
    ensures IsSelection(fields, key, FieldsWithKey(fields, key))
  {
    hide OwnedBefore;
    if fields == [] {
      NothingOwned(fields, key);
    } else {
      var rest := fields[1..];
      KeyedAreSelected(rest, key);
      OwnedAfterFirst(fields, key, |fields|);
      NothingOwned(fields, key);
      forall i | 0 < i < |fields| && fields[i].recipientKey == key
        ensures OwnedBefore(fields, key, i) < |FieldsWithKey(fields, key)|
        ensures FieldsWithKey(fields, key)[OwnedBefore(fields, key, i)] == fields[i]
      {
        OwnedAfterFirst(fields, key, i);
        assert rest[i - 1] == fields[i];
      }
    }
  }

  lemma NothingOwned(all: seq<FieldRules.Field>, key: string)
    ensures OwnedBefore(all, key, 0) == 0
  {
  }

  /** The fields somebody fills are exactly those the sender gave them, in layout order. */
  lemma FieldsOfMeaning(q: Request, key: string)
    ensures IsSelection(q.fields, key, FieldsOf(q, key))
  {
    KeyedAreSelected(q.fields, key);
  }

  /** `resolve_signing_token`: the first person whose row holds this hash. */
  function HolderOf(people: seq<Recipient>, h: TokenHash): (who: Option<nat>)
    ensures who.Some? ==> who.value < |people| && people[who.value].hash == Some(h)
    ensures who.None? ==> forall i :: 0 <= i < |people| ==> people[i].hash != Some(h)
  {
    HolderFrom(people, h, 0)
  }

  function HolderFrom(people: seq<Recipient>, h: TokenHash, from: nat): (who: Option<nat>)
    requires from <= |people|
    ensures who.Some? ==> who.value < |people| && people[who.value].hash == Some(h)
    ensures who.None? ==> forall i :: from <= i < |people| ==> people[i].hash != Some(h)
    decreases |people| - from
  {
    if from == |people| then None
    else if people[from].hash == Some(h) then Some(from)
    else HolderFrom(people, h, from + 1)
  }

  // ----- send

  datatype Invitee = Invitee(email: string, role: Role, order: int, key: string)

  datatype SendInput = SendInput(routing: Routing, people: seq<Invitee>)

  datatype SendError = NoFields | Untagged(who: nat)

  /** What the request schema guarantees: somebody signs, and no address appears twice. */
  predicate IsValidInput(input: SendInput) {
    && (exists i :: 0 <= i < |input.people| && input.people[i].role == Signer)
    && (forall i, j :: 0 <= i < j < |input.people| ==> input.people[i].email != input.people[j].email)
  }

  predicate HasFields(fields: seq<FieldRules.Field>, key: string) {
    exists f :: f in fields && f.recipientKey == key
  }

  /** `assertSignersAreTagged`: the first signer who owns no field, if any. */
  function FirstUntagged(people: seq<Invitee>, fields: seq<FieldRules.Field>, from: nat): (who: Option<nat>)
    requires from <= |people|
    ensures who.Some? ==>
              from <= who.value < |people| && people[who.value].role == Signer
              && !HasFields(fields, people[who.value].key)
    ensures who.None? ==>
              forall i :: from <= i < |people| && people[i].role == Signer ==> HasFields(fields, people[i].key)
    decreases |people| - from
  {
    if from == |people| then None
    else if people[from].role == Signer && !HasFields(fields, people[from].key) then Some(from)
    else FirstUntagged(people, fields, from + 1)
  }

  predicate IsFirstGroup(people: seq<Invitee>, order: int) {
    forall i :: 0 <= i < |people| ==> order <= people[i].order
  }

  predicate IsInvitedNow(input: SendInput, who: nat)
    requires who < |input.people|
  {
    && input.people[who].role == Signer
    && (input.routing == Parallel || IsFirstGroup(input.people, input.people[who].order))
  }

  function NewRecipient(input: SendInput, who: nat, now: int, minted: seq<TokenHash>): Recipient
    requires who < |input.people| == |minted|
  {
    var p, invited := input.people[who], IsInvitedNow(input, who);
    Recipient(p.email, p.role, p.order, p.key,
              if invited then Sent else Pending,
              if invited then Some(minted[who]) else None,
              if invited then Some(now) else None,
              None, None, None, None, 0, None, map[])
  }

  function NewPeople(input: SendInput, now: int, minted: seq<TokenHash>): (people: seq<Recipient>)
    requires |input.people| == |minted|
    ensures |people| == |input.people|
    ensures forall i :: 0 <= i < |people| ==> people[i] == NewRecipient(input, i, now, minted)
  {
    seq(|input.people|, i requires 0 <= i < |input.people| => NewRecipient(input, i, now, minted))
  }

  /** The rows a send creates, or the refusal. `minted[i]` is the token minted for person `i`
      should they be invited. */
  function NewEnvelope(
      input: SendInput, fields: seq<FieldRules.Field>, now: int, ttl: int, minted: seq<TokenHash>)
    : Result<Envelope, SendError>
    requires |minted| == |input.people|
  {
    if fields == [] then Err(NoFields)
    else match FirstUntagged(input.people, fields, 0)
      case Some(who) => Err(Untagged(who))
      case None =>
        Ok(Envelope(
             Request(input.routing, fields, IsSent, now + ttl, None, None, None, None),
             NewPeople(input, now, minted)))
  }

  /** A send goes through if and only if there is a layout and every signer owns a field in it.
      Then everybody has a row; the signers of the first group, or of all groups in parallel
      routing, are invited at once with the link minted for them, and nobody else has a link. */
  lemma SendMeaning(
      input: SendInput, fields: seq<FieldRules.Field>, now: int, ttl: int, minted: seq<TokenHash>)
    requires |minted| == |input.people|
    ensures var sent := NewEnvelope(input, fields, now, ttl, minted);
            && (sent.Ok? <==>
                  fields != [] && forall i :: 0 <= i < |input.people| && input.people[i].role == Signer ==>
                                    exists f :: f in fields && f.recipientKey == input.people[i].key)
            && (sent.Ok? ==>
                  var q, people := sent.value.request, sent.value.people;
                  && q.routing == input.routing && q.fields == fields && q.status == IsSent
                  && q.expiresAt == now + ttl && q.completedAt.None?
                  && |people| == |input.people|
                  && forall i :: 0 <= i < |people| ==>
                       var p, r := input.people[i], people[i];
                       && r.email == p.email && r.role == p.role && r.order == p.order && r.key == p.key
                       && r.viewedAt.None? && r.consentAt.None? && r.completedAt.None? && r.image.None?
                       && if p.role == Signer && (input.routing == Parallel
                                                  || forall j :: 0 <= j < |people| ==> p.order <= input.people[j].order)
                          then r.status == Sent && r.hash == Some(minted[i]) && r.sentAt == Some(now)
                          else r.status == Pending && r.hash.None? && r.sentAt.None?)
  {
    hide FirstUntagged;
    if fields != [] && FirstUntagged(input.people, fields, 0).Some? {
      var who := FirstUntagged(input.people, fields, 0).value;
      assert !HasFields(fields, input.people[who].key);
    }
    if fields != [] && FirstUntagged(input.people, fields, 0).None? {
      forall i | 0 <= i < |input.people| && input.people[i].role == Signer
        ensures exists f :: f in fields && f.recipientKey == input.people[i].key
      {
        assert HasFields(fields, input.people[i].key);
      }
    }
  }

  // ----- the ceremony

  /** The first view, by anyone, moves the person and then the envelope. */
  function RecordView(e: Envelope, who: nat, now: int): Envelope
    requires who < |e.people|
  {
    var r, q := e.people[who], e.request;
    Envelope(
      if q.status == IsSent then q.(status := IsViewed, viewedAt := Some(now)) else q,
      if r.status == Sent then e.people[who := r.(status := Viewed, viewedAt := Some(now))] else e.people)
  }

  function RecordConsent(e: Envelope, who: nat, now: int): Envelope
    requires who < |e.people|
  {
    var r := e.people[who];
    if IsOpen(r) && r.consentAt.None? then e.(people := e.people[who := r.(consentAt := Some(now))]) else e
  }

  datatype Signature = Signature(hash: TokenHash, now: int, image: ObjectKey, values: FieldValues.Values)

  /** The WHERE of the conditional update is the check. */
  predicate CanClaim(e: Envelope, who: nat, h: TokenHash) {
    who < |e.people| && e.people[who].hash == Some(h) && IsOpen(e.people[who])
  }

  function ClaimRow(e: Envelope, who: nat, sig: Signature): Envelope {
    if CanClaim(e, who, sig.hash) then
      e.(people := e.people[who := e.people[who].(
          status := Completed, completedAt := Some(sig.now), image := Some(sig.image), values := sig.values)])
    else e
  }

  // ----- advancing the envelope

  /** The lowest routing order that still has someone waiting. */
  function NextOrder(people: seq<Recipient>): (order: Option<int>)
    ensures order.None? <==> forall i :: 0 <= i < |people| ==> people[i].status != Pending
    ensures order.Some? ==>
              && (exists i :: 0 <= i < |people| && people[i].status == Pending && people[i].order == order.value)
              && (forall i :: 0 <= i < |people| && people[i].status == Pending ==> order.value <= people[i].order)
  {
    if people == [] then None
    else
      var n, before := |people| - 1, NextOrder(people[..|people| - 1]);
      assert people == people[..n] + [people[n]];
      if people[n].status == Pending && (before.None? || people[n].order < before.value)
      then Some(people[n].order)
      else before
  }

  predicate EarlierUnfinished(people: seq<Recipient>, order: int) {
    exists i :: 0 <= i < |people| && IsUnfinished(people[i]) && people[i].order < order
  }

  /** The group that is handed the envelope now, if any. */
  function Handoff(e: Envelope): Option<int> {
    if e.request.routing != Sequential then None
    else
      var next := NextOrder(e.people);
      if next.Some? && !EarlierUnfinished(e.people, next.value) then next else None
  }

  function Promoted(r: Recipient, order: int, now: int, minted: TokenHash): Recipient {
    if r.status != Pending || r.order != order then r
    else if r.role == Signer then r.(status := Sent, sentAt := Some(now), hash := Some(minted))
    else r.(status := Sent, sentAt := Some(now))
  }

  function PromotedGroup(people: seq<Recipient>, order: int, now: int, minted: seq<TokenHash>)
    : (promoted: seq<Recipient>)
    requires |minted| == |people|
    ensures |promoted| == |people|
    ensures forall i :: 0 <= i < |people| ==> promoted[i] == Promoted(people[i], order, now, minted[i])
  {
    seq(|people|, i requires 0 <= i < |people| => Promoted(people[i], order, now, minted[i]))
  }

  /** What the rows become when somebody has just finished. `minted[i]` is the token minted for
      person `i` should their turn come. */
  function Advanced(e: Envelope, now: int, minted: seq<TokenHash>): Envelope
    requires |minted| == |e.people|
  {
    if AllSigned(e.people) then
      if IsLive(e.request) then e.(request := e.request.(status := IsCompleted, completedAt := Some(now))) else e
    else match Handoff(e)
      case None => e
      case Some(order) =>
        e.(people := PromotedGroup(e.people, order, now, minted))
  }

  /** The people an advance mints a link for, in row order. */
  function Invites(e: Envelope): seq<nat> {
    if AllSigned(e.people) || Handoff(e).None? then [] else WaitingSigners(e.people, Handoff(e).value)
  }

  function WaitingSigners(people: seq<Recipient>, order: int): seq<nat> {
    if people == [] then []
    else
      var n := |people| - 1;
      WaitingSigners(people[..n], order)
      + (if people[n].status == Pending && people[n].order == order && people[n].role == Signer then [n] else [])
  }

  /** Somebody waiting whose turn it is: nobody waits at a lower order, and no signer of a lower
      order has still to sign. */
  predicate IsNext(e: Envelope, i: nat)
    requires i < |e.people|
  {
    && !AllSigned(e.people) && e.request.routing == Sequential && e.people[i].status == Pending
    && (forall j :: 0 <= j < |e.people| && e.people[j].order < e.people[i].order ==>
          e.people[j].status != Pending && !IsUnfinished(e.people[j]))
  }

  lemma NextIsHandedOff(e: Envelope, i: nat)
    requires i < |e.people|
    ensures IsNext(e, i)
       <==> !AllSigned(e.people) && e.people[i].status == Pending && Handoff(e) == Some(e.people[i].order)
  {
    if IsNext(e, i) {
      var next := NextOrder(e.people);
      assert next == Some(e.people[i].order);
      assert !EarlierUnfinished(e.people, next.value);
    }
  }

  /** An advance completes an envelope everybody has signed, once; otherwise everyone whose turn
      it is, and nobody else, is handed the envelope, each signer with the link minted for them. */
  lemma AdvanceMeaning(e: Envelope, now: int, minted: seq<TokenHash>, i: nat)
    requires |minted| == |e.people| && i < |e.people|
    ensures var e' := Advanced(e, now, minted);
            && |e'.people| == |e.people|
            && e'.request == (if AllSigned(e.people) && IsLive(e.request)
                              then e.request.(status := IsCompleted, completedAt := Some(now)) else e.request)
            && var r, r' := e.people[i], e'.people[i];
            && (!IsNext(e, i) ==> r' == r)
            && (IsNext(e, i) && r.role == Cc ==> r' == r.(status := Sent, sentAt := Some(now)))
            && (IsNext(e, i) && r.role == Signer ==>
                  r' == r.(status := Sent, sentAt := Some(now), hash := Some(minted[i])))
  {
    hide NextOrder, EarlierUnfinished, AllSigned, IsNext, Handoff;
    NextIsHandedOff(e, i);
  }

  lemma {:induction false} WaitingMeaning(people: seq<Recipient>, order: int)
    ensures var waiting := WaitingSigners(people, order);
            && (forall i: nat :: i in waiting
                  <==> i < |people| && people[i].status == Pending && people[i].order == order
                       && people[i].role == Signer)
            && (forall k, l :: 0 <= k < l < |waiting| ==> waiting[k] < waiting[l])
  {
    if people != [] {
      var n := |people| - 1;
      WaitingMeaning(people[..n], order);
      forall k | 0 <= k < |WaitingSigners(people[..n], order)| ensures WaitingSigners(people[..n], order)[k] < n {
        assert WaitingSigners(people[..n], order)[k] in WaitingSigners(people[..n], order);
      }
    }
  }

  /** The people an advance mails are exactly those who hold one of its links afterwards, each
      once and in row order. */
  lemma InvitesMeaning(e: Envelope, now: int, minted: seq<TokenHash>)
    requires |minted| == |e.people|
    requires forall i :: 0 <= i < |e.people| ==> e.people[i].hash != Some(minted[i])
    ensures var e', invites := Advanced(e, now, minted), Invites(e);
            && |e'.people| == |e.people|
            && (forall i: nat :: i in invites <==> i < |e.people| && e'.people[i].hash == Some(minted[i]))
            && (forall k, l :: 0 <= k < l < |invites| ==> invites[k] < invites[l])
  {
    hide Advanced, IsNext, Handoff, AllSigned;
    if !AllSigned(e.people) && Handoff(e).Some? {
      WaitingMeaning(e.people, Handoff(e).value);
    }
    assert forall i :: i in Invites(e) ==> i < |e.people|;
    AdvanceKeepsCount(e, now, minted);
    forall i: nat | i < |e.people|
      ensures i in Invites(e) <==> Advanced(e, now, minted).people[i].hash == Some(minted[i])
    {
      AdvanceMeaning(e, now, minted, i);
      NextIsHandedOff(e, i);
    }
  }

  lemma AdvanceKeepsCount(e: Envelope, now: int, minted: seq<TokenHash>)
    requires |minted| == |e.people|
    ensures |Advanced(e, now, minted).people| == |e.people|
  {
    hide Handoff, AllSigned;
  }

  // ----- the sender's actions

  function WithoutHash(r: Recipient): Recipient {
    if r.status == Completed then r else r.(hash := None)
  }

  function Unlinked(people: seq<Recipient>): (unlinked: seq<Recipient>)
    ensures |unlinked| == |people|
    ensures forall i :: 0 <= i < |people| ==> unlinked[i] == WithoutHash(people[i])
  {
    seq(|people|, i requires 0 <= i < |people| => WithoutHash(people[i]))
  }

  datatype ActionError = AlreadySigned | NotAwaiting | NotFound | DoesNotSign | NotTheirTurn | TooSoon

  function Voided(e: Envelope, now: int): Result<Envelope, ActionError> {
    if e.request.status == IsCompleted then Err(AlreadySigned)
    else if e.request.status == IsVoided then Ok(e)
    else Ok(Envelope(e.request.(status := IsVoided, voidedAt := Some(now)), Unlinked(e.people)))
  }

  const RESEND_COOLDOWN_MS := 60_000

  function Resent(e: Envelope, who: nat, now: int, minted: TokenHash): Result<Envelope, ActionError> {
    if !IsLive(e.request) then Err(NotAwaiting)
    else if who >= |e.people| then Err(NotFound)
    else
      var r := e.people[who];
      var since := if r.sentAt.Some? then r.sentAt else r.lastRemindedAt;
      if r.role != Signer then Err(DoesNotSign)
      else if r.status == Completed then Err(AlreadySigned)
      else if r.status == Pending then Err(NotTheirTurn)
      else if since.Some? && now - since.value < RESEND_COOLDOWN_MS then Err(TooSoon)
      else Ok(e.(people := e.people[who := r.(hash := Some(minted), sentAt := Some(now), status := Sent)]))
  }

  // ----- the sweeps

  /** `find_expired_envelopes` returns this envelope. */
  predicate IsPastExpiry(e: Envelope, now: int) {
    IsLive(e.request) && e.request.expiresAt <= now
  }

  function Expired(e: Envelope, now: int): Envelope {
    var q := if IsLive(e.request) then e.request.(status := IsExpired) else e.request;
    Envelope(if q.expiredNotifiedAt.None? then q.(expiredNotifiedAt := Some(now)) else q, Unlinked(e.people))
  }

  /** `find_recipients_to_remind` may return this person: the delay and the cap, which only
      make it return fewer, are left out. */
  predicate MayRemind(e: Envelope, who: nat, now: int) {
    && who < |e.people| && e.people[who].role == Signer && IsOpen(e.people[who])
    && e.people[who].hash.Some? && IsLive(e.request) && now < e.request.expiresAt
  }

  /** The reminder's own transaction re-checks nothing but that the person has not signed. */
  function Reminded(e: Envelope, who: nat, now: int, minted: TokenHash): Envelope {
    if who >= |e.people| || e.people[who].status == Completed then e
    else
      var r := e.people[who];
      e.(people := e.people[who := r.(
          hash := Some(minted), lastRemindedAt := Some(now), reminderCount := r.reminderCount + 1)])
  }
}
