/** The rows of one envelope, updated in place, one method per transaction
    (apps/api/src/modules/signing/signing.service.ts,
    apps/api/src/modules/signature-requests/signature-requests.service.ts and lifecycle.ts). */
module EnvelopeRows {
  import opened Wrappers
  import opened Envelope
  import FieldRules

  /** The loop of `assertSignersAreTagged`. */
  method AssertSignersAreTagged(people: seq<Invitee>, fields: seq<FieldRules.Field>) returns (untagged: Option<nat>)
    ensures untagged == FirstUntagged(people, fields, 0)
  {
    var tagged := set f | f in fields :: f.recipientKey;
    var i := 0;
    while i < |people|
      invariant i <= |people|
      invariant FirstUntagged(people, fields, 0) == FirstUntagged(people, fields, i)
    {
      if people[i].role == Signer && people[i].key !in tagged {
        return Some(i);
      }
      i := i + 1;
    }
    untagged := None;
  }

  class Rows {
    var request: Request
    var people: seq<Recipient>

    ghost function Value(): Envelope
      reads this
    {
      Envelope(request, people)
    }

    constructor (request: Request, people: seq<Recipient>)
      ensures Value() == Envelope(request, people)
    {
      this.request := request;
      this.people := people;
    }

    /** `send`: check the layout, mint a token for everyone whose turn it is, create the rows.
        Tokens are kept in a map by address, as the source keeps them. */
    static method Send(
        input: SendInput, fields: seq<FieldRules.Field>, now: int, ttl: int, minted: seq<TokenHash>)
      returns (created: Result<Rows, SendError>)
      requires IsValidInput(input) && |minted| == |input.people|
      ensures created.Ok? ==>
                fresh(created.value) && NewEnvelope(input, fields, now, ttl, minted) == Ok(created.value.Value())
      ensures created.Err? ==> NewEnvelope(input, fields, now, ttl, minted) == Err(created.error)
    {
      if fields == [] {
        return Err(NoFields);
      }
      var untagged := AssertSignersAreTagged(input.people, fields);
      if untagged.Some? {
        return Err(Untagged(untagged.value));
      }

      var firstOrder := input.people[0].order;
      for i := 1 to |input.people|
        invariant forall k :: 0 <= k < i ==> firstOrder <= input.people[k].order
        invariant exists k :: 0 <= k < i && input.people[k].order == firstOrder
      {
        if input.people[i].order < firstOrder {
          firstOrder := input.people[i].order;
        }
      }

      var tokens: map<string, TokenHash> := map[];
      for i := 0 to |input.people|
        invariant forall k :: 0 <= k < |input.people| ==>
                    (input.people[k].email in tokens <==> k < i && IsInvitedNow(input, k))
        invariant forall k :: 0 <= k < i && IsInvitedNow(input, k) ==> tokens[input.people[k].email] == minted[k]
      {
        var r := input.people[i];
        if (input.routing == Parallel || r.order == firstOrder) && r.role == Signer {
          tokens := tokens[r.email := minted[i]];
        }
      }

      var people: seq<Recipient> := [];
      for i := 0 to |input.people|
        invariant |people| == i
        invariant forall k :: 0 <= k < i ==> people[k] == NewRecipient(input, k, now, minted)
      {
        var r := input.people[i];
        var invited := (input.routing == Parallel || r.order == firstOrder) && r.role == Signer;
        people := people + [Recipient(
          r.email, r.role, r.order, r.key,
          if invited then Sent else Pending,
          if r.email in tokens then Some(tokens[r.email]) else None,
          if invited then Some(now) else None,
          None, None, None, None, 0, None, map[])];
      }
      assert people == NewPeople(input, now, minted);
      var rows := new Rows(Request(input.routing, fields, IsSent, now + ttl, None, None, None, None), people);
      created := Ok(rows);
    }

    /** The transaction of `view`. */
    method View(who: nat, now: int)
      requires who < |people|
      modifies this
      ensures Value() == RecordView(old(Value()), who, now)
    {
      if people[who].status == Sent {
        people := people[who := people[who].(status := Viewed, viewedAt := Some(now))];
      }
      if request.status == IsSent {
        request := request.(status := IsViewed, viewedAt := Some(now));
      }
    }

    /** The transaction of `consent`. */
    method Consent(who: nat, now: int)
      requires who < |people|
      modifies this`people
      ensures Value() == RecordConsent(old(Value()), who, now)
    {
      if IsOpen(people[who]) && people[who].consentAt.None? {
        people := people[who := people[who].(consentAt := Some(now))];
      }
    }

    /** The atomic claim of `submit`; `count` is the number of rows the update touched. */
    method Claim(who: nat, sig: Signature) returns (count: nat)
      modifies this`people
      ensures Value() == ClaimRow(old(Value()), who, sig)
      ensures count == (if CanClaim(old(Value()), who, sig.hash) then 1 else 0)
    {
      count := 0;
      if who < |people| && people[who].hash == Some(sig.hash) && IsOpen(people[who]) {
        people := people[who := people[who].(
          status := Completed, completedAt := Some(sig.now), image := Some(sig.image), values := sig.values)];
        count := 1;
      }
    }

    /** `advanceEnvelope`. */
    method AdvanceEnvelope(now: int, minted: seq<TokenHash>) returns (envelopeComplete: bool, invites: seq<nat>)
      requires |minted| == |people|
      modifies this
      ensures Value() == Advanced(old(Value()), now, minted)
      ensures envelopeComplete <==> AllSigned(old(people))
      ensures invites == Invites(old(Value()))
      ensures |people| == |old(people)|
      ensures forall i: nat :: i in invites
                <==> i < |people| && people[i].role == Signer
                     && old(people)[i].status == Pending && people[i].status == Sent
      ensures forall i :: i in invites ==> people[i].hash == Some(minted[i])
    {
      var every := EverySignerCompleted();
      if every {
        if IsLive(request) {
          request := request.(status := IsCompleted, completedAt := Some(now));
        }
        return true, [];
      }
      if request.routing != Sequential {
        return false, [];
      }
      var nextOrder := FindNextOrder();
      if nextOrder.None? {
        return false, [];
      }
      var earlierUnfinished := SomeoneStillSigningBefore(nextOrder.value);
      if earlierUnfinished {
        return false, [];
      }
      WaitingMeaning(people, nextOrder.value);
      invites := HandOff(nextOrder.value, now, minted);
      envelopeComplete := false;
    }

    /** `signers.every`. */
    method EverySignerCompleted() returns (every: bool)
      ensures every <==> AllSigned(people)
    {
      for i := 0 to |people|
        invariant forall k :: 0 <= k < i && people[k].role == Signer ==> people[k].status == Completed
      {
        if people[i].role == Signer && people[i].status != Completed {
          return false;
        }
      }
      every := true;
    }

    /** `Math.min` over the waiting recipients. */
    method FindNextOrder() returns (order: Option<int>)
      ensures order == NextOrder(people)
    {
      order := None;
      for i := 0 to |people|
        invariant order == NextOrder(people[..i])
      {
        assert people[..i + 1][..i] == people[..i];
        if people[i].status == Pending && (order.None? || people[i].order < order.value) {
          order := Some(people[i].order);
        }
      }
      assert people[..|people|] == people;
    }

    /** `recipients.some` over the earlier groups. */
    method SomeoneStillSigningBefore(order: int) returns (some: bool)
      ensures some <==> EarlierUnfinished(people, order)
    {
      for i := 0 to |people|
        invariant forall k :: 0 <= k < i ==> !(IsUnfinished(people[k]) && people[k].order < order)
      {
        if IsUnfinished(people[i]) && people[i].order < order {
          return true;
        }
      }
      some := false;
    }

    /** The loop that hands the envelope to one group: a cc becomes active, a signer gets a link. */
    method HandOff(order: int, now: int, minted: seq<TokenHash>) returns (invites: seq<nat>)
      requires |minted| == |people|
      modifies this`people
      ensures people == PromotedGroup(old(people), order, now, minted)
      ensures invites == WaitingSigners(old(people), order)
    {
      ghost var was := people;
      invites := [];
      for i := 0 to |people|
        invariant |people| == |was|
        invariant forall k :: 0 <= k < i ==> people[k] == Promoted(was[k], order, now, minted[k])
        invariant forall k :: i <= k < |was| ==> people[k] == was[k]
        invariant invites == WaitingSigners(was[..i], order)
      {
        assert was[..i + 1][..i] == was[..i];
        var r := people[i];
        if r.status != Pending || r.order != order {
          continue;
        }
        if r.role != Signer {
          people := people[i := r.(status := Sent, sentAt := Some(now))];
          continue;
        }
        people := people[i := r.(status := Sent, sentAt := Some(now), hash := Some(minted[i]))];
        invites := invites + [i];
      }
      assert was[..|was|] == was;
    }

    /** The transaction of `void`. */
    method Void(now: int) returns (error: Option<ActionError>)
      modifies this
      ensures match Voided(old(Value()), now)
              case Ok(e) => error.None? && Value() == e
              case Err(x) => error == Some(x) && Value() == old(Value())
    {
      if request.status == IsCompleted {
        return Some(AlreadySigned);
      }
      if request.status == IsVoided {
        return None;
      }
      request := request.(status := IsVoided, voidedAt := Some(now));
      ClearHashes();
      error := None;
    }

    /** The bulk update both `void` and the expiry sweep make. */
    method ClearHashes()
      modifies this`people
      ensures people == Unlinked(old(people))
    {
      ghost var was := people;
      for i := 0 to |people|
        invariant |people| == |was|
        invariant forall k :: 0 <= k < i ==> people[k] == WithoutHash(was[k])
        invariant forall k :: i <= k < |was| ==> people[k] == was[k]
      {
        if people[i].status == Pending || IsOpen(people[i]) {
          people := people[i := people[i].(hash := None)];
        }
      }
    }

    /** The transaction of `resend`. */
    method Resend(who: nat, now: int, minted: TokenHash) returns (error: Option<ActionError>)
      modifies this`people
      ensures match Resent(old(Value()), who, now, minted)
              case Ok(e) => error.None? && Value() == e
              case Err(x) => error == Some(x) && Value() == old(Value())
    {
      if !IsLive(request) {
        return Some(NotAwaiting);
      }
      if who >= |people| {
        return Some(NotFound);
      }
      var rc := people[who];
      if rc.role != Signer {
        return Some(DoesNotSign);
      }
      if rc.status == Completed {
        return Some(AlreadySigned);
      }
      if rc.status == Pending {
        return Some(NotTheirTurn);
      }
      var since := if rc.sentAt.Some? then rc.sentAt else rc.lastRemindedAt;
      if since.Some? && now - since.value < RESEND_COOLDOWN_MS {
        return Some(TooSoon);
      }
      people := people[who := rc.(hash := Some(minted), sentAt := Some(now), status := Sent)];
      error := None;
    }

    /** The transaction of `sweepExpiredEnvelopes`; `alreadyTold` keeps the sender's notice to one. */
    method Expire(now: int) returns (alreadyTold: bool)
      modifies this
      ensures Value() == Expired(old(Value()), now)
      ensures alreadyTold <==> old(request.expiredNotifiedAt).Some?
    {
      alreadyTold := request.expiredNotifiedAt.Some?;
      if IsLive(request) {
        request := request.(status := IsExpired);
      }
      ClearHashes();
      if !alreadyTold {
        request := request.(expiredNotifiedAt := Some(now));
      }
    }

    /** The transaction of `sweepReminders`. */
    method Remind(who: nat, now: int, minted: TokenHash) returns (reminded: bool)
      modifies this`people
      ensures Value() == Reminded(old(Value()), who, now, minted)
      ensures reminded <==> who < |old(people)| && old(people)[who].status != Completed
    {
      if who >= |people| || people[who].status == Completed {
        return false;
      }
      var rc := people[who];
      people := people[who := rc.(
        hash := Some(minted), lastRemindedAt := Some(now), reminderCount := rc.reminderCount + 1)];
      reminded := true;
    }
  }
}
