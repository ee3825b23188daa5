/** The other half of sequential progress: an envelope whose routing leaves a cc uncovered does
    stall, in a run in which nothing fails, and a stalled envelope can never be signed. */
module SigningStall {
  import opened Wrappers
  import opened Envelope
  import opened SigningRun
  import opened SigningInvariant
  import opened SigningSafety
  import opened SigningProgress
  import FieldRules
  import FieldValues

  // ----- runs spelled out

  lemma RunFour(s: State, a: Action, b: Action, c: Action, d: Action)
    ensures Run(s, [a, b, c, d]) == Step(Step(Step(Step(s, a), b), c), d)
  {
    hide Step;
    var s1, s2, s3 := Step(s, a), Step(Step(s, a), b), Step(Step(Step(s, a), b), c);
    assert [a, b, c, d][1..] == [b, c, d] && [b, c, d][1..] == [c, d] && [c, d][1..] == [d] && [d][1..] == [];
    assert Run(s, [a, b, c, d]) == Run(s1, [b, c, d]) == Run(s2, [c, d]) == Run(s3, [d]);
  }

  lemma RunTwo(s: State, a: Action, b: Action)
    ensures Run(s, [a, b]) == Step(Step(s, a), b)
  {
    hide Step;
    assert [a, b][1..] == [b] && [b][1..] == [];
    assert Run(s, [a, b]) == Run(Step(s, a), [b]);
  }

  // ----- one person's whole ceremony, undisturbed

  predicate IsIdle(s: State) {
    s.tasks == map[] && !s.lost && IsLive(s.env.request) && s.clock < s.env.request.expiresAt
  }

  predicate HoldsLink(s: State, who: nat, h: TokenHash) {
    && who < |s.env.people| && s.env.people[who].role == Signer
    && IsOpen(s.env.people[who]) && s.env.people[who].hash == Some(h)
  }

  lemma LinkResolves(s: State, who: nat, h: TokenHash)
    requires Inv(s) && HoldsLink(s, who, h)
    ensures HolderOf(s.env.people, h) == Some(who)
  {
    hide FieldValues.FormComplete, RoutingOk, TasksOk, ClaimsOk, RequestOk, HolderFrom;
    var found := HolderOf(s.env.people, h).value;
    assert PersonOk(s, who);
    assert PersonOk(s, found);
  }

  /** Presenting a live link gets as far as `loadForToken` returns. */
  lemma LoadSucceeds(s: State, intent: Intent, who: nat, h: TokenHash)
    requires Inv(s) && IsIdle(s) && HoldsLink(s, who, h)
    ensures Step(Step(Step(s, Present(0, intent, h)), ReadRequest(0)), ReadPerson(0))
         == s.(tasks := map[0 := Task(intent, h, who, Loaded(s.env.people[who].status, s.env.people[who].consentAt))])
  {
    hide Inv, HolderFrom, HolderOf;
    LinkResolves(s, who, h);
    var s1 := Step(s, Present(0, intent, h));
    assert s1 == s.(tasks := map[0 := Task(intent, h, who, Resolved)]);
    var s2 := Step(s1, ReadRequest(0));
    assert s2 == s.(tasks := map[0 := Task(intent, h, who, RequestRead)]);
  }

  /** A ceremony's consent leaves nothing but the consent behind. */
  lemma ConsentRun(s: State, who: nat, h: TokenHash)
    requires Inv(s) && IsIdle(s) && HoldsLink(s, who, h)
    ensures Run(s, [Present(0, ToConsent, h), ReadRequest(0), ReadPerson(0), WriteConsent(0, s.clock)])
         == s.(env := RecordConsent(s.env, who, s.clock))
  {
    hide Inv;
    RunFour(s, Present(0, ToConsent, h), ReadRequest(0), ReadPerson(0), WriteConsent(0, s.clock));
    LoadSucceeds(s, ToConsent, who, h);
    ConsentStep(s, who, h);
  }

  lemma ConsentStep(s: State, who: nat, h: TokenHash)
    requires IsIdle(s) && HoldsLink(s, who, h)
    ensures Step(s.(tasks := map[0 := Task(ToConsent, h, who,
                                           Loaded(s.env.people[who].status, s.env.people[who].consentAt))]),
                 WriteConsent(0, s.clock))
         == s.(env := RecordConsent(s.env, who, s.clock))
  {
    var r := s.env.people[who];
    var loaded := s.(tasks := map[0 := Task(ToConsent, h, who, Loaded(r.status, r.consentAt))]);
    assert Drop(loaded, 0) == s by {
      assert loaded.tasks - {0} == map[];
    }
  }

  /** Somebody can fill every field the sender gave this person. */
  ghost predicate CanBeFilled(fields: seq<FieldRules.Field>) {
    exists client :: IsFilledBy(fields, client)
  }

  predicate IsFilledBy(fields: seq<FieldRules.Field>, client: FieldValues.Values) {
    forall f :: f in fields ==> !FieldValues.LeavesMissing(f, client) && !FieldValues.LeavesInvalid(f, client)
  }

  lemma FilledIsAccepted(fields: seq<FieldRules.Field>, client: FieldValues.Values, now: int)
    requires IsFilledBy(fields, client)
    ensures FieldValues.Resolve(fields, client, now).missingRequired == []
    ensures FieldValues.Resolve(fields, client, now).invalid == []
  {
    hide FieldValues.LeavesMissing, FieldValues.LeavesInvalid, FieldValues.Resolve;
    FieldValues.RefusalMeaning(fields, client, now);
    var r := FieldValues.Resolve(fields, client, now);
    HasMember(r.missingRequired);
    HasMember(r.invalid);
  }

  lemma HasMember(ids: seq<string>)
    ensures ids != [] ==> exists id :: id in ids
  {
    if ids != [] {
      assert ids[0] in ids;
    }
  }

  function SignatureFor(s: State, who: nat, h: TokenHash, client: FieldValues.Values, image: ObjectKey): Signature
    requires who < |s.env.people|
  {
    Signature(h, s.clock, image,
              FieldValues.Resolve(FieldsOf(s.env.request, s.env.people[who].key), client, s.clock).values)
  }

  /** A submit that has done everything but claim. */
  function Prepared(s: State, intent: Intent, who: nat, sig: Signature): State {
    s.(tasks := map[0 := Task(intent, sig.hash, who, Ready(sig))], images := s.images + {sig.image})
  }

  lemma PrepareStep(s: State, who: nat, h: TokenHash, client: FieldValues.Values, image: ObjectKey)
    requires HoldsLink(s, who, h) && s.env.people[who].consentAt.Some? && image !in s.images
    requires IsFilledBy(FieldsOf(s.env.request, s.env.people[who].key), client)
    ensures Step(s.(tasks := map[0 := Task(ToSubmit(true, client), h, who,
                                           Loaded(s.env.people[who].status, s.env.people[who].consentAt))]),
                 Prepare(0, image))
         == Prepared(s, ToSubmit(true, client), who, SignatureFor(s, who, h, client, image))
  {
    hide FieldValues.Resolve, IsFilledBy, HolderOf, FieldsOf;
    FilledIsAccepted(FieldsOf(s.env.request, s.env.people[who].key), client, s.clock);
  }

  lemma SubmitLoads(s: State, who: nat, h: TokenHash, client: FieldValues.Values, image: ObjectKey)
    requires Inv(s) && IsIdle(s) && HoldsLink(s, who, h) && s.env.people[who].consentAt.Some?
    requires IsFilledBy(FieldsOf(s.env.request, s.env.people[who].key), client) && image !in s.images
    ensures Run(s, [Present(0, ToSubmit(true, client), h), ReadRequest(0), ReadPerson(0), Prepare(0, image)])
         == Prepared(s, ToSubmit(true, client), who, SignatureFor(s, who, h, client, image))
  {
    hide Inv, Step, FieldsOf, IsFilledBy, Prepared, SignatureFor;
    RunFour(s, Present(0, ToSubmit(true, client), h), ReadRequest(0), ReadPerson(0), Prepare(0, image));
    LoadSucceeds(s, ToSubmit(true, client), who, h);
    PrepareStep(s, who, h, client, image);
  }

  /** The state after a claim and the advance it leads to. */
  function Signed(s: State, who: nat, sig: Signature, links: seq<TokenHash>): State
    requires |links| == |s.env.people| && AreFresh(s.owner, links)
  {
    s.(env := Advanced(ClaimRow(s.env, who, sig), s.clock, links), owner := s.owner + OwnersOf(links),
       images := s.images + {sig.image}, claims := s.claims + [Claim(who, sig.hash, s.clock)],
       advances := s.advances + 1)
  }

  function JustWon(s: State, intent: Intent, who: nat, sig: Signature): State {
    s.(tasks := map[0 := Task(intent, sig.hash, who, Claimed(sig.now))], images := s.images + {sig.image},
       env := ClaimRow(s.env, who, sig), claims := s.claims + [Claim(who, sig.hash, sig.now)])
  }

  lemma ClaimWins(s: State, intent: Intent, who: nat, sig: Signature)
    requires HoldsLink(s, who, sig.hash)
    ensures Step(Prepared(s, intent, who, sig), MakeClaim(0)) == JustWon(s, intent, who, sig)
  {
    hide HolderOf, FieldsOf;
  }

  lemma AdvanceFollows(s: State, intent: Intent, who: nat, sig: Signature, links: seq<TokenHash>)
    requires s.tasks == map[] && sig.now == s.clock && HoldsLink(s, who, sig.hash)
    requires |links| == |s.env.people| && AreFresh(s.owner, links)
    ensures Step(JustWon(s, intent, who, sig), MakeAdvance(0, links)) == Signed(s, who, sig, links)
  {
    hide Advanced, HolderOf, AreFresh;
    assert JustWon(s, intent, who, sig).tasks - {0} == map[];
  }

  lemma ClaimAndAdvance(s: State, intent: Intent, who: nat, sig: Signature, links: seq<TokenHash>)
    requires IsIdle(s) && HoldsLink(s, who, sig.hash) && sig.now == s.clock
    requires |links| == |s.env.people| && AreFresh(s.owner, links)
    ensures Run(Prepared(s, intent, who, sig), [MakeClaim(0), MakeAdvance(0, links)]) == Signed(s, who, sig, links)
  {
    hide Step, Signed, JustWon;
    RunTwo(Prepared(s, intent, who, sig), MakeClaim(0), MakeAdvance(0, links));
    ClaimWins(s, intent, who, sig);
    AdvanceFollows(s, intent, who, sig, links);
  }

  lemma {:induction false} Above(keys: set<nat>) returns (bound: nat)
    ensures forall k :: k in keys ==> k < bound
    decreases keys
  {
    if keys == {} {
      bound := 0;
    } else {
      var k :| k in keys;
      var rest := Above(keys - {k});
      bound := if rest <= k then k + 1 else rest;
      forall j | j in keys ensures j < bound {
        assert j == k || j in keys - {k};
      }
    }
  }

  lemma FreshLinks(owner: map<TokenHash, nat>, n: nat) returns (links: seq<TokenHash>)
    ensures |links| == n && AreFresh(owner, links)
  {
    var bound := Above(owner.Keys);
    links := seq(n, i requires 0 <= i < n => bound + i);
  }

  /** Anyone who holds a live link and whose form can be filled gets as far as a prepared submit. */
  lemma OnePrepares(s: State, who: nat, h: TokenHash)
    returns (actions: seq<Action>, intent: Intent, sig: Signature)
    requires Inv(s) && IsIdle(s) && HoldsLink(s, who, h)
    requires CanBeFilled(FieldsOf(s.env.request, s.env.people[who].key))
    ensures sig.hash == h && sig.now == s.clock
    ensures Run(s, actions) == Prepared(s.(env := RecordConsent(s.env, who, s.clock)), intent, who, sig)
  {
    hide Inv, FieldValues.Resolve, IsFilledBy, Step, Run;
    var fields := FieldsOf(s.env.request, s.env.people[who].key);
    var client :| IsFilledBy(fields, client);
    var image := Above(s.images);

    var first := [Present(0, ToConsent, h), ReadRequest(0), ReadPerson(0), WriteConsent(0, s.clock)];
    var consented := s.(env := RecordConsent(s.env, who, s.clock));
    ConsentRun(s, who, h);
    RunKeepsInv(s, first);

    intent := ToSubmit(true, client);
    var second := [Present(0, intent, h), ReadRequest(0), ReadPerson(0), Prepare(0, image)];
    SubmitLoads(consented, who, h, client, image);
    sig := SignatureFor(consented, who, h, client, image);
    RunConcat(s, first, second);
    actions := first + second;
  }

  /** They can then sign, and an undisturbed ceremony ends in their claim and one advance. */
  lemma OneSigns(s: State, who: nat, h: TokenHash)
    returns (actions: seq<Action>, sig: Signature, links: seq<TokenHash>)
    requires Inv(s) && IsIdle(s) && HoldsLink(s, who, h)
    requires CanBeFilled(FieldsOf(s.env.request, s.env.people[who].key))
    ensures |links| == |s.env.people| && AreFresh(s.owner, links) && sig.hash == h && sig.now == s.clock
    ensures var consented := s.(env := RecordConsent(s.env, who, s.clock));
            |consented.env.people| == |s.env.people| && Run(s, actions) == Signed(consented, who, sig, links)
  {
    hide Inv, CanBeFilled, Advanced, AreFresh, Step, Run, Prepared;
    var intent;
    actions, intent, sig := OnePrepares(s, who, h);
    links := FreshLinks(s.owner, |s.env.people|);
    var last := [MakeClaim(0), MakeAdvance(0, links)];
    ClaimAndAdvance(s.(env := RecordConsent(s.env, who, s.clock)), intent, who, sig, links);
    RunConcat(s, actions, last);
    actions := actions + last;
  }

  /** Between the last signer's claim and its advance the sender can still void: everybody has
      then signed, nothing crashed, and the envelope never completes. */
  lemma LastSignatureCanLoseToVoid(s: State, who: nat, h: TokenHash) returns (actions: seq<Action>)
    requires Inv(s) && IsIdle(s) && HoldsLink(s, who, h)
    requires CanBeFilled(FieldsOf(s.env.request, s.env.people[who].key))
    requires forall i :: 0 <= i < |s.env.people| && i != who ==> !IsUnfinished(s.env.people[i])
    ensures var s' := Run(s, actions);
            !s'.lost && IsQuiescent(s') && AllSigned(s'.env.people) && s'.env.request.status == IsVoided
  {
    hide Inv, CanBeFilled, AreFresh, Step, Run, Prepared, NewPeople;
    var intent, sig;
    actions, intent, sig := OnePrepares(s, who, h);
    var consented := s.(env := RecordConsent(s.env, who, s.clock));
    var links := FreshLinks(s.owner, |s.env.people|);
    var ready, won := Prepared(consented, intent, who, sig), JustWon(consented, intent, who, sig);
    ClaimWins(consented, intent, who, sig);
    var last := [MakeClaim(0), SenderVoids, MakeAdvance(0, links)];
    RunThree(ready, MakeClaim(0), SenderVoids, MakeAdvance(0, links));
    VoidThenAdvance(won, links);
    RunConcat(s, actions, last);
    actions := actions + last;
  }

  lemma RunThree(s: State, a: Action, b: Action, c: Action)
    ensures Run(s, [a, b, c]) == Step(Step(Step(s, a), b), c)
  {
    hide Step;
    var s1, s2 := Step(s, a), Step(Step(s, a), b);
    assert [a, b, c][1..] == [b, c] && [b, c][1..] == [c] && [c][1..] == [];
    assert Run(s, [a, b, c]) == Run(s1, [b, c]) == Run(s2, [c]);
  }

  lemma VoidThenAdvance(s: State, links: seq<TokenHash>)
    requires s.tasks.Keys == {0} && s.tasks[0].at.Claimed? && !s.lost && IsLive(s.env.request)
    requires AllSigned(s.env.people) && |links| == |s.env.people| && AreFresh(s.owner, links)
    ensures var s' := Step(Step(s, SenderVoids), MakeAdvance(0, links));
            !s'.lost && IsQuiescent(s') && AllSigned(s'.env.people) && s'.env.request.status == IsVoided
  {
    hide AreFresh, HolderOf, Step, AllSigned;
    VoidKeepsSignatures(s);
    AdvanceOfVoided(Step(s, SenderVoids), links);
  }

  lemma VoidKeepsSignatures(s: State)
    requires IsLive(s.env.request) && AllSigned(s.env.people)
    ensures var s' := Step(s, SenderVoids);
            && s' == s.(env := s'.env) && s'.env.request.status == IsVoided
            && |s'.env.people| == |s.env.people| && AllSigned(s'.env.people)
  {
  }

  lemma AdvanceOfVoided(s: State, links: seq<TokenHash>)
    requires s.tasks.Keys == {0} && s.tasks[0].at.Claimed? && s.env.request.status == IsVoided
    requires AllSigned(s.env.people) && |links| == |s.env.people| && AreFresh(s.owner, links)
    ensures var s' := Step(s, MakeAdvance(0, links));
            s'.env == s.env && IsQuiescent(s') && s'.lost == s.lost
  {
    hide AreFresh, HolderOf, AllSigned;
    assert s.tasks - {0} == map[];
  }

  // ----- an uncovered cc stalls the envelope

  /** A cc at order `m` with a signer after it, and at `m` no signer at all or, in the first
      group, one signer only. */
  predicate IsGap(places: seq<Place>, m: int) {
    && (exists c :: 0 <= c < |places| && places[c] == Place(Cc, m))
    && (exists p :: 0 <= p < |places| && places[p].role == Signer && m < places[p].order)
    && !IsCovered(places, m)
  }

  /** What serial signing keeps while it runs into a gap: beyond it nobody has been invited, and
      its cc waits until the last possible signer has signed. */
  ghost predicate FacesGap(s: State, places: seq<Place>, m: int) {
    && HasPlaces(s, places) && IsGap(places, m) && s.env.request.routing == Sequential
    && (forall i :: 0 <= i < |places| && places[i].role == Signer && m < places[i].order ==>
          s.env.people[i].status == Pending)
    && (forall i :: IsSignerAt(places, i, m) ==> s.env.people[i].status != Pending)
    && (HasOpenSigner(s) ==>
          exists c :: 0 <= c < |places| && places[c] == Place(Cc, m) && s.env.people[c].status == Pending)
  }

  ghost predicate FormsCanBeFilled(e: Envelope) {
    forall i :: 0 <= i < |e.people| && e.people[i].role == Signer ==> CanBeFilled(FieldsOf(e.request, e.people[i].key))
  }

  function Unfinished(e: Envelope): set<nat> {
    set i: nat | i < |e.people| && IsUnfinished(e.people[i])
  }

  /** The envelope right before the advance of a serial signature. */
  predicate JustClaimed(e: Envelope, e1: Envelope, who: nat) {
    && who < |e.people| && |e1.people| == |e.people| && e1.request == e.request
    && (forall i :: 0 <= i < |e.people| && i != who ==> e1.people[i] == e.people[i])
    && e1.people[who].role == e.people[who].role && e1.people[who].order == e.people[who].order
    && e1.people[who].key == e.people[who].key && e1.people[who].status == Completed
  }

  lemma SignedIsJustClaimed(s: State, who: nat, sig: Signature)
    requires HoldsLink(s, who, sig.hash)
    ensures JustClaimed(s.env, ClaimRow(RecordConsent(s.env, who, s.clock), who, sig), who)
  {
  }

  /** Serial signing never gets past a gap. */
  lemma AdvanceAtGap(
      s: State, e1: Envelope, who: nat, places: seq<Place>, m: int, now: int, links: seq<TokenHash>, i: nat)
    requires FacesGap(s, places, m) && JustClaimed(s.env, e1, who) && |links| == |e1.people|
    requires s.env.people[who].role == Signer && IsOpen(s.env.people[who]) && i < |places|
    ensures var e2 := Advanced(e1, now, links);
            && |e2.people| == |places| && e2.request == e1.request
            && places[i] == Place(e2.people[i].role, e2.people[i].order)
            && (places[i].role == Signer && m < places[i].order ==> e2.people[i].status == Pending)
            && (IsSignerAt(places, i, m) ==> e2.people[i].status != Pending)
  {
    hide NextOrder, EarlierUnfinished, HasOpenSigner;
    var p :| 0 <= p < |places| && places[p].role == Signer && m < places[p].order;
    assert !AllSigned(e1.people) by {
      assert e1.people[p].status == Pending;
    }
    assert HasOpenSigner(s) by {
      OpenWitness(s, who);
    }
    var c :| 0 <= c < |places| && places[c] == Place(Cc, m) && s.env.people[c].status == Pending;
    assert e1.people[c] == s.env.people[c];
    NextIsNoLaterThan(e1, c);
    AdvancedRow(e1, now, links, i);
    AdvancedRequest(e1, now, links);
  }

  lemma OpenWitness(s: State, who: nat)
    requires who < |s.env.people| && s.env.people[who].role == Signer && IsOpen(s.env.people[who])
    ensures HasOpenSigner(s)
  {
  }

  lemma NextIsNoLaterThan(e: Envelope, c: nat)
    requires c < |e.people| && e.people[c].status == Pending
    ensures Handoff(e).Some? ==> Handoff(e).value <= e.people[c].order
  {
  }

  lemma NotHandedOff(e: Envelope, now: int, minted: seq<TokenHash>, c: nat)
    requires |minted| == |e.people| && c < |e.people| && Handoff(e) != Some(e.people[c].order)
    ensures |Advanced(e, now, minted).people| == |e.people|
    ensures Advanced(e, now, minted).people[c] == e.people[c]
  {
    hide Handoff, AllSigned;
  }

  /** Once the gap's cc has been promoted, nobody is left who could sign. */
  lemma NobodyOpenPastGap(
    s: State, e1: Envelope, who: nat, places: seq<Place>, m: int, now: int, links: seq<TokenHash>, i: nat)
    requires FacesGap(s, places, m) && JustClaimed(s.env, e1, who) && |links| == |e1.people|
    requires s.env.people[who].role == Signer && IsOpen(s.env.people[who]) && i < |places|
    requires Handoff(e1) == Some(m)
    ensures |Advanced(e1, now, links).people| == |places|
    ensures places[i].role == Signer ==> !IsOpen(Advanced(e1, now, links).people[i])
  {
    hide NextOrder, EarlierUnfinished, HasOpenSigner, Handoff, AllSigned;
    AdvanceAtGap(s, e1, who, places, m, now, links, i);
    if places[i].role == Signer {
      AdvancedRow(e1, now, links, i);
      if places[i].order < m {
        NobodyEarlierUnfinished(e1, i, m);
      } else if places[i].order == m {
        assert IsSignerAt(places, i, m) && IsFirst(places, m);
        assert IsSignerAt(places, who, m);
        assert who == i;
      }
    }
  }

  lemma GapIsKept(
    s: State, s': State, e1: Envelope, who: nat, places: seq<Place>, m: int, now: int, links: seq<TokenHash>)
    requires FacesGap(s, places, m) && JustClaimed(s.env, e1, who) && |links| == |e1.people|
    requires s.env.people[who].role == Signer && IsOpen(s.env.people[who])
    requires s'.env == Advanced(e1, now, links)
    ensures FacesGap(s', places, m)
  {
    hide JustClaimed, Advanced, Handoff, IsOpen, IsSignerAt;
    forall i | 0 <= i < |places|
      ensures |s'.env.people| == |places| && s'.env.request == e1.request
      ensures places[i] == Place(s'.env.people[i].role, s'.env.people[i].order)
      ensures places[i].role == Signer && m < places[i].order ==> s'.env.people[i].status == Pending
      ensures IsSignerAt(places, i, m) ==> s'.env.people[i].status != Pending
    {
      AdvanceAtGap(s, e1, who, places, m, now, links, i);
    }
    assert e1.request == s.env.request && |places| > 0 by {
      ClaimLeavesRequest(s.env, e1, who);
    }
    forall i | IsSignerAt(places, i, m) ensures 0 <= i < |places| && s'.env.people[i].status != Pending {
      SignerAtIsInRange(places, i, m);
      AdvanceAtGap(s, e1, who, places, m, now, links, i);
    }
    if HasOpenSigner(s') {
      CcStillWaits(s, e1, who, places, m, now, links, s');
    }
  }

  lemma ClaimLeavesRequest(e: Envelope, e1: Envelope, who: nat)
    requires JustClaimed(e, e1, who)
    ensures e1.request == e.request && who < |e.people|
  {
  }

  lemma SignerAtIsInRange(places: seq<Place>, i: int, m: int)
    requires IsSignerAt(places, i, m)
    ensures 0 <= i < |places|
  {
  }

  lemma CcStillWaits(
    s: State, e1: Envelope, who: nat, places: seq<Place>, m: int, now: int, links: seq<TokenHash>, s': State)
    requires FacesGap(s, places, m) && JustClaimed(s.env, e1, who) && |links| == |e1.people|
    requires s.env.people[who].role == Signer && IsOpen(s.env.people[who])
    requires s'.env == Advanced(e1, now, links) && |s'.env.people| == |places| && HasOpenSigner(s')
    requires HasPlaces(s', places)
    ensures exists c :: 0 <= c < |places| && places[c] == Place(Cc, m) && s'.env.people[c].status == Pending
  {
    hide Advanced, Handoff, IsGap;
    OpenWitness(s, who);
    var c :| 0 <= c < |places| && places[c] == Place(Cc, m) && s.env.people[c].status == Pending;
    if Handoff(e1) == Some(m) {
      var i :| 0 <= i < |places| && s'.env.people[i].role == Signer && IsOpen(s'.env.people[i]);
      NobodyOpenPastGap(s, e1, who, places, m, now, links, i);
      assert false;
    } else {
      NotHandedOff(e1, now, links, c);
    }
  }

  lemma FormsStayFillable(s: State, s': State)
    requires Moves(s, s') && FormsCanBeFilled(s.env)
    ensures FormsCanBeFilled(s'.env)
  {
    hide CanBeFilled;
    forall i | 0 <= i < |s.env.people| ensures PersonMoves(s.env.people[i], s'.env.people[i]) {
    }
  }

  /** One more signer signs, and the gap is still ahead. */
  lemma OneMoreSigns(s: State, places: seq<Place>, m: int) returns (actions: seq<Action>)
    requires Inv(s) && IsIdle(s) && FacesGap(s, places, m) && FormsCanBeFilled(s.env) && HasOpenSigner(s)
    ensures var s' := Run(s, actions);
            Inv(s') && IsIdle(s') && FacesGap(s', places, m) && FormsCanBeFilled(s'.env)
            && Unfinished(s'.env) < Unfinished(s.env)
  {
    hide Run, Step, Advanced, RoutingOk, TasksOk, ClaimsOk, RequestOk, FormsCanBeFilled, CanBeFilled, FacesGap,
         JustClaimed, FieldValues.FormComplete;
    var who :| 0 <= who < |s.env.people| && s.env.people[who].role == Signer && IsOpen(s.env.people[who]);
    assert PersonOk(s, who);
    var h := s.env.people[who].hash.value;
    FillableForm(s.env, who);
    var sig, links;
    actions, sig, links := OneSigns(s, who, h);
    var s' := Run(s, actions);
    var e1 := ClaimRow(RecordConsent(s.env, who, s.clock), who, sig);
    SignedIsJustClaimed(s, who, sig);
    GapIsKept(s, s', e1, who, places, m, s.clock, links);
    RunKeepsInv(s, actions);
    RunMoves(s, actions);
    FormsStayFillable(s, s');
    ClaimStays(s.env, e1, who, s.clock, links);
    StillWaiting(s, e1, who, places, m, s.clock, links);
    FewerUnfinished(s, s', who);
  }

  lemma FillableForm(e: Envelope, who: nat)
    requires FormsCanBeFilled(e) && who < |e.people| && e.people[who].role == Signer
    ensures CanBeFilled(FieldsOf(e.request, e.people[who].key))
  {
  }

  lemma ClaimStays(e: Envelope, e1: Envelope, who: nat, now: int, links: seq<TokenHash>)
    requires JustClaimed(e, e1, who) && |links| == |e1.people|
    ensures |Advanced(e1, now, links).people| == |e.people|
    ensures Advanced(e1, now, links).people[who].status == Completed
  {
    AdvancedRow(e1, now, links, who);
    AdvancedRequest(e1, now, links);
  }

  lemma StillWaiting(s: State, e1: Envelope, who: nat, places: seq<Place>, m: int, now: int, links: seq<TokenHash>)
    requires FacesGap(s, places, m) && JustClaimed(s.env, e1, who) && |links| == |e1.people|
    requires s.env.people[who].role == Signer && IsOpen(s.env.people[who])
    ensures Advanced(e1, now, links).request == s.env.request
  {
    hide NextOrder, EarlierUnfinished, HasOpenSigner, Handoff;
    var p :| 0 <= p < |places| && places[p].role == Signer && m < places[p].order;
    assert e1.people[p].status == Pending;
    AdvancedRequest(e1, now, links);
  }

  lemma FewerUnfinished(s: State, s': State, who: nat)
    requires Moves(s, s') && who < |s.env.people| && IsUnfinished(s.env.people[who])
    requires s'.env.people[who].status == Completed
    ensures Unfinished(s'.env) < Unfinished(s.env)
  {
    forall i | i in Unfinished(s'.env) ensures i in Unfinished(s.env) {
      assert PersonMoves(s.env.people[i], s'.env.people[i]);
    }
    assert who in Unfinished(s.env) && who !in Unfinished(s'.env);
  }

  /** Let everybody who can sign sign, one after the other. */
  lemma {:induction false} RunIntoGap(s: State, places: seq<Place>, m: int) returns (actions: seq<Action>)
    requires Inv(s) && IsIdle(s) && FacesGap(s, places, m) && FormsCanBeFilled(s.env)
    ensures var s' := Run(s, actions);
            Inv(s') && IsIdle(s') && FacesGap(s', places, m) && !HasOpenSigner(s')
    decreases Unfinished(s.env)
  {
    hide Step, Inv, FacesGap, FormsCanBeFilled, HasOpenSigner, Unfinished, IsIdle;
    if HasOpenSigner(s) {
      var first := OneMoreSigns(s, places, m);
      var rest := RunIntoGap(Run(s, first), places, m);
      RunConcat(s, first, rest);
      actions := first + rest;
    } else {
      actions := [];
    }
  }

  lemma StartFacesGap(
    input: SendInput, fields: seq<FieldRules.Field>, now: int, ttl: int, minted: seq<TokenHash>, m: int)
    requires IsAccepted(input, fields, now, ttl, minted) && input.routing == Sequential
    requires IsGap(InvitedPlaces(input.people), m)
    ensures FacesGap(Start(input, fields, now, ttl, minted), InvitedPlaces(input.people), m)
  {
    hide IsCovered, Start, NewPeople, NewEnvelope, AreFresh, InvitedPlaces, HasOpenSigner;
    var s, places := Start(input, fields, now, ttl, minted), InvitedPlaces(input.people);
    StartPeople(input, fields, now, ttl, minted);
    InvitedRoles(input.people);
    forall i | 0 <= i < |places|
      ensures places[i] == Place(s.env.people[i].role, s.env.people[i].order)
      ensures s.env.people[i].status == Pending <==> !(places[i].role == Signer && IsFirst(places, places[i].order))
    {
      StartGroups(input, now, minted, i);
    }
    forall i | IsSignerAt(places, i, m) ensures IsFirst(places, m) {
      UncoveredSignerIsFirst(places, m, i);
    }
  }

  lemma UncoveredSignerIsFirst(places: seq<Place>, m: int, i: int)
    requires !IsCovered(places, m) && IsSignerAt(places, i, m)
    ensures IsFirst(places, m)
  {
  }

  /** An uncovered cc stalls the envelope: some crash-free run, in which everyone invited signs
      and nobody interferes, ends with a live envelope that waits and nobody who could sign it. */
  lemma UncoveredRoutingStalls(
      input: SendInput, fields: seq<FieldRules.Field>, now: int, ttl: int, minted: seq<TokenHash>)
    returns (actions: seq<Action>)
    requires IsAccepted(input, fields, now, ttl, minted) && input.routing == Sequential && ttl > 0
    requires !IsRoutable(InvitedPlaces(input.people))
    requires FormsCanBeFilled(Start(input, fields, now, ttl, minted).env)
    ensures IsStalled(Run(Start(input, fields, now, ttl, minted), actions))
  {
    hide Run, Inv, IsAccepted, FacesGap, IsCovered, FormsCanBeFilled, HasOpenSigner;
    var start, places := Start(input, fields, now, ttl, minted), InvitedPlaces(input.people);
    var c, p :| 0 <= c < |places| && 0 <= p < |places| && places[c].role == Cc && places[p].role == Signer
                && places[c].order < places[p].order && !IsCovered(places, places[c].order);
    var m := places[c].order;
    assert places[c] == Place(Cc, m);
    StartFacesGap(input, fields, now, ttl, minted, m);
    assert IsStart(start);
    StartIsOk(start);
    StartIsIdle(input, fields, now, ttl, minted);
    actions := RunIntoGap(start, places, m);
  }

  lemma StartIsIdle(input: SendInput, fields: seq<FieldRules.Field>, now: int, ttl: int, minted: seq<TokenHash>)
    requires IsAccepted(input, fields, now, ttl, minted) && ttl > 0
    ensures IsIdle(Start(input, fields, now, ttl, minted))
  {
  }

  /** Routing as a sender can check it, and progress as a signer feels it, are the same thing: if
      every form can be filled in, no crash-free run stalls exactly when routing is parallel or
      every cc with a signer after it is covered by signers of its own group, two of them in the
      first group and one in a later group. */
  lemma ProgressIffRoutable(
      input: SendInput, fields: seq<FieldRules.Field>, now: int, ttl: int, minted: seq<TokenHash>)
    requires IsAccepted(input, fields, now, ttl, minted) && ttl > 0
    requires FormsCanBeFilled(Start(input, fields, now, ttl, minted).env)
    ensures input.routing == Parallel || IsRoutable(InvitedPlaces(input.people))
       <==> forall actions :: !IsStalled(Run(Start(input, fields, now, ttl, minted), actions))
  {
    hide Run, IsAccepted, IsRoutable, FormsCanBeFilled, Start, IsQuiescent;
    if input.routing == Parallel || IsRoutable(InvitedPlaces(input.people)) {
      forall actions ensures !IsStalled(Run(Start(input, fields, now, ttl, minted), actions)) {
        CoveredRoutingNeverStalls(input, fields, now, ttl, minted, actions);
      }
    } else {
      var actions := UncoveredRoutingStalls(input, fields, now, ttl, minted);
    }
  }

  // ----- and every other one can be finished

  /** Nobody interferes, and the envelope is waiting or done. */
  predicate IsOnCourse(s: State) {
    !s.lost && (IsIdle(s) || s.env.request.status == IsCompleted)
  }

  lemma SignedIsOnCourse(s: State, who: nat, sig: Signature, links: seq<TokenHash>)
    requires IsIdle(s) && HoldsLink(s, who, sig.hash) && |links| == |s.env.people| && AreFresh(s.owner, links)
    ensures var consented := s.(env := RecordConsent(s.env, who, s.clock));
            && |consented.env.people| == |s.env.people|
            && IsOnCourse(Signed(consented, who, sig, links))
            && Signed(consented, who, sig, links).env.people[who].status == Completed
  {
    hide Advanced, AreFresh;
    var e1 := ClaimRow(RecordConsent(s.env, who, s.clock), who, sig);
    SignedIsJustClaimed(s, who, sig);
    AdvancedRequest(e1, s.clock, links);
    ClaimStays(s.env, e1, who, s.clock, links);
  }

  /** One more signature, by anyone who holds a link. */
  lemma OneSignatureCloser(s: State, who: nat, h: TokenHash) returns (actions: seq<Action>)
    requires Inv(s) && IsIdle(s) && HoldsLink(s, who, h) && FormsCanBeFilled(s.env)
    ensures var s' := Run(s, actions);
            Inv(s') && IsOnCourse(s') && FormsCanBeFilled(s'.env) && Unfinished(s'.env) < Unfinished(s.env)
  {
    hide Run, Step, Advanced, Inv, FormsCanBeFilled, CanBeFilled, IsIdle, IsOnCourse, Unfinished;
    FillableForm(s.env, who);
    var sig, links;
    actions, sig, links := OneSigns(s, who, h);
    var s' := Run(s, actions);
    SignedIsOnCourse(s, who, sig, links);
    RunKeepsInv(s, actions);
    RunMoves(s, actions);
    FormsStayFillable(s, s');
    FewerUnfinished(s, s', who);
  }

  /** Signing one after the other, from any point of a run nobody has interfered with. */
  lemma {:induction false} FinishFrom(
      input: SendInput, fields: seq<FieldRules.Field>, now: int, ttl: int, minted: seq<TokenHash>, done: seq<Action>)
    returns (all: seq<Action>)
    requires IsAccepted(input, fields, now, ttl, minted)
    requires input.routing == Parallel || IsRoutable(InvitedPlaces(input.people))
    requires var s := Run(Start(input, fields, now, ttl, minted), done);
             Inv(s) && IsOnCourse(s) && FormsCanBeFilled(s.env)
    ensures var s := Run(Start(input, fields, now, ttl, minted), all);
            !s.lost && s.env.request.status == IsCompleted
    decreases Unfinished(Run(Start(input, fields, now, ttl, minted), done).env)
  {
    hide Run, Step, Inv, IsAccepted, IsRoutable, FormsCanBeFilled, Start, Unfinished;
    var start := Start(input, fields, now, ttl, minted);
    var s := Run(start, done);
    if s.env.request.status == IsCompleted {
      all := done;
    } else {
      CoveredRoutingNeverStalls(input, fields, now, ttl, minted, done);
      assert IsQuiescent(s);
      var who :| 0 <= who < |s.env.people| && s.env.people[who].role == Signer
                 && IsOpen(s.env.people[who]) && s.env.people[who].hash.Some?;
      var more := OneSignatureCloser(s, who, s.env.people[who].hash.value);
      RunConcat(start, done, more);
      all := FinishFrom(input, fields, now, ttl, minted, done + more);
    }
  }

  /** Routing that never stalls can be finished: if every form can be filled in, everybody can
      sign, one after the other, and after exactly one claim per signer the envelope completes. */
  lemma RoutableCanFinish(
      input: SendInput, fields: seq<FieldRules.Field>, now: int, ttl: int, minted: seq<TokenHash>)
    returns (actions: seq<Action>)
    requires IsAccepted(input, fields, now, ttl, minted) && ttl > 0
    requires input.routing == Parallel || IsRoutable(InvitedPlaces(input.people))
    requires FormsCanBeFilled(Start(input, fields, now, ttl, minted).env)
    ensures var s := Run(Start(input, fields, now, ttl, minted), actions);
            !s.lost && s.env.request.status == IsCompleted && |s.claims| == |Signers(s.env)|
  {
    hide Run, Step, Inv, IsAccepted, IsRoutable, FormsCanBeFilled, Start, Signers;
    var start := Start(input, fields, now, ttl, minted);
    assert IsStart(start);
    StartIsOk(start);
    StartIsIdle(input, fields, now, ttl, minted);
    assert Run(start, []) == start by {
      NothingDone(start);
    }
    actions := FinishFrom(input, fields, now, ttl, minted, []);
    OneClaimPerSigner(Run(start, actions));
  }

  lemma NothingDone(s: State)
    ensures Run(s, []) == s
  {
  }

  /** The smallest case, which the editor produces when a cc is listed between two signers: it
      gives every row an order of its own. */
  lemma CcBetweenSignersIsUncovered()
    ensures !IsRoutable([Place(Signer, 1), Place(Cc, 2), Place(Signer, 3)])
  {
    var places := [Place(Signer, 1), Place(Cc, 2), Place(Signer, 3)];
    assert places[1].role == Cc && places[2].role == Signer && places[1].order < places[2].order;
    assert !IsFirst(places, 2) by {
      assert places[0].order == 1;
    }
    assert !IsCovered(places, 2);
  }

  // ----- and stays stalled

  predicate NobodyCanSign(s: State) {
    IsQuiescent(s) && !HasOpenSigner(s)
  }

  lemma StalledStep(s: State, a: Action)
    requires Inv(s) && NobodyCanSign(s)
    ensures NobodyCanSign(Step(s, a)) && Step(s, a).claims == s.claims
  {
    hide Step, Inv, ClaimedTasks;
    NothingToClaim(s, a);
    CompletionsAreClaims(s, a);
    ClaimedTasksStep(s, a);
    assert ClaimedTasks(s) == {} by {
      QuietMeansNone(s);
    }
    NothingToAdvance(s, a);
    QuietMeansNone(Step(s, a));
    StepMoves(s, a);
    forall i | 0 <= i < |s.env.people| && s.env.people[i].role == Signer ensures !IsOpen(Step(s, a).env.people[i]) {
      PendingUnchanged(s, a, i);
      assert PersonMoves(s.env.people[i], Step(s, a).env.people[i]);
    }
  }

  lemma QuietMeansNone(s: State)
    ensures IsQuiescent(s) <==> ClaimedTasks(s) == {}
  {
    if ClaimedTasks(s) == {} {
      forall id | id in s.tasks ensures !s.tasks[id].at.Claimed? {
        assert id !in ClaimedTasks(s);
      }
    }
  }

  lemma NothingToClaim(s: State, a: Action)
    requires Inv(s) && !HasOpenSigner(s)
    ensures a.MakeClaim? ==> Step(s, a).env == s.env
  {
    hide FieldValues.FormComplete, RoutingOk, ClaimsOk, RequestOk, PeopleOk;
    if a.MakeClaim? && a.id in s.tasks {
      assert TaskOk(s, s.tasks[a.id]);
    }
  }

  lemma NothingToAdvance(s: State, a: Action)
    requires IsQuiescent(s)
    ensures a.MakeAdvance? ==> Step(s, a) == s
  {
  }

  /** A stalled envelope can never be completed: no resend, no reminder and no later request
      ever wins another claim. */
  lemma {:induction false} StalledForever(s: State, actions: seq<Action>)
    requires Inv(s) && NobodyCanSign(s)
    ensures NobodyCanSign(Run(s, actions)) && Run(s, actions).claims == s.claims
    decreases actions
  {
    hide Step, Inv, NobodyCanSign;
    if actions != [] {
      StalledStep(s, actions[0]);
      StepKeepsInv(s, actions[0]);
      StalledForever(Step(s, actions[0]), actions[1..]);
    }
  }
}
