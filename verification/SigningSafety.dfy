/** What the protocol promises, over every run from a send: every interleaving of every request,
    crash, sweep and sender's action. */
module SigningSafety {
  import opened Wrappers
  import opened Envelope
  import opened SigningRun
  import opened SigningInvariant
  import FieldRules
  import FieldValues

  /** `s` comes after a send by some sequence of steps. */
  ghost predicate IsReachable(s: State) {
    exists start, actions :: IsStart(start) && s == Run(start, actions)
  }

  lemma ReachableIsOk(s: State)
    requires IsReachable(s)
    ensures Inv(s)
  {
    hide Inv, Run, IsStart;
    var start, actions :| IsStart(start) && s == Run(start, actions);
    StartIsOk(start);
    RunKeepsInv(start, actions);
  }

  // ----- retirement is final

  predicate SameSignatures(e: Envelope, e': Envelope) {
    && |e'.people| == |e.people|
    && (forall i :: 0 <= i < |e.people| ==> (e'.people[i].status == Completed <==> e.people[i].status == Completed))
  }

  lemma RetiredStepSignsNothing(s: State, a: Action)
    requires Inv(s) && IsRetired(s.env.request)
    ensures Step(s, a).claims == s.claims && SameSignatures(s.env, Step(s, a).env)
  {
    hide Step, PeopleOk, RoutingOk, ClaimsOk, RequestOk;
    StepMoves(s, a);
    if a.MakeClaim? && Step(s, a).env != s.env {
      NoClaimOnceRetired(s, a);
      assert false;
    }
    CompletionsAreClaims(s, a);
    forall i | 0 <= i < |s.env.people| ensures PersonMoves(s.env.people[i], Step(s, a).env.people[i]) {
    }
  }

  lemma NoClaimOnceRetired(s: State, a: Action)
    requires Inv(s) && IsRetired(s.env.request) && a.MakeClaim?
    ensures Step(s, a).env == s.env
  {
    hide PeopleOk, RoutingOk, ClaimsOk, RequestOk;
    if a.id in s.tasks {
      assert TaskOk(s, s.tasks[a.id]) && IsHarmless(s, s.tasks[a.id]);
    }
  }

  /** Once a void or an expiry retirement has committed, nobody ever becomes completed, no claim
      ever wins, and the envelope never completes: not by a submit that was past any of its
      reads, not through a link that an advance or a reminder mints afterwards. */
  lemma {:induction false} RetirementIsFinal(s: State, actions: seq<Action>)
    requires Inv(s) && IsRetired(s.env.request)
    ensures var s' := Run(s, actions);
            IsRetired(s'.env.request) && s'.claims == s.claims && SameSignatures(s.env, s'.env)
    decreases actions
  {
    hide Step, Inv, IsRetired;
    if actions != [] {
      var next := Step(s, actions[0]);
      RetiredStepSignsNothing(s, actions[0]);
      StepKeepsInv(s, actions[0]);
      StepMoves(s, actions[0]);
      RetirementIsFinal(next, actions[1..]);
    }
  }

  lemma ReachableRetirementIsFinal(s: State, actions: seq<Action>)
    requires IsReachable(s) && IsRetired(s.env.request)
    ensures var s' := Run(s, actions);
            IsRetired(s'.env.request) && s'.claims == s.claims && SameSignatures(s.env, s'.env)
  {
    ReachableIsOk(s);
    RetirementIsFinal(s, actions);
  }

  /** A completed envelope and a completed person are never touched again. */
  lemma CompletionIsFinal(s: State, actions: seq<Action>)
    ensures var s' := Run(s, actions);
            && |s'.env.people| == |s.env.people|
            && (s.env.request.status == IsCompleted ==>
                  s'.env.request.status == IsCompleted && s'.env.request.completedAt == s.env.request.completedAt)
            && (forall i | 0 <= i < |s.env.people| ::
                  s.env.people[i].status == Completed ==> s'.env.people[i] == s.env.people[i])
  {
    hide Run;
    RunMoves(s, actions);
    forall i | 0 <= i < |s.env.people| ensures PersonMoves(s.env.people[i], Run(s, actions).env.people[i]) {
    }
  }

  // ----- tokens

  /** Over a whole run each person is claimed at most once and each token wins at most once. */
  lemma TokensAreSingleUse(s: State)
    requires IsReachable(s)
    ensures forall k, l :: 0 <= k < l < |s.claims| ==>
              s.claims[k].who != s.claims[l].who && s.claims[k].hash != s.claims[l].hash
  {
    hide IsReachable, RoutingOk, TasksOk, RequestOk;
    ReachableIsOk(s);
    forall k | 0 <= k < |s.claims|
      ensures s.claims[k].hash in s.owner && s.owner[s.claims[k].hash] == s.claims[k].who
    {
      assert ClaimOk(s, s.claims[k]);
      assert PersonOk(s, s.claims[k].who);
    }
  }

  /** Minted once, and nobody's any more. */
  predicate IsSpent(s: State, h: TokenHash) {
    h in s.owner && forall i :: 0 <= i < |s.env.people| ==> s.env.people[i].hash != Some(h)
  }

  lemma SpentStep(s: State, a: Action, h: TokenHash)
    requires Inv(s) && IsSpent(s, h)
    ensures IsSpent(Step(s, a), h)
  {
    hide Step, RoutingOk, TasksOk, RequestOk, ClaimsOk;
    var s' := Step(s, a);
    StepMoves(s, a);
    StepKeepsInv(s, a);
    forall i | 0 <= i < |s'.env.people| ensures s'.env.people[i].hash != Some(h) {
      if i == s.owner[h] {
        SpentTokenStaysSpent(s, a, i, h);
      } else {
        assert PersonOk(s', i);
      }
    }
  }

  /** A token a resend, a reminder, a void or an expiry has replaced is spent for good: it never
      again resolves, passes a load or wins a claim, not even for a submit that loaded before
      the rotation. */
  lemma {:induction false} RotationIsFinal(s: State, actions: seq<Action>, h: TokenHash)
    requires Inv(s) && IsSpent(s, h)
    ensures var s' := Run(s, actions);
            && IsSpent(s', h) && HolderOf(s'.env.people, h).None?
            && (forall k :: |s.claims| <= k < |s'.claims| ==> s'.claims[k].hash != h)
    decreases actions
  {
    hide Step, Inv, IsSpent;
    if actions != [] {
      var next := Step(s, actions[0]);
      SpentStep(s, actions[0], h);
      StepKeepsInv(s, actions[0]);
      StepMoves(s, actions[0]);
      NewClaimHeldItsToken(s, actions[0], h);
      RotationIsFinal(next, actions[1..], h);
      RunMoves(next, actions[1..]);
    } else {
      assert IsSpent(s, h) ==> HolderOf(s.env.people, h).None? by {
        SpentResolvesToNobody(s, h);
      }
    }
  }

  lemma SpentResolvesToNobody(s: State, h: TokenHash)
    ensures IsSpent(s, h) ==> HolderOf(s.env.people, h).None?
  {
  }

  lemma NewClaimHeldItsToken(s: State, a: Action, h: TokenHash)
    requires IsSpent(s, h)
    ensures |s.claims| <= |Step(s, a).claims|
    ensures forall k :: |s.claims| <= k < |Step(s, a).claims| ==> Step(s, a).claims[k].hash != h
    ensures forall k :: 0 <= k < |s.claims| ==> Step(s, a).claims[k] == s.claims[k]
  {
    hide FieldValues.Resolve, HolderOf, Advanced, Voided, Resent, Expired, Reminded;
  }

  /** A resend leaves the token it replaces spent. */
  lemma ResendSpendsTheOldToken(s: State, who: nat, minted: TokenHash)
    requires Inv(s) && minted !in s.owner && Resent(s.env, who, s.clock, minted).Ok?
    requires s.env.people[who].hash.Some?
    ensures IsSpent(Step(s, SenderResends(who, minted)), s.env.people[who].hash.value)
  {
    hide FieldValues.FormComplete, RoutingOk, TasksOk, RequestOk, ClaimsOk;
    var s' := Step(s, SenderResends(who, minted));
    var h := s.env.people[who].hash.value;
    assert PersonOk(s, who);
    forall i | 0 <= i < |s'.env.people| ensures s'.env.people[i].hash != Some(h) {
      assert PersonOk(s, i);
    }
  }

  // ----- routing

  /** Sequential routing in every reachable state: a person is out of `pending` only once every
      signer of every lower group has signed, and the moments of signing follow the groups. */
  lemma RoutingOrder(s: State, i: nat, j: nat)
    requires IsReachable(s) && s.env.request.routing == Sequential
    requires i < |s.env.people| && j < |s.env.people|
    requires s.env.people[j].role == Signer && s.env.people[j].order < s.env.people[i].order
    requires s.env.people[i].status != Pending
    ensures s.env.people[j].status == Completed && s.env.people[j].completedAt.Some?
    ensures s.env.people[i].status == Completed ==>
              s.env.people[i].completedAt.Some?
              && s.env.people[j].completedAt.value <= s.env.people[i].completedAt.value
  {
    hide IsReachable, FieldValues.FormComplete, TasksOk, RequestOk, ClaimsOk;
    ReachableIsOk(s);
    assert InTurn(s.env.people[i], s.env.people[j]);
    assert PersonOk(s, i);
  }

  // ----- evidence

  ghost predicate AllTagged(e: Envelope) {
    forall i :: 0 <= i < |e.people| && e.people[i].role == Signer ==> FieldsOf(e.request, e.people[i].key) != []
  }

  lemma {:induction false} HasFieldsOfTheirOwn(fields: seq<FieldRules.Field>, key: string)
    requires HasFields(fields, key)
    ensures FieldsWithKey(fields, key) != []
  {
    if fields[0].recipientKey != key {
      var f :| f in fields && f.recipientKey == key;
      assert f in fields[1..];
      HasFieldsOfTheirOwn(fields[1..], key);
    }
  }

  lemma StartIsTagged(s: State)
    requires IsStart(s)
    ensures AllTagged(s.env)
  {
    var input, fields, now, ttl, minted :|
      IsAccepted(input, fields, now, ttl, minted) && s == Start(input, fields, now, ttl, minted);
    forall i | 0 <= i < |s.env.people| && s.env.people[i].role == Signer
      ensures FieldsOf(s.env.request, s.env.people[i].key) != []
    {
      assert s.env.people[i] == NewRecipient(input, i, now, minted);
      HasFieldsOfTheirOwn(fields, input.people[i].key);
    }
  }

  lemma TagsAreFixed(s: State, actions: seq<Action>)
    requires AllTagged(s.env)
    ensures AllTagged(Run(s, actions).env)
  {
    hide Run;
    RunMoves(s, actions);
    forall i | 0 <= i < |s.env.people| ensures PersonMoves(s.env.people[i], Run(s, actions).env.people[i]) {
    }
  }

  /** On every completed envelope every signer has signed after consenting, with a stored image,
      a complete form, and at least one field of their own. */
  lemma EvidenceIsComplete(s: State)
    requires IsReachable(s) && s.env.request.status == IsCompleted
    ensures s.env.request.completedAt.Some?
    ensures exists i :: 0 <= i < |s.env.people| && s.env.people[i].role == Signer
    ensures forall i :: 0 <= i < |s.env.people| && s.env.people[i].role == Signer ==>
              && s.env.people[i].status == Completed
              && IsEvidence(s, s.env.people[i])
              && FieldsOf(s.env.request, s.env.people[i].key) != []
  {
    hide Run, IsStart, FieldValues.FormComplete, TasksOk, RoutingOk, ClaimsOk;
    ReachableIsOk(s);
    var start, actions :| IsStart(start) && s == Run(start, actions);
    StartIsTagged(start);
    TagsAreFixed(start, actions);
    forall i | 0 <= i < |s.env.people| && s.env.people[i].role == Signer
      ensures && s.env.people[i].status == Completed
              && IsEvidence(s, s.env.people[i])
              && FieldsOf(s.env.request, s.env.people[i].key) != []
    {
      assert PersonOk(s, i);
    }
  }

  // ----- no completion is lost to a race

  predicate IsQuiescent(s: State) {
    forall id :: id in s.tasks ==> !s.tasks[id].at.Claimed?
  }

  /** With no crash after a claim and no advance outstanding, an envelope whose signers have all
      signed has completed, or had been retired before its last advance could complete it. */
  lemma NoCompletionLost(s: State)
    requires IsReachable(s) && !s.lost && IsQuiescent(s)
    ensures AllSigned(s.env.people) ==> s.env.request.status == IsCompleted || IsRetired(s.env.request)
    ensures IsLive(s.env.request) ==> exists i :: 0 <= i < |s.env.people| && IsUnfinished(s.env.people[i])
  {
    hide IsReachable, FieldValues.FormComplete, TasksOk, RoutingOk, ClaimsOk, PeopleOk;
    ReachableIsOk(s);
  }

  // ----- the door that stays open after signing

  /** `loadCompleted`, whose three reads may each see a later state of the rows. */
  predicate OpensCompletedDoor(atResolve: State, atRequest: State, atPerson: State, h: TokenHash) {
    var who := HolderOf(atResolve.env.people, h);
    && who.Some?
    && atRequest.env.request.status == IsCompleted && atRequest.clock < atRequest.env.request.expiresAt
    && who.value < |atPerson.env.people|
    && atPerson.env.people[who.value].hash == Some(h) && atPerson.env.people[who.value].status == Completed
  }

  /** It opens for the token somebody signed with, and for no other. */
  lemma CompletedDoorIsForSigners(s: State, before: seq<Action>, between: seq<Action>, h: TokenHash)
    requires IsReachable(s)
    requires OpensCompletedDoor(s, Run(s, before), Run(Run(s, before), between), h)
    ensures exists k :: 0 <= k < |Run(Run(s, before), between).claims|
                        && Run(Run(s, before), between).claims[k].hash == h
  {
    hide Run, IsReachable, FieldValues.FormComplete, TasksOk, RoutingOk, RequestOk;
    ReachableIsOk(s);
    RunKeepsInv(s, before);
    RunKeepsInv(Run(s, before), between);
    var last := Run(Run(s, before), between);
    var who := HolderOf(s.env.people, h).value;
    var k :| 0 <= k < |last.claims| && last.claims[k].who == who;
    assert ClaimOk(last, last.claims[k]);
  }
}
