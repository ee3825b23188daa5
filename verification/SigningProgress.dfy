/** When does a sequential envelope reach everybody? An advance hands the envelope to one group
    only, and a cc counts as a group of its own, so a badly placed cc uses up the advance a
    later signer was waiting for. */
module SigningProgress {
  import opened Wrappers
  import opened Envelope
  import opened SigningRun
  import opened SigningInvariant
  import opened SigningSafety
  import FieldRules
  import FieldValues

  /** One person's part in the routing. */
  datatype Place = Place(role: Role, order: int)

  function InvitedPlaces(people: seq<Invitee>): seq<Place> {
    seq(|people|, i requires 0 <= i < |people| => Place(people[i].role, people[i].order))
  }

  predicate IsFirst(places: seq<Place>, order: int) {
    forall i :: 0 <= i < |places| ==> order <= places[i].order
  }

  predicate IsSignerAt(places: seq<Place>, i: int, order: int) {
    0 <= i < |places| && places[i].role == Signer && places[i].order == order
  }

  /** A cc at this order with a signer after it is passed over by two signers of the same group
      when that group is the first, by one when it is a later group. */
  predicate IsCovered(places: seq<Place>, order: int) {
    if IsFirst(places, order) then
      exists i, j :: 0 <= i < j < |places| && IsSignerAt(places, i, order) && IsSignerAt(places, j, order)
    else
      exists i :: 0 <= i < |places| && IsSignerAt(places, i, order)
  }

  /** The condition a sender could check before sending. */
  predicate IsRoutable(places: seq<Place>) {
    forall c, p |
      && 0 <= c < |places| && 0 <= p < |places|
      && places[c].role == Cc && places[p].role == Signer && places[c].order < places[p].order
      :: IsCovered(places, places[c].order)
  }

  // ----- the facts progress rests on

  ghost predicate HasPlaces(s: State, places: seq<Place>) {
    && |places| == |s.env.people|
    && forall i :: 0 <= i < |places| ==> places[i] == Place(s.env.people[i].role, s.env.people[i].order)
  }

  function ClaimedTasks(s: State): set<nat> {
    set id | id in s.tasks && s.tasks[id].at.Claimed?
  }

  /** Every claim is followed by one advance. */
  predicate AdvancesFollowClaims(s: State) {
    !s.lost ==> |s.claims| == s.advances + |ClaimedTasks(s)|
  }

  /** Members of a later group are handed the envelope together; signers of the first group have
      it from the start, and its cc after the first advance. */
  predicate GroupsMove(s: State, places: seq<Place>)
    requires |places| == |s.env.people|
  {
    && (forall i, j :: 0 <= i < |places| && 0 <= j < |places| && places[i].order == places[j].order
                       && !IsFirst(places, places[i].order) ==>
          (s.env.people[i].status == Pending <==> s.env.people[j].status == Pending))
    && (forall i :: 0 <= i < |places| && IsFirst(places, places[i].order) && s.env.people[i].status == Pending ==>
          places[i].role == Cc && (s.advances == 0 || AllSigned(s.env.people)))
  }

  predicate HasOpenSigner(s: State) {
    exists i :: 0 <= i < |s.env.people| && s.env.people[i].role == Signer && IsOpen(s.env.people[i])
  }

  predicate IsMoving(s: State) {
    !s.lost && !AllSigned(s.env.people) && !HasOpenSigner(s) ==> ClaimedTasks(s) != {}
  }

  ghost predicate ProgressInv(s: State, places: seq<Place>) {
    && HasPlaces(s, places) && AdvancesFollowClaims(s) && GroupsMove(s, places) && IsMoving(s)
  }

  // ----- counting

  lemma ClaimedTasksStep(s: State, a: Action)
    ensures var was, now := ClaimedTasks(s), ClaimedTasks(Step(s, a));
            && (a.MakeClaim? && Step(s, a).env != s.env ==> a.id !in was && now == was + {a.id})
            && (a.MakeAdvance? && Step(s, a) != s ==> a.id in was && now == was - {a.id})
            && (a.Crash? ==> now == was - {a.id} && (a.id in was ==> Step(s, a).lost))
            && (!(a.MakeClaim? && Step(s, a).env != s.env) && !a.MakeAdvance? && !a.Crash? ==> now == was)
            && (a.MakeAdvance? && Step(s, a) == s ==> now == was)
  {
    hide FieldValues.Resolve, HolderOf, Voided, Resent, Expired, Reminded, Advanced;
  }

  lemma CountersStep(s: State, a: Action)
    ensures Step(s, a).advances == s.advances + (if a.MakeAdvance? && Step(s, a) != s then 1 else 0)
    ensures |Step(s, a).claims| == |s.claims| + (if a.MakeClaim? && Step(s, a).env != s.env then 1 else 0)
    ensures a.MakeClaim? && Step(s, a).env != s.env ==>
              a.id in s.tasks && CanClaim(s.env, s.tasks[a.id].who, s.tasks[a.id].at.sig.hash)
  {
    hide FieldValues.Resolve, HolderOf, Voided, Resent, Expired, Reminded, Advanced;
  }

  // ----- steps other than an advance

  /** Only an advance takes anybody out of `pending`. */
  lemma PendingUnchanged(s: State, a: Action, i: nat)
    requires Inv(s) && i < |s.env.people| && !(a.MakeAdvance? && Step(s, a) != s)
    ensures |Step(s, a).env.people| == |s.env.people|
    ensures Step(s, a).env.people[i].status == Pending <==> s.env.people[i].status == Pending
  {
    hide Step, Inv;
    StepMoves(s, a);
    if a.MakeClaim? {
      ClaimLeavesPending(s, a, i);
    } else if !a.MakeAdvance? {
      QuietSteps(s, a, i);
    }
  }

  lemma ClaimLeavesPending(s: State, a: Action, i: nat)
    requires a.MakeClaim? && i < |s.env.people|
    ensures |Step(s, a).env.people| == |s.env.people|
    ensures s.env.people[i].status == Pending ==> Step(s, a).env.people[i].status == Pending
  {
  }

  lemma PlacesAreFixed(s: State, a: Action, places: seq<Place>)
    requires HasPlaces(s, places)
    ensures HasPlaces(Step(s, a), places)
  {
    hide Step;
    StepMoves(s, a);
    forall i | 0 <= i < |s.env.people| ensures PersonMoves(s.env.people[i], Step(s, a).env.people[i]) {
    }
  }

  lemma OtherStepKeepsGroups(s: State, a: Action, places: seq<Place>)
    requires Inv(s) && HasPlaces(s, places) && GroupsMove(s, places) && !(a.MakeAdvance? && Step(s, a) != s)
    ensures |places| == |Step(s, a).env.people| && GroupsMove(Step(s, a), places)
  {
    hide Step, Inv;
    StepMoves(s, a);
    CountersStep(s, a);
    forall i | 0 <= i < |s.env.people|
      ensures Step(s, a).env.people[i].status == Pending <==> s.env.people[i].status == Pending
    {
      PendingUnchanged(s, a, i);
    }
    if AllSigned(s.env.people) {
      AllSignedStays(s, Step(s, a));
    }
  }

  /** An open signer stays open unless their own claim wins. */
  lemma OpenSignerStays(s: State, a: Action)
    requires Inv(s) && HasOpenSigner(s) && !(a.MakeClaim? && Step(s, a).env != s.env)
    ensures HasOpenSigner(Step(s, a))
  {
    hide Step, Inv;
    StepMoves(s, a);
    CompletionsAreClaims(s, a);
    var i :| 0 <= i < |s.env.people| && s.env.people[i].role == Signer && IsOpen(s.env.people[i]);
    assert PersonMoves(s.env.people[i], Step(s, a).env.people[i]);
    assert IsOpen(Step(s, a).env.people[i]);
  }

  lemma OtherStepKeepsMoving(s: State, a: Action)
    requires Inv(s) && IsMoving(s) && !(a.MakeAdvance? && Step(s, a) != s)
    ensures IsMoving(Step(s, a))
  {
    hide Step, Inv, HasOpenSigner, ClaimedTasks, AllSigned;
    ClaimedTasksStep(s, a);
    StepMoves(s, a);
    if a.MakeClaim? && Step(s, a).env != s.env {
      assert a.id in ClaimedTasks(Step(s, a));
    } else {
      if HasOpenSigner(s) {
        OpenSignerStays(s, a);
      }
      if AllSigned(s.env.people) {
        AllSignedStays(s, Step(s, a));
      }
    }
  }

  // ----- an advance

  lemma FirstGroupIsNext(e: Envelope, places: seq<Place>, i: nat)
    requires |places| == |e.people|
    requires forall k :: 0 <= k < |places| ==> places[k] == Place(e.people[k].role, e.people[k].order)
    requires i < |places| && IsFirst(places, places[i].order) && e.people[i].status == Pending
    requires e.request.routing == Sequential
    ensures Handoff(e) == Some(places[i].order)
  {
    var next := NextOrder(e.people);
    assert next == Some(places[i].order);
    assert !EarlierUnfinished(e.people, next.value);
  }

  lemma AdvanceFreesFirstGroup(s: State, a: Action, places: seq<Place>, i: nat)
    requires HasPlaces(s, places) && GroupsMove(s, places) && a.MakeAdvance? && Step(s, a) != s
    requires s.env.request.routing == Sequential
    requires i < |s.env.people| && IsFirst(places, places[i].order)
    ensures |Step(s, a).env.people| == |s.env.people|
    ensures Step(s, a).env.people[i].status == Pending ==>
              s.env.people[i].status == Pending && AllSigned(s.env.people)
  {
    hide Handoff, AllSigned, IsFirst, GroupsMove, AreFresh, HolderOf, FieldsOf, FieldValues.Resolve;
    AdvancedRow(s.env, s.tasks[a.id].at.now, a.links, i);
    if s.env.people[i].status == Pending {
      FirstGroupIsNext(s.env, places, i);
    }
  }

  /** An advance promotes a whole group or leaves it alone. */
  lemma GroupsAdvanceTogether(e: Envelope, now: int, minted: seq<TokenHash>, i: nat, j: nat)
    requires |minted| == |e.people| && i < |e.people| && j < |e.people|
    requires e.people[i].order == e.people[j].order
    requires e.people[i].status == Pending <==> e.people[j].status == Pending
    ensures |Advanced(e, now, minted).people| == |e.people|
    ensures Advanced(e, now, minted).people[i].status == Pending
       <==> Advanced(e, now, minted).people[j].status == Pending
  {
    hide Handoff, AllSigned;
  }

  lemma AdvanceIsAdvanced(s: State, a: Action)
    requires a.MakeAdvance? && Step(s, a) != s
    ensures a.id in s.tasks && s.tasks[a.id].at.Claimed? && |a.links| == |s.env.people|
    ensures Step(s, a).env == Advanced(s.env, s.tasks[a.id].at.now, a.links)
  {
    hide Advanced;
  }

  lemma AdvanceKeepsGroups(s: State, a: Action, places: seq<Place>)
    requires Inv(s) && HasPlaces(s, places) && GroupsMove(s, places) && a.MakeAdvance? && Step(s, a) != s
    requires s.env.request.routing == Sequential
    ensures |places| == |Step(s, a).env.people| && GroupsMove(Step(s, a), places)
  {
    hide Inv, Step, AllSigned, IsFirst;
    var s' := Step(s, a);
    StepMoves(s, a);
    forall i | 0 <= i < |places| && IsFirst(places, places[i].order) && s'.env.people[i].status == Pending
      ensures places[i].role == Cc && AllSigned(s'.env.people)
    {
      AdvanceFreesFirstGroup(s, a, places, i);
      AllSignedStays(s, s');
    }
    forall i, j | 0 <= i < |places| && 0 <= j < |places| && places[i].order == places[j].order
                  && !IsFirst(places, places[i].order)
      ensures s'.env.people[i].status == Pending <==> s'.env.people[j].status == Pending
    {
      AdvanceIsAdvanced(s, a);
      GroupsAdvanceTogether(s.env, s.tasks[a.id].at.now, a.links, i, j);
    }
  }

  /** Two signers of one group who have both signed have made two claims. */
  lemma TwoClaims(s: State, i: nat, j: nat)
    requires Inv(s) && i < j < |s.env.people|
    requires s.env.people[i].status == Completed && s.env.people[j].status == Completed
    ensures |s.claims| >= 2
  {
    hide PeopleOk, RoutingOk, TasksOk, RequestOk;
    var k :| 0 <= k < |s.claims| && s.claims[k].who == i;
    var l :| 0 <= l < |s.claims| && s.claims[l].who == j;
  }

  /** With nobody signing and somebody still to sign, a signer `p` is waiting, and the group
      that is handed the envelope is the one of the first person waiting, `c`. */
  lemma SomebodyWaits(s: State) returns (p: nat, c: nat)
    requires !AllSigned(s.env.people) && !HasOpenSigner(s) && s.env.request.routing == Sequential
    ensures p < |s.env.people| && s.env.people[p].role == Signer && s.env.people[p].status == Pending
    ensures c < |s.env.people| && s.env.people[c].status == Pending
    ensures s.env.people[c].order <= s.env.people[p].order
    ensures Handoff(s.env) == Some(s.env.people[c].order)
  {
    hide NextOrder;
    p :| 0 <= p < |s.env.people| && s.env.people[p].role == Signer && s.env.people[p].status != Completed;
    assert !IsOpen(s.env.people[p]);
    var order := NextOrder(s.env.people).value;
    c :| 0 <= c < |s.env.people| && s.env.people[c].status == Pending && s.env.people[c].order == order;
    forall i | 0 <= i < |s.env.people| && IsUnfinished(s.env.people[i]) ensures order <= s.env.people[i].order {
      assert !IsOpen(s.env.people[i]);
    }
  }

  /** The group an advance hands the envelope to holds a signer, if nobody is signing and
      everything before it has been claimed and advanced. */
  lemma NextGroupHasSigner(s: State, places: seq<Place>)
    requires Inv(s) && HasPlaces(s, places) && GroupsMove(s, places) && AdvancesFollowClaims(s)
    requires IsRoutable(places) && s.env.request.routing == Sequential
    requires !s.lost && !AllSigned(s.env.people) && !HasOpenSigner(s) && |ClaimedTasks(s)| == 1
    ensures exists i :: 0 <= i < |places| && s.env.people[i].role == Signer && s.env.people[i].status == Pending
                        && Handoff(s.env) == Some(s.env.people[i].order)
  {
    hide Inv, ClaimedTasks, IsRoutable, AllSigned, HasOpenSigner, Handoff, GroupsMove, AdvancesFollowClaims;
    var p, c := SomebodyWaits(s);
    if s.env.people[c].role != Signer && s.env.people[p].order != s.env.people[c].order {
      PendingCcIsNotNext(s, places, c, p);
    }
  }

  lemma PendingCcIsNotNext(s: State, places: seq<Place>, c: nat, p: nat)
    requires Inv(s) && HasPlaces(s, places) && GroupsMove(s, places) && AdvancesFollowClaims(s)
    requires IsRoutable(places)
    requires !s.lost && !AllSigned(s.env.people) && !HasOpenSigner(s) && |ClaimedTasks(s)| == 1
    requires c < |places| && p < |places| && places[c].role == Cc && places[p].role == Signer
    requires places[c].order < places[p].order && s.env.people[c].status == Pending
    ensures exists i :: IsSignerAt(places, i, places[c].order) && s.env.people[i].status == Pending
  {
    hide Inv, ClaimedTasks, AllSigned;
    var order := places[c].order;
    assert IsCovered(places, order);
    if IsFirst(places, order) {
      var i, j :| 0 <= i < j < |places| && IsSignerAt(places, i, order) && IsSignerAt(places, j, order);
      assert s.env.people[i].status != Pending && s.env.people[j].status != Pending;
      TwoClaims(s, i, j);
      assert false;
    } else {
      var i :| 0 <= i < |places| && IsSignerAt(places, i, order);
      assert s.env.people[i].status == Pending;
    }
  }

  lemma AdvanceKeepsMoving(s: State, a: Action, places: seq<Place>)
    requires Inv(s) && ProgressInv(s, places) && IsRoutable(places)
    requires a.MakeAdvance? && Step(s, a) != s && s.env.request.routing == Sequential
    ensures IsMoving(Step(s, a))
  {
    hide Step, Inv, IsRoutable, GroupsMove, HasOpenSigner, ClaimedTasks, AllSigned;
    var s' := Step(s, a);
    ClaimedTasksStep(s, a);
    StepMoves(s, a);
    if !s'.lost && !AllSigned(s'.env.people) && ClaimedTasks(s') == {} {
      assert ClaimedTasks(s) == {a.id};
      if AllSigned(s.env.people) {
        AllSignedStays(s, s');
      } else if HasOpenSigner(s) {
        OpenSignerStays(s, a);
      } else {
        NextGroupHasSigner(s, places);
        var i :| 0 <= i < |places| && s.env.people[i].role == Signer && s.env.people[i].status == Pending
                 && Handoff(s.env) == Some(s.env.people[i].order);
        PromotedSignerIsOpen(s, a, i);
      }
    }
  }

  lemma PromotedSignerIsOpen(s: State, a: Action, i: nat)
    requires a.MakeAdvance? && Step(s, a) != s && i < |s.env.people| && !AllSigned(s.env.people)
    requires s.env.people[i].role == Signer && s.env.people[i].status == Pending
    requires Handoff(s.env) == Some(s.env.people[i].order)
    ensures HasOpenSigner(Step(s, a))
  {
    hide Handoff, AllSigned;
    assert IsOpen(Step(s, a).env.people[i]) && Step(s, a).env.people[i].role == Signer;
  }

  // ----- progress over runs

  lemma StepKeepsProgress(s: State, a: Action, places: seq<Place>)
    requires Inv(s) && ProgressInv(s, places) && IsRoutable(places) && s.env.request.routing == Sequential
    ensures ProgressInv(Step(s, a), places)
  {
    hide Step, Inv, IsRoutable, HasPlaces, GroupsMove, IsMoving, ClaimedTasks;
    PlacesAreFixed(s, a, places);
    ClaimedTasksStep(s, a);
    CountersStep(s, a);
    StepMoves(s, a);
    if a.MakeAdvance? && Step(s, a) != s {
      AdvanceKeepsGroups(s, a, places);
      AdvanceKeepsMoving(s, a, places);
    } else {
      OtherStepKeepsGroups(s, a, places);
      OtherStepKeepsMoving(s, a);
    }
  }

  lemma {:induction false} RunKeepsProgress(s: State, actions: seq<Action>, places: seq<Place>)
    requires Inv(s) && ProgressInv(s, places) && IsRoutable(places) && s.env.request.routing == Sequential
    ensures ProgressInv(Run(s, actions), places)
    decreases actions
  {
    hide Step, Inv, IsRoutable, ProgressInv;
    if actions != [] {
      StepKeepsProgress(s, actions[0], places);
      StepKeepsInv(s, actions[0]);
      StepMoves(s, actions[0]);
      RunKeepsProgress(Step(s, actions[0]), actions[1..], places);
    }
  }

  // ----- from a send onwards

  /** Nobody is signing, nothing is under way that would invite anybody, and yet the envelope
      waits to be signed. */
  predicate IsStalled(s: State) {
    !s.lost && IsQuiescent(s) && IsLive(s.env.request) && !HasOpenSigner(s)
  }

  lemma StartPeople(
    input: SendInput, fields: seq<FieldRules.Field>, now: int, ttl: int, minted: seq<TokenHash>)
    requires IsAccepted(input, fields, now, ttl, minted)
    ensures var s := Start(input, fields, now, ttl, minted);
            && s.env.people == NewPeople(input, now, minted)
            && s.env.request.routing == input.routing
            && s.claims == [] && s.advances == 0 && s.tasks == map[] && !s.lost
  {
  }

  lemma FirstAgrees(people: seq<Invitee>, order: int)
    ensures IsFirst(InvitedPlaces(people), order) <==> IsFirstGroup(people, order)
  {
    assert forall k :: 0 <= k < |people| ==> InvitedPlaces(people)[k].order == people[k].order;
  }

  /** Right after a send, the signers of the first group are invited and nobody else is. */
  lemma StartGroups(input: SendInput, now: int, minted: seq<TokenHash>, i: nat)
    requires |minted| == |input.people| && i < |input.people| && input.routing == Sequential
    ensures var r, places := NewPeople(input, now, minted)[i], InvitedPlaces(input.people);
            && places[i] == Place(r.role, r.order)
            && (r.status == Pending <==> !(r.role == Signer && IsFirst(places, places[i].order)))
            && (r.status == Pending || IsOpen(r))
  {
    hide IsFirst, IsFirstGroup;
    FirstAgrees(input.people, input.people[i].order);
  }

  lemma StartMakesProgress(
    input: SendInput, fields: seq<FieldRules.Field>, now: int, ttl: int, minted: seq<TokenHash>)
    requires IsAccepted(input, fields, now, ttl, minted) && input.routing == Sequential
    requires IsRoutable(InvitedPlaces(input.people))
    ensures ProgressInv(Start(input, fields, now, ttl, minted), InvitedPlaces(input.people))
  {
    hide IsCovered, IsRoutable, IsFirst, Start, NewPeople, NewEnvelope, AreFresh, InvitedPlaces;
    var s, places := Start(input, fields, now, ttl, minted), InvitedPlaces(input.people);
    StartPeople(input, fields, now, ttl, minted);
    InvitedRoles(input.people);
    forall i | 0 <= i < |places|
      ensures places[i] == Place(s.env.people[i].role, s.env.people[i].order)
      ensures s.env.people[i].status == Pending <==> !(places[i].role == Signer && IsFirst(places, places[i].order))
      ensures s.env.people[i].status == Pending || IsOpen(s.env.people[i])
    {
      StartGroups(input, now, minted, i);
    }
    assert ClaimedTasks(s) == {};
    FirstGroupHasSigner(places);
    var i :| 0 <= i < |places| && places[i].role == Signer && IsFirst(places, places[i].order);
    assert IsOpen(s.env.people[i]) && s.env.people[i].role == Signer;
  }

  lemma InvitedRoles(people: seq<Invitee>)
    ensures |InvitedPlaces(people)| == |people|
    ensures forall i :: 0 <= i < |people| ==> InvitedPlaces(people)[i].role == people[i].role
  {
  }

  lemma FirstGroupHasSigner(places: seq<Place>)
    requires IsRoutable(places) && exists i :: 0 <= i < |places| && places[i].role == Signer
    ensures exists i :: 0 <= i < |places| && places[i].role == Signer && IsFirst(places, places[i].order)
  {
    var p :| 0 <= p < |places| && places[p].role == Signer;
    var f := LowestOrder(places);
    if places[f].role == Cc && places[f].order < places[p].order {
      assert IsCovered(places, places[f].order);
    }
  }

  lemma {:induction false} LowestOrder(places: seq<Place>) returns (f: nat)
    requires places != []
    ensures f < |places| && IsFirst(places, places[f].order)
  {
    f := 0;
    for i := 1 to |places|
      invariant f < i && forall k :: 0 <= k < i ==> places[f].order <= places[k].order
    {
      if places[i].order < places[f].order {
        f := i;
      }
    }
  }

  /** Parallel routing, or a sequential one that covers every cc, never stalls: in every state a
      crash-free run can reach, a live envelope with no advance under way has a signer who is
      invited and holds a link. */
  lemma CoveredRoutingNeverStalls(
    input: SendInput, fields: seq<FieldRules.Field>, now: int, ttl: int, minted: seq<TokenHash>, actions: seq<Action>)
    requires IsAccepted(input, fields, now, ttl, minted)
    requires input.routing == Parallel || IsRoutable(InvitedPlaces(input.people))
    ensures var s := Run(Start(input, fields, now, ttl, minted), actions);
            !s.lost && IsQuiescent(s) && IsLive(s.env.request) ==>
              exists i :: 0 <= i < |s.env.people| && s.env.people[i].role == Signer
                          && IsOpen(s.env.people[i]) && s.env.people[i].hash.Some?
  {
    hide Run, Inv, IsAccepted, ProgressInv, IsRoutable;
    var start := Start(input, fields, now, ttl, minted);
    var s := Run(start, actions);
    assert IsStart(start);
    StartIsOk(start);
    RunKeepsInv(start, actions);
    RunMoves(start, actions);
    StartPeople(input, fields, now, ttl, minted);
    if !s.lost && IsQuiescent(s) && IsLive(s.env.request) {
      if input.routing == Sequential {
        StartMakesProgress(input, fields, now, ttl, minted);
        RunKeepsProgress(start, actions, InvitedPlaces(input.people));
        SomebodyIsOpen(s, InvitedPlaces(input.people));
      } else {
        SomebodyIsOpenInParallel(s);
      }
      OpenSignerHasLink(s);
    }
  }

  lemma SomebodyIsOpen(s: State, places: seq<Place>)
    requires Inv(s) && ProgressInv(s, places) && !s.lost && IsQuiescent(s) && IsLive(s.env.request)
    ensures HasOpenSigner(s)
  {
    hide PeopleOk, RoutingOk, TasksOk, ClaimsOk, HasPlaces, GroupsMove, HasOpenSigner;
    assert ClaimedTasks(s) == {};
  }

  lemma SomebodyIsOpenInParallel(s: State)
    requires Inv(s) && !s.lost && IsQuiescent(s) && IsLive(s.env.request) && s.env.request.routing == Parallel
    ensures HasOpenSigner(s)
  {
    hide FieldValues.FormComplete, RoutingOk, TasksOk, ClaimsOk;
    var i :| 0 <= i < |s.env.people| && s.env.people[i].role == Signer && s.env.people[i].status != Completed;
    assert PersonOk(s, i);
    assert IsOpen(s.env.people[i]);
  }

  lemma OpenSignerHasLink(s: State)
    requires Inv(s) && HasOpenSigner(s) && IsLive(s.env.request)
    ensures exists i :: 0 <= i < |s.env.people| && s.env.people[i].role == Signer
                        && IsOpen(s.env.people[i]) && s.env.people[i].hash.Some?
  {
    hide FieldValues.FormComplete, RoutingOk, TasksOk, ClaimsOk, RequestOk;
    var i :| 0 <= i < |s.env.people| && s.env.people[i].role == Signer && IsOpen(s.env.people[i]);
    assert PersonOk(s, i);
  }

  // ----- how many claims it takes

  function Signers(e: Envelope): set<nat> {
    set i: nat | i < |e.people| && e.people[i].role == Signer
  }

  lemma {:induction false} DistinctClaims(claims: seq<Claim>)
    requires forall k, l :: 0 <= k < l < |claims| ==> claims[k].who != claims[l].who
    ensures |set c | c in claims :: c.who| == |claims|
  {
    if claims != [] {
      var n := |claims| - 1;
      DistinctClaims(claims[..n]);
      assert claims == claims[..n] + [claims[n]];
      assert (set c | c in claims :: c.who) == (set c | c in claims[..n] :: c.who) + {claims[n].who};
      assert claims[n].who !in (set c | c in claims[..n] :: c.who);
    }
  }

  /** An envelope is completed by exactly as many winning claims as it has signers. */
  lemma OneClaimPerSigner(s: State)
    requires IsReachable(s) && s.env.request.status == IsCompleted
    ensures |s.claims| == |Signers(s.env)|
  {
    hide IsReachable, FieldValues.FormComplete, RoutingOk, TasksOk;
    ReachableIsOk(s);
    DistinctClaims(s.claims);
    var claimants := set c | c in s.claims :: c.who;
    forall i | i in claimants ensures i in Signers(s.env) {
      var c :| c in s.claims && c.who == i;
      assert ClaimOk(s, c);
      assert PersonOk(s, i);
    }
    forall i | i in Signers(s.env) ensures i in claimants {
      assert s.env.people[i].status == Completed;
      var k :| 0 <= k < |s.claims| && s.claims[k].who == i;
      assert s.claims[k] in s.claims;
    }
    assert claimants == Signers(s.env);
  }
}
