/** What the sender's actions and the two sweeps do to people's links, what a view leaves behind,
    and whom the door after signing lets in. */
module SigningLinks {
  import opened Wrappers
  import opened Envelope
  import opened SigningRun
  import opened SigningInvariant
  import opened SigningSafety
  import opened SigningStall
  import FieldValues

  // ----- new links

  /** `who`, and nobody else's row, has changed: the link just minted is theirs, and the one they
      held before is nobody's for good. */
  ghost predicate IsRotated(s: State, s': State, who: nat, minted: TokenHash) {
    && who < |s.env.people| == |s'.env.people| && s'.env.request == s.env.request
    && HolderOf(s'.env.people, minted) == Some(who)
    && (s.env.people[who].hash.Some? ==> IsSpent(s', s.env.people[who].hash.value))
    && (forall i :: 0 <= i < |s.env.people| && i != who ==> s'.env.people[i] == s.env.people[i])
  }

  lemma NewLinkIsTheirs(s: State, s': State, who: nat, minted: TokenHash)
    requires Inv(s) && minted !in s.owner && who < |s.env.people| == |s'.env.people|
    requires s'.env.request == s.env.request && s.owner.Keys <= s'.owner.Keys
    requires s'.env.people[who].hash == Some(minted)
    requires forall i :: 0 <= i < |s.env.people| && i != who ==> s'.env.people[i] == s.env.people[i]
    ensures IsRotated(s, s', who, minted)
  {
    hide FieldValues.FormComplete, RoutingOk, TasksOk, RequestOk, ClaimsOk, HolderFrom;
    forall i | 0 <= i < |s.env.people| && i != who
      ensures s'.env.people[i].hash != Some(minted)
      ensures s.env.people[who].hash.Some? ==> s'.env.people[i].hash != s.env.people[who].hash
    {
      assert PersonOk(s, i) && PersonOk(s, who);
    }
    assert PersonOk(s, who);
  }

  /** A reminder's mail carries the link that works, and the link it replaces is dead. */
  lemma ReminderRotates(s: State, who: nat, minted: TokenHash)
    requires Inv(s) && who in s.due && minted !in s.owner
    requires who < |s.env.people| && s.env.people[who].status != Completed
    ensures var s', r := Step(s, SweepReminder(who, minted)), s.env.people[who];
            && IsRotated(s, s', who, minted)
            && s'.env.people[who] == r.(hash := Some(minted), lastRemindedAt := Some(s.clock),
                                        reminderCount := r.reminderCount + 1)
  {
    hide Inv, IsRotated;
    NewLinkIsTheirs(s, Step(s, SweepReminder(who, minted)), who, minted);
  }

  /** The last moment this person was sent a link, as a resend counts. */
  function LastSent(r: Recipient): Option<int> {
    if r.sentAt.Some? then r.sentAt else r.lastRemindedAt
  }

  /** A resend goes through exactly for a signer who is invited and has not signed, on a live
      envelope, a minute after the last one; it then leaves them with the new link alone. */
  lemma ResendRotates(s: State, who: nat, minted: TokenHash)
    requires Inv(s) && minted !in s.owner
    ensures var s' := Step(s, SenderResends(who, minted));
            if && IsLive(s.env.request) && who < |s.env.people| && s.env.people[who].role == Signer
               && IsOpen(s.env.people[who])
               && (LastSent(s.env.people[who]).Some? ==> LastSent(s.env.people[who]).value + 60_000 <= s.clock)
            then && IsRotated(s, s', who, minted)
                 && s'.env.people[who] ==
                    s.env.people[who].(hash := Some(minted), sentAt := Some(s.clock), status := Sent)
            else s' == s
  {
    hide Inv, IsRotated;
    var s' := Step(s, SenderResends(who, minted));
    if s' != s {
      NewLinkIsTheirs(s, s', who, minted);
    }
  }

  /** Whoever is invited and has not signed is found by the next sweep of a live envelope before
      its expiry, and mailed a link that works. */
  lemma SweepReachesTheInvited(s: State, who: nat, minted: TokenHash)
    requires Inv(s) && IsLive(s.env.request) && s.clock < s.env.request.expiresAt && minted !in s.owner
    requires who < |s.env.people| && s.env.people[who].role == Signer && IsOpen(s.env.people[who])
    ensures IsRotated(s, Run(s, [FindDue(who), SweepReminder(who, minted)]), who, minted)
  {
    hide FieldValues.FormComplete, RoutingOk, TasksOk, RequestOk, ClaimsOk, HolderOf;
    var found := Step(s, FindDue(who));
    RunTwo(s, FindDue(who), SweepReminder(who, minted));
    assert PersonOk(s, who);
    assert found == s.(due := s.due + {who});
    StepKeepsInv(s, FindDue(who));
    ReminderRotates(found, who, minted);
  }

  // ----- resends are a minute apart

  /** Somebody invited, last at `c` or later. */
  predicate IsSentSince(s: State, who: nat, c: int) {
    && who < |s.env.people| && c <= s.clock && s.env.people[who].status != Pending
    && s.env.people[who].sentAt.Some? && c <= s.env.people[who].sentAt.value
  }

  lemma SentSinceStep(s: State, a: Action, who: nat, c: int)
    requires IsSentSince(s, who, c)
    ensures IsSentSince(Step(s, a), who, c)
  {
    hide FieldValues.Resolve, FieldsOf, HolderOf, Handoff, AllSigned, AreFresh;
    if a.MakeAdvance? && Step(s, a) != s {
      AdvancedRow(s.env, s.tasks[a.id].at.now, a.links, who);
    }
  }

  lemma {:induction false} SentSinceRun(s: State, actions: seq<Action>, who: nat, c: int)
    requires IsSentSince(s, who, c)
    ensures IsSentSince(Run(s, actions), who, c)
    decreases actions
  {
    hide Step, IsSentSince;
    if actions != [] {
      SentSinceStep(s, actions[0], who, c);
      SentSinceRun(Step(s, actions[0]), actions[1..], who, c);
    }
  }

  /** Whatever happens in between, a second resend to one person within a minute of the first is
      refused. */
  lemma ResendsAreSpaced(s: State, who: nat, minted: TokenHash, between: seq<Action>, again: TokenHash)
    requires Step(s, SenderResends(who, minted)) != s
    requires Run(Step(s, SenderResends(who, minted)), between).clock < s.clock + 60_000
    ensures var t := Run(Step(s, SenderResends(who, minted)), between);
            Step(t, SenderResends(who, again)) == t
  {
    hide Run;
    var s1 := Step(s, SenderResends(who, minted));
    assert IsSentSince(s1, who, s.clock);
    SentSinceRun(s1, between, who, s.clock);
  }

  // ----- retiring

  /** Nobody who has not signed holds a link, and nothing else about the people has changed. */
  predicate IsUnlinked(e: Envelope, e': Envelope) {
    && |e'.people| == |e.people|
    && forall i :: 0 <= i < |e.people| ==>
         if e.people[i].status == Completed then e'.people[i] == e.people[i]
         else e'.people[i] == e.people[i].(hash := None)
  }

  /** A void retires every envelope but a completed one, and every link with it; a second one
      changes nothing. */
  lemma VoidRetires(s: State)
    ensures var s', q := Step(s, SenderVoids), s.env.request;
            && (q.status == IsCompleted || q.status == IsVoided ==> s' == s)
            && (q.status != IsCompleted && q.status != IsVoided ==>
                  s'.env.request == q.(status := IsVoided, voidedAt := Some(s.clock)) && IsUnlinked(s.env, s'.env))
  {
  }

  /** The expiry sweep retires a live envelope past its moment with every link, and leaves every
      other alone. */
  lemma ExpiryRetires(s: State)
    requires !s.expiryDue
    ensures var s', q := Run(s, [FindExpired, SweepExpired]), s.env.request;
            && (IsLive(q) && q.expiresAt <= s.clock ==>
                  s'.env.request.status == IsExpired && IsUnlinked(s.env, s'.env)
                  && s'.env.request.expiredNotifiedAt
                     == if q.expiredNotifiedAt.Some? then q.expiredNotifiedAt else Some(s.clock))
            && (!IsLive(q) || s.clock < q.expiresAt ==> s' == s)
  {
    RunTwo(s, FindExpired, SweepExpired);
  }

  lemma ToldStep(s: State, a: Action)
    requires s.env.request.expiredNotifiedAt.Some?
    ensures Step(s, a).env.request.expiredNotifiedAt == s.env.request.expiredNotifiedAt
  {
    hide FieldValues.Resolve, FieldsOf, HolderOf, Handoff, AllSigned, AreFresh;
    if a.MakeAdvance? && Step(s, a) != s {
      AdvancedRequest(s.env, s.tasks[a.id].at.now, a.links);
    }
  }

  /** The sender is told of an expiry once. */
  lemma {:induction false} ToldOnce(s: State, actions: seq<Action>)
    requires s.env.request.expiredNotifiedAt.Some?
    ensures Run(s, actions).env.request.expiredNotifiedAt == s.env.request.expiredNotifiedAt
    decreases actions
  {
    hide Step;
    if actions != [] {
      ToldStep(s, actions[0]);
      ToldOnce(Step(s, actions[0]), actions[1..]);
    }
  }

  // ----- views

  function Viewing(h: TokenHash, now: int): seq<Action> {
    [Present(0, ToView, h), ReadRequest(0), ReadPerson(0), WriteView(0, now)]
  }

  /** An undisturbed view marks person and envelope as viewed, each at their first time, and
      changes nothing else. */
  lemma ViewRecords(s: State, who: nat, h: TokenHash)
    requires Inv(s) && IsIdle(s) && HoldsLink(s, who, h)
    ensures var s', r, q := Run(s, Viewing(h, s.clock)), s.env.people[who], s.env.request;
            && who < |s'.env.people|
            && s' == s.(env := Envelope(s'.env.request, s.env.people[who := s'.env.people[who]]))
            && s'.env.people[who] == (if r.status == Sent then r.(status := Viewed, viewedAt := Some(s.clock)) else r)
            && (r.status == Sent ==>
                  s'.env.request ==
                  if q.status == IsSent then q.(status := IsViewed, viewedAt := Some(s.clock)) else q)
            && (r.status != Sent ==> s'.env.request == q)
  {
    hide Inv;
    RunFour(s, Present(0, ToView, h), ReadRequest(0), ReadPerson(0), WriteView(0, s.clock));
    LoadSucceeds(s, ToView, who, h);
    ViewStep(s, who, h);
  }

  lemma ViewStep(s: State, who: nat, h: TokenHash)
    requires IsIdle(s) && HoldsLink(s, who, h)
    ensures Step(s.(tasks := map[0 := Task(ToView, h, who,
                                           Loaded(s.env.people[who].status, s.env.people[who].consentAt))]),
                 WriteView(0, s.clock))
         == (if s.env.people[who].status == Sent then s.(env := RecordView(s.env, who, s.clock)) else s)
  {
    var r := s.env.people[who];
    var loaded := s.(tasks := map[0 := Task(ToView, h, who, Loaded(r.status, r.consentAt))]);
    assert Drop(loaded, 0) == s by {
      assert loaded.tasks - {0} == map[];
    }
  }

  predicate IsSeen(s: State, who: nat, at: int) {
    && who < |s.env.people| && s.env.people[who].viewedAt == Some(at)
    && (s.env.people[who].status == Viewed || s.env.people[who].status == Completed)
  }

  lemma SeenStep(s: State, a: Action, who: nat, at: int)
    requires IsSeen(s, who, at) && !(a.SenderResends? && a.who == who)
    ensures IsSeen(Step(s, a), who, at)
  {
    hide FieldValues.Resolve, FieldsOf, HolderOf, Handoff, AllSigned, AreFresh;
    if a.MakeAdvance? && Step(s, a) != s {
      AdvancedRow(s.env, s.tasks[a.id].at.now, a.links, who);
    }
  }

  /** What the certificate calls the first opening is that, as long as the sender does not resend
      the link. */
  lemma {:induction false} FirstViewLasts(s: State, actions: seq<Action>, who: nat, at: int)
    requires IsSeen(s, who, at)
    requires forall k :: 0 <= k < |actions| ==> !(actions[k].SenderResends? && actions[k].who == who)
    ensures IsSeen(Run(s, actions), who, at)
    decreases actions
  {
    hide Step, IsSeen;
    if actions != [] {
      SeenStep(s, actions[0], who, at);
      FirstViewLasts(Step(s, actions[0]), actions[1..], who, at);
    }
  }

  /** If the sender does, the next view replaces it. */
  lemma ResendForgetsTheView(s: State, who: nat, minted: TokenHash, at: int)
    requires Inv(s) && IsIdle(s) && minted !in s.owner && IsSeen(s, who, at) && at < s.clock
    requires Step(s, SenderResends(who, minted)) != s
    ensures IsSeen(Run(Step(s, SenderResends(who, minted)), Viewing(minted, s.clock)), who, s.clock)
  {
    hide Inv, Run, HolderOf;
    var s1 := Step(s, SenderResends(who, minted));
    StepKeepsInv(s, SenderResends(who, minted));
    ViewRecords(s1, who, minted);
  }

  // ----- submits

  /** A submit that has been let in goes on to its claim exactly if consent is recorded, the image
      decodes and every field is filled as its rule asks; otherwise nothing of it is kept. */
  lemma SubmitGoesOnIff(s: State, id: nat, image: ObjectKey)
    requires id in s.tasks && s.tasks[id].intent.ToSubmit? && s.tasks[id].at.Loaded?
    requires s.tasks[id].who < |s.env.people| && image !in s.images
    ensures var s', t := Step(s, Prepare(id, image)), s.tasks[id];
            var fields := FieldsOf(s.env.request, s.env.people[t.who].key);
            && s'.env == s.env
            && (id in s'.tasks <==>
                  t.at.consentAt.Some? && t.intent.png
                  && forall f :: f in fields ==>
                       !FieldValues.LeavesMissing(f, t.intent.client) && !FieldValues.LeavesInvalid(f, t.intent.client))
            && (id !in s'.tasks ==> s'.images == s.images)
            && (id in s'.tasks ==>
                  && s'.tasks[id].at.Ready? && s'.images == s.images + {image}
                  && s'.tasks[id].at.sig.hash == t.hash && s'.tasks[id].at.sig.now == s.clock
                  && s'.tasks[id].at.sig.image == image)
  {
    hide FieldValues.Resolve, FieldsOf, FieldValues.LeavesMissing, FieldValues.LeavesInvalid;
    FieldValues.AcceptedMeaning(FieldsOf(s.env.request, s.env.people[s.tasks[id].who].key),
                                s.tasks[id].intent.client, s.clock);
  }

  // ----- the door after signing

  /** Right after completion, and until the envelope's expiry, the door opens for everyone who
      signed, with the link they signed with. */
  lemma DoorOpensForSigners(s: State, c: Claim)
    requires IsReachable(s) && c in s.claims
    requires s.env.request.status == IsCompleted && s.clock < s.env.request.expiresAt
    ensures OpensCompletedDoor(s, s, s, c.hash)
  {
    hide IsReachable, FieldValues.FormComplete, RoutingOk, TasksOk, RequestOk, HolderFrom;
    ReachableIsOk(s);
    assert ClaimOk(s, c);
    assert PersonOk(s, c.who);
    var found := HolderOf(s.env.people, c.hash);
    assert PersonOk(s, found.value);
  }
}
