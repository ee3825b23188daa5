/** What every step of the signing protocol keeps, and the safety it gives over whole runs. */
module SigningInvariant {
  import opened Wrappers
  import opened Envelope
  import opened SigningRun
  import FieldValues

  // ----- how rows may move

  /** One person's row only ever moves forward: once completed nothing in it changes, and a
      recorded consent is never rewritten. */
  ghost predicate PersonMoves(r: Recipient, r': Recipient) {
    && r'.email == r.email && r'.role == r.role && r'.order == r.order && r'.key == r.key
    && (r'.status == Pending ==> r.status == Pending)
    && (r.status == Completed ==> r' == r)
    && (r.consentAt.Some? ==> r'.consentAt == r.consentAt)
  }

  ghost predicate RequestMoves(q: Request, q': Request) {
    && q'.routing == q.routing && q'.fields == q.fields && q'.expiresAt == q.expiresAt
    && (IsRetired(q) ==> IsRetired(q'))
    && (q.status == IsCompleted ==> q'.status == IsCompleted && q'.completedAt == q.completedAt)
  }

  ghost predicate Extends<K, V>(m: map<K, V>, m': map<K, V>) {
    forall k :: k in m ==> k in m' && m'[k] == m[k]
  }

  /** How any number of steps may change the state, tasks aside. */
  ghost predicate Moves(s: State, s': State) {
    && |s'.env.people| == |s.env.people|
    && (forall i :: 0 <= i < |s.env.people| ==> PersonMoves(s.env.people[i], s'.env.people[i]))
    && RequestMoves(s.env.request, s'.env.request)
    && s.clock <= s'.clock
    && Extends(s.owner, s'.owner)
    && s.images <= s'.images
    && s.claims <= s'.claims
    && (s.lost ==> s'.lost)
  }

  lemma TaskStepsMove(s: State, a: Action)
    requires a.Present? || a.ReadRequest? || a.ReadPerson? || a.Prepare? || a.Crash?
    ensures Moves(s, Step(s, a))
  {
    hide FieldValues.Resolve;
  }

  lemma ViewMoves(s: State, a: Action)
    requires a.WriteView?
    ensures Moves(s, Step(s, a))
  {
  }

  lemma ConsentMoves(s: State, a: Action)
    requires a.WriteConsent?
    ensures Moves(s, Step(s, a))
  {
  }

  lemma ClaimMoves(s: State, a: Action)
    requires a.MakeClaim?
    ensures Moves(s, Step(s, a))
  {
  }

  /** What an advance does to one row: nothing, or the promotion of somebody pending. */
  lemma AdvancedRow(e: Envelope, now: int, minted: seq<TokenHash>, i: nat)
    requires |minted| == |e.people| && i < |e.people|
    ensures var e' := Advanced(e, now, minted);
            && |e'.people| == |e.people|
            && (e'.people[i] == e.people[i]
                || (e.people[i].status == Pending
                    && e'.people[i] == Promoted(e.people[i], e.people[i].order, now, minted[i])))
  {
    hide Handoff, AllSigned;
    AdvancedRequest(e, now, minted);
  }

  lemma AdvancedRequest(e: Envelope, now: int, minted: seq<TokenHash>)
    requires |minted| == |e.people|
    ensures var e' := Advanced(e, now, minted);
            && |e'.people| == |e.people|
            && (e'.request == e.request
                || (IsLive(e.request) && AllSigned(e.people)
                    && e'.request == e.request.(status := IsCompleted, completedAt := Some(now))))
  {
    hide Handoff, AllSigned;
  }

  lemma AdvanceMoves(s: State, a: Action)
    requires a.MakeAdvance?
    ensures Moves(s, Step(s, a))
  {
    hide Advanced, AllSigned, HolderOf, CanClaim, FieldsOf, FieldValues.Resolve;
    if Step(s, a) != s {
      forall i | 0 <= i < |s.env.people|
        ensures |Step(s, a).env.people| == |s.env.people|
        ensures PersonMoves(s.env.people[i], Step(s, a).env.people[i])
      {
        AdvancedRow(s.env, s.tasks[a.id].at.now, a.links, i);
      }
      AdvancedRequest(s.env, s.tasks[a.id].at.now, a.links);
    }
  }

  lemma RetiringMoves(s: State, a: Action)
    requires a.SenderVoids? || a.SweepExpired?
    ensures Moves(s, Step(s, a))
  {
  }

  lemma ResendMoves(s: State, a: Action)
    requires a.SenderResends?
    ensures Moves(s, Step(s, a))
  {
    var s' := Step(s, a);
    forall i | 0 <= i < |s.env.people| && |s'.env.people| == |s.env.people|
      ensures PersonMoves(s.env.people[i], s'.env.people[i])
    {
    }
  }

  lemma ReminderMoves(s: State, a: Action)
    requires a.SweepReminder?
    ensures Moves(s, Step(s, a))
  {
    var s' := Step(s, a);
    forall i | 0 <= i < |s.env.people| && |s'.env.people| == |s.env.people|
      ensures PersonMoves(s.env.people[i], s'.env.people[i])
    {
    }
  }

  /** Every step moves the rows forward only. */
  lemma StepMoves(s: State, a: Action)
    ensures Moves(s, Step(s, a))
  {
    hide DoPresent, DoReadRequest, DoReadPerson, DoPrepare, DoClaim, DoAdvance, DoView, DoConsent, DoCrash,
         DoVoid, DoResend, DoSweepExpired, DoSweepReminder;
    if a.Present? || a.ReadRequest? || a.ReadPerson? || a.Prepare? || a.Crash? {
      TaskStepsMove(s, a);
    } else if a.WriteView? {
      ViewMoves(s, a);
    } else if a.WriteConsent? {
      ConsentMoves(s, a);
    } else if a.MakeClaim? {
      ClaimMoves(s, a);
    } else if a.MakeAdvance? {
      AdvanceMoves(s, a);
    } else if a.SenderVoids? || a.SweepExpired? {
      RetiringMoves(s, a);
    } else if a.SenderResends? {
      ResendMoves(s, a);
    } else if a.SweepReminder? {
      ReminderMoves(s, a);
    }
  }

  lemma {:induction false} RunMoves(s: State, actions: seq<Action>)
    ensures Moves(s, Run(s, actions))
    decreases actions
  {
    hide Step;
    if actions != [] {
      StepMoves(s, actions[0]);
      RunMoves(Step(s, actions[0]), actions[1..]);
    }
  }

  // ----- the invariant

  ghost predicate HasSigned(r: Recipient) {
    r.role == Signer && r.status == Completed && r.completedAt.Some?
  }

  /** What a completed person's row proves. */
  ghost predicate IsEvidence(s: State, r: Recipient) {
    && r.role == Signer && r.hash.Some?
    && r.consentAt.Some? && r.completedAt.Some? && r.consentAt.value <= r.completedAt.value <= s.clock
    && r.image.Some? && r.image.value in s.images
    && FieldValues.FormComplete(FieldsOf(s.env.request, r.key), r.values, r.completedAt.value)
  }

  ghost predicate PersonOk(s: State, i: nat)
    requires i < |s.env.people|
  {
    var r := s.env.people[i];
    && (r.hash.Some? ==>
          r.role == Signer && r.status != Pending && r.hash.value in s.owner && s.owner[r.hash.value] == i)
    && (r.status == Completed ==> IsEvidence(s, r))
    && (r.consentAt.Some? ==> r.consentAt.value <= s.clock)
    && (r.role == Signer && IsOpen(r) && IsLive(s.env.request) ==> r.hash.Some?)
    && (r.role == Signer && s.env.request.routing == Parallel ==> r.status != Pending)
  }

  ghost predicate PeopleOk(s: State) {
    forall i :: 0 <= i < |s.env.people| ==> PersonOk(s, i)
  }

  /** Sequential routing: nobody is out of `pending` before every signer of a lower group has
      signed, and signing moments follow the groups. */
  ghost predicate InTurn(r: Recipient, lower: Recipient) {
    r.status != Pending && lower.role == Signer && lower.order < r.order ==>
      HasSigned(lower)
      && (r.status == Completed && r.completedAt.Some? ==> lower.completedAt.value <= r.completedAt.value)
  }

  ghost predicate RoutingOk(s: State) {
    s.env.request.routing == Sequential ==>
      forall i, j :: 0 <= i < |s.env.people| && 0 <= j < |s.env.people| ==>
        InTurn(s.env.people[i], s.env.people[j])
  }

  /** Everyone before `who` has signed by `now`. */
  ghost predicate EarlierSignedBy(e: Envelope, who: nat, now: int)
    requires who < |e.people|
  {
    e.request.routing == Sequential ==>
      forall j :: 0 <= j < |e.people| && e.people[j].role == Signer && e.people[j].order < e.people[who].order ==>
        HasSigned(e.people[j]) && e.people[j].completedAt.value <= now
  }

  ghost predicate SignatureOk(s: State, who: nat, sig: Signature)
    requires who < |s.env.people|
  {
    var r := s.env.people[who];
    && r.consentAt.Some? && r.consentAt.value <= sig.now <= s.clock
    && sig.image in s.images
    && FieldValues.FormComplete(FieldsOf(s.env.request, r.key), sig.values, sig.now)
    && EarlierSignedBy(s.env, who, sig.now)
  }

  ghost predicate TaskOk(s: State, t: Task) {
    && t.who < |s.env.people| && t.hash in s.owner && s.owner[t.hash] == t.who
    && s.env.people[t.who].role == Signer && s.env.people[t.who].status != Pending
    && (t.at.Loaded? && t.at.consentAt.Some? ==> s.env.people[t.who].consentAt == t.at.consentAt)
    && (t.at.Ready? ==> t.at.sig.hash == t.hash && SignatureOk(s, t.who, t.at.sig))
    && (t.at.Claimed? ==> s.env.people[t.who].status == Completed && t.at.now <= s.clock)
  }

  ghost predicate IsPastRequestRead(t: Task) {
    t.at.RequestRead? || t.at.Loaded? || t.at.Ready?
  }

  /** A task that has already read the envelope's row can do nothing once it is retired. */
  ghost predicate IsHarmless(s: State, t: Task) {
    IsRetired(s.env.request) && IsPastRequestRead(t) ==> !CanClaim(s.env, t.who, t.hash)
  }

  ghost predicate TasksOk(s: State) {
    forall id :: id in s.tasks ==> TaskOk(s, s.tasks[id]) && IsHarmless(s, s.tasks[id])
  }

  ghost predicate ClaimOk(s: State, c: Claim) {
    && c.who < |s.env.people|
    && s.env.people[c.who].status == Completed && s.env.people[c.who].hash == Some(c.hash)
    && s.env.people[c.who].completedAt == Some(c.now)
  }

  ghost predicate ClaimsOk(s: State) {
    && (forall k :: 0 <= k < |s.claims| ==> ClaimOk(s, s.claims[k]))
    && (forall k, l :: 0 <= k < l < |s.claims| ==> s.claims[k].who != s.claims[l].who)
    && (forall i :: 0 <= i < |s.env.people| && s.env.people[i].status == Completed ==>
          exists k :: 0 <= k < |s.claims| && s.claims[k].who == i)
  }

  ghost predicate IsAdvancing(s: State) {
    exists id :: id in s.tasks && s.tasks[id].at.Claimed?
  }

  ghost predicate RequestOk(s: State) {
    && (exists i :: 0 <= i < |s.env.people| && s.env.people[i].role == Signer)
    && (s.env.request.status == IsCompleted ==>
          AllSigned(s.env.people) && s.env.request.completedAt.Some? && s.env.request.completedAt.value <= s.clock)
    && (s.env.request.status == IsExpired ==> s.env.request.expiresAt <= s.clock)
    && (s.expiryDue ==> s.env.request.expiresAt <= s.clock)
    && (forall i :: i in s.due ==>
          i < |s.env.people| && s.env.people[i].role == Signer && s.env.people[i].status != Pending)
    && (IsLive(s.env.request) && AllSigned(s.env.people) ==> s.lost || IsAdvancing(s))
  }

  ghost predicate Inv(s: State) {
    PeopleOk(s) && RoutingOk(s) && TasksOk(s) && ClaimsOk(s) && RequestOk(s)
  }

  // ----- people

  lemma PersonStays(s: State, s': State, i: nat)
    requires i < |s.env.people| && PersonOk(s, i) && Moves(s, s') && s'.env.people[i] == s.env.people[i]
    requires IsLive(s'.env.request) ==> IsLive(s.env.request)
    ensures PersonOk(s', i)
  {
    hide FieldValues.FormComplete;
  }

  /** Steps that touch one row at most, or none. */
  lemma OneRowKeepsPeople(s: State, s': State, who: nat)
    requires PeopleOk(s) && Moves(s, s')
    requires forall i :: 0 <= i < |s.env.people| && i != who ==> s'.env.people[i] == s.env.people[i]
    requires IsLive(s'.env.request) ==> IsLive(s.env.request)
    requires who < |s.env.people| ==> PersonOk(s', who)
    ensures PeopleOk(s')
  {
    hide PersonOk;
    forall i | 0 <= i < |s'.env.people| ensures PersonOk(s', i) {
      if i != who {
        PersonStays(s, s', i);
      }
    }
  }

  lemma TaskStepKeepsPeople(s: State, a: Action)
    requires Inv(s) && (a.Present? || a.ReadRequest? || a.ReadPerson? || a.Prepare? || a.Crash?)
    ensures PeopleOk(Step(s, a))
  {
    hide FieldValues.FormComplete, FieldValues.Resolve, PersonOk;
    StepMoves(s, a);
    forall i | 0 <= i < |s.env.people| ensures PersonOk(Step(s, a), i) {
      PersonStays(s, Step(s, a), i);
    }
  }

  lemma ViewKeepsPerson(s: State, a: Action)
    requires Inv(s) && a.WriteView? && a.id in s.tasks
    ensures s.tasks[a.id].who < |s.env.people| && PersonOk(Step(s, a), s.tasks[a.id].who)
  {
    hide FieldValues.FormComplete, RoutingOk, ClaimsOk, RequestOk;
    assert TaskOk(s, s.tasks[a.id]);
    assert PersonOk(s, s.tasks[a.id].who);
  }

  lemma ConsentKeepsPerson(s: State, a: Action)
    requires Inv(s) && a.WriteConsent? && a.id in s.tasks
    ensures s.tasks[a.id].who < |s.env.people| && PersonOk(Step(s, a), s.tasks[a.id].who)
  {
    hide FieldValues.FormComplete, RoutingOk, ClaimsOk, RequestOk;
    assert TaskOk(s, s.tasks[a.id]);
    assert PersonOk(s, s.tasks[a.id].who);
  }

  lemma ClaimKeepsPerson(s: State, a: Action)
    requires Inv(s) && a.MakeClaim? && a.id in s.tasks
    ensures s.tasks[a.id].who < |s.env.people| && PersonOk(Step(s, a), s.tasks[a.id].who)
  {
    hide FieldValues.FormComplete, RoutingOk, ClaimsOk;
    assert TaskOk(s, s.tasks[a.id]);
    assert PersonOk(s, s.tasks[a.id].who);
  }

  lemma RowStepKeepsPeople(s: State, a: Action)
    requires Inv(s) && (a.WriteView? || a.WriteConsent? || a.MakeClaim?)
    ensures PeopleOk(Step(s, a))
  {
    hide FieldValues.FormComplete, PersonOk, RoutingOk, TasksOk, ClaimsOk, RequestOk;
    StepMoves(s, a);
    if a.id in s.tasks {
      if a.MakeClaim? {
        ClaimKeepsPerson(s, a);
      } else if a.WriteView? {
        ViewKeepsPerson(s, a);
      } else {
        ConsentKeepsPerson(s, a);
      }
      OneRowKeepsPeople(s, Step(s, a), s.tasks[a.id].who);
    } else {
      OneRowKeepsPeople(s, Step(s, a), |s.env.people|);
    }
  }

  lemma AdvanceKeepsPerson(s: State, a: Action, i: nat)
    requires Inv(s) && a.MakeAdvance? && i < |s.env.people|
    ensures PersonOk(Step(s, a), i)
  {
    hide FieldValues.FormComplete, Advanced, AllSigned, RoutingOk, ClaimsOk, TasksOk, RequestOk;
    StepMoves(s, a);
    assert PersonOk(s, i);
    if Step(s, a) != s {
      AdvancedRow(s.env, s.tasks[a.id].at.now, a.links, i);
      AdvancedRequest(s.env, s.tasks[a.id].at.now, a.links);
      if Step(s, a).env.people[i] == s.env.people[i] {
        PersonStays(s, Step(s, a), i);
      }
    }
  }

  lemma AdvanceKeepsPeople(s: State, a: Action)
    requires Inv(s) && a.MakeAdvance?
    ensures PeopleOk(Step(s, a))
  {
    hide PersonOk, Inv, Step;
    StepMoves(s, a);
    forall i | 0 <= i < |s.env.people| ensures PersonOk(Step(s, a), i) {
      AdvanceKeepsPerson(s, a, i);
    }
  }

  lemma SenderStepKeepsPeople(s: State, a: Action)
    requires Inv(s) && (a.SenderVoids? || a.SweepExpired?)
    ensures PeopleOk(Step(s, a))
  {
    hide FieldValues.FormComplete;
    var s' := Step(s, a);
    forall i | 0 <= i < |s'.env.people| ensures PersonOk(s', i) {
      assert PersonOk(s, i);
    }
  }

  lemma NewLinkKeepsPeople(s: State, a: Action)
    requires Inv(s) && (a.SenderResends? || a.SweepReminder?)
    ensures PeopleOk(Step(s, a))
  {
    hide FieldValues.FormComplete;
    StepMoves(s, a);
    if a.who < |s.env.people| {
      assert PersonOk(s, a.who);
    }
    OneRowKeepsPeople(s, Step(s, a), a.who);
  }

  lemma StepKeepsPeople(s: State, a: Action)
    requires Inv(s)
    ensures PeopleOk(Step(s, a))
  {
    hide FieldValues.FormComplete, PersonOk;
    hide DoPresent, DoReadRequest, DoReadPerson, DoPrepare, DoClaim, DoAdvance, DoView, DoConsent, DoCrash,
         DoVoid, DoResend, DoSweepExpired, DoSweepReminder;
    if a.Present? || a.ReadRequest? || a.ReadPerson? || a.Prepare? || a.Crash? {
      TaskStepKeepsPeople(s, a);
    } else if a.WriteView? || a.WriteConsent? || a.MakeClaim? {
      RowStepKeepsPeople(s, a);
    } else if a.MakeAdvance? {
      AdvanceKeepsPeople(s, a);
    } else if a.SenderVoids? || a.SweepExpired? {
      SenderStepKeepsPeople(s, a);
    } else if a.SenderResends? || a.SweepReminder? {
      NewLinkKeepsPeople(s, a);
    } else {
      StepMoves(s, a);
      forall i | 0 <= i < |s.env.people| ensures PersonOk(Step(s, a), i) {
        PersonStays(s, Step(s, a), i);
      }
    }
  }

  // ----- routing

  lemma TurnStays(r: Recipient, l: Recipient, r': Recipient, l': Recipient)
    requires InTurn(r, l) && PersonMoves(r, r') && PersonMoves(l, l')
    requires r'.status != Pending ==> r.status != Pending
    requires r'.status == Completed ==> r.status == Completed
    ensures InTurn(r', l')
  {
  }

  /** Steps after which nobody new is invited and nobody new has signed. */
  lemma QuietStepKeepsRouting(s: State, s': State)
    requires RoutingOk(s) && Moves(s, s')
    requires forall i :: 0 <= i < |s.env.people| ==>
               && (s'.env.people[i].status != Pending ==> s.env.people[i].status != Pending)
               && (s'.env.people[i].status == Completed ==> s.env.people[i].status == Completed)
    ensures RoutingOk(s')
  {
    hide InTurn, PersonMoves;
    if s'.env.request.routing == Sequential {
      forall i, j | 0 <= i < |s.env.people| && 0 <= j < |s.env.people|
        ensures InTurn(s'.env.people[i], s'.env.people[j])
      {
        TurnStays(s.env.people[i], s.env.people[j], s'.env.people[i], s'.env.people[j]);
      }
    }
  }

  lemma ClaimKeepsRouting(s: State, a: Action)
    requires Inv(s) && a.MakeClaim?
    ensures RoutingOk(Step(s, a))
  {
    hide FieldValues.FormComplete, ClaimsOk, RequestOk;
    var s' := Step(s, a);
    StepMoves(s, a);
    if s'.env != s.env && s'.env.request.routing == Sequential {
      var who, sig := s.tasks[a.id].who, s.tasks[a.id].at.sig;
      assert TaskOk(s, s.tasks[a.id]);
      forall i, j | 0 <= i < |s.env.people| && 0 <= j < |s.env.people|
        ensures InTurn(s'.env.people[i], s'.env.people[j])
      {
        assert InTurn(s.env.people[i], s.env.people[j]);
      }
    }
  }

  lemma AdvancedTurn(e: Envelope, now: int, minted: seq<TokenHash>, i: nat, j: nat)
    requires |minted| == |e.people| && i < |e.people| && j < |e.people|
    requires InTurn(e.people[i], e.people[j])
    requires e.people[j].status == Completed ==> e.people[j].completedAt.Some?
    ensures InTurn(Advanced(e, now, minted).people[i], Advanced(e, now, minted).people[j])
  {
    hide NextOrder, EarlierUnfinished;
    var r, l := e.people[i], e.people[j];
    var e' := Advanced(e, now, minted);
    if e'.people[i] != r && l.role == Signer && l.order < r.order {
      assert Handoff(e) == Some(r.order);
      NobodyEarlierUnfinished(e, j, r.order);
      assert e'.people[j] == l;
    }
  }

  lemma NobodyEarlierUnfinished(e: Envelope, j: nat, order: int)
    requires Handoff(e) == Some(order) && j < |e.people|
    ensures e.people[j].role == Signer && e.people[j].order < order ==> e.people[j].status == Completed
  {
    assert !EarlierUnfinished(e.people, order);
  }

  lemma AdvanceKeepsTurn(s: State, a: Action, i: nat, j: nat)
    requires Inv(s) && a.MakeAdvance? && i < |s.env.people| && j < |s.env.people|
    requires s.env.request.routing == Sequential
    ensures InTurn(Step(s, a).env.people[i], Step(s, a).env.people[j])
  {
    hide FieldValues.FormComplete, ClaimsOk, RequestOk, TasksOk, Advanced, InTurn;
    assert InTurn(s.env.people[i], s.env.people[j]);
    assert PersonOk(s, j);
    if Step(s, a).env != s.env {
      AdvancedTurn(s.env, s.tasks[a.id].at.now, a.links, i, j);
    }
  }

  lemma AdvanceKeepsRouting(s: State, a: Action)
    requires Inv(s) && a.MakeAdvance?
    ensures RoutingOk(Step(s, a))
  {
    hide Step, InTurn, PeopleOk, TasksOk, ClaimsOk, RequestOk, PersonMoves;
    StepMoves(s, a);
    if s.env.request.routing == Sequential {
      forall i, j | 0 <= i < |s.env.people| && 0 <= j < |s.env.people|
        ensures InTurn(Step(s, a).env.people[i], Step(s, a).env.people[j])
      {
        AdvanceKeepsTurn(s, a, i, j);
      }
    }
  }

  /** Only an advance takes anybody out of `pending`, and only a claim completes anybody. */
  lemma QuietSteps(s: State, a: Action, i: nat)
    requires i < |s.env.people| && !a.MakeAdvance? && !a.MakeClaim?
    requires Inv(s)
    ensures |Step(s, a).env.people| == |s.env.people|
    ensures Step(s, a).env.people[i].status != Pending ==> s.env.people[i].status != Pending
    ensures Step(s, a).env.people[i].status == Completed ==> s.env.people[i].status == Completed
  {
    hide FieldValues.Resolve, FieldValues.FormComplete, Inv, HolderOf;
  }

  lemma StepKeepsRouting(s: State, a: Action)
    requires Inv(s)
    ensures RoutingOk(Step(s, a))
  {
    hide Step, PeopleOk, RoutingOk, TasksOk, RequestOk, ClaimsOk;
    if a.MakeAdvance? {
      AdvanceKeepsRouting(s, a);
    } else if a.MakeClaim? {
      ClaimKeepsRouting(s, a);
    } else {
      forall i | 0 <= i < |s.env.people|
        ensures |Step(s, a).env.people| == |s.env.people|
        ensures Step(s, a).env.people[i].status != Pending ==> s.env.people[i].status != Pending
        ensures Step(s, a).env.people[i].status == Completed ==> s.env.people[i].status == Completed
      {
        QuietSteps(s, a, i);
      }
      StepMoves(s, a);
      QuietStepKeepsRouting(s, Step(s, a));
    }
  }

  // ----- tasks

  lemma EarlierSignedStays(s: State, s': State, who: nat, now: int)
    requires Moves(s, s') && who < |s.env.people| && EarlierSignedBy(s.env, who, now)
    ensures EarlierSignedBy(s'.env, who, now)
  {
    forall j | 0 <= j < |s.env.people| ensures PersonMoves(s.env.people[j], s'.env.people[j]) {
    }
  }

  /** What is known of a task stays known, whatever else happens. */
  lemma TaskStays(s: State, s': State, t: Task)
    requires Moves(s, s') && TaskOk(s, t)
    ensures TaskOk(s', t)
  {
    hide FieldValues.FormComplete, EarlierSignedBy;
    if t.at.Ready? {
      EarlierSignedStays(s, s', t.who, t.at.sig.now);
    }
  }

  /** A token nobody holds any more is never held again: whoever mints a link, for whatever
      envelope, mints a new token. */
  lemma SpentTokenStaysSpent(s: State, a: Action, who: nat, h: TokenHash)
    requires Inv(s) && h in s.owner && s.owner[h] == who && who < |s.env.people|
    requires s.env.people[who].hash != Some(h)
    ensures who < |Step(s, a).env.people| ==> Step(s, a).env.people[who].hash != Some(h)
  {
    hide FieldValues.FormComplete, FieldValues.Resolve, RoutingOk, ClaimsOk, RequestOk, TasksOk, HolderOf, Advanced;
    assert PersonOk(s, who);
    if a.MakeAdvance? && Step(s, a) != s {
      AdvancedRow(s.env, s.tasks[a.id].at.now, a.links, who);
    }
  }

  lemma ClaimabilityShrinks(s: State, a: Action, t: Task)
    requires Inv(s) && TaskOk(s, t) && !CanClaim(s.env, t.who, t.hash)
    ensures !CanClaim(Step(s, a).env, t.who, t.hash)
  {
    hide Step, FieldValues.FormComplete, RoutingOk, ClaimsOk, RequestOk;
    StepMoves(s, a);
    var r := s.env.people[t.who];
    if r.hash != Some(t.hash) {
      SpentTokenStaysSpent(s, a, t.who, t.hash);
    } else {
      assert PersonOk(s, t.who);
      assert PersonMoves(r, Step(s, a).env.people[t.who]);
    }
  }

  /** Retiring an envelope kills every link. */
  lemma RetiringUnlinks(s: State, a: Action, who: nat, h: TokenHash)
    requires !IsRetired(s.env.request) && IsRetired(Step(s, a).env.request)
    ensures !CanClaim(Step(s, a).env, who, h)
  {
    hide FieldValues.Resolve, HolderOf, NextOrder, EarlierUnfinished;
  }

  lemma HarmlessStays(s: State, a: Action, t: Task)
    requires Inv(s) && TaskOk(s, t) && IsHarmless(s, t)
    ensures IsHarmless(Step(s, a), t)
  {
    hide Step, Inv, TaskOk, CanClaim;
    StepMoves(s, a);
    if IsRetired(s.env.request) {
      if IsPastRequestRead(t) {
        ClaimabilityShrinks(s, a, t);
      }
    } else if IsRetired(Step(s, a).env.request) {
      RetiringUnlinks(s, a, t.who, t.hash);
    }
  }

  lemma PresentedTaskOk(s: State, a: Action)
    requires Inv(s) && a.Present? && Step(s, a) != s
    ensures a.id in Step(s, a).tasks && TaskOk(Step(s, a), Step(s, a).tasks[a.id])
  {
    hide FieldValues.FormComplete, RoutingOk, ClaimsOk, RequestOk, TasksOk;
    var who := HolderOf(s.env.people, a.hash);
    assert PersonOk(s, who.value);
  }

  /** The first read lets no task of a retired envelope past: a voided one fails on its status,
      an expired one on the clock. */
  lemma ReadRequestIsHarmless(s: State, a: Action)
    requires Inv(s) && a.ReadRequest? && a.id in Step(s, a).tasks && Step(s, a) != s
    ensures TaskOk(Step(s, a), Step(s, a).tasks[a.id]) && IsHarmless(Step(s, a), Step(s, a).tasks[a.id])
  {
    hide FieldValues.FormComplete, RoutingOk, ClaimsOk, PeopleOk;
    assert TaskOk(s, s.tasks[a.id]);
  }

  lemma ReadPersonIsHarmless(s: State, a: Action)
    requires Inv(s) && a.ReadPerson? && a.id in Step(s, a).tasks && Step(s, a) != s
    ensures TaskOk(Step(s, a), Step(s, a).tasks[a.id]) && IsHarmless(Step(s, a), Step(s, a).tasks[a.id])
  {
    hide FieldValues.FormComplete, RoutingOk, ClaimsOk, PeopleOk, RequestOk;
    assert TaskOk(s, s.tasks[a.id]) && IsHarmless(s, s.tasks[a.id]);
  }

  lemma EarlierHaveSigned(s: State, who: nat)
    requires Inv(s) && who < |s.env.people| && s.env.people[who].status != Pending
    ensures EarlierSignedBy(s.env, who, s.clock)
  {
    hide FieldValues.FormComplete, TasksOk, ClaimsOk, RequestOk;
    forall j | 0 <= j < |s.env.people| && s.env.people[j].role == Signer
               && s.env.people[j].order < s.env.people[who].order && s.env.request.routing == Sequential
      ensures HasSigned(s.env.people[j]) && s.env.people[j].completedAt.value <= s.clock
    {
      assert InTurn(s.env.people[who], s.env.people[j]);
      assert PersonOk(s, j);
    }
  }

  lemma PreparedTaskOk(s: State, a: Action)
    requires Inv(s) && a.Prepare? && a.id in Step(s, a).tasks && Step(s, a) != s
    ensures TaskOk(Step(s, a), Step(s, a).tasks[a.id]) && IsHarmless(Step(s, a), Step(s, a).tasks[a.id])
  {
    hide FieldValues.FormComplete, FieldValues.Resolve, RoutingOk, ClaimsOk, RequestOk, EarlierSignedBy;
    var t := s.tasks[a.id];
    assert TaskOk(s, t) && IsHarmless(s, t);
    assert PersonOk(s, t.who);
    EarlierHaveSigned(s, t.who);
    FieldValues.AcceptedFormIsComplete(
      FieldsOf(s.env.request, s.env.people[t.who].key), t.intent.client, s.clock);
  }

  lemma ClaimedTaskOk(s: State, a: Action)
    requires Inv(s) && a.MakeClaim? && a.id in Step(s, a).tasks && Step(s, a) != s
    ensures TaskOk(Step(s, a), Step(s, a).tasks[a.id]) && IsHarmless(Step(s, a), Step(s, a).tasks[a.id])
  {
    hide FieldValues.FormComplete, RoutingOk, ClaimsOk, RequestOk, PeopleOk;
    assert TaskOk(s, s.tasks[a.id]);
  }

  /** A step changes no task but its own. */
  lemma OtherTasks(s: State, a: Action, id: nat)
    requires id in Step(s, a).tasks
    requires !((a.Present? || a.ReadRequest? || a.ReadPerson? || a.Prepare? || a.MakeClaim?)
               && a.id == id && Step(s, a) != s)
    ensures id in s.tasks && Step(s, a).tasks[id] == s.tasks[id]
  {
    hide FieldValues.Resolve, HolderOf, Voided, Resent, Expired, Reminded, Advanced;
  }

  lemma StepKeepsTasks(s: State, a: Action)
    requires Inv(s)
    ensures TasksOk(Step(s, a))
  {
    hide Step, TaskOk, IsHarmless, PeopleOk, RoutingOk, ClaimsOk, RequestOk;
    var s' := Step(s, a);
    StepMoves(s, a);
    forall id | id in s'.tasks ensures TaskOk(s', s'.tasks[id]) && IsHarmless(s', s'.tasks[id]) {
      if (a.Present? || a.ReadRequest? || a.ReadPerson? || a.Prepare? || a.MakeClaim?) && a.id == id && s' != s {
        if a.Present? {
          PresentedTaskOk(s, a);
          PresentedIsHarmless(s, a);
        } else if a.ReadRequest? {
          ReadRequestIsHarmless(s, a);
        } else if a.ReadPerson? {
          ReadPersonIsHarmless(s, a);
        } else if a.Prepare? {
          PreparedTaskOk(s, a);
        } else {
          ClaimedTaskOk(s, a);
        }
      } else {
        OtherTasks(s, a, id);
        TaskStays(s, s', s.tasks[id]);
        HarmlessStays(s, a, s.tasks[id]);
      }
    }
  }

  lemma PresentedIsHarmless(s: State, a: Action)
    requires a.Present? && Step(s, a) != s
    ensures a.id in Step(s, a).tasks && IsHarmless(Step(s, a), Step(s, a).tasks[a.id])
  {
  }

  // ----- claims

  lemma ClaimKeepsClaims(s: State, a: Action)
    requires Inv(s) && a.MakeClaim? && Step(s, a).env != s.env
    ensures ClaimsOk(Step(s, a))
  {
    hide FieldValues.FormComplete, RoutingOk, RequestOk, TasksOk, PeopleOk;
    var s' := Step(s, a);
    var n := |s.claims|;
    var who := s.tasks[a.id].who;
    assert s'.claims[n].who == who;
    forall k | 0 <= k < n ensures ClaimOk(s', s'.claims[k]) && s'.claims[k].who != who {
      assert ClaimOk(s, s.claims[k]);
    }
    forall i | 0 <= i < |s'.env.people| && s'.env.people[i].status == Completed
      ensures exists k :: 0 <= k < |s'.claims| && s'.claims[k].who == i
    {
      if i != who {
        var k :| 0 <= k < n && s.claims[k].who == i;
        assert s'.claims[k].who == i;
      }
    }
  }

  lemma OthersKeepClaims(s: State, s': State)
    requires ClaimsOk(s) && Moves(s, s') && s'.claims == s.claims
    requires forall i :: 0 <= i < |s.env.people| && s'.env.people[i].status == Completed ==>
                           s.env.people[i].status == Completed
    ensures ClaimsOk(s')
  {
    forall k | 0 <= k < |s.claims| ensures ClaimOk(s', s.claims[k]) {
      assert ClaimOk(s, s.claims[k]);
      assert PersonMoves(s.env.people[s.claims[k].who], s'.env.people[s.claims[k].who]);
    }
  }

  lemma AdvanceCompletesNobody(s: State, a: Action, i: nat)
    requires a.MakeAdvance? && i < |s.env.people|
    ensures |Step(s, a).env.people| == |s.env.people|
    ensures Step(s, a).env.people[i].status == Completed ==> s.env.people[i].status == Completed
  {
    hide Advanced, AreFresh;
    if Step(s, a).env != s.env {
      AdvancedRow(s.env, s.tasks[a.id].at.now, a.links, i);
    }
  }

  lemma ClaimsGrowOnlyByClaims(s: State, a: Action)
    requires !(a.MakeClaim? && Step(s, a).env != s.env)
    ensures Step(s, a).claims == s.claims
    ensures a.MakeClaim? ==> Step(s, a).env == s.env
  {
    hide FieldValues.Resolve, HolderOf, Voided, Resent, Expired, Reminded, Advanced;
  }

  /** Only a claim that wins completes anybody, and it is recorded. */
  lemma CompletionsAreClaims(s: State, a: Action)
    requires Inv(s) && !(a.MakeClaim? && Step(s, a).env != s.env)
    ensures Step(s, a).claims == s.claims
    ensures |Step(s, a).env.people| == |s.env.people|
    ensures forall i :: 0 <= i < |s.env.people| && Step(s, a).env.people[i].status == Completed ==>
                          s.env.people[i].status == Completed
  {
    hide Step, Inv;
    StepMoves(s, a);
    ClaimsGrowOnlyByClaims(s, a);
    if !a.MakeClaim? {
      forall i | 0 <= i < |s.env.people| && Step(s, a).env.people[i].status == Completed
        ensures s.env.people[i].status == Completed
      {
        if a.MakeAdvance? {
          AdvanceCompletesNobody(s, a, i);
        } else {
          QuietSteps(s, a, i);
        }
      }
    }
  }

  lemma StepKeepsClaims(s: State, a: Action)
    requires Inv(s)
    ensures ClaimsOk(Step(s, a))
  {
    hide Step, PeopleOk, RoutingOk, TasksOk, RequestOk, ClaimsOk;
    if a.MakeClaim? && Step(s, a).env != s.env {
      ClaimKeepsClaims(s, a);
    } else {
      CompletionsAreClaims(s, a);
      StepMoves(s, a);
      OthersKeepClaims(s, Step(s, a));
    }
  }

  // ----- the envelope's own row

  lemma AllSignedBackwards(s: State, a: Action)
    requires Inv(s) && !(a.MakeClaim? && Step(s, a).env != s.env) && AllSigned(Step(s, a).env.people)
    ensures AllSigned(s.env.people)
  {
    hide Step, Inv;
    CompletionsAreClaims(s, a);
    StepMoves(s, a);
    forall i | 0 <= i < |s.env.people| && s.env.people[i].role == Signer ensures s.env.people[i].status == Completed {
      assert PersonMoves(s.env.people[i], Step(s, a).env.people[i]);
    }
  }

  lemma AllSignedStays(s: State, s': State)
    requires Moves(s, s') && AllSigned(s.env.people)
    ensures AllSigned(s'.env.people)
  {
    forall i | 0 <= i < |s.env.people| && s'.env.people[i].role == Signer ensures s'.env.people[i].status == Completed {
      assert PersonMoves(s.env.people[i], s'.env.people[i]);
    }
  }

  /** An advance that finds everyone signed completes a live envelope. */
  lemma AdvanceCompletes(s: State, a: Action)
    requires Inv(s) && a.MakeAdvance? && Step(s, a) != s && AllSigned(s.env.people)
    ensures !IsLive(Step(s, a).env.request)
    ensures Step(s, a).env.request.status == IsCompleted && s.env.request.status != IsCompleted ==>
              Step(s, a).env.request.completedAt.Some? && Step(s, a).env.request.completedAt.value <= s.clock
  {
    hide FieldValues.FormComplete, RoutingOk, ClaimsOk, PeopleOk;
    assert TaskOk(s, s.tasks[a.id]);
  }

  lemma EnvelopeStepsKeepTasks(s: State, a: Action)
    requires a.Tick? || a.SenderVoids? || a.SenderResends? || a.FindExpired? || a.SweepExpired? || a.FindDue?
             || a.SweepReminder?
    ensures Step(s, a).tasks == s.tasks
  {
    hide Voided, Resent, Expired, Reminded;
  }

  /** The pending advance of a task is dropped by its own advance or its own crash only. */
  lemma AdvanceStaysPending(s: State, a: Action, id: nat)
    requires id in s.tasks && s.tasks[id].at.Claimed?
    requires !(a.MakeAdvance? && Step(s, a) != s) && !(a.Crash? && a.id == id)
    ensures id in Step(s, a).tasks && Step(s, a).tasks[id] == s.tasks[id]
  {
    hide FieldValues.Resolve, FieldsOf, HolderOf, CanClaim, ClaimRow, RecordView, RecordConsent, AreFresh, Advanced,
         DoVoid, DoResend, DoSweepExpired, DoSweepReminder;
    if a.Tick? || a.SenderVoids? || a.SenderResends? || a.FindExpired? || a.SweepExpired? || a.FindDue?
       || a.SweepReminder? {
      EnvelopeStepsKeepTasks(s, a);
    }
  }

  lemma WonClaimIsPending(s: State, a: Action)
    requires a.MakeClaim? && Step(s, a).env != s.env
    ensures IsAdvancing(Step(s, a))
  {
    assert Step(s, a).tasks[a.id].at.Claimed?;
  }

  lemma StepKeepsLiveness(s: State, a: Action)
    requires Inv(s) && IsLive(Step(s, a).env.request) && AllSigned(Step(s, a).env.people)
    ensures Step(s, a).lost || IsAdvancing(Step(s, a))
  {
    hide Step, PeopleOk, RoutingOk, TasksOk, ClaimsOk;
    StepMoves(s, a);
    if a.MakeClaim? && Step(s, a).env != s.env {
      WonClaimIsPending(s, a);
    } else {
      AllSignedBackwards(s, a);
      LiveBefore(s, a);
      if a.MakeAdvance? && Step(s, a) != s {
        AdvanceCompletes(s, a);
      } else if !s.lost {
        var id :| id in s.tasks && s.tasks[id].at.Claimed?;
        if a.Crash? && a.id == id {
          CrashLoses(s, a);
        } else {
          AdvanceStaysPending(s, a, id);
        }
      }
    }
  }

  lemma CrashLoses(s: State, a: Action)
    requires a.Crash? && a.id in s.tasks && s.tasks[a.id].at.Claimed?
    ensures Step(s, a).lost
  {
  }

  lemma LiveBefore(s: State, a: Action)
    requires IsLive(Step(s, a).env.request)
    ensures IsLive(s.env.request)
  {
    hide Step;
    StepMoves(s, a);
  }

  /** How the envelope's status may come about, whatever the step. */
  lemma StatusCauses(s: State, a: Action)
    ensures var q, q' := s.env.request, Step(s, a).env.request;
            && (q'.status == IsExpired && q.status != IsExpired ==> s.expiryDue)
            && (q'.status == IsCompleted && q.status != IsCompleted ==>
                  AllSigned(s.env.people) && a.MakeAdvance? && Step(s, a) != s)
            && (Step(s, a).expiryDue && !s.expiryDue ==> q.expiresAt <= s.clock)
            && (forall i :: i in Step(s, a).due && i !in s.due ==> MayRemind(s.env, i, s.clock))
  {
    hide FieldValues.Resolve, HolderOf, Advanced, AllSigned, MayRemind, Unlinked;
    if a.MakeAdvance? && Step(s, a) != s {
      AdvancedRequest(s.env, s.tasks[a.id].at.now, a.links);
    }
  }

  lemma StepKeepsRequest(s: State, a: Action)
    requires Inv(s)
    ensures RequestOk(Step(s, a))
  {
    hide Step, PeopleOk, RoutingOk, TasksOk, ClaimsOk, IsAdvancing;
    var s' := Step(s, a);
    StepMoves(s, a);
    StatusCauses(s, a);
    forall i | 0 <= i < |s.env.people| ensures PersonMoves(s.env.people[i], s'.env.people[i]) {
    }
    var signer :| 0 <= signer < |s.env.people| && s.env.people[signer].role == Signer;
    assert s'.env.people[signer].role == Signer;
    if s'.env.request.status == IsCompleted {
      if s.env.request.status != IsCompleted {
        AdvanceCompletes(s, a);
      }
      AllSignedStays(s, s');
    }
    if IsLive(s'.env.request) && AllSigned(s'.env.people) {
      StepKeepsLiveness(s, a);
    }
  }

  // ----- the invariant holds in every reachable state

  lemma StepKeepsInv(s: State, a: Action)
    requires Inv(s)
    ensures Inv(Step(s, a))
  {
    hide Step, PeopleOk, RoutingOk, TasksOk, ClaimsOk, RequestOk;
    StepKeepsPeople(s, a);
    StepKeepsRouting(s, a);
    StepKeepsTasks(s, a);
    StepKeepsClaims(s, a);
    StepKeepsRequest(s, a);
  }

  lemma {:induction false} RunKeepsInv(s: State, actions: seq<Action>)
    requires Inv(s)
    ensures Inv(Run(s, actions))
    decreases actions
  {
    hide Step, Inv;
    if actions != [] {
      StepKeepsInv(s, actions[0]);
      RunKeepsInv(Step(s, actions[0]), actions[1..]);
    }
  }

  lemma StartPersonIsOk(s: State, input: SendInput, now: int, minted: seq<TokenHash>, i: nat)
    requires i < |input.people| == |minted| == |s.env.people|
    requires s.env.people[i] == NewRecipient(input, i, now, minted) && s.env.request.routing == input.routing
    requires minted[i] in s.owner && s.owner[minted[i]] == i
    ensures PersonOk(s, i)
  {
    hide FieldValues.FormComplete;
  }

  lemma StartIsOk(s: State)
    requires IsStart(s)
    ensures Inv(s)
  {
    hide FirstUntagged, PersonOk;
    var input, fields, now, ttl, minted :|
      IsAccepted(input, fields, now, ttl, minted) && s == Start(input, fields, now, ttl, minted);
    forall i | 0 <= i < |s.env.people|
      ensures s.env.people[i] == NewRecipient(input, i, now, minted) && PersonOk(s, i)
    {
      StartPersonIsOk(s, input, now, minted, i);
    }
    var signer :| 0 <= signer < |input.people| && input.people[signer].role == Signer;
    assert s.env.people[signer].role == Signer && s.env.people[signer].status != Completed;
  }
}
