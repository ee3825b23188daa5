/** The paid-period ledger over every interleaving of checkouts, provider callbacks, activations
    and cancellations (apps/api/src/modules/billing/billing.service.ts). Each action is one
    transaction; the instant it carries may have been read any time before it commits. */
module Ledger {
  import opened Wrappers
  import opened Calendar
  import opened Billing

  datatype Action =
    | Tick(to: int)
    | Checkout(plan: Plan, provider: Provider, months: int, isConfigured: bool)
    | AttachTxn(id: PaymentId, txn: string, createdAt: int)
    | AttachPrepareId(id: PaymentId, prepareId: int)
    | Activate(id: PaymentId, now: int)
    | Cancel(id: PaymentId, reason: Option<int>, now: int)

  /** `grants` lists the activations that granted a period; `clawed` holds the payments whose
      period was taken back. */
  datatype State = State(books: Books, clock: int, grants: seq<PaymentId>, clawed: set<PaymentId>)

  predicate IsStart(s: State) {
    s.books == Books([], false, None) && s.grants == [] && s.clawed == {}
  }

  function OrSame(r: Result<Books, BillingError>, b: Books): Books {
    if r.Ok? then r.value else b
  }

  function Step(s: State, a: Action): State {
    match a
    case Tick(to) => if s.clock <= to then s.(clock := to) else s
    case Checkout(plan, provider, months, isConfigured) =>
      s.(books := OrSame(Opened(s.books, plan, provider, months, isConfigured), s.books))
    case AttachTxn(id, txn, createdAt) => s.(books := OrSame(WithTxn(s.books, id, txn, createdAt), s.books))
    case AttachPrepareId(id, prepareId) => s.(books := OrSame(WithPrepareId(s.books, id, prepareId), s.books))
    case Activate(id, now) =>
      if s.clock < now then s
      else s.(books := Activated(s.books, id, now),
              grants := if CanActivate(s.books, id) then s.grants + [id] else s.grants)
    case Cancel(id, reason, now) =>
      if s.clock < now then s
      else s.(books := CancelledBooks(s.books, id, reason, now),
              clawed := if ClawsBack(s.books, id) then s.clawed + {id} else s.clawed)
  }

  function Run(s: State, actions: seq<Action>): State
    decreases actions
  {
    if actions == [] then s else Run(Step(s, actions[0]), actions[1..])
  }

  ghost predicate IsReachable(s: State) {
    exists start, actions :: IsStart(start) && s == Run(start, actions)
  }

  // ----- the invariant

  /** Granted and not taken back. */
  predicate Holds(s: State, i: PaymentId) {
    i < |s.books.payments| && s.books.payments[i].periodEnd.Some? && i !in s.clawed
  }

  /** A granted period begins no earlier than the payment was activated and lasts the months
      that were bought. */
  predicate IsAsBought(p: Payment) {
    p.paidAt.Some? && p.periodStart.Some? && p.periodEnd.Some? ==>
      p.paidAt.value <= p.periodStart.value
      && IsMonthsLater(p.periodStart.value, p.months, p.periodEnd.value)
  }

  predicate PaymentOk(s: State, i: PaymentId)
    requires i < |s.books.payments|
  {
    var p := s.books.payments[i];
    && 1 <= p.months <= MAX_BILLING_MONTHS
    && p.amountTiyin == MonthlyPrice(p.plan) * p.months
    && (p.periodStart.Some? <==> p.periodEnd.Some?)
    && (p.periodEnd.Some? <==> p.paidAt.Some?)
    && IsAsBought(p)
    && (p.status == Paid ==> p.periodEnd.Some? && i !in s.clawed)
    && (p.status == Pending ==> p.periodEnd.None? && p.cancelledAt.None?)
    && (p.status == Cancelled <==> p.cancelledAt.Some?)
    && (p.periodEnd.Some? <==> i in s.grants)
    && (i in s.clawed ==> p.status == Cancelled && p.periodEnd.Some?)
  }

  /** One held period: not empty, and within what the workspace has paid for. */
  predicate PeriodOk(s: State, i: PaymentId)
    requires Holds(s, i)
  {
    var p := s.books.payments[i];
    p.periodStart.Some? && s.books.paidUntil.Some?
    && p.periodStart.value < p.periodEnd.value <= s.books.paidUntil.value
  }

  predicate Disjoint(p: Payment, q: Payment)
    requires p.periodStart.Some? && p.periodEnd.Some? && q.periodStart.Some? && q.periodEnd.Some?
  {
    p.periodEnd.value <= q.periodStart.value || q.periodEnd.value <= p.periodStart.value
  }

  predicate Covers(s: State, i: PaymentId, t: int) {
    && Holds(s, i) && s.books.payments[i].periodStart.Some?
    && s.books.payments[i].periodStart.value <= t < s.books.payments[i].periodEnd.value
  }

  ghost predicate IsCovered(s: State, t: int) {
    exists i: PaymentId :: Covers(s, i, t)
  }

  ghost predicate PaymentsOk(s: State) {
    && (forall i :: 0 <= i < |s.books.payments| ==> PaymentOk(s, i))
    && (forall k :: 0 <= k < |s.grants| ==> s.grants[k] < |s.books.payments|)
    && (forall k, l :: 0 <= k < l < |s.grants| ==> s.grants[k] != s.grants[l])
    && (forall i :: i in s.clawed ==> i < |s.books.payments|)
  }

  ghost predicate PeriodsOk(s: State) {
    && (forall i: PaymentId :: Holds(s, i) ==> PeriodOk(s, i))
    && (forall i: PaymentId, j: PaymentId :: i < j && Holds(s, i) && Holds(s, j) ==>
          PeriodOk(s, i) && PeriodOk(s, j) && Disjoint(s.books.payments[i], s.books.payments[j]))
  }

  /** From now on there is no gap in what has been paid for. */
  ghost predicate CoverOk(s: State) {
    && (s.books.isPro <==> s.books.paidUntil.Some?)
    && (s.books.paidUntil.Some? ==>
          forall t :: s.clock <= t < s.books.paidUntil.value ==> IsCovered(s, t))
  }

  ghost predicate Inv(s: State) {
    PaymentsOk(s) && PeriodsOk(s) && CoverOk(s)
  }

  // ----- every step keeps it

  /** Steps that touch no status, no period and no grant. */
  lemma QuietStep(s: State, a: Action, i: PaymentId)
    requires Inv(s) && !a.Activate? && !a.Cancel?
    ensures |s.books.payments| <= |Step(s, a).books.payments|
    ensures Holds(Step(s, a), i) <==> Holds(s, i)
    ensures i < |s.books.payments| ==>
              var p, p' := s.books.payments[i], Step(s, a).books.payments[i];
              p' == p.(txn := p'.txn, txnCreatedAt := p'.txnCreatedAt, prepareId := p'.prepareId)
  {
    hide FindByTxn, PaymentsOk, PeriodsOk, CoverOk;
  }

  lemma QuietStepKeepsPayments(s: State, a: Action)
    requires Inv(s) && !a.Activate? && !a.Cancel?
    ensures PaymentsOk(Step(s, a))
  {
    hide FindByTxn, PeriodsOk, CoverOk;
    var s' := Step(s, a);
    forall i: PaymentId | i < |s'.books.payments| ensures PaymentOk(s', i) {
      QuietStep(s, a, i);
      if i < |s.books.payments| {
        assert PaymentOk(s, i);
      }
    }
  }

  lemma QuietStepKeepsPeriods(s: State, a: Action)
    requires Inv(s) && !a.Activate? && !a.Cancel?
    ensures PeriodsOk(Step(s, a)) && CoverOk(Step(s, a))
  {
    hide PaymentsOk, Opened, WithTxn, WithPrepareId;
    var s' := Step(s, a);
    QuietBooks(s, a);
    forall i: PaymentId
      ensures Holds(s', i) <==> Holds(s, i)
      ensures i < |s.books.payments| ==>
                && i < |s'.books.payments|
                && s'.books.payments[i].periodStart == s.books.payments[i].periodStart
                && s'.books.payments[i].periodEnd == s.books.payments[i].periodEnd
    {
      QuietStep(s, a, i);
    }
    forall t | s'.clock <= t && s'.books.paidUntil.Some? && t < s'.books.paidUntil.value
      ensures IsCovered(s', t)
    {
      assert IsCovered(s, t);
      var i: PaymentId :| Covers(s, i, t);
      assert Covers(s', i, t);
    }
  }

  lemma QuietBooks(s: State, a: Action)
    requires !a.Activate? && !a.Cancel?
    ensures Step(s, a).books.paidUntil == s.books.paidUntil && Step(s, a).books.isPro == s.books.isPro
    ensures s.clock <= Step(s, a).clock
  {
  }

  lemma Grant(s: State, a: Action)
    requires Inv(s) && a.Activate? && a.now <= s.clock && CanActivate(s.books, a.id)
    ensures var s' := Step(s, a);
            && s'.books.paidUntil.Some? && Holds(s', a.id) && PeriodOk(s', a.id)
            && s'.books.payments[a.id].periodEnd == s'.books.paidUntil
            && s'.books.payments[a.id].periodStart == Some(GrantStart(s.books.paidUntil, a.now))
            && (forall i: PaymentId :: i != a.id ==> (Holds(s', i) <==> Holds(s, i)))
  {
    hide Shifted, PeriodsOk, CoverOk;
    assert PaymentOk(s, a.id);
    var start := GrantStart(s.books.paidUntil, a.now);
    PeriodLength(start, s.books.payments[a.id].months);
  }

  lemma GrantKeepsPayments(s: State, a: Action)
    requires Inv(s) && a.Activate? && a.now <= s.clock && CanActivate(s.books, a.id)
    ensures PaymentsOk(Step(s, a))
  {
    hide Shifted, PeriodsOk, CoverOk, IsMonthsLater;
    ShiftedIsMonthsLater(GrantStart(s.books.paidUntil, a.now), s.books.payments[a.id].months);
    assert PaymentOk(s, a.id);
    assert a.id !in s.grants;
    forall i | 0 <= i < |s.books.payments| ensures PaymentOk(Step(s, a), i) {
      assert PaymentOk(s, i);
    }
  }

  lemma GrantKeepsPeriods(s: State, a: Action)
    requires Inv(s) && a.Activate? && a.now <= s.clock && CanActivate(s.books, a.id)
    ensures PeriodsOk(Step(s, a))
  {
    hide Shifted, PaymentsOk, CoverOk;
    var s' := Step(s, a);
    Grant(s, a);
    forall i: PaymentId | Holds(s', i) && i != a.id
      ensures PeriodOk(s', i) && Disjoint(s'.books.payments[i], s'.books.payments[a.id])
    {
      PeriodBefore(s, a, i);
    }
    forall i: PaymentId, j: PaymentId | i < j && Holds(s', i) && Holds(s', j)
      ensures PeriodOk(s', i) && PeriodOk(s', j) && Disjoint(s'.books.payments[i], s'.books.payments[j])
    {
      if i != a.id && j != a.id {
        OtherPaymentsStay(s, a, i);
        OtherPaymentsStay(s, a, j);
      }
    }
  }

  lemma OtherPaymentsStay(s: State, a: Action, i: PaymentId)
    requires (a.Activate? || a.Cancel?) && i != a.id && (Holds(s, i) || Holds(Step(s, a), i))
    ensures Holds(s, i) && Holds(Step(s, a), i)
    ensures Step(s, a).books.payments[i] == s.books.payments[i]
  {
    hide Shifted;
  }

  lemma PeriodBefore(s: State, a: Action, i: PaymentId)
    requires Inv(s) && a.Activate? && a.now <= s.clock && CanActivate(s.books, a.id)
    requires i != a.id && Holds(Step(s, a), i)
    ensures PeriodOk(Step(s, a), i) && Holds(Step(s, a), a.id) && PeriodOk(Step(s, a), a.id)
    ensures Disjoint(Step(s, a).books.payments[i], Step(s, a).books.payments[a.id])
  {
    hide Shifted, PaymentsOk, CoverOk;
    Grant(s, a);
    OtherPaymentsStay(s, a, i);
    assert PeriodOk(s, i);
  }

  lemma GrantKeepsCover(s: State, a: Action)
    requires Inv(s) && a.Activate? && a.now <= s.clock && CanActivate(s.books, a.id)
    ensures CoverOk(Step(s, a))
  {
    hide Shifted, PaymentsOk, PeriodsOk;
    var s' := Step(s, a);
    Grant(s, a);
    forall t | s'.clock <= t < s'.books.paidUntil.value ensures IsCovered(s', t) {
      if GrantStart(s.books.paidUntil, a.now) <= t {
        assert Covers(s', a.id, t);
      } else {
        assert IsCovered(s, t);
        var i: PaymentId :| Covers(s, i, t);
        PendingHoldsNothing(s, a.id);
        CoverStays(s, a, i, t);
      }
    }
  }

  lemma PendingHoldsNothing(s: State, i: PaymentId)
    requires Inv(s) && CanActivate(s.books, i)
    ensures !Holds(s, i)
  {
    assert PaymentOk(s, i);
  }

  lemma CoverStays(s: State, a: Action, i: PaymentId, t: int)
    requires (a.Activate? || a.Cancel?) && Covers(s, i, t) && Inv(s)
    requires a.id == i ==> a.Cancel? && !ClawsBack(s.books, i)
    ensures Covers(Step(s, a), i, t)
  {
    hide Shifted, PaymentsOk, PeriodsOk, CoverOk;
  }

  lemma CancelKeepsPayments(s: State, a: Action)
    requires Inv(s) && a.Cancel?
    ensures PaymentsOk(Step(s, a))
  {
    hide PeriodsOk, CoverOk;
    forall i | 0 <= i < |s.books.payments| ensures PaymentOk(Step(s, a), i) {
      assert PaymentOk(s, i);
    }
  }

  /** A cancellation that takes nothing back leaves every period where it was. */
  lemma BookkeepingKeepsPeriods(s: State, a: Action)
    requires Inv(s) && a.Cancel? && (s.clock < a.now || !ClawsBack(s.books, a.id))
    ensures PeriodsOk(Step(s, a)) && CoverOk(Step(s, a))
  {
    hide PaymentsOk;
    var s' := Step(s, a);
    forall i: PaymentId | i < |s.books.payments|
      ensures i < |s'.books.payments| && Holds(s', i) == Holds(s, i)
      ensures s'.books.payments[i].periodStart == s.books.payments[i].periodStart
      ensures s'.books.payments[i].periodEnd == s.books.payments[i].periodEnd
    {
    }
    forall t | s'.clock <= t && s'.books.paidUntil.Some? && t < s'.books.paidUntil.value
      ensures IsCovered(s', t)
    {
      assert IsCovered(s, t);
      var i: PaymentId :| Covers(s, i, t);
      assert Covers(s', i, t);
    }
  }

  /** The period taken back is the last one: everybody else's ends before it starts. */
  lemma ClawedIsLast(s: State, a: Action, i: PaymentId)
    requires Inv(s) && a.Cancel? && a.now <= s.clock && ClawsBack(s.books, a.id)
    requires i != a.id && Holds(Step(s, a), i)
    ensures Holds(s, i) && PeriodOk(s, i) && Step(s, a).books.payments[i] == s.books.payments[i]
    ensures s.books.payments[i].periodEnd.value <= s.books.payments[a.id].periodStart.value
  {
    hide CoverOk;
    OtherPaymentsStay(s, a, i);
    assert PaymentOk(s, a.id);
    assert Holds(s, a.id);
    assert PeriodOk(s, i) && PeriodOk(s, a.id);
    if i < a.id {
      assert Disjoint(s.books.payments[i], s.books.payments[a.id]);
    } else {
      assert Disjoint(s.books.payments[a.id], s.books.payments[i]);
    }
  }

  lemma ClawbackKeepsPeriods(s: State, a: Action)
    requires Inv(s) && a.Cancel? && a.now <= s.clock && ClawsBack(s.books, a.id)
    ensures PeriodsOk(Step(s, a))
  {
    hide PaymentsOk, CoverOk;
    var s' := Step(s, a);
    assert !Holds(s', a.id);
    forall i: PaymentId | Holds(s', i)
      ensures Holds(s, i) && PeriodOk(s', i) && s'.books.payments[i] == s.books.payments[i]
    {
      ClawedIsLast(s, a, i);
    }
  }

  lemma ClawbackKeepsCover(s: State, a: Action)
    requires Inv(s) && a.Cancel? && a.now <= s.clock && ClawsBack(s.books, a.id)
    ensures CoverOk(Step(s, a))
  {
    hide PaymentsOk;
    var s' := Step(s, a);
    ClawedPeriod(s, a);
    forall t | s'.clock <= t < s'.books.paidUntil.value ensures IsCovered(s', t) {
      assert IsCovered(s, t);
      var i: PaymentId :| Covers(s, i, t);
      CoverStays(s, a, i, t);
    }
  }

  lemma ClawedPeriod(s: State, a: Action)
    requires Inv(s) && a.Cancel? && a.now <= s.clock && ClawsBack(s.books, a.id)
    ensures Holds(s, a.id) && PeriodOk(s, a.id)
    ensures Step(s, a).books.paidUntil == s.books.payments[a.id].periodStart
  {
    hide CoverOk;
    assert PaymentOk(s, a.id);
  }

  lemma StepKeepsInv(s: State, a: Action)
    requires Inv(s)
    ensures Inv(Step(s, a))
  {
    hide PaymentsOk, PeriodsOk, CoverOk, Shifted;
    if a.Activate? {
      if a.now <= s.clock && CanActivate(s.books, a.id) {
        GrantKeepsPayments(s, a);
        GrantKeepsPeriods(s, a);
        GrantKeepsCover(s, a);
      }
    } else if a.Cancel? {
      CancelKeepsPayments(s, a);
      if a.now <= s.clock && ClawsBack(s.books, a.id) {
        ClawbackKeepsPeriods(s, a);
        ClawbackKeepsCover(s, a);
      } else {
        BookkeepingKeepsPeriods(s, a);
      }
    } else {
      QuietStepKeepsPayments(s, a);
      QuietStepKeepsPeriods(s, a);
    }
  }

  lemma {:induction false} RunKeepsInv(s: State, actions: seq<Action>)
    requires Inv(s)
    ensures Inv(Run(s, actions))
    decreases actions
  {
    hide Step, Inv;
    if actions != [] {
      StepKeepsInv(s, actions[0]);
      RunKeepsInv(Step(s, actions[0]), actions[1..]);
    }
  }

  lemma ReachableIsOk(s: State)
    requires IsReachable(s)
    ensures Inv(s)
  {
    hide Run;
    var start, actions :| IsStart(start) && s == Run(start, actions);
    RunKeepsInv(start, actions);
  }

  // ----- what it gives

  /** In every reachable state the periods granted and not taken back are not empty, do not
      overlap, and end by `paidUntil`. */
  lemma PeriodsAreDisjoint(s: State, i: PaymentId, j: PaymentId)
    requires IsReachable(s) && Holds(s, i) && Holds(s, j) && i != j
    ensures var p, q := s.books.payments[i], s.books.payments[j];
            && p.periodStart.Some? && q.periodStart.Some? && s.books.paidUntil.Some?
            && p.periodStart.value < p.periodEnd.value <= s.books.paidUntil.value
            && q.periodStart.value < q.periodEnd.value <= s.books.paidUntil.value
            && (p.periodEnd.value <= q.periodStart.value || q.periodEnd.value <= p.periodStart.value)
  {
    hide IsReachable, Run, PaymentsOk, CoverOk;
    ReachableIsOk(s);
    if j < i {
      assert Disjoint(s.books.payments[j], s.books.payments[i]);
    } else {
      assert Disjoint(s.books.payments[i], s.books.payments[j]);
    }
  }

  /** What an activation grants, and what then stays granted whatever follows: a period from the
      later of the moment and of what was already paid for, ending the bought number of calendar
      months later on the same date or that month's last. */
  lemma PeriodIsWhatWasBought(s: State, id: PaymentId, now: int, later: seq<Action>)
    requires IsReachable(s) && now <= s.clock
    requires id < |s.books.payments| && s.books.payments[id].status == Pending
    ensures var s', t := Step(s, Activate(id, now)), Run(Step(s, Activate(id, now)), later);
            && id < |s'.books.payments| && id < |t.books.payments|
            && var was, p, q := s.books, s'.books.payments[id], t.books.payments[id];
            && p.status == Paid && p.paidAt == Some(now) && s'.books.isPro && s'.books.paidUntil == p.periodEnd
            && p.periodStart ==
               Some(if was.paidUntil.Some? && was.paidUntil.value > now then was.paidUntil.value else now)
            && p.periodEnd.Some? && IsMonthsLater(p.periodStart.value, was.payments[id].months, p.periodEnd.value)
            && q.periodStart == p.periodStart && q.periodEnd == p.periodEnd
            && 1 <= was.payments[id].months <= MAX_BILLING_MONTHS
            && p.amountTiyin == was.payments[id].amountTiyin
            && p.amountTiyin == was.payments[id].months * (if p.plan == Personal then 9_900_000 else 29_900_000)
  {
    hide IsReachable, Run, Shifted, IsMonthsLater, PeriodsOk, CoverOk;
    ReachableIsOk(s);
    assert PaymentOk(s, id);
    StepKeepsInv(s, Activate(id, now));
    assert PaymentOk(Step(s, Activate(id, now)), id);
    PeriodsAreKept(Step(s, Activate(id, now)), later, id);
  }

  /** So in every reachable state a payment with a period has the months it paid for. */
  lemma EveryPeriodIsAsBought(s: State, id: PaymentId)
    requires IsReachable(s) && id < |s.books.payments| && s.books.payments[id].periodEnd.Some?
    ensures var p := s.books.payments[id];
            && p.paidAt.Some? && p.periodStart.Some? && p.paidAt.value <= p.periodStart.value
            && IsMonthsLater(p.periodStart.value, p.months, p.periodEnd.value)
  {
    hide IsReachable, IsMonthsLater, PeriodsOk, CoverOk;
    ReachableIsOk(s);
    assert PaymentOk(s, id);
  }

  /** Each payment is granted a period at most once, however often a provider repeats itself. */
  lemma OneGrantPerPayment(s: State)
    requires IsReachable(s)
    ensures forall k, l :: 0 <= k < l < |s.grants| ==> s.grants[k] != s.grants[l]
    ensures forall i: PaymentId :: i in s.grants <==> i < |s.books.payments| && s.books.payments[i].periodEnd.Some?
  {
    hide IsReachable, PeriodsOk, CoverOk;
    ReachableIsOk(s);
    forall i: PaymentId | i < |s.books.payments|
      ensures i in s.grants <==> s.books.payments[i].periodEnd.Some?
    {
      assert PaymentOk(s, i);
    }
  }

  /** A cancellation never cuts into anybody else's period, and cancelling the newest grant puts
      `paidUntil` back to the later of what it was and the moment of that activation. */
  lemma ClawbackIsExact(s: State, id: PaymentId, now: int, between: seq<Action>, reason: Option<int>, later: int)
    requires IsReachable(s) && now <= s.clock && CanActivate(s.books, id)
    requires var t := Run(Step(s, Activate(id, now)), between);
             CanCancel(t.books, id) && t.books.paidUntil == t.books.payments[id].periodEnd && later <= t.clock
    ensures var t := Run(Step(s, Activate(id, now)), between);
            var t' := Step(t, Cancel(id, reason, later));
            && t'.books.paidUntil == Some(GrantStart(s.books.paidUntil, now))
            && (forall i: PaymentId :: i != id && Holds(t, i) ==>
                  Holds(t', i) && PeriodOk(t', i) && t'.books.payments[i] == t.books.payments[i])
  {
    hide IsReachable, Run, Inv, Shifted;
    ReachableIsOk(s);
    var first := Step(s, Activate(id, now));
    StepKeepsInv(s, Activate(id, now));
    GrantedStart(s, id, now);
    RunKeepsInv(first, between);
    PeriodsAreKept(first, between, id);
    var t := Run(first, between);
    var cancel := Cancel(id, reason, later);
    PaidIsHeld(t, id);
    StepKeepsInv(t, cancel);
    forall i: PaymentId | i != id && Holds(t, i)
      ensures Holds(Step(t, cancel), i) && PeriodOk(Step(t, cancel), i)
      ensures Step(t, cancel).books.payments[i] == t.books.payments[i]
    {
      OtherPaymentsStay(t, cancel, i);
      HeldIsOk(Step(t, cancel), i);
    }
  }

  lemma HeldIsOk(s: State, i: PaymentId)
    requires Inv(s) && Holds(s, i)
    ensures PeriodOk(s, i)
  {
  }

  lemma PaidIsHeld(s: State, id: PaymentId)
    requires Inv(s) && CanCancel(s.books, id) && s.books.payments[id].periodEnd.Some?
    ensures s.books.payments[id].periodStart.Some?
  {
    assert PaymentOk(s, id);
  }

  lemma GrantedStart(s: State, id: PaymentId, now: int)
    requires now <= s.clock && CanActivate(s.books, id)
    ensures var p := Step(s, Activate(id, now)).books.payments[id];
            p.periodStart == Some(GrantStart(s.books.paidUntil, now)) && p.periodEnd.Some? && p.status != Pending
  {
    hide Shifted;
  }

  /** A granted period is on the books for good. */
  lemma {:induction false} PeriodsAreKept(s: State, actions: seq<Action>, id: PaymentId)
    requires id < |s.books.payments| && s.books.payments[id].periodEnd.Some? && s.books.payments[id].status != Pending
    ensures id < |Run(s, actions).books.payments|
    ensures var p, p' := s.books.payments[id], Run(s, actions).books.payments[id];
            p'.periodStart == p.periodStart && p'.periodEnd == p.periodEnd && p'.status != Pending
    decreases actions
  {
    hide Step, Shifted;
    if actions != [] {
      PeriodIsKept(s, actions[0], id);
      PeriodsAreKept(Step(s, actions[0]), actions[1..], id);
    }
  }

  lemma PeriodIsKept(s: State, a: Action, id: PaymentId)
    requires id < |s.books.payments| && s.books.payments[id].periodEnd.Some? && s.books.payments[id].status != Pending
    ensures id < |Step(s, a).books.payments|
    ensures var p, p' := s.books.payments[id], Step(s, a).books.payments[id];
            p'.periodStart == p.periodStart && p'.periodEnd == p.periodEnd && p'.status != Pending
  {
    hide Shifted, FindByTxn;
  }

  /** A workspace that has ever paid has access exactly while the clock is inside a period it
      holds, and is locked at every other moment; one that never has runs on its trial. */
  lemma AccessIsWhatWasPaidFor(s: State, trialEndsAt: int)
    requires IsReachable(s)
    ensures var access := TenantAccess(s.books.isPro, trialEndsAt, s.books.paidUntil, s.clock);
            && (s.grants != [] ==>
                  (access.Pro? <==> IsCovered(s, s.clock)) && (AccessLocked(access) <==> !access.Pro?))
            && (s.grants == [] ==> (AccessLocked(access) <==> trialEndsAt <= s.clock) && !access.Pro?)
  {
    hide IsReachable, Run;
    ReachableIsOk(s);
    EverPaid(s);
    forall i: PaymentId | Covers(s, i, s.clock) ensures PeriodOk(s, i) {
    }
  }

  lemma EverPaid(s: State)
    requires IsReachable(s)
    ensures s.grants != [] <==> s.books.paidUntil.Some?
  {
    hide Run;
    var start, actions :| IsStart(start) && s == Run(start, actions);
    EverPaidRun(start, actions);
  }

  lemma {:induction false} EverPaidRun(s: State, actions: seq<Action>)
    requires s.grants != [] <==> s.books.paidUntil.Some?
    ensures var s' := Run(s, actions); s'.grants != [] <==> s'.books.paidUntil.Some?
    decreases actions
  {
    hide Step;
    if actions != [] {
      EverPaidStep(s, actions[0]);
      EverPaidRun(Step(s, actions[0]), actions[1..]);
    }
  }

  lemma EverPaidStep(s: State, a: Action)
    requires s.grants != [] <==> s.books.paidUntil.Some?
    ensures var s' := Step(s, a); s'.grants != [] <==> s'.books.paidUntil.Some?
  {
    hide Shifted, FindByTxn;
  }

  /** Refunding a payment after a later period was granted takes nothing back: the refunded
      period is still held, the workspace is paid for as long as before, and its access is the
      same at every moment. */
  lemma OlderRefundTakesNothing(s: State, id: PaymentId, newer: PaymentId, reason: Option<int>, now: int)
    requires IsReachable(s) && now <= s.clock && CanCancel(s.books, id)
    requires Holds(s, id) && Holds(s, newer)
    requires s.books.payments[id].periodEnd.value < s.books.payments[newer].periodEnd.value
    ensures var s' := Step(s, Cancel(id, reason, now));
            && s'.books.payments[id].status == Cancelled
            && (forall i: PaymentId :: Holds(s', i) <==> Holds(s, i))
            && (forall t :: IsCovered(s', t) <==> IsCovered(s, t))
            && (forall trialEndsAt, t ::
                  TenantAccess(s'.books.isPro, trialEndsAt, s'.books.paidUntil, t)
                  == TenantAccess(s.books.isPro, trialEndsAt, s.books.paidUntil, t))
  {
    hide IsReachable, Run, PaymentsOk, CoverOk, TenantAccess;
    ReachableIsOk(s);
    assert PeriodOk(s, newer);
    var a := Cancel(id, reason, now);
    forall i: PaymentId, t ensures Covers(Step(s, a), i, t) <==> Covers(s, i, t) {
    }
    forall t ensures IsCovered(Step(s, a), t) <==> IsCovered(s, t) {
      SameCover(s, Step(s, a), t);
    }
  }

  lemma SameCover(s: State, s': State, t: int)
    requires forall i: PaymentId :: Covers(s', i, t) <==> Covers(s, i, t)
    ensures IsCovered(s', t) <==> IsCovered(s, t)
  {
    hide Covers;
    if IsCovered(s, t) {
      var i: PaymentId :| Covers(s, i, t);
      assert Covers(s', i, t);
    }
    if IsCovered(s', t) {
      var i: PaymentId :| Covers(s', i, t);
      assert Covers(s, i, t);
    }
  }

  /** A refund in the middle of the free trial locks the workspace at once, whatever was left of
      the trial. */
  lemma RefundEndsTheTrial(b: Books, id: PaymentId, now: int, later: int, trialEndsAt: int)
    requires b.paidUntil.None? && CanActivate(b, id) && 1 <= b.payments[id].months && now <= later
    ensures var b' := CancelledBooks(Activated(b, id, now), id, None, later);
            AccessLocked(TenantAccess(b'.isPro, trialEndsAt, b'.paidUntil, later))
  {
    hide Shifted;
  }
}
