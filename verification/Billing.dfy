/** Purchases, and the access they grant (apps/api/src/modules/billing/billing.math.ts and
    billing.service.ts, apps/api/src/common/trial.ts): what each transaction makes of the
    workspace's books. A payment is identified by its place in the list of payments. */
module Billing {
  import opened Wrappers
  import opened Calendar

  type PaymentId = nat

  datatype Plan = Personal | Company

  datatype Provider = Payme | Click

  datatype PaymentStatus = Pending | Paid | Cancelled

  datatype Payment = Payment(
    plan: Plan, provider: Provider, amountTiyin: int, months: int, status: PaymentStatus,
    txn: Option<string>, txnCreatedAt: Option<int>, prepareId: Option<int>,
    paidAt: Option<int>, cancelledAt: Option<int>, cancelReason: Option<int>,
    periodStart: Option<int>, periodEnd: Option<int>)

  /** The payments of one workspace and its own row. */
  datatype Books = Books(payments: seq<Payment>, isPro: bool, paidUntil: Option<int>)

  // ----- what a purchase costs and grants

  const MAX_BILLING_MONTHS := 12

  function MonthlyPrice(plan: Plan): int {
    match plan
    case Personal => 9_900_000
    case Company => 29_900_000
  }

  datatype BillingError = BadMonths | ProviderNotConfigured | NoSuchPayment | TxnTaken | NotWhole

  function PriceTiyin(plan: Plan, months: int): Result<int, BillingError> {
    if 1 <= months <= MAX_BILLING_MONTHS then Ok(MonthlyPrice(plan) * months) else Err(BadMonths)
  }

  const TIYIN_PER_SUM := 100

  /** Tiyin to so'm, refusing anything that does not divide. */
  function SumFromTiyin(tiyin: int): Result<int, BillingError> {
    if tiyin % TIYIN_PER_SUM != 0 then Err(NotWhole) else Ok(tiyin / TIYIN_PER_SUM)
  }

  /** Every price converts to so'm and back without loss, and no two purchases of one plan cost
      the same. */
  lemma PricesAreWhole(plan: Plan, months: int, other: int)
    requires PriceTiyin(plan, months).Ok?
    ensures var price := PriceTiyin(plan, months).value;
            && price > 0
            && SumFromTiyin(price).Ok? && TIYIN_PER_SUM * SumFromTiyin(price).value == price
            && (PriceTiyin(plan, other) == Ok(price) ==> other == months)
  {
  }

  function GrantStart(paidUntil: Option<int>, now: int): int {
    if paidUntil.Some? && paidUntil.value > now then paidUntil.value else now
  }

  // ----- the transactions

  function NewPayment(plan: Plan, provider: Provider, price: int, months: int): Payment {
    Payment(plan, provider, price, months, Pending, None, None, None, None, None, None, None, None)
  }

  /** `checkout`: the provider's configuration is resolved before anything is written. */
  function Opened(b: Books, plan: Plan, provider: Provider, months: int, isConfigured: bool)
    : Result<Books, BillingError>
  {
    var price := PriceTiyin(plan, months);
    if price.Err? then Err(price.error)
    else if !isConfigured then Err(ProviderNotConfigured)
    else Ok(b.(payments := b.payments + [NewPayment(plan, provider, price.value, months)]))
  }

  function Find(b: Books, id: PaymentId, provider: Provider): Option<Payment> {
    if id < |b.payments| && b.payments[id].provider == provider then Some(b.payments[id]) else None
  }

  /** `resolve_payment_by_txn`. */
  function FindByTxn(b: Books, provider: Provider, txn: string, from: nat): (id: Option<PaymentId>)
    requires from <= |b.payments|
    ensures id.Some? ==>
              from <= id.value < |b.payments| && b.payments[id.value].provider == provider
              && b.payments[id.value].txn == Some(txn)
    ensures id.None? ==>
              forall i :: from <= i < |b.payments| ==>
                !(b.payments[i].provider == provider && b.payments[i].txn == Some(txn))
    decreases |b.payments| - from
  {
    if from == |b.payments| then None
    else if b.payments[from].provider == provider && b.payments[from].txn == Some(txn) then Some(from)
    else FindByTxn(b, provider, txn, from + 1)
  }

  function SetPayment(b: Books, id: PaymentId, p: Payment): Books
    requires id < |b.payments|
  {
    b.(payments := b.payments[id := p])
  }

  /** `attachProviderTxn`; the unique index on provider and transaction may refuse it. */
  function WithTxn(b: Books, id: PaymentId, txn: string, createdAt: int): Result<Books, BillingError> {
    if id >= |b.payments| then Err(NoSuchPayment)
    else
      var p := b.payments[id];
      var holder := FindByTxn(b, p.provider, txn, 0);
      if holder.Some? && holder.value != id then Err(TxnTaken)
      else Ok(SetPayment(b, id, p.(txn := Some(txn), txnCreatedAt := Some(createdAt))))
  }

  function WithPrepareId(b: Books, id: PaymentId, prepareId: int): Result<Books, BillingError> {
    if id >= |b.payments| then Err(NoSuchPayment)
    else Ok(SetPayment(b, id, b.payments[id].(prepareId := Some(prepareId))))
  }

  predicate CanActivate(b: Books, id: PaymentId) {
    id < |b.payments| && b.payments[id].status == Pending
  }

  function Activated(b: Books, id: PaymentId, now: int): Books {
    if !CanActivate(b, id) then b
    else
      var p := b.payments[id];
      var start := GrantStart(b.paidUntil, now);
      var end := Shifted(start, p.months);
      SetPayment(b, id, p.(status := Paid, paidAt := Some(now), periodStart := Some(start), periodEnd := Some(end))).(
        isPro := true, paidUntil := Some(end))
  }

  predicate CanCancel(b: Books, id: PaymentId) {
    id < |b.payments| && b.payments[id].status != Cancelled
  }

  /** The cancellation takes the period back: nothing has extended the workspace since. */
  predicate ClawsBack(b: Books, id: PaymentId) {
    && CanCancel(b, id) && b.payments[id].periodStart.Some? && b.payments[id].periodEnd.Some?
    && b.paidUntil == b.payments[id].periodEnd
  }

  function CancelledBooks(b: Books, id: PaymentId, reason: Option<int>, now: int): Books {
    if !CanCancel(b, id) then b
    else
      var p := b.payments[id];
      SetPayment(b, id, p.(status := Cancelled, cancelledAt := Some(now), cancelReason := reason)).(
        paidUntil := if ClawsBack(b, id) then p.periodStart else b.paidUntil)
  }

  // ----- where a workspace stands

  datatype Access = Trial(daysLeft: int) | Ended | Pro(daysLeft: int) | Lapsed

  function DaysFrom(ms: int): int {
    (ms + MS_PER_DAY - 1) / MS_PER_DAY
  }

  function TenantAccess(isPro: bool, trialEndsAt: int, paidUntil: Option<int>, now: int): Access {
    if isPro then
      if paidUntil.None? then Pro(0)
      else if paidUntil.value - now > 0 then Pro(DaysFrom(paidUntil.value - now))
      else Lapsed
    else if trialEndsAt - now <= 0 then Ended
    else Trial(DaysFrom(trialEndsAt - now))
  }

  predicate AccessLocked(access: Access) {
    access.Ended? || access.Lapsed?
  }

  /** While any time is left at least one day is shown, never a day too many: the count is the
      number of days begun. */
  lemma DaysLeftMeaning(ms: int)
    requires ms > 0
    ensures DaysFrom(ms) >= 1
    ensures (DaysFrom(ms) - 1) * MS_PER_DAY < ms <= DaysFrom(ms) * MS_PER_DAY
  {
  }

  /** The days shown are those begun, up to the end of what is paid for or of the trial. */
  predicate ShowsDays(daysLeft: int, end: int, now: int) {
    daysLeft >= 1 && (daysLeft - 1) * MS_PER_DAY < end - now <= daysLeft * MS_PER_DAY
  }

  /** Where a workspace stands: Pro until what it paid for ends, on trial until that ends if it
      never was Pro, and locked otherwise. */
  lemma AccessMeaning(isPro: bool, trialEndsAt: int, paidUntil: Option<int>, now: int)
    ensures var access := TenantAccess(isPro, trialEndsAt, paidUntil, now);
            && (access.Pro? <==> isPro && (paidUntil.Some? ==> now < paidUntil.value))
            && (access.Trial? <==> !isPro && now < trialEndsAt)
            && (access.Lapsed? <==> isPro && paidUntil.Some? && paidUntil.value <= now)
            && (access.Ended? <==> !isPro && trialEndsAt <= now)
            && (AccessLocked(access) <==> !access.Pro? && !access.Trial?)
            && (access.Pro? && paidUntil.Some? ==> ShowsDays(access.daysLeft, paidUntil.value, now))
            && (access.Trial? ==> ShowsDays(access.daysLeft, trialEndsAt, now))
  {
    hide DaysFrom;
    if isPro && paidUntil.Some? && paidUntil.value - now > 0 {
      DaysLeftMeaning(paidUntil.value - now);
    } else if !isPro && trialEndsAt - now > 0 {
      DaysLeftMeaning(trialEndsAt - now);
    }
  }
}
