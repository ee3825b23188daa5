/** The billing service's own rows, updated in place
    (apps/api/src/modules/billing/billing.service.ts). */
module BillingService {
  import opened Wrappers
  import opened Calendar
  import opened Billing

  class Service {
    var payments: seq<Payment>
    var isPro: bool
    var paidUntil: Option<int>

    ghost function Value(): Books
      reads this
    {
      Books(payments, isPro, paidUntil)
    }

    constructor (books: Books)
      ensures Value() == books
    {
      payments := books.payments;
      isPro := books.isPro;
      paidUntil := books.paidUntil;
    }

    method Checkout(plan: Plan, provider: Provider, months: int, isConfigured: bool)
      returns (result: Result<PaymentId, BillingError>)
      modifies this`payments
      ensures match result
              case Ok(id) =>
                Opened(old(Value()), plan, provider, months, isConfigured) == Ok(Value()) && id == |old(payments)|
              case Err(error) =>
                Opened(old(Value()), plan, provider, months, isConfigured) == Err(error) && Value() == old(Value())
    {
      var price := PriceTiyin(plan, months);
      if price.Err? {
        return Err(price.error);
      }
      if !isConfigured {
        return Err(ProviderNotConfigured);
      }
      var id := |payments|;
      payments := payments + [NewPayment(plan, provider, price.value, months)];
      return Ok(id);
    }

    /** Another provider's payment is as good as none. */
    method FindPayment(id: PaymentId, provider: Provider) returns (payment: Option<Payment>)
      ensures payment.Some? ==>
                payment.value.provider == provider && id < |payments| && payments[id] == payment.value
      ensures payment.None? ==> id >= |payments| || payments[id].provider != provider
    {
      if id >= |payments| || payments[id].provider != provider {
        return None;
      }
      return Some(payments[id]);
    }

    /** The lookup behind `resolve_payment_by_txn`. */
    method ResolveByTxn(provider: Provider, txn: string) returns (id: Option<PaymentId>)
      ensures id == FindByTxn(Value(), provider, txn, 0)
    {
      var i := 0;
      while i < |payments|
        invariant i <= |payments|
        invariant FindByTxn(Value(), provider, txn, 0) == FindByTxn(Value(), provider, txn, i)
      {
        if payments[i].provider == provider && payments[i].txn == Some(txn) {
          return Some(i);
        }
        i := i + 1;
      }
      return None;
    }

    method AttachProviderTxn(id: PaymentId, txn: string, createdAt: int) returns (error: Option<BillingError>)
      modifies this`payments
      ensures error.None? ==> WithTxn(old(Value()), id, txn, createdAt) == Ok(Value())
      ensures error.Some? ==>
                WithTxn(old(Value()), id, txn, createdAt) == Err(error.value) && Value() == old(Value())
    {
      if id >= |payments| {
        return Some(NoSuchPayment);
      }
      var holder := ResolveByTxn(payments[id].provider, txn);
      if holder.Some? && holder.value != id {
        return Some(TxnTaken);
      }
      payments := payments[id := payments[id].(txn := Some(txn), txnCreatedAt := Some(createdAt))];
      return None;
    }

    method AttachClickPrepareId(id: PaymentId, prepareId: int) returns (error: Option<BillingError>)
      modifies this`payments
      ensures error.None? ==> WithPrepareId(old(Value()), id, prepareId) == Ok(Value())
      ensures error.Some? ==>
                WithPrepareId(old(Value()), id, prepareId) == Err(error.value) && Value() == old(Value())
    {
      if id >= |payments| {
        return Some(NoSuchPayment);
      }
      payments := payments[id := payments[id].(prepareId := Some(prepareId))];
      return None;
    }

    /** The compare-and-set on the status comes first; only its winner extends the workspace. */
    method Activate(id: PaymentId, now: int) returns (claimed: bool)
      modifies this
      ensures Value() == Activated(old(Value()), id, now)
      ensures claimed == CanActivate(old(Value()), id)
    {
      hide Shifted;
      if id >= |payments| || payments[id].status != Pending {
        return false;
      }
      payments := payments[id := payments[id].(status := Paid, paidAt := Some(now))];
      var start := if paidUntil.Some? && paidUntil.value > now then paidUntil.value else now;
      var end := AddMonths(start, payments[id].months);
      isPro, paidUntil := true, Some(end);
      payments := payments[id := payments[id].(periodStart := Some(start), periodEnd := Some(end))];
      return true;
    }

    method Cancel(id: PaymentId, reason: Option<int>, now: int)
      modifies this`payments, this`paidUntil
      ensures Value() == CancelledBooks(old(Value()), id, reason, now)
    {
      if id >= |payments| || payments[id].status == Cancelled {
        return;
      }
      payments := payments[id := payments[id].(status := Cancelled, cancelledAt := Some(now), cancelReason := reason)];
      if payments[id].periodEnd.None? || payments[id].periodStart.None? {
        return;
      }
      if paidUntil == payments[id].periodEnd {
        paidUntil := payments[id].periodStart;
      }
    }
  }
}
