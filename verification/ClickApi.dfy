/** Click's two-step callback (apps/api/src/modules/billing/click.service.ts), for requests whose
    signature and service id are genuine. */
module ClickApi {
  import opened Wrappers
  import opened Billing
  import opened BillingService
  import Ledger

  datatype ClickError =
    | IncorrectAmount | ActionNotFound | AlreadyPaid | TransactionNotFound | FailedToUpdate | TransactionCancelled

  const PREPARE := 0
  const COMPLETE := 1

  /** `order` is the payment the order text names, `quoted` the merchant's prepare id when it
      reads as an integer, `amount` the quoted sum when it reads as a number. */
  datatype Callback = Callback(
    transId: string, order: Option<PaymentId>, quoted: Option<int>, amount: Option<real>, action: int, error: int)

  datatype Reply = Prepared(prepareId: int) | Completed(prepareId: int, confirmId: int)

  datatype Outcome = Outcome(actions: seq<Ledger.Action>, reply: Result<Reply, ClickError>)

  /** Within half a tiyin of the price in so'm. */
  predicate AmountMatches(amount: Option<real>, tiyin: int) {
    && amount.Some? && SumFromTiyin(tiyin).Ok?
    && -0.005 < amount.value - SumFromTiyin(tiyin).value as real < 0.005
  }

  function Verified(b: Books, body: Callback, action: int): Result<PaymentId, ClickError> {
    if body.action != action then Err(ActionNotFound)
    else if body.order.None? || Find(b, body.order.value, Click).None? then Err(TransactionNotFound)
    else
      var p := Find(b, body.order.value, Click).value;
      if SumFromTiyin(p.amountTiyin).Err? then Err(FailedToUpdate)
      else if !AmountMatches(body.amount, p.amountTiyin) then Err(IncorrectAmount)
      else Ok(body.order.value)
  }

  function Fail(error: ClickError): Outcome {
    Outcome([], Err(error))
  }

  /** `minted` is the id a first Prepare draws. */
  function OnPrepare(b: Books, now: int, body: Callback, minted: int): Outcome {
    var guard := Verified(b, body, PREPARE);
    if guard.Err? then Fail(guard.error)
    else
      var id := guard.value;
      var p := b.payments[id];
      if body.error < 0 then Fail(TransactionCancelled)
      else if p.status == Paid then Fail(AlreadyPaid)
      else if p.status == Cancelled then Fail(TransactionCancelled)
      else
        var prepareId := if p.prepareId.Some? then p.prepareId.value else minted;
        var issue := if p.prepareId.None? then [Ledger.AttachPrepareId(id, prepareId)] else [];
        if WithTxn(b, id, body.transId, now).Err? then Outcome(issue, Err(FailedToUpdate))
        else Outcome(issue + [Ledger.AttachTxn(id, body.transId, now)], Ok(Prepared(prepareId)))
  }

  function OnComplete(b: Books, now: int, body: Callback): Outcome {
    var guard := Verified(b, body, COMPLETE);
    if guard.Err? then Fail(guard.error)
    else
      var id := guard.value;
      var p := b.payments[id];
      if p.prepareId.None? || body.quoted != p.prepareId then Fail(TransactionNotFound)
      else if body.error < 0 then Outcome([Ledger.Cancel(id, Some(body.error), now)], Err(TransactionCancelled))
      else if p.status == Cancelled then Fail(TransactionCancelled)
      else if p.status == Paid then Fail(AlreadyPaid)
      else Outcome([Ledger.Activate(id, now)], Ok(Completed(p.prepareId.value, p.prepareId.value)))
  }

  class ClickService {
    const billing: Service

    constructor (billing: Service)
      ensures this.billing == billing
    {
      this.billing := billing;
    }

    method Prepare(now: int, body: Callback, minted: int) returns (reply: Result<Reply, ClickError>)
      modifies billing
      ensures var outcome := OnPrepare(old(billing.Value()), now, body, minted);
              && reply == outcome.reply
              && forall s: Ledger.State :: s.books == old(billing.Value()) ==>
                   Ledger.Run(s, outcome.actions).books == billing.Value()
    {
      hide FindByTxn;
      ghost var before := billing.Value();
      var guard := Verified(Books(billing.payments, billing.isPro, billing.paidUntil), body, PREPARE);
      if guard.Err? {
        return Err(guard.error);
      }
      var id := guard.value;
      var p := billing.payments[id];
      if body.error < 0 {
        return Err(TransactionCancelled);
      }
      if p.status == Paid {
        return Err(AlreadyPaid);
      }
      if p.status == Cancelled {
        return Err(TransactionCancelled);
      }
      var prepareId := if p.prepareId.Some? then p.prepareId.value else minted;
      if p.prepareId.None? {
        var _ := billing.AttachClickPrepareId(id, prepareId);
      }
      PrepareIdLeavesTxns(before, id, prepareId, body.transId, now);
      var error := billing.AttachProviderTxn(id, body.transId, now);
      OneOrTwoSteps(before, OnPrepare(before, now, body, minted).actions);
      if error.Some? {
        return Err(FailedToUpdate);
      }
      return Ok(Prepared(prepareId));
    }

    method Complete(now: int, body: Callback) returns (reply: Result<Reply, ClickError>)
      modifies billing
      ensures var outcome := OnComplete(old(billing.Value()), now, body);
              && reply == outcome.reply
              && forall s: Ledger.State :: s.books == old(billing.Value()) && now <= s.clock ==>
                   Ledger.Run(s, outcome.actions).books == billing.Value()
    {
      hide Activated, CancelledBooks;
      ghost var before := billing.Value();
      var guard := Verified(Books(billing.payments, billing.isPro, billing.paidUntil), body, COMPLETE);
      if guard.Err? {
        return Err(guard.error);
      }
      var id := guard.value;
      var p := billing.payments[id];
      if p.prepareId.None? || body.quoted != p.prepareId {
        return Err(TransactionNotFound);
      }
      if body.error < 0 {
        billing.Cancel(id, Some(body.error), now);
        return Err(TransactionCancelled);
      }
      if p.status == Cancelled {
        return Err(TransactionCancelled);
      }
      if p.status == Paid {
        return Err(AlreadyPaid);
      }
      var _ := billing.Activate(id, now);
      return Ok(Completed(p.prepareId.value, p.prepareId.value));
    }
  }

  /** Issuing a prepare id makes no difference to which transactions are taken. */
  lemma PrepareIdLeavesTxns(b: Books, id: PaymentId, prepareId: int, txn: string, now: int)
    requires id < |b.payments|
    ensures WithTxn(SetPayment(b, id, b.payments[id].(prepareId := Some(prepareId))), id, txn, now).Ok?
            <==> WithTxn(b, id, txn, now).Ok?
  {
    SameHolder(b, SetPayment(b, id, b.payments[id].(prepareId := Some(prepareId))), b.payments[id].provider, txn, 0);
  }

  lemma {:induction false} SameHolder(b: Books, c: Books, provider: Provider, txn: string, from: nat)
    requires from <= |b.payments| == |c.payments|
    requires forall i :: 0 <= i < |b.payments| ==>
               c.payments[i].provider == b.payments[i].provider && c.payments[i].txn == b.payments[i].txn
    ensures FindByTxn(c, provider, txn, from) == FindByTxn(b, provider, txn, from)
    decreases |b.payments| - from
  {
    if from < |b.payments| {
      SameHolder(b, c, provider, txn, from + 1);
    }
  }

  lemma OneOrTwoSteps(b: Books, actions: seq<Ledger.Action>)
    ensures |actions| == 1 ==> forall s: Ledger.State :: Ledger.Run(s, actions) == Ledger.Step(s, actions[0])
    ensures |actions| == 2 ==>
              forall s: Ledger.State :: Ledger.Run(s, actions) == Ledger.Step(Ledger.Step(s, actions[0]), actions[1])
  {
    hide Ledger.Step;
    if |actions| == 2 {
      assert actions[1..] == [actions[1]];
    }
  }
}
