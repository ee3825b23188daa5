/** The six Merchant API methods Payme calls (apps/api/src/modules/billing/payme.service.ts). Each
    call is answered from the books as they are and does at most one thing to them. */
module PaymeApi {
  import opened Wrappers
  import opened Billing
  import opened BillingService
  import Ledger

  datatype PaymeError =
    | InvalidAmount | TransactionNotFound | CannotPerform | OrderNotFound | OrderNotPayable | InvalidRequest

  const CREATED := 1
  const PERFORMED := 2
  const CANCELLED_BEFORE_PERFORM := -1
  const CANCELLED_AFTER_PERFORM := -2

  const PAYME_TRANSACTION_TIMEOUT_MS := 12 * 60 * 60 * 1000

  /** A parameter that is missing or of the wrong type is None. */
  datatype Call =
    | CheckPerform(account: Option<PaymentId>, amount: Option<real>)
    | Create(id: Option<string>, time: Option<real>, account: Option<PaymentId>, amount: Option<real>)
    | Perform(id: Option<string>)
    | CancelTxn(id: Option<string>, reason: Option<int>)
    | CheckTxn(id: Option<string>)
    | GetStatement(from: Option<real>, to: Option<real>)

  datatype Entry = Entry(
    txn: string, time: int, amount: int, createTime: int, performTime: int, cancelTime: int,
    transaction: PaymentId, state: int, reason: Option<int>)

  datatype Reply =
    | Allow
    | CreateReply(createTime: real, transaction: PaymentId, state: int)
    | PerformReply(transaction: PaymentId, performTime: int, state: int)
    | CancelReply(transaction: PaymentId, cancelTime: int, state: int)
    | CheckReply(
        created: int, performed: int, cancelled: int, transaction: PaymentId, state: int, reason: Option<int>)
    | StatementReply(entries: seq<Entry>)

  // ----- numbers

  /** Toward zero, as `Math.trunc` and a Date's time value do. */
  function Trunc(x: real): int {
    if x >= 0.0 then x.Floor else -(-x).Floor
  }

  const MAX_TIME: real := 8_640_000_000_000_000.0

  /** The time value of `new Date(x)`; None is an invalid Date (section 21.4.1.31 of ECMA-262). */
  function TimeClip(x: real): Option<int> {
    if x > MAX_TIME || x < -MAX_TIME then None else Some(Trunc(x))
  }

  predicate IsTimedOut(createdAt: int, now: int) {
    now - createdAt > PAYME_TRANSACTION_TIMEOUT_MS
  }

  predicate QuotesThePrice(p: Payment, amount: Option<real>) {
    amount.Some? && Trunc(amount.value) == p.amountTiyin
  }

  // ----- states

  function CancelledState(p: Payment): int {
    if p.paidAt.Some? then CANCELLED_AFTER_PERFORM else CANCELLED_BEFORE_PERFORM
  }

  function StateOf(p: Payment): int {
    match p.status
    case Paid => PERFORMED
    case Cancelled => CancelledState(p)
    case Pending => CREATED
  }

  function OrZero(t: Option<int>): int {
    if t.Some? then t.value else 0
  }

  // ----- finding the payment

  function ByAccount(b: Books, account: Option<PaymentId>): Result<Payment, PaymeError> {
    if account.None? then Err(OrderNotFound)
    else match Find(b, account.value, Payme)
      case Some(p) => Ok(p)
      case None => Err(OrderNotFound)
  }

  function ByTxn(b: Books, id: Option<string>): (found: Result<PaymentId, PaymeError>)
    ensures found.Ok? ==>
              found.value < |b.payments| && b.payments[found.value].provider == Payme
              && id.Some? && b.payments[found.value].txn == id
  {
    if id.None? then Err(TransactionNotFound)
    else match FindByTxn(b, Payme, id.value, 0)
      case Some(i) => Ok(i)
      case None => Err(TransactionNotFound)
  }

  // ----- the answers, and what each call does

  /** What a call does to the books, if anything; and what it is answered. */
  datatype Outcome = Outcome(action: Option<Ledger.Action>, reply: Result<Reply, PaymeError>)

  function Refuse(error: PaymeError): Outcome {
    Outcome(None, Err(error))
  }

  function OnCheckPerform(b: Books, account: Option<PaymentId>, amount: Option<real>): Outcome {
    var found := ByAccount(b, account);
    if found.Err? then Refuse(found.error)
    else if found.value.status != Pending then Refuse(OrderNotPayable)
    else if !QuotesThePrice(found.value, amount) then Refuse(InvalidAmount)
    else Outcome(None, Ok(Allow))
  }

  function OnCreate(
      b: Books, now: int, id: Option<string>, time: Option<real>, account: Option<PaymentId>, amount: Option<real>)
    : Outcome
  {
    if id.None? || time.None? then Refuse(InvalidRequest)
    else
      var found := ByAccount(b, account);
      if found.Err? then Refuse(found.error)
      else
        var p := found.value;
        if p.txn.Some? then
          if p.txn == id && p.txnCreatedAt.Some? && !IsTimedOut(p.txnCreatedAt.value, now)
          then Outcome(None, Ok(CreateReply(p.txnCreatedAt.value as real, account.value, CREATED)))
          else Refuse(CannotPerform)
        else if p.status != Pending then Refuse(OrderNotPayable)
        else if !QuotesThePrice(p, amount) then Refuse(InvalidAmount)
        else
          var createdAt := TimeClip(time.value);
          if createdAt.None? || IsTimedOut(createdAt.value, now)
             || WithTxn(b, account.value, id.value, createdAt.value).Err? then Refuse(CannotPerform)
          else Outcome(Some(Ledger.AttachTxn(account.value, id.value, createdAt.value)),
                       Ok(CreateReply(time.value, account.value, CREATED)))
  }

  function OnPerform(b: Books, now: int, id: Option<string>): Outcome {
    var found := ByTxn(b, id);
    if found.Err? then Refuse(found.error)
    else
      var p := b.payments[found.value];
      if p.status == Paid && p.paidAt.Some? then
        Outcome(None, Ok(PerformReply(found.value, p.paidAt.value, PERFORMED)))
      else if p.status == Cancelled || (p.txnCreatedAt.Some? && IsTimedOut(p.txnCreatedAt.value, now))
      then Refuse(CannotPerform)
      else Outcome(Some(Ledger.Activate(found.value, now)), Ok(PerformReply(found.value, now, PERFORMED)))
  }

  function OnCancel(b: Books, now: int, id: Option<string>, reason: Option<int>): Outcome {
    var found := ByTxn(b, id);
    if found.Err? then Refuse(found.error)
    else
      var p := b.payments[found.value];
      if p.status == Cancelled && p.cancelledAt.Some? then
        Outcome(None, Ok(CancelReply(found.value, p.cancelledAt.value, CancelledState(p))))
      else
        var state := if p.status == Paid then CANCELLED_AFTER_PERFORM else CANCELLED_BEFORE_PERFORM;
        Outcome(Some(Ledger.Cancel(found.value, reason, now)), Ok(CancelReply(found.value, now, state)))
  }

  function OnCheck(b: Books, id: Option<string>): Outcome {
    var found := ByTxn(b, id);
    if found.Err? then Refuse(found.error)
    else
      var p := b.payments[found.value];
      Outcome(None, Ok(CheckReply(OrZero(p.txnCreatedAt), OrZero(p.paidAt), OrZero(p.cancelledAt),
                                  found.value, StateOf(p), p.cancelReason)))
  }

  predicate IsInWindow(p: Payment, from: int, to: int) {
    p.provider == Payme && p.txn.Some? && p.txnCreatedAt.Some? && from <= p.txnCreatedAt.value <= to
  }

  function EntryOf(p: Payment, id: PaymentId): Entry
    requires p.txn.Some? && p.txnCreatedAt.Some?
  {
    Entry(p.txn.value, p.txnCreatedAt.value, p.amountTiyin, p.txnCreatedAt.value,
          OrZero(p.paidAt), OrZero(p.cancelledAt), id, StateOf(p), p.cancelReason)
  }

  /** The rows of a window; the order the statement lists them in is left out. */
  function Entries(payments: seq<Payment>, from: int, to: int): seq<Entry> {
    if payments == [] then []
    else
      var n := |payments| - 1;
      Entries(payments[..n], from, to)
      + (if IsInWindow(payments[n], from, to) then [EntryOf(payments[n], n)] else [])
  }

  function OnStatement(b: Books, from: Option<real>, to: Option<real>): Outcome {
    if from.None? || to.None? then Refuse(InvalidRequest)
    else
      var (lo, hi) := (TimeClip(from.value), TimeClip(to.value));
      if lo.None? || hi.None? then Refuse(CannotPerform)
      else Outcome(None, Ok(StatementReply(Entries(b.payments, lo.value, hi.value))))
  }

  function Answer(b: Books, now: int, call: Call): Outcome {
    match call
    case CheckPerform(account, amount) => OnCheckPerform(b, account, amount)
    case Create(id, time, account, amount) => OnCreate(b, now, id, time, account, amount)
    case Perform(id) => OnPerform(b, now, id)
    case CancelTxn(id, reason) => OnCancel(b, now, id, reason)
    case CheckTxn(id) => OnCheck(b, id)
    case GetStatement(from, to) => OnStatement(b, from, to)
  }

  /** The books after what a call does to them. */
  function After(b: Books, action: Option<Ledger.Action>): Books {
    match action
    case None => b
    case Some(AttachTxn(id, txn, createdAt)) => Ledger.OrSame(WithTxn(b, id, txn, createdAt), b)
    case Some(Activate(id, now)) => Activated(b, id, now)
    case Some(Cancel(id, reason, now)) => CancelledBooks(b, id, reason, now)
    case Some(_) => b
  }

  // ----- the service

  class PaymeService {
    const billing: Service

    constructor (billing: Service)
      ensures this.billing == billing
    {
      this.billing := billing;
    }

    method CreateTransaction(
        now: int, id: Option<string>, time: Option<real>, account: Option<PaymentId>, amount: Option<real>)
      returns (reply: Result<Reply, PaymeError>)
      modifies billing
      ensures var outcome := Answer(old(billing.Value()), now, Create(id, time, account, amount));
              reply == outcome.reply && billing.Value() == After(old(billing.Value()), outcome.action)
    {
      hide FindByTxn;
      if id.None? || time.None? {
        return Err(InvalidRequest);
      }
      if account.None? {
        return Err(OrderNotFound);
      }
      var payment := billing.FindPayment(account.value, Payme);
      if payment.None? {
        return Err(OrderNotFound);
      }
      var p := payment.value;
      if p.txn.Some? {
        if p.txn == id && p.txnCreatedAt.Some? {
          if IsTimedOut(p.txnCreatedAt.value, now) {
            return Err(CannotPerform);
          }
          return Ok(CreateReply(p.txnCreatedAt.value as real, account.value, CREATED));
        }
        return Err(CannotPerform);
      }
      if p.status != Pending {
        return Err(OrderNotPayable);
      }
      if !QuotesThePrice(p, amount) {
        return Err(InvalidAmount);
      }
      var createdAt := TimeClip(time.value);
      if createdAt.None? || IsTimedOut(createdAt.value, now) {
        return Err(CannotPerform);
      }
      var error := billing.AttachProviderTxn(account.value, id.value, createdAt.value);
      if error.Some? {
        return Err(CannotPerform);
      }
      return Ok(CreateReply(time.value, account.value, CREATED));
    }

    /** `byTxn`, shared by the three methods that name Payme's own transaction. */
    method Resolve(id: Option<string>) returns (found: Result<PaymentId, PaymeError>)
      ensures found == ByTxn(billing.Value(), id)
    {
      if id.None? {
        return Err(TransactionNotFound);
      }
      var resolved := billing.ResolveByTxn(Payme, id.value);
      if resolved.None? {
        return Err(TransactionNotFound);
      }
      return Ok(resolved.value);
    }

    method PerformTransaction(now: int, id: Option<string>) returns (reply: Result<Reply, PaymeError>)
      modifies billing
      ensures var outcome := Answer(old(billing.Value()), now, Perform(id));
              reply == outcome.reply && billing.Value() == After(old(billing.Value()), outcome.action)
    {
      hide FindByTxn, Activated;
      var found := Resolve(id);
      if found.Err? {
        return Err(found.error);
      }
      var p := billing.payments[found.value];
      if p.status == Paid && p.paidAt.Some? {
        return Ok(PerformReply(found.value, p.paidAt.value, PERFORMED));
      }
      if p.status == Cancelled {
        return Err(CannotPerform);
      }
      if p.txnCreatedAt.Some? && IsTimedOut(p.txnCreatedAt.value, now) {
        return Err(CannotPerform);
      }
      var _ := billing.Activate(found.value, now);
      return Ok(PerformReply(found.value, now, PERFORMED));
    }

    method CancelTransaction(now: int, id: Option<string>, reason: Option<int>)
      returns (reply: Result<Reply, PaymeError>)
      modifies billing
      ensures var outcome := Answer(old(billing.Value()), now, CancelTxn(id, reason));
              reply == outcome.reply && billing.Value() == After(old(billing.Value()), outcome.action)
    {
      hide FindByTxn, CancelledBooks;
      var found := Resolve(id);
      if found.Err? {
        return Err(found.error);
      }
      var p := billing.payments[found.value];
      if p.status == Cancelled && p.cancelledAt.Some? {
        return Ok(CancelReply(found.value, p.cancelledAt.value, CancelledState(p)));
      }
      var state := if p.status == Paid then CANCELLED_AFTER_PERFORM else CANCELLED_BEFORE_PERFORM;
      billing.Cancel(found.value, reason, now);
      return Ok(CancelReply(found.value, now, state));
    }
  }
}
