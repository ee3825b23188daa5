/** When each callback is granted and when it is refused, read off the payments as they stand, and
    what a whole purchase comes to (apps/api/src/modules/billing/payme.service.ts and
    click.service.ts). */
module CallbackOutcomes {
  import opened Wrappers
  import opened Billing
  import opened Callbacks
  import Calendar
  import Ledger
  import P = PaymeApi
  import C = ClickApi

  const HALF_A_DAY := 43_200_000

  predicate HoldsTxn(w: World, id: PaymentId, provider: Provider, txn: string) {
    && id < |Payments(w)| && Payments(w)[id].provider == provider && Payments(w)[id].txn == Some(txn)
  }

  ghost predicate IsUnknown(w: World, provider: Provider, txn: string) {
    forall id: PaymentId :: !HoldsTxn(w, id, provider, txn)
  }

  predicate IsStale(w: World, p: Payment) {
    p.txnCreatedAt.Some? && w.ledger.clock - p.txnCreatedAt.value > HALF_A_DAY
  }

  /** Only this payment may have changed, if any. */
  predicate OthersStay(w: World, w': World, id: PaymentId) {
    && |Payments(w')| == |Payments(w)|
    && forall i :: 0 <= i < |Payments(w)| && i != id ==> Payments(w')[i] == Payments(w)[i]
  }

  lemma UnknownIsNotFound(w: World, provider: Provider, txn: string)
    ensures IsUnknown(w, provider, txn) <==> FindByTxn(w.ledger.books, provider, txn, 0).None?
  {
    hide FindByTxn;
    var found := FindByTxn(w.ledger.books, provider, txn, 0);
    if found.Some? {
      assert HoldsTxn(w, found.value, provider, txn);
    } else {
      forall id: PaymentId ensures !HoldsTxn(w, id, provider, txn) {
      }
    }
  }

  lemma HolderIsFound(w: World, id: PaymentId, txn: string)
    requires Inv(w) && HoldsTxn(w, id, Payme, txn)
    ensures P.ByTxn(w.ledger.books, Some(txn)) == Ok(id) && Ledger.PaymentOk(w.ledger, id)
  {
    hide PaperOk, TxnsAreUnique, Ledger.PeriodsOk, Ledger.CoverOk;
    TxnNamesItsPayment(w, id, txn);
  }

  // ----- Payme

  /** A call that names no transaction of ours is refused and does nothing. */
  lemma UnknownTransaction(w: World, txn: string, reason: Option<int>, call: P.Call)
    requires IsUnknown(w, Payme, txn)
    requires call == P.Perform(Some(txn)) || call == P.CancelTxn(Some(txn), reason) || call == P.CheckTxn(Some(txn))
    ensures Reply(w, call) == Err(P.TransactionNotFound) && Step(w, PaymeCalls(call)).ledger == w.ledger
  {
    hide FindByTxn;
    UnknownIsNotFound(w, Payme, txn);
    RunOfTwo(w.ledger, Actions(w.ledger, PaymeCalls(call)));
  }

  /** A perform of a transaction we know is refused if and only if its payment is cancelled, or
      still open after twelve hours. A paid one is answered as it was the first time; an open one
      is paid now, and granted its period. */
  lemma PerformIff(w: World, id: PaymentId, txn: string)
    requires IsReachable(w) && HoldsTxn(w, id, Payme, txn)
    ensures var call, p := P.Perform(Some(txn)), Payments(w)[id];
            var reply, w' := Reply(w, call), Step(w, PaymeCalls(call));
            && (reply.Err? <==> p.status == Cancelled || (p.status == Pending && IsStale(w, p)))
            && (reply.Err? ==> reply.error == P.CannotPerform && w'.ledger == w.ledger)
            && (p.status == Paid ==>
                  p.paidAt.Some? && reply == Ok(P.PerformReply(id, p.paidAt.value, 2)) && w'.ledger == w.ledger)
            && (p.status == Pending && reply.Ok? ==>
                  && reply == Ok(P.PerformReply(id, w.ledger.clock, 2)) && OthersStay(w, w', id)
                  && Payments(w')[id].status == Paid && Payments(w')[id].paidAt == Some(w.ledger.clock)
                  && w'.ledger == Ledger.Step(w.ledger, Ledger.Activate(id, w.ledger.clock)))
  {
    hide FindByTxn, IsReachable, Inv, Calendar.Shifted;
    ReachableIsOk(w);
    HolderIsFound(w, id, txn);
    RunOfTwo(w.ledger, Actions(w.ledger, PaymeCalls(P.Perform(Some(txn)))));
  }

  /** A cancel of a transaction we know is always carried out: the payment is cancelled now, with
      the reason given, unless it was before; and the answer is -2 exactly when it had been paid.
      A refunded period is taken back exactly when it is what the workspace is paid until. */
  lemma CancelIsCarriedOut(w: World, id: PaymentId, txn: string, reason: Option<int>)
    requires IsReachable(w) && HoldsTxn(w, id, Payme, txn)
    ensures var call, p := P.CancelTxn(Some(txn), reason), Payments(w)[id];
            var reply, w' := Reply(w, call), Step(w, PaymeCalls(call));
            && reply.Ok? && reply.value.CancelReply? && reply.value.transaction == id && OthersStay(w, w', id)
            && var p' := Payments(w')[id];
            && p'.status == Cancelled && p'.cancelledAt == Some(reply.value.cancelTime)
            && reply.value.state == (if p.paidAt.Some? then -2 else -1)
            && (p.status == Cancelled ==> w'.ledger == w.ledger)
            && (p.status != Cancelled ==>
                  && reply.value.cancelTime == w.ledger.clock && p'.cancelReason == reason
                  && (p.status == Paid <==> reply.value.state == -2)
                  && w'.ledger.books.paidUntil ==
                     if p.periodEnd.Some? && w.ledger.books.paidUntil == p.periodEnd then p.periodStart
                     else w.ledger.books.paidUntil)
  {
    hide FindByTxn, IsReachable, Inv;
    ReachableIsOk(w);
    HolderIsFound(w, id, txn);
    RunOfTwo(w.ledger, Actions(w.ledger, PaymeCalls(P.CancelTxn(Some(txn), reason))));
  }

  /** A cancel or a check is answered if and only if some Payme payment holds the transaction. */
  lemma KnownIffHeld(w: World, txn: string, reason: Option<int>)
    requires IsReachable(w)
    ensures Reply(w, P.CancelTxn(Some(txn), reason)).Ok? <==> exists id: PaymentId :: HoldsTxn(w, id, Payme, txn)
    ensures Reply(w, P.CheckTxn(Some(txn))).Ok? <==> exists id: PaymentId :: HoldsTxn(w, id, Payme, txn)
  {
    hide IsReachable, Reply, Step, HoldsTxn;
    if id: PaymentId :| HoldsTxn(w, id, Payme, txn) {
      CancelIsCarriedOut(w, id, txn, reason);
      CheckIsAnswered(w, id, txn);
    } else {
      UnknownTransaction(w, txn, reason, P.CancelTxn(Some(txn), reason));
      UnknownTransaction(w, txn, reason, P.CheckTxn(Some(txn)));
    }
  }

  lemma CheckIsAnswered(w: World, id: PaymentId, txn: string)
    requires IsReachable(w) && HoldsTxn(w, id, Payme, txn)
    ensures Reply(w, P.CheckTxn(Some(txn))).Ok?
  {
    hide IsReachable, Inv;
    ReachableIsOk(w);
    CheckOf(w, id, txn);
  }

  /** `amount` tiyin, whatever the fraction, is the price. */
  predicate IsPrice(p: Payment, amount: Option<real>) {
    amount.Some? && p.amountTiyin as real <= amount.value < (p.amountTiyin + 1) as real
  }

  lemma PriceIsQuoted(s: Ledger.State, id: PaymentId, amount: Option<real>)
    requires Ledger.Inv(s) && id < |s.books.payments|
    ensures P.QuotesThePrice(s.books.payments[id], amount) <==> IsPrice(s.books.payments[id], amount)
  {
    hide Ledger.PeriodsOk, Ledger.CoverOk, Ledger.IsAsBought;
    assert Ledger.PaymentOk(s, id);
    var price := s.books.payments[id].amountTiyin;
    assert price > 0;
    if amount.Some? && amount.value >= 0.0 {
      assert amount.value.Floor as real <= amount.value < (amount.value.Floor + 1) as real;
    }
  }

  predicate NamesPayment(w: World, account: Option<PaymentId>, provider: Provider) {
    account.Some? && account.value < |Payments(w)| && Payments(w)[account.value].provider == provider
  }

  /** An order may be paid if and only if it is an open Payme payment and the amount is its price;
      asking changes nothing. */
  lemma CheckPerformIff(w: World, account: Option<PaymentId>, amount: Option<real>)
    requires IsReachable(w)
    ensures var call := P.CheckPerform(account, amount);
            && (Reply(w, call).Ok? <==>
                  NamesPayment(w, account, Payme) && Payments(w)[account.value].status == Pending
                  && IsPrice(Payments(w)[account.value], amount))
            && (Reply(w, call).Ok? ==> Reply(w, call).value == P.Allow)
            && Step(w, PaymeCalls(call)).ledger == w.ledger
  {
    hide IsReachable, Ledger.Inv, P.QuotesThePrice, IsPrice;
    ReachableIsOk(w);
    if NamesPayment(w, account, Payme) {
      PriceIsQuoted(w.ledger, account.value, amount);
    }
    RunOfTwo(w.ledger, Actions(w.ledger, PaymeCalls(P.CheckPerform(account, amount))));
  }

  /** Payme repeats the transaction this payment has, in time. */
  predicate IsRepeat(w: World, p: Payment, txn: string) {
    p.txn == Some(txn) && p.txnCreatedAt.Some? && !IsStale(w, p)
  }

  /** A first transaction for an open payment at its price, made less than twelve hours ago at a
      time a Date can hold, with an id no other payment has. */
  ghost predicate IsFirst(w: World, p: Payment, txn: string, time: real, amount: Option<real>) {
    && p.txn.None? && p.status == Pending && IsPrice(p, amount)
    && -P.MAX_TIME <= time <= P.MAX_TIME && w.ledger.clock - P.Trunc(time) <= HALF_A_DAY
    && IsUnknown(w, Payme, txn)
  }

  /** A create is granted if and only if it repeats the payment's own transaction in time, or is a
      first one; a repeat changes nothing, a first one is attached, and nothing else moves. */
  lemma CreateIff(w: World, txn: string, time: real, account: Option<PaymentId>, amount: Option<real>)
    requires IsReachable(w)
    ensures var call := P.Create(Some(txn), Some(time), account, amount);
            var reply, w' := Reply(w, call), Step(w, PaymeCalls(call));
            && (reply.Ok? <==>
                  && NamesPayment(w, account, Payme)
                  && var p := Payments(w)[account.value];
                     IsRepeat(w, p, txn) || IsFirst(w, p, txn, time, amount))
            && (reply.Err? || IsRepeat(w, Payments(w)[account.value], txn) ==> w'.ledger == w.ledger)
            && (reply.Ok? && !IsRepeat(w, Payments(w)[account.value], txn) ==>
                  && OthersStay(w, w', account.value)
                  && Payments(w')[account.value] ==
                     Payments(w)[account.value].(txn := Some(txn), txnCreatedAt := Some(P.Trunc(time)))
                  && reply == Ok(P.CreateReply(time, account.value, 1))
                  && w'.ledger.books.paidUntil == w.ledger.books.paidUntil && w'.ledger.clock == w.ledger.clock)
  {
    hide IsReachable, Ledger.Inv, P.QuotesThePrice, IsPrice, FindByTxn, IsUnknown, TxnsAreUnique, PaperOk, P.Trunc;
    ReachableIsOk(w);
    UnknownIsNotFound(w, Payme, txn);
    if NamesPayment(w, account, Payme) {
      PriceIsQuoted(w.ledger, account.value, amount);
    }
    RunOfTwo(w.ledger, Actions(w.ledger, PaymeCalls(P.Create(Some(txn), Some(time), account, amount))));
  }

  // ----- Click

  /** The sum Click quotes, in so'm, is the price to half a tiyin. */
  predicate IsSum(p: Payment, amount: Option<real>) {
    amount.Some? && -0.5 < 100.0 * amount.value - p.amountTiyin as real < 0.5
  }

  lemma SumMatches(s: Ledger.State, id: PaymentId, amount: Option<real>)
    requires Ledger.Inv(s) && id < |s.books.payments|
    ensures SumFromTiyin(s.books.payments[id].amountTiyin).Ok?
    ensures C.AmountMatches(amount, s.books.payments[id].amountTiyin) <==> IsSum(s.books.payments[id], amount)
  {
    hide Ledger.PeriodsOk, Ledger.CoverOk, Ledger.IsAsBought;
    assert Ledger.PaymentOk(s, id);
    WholeSum(s.books.payments[id].plan, s.books.payments[id].months);
  }

  lemma WholeSum(plan: Plan, months: int)
    ensures MonthlyPrice(plan) * months % 100 == 0
  {
    var inSum := if plan == Personal then 99_000 else 299_000;
    assert MonthlyPrice(plan) == 100 * inSum;
    Hundreds(inSum, months);
  }

  lemma Hundreds(n: int, months: int)
    ensures 100 * n * months % 100 == 0
  {
    assert 100 * n * months == 100 * (n * months);
    HundredFold(n * months);
  }

  lemma HundredFold(n: int)
    ensures 100 * n % 100 == 0
  {
  }

  /** What both of Click's calls have to bring: the right action, one of our payments, its price. */
  predicate IsInOrder(w: World, body: C.Callback, action: int) {
    && body.action == action && NamesPayment(w, body.order, Click)
    && IsSum(Payments(w)[body.order.value], body.amount)
  }

  lemma InOrderIsVerified(w: World, body: C.Callback, action: int)
    requires Inv(w)
    ensures C.Verified(w.ledger.books, body, action).Ok? <==> IsInOrder(w, body, action)
    ensures IsInOrder(w, body, action) ==> C.Verified(w.ledger.books, body, action).value == body.order.value
  {
    hide Ledger.Inv, PaperOk, TxnsAreUnique, IsSum, C.AmountMatches;
    if NamesPayment(w, body.order, Click) {
      SumMatches(w.ledger, body.order.value, body.amount);
    }
  }

  /** Nobody but this payment holds the transaction. */
  ghost predicate IsTheirs(w: World, id: PaymentId, txn: string) {
    forall i: PaymentId :: i != id ==> !HoldsTxn(w, i, Click, txn)
  }

  lemma TheirsIsAttached(w: World, id: PaymentId, txn: string)
    requires Inv(w) && NamesPayment(w, Some(id), Click)
    ensures WithTxn(w.ledger.books, id, txn, w.ledger.clock).Ok? <==> IsTheirs(w, id, txn)
  {
    hide FindByTxn, Ledger.Inv, PaperOk;
    var found := FindByTxn(w.ledger.books, Click, txn, 0);
    if found.Some? {
      assert HoldsTxn(w, found.value, Click, txn);
      if found.value == id {
        forall i: PaymentId | i != id ensures !HoldsTxn(w, i, Click, txn) {
        }
      }
    } else {
      forall i: PaymentId ensures !HoldsTxn(w, i, Click, txn) {
      }
    }
  }

  /** A prepare is granted if and only if it is in order, the money did not fail, the payment is
      open and the transaction is nobody else's; it then answers with the payment's one id, drawn
      the first time, and keeps it with the transaction. */
  lemma PrepareIff(w: World, body: C.Callback, minted: int)
    requires IsReachable(w)
    ensures var reply := C.OnPrepare(w.ledger.books, w.ledger.clock, body, minted).reply;
            var w' := Step(w, ClickPrepares(body, minted));
            && (reply.Ok? <==>
                  && IsInOrder(w, body, 0) && body.error >= 0
                  && Payments(w)[body.order.value].status == Pending
                  && IsTheirs(w, body.order.value, body.transId))
            && (reply.Ok? ==>
                  var p := Payments(w)[body.order.value];
                  var id := if p.prepareId.Some? then p.prepareId.value else minted;
                  && reply == Ok(C.Prepared(id)) && OthersStay(w, w', body.order.value)
                  && Payments(w')[body.order.value] ==
                     p.(prepareId := Some(id), txn := Some(body.transId), txnCreatedAt := Some(w.ledger.clock))
                  && w'.ledger.books.paidUntil == w.ledger.books.paidUntil && w'.ledger.clock == w.ledger.clock)
            && (IsInOrder(w, body, 0) && body.error >= 0 && Payments(w)[body.order.value].status == Paid ==>
                  reply == Err(C.AlreadyPaid) && w'.ledger == w.ledger)
  {
    hide IsReachable, Inv, FindByTxn, C.Verified, WithTxn, IsInOrder, IsTheirs;
    ReachableIsOk(w);
    InOrderIsVerified(w, body, 0);
    if IsInOrder(w, body, 0) {
      InOrderNames(w, body, 0);
      var id := body.order.value;
      TheirsIsAttached(w, id, body.transId);
      RunOfTwo(w.ledger, Actions(w.ledger, ClickPrepares(body, minted)));
      if C.OnPrepare(w.ledger.books, w.ledger.clock, body, minted).reply.Ok? {
        PreparedStep(w, body, minted);
      }
    } else {
      RunOfTwo(w.ledger, Actions(w.ledger, ClickPrepares(body, minted)));
    }
  }

  lemma InOrderNames(w: World, body: C.Callback, action: int)
    requires IsInOrder(w, body, action)
    ensures NamesPayment(w, body.order, Click) && body.action == action
  {
  }

  lemma PreparedStep(w: World, body: C.Callback, minted: int)
    requires NamesPayment(w, body.order, Click)
    requires C.OnPrepare(w.ledger.books, w.ledger.clock, body, minted).reply.Ok?
    requires C.Verified(w.ledger.books, body, 0) == Ok(body.order.value)
    ensures var w', p := Step(w, ClickPrepares(body, minted)), Payments(w)[body.order.value];
            var id := if p.prepareId.Some? then p.prepareId.value else minted;
            && OthersStay(w, w', body.order.value)
            && Payments(w')[body.order.value] ==
               p.(prepareId := Some(id), txn := Some(body.transId), txnCreatedAt := Some(w.ledger.clock))
            && w'.ledger.books.paidUntil == w.ledger.books.paidUntil && w'.ledger.clock == w.ledger.clock
  {
    hide FindByTxn, C.Verified, SumFromTiyin;
    var id, p := body.order.value, Payments(w)[body.order.value];
    RunOfTwo(w.ledger, Actions(w.ledger, ClickPrepares(body, minted)));
    C.PrepareIdLeavesTxns(w.ledger.books, id, if p.prepareId.Some? then p.prepareId.value else minted,
                          body.transId, w.ledger.clock);
  }

  /** The id Prepare issued, quoted back. */
  predicate QuotesItsId(w: World, body: C.Callback) {
    && NamesPayment(w, body.order, Click)
    && Payments(w)[body.order.value].prepareId.Some? && body.quoted == Payments(w)[body.order.value].prepareId
  }

  /** A complete is granted if and only if it is in order, quotes the payment's id, the money did
      not fail and the payment is open: it is then paid now, and granted its period. If the money
      did fail the payment is closed, whatever it was: a paid one too. */
  lemma CompleteIff(w: World, body: C.Callback)
    requires IsReachable(w)
    ensures var reply, w' := C.OnComplete(w.ledger.books, w.ledger.clock, body).reply, Step(w, ClickCompletes(body));
            && (reply.Ok? <==>
                  && IsInOrder(w, body, 1) && QuotesItsId(w, body) && body.error >= 0
                  && Payments(w)[body.order.value].status == Pending)
            && (reply.Ok? ==>
                  && reply == Ok(C.Completed(body.quoted.value, body.quoted.value))
                  && w'.ledger == Ledger.Step(w.ledger, Ledger.Activate(body.order.value, w.ledger.clock))
                  && OthersStay(w, w', body.order.value) && Payments(w')[body.order.value].status == Paid)
            && (IsInOrder(w, body, 1) && QuotesItsId(w, body) && body.error < 0 ==>
                  && reply == Err(C.TransactionCancelled) && OthersStay(w, w', body.order.value)
                  && Payments(w')[body.order.value].status == Cancelled
                  && (Payments(w)[body.order.value].status != Cancelled ==>
                        Payments(w')[body.order.value].cancelReason == Some(body.error)))
            && (IsInOrder(w, body, 1) && QuotesItsId(w, body) && body.error >= 0 ==>
                  && (Payments(w)[body.order.value].status == Paid ==> reply == Err(C.AlreadyPaid))
                  && (Payments(w)[body.order.value].status == Cancelled ==> reply == Err(C.TransactionCancelled)))
            && (!(IsInOrder(w, body, 1) && QuotesItsId(w, body)) ==> w'.ledger == w.ledger)
  {
    hide IsReachable, Inv, FindByTxn, C.Verified, IsInOrder, Calendar.Shifted;
    ReachableIsOk(w);
    InOrderIsVerified(w, body, 1);
    if IsInOrder(w, body, 1) {
      InOrderNames(w, body, 1);
    }
    RunOfTwo(w.ledger, Actions(w.ledger, ClickCompletes(body)));
  }

  // ----- whole purchases

  /** The purchase `id` has gone through: paid, and the workspace has access for the months bought,
      from the later of this moment and of what it had been paid until. */
  predicate IsPurchased(w: World, w': World, id: PaymentId, months: int) {
    && id < |Payments(w')| && w'.ledger.clock == w.ledger.clock
    && var p, until := Payments(w')[id], w.ledger.books.paidUntil;
    && p.status == Paid && p.periodEnd.Some? && w'.ledger.books.paidUntil == p.periodEnd
    && p.periodStart ==
       Some(if until.Some? && until.value > w.ledger.clock then until.value else w.ledger.clock)
    && Calendar.IsMonthsLater(p.periodStart.value, months, p.periodEnd.value)
    && w'.ledger.books.isPro && w.ledger.clock < p.periodEnd.value
  }

  lemma CheckoutOpens(w: World, plan: Plan, provider: Provider, months: int, isConfigured: bool)
    ensures var w', n := Step(w, Open(plan, provider, months, isConfigured)), |Payments(w)|;
            && (1 <= months <= 12 && isConfigured ==>
                  && |Payments(w')| == n + 1 && Payments(w') == Payments(w) + [Payments(w')[n]]
                  && Payments(w')[n] ==
                     Payment(plan, provider, months * (if plan == Personal then 9_900_000 else 29_900_000), months,
                             Pending, None, None, None, None, None, None, None, None)
                  && w'.ledger.books.paidUntil == w.ledger.books.paidUntil && w'.ledger.clock == w.ledger.clock)
            && (!(1 <= months <= 12 && isConfigured) ==> w'.ledger == w.ledger)
  {
    RunOfTwo(w.ledger, Actions(w.ledger, Open(plan, provider, months, isConfigured)));
  }

  lemma StepIsReachable(w: World, e: Event)
    requires IsReachable(w)
    ensures IsReachable(Step(w, e))
  {
    hide Step, Ledger.IsStart;
    var start, events :| Ledger.IsStart(start) && w == Run(World(start, []), events);
    RunOneMore(World(start, []), events, e);
    assert Ledger.IsStart(start) && Step(w, e) == Run(World(start, []), events + [e]);
  }

  lemma {:induction false} RunOneMore(w: World, events: seq<Event>, e: Event)
    ensures Run(w, events + [e]) == Step(Run(w, events), e)
    decreases events
  {
    hide Step;
    if events == [] {
      assert events + [e] == [e] && [e][1..] == [];
      assert Run(Step(w, e), []) == Step(w, e);
    } else {
      assert (events + [e])[1..] == events[1..] + [e];
      RunOneMore(Step(w, events[0]), events[1..], e);
    }
  }

  /** The activation of an open payment. */
  lemma ActivationPays(w: World, w': World, id: PaymentId)
    requires IsReachable(w) && id < |Payments(w)| && Payments(w)[id].status == Pending
    requires w'.ledger == Ledger.Step(w.ledger, Ledger.Activate(id, w.ledger.clock))
    ensures IsPurchased(w, w', id, Payments(w)[id].months)
  {
    hide IsReachable, Calendar.IsMonthsLater, Calendar.Shifted, Ledger.PeriodsOk, Ledger.CoverOk, Ledger.IsAsBought;
    ReachableIsOk(w);
    assert Ledger.PaymentOk(w.ledger, id);
    var until := w.ledger.books.paidUntil;
    var start := if until.Some? && until.value > w.ledger.clock then until.value else w.ledger.clock;
    Calendar.ShiftedIsMonthsLater(start, Payments(w)[id].months);
    Calendar.PeriodLength(start, Payments(w)[id].months);
  }

  /** Paid through Payme: checkout, a create at the exact price, a perform. */
  lemma PaymePurchase(w: World, plan: Plan, months: int, txn: string)
    requires IsReachable(w) && 1 <= months <= 12 && IsUnknown(w, Payme, txn)
    requires -P.MAX_TIME <= w.ledger.clock as real <= P.MAX_TIME
    ensures var n := |Payments(w)|;
            var price := months * (if plan == Personal then 9_900_000 else 29_900_000);
            var ordered := Step(w, Open(plan, Payme, months, true));
            var created := Step(ordered, PaymeCalls(P.Create(Some(txn), Some(w.ledger.clock as real), Some(n),
                                                            Some(price as real))));
            IsPurchased(w, Step(created, PaymeCalls(P.Perform(Some(txn)))), n, months)
  {
    hide Step, IsReachable, IsPurchased, Reply, P.Trunc;
    var n, time := |Payments(w)|, w.ledger.clock as real;
    var price := Some((months * (if plan == Personal then 9_900_000 else 29_900_000)) as real);
    var ordered := Step(w, Open(plan, Payme, months, true));
    CheckoutOpens(w, plan, Payme, months, true);
    StepIsReachable(w, Open(plan, Payme, months, true));
    var create := PaymeCalls(P.Create(Some(txn), Some(time), Some(n), price));
    var created := Step(ordered, create);
    TruncOfWhole(w.ledger.clock);
    StillUnknown(w, ordered, Payme, txn);
    CreateIff(ordered, txn, time, Some(n), price);
    StepIsReachable(ordered, create);
    assert HoldsTxn(created, n, Payme, txn);
    PerformIff(created, n, txn);
    ActivationPays(created, Step(created, PaymeCalls(P.Perform(Some(txn)))), n);
    SamePurchase(w, created, Step(created, PaymeCalls(P.Perform(Some(txn)))), n, months);
  }

  lemma TruncOfWhole(n: int)
    ensures P.Trunc(n as real) == n
  {
  }

  lemma StillUnknown(w: World, w': World, provider: Provider, txn: string)
    requires IsUnknown(w, provider, txn) && |Payments(w')| == |Payments(w)| + 1
    requires Payments(w') == Payments(w) + [Payments(w')[|Payments(w)|]] && Payments(w')[|Payments(w)|].txn.None?
    ensures IsUnknown(w', provider, txn)
  {
    forall id: PaymentId ensures !HoldsTxn(w', id, provider, txn) {
      assert !HoldsTxn(w, id, provider, txn);
    }
  }

  lemma SamePurchase(w: World, v: World, w': World, id: PaymentId, months: int)
    requires IsPurchased(v, w', id, months)
    requires v.ledger.clock == w.ledger.clock && v.ledger.books.paidUntil == w.ledger.books.paidUntil
    ensures IsPurchased(w, w', id, months)
  {
    hide Calendar.IsMonthsLater;
  }

  /** Paid through Click: checkout, a prepare at the price, a complete that quotes its id. */
  lemma ClickPurchase(w: World, plan: Plan, months: int, txn: string, minted: int)
    requires IsReachable(w) && 1 <= months <= 12 && IsUnknown(w, Click, txn)
    ensures var n := |Payments(w)|;
            var sum := (months * (if plan == Personal then 99_000 else 299_000)) as real;
            var ordered := Step(w, Open(plan, Click, months, true));
            var prepared := Step(ordered, ClickPrepares(C.Callback(txn, Some(n), None, Some(sum), 0, 0), minted));
            IsPurchased(w, Step(prepared, ClickCompletes(C.Callback(txn, Some(n), Some(minted), Some(sum), 1, 0))),
                        n, months)
  {
    hide Step, IsReachable, IsPurchased;
    var n := |Payments(w)|;
    var sum := Some((months * (if plan == Personal then 99_000 else 299_000)) as real);
    var ordered := Step(w, Open(plan, Click, months, true));
    CheckoutOpens(w, plan, Click, months, true);
    StepIsReachable(w, Open(plan, Click, months, true));
    var ask := C.Callback(txn, Some(n), None, sum, 0, 0);
    var pay := C.Callback(txn, Some(n), Some(minted), sum, 1, 0);
    StillUnknown(w, ordered, Click, txn);
    assert IsTheirs(ordered, n, txn);
    PrepareIff(ordered, ask, minted);
    var prepared := Step(ordered, ClickPrepares(ask, minted));
    StepIsReachable(ordered, ClickPrepares(ask, minted));
    CompleteIff(prepared, pay);
    ActivationPays(prepared, Step(prepared, ClickCompletes(pay)), n);
    SamePurchase(w, prepared, Step(prepared, ClickCompletes(pay)), n, months);
  }

  /** And refunded through Payme at once, the workspace is paid until the moment it would have been
      without the purchase, or until now. */
  lemma PaymeRefund(w: World, w': World, id: PaymentId, months: int, txn: string, reason: Option<int>)
    requires IsPurchased(w, w', id, months) && IsReachable(w') && HoldsTxn(w', id, Payme, txn)
    ensures var until := w.ledger.books.paidUntil;
            Step(w', PaymeCalls(P.CancelTxn(Some(txn), reason))).ledger.books.paidUntil ==
            Some(if until.Some? && until.value > w.ledger.clock then until.value else w.ledger.clock)
  {
    hide Step, IsReachable, Calendar.IsMonthsLater, Reply;
    CancelIsCarriedOut(w', id, txn, reason);
  }
}
