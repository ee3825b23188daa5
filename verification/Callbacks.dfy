/** Every sequence of purchases and provider callbacks, one callback at a time, with arbitrary
    repeats: what Payme and Click are told, and what they are granted
    (apps/api/src/modules/billing/payme.service.ts and click.service.ts). */
module Callbacks {
  import opened Wrappers
  import opened Billing
  import Calendar
  import Ledger
  import P = PaymeApi
  import C = ClickApi

  datatype Event =
    | Wait(to: int)
    | Open(plan: Plan, provider: Provider, months: int, isConfigured: bool)
    | PaymeCalls(call: P.Call)
    | ClickPrepares(body: C.Callback, minted: int)
    | ClickCompletes(body: C.Callback)

  /** `log` is every event so far. */
  datatype World = World(ledger: Ledger.State, log: seq<Event>)

  function Actions(s: Ledger.State, e: Event): seq<Ledger.Action> {
    match e
    case Wait(to) => [Ledger.Tick(to)]
    case Open(plan, provider, months, isConfigured) => [Ledger.Checkout(plan, provider, months, isConfigured)]
    case PaymeCalls(call) =>
      var action := P.Answer(s.books, s.clock, call).action;
      if action.Some? then [action.value] else []
    case ClickPrepares(body, minted) => C.OnPrepare(s.books, s.clock, body, minted).actions
    case ClickCompletes(body) => C.OnComplete(s.books, s.clock, body).actions
  }

  function Step(w: World, e: Event): World {
    World(Ledger.Run(w.ledger, Actions(w.ledger, e)), w.log + [e])
  }

  function Run(w: World, events: seq<Event>): World
    decreases events
  {
    if events == [] then w else Run(Step(w, events[0]), events[1..])
  }

  ghost predicate IsReachable(w: World) {
    exists start, events :: Ledger.IsStart(start) && w == Run(World(start, []), events)
  }

  function Payments(w: World): seq<Payment> {
    w.ledger.books.payments
  }

  // ----- how one payment moves

  /** Payme's states: created, performed, and the two ways of being cancelled. */
  predicate StateMoves(a: int, b: int) {
    a == b || (a == P.CREATED && b in {P.PERFORMED, P.CANCELLED_BEFORE_PERFORM})
    || (a == P.PERFORMED && b == P.CANCELLED_AFTER_PERFORM)
  }

  /** What never changes on a payment once it is there. */
  predicate Forward(p: Payment, p': Payment) {
    && p'.plan == p.plan && p'.provider == p.provider && p'.amountTiyin == p.amountTiyin && p'.months == p.months
    && (p.provider == Payme && p.txn.Some? ==> p'.txn == p.txn && p'.txnCreatedAt == p.txnCreatedAt)
    && (p.provider == Click && p.prepareId.Some? ==> p'.prepareId == p.prepareId)
    && (p.paidAt.Some? ==> p'.paidAt == p.paidAt)
    && (p.cancelledAt.Some? ==> p'.cancelledAt == p.cancelledAt && p'.cancelReason == p.cancelReason)
  }

  /** The ledger actions a callback performs: a Payme transaction is attached to a Payme payment
      that has none, a prepare id is issued to a Click payment that has none. */
  predicate IsOrderly(b: Books, a: Ledger.Action) {
    match a
    case AttachTxn(id, _, _) => id < |b.payments| && (b.payments[id].provider == Payme ==> b.payments[id].txn.None?)
    case AttachPrepareId(id, _) =>
      id < |b.payments| && b.payments[id].provider == Click && b.payments[id].prepareId.None?
    case _ => true
  }

  ghost predicate TxnsAreUnique(b: Books) {
    forall i, j :: 0 <= i < j < |b.payments| && b.payments[i].provider == b.payments[j].provider ==>
      b.payments[i].txn.None? || b.payments[i].txn != b.payments[j].txn
  }

  lemma ActionMoves(s: Ledger.State, a: Ledger.Action, id: PaymentId)
    requires Ledger.Inv(s) && id < |s.books.payments| && IsOrderly(s.books, a)
    ensures id < |Ledger.Step(s, a).books.payments|
    ensures var p, p' := s.books.payments[id], Ledger.Step(s, a).books.payments[id];
            Forward(p, p') && StateMoves(P.StateOf(p), P.StateOf(p'))
  {
    hide Ledger.PeriodsOk, Ledger.CoverOk, FindByTxn;
    assert Ledger.PaymentOk(s, id);
  }

  lemma ActionKeepsTxnsUnique(s: Ledger.State, a: Ledger.Action)
    requires TxnsAreUnique(s.books)
    ensures TxnsAreUnique(Ledger.Step(s, a).books)
  {
  }

  /** An event is one ledger action, or none, or the two of a first Prepare. */
  lemma EventActions(s: Ledger.State, e: Event)
    ensures |Actions(s, e)| <= 2
    ensures forall k :: 0 <= k < |Actions(s, e)| ==> IsOrderly(s.books, Actions(s, e)[k])
    ensures |Actions(s, e)| == 2 ==>
              e.ClickPrepares? && Actions(s, e)[0].AttachPrepareId? && Actions(s, e)[1].AttachTxn?
              && IsOrderly(Ledger.Step(s, Actions(s, e)[0]).books, Actions(s, e)[1])
  {
    hide FindByTxn, P.Entries;
  }

  lemma RunOfTwo(s: Ledger.State, actions: seq<Ledger.Action>)
    ensures |actions| == 0 ==> Ledger.Run(s, actions) == s
    ensures |actions| == 1 ==> Ledger.Run(s, actions) == Ledger.Step(s, actions[0])
    ensures |actions| == 2 ==> Ledger.Run(s, actions) == Ledger.Step(Ledger.Step(s, actions[0]), actions[1])
  {
    C.OneOrTwoSteps(s.books, actions);
  }

  // ----- each provider sees its own payments only

  predicate IsCallbackOf(e: Event, provider: Provider) {
    if provider == Payme then e.PaymeCalls? else e.ClickPrepares? || e.ClickCompletes?
  }

  /** The payment an action is about. */
  predicate IsAbout(b: Books, a: Ledger.Action, provider: Provider) {
    && (a.AttachTxn? || a.AttachPrepareId? || a.Activate? || a.Cancel?)
    && a.id < |b.payments| && b.payments[a.id].provider == provider
  }

  lemma CallbackActions(s: Ledger.State, e: Event, provider: Provider)
    requires IsCallbackOf(e, provider)
    ensures forall k :: 0 <= k < |Actions(s, e)| ==> IsAbout(s.books, Actions(s, e)[k], provider)
  {
    hide FindByTxn, P.Entries, P.Trunc;
  }

  lemma ActionLeavesOthers(s: Ledger.State, a: Ledger.Action, provider: Provider, id: PaymentId)
    requires IsAbout(s.books, a, provider) && id < |s.books.payments| && s.books.payments[id].provider != provider
    ensures id < |Ledger.Step(s, a).books.payments|
    ensures Ledger.Step(s, a).books.payments[id] == s.books.payments[id]
  {
    hide FindByTxn, Calendar.Shifted;
  }

  lemma ActionKeepsProviders(s: Ledger.State, a: Ledger.Action, other: Ledger.Action, provider: Provider)
    requires IsAbout(s.books, a, provider) && IsAbout(s.books, other, provider)
    ensures IsAbout(Ledger.Step(s, a).books, other, provider)
  {
    hide FindByTxn, Calendar.Shifted;
  }

  lemma CallbackLeavesOthers(w: World, e: Event, provider: Provider, id: PaymentId)
    requires IsCallbackOf(e, provider) && id < |Payments(w)| && Payments(w)[id].provider != provider
    ensures id < |Payments(Step(w, e))| && Payments(Step(w, e))[id] == Payments(w)[id]
  {
    hide Actions, Ledger.Step, IsAbout, IsCallbackOf, IsOrderly;
    var s, actions := w.ledger, Actions(w.ledger, e);
    CallbackActions(s, e, provider);
    EventActions(s, e);
    RunOfTwo(s, actions);
    if |actions| >= 1 {
      ActionLeavesOthers(s, actions[0], provider, id);
      if |actions| == 2 {
        ActionKeepsProviders(s, actions[0], actions[1], provider);
        ActionLeavesOthers(Ledger.Step(s, actions[0]), actions[1], provider, id);
      }
    }
  }

  /** Whatever one provider calls back, with whatever ids and however often, nothing on a payment
      of the other one ever changes. */
  lemma {:induction false} ProvidersKeepApart(w: World, events: seq<Event>, provider: Provider, id: PaymentId)
    requires forall k :: 0 <= k < |events| ==> IsCallbackOf(events[k], provider)
    requires id < |Payments(w)| && Payments(w)[id].provider != provider
    ensures id < |Payments(Run(w, events))| && Payments(Run(w, events))[id] == Payments(w)[id]
    decreases events
  {
    hide Step, IsCallbackOf;
    if events != [] {
      CallbackLeavesOthers(w, events[0], provider, id);
      ProvidersKeepApart(Step(w, events[0]), events[1..], provider, id);
    }
  }

  // ----- the paper behind a payment

  /** An earlier event that justifies what the payment carries. */
  predicate IsPaper(e: Event, id: PaymentId, p: Payment) {
    match e
    case PaymeCalls(Create(txn, time, account, amount)) =>
      && p.provider == Payme && account == Some(id) && txn.Some? && txn == p.txn
      && P.QuotesThePrice(p, amount) && time.Some? && p.txnCreatedAt.Some? && P.TimeClip(time.value) == p.txnCreatedAt
    case ClickPrepares(body, minted) =>
      && p.provider == Click && body.order == Some(id) && body.action == C.PREPARE
      && C.AmountMatches(body.amount, p.amountTiyin) && p.prepareId == Some(minted)
    case _ => false
  }

  ghost predicate HasPaper(w: World, id: PaymentId)
    requires id < |Payments(w)|
  {
    exists k :: 0 <= k < |w.log| && IsPaper(w.log[k], id, Payments(w)[id])
  }

  ghost predicate PaperOk(w: World, id: PaymentId)
    requires id < |Payments(w)|
  {
    var p := Payments(w)[id];
    (if p.provider == Payme then p.txn.Some? else p.prepareId.Some?) ==> HasPaper(w, id)
  }

  ghost predicate Inv(w: World) {
    && Ledger.Inv(w.ledger)
    && TxnsAreUnique(w.ledger.books)
    && (forall i :: 0 <= i < |Payments(w)| ==> PaperOk(w, i))
  }

  lemma PaperStays(w: World, w': World, id: PaymentId)
    requires id < |Payments(w)| && id < |Payments(w')| && HasPaper(w, id) && w.log <= w'.log
    requires Forward(Payments(w)[id], Payments(w')[id])
    ensures HasPaper(w', id)
  {
    var k :| 0 <= k < |w.log| && IsPaper(w.log[k], id, Payments(w)[id]);
    assert IsPaper(w'.log[k], id, Payments(w')[id]);
  }

  lemma StepMoves(w: World, e: Event, id: PaymentId)
    requires Inv(w) && id < |Payments(w)|
    ensures id < |Payments(Step(w, e))|
    ensures var p, p' := Payments(w)[id], Payments(Step(w, e))[id];
            Forward(p, p') && StateMoves(P.StateOf(p), P.StateOf(p'))
  {
    hide Ledger.Inv, Ledger.Step, Actions, IsOrderly, PaperOk, TxnsAreUnique;
    var s, actions := w.ledger, Actions(w.ledger, e);
    EventActions(s, e);
    RunOfTwo(s, actions);
    if |actions| >= 1 {
      ActionMoves(s, actions[0], id);
      if |actions| == 2 {
        Ledger.StepKeepsInv(s, actions[0]);
        ActionMoves(Ledger.Step(s, actions[0]), actions[1], id);
        PrepareKeepsState(s, actions[0], id);
      }
    }
  }

  lemma PrepareKeepsState(s: Ledger.State, a: Ledger.Action, id: PaymentId)
    requires a.AttachPrepareId? && id < |s.books.payments|
    ensures id < |Ledger.Step(s, a).books.payments|
    ensures P.StateOf(Ledger.Step(s, a).books.payments[id]) == P.StateOf(s.books.payments[id])
  {
  }

  // What new paper an event leaves behind.

  lemma NewTxnPaper(w: World, e: Event, id: PaymentId)
    requires id < |Payments(w)| && id < |Payments(Step(w, e))| && Payments(w)[id].provider == Payme
    requires Payments(w)[id].txn.None? && Payments(Step(w, e))[id].txn.Some?
    ensures IsPaper(e, id, Payments(Step(w, e))[id])
  {
    hide P.Trunc, P.Entries, FindByTxn, Calendar.Shifted;
    EventActions(w.ledger, e);
    RunOfTwo(w.ledger, Actions(w.ledger, e));
  }

  lemma NewPrepareIdPaper(w: World, e: Event, id: PaymentId)
    requires id < |Payments(w)| && id < |Payments(Step(w, e))| && Payments(w)[id].provider == Click
    requires Payments(w)[id].prepareId.None? && Payments(Step(w, e))[id].prepareId.Some?
    ensures IsPaper(e, id, Payments(Step(w, e))[id])
  {
    hide P.Trunc, P.Entries, FindByTxn, Calendar.Shifted;
    EventActions(w.ledger, e);
    RunOfTwo(w.ledger, Actions(w.ledger, e));
  }

  lemma NewPaymentHasNone(w: World, e: Event, id: PaymentId)
    requires |Payments(w)| <= id < |Payments(Step(w, e))|
    ensures Payments(Step(w, e))[id].txn.None? && Payments(Step(w, e))[id].prepareId.None?
  {
    hide P.Trunc, P.Entries, FindByTxn, Calendar.Shifted;
    EventActions(w.ledger, e);
    RunOfTwo(w.ledger, Actions(w.ledger, e));
  }

  lemma StepKeepsPaper(w: World, e: Event, id: PaymentId)
    requires Inv(w) && id < |Payments(Step(w, e))|
    ensures PaperOk(Step(w, e), id)
  {
    hide Ledger.Inv, TxnsAreUnique, IsPaper, Actions, Ledger.Run;
    var w' := Step(w, e);
    if id < |Payments(w)| {
      assert PaperOk(w, id);
      StepMoves(w, e, id);
      if HasPaper(w, id) {
        PaperStays(w, w', id);
      } else {
        var p, p' := Payments(w)[id], Payments(w')[id];
        if p.provider == Payme && p'.txn.Some? {
          NewTxnPaper(w, e, id);
        } else if p.provider == Click && p'.prepareId.Some? {
          NewPrepareIdPaper(w, e, id);
        }
        assert w'.log[|w.log|] == e;
      }
    } else {
      NewPaymentHasNone(w, e, id);
    }
  }

  lemma StepKeepsInv(w: World, e: Event)
    requires Inv(w)
    ensures Inv(Step(w, e))
  {
    hide Ledger.Inv, Ledger.Step, TxnsAreUnique, PaperOk, Actions, IsOrderly;
    var s, actions := w.ledger, Actions(w.ledger, e);
    EventActions(s, e);
    RunOfTwo(s, actions);
    Ledger.RunKeepsInv(s, actions);
    if |actions| >= 1 {
      ActionKeepsTxnsUnique(s, actions[0]);
      if |actions| == 2 {
        ActionKeepsTxnsUnique(Ledger.Step(s, actions[0]), actions[1]);
      }
    }
    forall i | 0 <= i < |Payments(Step(w, e))| ensures PaperOk(Step(w, e), i) {
      StepKeepsPaper(w, e, i);
    }
  }

  lemma {:induction false} RunKeepsInv(w: World, events: seq<Event>)
    requires Inv(w)
    ensures Inv(Run(w, events))
    decreases events
  {
    hide Step, Inv;
    if events != [] {
      StepKeepsInv(w, events[0]);
      RunKeepsInv(Step(w, events[0]), events[1..]);
    }
  }

  lemma ReachableIsOk(w: World)
    requires IsReachable(w)
    ensures Inv(w)
  {
    hide Run;
    var start, events :| Ledger.IsStart(start) && w == Run(World(start, []), events);
    RunKeepsInv(World(start, []), events);
  }

  // ----- what the providers can rely on

  predicate StateReaches(a: int, b: int) {
    StateMoves(a, b) || (a == P.CREATED && b == P.CANCELLED_AFTER_PERFORM)
  }

  /** The reported state only moves from 1 to 2 to -2, or from 1 to -1; and a creation, perform
      or cancel time, once there, never changes. */
  lemma {:induction false} PaymentsMoveForward(w: World, events: seq<Event>, id: PaymentId)
    requires Inv(w) && id < |Payments(w)|
    ensures id < |Payments(Run(w, events))|
    ensures var p, p' := Payments(w)[id], Payments(Run(w, events))[id];
            Forward(p, p') && StateReaches(P.StateOf(p), P.StateOf(p'))
    decreases events
  {
    hide Step, Inv, P.StateOf;
    if events != [] {
      StepMoves(w, events[0], id);
      StepKeepsInv(w, events[0]);
      PaymentsMoveForward(Step(w, events[0]), events[1..], id);
    }
  }

  function Check(w: World, txn: string): Result<P.Reply, P.PaymeError> {
    P.Answer(w.ledger.books, w.ledger.clock, P.CheckTxn(Some(txn))).reply
  }

  function Reply(w: World, call: P.Call): Result<P.Reply, P.PaymeError> {
    P.Answer(w.ledger.books, w.ledger.clock, call).reply
  }

  /** A transaction is found again for as long as it exists, and means the same payment. */
  lemma TxnNamesItsPayment(w: World, id: PaymentId, txn: string)
    requires Inv(w) && id < |Payments(w)| && Payments(w)[id].provider == Payme && Payments(w)[id].txn == Some(txn)
    ensures P.ByTxn(w.ledger.books, Some(txn)) == Ok(id)
  {
    hide Ledger.Inv, PaperOk, TxnsAreUnique;
    var found := FindByTxn(w.ledger.books, Payme, txn, 0);
    assert found.Some?;
    OneHolder(w.ledger.books, found.value, id);
  }

  lemma OneHolder(b: Books, i: PaymentId, j: PaymentId)
    requires TxnsAreUnique(b) && i < |b.payments| && j < |b.payments|
    requires b.payments[i].provider == b.payments[j].provider
    requires b.payments[i].txn.Some? && b.payments[i].txn == b.payments[j].txn
    ensures i == j
  {
  }

  lemma CheckOf(w: World, id: PaymentId, txn: string)
    requires Inv(w) && id < |Payments(w)| && Payments(w)[id].provider == Payme && Payments(w)[id].txn == Some(txn)
    ensures var p := Payments(w)[id];
            Check(w, txn) == Ok(P.CheckReply(P.OrZero(p.txnCreatedAt), P.OrZero(p.paidAt), P.OrZero(p.cancelledAt),
                                             id, P.StateOf(p), p.cancelReason))
  {
    hide Inv;
    TxnNamesItsPayment(w, id, txn);
  }

  /** What a call answered about a payment, seen from the state right after it. */
  lemma PerformedPayment(w: World, txn: string)
    requires Inv(w) && Reply(w, P.Perform(Some(txn))).Ok?
    ensures var reply, w' := Reply(w, P.Perform(Some(txn))).value, Step(w, PaymeCalls(P.Perform(Some(txn))));
            && reply.PerformReply? && reply.state == P.PERFORMED
            && reply.transaction < |Payments(w')|
            && var p := Payments(w')[reply.transaction];
            && p.provider == Payme && p.txn == Some(txn) && p.paidAt == Some(reply.performTime)
            && P.StateOf(p) == P.PERFORMED
  {
    hide FindByTxn, Ledger.PeriodsOk, Ledger.CoverOk, PaperOk, TxnsAreUnique;
    RunOfTwo(w.ledger, Actions(w.ledger, PaymeCalls(P.Perform(Some(txn)))));
    var found := P.ByTxn(w.ledger.books, Some(txn));
    assert Ledger.PaymentOk(w.ledger, found.value);
  }

  /** A perform reply is for good: every later check names the same payment and the same perform
      time, and says performed until the payment is cancelled, which it then calls -2. */
  lemma PerformReplyLasts(w: World, events: seq<Event>, txn: string)
    requires IsReachable(w) && Reply(w, P.Perform(Some(txn))).Ok?
    ensures Reply(w, P.Perform(Some(txn))).value.PerformReply?
    ensures var reply := Reply(w, P.Perform(Some(txn))).value;
            var check := Check(Run(Step(w, PaymeCalls(P.Perform(Some(txn)))), events), txn);
            && check.Ok? && check.value.CheckReply?
            && check.value.transaction == reply.transaction && check.value.performed == reply.performTime
            && check.value.state in {reply.state, P.CANCELLED_AFTER_PERFORM}
  {
    hide IsReachable, Run, Step, Inv, Reply, Check, P.StateOf;
    ReachableIsOk(w);
    var call := PaymeCalls(P.Perform(Some(txn)));
    PerformedPayment(w, txn);
    StepKeepsInv(w, call);
    var id := Reply(w, P.Perform(Some(txn))).value.transaction;
    PaymentsMoveForward(Step(w, call), events, id);
    RunKeepsInv(Step(w, call), events);
    CheckOf(Run(Step(w, call), events), id, txn);
  }

  lemma CancelledPayment(w: World, txn: string, reason: Option<int>)
    requires Inv(w) && Reply(w, P.CancelTxn(Some(txn), reason)).Ok?
    ensures var reply, w' := Reply(w, P.CancelTxn(Some(txn), reason)).value,
                             Step(w, PaymeCalls(P.CancelTxn(Some(txn), reason)));
            && reply.CancelReply? && reply.state in {P.CANCELLED_BEFORE_PERFORM, P.CANCELLED_AFTER_PERFORM}
            && reply.transaction < |Payments(w')|
            && var p := Payments(w')[reply.transaction];
            && p.provider == Payme && p.txn == Some(txn) && p.cancelledAt == Some(reply.cancelTime)
            && P.StateOf(p) == reply.state && reply.transaction < |Payments(w)|
            && (Payments(w)[reply.transaction].status != Cancelled ==> p.cancelReason == reason)
  {
    hide FindByTxn, Ledger.PeriodsOk, Ledger.CoverOk, PaperOk, TxnsAreUnique;
    RunOfTwo(w.ledger, Actions(w.ledger, PaymeCalls(P.CancelTxn(Some(txn), reason))));
    var found := P.ByTxn(w.ledger.books, Some(txn));
    assert Ledger.PaymentOk(w.ledger, found.value);
  }

  /** A cancel reply is the last word: every later check repeats it, and the reason of whoever
      cancelled. */
  lemma CancelReplyLasts(w: World, events: seq<Event>, txn: string, reason: Option<int>)
    requires IsReachable(w) && Reply(w, P.CancelTxn(Some(txn), reason)).Ok?
    ensures Reply(w, P.CancelTxn(Some(txn), reason)).value.CancelReply?
    ensures var reply := Reply(w, P.CancelTxn(Some(txn), reason)).value;
            var check := Check(Run(Step(w, PaymeCalls(P.CancelTxn(Some(txn), reason))), events), txn);
            && check.Ok? && check.value.CheckReply?
            && check.value.transaction == reply.transaction && check.value.cancelled == reply.cancelTime
            && check.value.state == reply.state && reply.transaction < |Payments(w)|
            && (Payments(w)[reply.transaction].status != Cancelled ==> check.value.reason == reason)
  {
    hide IsReachable, Run, Step, Inv, Reply, Check, P.StateOf;
    ReachableIsOk(w);
    var call := PaymeCalls(P.CancelTxn(Some(txn), reason));
    CancelledPayment(w, txn, reason);
    StepKeepsInv(w, call);
    var id := Reply(w, P.CancelTxn(Some(txn), reason)).value.transaction;
    PaymentsMoveForward(Step(w, call), events, id);
    RunKeepsInv(Step(w, call), events);
    CheckOf(Run(Step(w, call), events), id, txn);
  }

  lemma CreatedPayment(w: World, call: P.Call)
    requires Inv(w) && call.Create? && Reply(w, call).Ok?
    ensures var reply, w' := Reply(w, call).value, Step(w, PaymeCalls(call));
            && reply.CreateReply? && reply.state == P.CREATED && call.id.Some?
            && reply.transaction < |Payments(w')|
            && var p := Payments(w')[reply.transaction];
            && p.provider == Payme && p.txn == call.id && p.txnCreatedAt == Some(P.Trunc(reply.createTime))
  {
    hide FindByTxn, Ledger.Inv, PaperOk, TxnsAreUnique;
    RunOfTwo(w.ledger, Actions(w.ledger, PaymeCalls(call)));
  }

  /** A create reply always says created; the very next check says the same exactly when the
      payment is still waiting to be paid. Its create time agrees with every later check exactly
      when the time Payme sent was a whole number of milliseconds: the reply echoes it, the row
      keeps its whole part. */
  lemma CreateReplyAgrees(w: World, events: seq<Event>, call: P.Call)
    requires IsReachable(w) && call.Create? && Reply(w, call).Ok?
    ensures Reply(w, call).value.CreateReply? && call.id.Some?
    ensures var reply, w' := Reply(w, call).value, Step(w, PaymeCalls(call));
            && reply.transaction < |Payments(w')|
            && var next, later := Check(w', call.id.value), Check(Run(w', events), call.id.value);
            && next.Ok? && next.value.CheckReply? && later.Ok? && later.value.CheckReply?
            && next.value.transaction == reply.transaction == later.value.transaction
            && (next.value.state == reply.state <==> Payments(w')[reply.transaction].status == Pending)
            && (later.value.created as real == reply.createTime
                <==> reply.createTime == P.Trunc(reply.createTime) as real)
  {
    hide IsReachable, Run, Step, Inv, Reply, Check, P.Trunc;
    ReachableIsOk(w);
    var e := PaymeCalls(call);
    CreatedPayment(w, call);
    StepKeepsInv(w, e);
    var id := Reply(w, call).value.transaction;
    CheckOf(Step(w, e), id, call.id.value);
    PaymentsMoveForward(Step(w, e), events, id);
    RunKeepsInv(Step(w, e), events);
    CheckOf(Run(Step(w, e), events), id, call.id.value);
  }

  lemma {:induction false} EntriesMeaning(payments: seq<Payment>, from: int, to: int)
    ensures forall e :: e in P.Entries(payments, from, to) <==>
              exists i: PaymentId ::
                i < |payments| && P.IsInWindow(payments[i], from, to) && e == P.EntryOf(payments[i], i)
  {
    hide P.EntryOf;
    if payments != [] {
      var n := |payments| - 1;
      var init := payments[..n];
      EntriesMeaning(init, from, to);
      assert forall i: PaymentId :: i < n ==> init[i] == payments[i];
      forall e | e in P.Entries(payments, from, to)
        ensures exists i: PaymentId ::
                  i < |payments| && P.IsInWindow(payments[i], from, to) && e == P.EntryOf(payments[i], i)
      {
        if e in P.Entries(init, from, to) {
          var i: PaymentId :| i < |init| && P.IsInWindow(init[i], from, to) && e == P.EntryOf(init[i], i);
          assert P.IsInWindow(payments[i], from, to) && e == P.EntryOf(payments[i], i);
        } else {
          assert P.IsInWindow(payments[n], from, to) && e == P.EntryOf(payments[n], n);
        }
      }
      forall i: PaymentId | i < |payments| && P.IsInWindow(payments[i], from, to)
        ensures P.EntryOf(payments[i], i) in P.Entries(payments, from, to)
      {
        if i < n {
          assert P.IsInWindow(init[i], from, to) && P.EntryOf(init[i], i) in P.Entries(init, from, to);
        }
      }
    }
  }

  /** A transaction of Payme's, created in the window, its ends included. */
  predicate IsListed(p: Payment, from: int, to: int) {
    p.provider == Payme && p.txn.Some? && p.txnCreatedAt.Some? && from <= p.txnCreatedAt.value <= to
  }

  /** The statement lists exactly the Payme transactions created in its window, and says of each
      what a check of it says. */
  lemma StatementAgreesWithChecks(w: World, from: int, to: int)
    requires IsReachable(w)
    ensures forall e :: e in P.Entries(Payments(w), from, to) ==>
              Check(w, e.txn) ==
              Ok(P.CheckReply(e.createTime, e.performTime, e.cancelTime, e.transaction, e.state, e.reason))
    ensures forall i: PaymentId :: i < |Payments(w)| && IsListed(Payments(w)[i], from, to) ==>
              exists e :: e in P.Entries(Payments(w), from, to) && e.transaction == i
    ensures forall e :: e in P.Entries(Payments(w), from, to) ==>
              && e.transaction < |Payments(w)| && IsListed(Payments(w)[e.transaction], from, to)
              && var p := Payments(w)[e.transaction];
              p.txn == Some(e.txn) && e.amount == p.amountTiyin && p.txnCreatedAt == Some(e.time)
  {
    hide IsReachable, Inv, Check, P.StateOf;
    ReachableIsOk(w);
    EntriesMeaning(Payments(w), from, to);
    forall e | e in P.Entries(Payments(w), from, to)
      ensures Check(w, e.txn) ==
              Ok(P.CheckReply(e.createTime, e.performTime, e.cancelTime, e.transaction, e.state, e.reason))
    {
      var i: PaymentId :|
        i < |Payments(w)| && P.IsInWindow(Payments(w)[i], from, to) && e == P.EntryOf(Payments(w)[i], i);
      CheckOf(w, i, e.txn);
    }
    forall i: PaymentId | i < |Payments(w)| && IsListed(Payments(w)[i], from, to)
      ensures exists e :: e in P.Entries(Payments(w), from, to) && e.transaction == i
    {
      var e := P.EntryOf(Payments(w)[i], i);
      assert e in P.Entries(Payments(w), from, to) && e.transaction == i;
    }
  }

  // ----- what gets granted

  /** The event asks for this payment, in its provider's own way, and in time. */
  predicate AsksFor(w: World, e: Event, id: PaymentId)
    requires id < |Payments(w)|
  {
    var p := Payments(w)[id];
    match e
    case PaymeCalls(Perform(txn)) =>
      && p.provider == Payme && txn.Some? && txn == p.txn
      && (p.txnCreatedAt.Some? ==> w.ledger.clock - p.txnCreatedAt.value <= P.PAYME_TRANSACTION_TIMEOUT_MS)
    case ClickCompletes(body) =>
      && p.provider == Click && body.order == Some(id) && p.prepareId.Some? && body.quoted == p.prepareId
      && body.error >= 0 && C.AmountMatches(body.amount, p.amountTiyin)
    case _ => false
  }

  lemma GrantingEvent(w: World, e: Event)
    ensures var grants, grants' := w.ledger.grants, Step(w, e).ledger.grants;
            grants' == grants
            || (|grants'| == |grants| + 1 && grants' == grants + [grants'[|grants|]]
                && grants'[|grants|] < |Payments(w)| && Payments(w)[grants'[|grants|]].status == Pending
                && AsksFor(w, e, grants'[|grants|]))
  {
    hide FindByTxn, P.Entries, P.Trunc, Activated, CancelledBooks, WithTxn, WithPrepareId, Opened;
    EventActions(w.ledger, e);
    RunOfTwo(w.ledger, Actions(w.ledger, e));
  }

  /** A period is granted only on paper: by a Perform within twelve hours of a Create that quoted
      this order's exact price, or by a Complete that quotes the id which an earlier Prepare for
      this order, at the right price, was issued. */
  lemma GrantsHavePaper(w: World, e: Event)
    requires IsReachable(w) && Step(w, e).ledger.grants != w.ledger.grants
    ensures |Step(w, e).ledger.grants| == |w.ledger.grants| + 1
    ensures var id := Step(w, e).ledger.grants[|w.ledger.grants|];
            && Step(w, e).ledger.grants == w.ledger.grants + [id]
            && id !in w.ledger.grants
            && id < |Payments(w)| && AsksFor(w, e, id)
            && exists k :: 0 <= k < |w.log| && IsPaper(w.log[k], id, Payments(w)[id])
  {
    hide IsReachable, Step, IsPaper, Ledger.PeriodsOk, Ledger.CoverOk, TxnsAreUnique;
    ReachableIsOk(w);
    GrantingEvent(w, e);
    var id := Step(w, e).ledger.grants[|w.ledger.grants|];
    assert Ledger.PaymentOk(w.ledger, id) && PaperOk(w, id);
  }
}
