/**
 * `controllers/StripeWebhookController.java`: the webhook endpoint. Event
 * construction (signature check and parsing) is an oracle; the controller
 * classifies its outcome, dispatches on the event type, and keeps no record
 * of the events it has processed.
 */
module Webhook {
  import opened Common
  import opened Stripe
  import opened Connect
  import opened CommissionPayments
  import opened Commissions

  /** The deserialised `data.object` of an event, by its runtime class. */
  datatype StripeObject =
    | SessionObject(id: string)
    | AccountObject(id: string)
    | PaymentIntentObject(id: string)
    | OtherObject

  /** An `Event`: its type string and its data object, absent when deserialisation gave nothing. */
  datatype Event = Event(eventType: string, dataObject: Option<StripeObject>)

  /** The outcome of `Webhook.constructEvent`. */
  datatype Construction =
    | Verified(event: Event)
    | InvalidSignature     // SignatureVerificationException
    | Unparseable          // any other exception

  /** The service call an event leads to. */
  datatype Dispatch = ConfirmCheckout(sessionId: string) | SyncAccount(accountId: string) | NoAction

  const CHECKOUT_COMPLETED: string := "checkout.session.completed"
  const PAYMENT_INTENT_SUCCEEDED: string := "payment_intent.succeeded"
  const ACCOUNT_UPDATED: string := "account.updated"

  /**
   * `handleEvent`: a completed Checkout session is confirmed, an updated
   * account is synced; every other event type, a succeeded PaymentIntent,
   * and an object of an unexpected class lead to no call.
   */
  function DispatchOf(e: Event): (d: Dispatch)
    ensures d.ConfirmCheckout? <==> e.eventType == CHECKOUT_COMPLETED && e.dataObject.Some? && e.dataObject.value.SessionObject?
    ensures d.ConfirmCheckout? ==> d.sessionId == e.dataObject.value.id
    ensures d.SyncAccount? <==> e.eventType == ACCOUNT_UPDATED && e.dataObject.Some? && e.dataObject.value.AccountObject?
    ensures d.SyncAccount? ==> d.accountId == e.dataObject.value.id
  {
    if e.eventType == CHECKOUT_COMPLETED then
      match e.dataObject
      case Some(SessionObject(id)) => ConfirmCheckout(id)
      case _ => NoAction
    else if e.eventType == PAYMENT_INTENT_SUCCEEDED then
      NoAction
    else if e.eventType == ACCOUNT_UPDATED then
      match e.dataObject
      case Some(AccountObject(id)) => SyncAccount(id)
      case _ => NoAction
    else
      NoAction
  }

  /**
   * The HTTP status: 400 when the event could not be constructed, 500 when
   * the handler threw, 200 otherwise.
   */
  function ResponseStatus(c: Construction, handlerThrew: bool): (status: int)
    ensures status == 400 <==> !c.Verified?
    ensures status == 500 <==> c.Verified? && handlerThrew
    ensures status == 200 <==> c.Verified? && !handlerThrew
  {
    if !c.Verified? then 400 else if handlerThrew then 500 else 200
  }

  /** Only the checkout handler rethrows; the account handler swallows every exception. */
  function HandlerThrew(d: Dispatch, confirmed: Result<()>): bool {
    d.ConfirmCheckout? && confirmed.Err?
  }

  /**
   * After a confirmation the record still holds its session id and no other
   * record gained it, so the lookup of a redelivered event finds it again.
   */
  lemma ConfirmKeepsLookup(rows: map<Uuid, CommissionPayment>, sessionId: string, k: Uuid, q: CommissionPayment)
    requires FindOne(rows, (p: CommissionPayment) => p.stripeCheckoutSessionId == Some(sessionId)).Found?
    requires k in rows && rows[k].stripeCheckoutSessionId == Some(sessionId)
    requires q.stripeCheckoutSessionId == Some(sessionId)
    ensures FindOne(rows[k := q], (p: CommissionPayment) => p.stripeCheckoutSessionId == Some(sessionId)) == Found(q)
  {
    var matches := (p: CommissionPayment) => p.stripeCheckoutSessionId == Some(sessionId);
    var rows' := rows[k := q];
    var j :| j in rows && rows[j] == FindOne(rows, matches).value && matches(rows[j]) &&
      forall i :: i in rows && matches(rows[i]) ==> i == j;
    assert j == k;
    assert rows'[k] == q;
    assert forall i :: i in rows' && i != k ==> rows'[i] == rows[i];
    var r := FindOne(rows', matches);
    assert !r.Absent?;
    assert !r.NonUnique?;
    var m :| m in rows' && rows'[m] == r.value && matches(r.value) &&
      forall i :: i in rows' && matches(rows'[i]) ==> i == m;
    assert m == k;
  }

  /** Confirming a COMPLETED record again writes nothing new. */
  lemma ConfirmIdempotentOnRecord(rows: map<Uuid, CommissionPayment>, k: Uuid, now: Instant)
    requires k in rows && rows[k].id == Some(k) && rows[k].status.Completed?
    ensures Prepared(Confirmed(rows[k]), rows, k, now) == rows[k]
  {
  }

  class StripeWebhookController {
    const paymentService: PaymentService
    const stripeConnectService: StripeConnectService

    ghost predicate Valid()
      reads this, paymentService, paymentService.repository, paymentService.connect,
            paymentService.connect.repository, stripeConnectService, stripeConnectService.repository
    {
      paymentService.Valid() && stripeConnectService.Valid()
    }

    constructor (paymentService: PaymentService, stripeConnectService: StripeConnectService)
      requires paymentService.Valid() && stripeConnectService.Valid()
      ensures Valid() && this.paymentService == paymentService && this.stripeConnectService == stripeConnectService
    {
      this.paymentService := paymentService;
      this.stripeConnectService := stripeConnectService;
    }

    /**
     * `handleStripeWebhook`. The oracles are the construction outcome and,
     * for an account event, the gateway's answer to the account read.
     */
    method HandleStripeWebhook(c: Construction, retrieved: Reply<GatewayAccount>, now: Instant)
      returns (status: int)
      requires Valid()
      modifies paymentService.repository, paymentService.bus, stripeConnectService.repository, stripeConnectService.stripe
      ensures Valid()
      ensures !c.Verified? ==>
        && status == 400
        && paymentService.repository.rows == old(paymentService.repository.rows)
        && paymentService.bus.messages == old(paymentService.bus.messages)
        && stripeConnectService.repository.rows == old(stripeConnectService.repository.rows)
        && stripeConnectService.stripe.requests == old(stripeConnectService.stripe.requests)
      ensures c.Verified? ==> match DispatchOf(c.event)
        case ConfirmCheckout(id) =>
          && stripeConnectService.repository.rows == old(stripeConnectService.repository.rows)
          && stripeConnectService.stripe.requests == old(stripeConnectService.stripe.requests)
          && (match old(paymentService.repository.FindByStripeCheckoutSessionId(id))
              case Found(p) =>
                var q := Prepared(Confirmed(p), old(paymentService.repository.rows), p.id.value, now);
                if MessageBuildable(q) then
                  && status == 200
                  && paymentService.repository.rows == old(paymentService.repository.rows)[p.id.value := q]
                  && paymentService.bus.messages == old(paymentService.bus.messages) + [PaymentCompleted(q), AppointmentConfirmed(q)]
                else
                  && status == 500
                  && paymentService.repository.rows == old(paymentService.repository.rows)
                  && paymentService.bus.messages == old(paymentService.bus.messages)
              case _ =>
                && status == 500
                && paymentService.repository.rows == old(paymentService.repository.rows)
                && paymentService.bus.messages == old(paymentService.bus.messages))
        case SyncAccount(id) =>
          && status == 200
          && paymentService.repository.rows == old(paymentService.repository.rows)
          && paymentService.bus.messages == old(paymentService.bus.messages)
          && stripeConnectService.stripe.requests == old(stripeConnectService.stripe.requests) + [RetrieveAccount(id)]
          && (retrieved.Failed? || old(stripeConnectService.repository.FindByStripeAccountId(id)).None? ==>
                stripeConnectService.repository.rows == old(stripeConnectService.repository.rows))
          && (retrieved.Replied? && old(stripeConnectService.repository.FindByStripeAccountId(id)).Some? ==>
                var a := old(stripeConnectService.repository.FindByStripeAccountId(id)).value;
                stripeConnectService.repository.rows ==
                  old(stripeConnectService.repository.rows)[a.id.value := Synced(a, retrieved.value, now)])
        case NoAction =>
          && status == 200
          && paymentService.repository.rows == old(paymentService.repository.rows)
          && paymentService.bus.messages == old(paymentService.bus.messages)
          && stripeConnectService.repository.rows == old(stripeConnectService.repository.rows)
          && stripeConnectService.stripe.requests == old(stripeConnectService.stripe.requests)
    {
      if !c.Verified? {
        return ResponseStatus(c, false);
      }
      var confirmed: Result<()> := Ok(());
      var d := DispatchOf(c.event);
      match d {
        case ConfirmCheckout(id) =>
          confirmed := paymentService.ConfirmPayment(id, now);
        case SyncAccount(id) =>
          var synced := stripeConnectService.UpdateAccountStatus(id, retrieved, now);
        case NoAction =>
      }
      status := ResponseStatus(c, HandlerThrew(d, confirmed));
    }

    /**
     * A redelivered checkout event runs its handler again: with no ledger of
     * processed events, the second delivery saves the record again and
     * publishes the same two messages a second time. A record whose messages
     * cannot be built is refused on every delivery, and nothing is changed.
     */
    method DeliverTwice(c: Construction, now: Instant) returns (first: int, second: int)
      requires Valid()
      requires c.Verified? && DispatchOf(c.event).ConfirmCheckout?
      requires paymentService.repository.FindByStripeCheckoutSessionId(DispatchOf(c.event).sessionId).Found?
      modifies paymentService.repository, paymentService.bus, stripeConnectService.repository, stripeConnectService.stripe
      ensures var p := old(paymentService.repository.FindByStripeCheckoutSessionId(DispatchOf(c.event).sessionId)).value;
        var q := Prepared(Confirmed(p), old(paymentService.repository.rows), p.id.value, now);
        if MessageBuildable(q) then
          && first == 200 && second == 200
          && paymentService.repository.rows == old(paymentService.repository.rows)[p.id.value := q]
          && paymentService.bus.messages == old(paymentService.bus.messages) +
               [PaymentCompleted(q), AppointmentConfirmed(q), PaymentCompleted(q), AppointmentConfirmed(q)]
        else
          && first == 500 && second == 500
          && paymentService.repository.rows == old(paymentService.repository.rows)
          && paymentService.bus.messages == old(paymentService.bus.messages)
    {
      var id := DispatchOf(c.event).sessionId;
      ghost var rows0 := paymentService.repository.rows;
      ghost var p := paymentService.repository.FindByStripeCheckoutSessionId(id).value;
      ghost var k :| k in rows0 && rows0[k] == p;
      assert p.id == Some(k);
      ghost var q := Prepared(Confirmed(p), rows0, k, now);
      first := HandleStripeWebhook(c, Failed, now);
      if MessageBuildable(q) {
        ConfirmKeepsLookup(rows0, id, k, q);
        assert paymentService.repository.FindByStripeCheckoutSessionId(id) == Found(q);
        ConfirmIdempotentOnRecord(paymentService.repository.rows, k, now);
      }
      second := HandleStripeWebhook(c, Failed, now);
    }
  }
}
