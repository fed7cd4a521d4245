/**
 * `services/PaymentService.java`: the Connect checkout with a platform
 * commission computed in decimal arithmetic, its confirmation from the
 * webhook, and the refund-eligibility test.
 */
module Commissions {
  import opened Common
  import opened Status
  import opened Stripe
  import opened Decimals
  import opened Connect
  import opened CommissionPayments

  /** `CreatePaymentRequest`. */
  datatype CreatePaymentRequest = CreatePaymentRequest(
    shopId: Uuid,
    amount: Decimal,
    commissionRate: Decimal,
    description: Option<string>,
    successUrl: Option<string>,
    cancelUrl: Option<string>)
  {
    /** The bean-validation constraints: amount and commission rate are positive. */
    predicate Valid() { amount.unscaled > 0 && commissionRate.unscaled > 0 }
  }

  /** `PaymentResponse`. */
  datatype PaymentResponse = PaymentResponse(
    paymentId: Uuid, checkoutUrl: Option<string>, stripeCheckoutSessionId: string, status: string, message: string)

  /**
   * The messages `RabbitMQService.publishPaymentCompleted` sends, in order:
   * PAYMENT_COMPLETED on the payment exchange, then APPOINTMENT_CONFIRMED on
   * the appointment exchange, each carrying fields of the saved record.
   */
  datatype CommissionEvent = PaymentCompleted(payment: CommissionPayment) | AppointmentConfirmed(payment: CommissionPayment)

  /**
   * Whether `publishPaymentCompleted` can build its messages: `Map.of`
   * throws a NullPointerException on a null value, and of the fields it
   * copies only the id, the commission amount and the payment-intent id can
   * be null (a null appointment id is replaced by ""). The second message
   * copies a subset of the same fields.
   */
  predicate MessageBuildable(p: CommissionPayment) {
    p.id.Some? && p.commissionAmount.Some? && p.stripePaymentIntentId.Some?
  }

  const HUNDRED: Decimal := Decimal(100, 0)   // BigDecimal.valueOf(100)
  const DEFAULT_LINE_ITEM_NAME: string := "Réservation"
  const CREATED_MESSAGE: string := "Paiement créé avec succès"

  /**
   * The commission: amount × rate / 100, rounded HALF_UP to 2 decimal
   * places. In unscaled terms, the commission in cents is the integer
   * nearest to a.u × r.u × 100 / (100 × 10^(a.s + r.s)), ties away from zero.
   */
  function CommissionAmount(amount: Decimal, rate: Decimal): (c: Decimal)
    ensures c.scale == 2
    ensures IsHalfUpRounding(amount.unscaled * rate.unscaled * 100, 100 * Pow10(amount.scale + rate.scale), c.unscaled)
  {
    DivideHalfUp(Multiply(amount, rate), HUNDRED, 2)
  }

  /** `x.multiply(BigDecimal.valueOf(100)).longValue()`: cents, truncated toward zero. */
  function InCents(x: Decimal): (r: Long)
    ensures var n := DivTowardZero(x.unscaled * 100, Pow10(x.scale));
      LONG_MIN <= n <= LONG_MAX ==> r == n
  {
    LongValue(Multiply(x, HUNDRED))
  }

  /** A commission at scale 2 converts to cents exactly. */
  lemma CommissionCentsExact(c: Decimal)
    requires c.scale == 2 && LONG_MIN <= c.unscaled <= LONG_MAX
    ensures InCents(c) == c.unscaled
  {
    var q := DivTowardZero(c.unscaled * 100, 100);
    if q < c.unscaled { MulLeq(q + 1, c.unscaled, 100); }
    if q > c.unscaled { MulLeq(c.unscaled + 1, q, 100); }
  }

  /** An amount with at most two decimals converts to cents exactly; more decimals are truncated. */
  lemma AmountCentsExact(a: Decimal)
    requires a.scale <= 2
    requires LONG_MIN <= a.unscaled * Pow10(2 - a.scale) <= LONG_MAX
    ensures InCents(a) == a.unscaled * Pow10(2 - a.scale)
  {
    Pow10Add(a.scale, 2 - a.scale);
    var d := Pow10(a.scale);
    var m := a.unscaled * Pow10(2 - a.scale);
    assert a.unscaled * 100 == m * d;
    var q := DivTowardZero(m * d, d);
    if q < m { MulLeq(q + 1, m, d); }
    if q > m { MulLeq(m + 1, q, d); }
  }

  /** For a positive amount and rate the commission is not negative. */
  lemma CommissionNonNegative(amount: Decimal, rate: Decimal)
    requires amount.unscaled > 0 && rate.unscaled > 0
    ensures CommissionAmount(amount, rate).unscaled >= 0
  {
    var c := CommissionAmount(amount, rate).unscaled;
    var n := amount.unscaled * rate.unscaled * 100;
    var d := 100 * Pow10(amount.scale + rate.scale);
    MulPositive(amount.unscaled, rate.unscaled);
    MulPositive(amount.unscaled * rate.unscaled, 100);
    if c < 0 {
      MulLeq(c, -1, d);
    }
  }

  /** 50.00 at a rate of 10.0 gives a commission of 5.00, i.e. 500 cents out of 5000. */
  lemma CommissionExample()
    ensures CommissionAmount(Decimal(500, 1), Decimal(100, 1)) == Decimal(500, 2)
    ensures InCents(CommissionAmount(Decimal(500, 1), Decimal(100, 1))) == 500
    ensures InCents(Decimal(500, 1)) == 5000
  {
    var c := CommissionAmount(Decimal(500, 1), Decimal(100, 1));
    assert Pow10(2) == 100;
    assert IsHalfUpRounding(500 * 100 * 100, 100 * 100, 500);
    HalfUpUnique(500 * 100 * 100, 100 * 100, c.unscaled, 500);
    CommissionCentsExact(c);
    AmountCentsExact(Decimal(500, 1));
  }

  /** On a tie the commission rounds up: 0.05 at 10 is 0.005, which becomes 0.01. */
  lemma CommissionTieRoundsUp()
    ensures CommissionAmount(Decimal(5, 2), Decimal(10, 0)) == Decimal(1, 2)
  {
    var c := CommissionAmount(Decimal(5, 2), Decimal(10, 0));
    assert Pow10(2) == 100;
    assert IsHalfUpRounding(5 * 10 * 100, 100 * 100, 1);
    HalfUpUnique(5 * 10 * 100, 100 * 100, c.unscaled, 1);
  }

  /** The line-item name: the request's description, or "Réservation" when it is null. */
  function LineItemName(description: Option<string>): (name: string)
    ensures description.Some? ==> name == description.value
    ensures description.None? ==> name == DEFAULT_LINE_ITEM_NAME
  {
    if description.Some? then description.value else DEFAULT_LINE_ITEM_NAME
  }

  /** The Checkout request: euros, the amount in cents, the commission in cents as application fee. */
  function CheckoutParams(request: CreatePaymentRequest): (p: SessionParams)
    ensures p.currency == "eur" && p.productName == LineItemName(request.description)
    ensures p.unitAmount == InCents(request.amount)
    ensures p.applicationFeeAmount == Some(InCents(CommissionAmount(request.amount, request.commissionRate)) as int)
  {
    SessionParams(request.successUrl, request.cancelUrl, "eur", InCents(request.amount),
                  LineItemName(request.description),
                  Some(InCents(CommissionAmount(request.amount, request.commissionRate))))
  }

  /** The record `createPayment` builds once the session exists: PENDING, in "EUR", no refund deadline. */
  function NewRecord(request: CreatePaymentRequest, userId: Uuid, session: Session): (p: CommissionPayment)
    ensures p.id.None? && p.status == Pending && p.currency == "EUR" && p.refundEligibleUntil.None?
    ensures p.stripeCheckoutSessionId == Some(session.id) && p.stripePaymentIntentId == session.paymentIntent
    ensures p.userId == userId && p.shopId == request.shopId && p.amount == request.amount
    ensures p.commissionAmount == Some(CommissionAmount(request.amount, request.commissionRate))
    ensures p.commissionRate == Some(request.commissionRate) && p.description == request.description
  {
    CommissionPayment(None, session.paymentIntent, Some(session.id), userId, request.shopId, None,
                      request.amount, Some(CommissionAmount(request.amount, request.commissionRate)),
                      Some(request.commissionRate), "EUR", Pending, request.description, None, None, None)
  }

  /** `isRefundEligible`'s test: completed, with a deadline, and `now` strictly before it. */
  predicate RefundEligibleAt(p: CommissionPayment, now: Instant): (r: bool)
    ensures r ==> p.status == Completed && !DeadlinePassed(p, now)
    ensures p.refundEligibleUntil.None? ==> !r
  {
    p.status == Completed && p.refundEligibleUntil.Some? && now < p.refundEligibleUntil.value
  }

  /** A record without deadline is never refund-eligible: `createPayment` and `confirmPayment` never set one. */
  lemma NoDeadlineNeverEligible(request: CreatePaymentRequest, userId: Uuid, session: Session,
                                rows: map<Uuid, CommissionPayment>, freshId: Uuid, created: Instant, now: Instant)
    ensures !RefundEligibleAt(Prepared(Confirmed(Prepared(NewRecord(request, userId, session), rows, freshId, created)),
                                       rows, freshId, now), now)
  {
  }

  /** Eligibility ends with the deadline: a payment the expiry query returns for `now` is not eligible at `now`. */
  lemma ExpiredNotEligible(p: CommissionPayment, now: Instant, later: Instant)
    ensures DeadlinePassed(p, now) ==> !RefundEligibleAt(p, now)
    ensures RefundEligibleAt(p, later) && now <= later ==> RefundEligibleAt(p, now)
  {
  }

  /** What `confirmPayment` asks `save` to write. */
  function Confirmed(p: CommissionPayment): CommissionPayment {
    p.(status := Completed)
  }

  class PaymentService {
    const repository: PaymentRepository
    const connect: StripeConnectService
    const stripe: StripeApi
    const bus: Outbox<CommissionEvent>

    ghost predicate Valid()
      reads this, repository, connect, connect.repository
    {
      repository.Valid() && connect.Valid()
    }

    constructor (repository: PaymentRepository, connect: StripeConnectService, stripe: StripeApi, bus: Outbox<CommissionEvent>)
      requires repository.Valid() && connect.Valid()
      ensures Valid()
      ensures this.repository == repository && this.connect == connect && this.stripe == stripe && this.bus == bus
    {
      this.repository, this.connect, this.stripe, this.bus := repository, connect, stripe, bus;
    }

    /**
     * `createPayment`: refuses a shop without an account record, then a
     * shop that cannot take payments, before any gateway call; otherwise
     * creates the session on the shop's Connect account with the commission
     * as application fee and only then stores the PENDING record.
     */
    method CreatePayment(request: CreatePaymentRequest, userId: Uuid, created: Reply<Session>, freshId: Uuid, now: Instant)
      returns (r: Result<PaymentResponse>)
      requires Valid() && request.Valid() && freshId !in repository.rows
      modifies repository, stripe
      ensures Valid()
      ensures connect.GetShopStripeAccount(request.shopId).None? ==>
        r == Err(ShopAccountMissing) && repository.rows == old(repository.rows) && stripe.requests == old(stripe.requests)
      ensures connect.GetShopStripeAccount(request.shopId).Some? && !connect.CanReceivePayments(request.shopId) ==>
        r == Err(ShopCannotReceivePayments) && repository.rows == old(repository.rows) && stripe.requests == old(stripe.requests)
      ensures connect.CanReceivePayments(request.shopId) ==>
        && connect.GetShopStripeAccount(request.shopId).Some?
        && stripe.requests == old(stripe.requests) +
             [CreateSession(CheckoutParams(request), Some(connect.GetShopStripeAccount(request.shopId).value.stripeAccountId))]
        && (created.Failed? ==> r == Err(StripeFailure) && repository.rows == old(repository.rows))
        && (created.Replied? ==>
              var saved := Prepared(NewRecord(request, userId, created.value), old(repository.rows), freshId, now);
              && repository.rows == old(repository.rows)[freshId := saved]
              && saved.id == Some(freshId)
              && r == Ok(PaymentResponse(freshId, created.value.url, created.value.id, Pending.Name(), CREATED_MESSAGE)))
    {
      var shopAccount := connect.GetShopStripeAccount(request.shopId);
      if shopAccount.None? {
        return Err(ShopAccountMissing);
      }
      if !connect.CanReceivePayments(request.shopId) {
        return Err(ShopCannotReceivePayments);
      }
      var commissionAmount := CommissionAmount(request.amount, request.commissionRate);
      var commissionInCents := InCents(commissionAmount);
      var amountInCents := InCents(request.amount);
      var params := SessionParams(request.successUrl, request.cancelUrl, "eur", amountInCents,
                                  LineItemName(request.description), Some(commissionInCents));
      stripe.Send(CreateSession(params, Some(shopAccount.value.stripeAccountId)));
      if created.Failed? {
        return Err(StripeFailure);
      }
      var session := created.value;
      var payment := NewRecord(request, userId, session);
      var saved := repository.Save(payment, freshId, now);
      r := Ok(PaymentResponse(freshId, session.url, session.id, Pending.Name(), CREATED_MESSAGE));
    }

    /**
     * `confirmPayment`, one transaction: the record with that session id
     * becomes COMPLETED whatever its status was and is saved, then both
     * messages are published. When a message cannot be built, the
     * NullPointerException rolls the save back and nothing is sent.
     */
    method ConfirmPayment(sessionId: string, now: Instant) returns (r: Result<()>)
      requires Valid()
      modifies repository, bus
      ensures Valid()
      ensures match old(repository.FindByStripeCheckoutSessionId(sessionId))
        case Absent =>
          r == Err(PaymentRecordMissing) && repository.rows == old(repository.rows) && bus.messages == old(bus.messages)
        case NonUnique =>
          r == Err(IncorrectResultSize) && repository.rows == old(repository.rows) && bus.messages == old(bus.messages)
        case Found(p) =>
          var q := Prepared(Confirmed(p), old(repository.rows), p.id.value, now);
          if MessageBuildable(q) then
            && r == Ok(())
            && q.status == Completed
            && repository.rows == old(repository.rows)[p.id.value := q]
            && bus.messages == old(bus.messages) + [PaymentCompleted(q), AppointmentConfirmed(q)]
          else
            && r == Err(MessageBuildFailure)
            && repository.rows == old(repository.rows)
            && bus.messages == old(bus.messages)
    {
      var found := repository.FindByStripeCheckoutSessionId(sessionId);
      if found.Absent? {
        return Err(PaymentRecordMissing);
      } else if found.NonUnique? {
        return Err(IncorrectResultSize);
      }
      var p := found.value;
      ghost var k :| k in repository.rows && repository.rows[k] == p;
      assert p.id == Some(k);
      var before := repository.rows;
      var saved := repository.Save(Confirmed(p), p.id.value, now);
      if !MessageBuildable(saved.value) {
        repository.Rollback(before);
        return Err(MessageBuildFailure);
      }
      bus.Publish(PaymentCompleted(saved.value));
      bus.Publish(AppointmentConfirmed(saved.value));
      r := Ok(());
    }

    /** `isRefundEligible`: an error for an unknown id, otherwise the eligibility test at `now`. */
    function IsRefundEligible(paymentId: Uuid, now: Instant): (r: Result<bool>)
      reads this, repository, connect, connect.repository
      requires Valid()
      ensures r.Err? <==> paymentId !in repository.rows
      ensures r.Err? ==> r.error == PaymentRecordMissing
      ensures r.Ok? ==> (r.value <==> var p := repository.rows[paymentId];
        p.status == Completed && p.refundEligibleUntil.Some? && now < p.refundEligibleUntil.value)
    {
      match repository.FindById(paymentId)
      case None => Err(PaymentRecordMissing)
      case Some(p) => Ok(RefundEligibleAt(p, now))
    }
  }
}
