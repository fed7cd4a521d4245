/**
 * `services/PaymentServiceImpl.java`: the checkout flow on the `long`-cents
 * payment record. A PENDING record is stored first; the Checkout session is
 * then created on the shop's Connect account with the platform fee (direct
 * charge) when the shop has a usable account id, falling back to the
 * platform account; the webhook handlers overwrite the status.
 */
module Checkout {
  import opened Common
  import opened Status
  import opened Stripe
  import opened Fees
  import opened Payments

  /** What `getServiceDetailsById` returns when the shop service answers: both fields nullable. */
  datatype ServiceDetails = ServiceDetails(name: Option<string>, description: Option<string>)

  /** An HTTP call to the shop service. */
  datatype ShopCall =
    | FetchService(serviceId: Uuid)          // GET /service/{id}
    | FetchStripeAccount(shopId: Uuid)       // GET /shop/{id}/stripe-account
    | MarkAppointmentPaid(appointmentId: Uuid)  // PATCH /appointment/paid/{id}

  /** The shop service, seen as the log of calls made to it. */
  class ShopApi {
    var calls: seq<ShopCall>

    constructor ()
      ensures calls == []
    {
      calls := [];
    }

    method Call(c: ShopCall)
      modifies this
      ensures calls == old(calls) + [c]
    {
      calls := calls + [c];
    }
  }

  /** A message sent to the payment exchange, carrying the record as it was saved. */
  datatype PaymentEvent = PaymentCompleted(payment: Payment) | PaymentRefunded(payment: Payment)

  /** Java string concatenation of a possibly null `String`. */
  function Concat(s: Option<string>): string {
    if s.Some? then s.value else "null"
  }

  const DEFAULT_PRODUCT_PREFIX: string := "Paiement boutique - "
  const SERVICE_PRODUCT_PREFIX: string := "Service: "

  /**
   * The line-item name: the shop's default label built from the first 8
   * characters of the shop id, or "Service: " and the service name when the
   * shop service answered, followed by " - " and the description when that
   * is non-empty.
   */
  function ProductName(shopId: Uuid, details: Option<ServiceDetails>): (name: string)
    ensures details.None? ==> name == DEFAULT_PRODUCT_PREFIX + shopId[..8]
    ensures details.Some? ==>
      var d := details.value;
      var base := SERVICE_PRODUCT_PREFIX + Concat(d.name);
      name == if d.description.Some? && d.description.value != "" then base + " - " + d.description.value else base
  {
    match details
    case None => DEFAULT_PRODUCT_PREFIX + shopId[..8]
    case Some(d) =>
      var base := SERVICE_PRODUCT_PREFIX + Concat(d.name);
      if d.description.Some? && d.description.value != "" then base + " - " + d.description.value else base
  }

  /** The label tells a service payment from a default one, and the default one is 28 characters long. */
  lemma ProductNameKinds(shopId: Uuid, details: Option<ServiceDetails>)
    ensures StartsWith(ProductName(shopId, details), SERVICE_PRODUCT_PREFIX) <==> details.Some?
    ensures details.None? ==> |ProductName(shopId, details)| == 28
  {
    var name := ProductName(shopId, details);
    if details.None? {
      assert name[..|SERVICE_PRODUCT_PREFIX|][0] == 'P';
    } else {
      var d := details.value;
      var base := SERVICE_PRODUCT_PREFIX + Concat(d.name);
      assert name == base || name == base + " - " + d.description.value;
      assert name[..|SERVICE_PRODUCT_PREFIX|] == base[..|SERVICE_PRODUCT_PREFIX|];
      assert base[..|SERVICE_PRODUCT_PREFIX|] == SERVICE_PRODUCT_PREFIX;
    }
  }

  /**
   * `getStripeAccountIdForShop`: the body of the shop service's answer when
   * it is a non-empty string; null when the body is null or empty and when
   * the call fails.
   */
  function StripeAccountIdForShop(body: Reply<Option<string>>): (r: Option<string>)
    ensures r.Some? <==> body.Replied? && body.value.Some? && body.value.value != ""
    ensures r.Some? ==> r == body.value
  {
    if body.Replied? && body.value.Some? && body.value.value != "" then body.value else None
  }

  const PLACEHOLDER_PREFIX: string := "acct_placeholder"

  /** A direct charge is tried only with a non-null, non-empty, non-placeholder account id. */
  predicate DirectChargeEligible(account: Option<string>) {
    account.Some? && account.value != "" && !StartsWith(account.value, PLACEHOLDER_PREFIX)
  }

  /** The Checkout parameters every attempt shares: no application fee. */
  function BaseParams(baseUrl: string, currency: string, amount: Long, productName: string): (p: SessionParams)
    ensures p.applicationFeeAmount.None? && p.unitAmount == amount && p.productName == productName
  {
    SessionParams(Some(baseUrl + "/payment/success?session_id={CHECKOUT_SESSION_ID}"),
                  Some(baseUrl + "/payment/cancel"), currency, amount, productName, None)
  }

  /** The direct-charge request: the shared parameters with the platform fee, on the shop's account. */
  function DirectAttempt(base: SessionParams, account: string, fee: Long): (q: StripeRequest)
    ensures q.CreateSession? && q.stripeAccount == Some(account)
    ensures q.params == base.(applicationFeeAmount := Some(fee))
  {
    CreateSession(base.(applicationFeeAmount := Some(fee)), Some(account))
  }

  /** The platform-account fallback as written: it reuses the builder that already holds the fee. */
  function FallbackAttemptAsWritten(base: SessionParams, fee: Long): (q: StripeRequest)
    ensures q.CreateSession? && q.stripeAccount.None?
  {
    CreateSession(base.(applicationFeeAmount := Some(fee)), None)
  }

  /** A platform-account request: the shared parameters, no fee and no connected account. */
  function PlatformAttempt(base: SessionParams): (q: StripeRequest)
    ensures q.CreateSession? && q.stripeAccount.None?
    ensures q.params.applicationFeeAmount == base.applicationFeeAmount
  {
    CreateSession(base, None)
  }

  /**
   * The Checkout requests `createCheckoutSession` sends: the direct attempt
   * and, when it fails, one platform attempt; or only the platform attempt
   * for a shop without a usable account id.
   */
  function Attempts(base: SessionParams, account: Option<string>, fee: Long, directOk: bool): seq<StripeRequest> {
    if DirectChargeEligible(account) then
      [DirectAttempt(base, account.value, fee)] + (if directOk then [] else [PlatformAttempt(base)])
    else [PlatformAttempt(base)]
  }

  /** The same requests as `Attempts`, with the fallback as the source builds it. */
  function AttemptsAsWritten(base: SessionParams, account: Option<string>, fee: Long, directOk: bool): seq<StripeRequest> {
    if DirectChargeEligible(account) then
      [DirectAttempt(base, account.value, fee)] + (if directOk then [] else [FallbackAttemptAsWritten(base, fee)])
    else [PlatformAttempt(base)]
  }

  /**
   * The shape of the attempts: one or two Checkout requests; a connected
   * account appears (and with it the fee) exactly when the account id is
   * usable, and only on the first; a failed direct attempt is followed by
   * exactly one platform attempt.
   */
  lemma AttemptsShape(base: SessionParams, account: Option<string>, fee: Long, directOk: bool)
    requires base.applicationFeeAmount.None?
    ensures var a := Attempts(base, account, fee, directOk);
      && 1 <= |a| <= 2
      && (forall i :: 0 <= i < |a| ==> a[i].CreateSession? && a[i].params.(applicationFeeAmount := None) == base)
      && (a[0].stripeAccount.Some? <==> DirectChargeEligible(account))
      && (a[0].params.applicationFeeAmount.Some? <==> DirectChargeEligible(account))
      && (DirectChargeEligible(account) ==> a[0].stripeAccount == account && a[0].params.applicationFeeAmount == Some(fee))
      && (|a| == 2 <==> DirectChargeEligible(account) && !directOk)
      && (forall i :: 1 <= i < |a| ==> a[i] == PlatformAttempt(base))
  {
  }

  /** No platform-account request carries an application fee. */
  lemma PlatformAttemptsCarryNoFee(base: SessionParams, account: Option<string>, fee: Long, directOk: bool)
    requires base.applicationFeeAmount.None?
    ensures forall q :: q in Attempts(base, account, fee, directOk) && q.stripeAccount.None? ==>
      q.params.applicationFeeAmount.None?
  {
  }

  /**
   * As written, a failed direct attempt is followed by a platform-account
   * request that still carries `application_fee_amount`, a request with a
   * fee and no connected account.
   */
  lemma FallbackCarriesFeeAsWritten(base: SessionParams, fee: Long)
    requires base.applicationFeeAmount.None?
    ensures var a := AttemptsAsWritten(base, Some("acct_1"), fee, false);
      |a| == 2 && a[1].stripeAccount.None? && a[1].params.applicationFeeAmount == Some(fee)
  {
    assert !StartsWith("acct_1", PLACEHOLDER_PREFIX);
  }

  /** The record `createCheckoutSession` stores before any gateway call. */
  function PendingRecord(id: Uuid, userId: Uuid, shopId: Uuid, appointmentId: Option<Uuid>,
                         serviceId: Option<Uuid>, amount: Long, currency: Option<string>, now: Instant): (p: Payment)
    ensures p.status == Some(Pending) && p.amount == amount && p.currency == currency
    ensures p.userId == Some(userId) && p.shopId == Some(shopId)
    ensures p.appointmentId == appointmentId && p.serviceId == serviceId
    ensures p.stripeSessionId.None? && p.stripePaymentIntentId.None? && p.stripeChargeId.None?
  {
    Payment(Some(id), amount, currency, Some(userId), Some(shopId), appointmentId, serviceId,
            Some(Pending), None, None, None, Some(now), Some(now))
  }

  /** The session that ends up on the record: the direct one when it succeeded, else the platform one. */
  function ChosenSession(account: Option<string>, direct: Reply<Session>, platform: Reply<Session>): Reply<Session> {
    if DirectChargeEligible(account) && direct.Replied? then direct else platform
  }

  class PaymentServiceImpl {
    const repository: PaymentStore
    const bus: Outbox<PaymentEvent>
    const stripe: StripeApi
    const shopApi: ShopApi
    const feeConfig: StripeFeeConfig
    const baseUrl: string

    ghost predicate Valid()
      reads this, repository
    {
      repository.Valid() && feeConfig.Valid()
    }

    constructor (repository: PaymentStore, bus: Outbox<PaymentEvent>, stripe: StripeApi,
                 shopApi: ShopApi, feeConfig: StripeFeeConfig, baseUrl: string)
      requires repository.Valid() && feeConfig.Valid()
      ensures Valid()
      ensures this.repository == repository && this.bus == bus && this.stripe == stripe
      ensures this.shopApi == shopApi && this.feeConfig == feeConfig && this.baseUrl == baseUrl
    {
      this.repository, this.bus, this.stripe := repository, bus, stripe;
      this.shopApi, this.feeConfig, this.baseUrl := shopApi, feeConfig, baseUrl;
    }

    /** `getServiceDetailsById`: one call to the shop service; null when it fails. */
    method GetServiceDetailsById(serviceId: Uuid, answer: Option<ServiceDetails>) returns (d: Option<ServiceDetails>)
      modifies shopApi
      ensures d == answer
      ensures shopApi.calls == old(shopApi.calls) + [FetchService(serviceId)]
    {
      shopApi.Call(FetchService(serviceId));
      d := answer;
    }

    /** `getStripeAccountIdForShop`: one call to the shop service. */
    method GetStripeAccountIdForShop(shopId: Uuid, body: Reply<Option<string>>) returns (account: Option<string>)
      modifies shopApi
      ensures account == StripeAccountIdForShop(body)
      ensures shopApi.calls == old(shopApi.calls) + [FetchStripeAccount(shopId)]
    {
      shopApi.Call(FetchStripeAccount(shopId));
      account := StripeAccountIdForShop(body);
    }

    /**
     * `paidAppointment`: false without a call for a null appointment id;
     * otherwise one call, whose outcome is the answer.
     */
    method PaidAppointment(appointmentId: Option<Uuid>, answer: bool) returns (ok: bool)
      modifies shopApi
      ensures ok <==> appointmentId.Some? && answer
      ensures shopApi.calls == old(shopApi.calls) +
        (if appointmentId.Some? then [MarkAppointmentPaid(appointmentId.value)] else [])
    {
      if appointmentId.None? {
        return false;
      }
      shopApi.Call(MarkAppointmentPaid(appointmentId.value));
      ok := answer;
    }

    /**
     * `createCheckoutSession`. The oracles: the generated id, the shop
     * service's answers for the service details and the account id, and the
     * gateway's answers to the direct and the platform attempt.
     */
    method CreateCheckoutSession(userId: Uuid, shopId: Uuid, appointmentId: Option<Uuid>, serviceId: Option<Uuid>,
                                 amount: Long, currency: Option<string>,
                                 details: Option<ServiceDetails>, accountBody: Reply<Option<string>>,
                                 direct: Reply<Session>, platform: Reply<Session>,
                                 freshId: Uuid, now: Instant)
      returns (r: Result<Option<string>>)
      requires Valid() && freshId !in repository.rows
      modifies repository, stripe, shopApi
      ensures Valid()
      ensures var p := PendingRecord(freshId, userId, shopId, appointmentId, serviceId, amount, currency, now);
        if !Storable(p) then
          && r == Err(DataIntegrityViolation)
          && repository.rows == old(repository.rows)
          && stripe.requests == old(stripe.requests)
          && shopApi.calls == old(shopApi.calls)
        else
          var name := ProductName(shopId, if serviceId.Some? then details else None);
          var base := BaseParams(baseUrl, currency.value, amount, name);
          var account := StripeAccountIdForShop(accountBody);
          var session := ChosenSession(account, direct, platform);
          && shopApi.calls == old(shopApi.calls) +
               (if serviceId.Some? then [FetchService(serviceId.value)] else []) + [FetchStripeAccount(shopId)]
          && stripe.requests == old(stripe.requests) +
               Attempts(base, account, feeConfig.CalculateFeeAmount(amount), direct.Replied?)
          && (session.Failed? ==>
                r == Err(StripePaymentFailure) && repository.rows == old(repository.rows)[freshId := p])
          && (session.Replied? ==>
                && r == Ok(session.value.url)
                && repository.rows == old(repository.rows)[freshId :=
                     p.(stripeSessionId := Some(session.value.id), stripePaymentIntentId := session.value.paymentIntent)])
    {
      var payment := NewPendingEntity(freshId, userId, shopId, appointmentId, serviceId, amount, currency, now);
      ghost var p := PendingRecord(freshId, userId, shopId, appointmentId, serviceId, amount, currency, now);
      var saved := repository.Save(payment, freshId, now);
      if saved.Err? {
        return Err(DataIntegrityViolation);
      }
      r := OpenSession(payment, shopId, serviceId, amount, currency.value, details, accountBody, direct, platform, now);
    }

    /**
     * Steps (2) to (4), once the PENDING record is stored: the product name,
     * the shop's account id, the gateway attempts, and the second save with
     * the session and PaymentIntent ids.
     */
    method OpenSession(payment: PaymentEntity, shopId: Uuid, serviceId: Option<Uuid>, amount: Long, currency: string,
                       details: Option<ServiceDetails>, accountBody: Reply<Option<string>>,
                       direct: Reply<Session>, platform: Reply<Session>, now: Instant)
      returns (r: Result<Option<string>>)
      requires Valid()
      requires payment.id.Some? && payment.id.value in repository.rows
      requires repository.rows[payment.id.value] == payment.Row() && payment.Row().updatedAt == Some(now)
      modifies payment, repository, stripe, shopApi
      ensures Valid()
      ensures var base := BaseParams(baseUrl, currency, amount, ProductName(shopId, if serviceId.Some? then details else None));
        var account := StripeAccountIdForShop(accountBody);
        var session := ChosenSession(account, direct, platform);
        && shopApi.calls == old(shopApi.calls) +
             (if serviceId.Some? then [FetchService(serviceId.value)] else []) + [FetchStripeAccount(shopId)]
        && stripe.requests == old(stripe.requests) +
             Attempts(base, account, feeConfig.CalculateFeeAmount(amount), direct.Replied?)
        && (session.Failed? ==> r == Err(StripePaymentFailure) && repository.rows == old(repository.rows))
        && (session.Replied? ==>
              && r == Ok(session.value.url)
              && repository.rows == old(repository.rows)[old(payment.id.value) :=
                   old(payment.Row()).(stripeSessionId := Some(session.value.id),
                                       stripePaymentIntentId := session.value.paymentIntent)])
    {
      var productName := ResolveProductName(shopId, serviceId, details);
      var base := BaseParams(baseUrl, currency, amount, productName);
      var stripeAccountId := GetStripeAccountIdForShop(shopId, accountBody);
      var session := RequestSession(base, stripeAccountId, amount, direct, platform);
      if session.Failed? {
        return Err(StripePaymentFailure);
      }
      RecordSession(payment, session.value, now);
      r := Ok(session.value.url);
    }

    /** Step (4): the session and PaymentIntent ids are written to the stored record. */
    method RecordSession(payment: PaymentEntity, session: Session, now: Instant)
      requires Valid()
      requires payment.id.Some? && payment.id.value in repository.rows
      requires repository.rows[payment.id.value] == payment.Row() && payment.Row().updatedAt == Some(now)
      modifies payment, repository
      ensures Valid()
      ensures repository.rows == old(repository.rows)[old(payment.id.value) :=
        old(payment.Row()).(stripeSessionId := Some(session.id), stripePaymentIntentId := session.paymentIntent)]
    {
      payment.stripeSessionId := Some(session.id);
      payment.stripePaymentIntentId := session.paymentIntent;
      payment.updatedAt := Some(now);
      var saved := repository.Save(payment, payment.id.value, now);
    }

    /** Step (1): a new entity filled through its setters, status PENDING, both timestamps now. */
    static method NewPendingEntity(id: Uuid, userId: Uuid, shopId: Uuid, appointmentId: Option<Uuid>,
                                   serviceId: Option<Uuid>, amount: Long, currency: Option<string>, now: Instant)
      returns (payment: PaymentEntity)
      ensures fresh(payment)
      ensures payment.Row() == PendingRecord(id, userId, shopId, appointmentId, serviceId, amount, currency, now)
    {
      payment := new PaymentEntity();
      payment.id := Some(id);
      payment.userId := Some(userId);
      payment.shopId := Some(shopId);
      payment.appointmentId := appointmentId;
      payment.serviceId := serviceId;
      payment.amount := amount;
      payment.currency := currency;
      payment.status := Some(Pending);
      payment.createdAt := Some(now);
      payment.updatedAt := Some(now);
    }

    /** The product-name step: the service details are fetched only for a non-null service id. */
    method ResolveProductName(shopId: Uuid, serviceId: Option<Uuid>, details: Option<ServiceDetails>)
      returns (productName: string)
      modifies shopApi
      ensures productName == ProductName(shopId, if serviceId.Some? then details else None)
      ensures shopApi.calls == old(shopApi.calls) + (if serviceId.Some? then [FetchService(serviceId.value)] else [])
    {
      productName := DEFAULT_PRODUCT_PREFIX + shopId[..8];
      if serviceId.Some? {
        var serviceDetails := GetServiceDetailsById(serviceId.value, details);
        if serviceDetails.Some? {
          productName := SERVICE_PRODUCT_PREFIX + Concat(serviceDetails.value.name);
          var description := serviceDetails.value.description;
          if description.Some? && description.value != "" {
            productName := productName + " - " + description.value;
          }
        }
      }
    }

    /**
     * The gateway step: a direct charge with the platform fee on a usable
     * account, then the platform account if that fails; or the platform
     * account alone.
     */
    method RequestSession(base: SessionParams, account: Option<string>, amount: Long,
                          direct: Reply<Session>, platform: Reply<Session>)
      returns (session: Reply<Session>)
      requires feeConfig.Valid()
      modifies stripe
      ensures session == ChosenSession(account, direct, platform)
      ensures stripe.requests == old(stripe.requests) +
        Attempts(base, account, feeConfig.CalculateFeeAmount(amount), direct.Replied?)
    {
      if DirectChargeEligible(account) {
        var applicationFeeAmount := feeConfig.CalculateFeeAmount(amount);
        stripe.Send(DirectAttempt(base, account.value, applicationFeeAmount));
        if direct.Replied? {
          session := direct;
        } else {
          stripe.Send(PlatformAttempt(base));
          session := platform;
        }
      } else {
        stripe.Send(PlatformAttempt(base));
        session := platform;
      }
    }

    /**
     * `handleCheckoutCompleted`: the record with that session id becomes
     * COMPLETED whatever its status was, is saved, the appointment is marked
     * paid when there is one, and one payment-completed event is published.
     */
    method HandleCheckoutCompleted(sessionId: string, appointmentAnswer: bool, now: Instant)
      returns (r: Result<Payment>)
      requires Valid()
      modifies repository, bus, shopApi
      ensures Valid()
      ensures match old(repository.FindByStripeSessionId(sessionId))
        case Absent =>
          r == Err(PaymentNotFound) && repository.rows == old(repository.rows)
          && bus.messages == old(bus.messages) && shopApi.calls == old(shopApi.calls)
        case NonUnique =>
          r == Err(IncorrectResultSize) && repository.rows == old(repository.rows)
          && bus.messages == old(bus.messages) && shopApi.calls == old(shopApi.calls)
        case Found(p) =>
          var q := p.(status := Some(Completed), updatedAt := Some(now));
          && r == Ok(q)
          && repository.rows == old(repository.rows)[p.id.value := q]
          && bus.messages == old(bus.messages) + [PaymentCompleted(q)]
          && shopApi.calls == old(shopApi.calls) +
               (if p.appointmentId.Some? then [MarkAppointmentPaid(p.appointmentId.value)] else [])
    {
      var found := repository.FindByStripeSessionId(sessionId);
      if found.Absent? {
        return Err(PaymentNotFound);
      } else if found.NonUnique? {
        return Err(IncorrectResultSize);
      }
      var q := Overwrite(found.value, Completed, now);
      var confirmed := PaidAppointment(q.appointmentId, appointmentAnswer);
      bus.Publish(PaymentCompleted(q));
      r := Ok(q);
    }

    /**
     * `handlePaymentRefunded`: the record with that PaymentIntent id becomes
     * REFUNDED whatever its status was, is saved, and one payment-refunded
     * event is published.
     */
    method HandlePaymentRefunded(intentId: string, now: Instant) returns (r: Result<Payment>)
      requires Valid()
      modifies repository, bus
      ensures Valid()
      ensures match old(repository.FindByStripePaymentIntentId(intentId))
        case Absent =>
          r == Err(PaymentNotFound) && repository.rows == old(repository.rows) && bus.messages == old(bus.messages)
        case NonUnique =>
          r == Err(IncorrectResultSize) && repository.rows == old(repository.rows) && bus.messages == old(bus.messages)
        case Found(p) =>
          var q := p.(status := Some(Refunded), updatedAt := Some(now));
          && r == Ok(q)
          && repository.rows == old(repository.rows)[p.id.value := q]
          && bus.messages == old(bus.messages) + [PaymentRefunded(q)]
    {
      var found := repository.FindByStripePaymentIntentId(intentId);
      if found.Absent? {
        return Err(PaymentNotFound);
      } else if found.NonUnique? {
        return Err(IncorrectResultSize);
      }
      var q := Overwrite(found.value, Refunded, now);
      bus.Publish(PaymentRefunded(q));
      r := Ok(q);
    }

    /** Loads a stored record, overwrites its status and updatedAt, and saves it. */
    method Overwrite(p: Payment, status: PaymentStatus, now: Instant) returns (q: Payment)
      requires Valid() && p in repository.rows.Values
      modifies repository
      ensures Valid()
      ensures q == p.(status := Some(status), updatedAt := Some(now))
      ensures p.id.Some? && repository.rows == old(repository.rows)[p.id.value := q]
    {
      ghost var k :| k in repository.rows && repository.rows[k] == p;
      assert p.id == Some(k);
      var payment := new PaymentEntity.Load(p);
      payment.status := Some(status);
      payment.updatedAt := Some(now);
      var saved := repository.Save(payment, p.id.value, now);
      q := payment.Row();
    }

    /**
     * `refundPayment`: asks the gateway for a refund of the record's
     * PaymentIntent; the local record is neither changed nor saved (the
     * refund webhook does that).
     */
    method RefundPayment(paymentId: Uuid, amount: Long, refund: Reply<string>) returns (r: Result<Payment>)
      requires Valid()
      modifies stripe
      ensures repository.FindById(paymentId).None? ==>
        r == Err(PaymentNotFound) && stripe.requests == old(stripe.requests)
      ensures repository.FindById(paymentId).Some? ==>
        var p := repository.FindById(paymentId).value;
        && stripe.requests == old(stripe.requests) + [CreateRefund(p.stripePaymentIntentId, amount)]
        && r == (if refund.Replied? then Ok(p) else Err(StripePaymentFailure))
    {
      var found := repository.FindById(paymentId);
      if found.None? {
        return Err(PaymentNotFound);
      }
      var payment := found.value;
      stripe.Send(CreateRefund(payment.stripePaymentIntentId, amount));
      if refund.Failed? {
        return Err(StripePaymentFailure);
      }
      r := Ok(payment);
    }

    /** `findById`: the stored record, or PaymentNotFoundException. */
    function FindById(paymentId: Uuid): (r: Result<Payment>)
      reads this, repository
      requires Valid()
      ensures r.Err? <==> paymentId !in repository.rows
      ensures r.Err? ==> r.error == PaymentNotFound
      ensures r.Ok? ==> r.value == repository.rows[paymentId] && r.value.id == Some(paymentId)
    {
      match repository.FindById(paymentId)
      case Some(p) => Ok(p)
      case None => Err(PaymentNotFound)
    }

    /** `findByAppointmentId`: the record, null when none, an error when several. */
    function FindByAppointmentId(appointmentId: Uuid): (r: Result<Option<Payment>>)
      reads this, repository
      requires Valid()
      ensures r == Ok(None) <==> forall k :: k in repository.rows ==> repository.rows[k].appointmentId != Some(appointmentId)
      ensures r.Ok? && r.value.Some? ==>
        r.value.value in repository.rows.Values && r.value.value.appointmentId == Some(appointmentId)
      ensures r.Err? ==> r.error == IncorrectResultSize
      ensures r.Err? <==>
        exists i, j :: i in repository.rows && j in repository.rows && i != j &&
          repository.rows[i].appointmentId == Some(appointmentId) && repository.rows[j].appointmentId == Some(appointmentId)
    {
      repository.FindByAppointmentId(appointmentId).ToResult()
    }
  }
}
