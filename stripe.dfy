/**
 * The payment gateway as the core sees it. Every call into the Stripe SDK is
 * an oracle: the service method receives the gateway's answer as a parameter
 * (`Reply`) and records the request it made in `StripeApi.requests`, so that a
 * contract can say which calls were made, in which order, with which data.
 */
module Stripe {
  import opened Common

  /** The answer of an SDK call: a value, or a `StripeException`. */
  datatype Reply<+T> = Replied(value: T) | Failed

  /** A created Checkout `Session`: its id, its PaymentIntent id and its hosted URL. */
  datatype Session = Session(id: string, paymentIntent: Option<string>, url: Option<string>)

  /** A Connect `Account` as `Account.retrieve` returns it. */
  datatype GatewayAccount = GatewayAccount(
    id: string, chargesEnabled: bool, payoutsEnabled: bool, detailsSubmitted: bool)

  /** The `SessionCreateParams` of a one-line-item checkout in PAYMENT mode. */
  datatype SessionParams = SessionParams(
    successUrl: Option<string>,
    cancelUrl: Option<string>,
    currency: string,
    unitAmount: int,
    productName: string,
    applicationFeeAmount: Option<int>)

  datatype StripeRequest =
    | CreateSession(params: SessionParams, stripeAccount: Option<string>)  // Session.create(params[, RequestOptions])
    | CreateRefund(paymentIntent: Option<string>, amount: int)            // Refund.create
    | CreateAccount(country: string, defaultCurrency: string)             // Account.create (EXPRESS)
    | CreateAccountLink(account: string, refreshUrl: string, returnUrl: string)  // AccountLink.create
    | RetrieveAccount(account: string)                                   // Account.retrieve

  /** The gateway, seen as the log of requests sent to it. */
  class StripeApi {
    var requests: seq<StripeRequest>

    constructor ()
      ensures requests == []
    {
      requests := [];
    }

    method Send(r: StripeRequest)
      modifies this
      ensures requests == old(requests) + [r]
    {
      requests := requests + [r];
    }
  }
}
