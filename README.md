# MyCloseShop payment service — a Dafny model

This is a model of the core of `ms-payment-api`, the MyCloseShop microservice that takes payments for shops through Stripe. It covers:

- **Stripe Connect accounts**: a shop's connected account is created once per shop, its onboarding link is requested, and it is synchronised from `account.updated` webhooks (`StripeConnectService`, `ShopStripeAccount`, `ShopStripeAccountRepository`).
- **Platform-fee checkout (v1)**: `PaymentServiceImpl` stores a PENDING `Payment` and builds a Checkout Session.
  - It tries a direct charge on the shop's connected account first, with an application fee from `StripeFeeConfig`.
  - If that attempt is refused, or the shop has no usable account, it falls back to a platform session.
  - It completes and refunds payments from gateway events, publishes broker events, and tells the shop service that an appointment was paid.
- **Commission checkout (v2)**: `PaymentService` computes a BigDecimal commission with HALF_UP rounding and converts it to cents. It opens a session on the shop's account and persists the commission payment. On confirmation it marks the payment COMPLETED and publishes PAYMENT_COMPLETED and APPOINTMENT_CONFIRMED, or rolls back when a message cannot be built.
- **Webhook entry point**: `StripeWebhookController` maps signature failures to 400, handler exceptions to 500 and everything else to 200, and dispatches each event by its type.
- **Start-up checks**: `StripeConfig` checks that the secret key matches the configured mode. The role predicate admits USER, MANAGER and CLIENT.

Parts of the system become values, classes, oracles or parameters:

- **Values**: entities that are only copied around (`PaymentStatus`, session parameters, gateway replies, webhook events) are datatypes.
- **Classes**: the JPA entities whose lifecycle hooks mutate fields, the repositories (tables as `map<Uuid, Row>`), the services, the gateway and the message broker are classes with `modifies` frames.
- **Oracles**: the Stripe SDK, the HTTP calls to the shop service and the broker are never executed.
  - Every reply is a parameter of type `Reply<T>` or `Option<T>`.
  - Every request is appended to an observable log: `StripeApi.requests`, `ShopApi.calls`, `Outbox.messages`.
  - So "no gateway call was made" and "the fallback request carried no fee" are statements about those logs.
- **Clock and identifiers**: the clock (`LocalDateTime.now()`) is an `Instant` parameter `now`. Freshly generated UUIDs are a parameter `freshId`.
- **Numbers**:
  - Java `long` is the subset type `Long`.
  - `BigDecimal` is `Decimal(unscaled, scale)`.
  - The `double` fee percentage is an exact rational `Percentage(num, den)`.
  - `Math.round` is "nearest, ties toward positive infinity", saturated to the `long` range.
- **Spring Data**: each derived single-result finder is `FindOne`. It yields `Absent`, `Found(row)` or `NonUnique`, and `NonUnique` is the `IncorrectResultSizeDataAccessException` a second matching row causes.
- **JPA `save`**:
  - A row with no id is inserted under a fresh id, after the `@PrePersist` hook.
  - A row with an id is updated, and `@PreUpdate` runs only when a column actually changed (the dirty check).
  - A row that violates a column constraint (NOT NULL, length, UNIQUE) is refused with `DataIntegrityViolation` and the table is left unchanged.

Source paths below are relative to the repository root.

## Model

| member | source | states |
|---|---|---|
| Common.WrapLong | src/main/java/com/etna/gpe/ms_payment_api/services/PaymentService.java:51-52 | the result is the `long` congruent to `x` modulo 2^64, and equals `x` whenever `x` fits in a `long` (what `BigDecimal.longValue` keeps of an oversized value) |
| Common.FindOne | src/main/java/com/etna/gpe/ms_payment_api/repositories/PaymentRepository.java:18-20 | a single-result finder is `Absent` iff no row matches, `NonUnique` iff two distinct rows match, and otherwise `Found` of the one stored row that matches |
| Common.FoundIsStored | src/main/java/com/etna/gpe/ms_payment_api/repositories/PaymentRepository.java:18-20 | a row a finder returns is stored in the table and satisfies the query |
| Common.Cardinality | src/main/java/com/etna/gpe/ms_payment_api/repositories/PaymentRepository.java:26 | a set of matching keys is empty iff its size is 0, has one element when its size is 1, and holds two distinct keys iff its size is at least 2 (what the single-result rule relies on) |
| Status.PaymentStatus.Name | src/main/java/com/etna/gpe/ms_payment_api/enums/PaymentStatus.java:6-11 | every status name is non-empty and fits the 20-character `status` column |
| Status.ValueOf | src/main/java/com/etna/gpe/ms_payment_api/enums/PaymentStatus.java:6-11 | `valueOf` yields only a status whose name is the string given |
| Status.NameRoundTrip | src/main/java/com/etna/gpe/ms_payment_api/enums/PaymentStatus.java:6-11 | `valueOf(s.name()) == s` for every status |
| Status.ValueOfOnlyNames | src/main/java/com/etna/gpe/ms_payment_api/enums/PaymentStatus.java:6-11 | `valueOf` succeeds exactly on the four constant names |
| Fees.RoundNearestTiesUp | src/main/java/com/etna/gpe/ms_payment_api/config/StripeFeeConfig.java:30 | the integer `Math.round` picks: nearest to n/d, a tie going up |
| Fees.NearestTiesUpUnique | src/main/java/com/etna/gpe/ms_payment_api/config/StripeFeeConfig.java:30 | that rounding is unique, so any correct rounding of the fee is the one computed |
| Fees.RoundMonotone | src/main/java/com/etna/gpe/ms_payment_api/config/StripeFeeConfig.java:30 | rounding preserves order |
| Fees.Saturate | src/main/java/com/etna/gpe/ms_payment_api/config/StripeFeeConfig.java:30 | `Math.round(double)` clamps to `Long.MIN_VALUE`/`Long.MAX_VALUE` and is exact inside the range |
| Fees.MathRound | src/main/java/com/etna/gpe/ms_payment_api/config/StripeFeeConfig.java:30 | `Math.round(n / d)`: the nearest integer with ties up while the quotient lies in the `long` range, `Long.MAX_VALUE` at or above it, `Long.MIN_VALUE` at or below it |
| Fees.RoundAgainstLongBounds | src/main/java/com/etna/gpe/ms_payment_api/config/StripeFeeConfig.java:30 | the rounded quotient lies in the `long` range exactly where the quotient does, and beyond each bound where the quotient is |
| Fees.StripeFeeConfig.CalculateFeeAmount | src/main/java/com/etna/gpe/ms_payment_api/config/StripeFeeConfig.java:29-31 | for a percentage in [0, 100] the fee is amount × percentage / 100 rounded to nearest with ties up |
| Fees.DefaultFeeConfig | src/main/java/com/etna/gpe/ms_payment_api/config/StripeFeeConfig.java:13-14 | with no property set the percentage is 5 |
| Fees.RoundOfMultiple | src/main/java/com/etna/gpe/ms_payment_api/config/StripeFeeConfig.java:30 | an exact quotient is returned unchanged |
| Fees.RoundBetween | src/main/java/com/etna/gpe/ms_payment_api/config/StripeFeeConfig.java:30 | a rounded value between two multiples stays between them |
| Fees.ScaledBetween | src/main/java/com/etna/gpe/ms_payment_api/config/StripeFeeConfig.java:30 | scaling by a percentage in [0, 100] keeps amount × p between 0 and amount × 100 |
| Fees.FeeRoundStaysInRange | src/main/java/com/etna/gpe/ms_payment_api/config/StripeFeeConfig.java:30 | for a percentage in [0, 100] the rounded fee always fits a `long`, so saturation never applies |
| Fees.FeeOfZero | src/main/java/com/etna/gpe/ms_payment_api/config/StripeFeeConfig.java:29-31 | the fee on 0 is 0 |
| Fees.FeeNonNegative | src/main/java/com/etna/gpe/ms_payment_api/config/StripeFeeConfig.java:29-31 | a non-negative percentage on a non-negative amount gives a non-negative fee |
| Fees.FeeAtMostAmount | src/main/java/com/etna/gpe/ms_payment_api/config/StripeFeeConfig.java:29-31 | with a percentage in [0, 100] the fee lies between 0 and the amount |
| Fees.FeeMonotone | src/main/java/com/etna/gpe/ms_payment_api/config/StripeFeeConfig.java:29-31 | a larger amount never gets a smaller fee |
| Fees.DefaultFeeExamples | src/main/java/com/etna/gpe/ms_payment_api/config/StripeFeeConfig.java:13-14 | at the default 5 %: 1000 → 50, 999 → 50 (49.95 rounds up), 10000 → 500 |
| Decimals.Pow10 | src/main/java/com/etna/gpe/ms_payment_api/services/PaymentService.java:47-49 | 10^n is positive |
| Decimals.DivHalfUp | src/main/java/com/etna/gpe/ms_payment_api/services/PaymentService.java:49 | the quotient is the HALF_UP rounding of n/d: nearest, ties away from zero |
| Decimals.HalfUpUnique | src/main/java/com/etna/gpe/ms_payment_api/services/PaymentService.java:49 | HALF_UP rounding is unique |
| Decimals.HalfUpNoTwo | src/main/java/com/etna/gpe/ms_payment_api/services/PaymentService.java:49 | two ordered HALF_UP roundings of the same quotient coincide |
| Decimals.Multiply | src/main/java/com/etna/gpe/ms_payment_api/services/PaymentService.java:48 | `BigDecimal.multiply`: the unscaled values multiply and the scales add, so the product is exact |
| Decimals.DivideHalfUp | src/main/java/com/etna/gpe/ms_payment_api/services/PaymentService.java:49 | `divide(d, scale, HALF_UP)` has the requested scale and its unscaled value is the HALF_UP rounding of the exact quotient |
| Decimals.DivTowardZero | src/main/java/com/etna/gpe/ms_payment_api/services/PaymentService.java:51-52 | the integer part that `longValue` keeps: truncation toward zero for both signs |
| Decimals.LongValue | src/main/java/com/etna/gpe/ms_payment_api/services/PaymentService.java:51-52 | `longValue` is the truncated value when it fits a `long` |
| Decimals.Pow10Add | src/main/java/com/etna/gpe/ms_payment_api/services/PaymentService.java:48 | 10^(a+b) = 10^a × 10^b, the law that scale addition rests on |
| ShopAccounts.ShopStripeAccountEntity.Build | src/main/java/com/etna/gpe/ms_payment_api/entity/ShopStripeAccount.java:37-47 | a built account starts with the three flags false and no timestamps |
| ShopAccounts.ShopStripeAccountEntity.Load | src/main/java/com/etna/gpe/ms_payment_api/entity/ShopStripeAccount.java:25-65 | a loaded entity holds exactly the stored row |
| ShopAccounts.ShopStripeAccountEntity.OnCreate | src/main/java/com/etna/gpe/ms_payment_api/entity/ShopStripeAccount.java:55-59 | `@PrePersist` sets createdAt and updatedAt to now and nothing else |
| ShopAccounts.ShopStripeAccountEntity.OnUpdate | src/main/java/com/etna/gpe/ms_payment_api/entity/ShopStripeAccount.java:61-64 | `@PreUpdate` sets updatedAt to now and nothing else |
| ShopAccounts.ShopStripeAccountRepository.constructor | src/main/java/com/etna/gpe/ms_payment_api/repositories/ShopStripeAccountRepository.java:13-17 | an empty table satisfies the unique-key invariant |
| ShopAccounts.ShopStripeAccountRepository.FindByShopId | src/main/java/com/etna/gpe/ms_payment_api/repositories/ShopStripeAccountRepository.java:13 | some row is returned iff a row has that shop id, and it is that row |
| ShopAccounts.ShopStripeAccountRepository.FindByStripeAccountId | src/main/java/com/etna/gpe/ms_payment_api/repositories/ShopStripeAccountRepository.java:15 | some row is returned iff a row has that connected-account id, and it is that row |
| ShopAccounts.ShopStripeAccountRepository.ExistsByShopId | src/main/java/com/etna/gpe/ms_payment_api/repositories/ShopStripeAccountRepository.java:17 | `existsByShopId` is true iff `findByShopId` finds a row |
| ShopAccounts.ShopStripeAccountRepository.Save | src/main/java/com/etna/gpe/ms_payment_api/entity/ShopStripeAccount.java:31-35 | save runs the lifecycle hook, succeeds iff the row keeps shop id and account id unique and has createdAt, stores exactly that row, and otherwise leaves the table unchanged |
| ShopAccounts.AtMostOneRecordPerKey | src/main/java/com/etna/gpe/ms_payment_api/entity/ShopStripeAccount.java:31-35 | two distinct rows never share a shop id or a connected-account id |
| Connect.NewAccountRow | src/main/java/com/etna/gpe/ms_payment_api/services/StripeConnectService.java:49-57 | the new record links the shop to the created account with all three flags false |
| Connect.Synced | src/main/java/com/etna/gpe/ms_payment_api/services/StripeConnectService.java:92-96 | synchronisation copies charges, payouts and details-submitted from the gateway, keeps identity and createdAt, and either keeps updatedAt or stamps now |
| Connect.SyncedIdempotent | src/main/java/com/etna/gpe/ms_payment_api/services/StripeConnectService.java:83-97 | applying the same `account.updated` twice leaves the record as after once, whatever the second instant |
| Connect.SyncedAdmissible | src/main/java/com/etna/gpe/ms_payment_api/services/StripeConnectService.java:92-96 | saving the three setters through JPA yields the synchronised row, and the table accepts it |
| Connect.SyncedReceives | src/main/java/com/etna/gpe/ms_payment_api/services/StripeConnectService.java:109-113 | after the update the shop can receive payments iff the new row has charges enabled and onboarding completed |
| Connect.StripeConnectService.constructor | src/main/java/com/etna/gpe/ms_payment_api/services/StripeConnectService.java:28-113 | the service wraps a valid repository and the gateway |
| Connect.StripeConnectService.GetShopStripeAccount | src/main/java/com/etna/gpe/ms_payment_api/services/StripeConnectService.java:102-104 | an account is returned iff the shop has one, and it is the shop's row |
| Connect.StripeConnectService.CanReceivePayments | src/main/java/com/etna/gpe/ms_payment_api/services/StripeConnectService.java:109-113 | true iff the shop's account has charges enabled and onboarding completed |
| Connect.StripeConnectService.CreateStripeAccount | src/main/java/com/etna/gpe/ms_payment_api/services/StripeConnectService.java:28-58 | an existing account is returned with no gateway call; otherwise one Express account (country FR, currency eur) is requested, a gateway failure stores nothing, and success stores the new row under a fresh id unless its account id collides |
| Connect.StripeConnectService.CreateOnboardingLink | src/main/java/com/etna/gpe/ms_payment_api/services/StripeConnectService.java:63-78 | no account means an error and no gateway call; otherwise exactly one link request for the shop's account with the refresh and return URLs, returning its url or the gateway failure |
| Connect.StripeConnectService.UpdateAccountStatus | src/main/java/com/etna/gpe/ms_payment_api/services/StripeConnectService.java:83-97 | the account is retrieved first; an unknown account changes nothing; otherwise exactly the matching row is synchronised, and afterwards the shop can receive payments iff the gateway reports charges enabled and details submitted |
| Connect.StripeConnectService.ApplySync | src/main/java/com/etna/gpe/ms_payment_api/services/StripeConnectService.java:92-96 | the three setters and `save` replace exactly the stored record by its synchronised form, after which the shop can receive payments iff charges are enabled and details submitted |
| Payments.PaymentEntity.constructor | src/main/java/com/etna/gpe/ms_payment_api/entity/Payment.java:21-62 | a new entity has amount 0 and every other column null |
| Payments.PaymentEntity.Load | src/main/java/com/etna/gpe/ms_payment_api/entity/Payment.java:21-75 | a loaded entity holds exactly the stored row |
| Payments.PaymentEntity.PrePersist | src/main/java/com/etna/gpe/ms_payment_api/entity/Payment.java:64-69 | `@PrePersist` sets createdAt and updatedAt to now and nothing else |
| Payments.PaymentEntity.PreUpdate | src/main/java/com/etna/gpe/ms_payment_api/entity/Payment.java:71-74 | `@PreUpdate` sets updatedAt to now and nothing else |
| Payments.PreparedKeepsBusinessFields | src/main/java/com/etna/gpe/ms_payment_api/entity/Payment.java:64-74 | saving only assigns an id (kept if already set) and timestamps; every business column is stored as given |
| Payments.PaymentStore.constructor | src/main/java/com/etna/gpe/ms_payment_api/entity/Payment.java:21-75 | an empty table satisfies the column constraints |
| Payments.PaymentStore.FindById | src/main/java/com/etna/gpe/ms_payment_api/services/PaymentServiceImpl.java:397-400 | a payment is found iff its id is stored, and it satisfies the column constraints |
| Payments.PaymentStore.FindByStripeSessionId | src/main/java/com/etna/gpe/ms_payment_api/services/PaymentServiceImpl.java:294-295 | Absent iff no payment has that session id; Found gives one that does; NonUnique iff two do |
| Payments.PaymentStore.FindByStripePaymentIntentId | src/main/java/com/etna/gpe/ms_payment_api/repositories/PaymentRepository.java:18 | the same three-way reading for the payment-intent id |
| Payments.PaymentStore.FindByAppointmentId | src/main/java/com/etna/gpe/ms_payment_api/repositories/PaymentRepository.java:26 | the same three-way reading for the appointment id |
| Payments.PaymentStore.Save | src/main/java/com/etna/gpe/ms_payment_api/entity/Payment.java:27-75 | save runs the fitting hook on the entity, succeeds iff the row meets NOT NULL and length (currency ≤ 3), stores exactly that row under its id, and otherwise leaves the table unchanged |
| Payments.AppointmentLookupNonUnique | src/main/java/com/etna/gpe/ms_payment_api/repositories/PaymentRepository.java:26 | two payments for one appointment make the finder fail, since no constraint forbids them |
| Checkout.ProductName | src/main/java/com/etna/gpe/ms_payment_api/services/PaymentServiceImpl.java:193-204 | no service gives "Paiement boutique - " and the first 8 characters of the shop id; a service gives "Service: " + name, then " - " + description when one is non-empty |
| Checkout.ProductNameKinds | src/main/java/com/etna/gpe/ms_payment_api/services/PaymentServiceImpl.java:193-204 | the name starts with "Service: " iff service details were found, and the default name is 28 characters long |
| Checkout.StripeAccountIdForShop | src/main/java/com/etna/gpe/ms_payment_api/services/PaymentServiceImpl.java:363-395 | an account id is used iff the shop service answered with a non-empty one; every failure gives null |
| Checkout.BaseParams | src/main/java/com/etna/gpe/ms_payment_api/services/PaymentServiceImpl.java:207-224 | the shared session parameters carry the amount and product name and no application fee |
| Checkout.DirectAttempt | src/main/java/com/etna/gpe/ms_payment_api/services/PaymentServiceImpl.java:238-260 | the direct attempt targets the shop's account and adds exactly the application fee |
| Checkout.FallbackAttemptAsWritten | src/main/java/com/etna/gpe/ms_payment_api/services/PaymentServiceImpl.java:262-269 | the fallback is a platform request (no connected account) |
| Checkout.PlatformAttempt | src/main/java/com/etna/gpe/ms_payment_api/services/PaymentServiceImpl.java:270-274 | the platform request has no connected account and the base fee setting |
| Checkout.AttemptsShape | src/main/java/com/etna/gpe/ms_payment_api/services/PaymentServiceImpl.java:238-274 | one or two session requests share the base parameters; the first is direct, with the fee, iff the account is usable; a second, platform-only, request happens iff the direct one failed |
| Checkout.PlatformAttemptsCarryNoFee | src/main/java/com/etna/gpe/ms_payment_api/services/PaymentServiceImpl.java:262-274 | in the corrected sequence no platform request carries an application fee |
| Checkout.FallbackCarriesFeeAsWritten | src/main/java/com/etna/gpe/ms_payment_api/services/PaymentServiceImpl.java:248-252 | as written, account "acct_1" with a failed direct attempt yields a platform fallback that still carries the application fee |
| Checkout.PendingRecord | src/main/java/com/etna/gpe/ms_payment_api/services/PaymentServiceImpl.java:179-190 | the new payment is PENDING and carries the user, shop, appointment, service, amount and currency, with no gateway ids |
| Checkout.ShopApi.Call | src/main/java/com/etna/gpe/ms_payment_api/services/PaymentServiceImpl.java:77-151 | each shop-service call is appended to the call log |
| Checkout.PaymentServiceImpl.constructor | src/main/java/com/etna/gpe/ms_payment_api/services/PaymentServiceImpl.java:38 | the service holds the repository, broker, gateway, shop service, fee configuration and base URL it is given |
| Checkout.PaymentServiceImpl.GetServiceDetailsById | src/main/java/com/etna/gpe/ms_payment_api/services/PaymentServiceImpl.java:77-107 | one fetch for the service is made and its answer (or null on any failure) returned |
| Checkout.PaymentServiceImpl.GetStripeAccountIdForShop | src/main/java/com/etna/gpe/ms_payment_api/services/PaymentServiceImpl.java:363-395 | one fetch for the shop is made and the result is the non-empty account id or null |
| Checkout.PaymentServiceImpl.PaidAppointment | src/main/java/com/etna/gpe/ms_payment_api/services/PaymentServiceImpl.java:115-151 | a null appointment returns false with no call; otherwise one mark-paid call is made and its outcome returned |
| Checkout.PaymentServiceImpl.CreateCheckoutSession | src/main/java/com/etna/gpe/ms_payment_api/services/PaymentServiceImpl.java:175-288 | a row refused by the database stops everything; otherwise the PENDING row is stored, the shop service and gateway are called as the attempt sequence says, and the stored row gets the session and intent ids on success, or is left PENDING on a gateway failure, which is reported |
| Checkout.PaymentServiceImpl.OpenSession | src/main/java/com/etna/gpe/ms_payment_api/services/PaymentServiceImpl.java:193-287 | from the stored PENDING row: the product name and account lookups, the session attempts, then the row update or the propagated failure |
| Checkout.PaymentServiceImpl.RecordSession | src/main/java/com/etna/gpe/ms_payment_api/services/PaymentServiceImpl.java:277-283 | the stored row gains exactly the session id and payment-intent id |
| Checkout.PaymentServiceImpl.NewPendingEntity | src/main/java/com/etna/gpe/ms_payment_api/services/PaymentServiceImpl.java:179-190 | the fresh entity holds exactly the PENDING record |
| Checkout.PaymentServiceImpl.ResolveProductName | src/main/java/com/etna/gpe/ms_payment_api/services/PaymentServiceImpl.java:193-204 | the service is fetched only when a service id is given, and the name follows ProductName |
| Checkout.PaymentServiceImpl.RequestSession | src/main/java/com/etna/gpe/ms_payment_api/services/PaymentServiceImpl.java:227-274 | the gateway receives exactly the corrected attempt sequence and the chosen session is returned |
| Checkout.PaymentServiceImpl.HandleCheckoutCompleted | src/main/java/com/etna/gpe/ms_payment_api/services/PaymentServiceImpl.java:291-318 | an unknown (or ambiguous) session changes nothing; otherwise exactly that payment becomes COMPLETED with updatedAt now, one PaymentCompleted event is published, and the appointment is marked paid when there is one |
| Checkout.PaymentServiceImpl.HandlePaymentRefunded | src/main/java/com/etna/gpe/ms_payment_api/services/PaymentServiceImpl.java:321-336 | an unknown intent changes nothing; otherwise exactly that payment becomes REFUNDED and one PaymentRefunded event is published |
| Checkout.PaymentServiceImpl.Overwrite | src/main/java/com/etna/gpe/ms_payment_api/services/PaymentServiceImpl.java:297-299 | setting a status and saving changes exactly that row's status and updatedAt |
| Checkout.PaymentServiceImpl.RefundPayment | src/main/java/com/etna/gpe/ms_payment_api/services/PaymentServiceImpl.java:339-360 | an unknown payment makes no gateway call; otherwise one refund for its payment intent and amount is requested, and the stored payment is returned unchanged or the failure reported |
| Checkout.PaymentServiceImpl.FindById | src/main/java/com/etna/gpe/ms_payment_api/services/PaymentServiceImpl.java:397-400 | PaymentNotFound iff the id is absent; otherwise the stored payment with that id |
| Checkout.PaymentServiceImpl.FindByAppointmentId | src/main/java/com/etna/gpe/ms_payment_api/services/PaymentServiceImpl.java:403-407 | null iff no payment has the appointment; IncorrectResultSize iff two distinct payments have it; otherwise the one stored payment for it |
| CommissionPayments.NewestExists | src/main/java/com/etna/gpe/ms_payment_api/repositories/PaymentRepository.java:31-32 | a non-empty set of timestamped records has a newest one |
| CommissionPayments.NewestFirstOf | src/main/java/com/etna/gpe/ms_payment_api/repositories/PaymentRepository.java:31-32 | a set of records listed newest first: same elements, no repetition, createdAt non-increasing |
| CommissionPayments.PaymentRepository.constructor | src/main/java/com/etna/gpe/ms_payment_api/repositories/PaymentRepository.java:16-33 | an empty table is valid |
| CommissionPayments.PaymentRepository.Save | src/main/java/com/etna/gpe/ms_payment_api/services/PaymentService.java:80-93 | save assigns the id and timestamps, succeeds iff both timestamps are set, stores exactly the saved row, and otherwise leaves the table unchanged |
| CommissionPayments.PaymentRepository.Rollback | src/main/java/com/etna/gpe/ms_payment_api/services/PaymentService.java:107 | a rolled-back transaction leaves the table as it was when the transaction began |
| CommissionPayments.PaymentRepository.FindById | src/main/java/com/etna/gpe/ms_payment_api/services/PaymentService.java:127-128 | a record is found iff its id is stored |
| CommissionPayments.PaymentRepository.FindByStripePaymentIntentId | src/main/java/com/etna/gpe/ms_payment_api/repositories/PaymentRepository.java:18 | Absent iff no record has the intent id; Found gives one that does; NonUnique iff two do |
| CommissionPayments.PaymentRepository.FindByStripeCheckoutSessionId | src/main/java/com/etna/gpe/ms_payment_api/repositories/PaymentRepository.java:20 | the same three-way reading for the checkout-session id |
| CommissionPayments.PaymentRepository.FindByAppointmentId | src/main/java/com/etna/gpe/ms_payment_api/repositories/PaymentRepository.java:26 | the same three-way reading for the appointment id |
| CommissionPayments.PaymentRepository.FindByUserIdAndStatus | src/main/java/com/etna/gpe/ms_payment_api/repositories/PaymentRepository.java:22 | exactly the stored records of the user with the status |
| CommissionPayments.PaymentRepository.FindByShopIdAndStatus | src/main/java/com/etna/gpe/ms_payment_api/repositories/PaymentRepository.java:24 | exactly the stored records of the shop with the status |
| CommissionPayments.PaymentRepository.FindExpiredRefundEligiblePayments | src/main/java/com/etna/gpe/ms_payment_api/repositories/PaymentRepository.java:28-29 | exactly the stored records with the status whose refund deadline is set and before now |
| CommissionPayments.PaymentRepository.UserRecords | src/main/java/com/etna/gpe/ms_payment_api/repositories/PaymentRepository.java:22 | exactly the stored records of the user |
| CommissionPayments.PaymentRepository.FindByUserIdOrderByCreatedAtDesc | src/main/java/com/etna/gpe/ms_payment_api/repositories/PaymentRepository.java:31-32 | exactly the user's records, each once, newest first |
| CommissionPayments.StatusQueriesPartition | src/main/java/com/etna/gpe/ms_payment_api/repositories/PaymentRepository.java:22 | queries for distinct statuses are disjoint, and the four together return every record of the user |
| Commissions.CommissionAmount | src/main/java/com/etna/gpe/ms_payment_api/services/PaymentService.java:47-49 | the commission has scale 2 and is amount × rate / 100 rounded HALF_UP |
| Commissions.InCents | src/main/java/com/etna/gpe/ms_payment_api/services/PaymentService.java:51-52 | `multiply(100).longValue()` truncates toward zero when the value fits |
| Commissions.CommissionCentsExact | src/main/java/com/etna/gpe/ms_payment_api/services/PaymentService.java:51 | a scale-2 commission converts to cents with no loss |
| Commissions.AmountCentsExact | src/main/java/com/etna/gpe/ms_payment_api/services/PaymentService.java:52 | an amount with at most 2 decimals converts to cents with no loss |
| Commissions.CommissionNonNegative | src/main/java/com/etna/gpe/ms_payment_api/services/PaymentService.java:47-49 | positive amount and rate never give a negative commission |
| Commissions.CommissionExample | src/test/java/com/etna/gpe/ms_payment_api/services/PaymentServiceTest.java:77-79 | 50.0 at 10.0 % is 5.00, i.e. 500 cents, on an amount of 5000 cents |
| Commissions.CommissionTieRoundsUp | src/main/java/com/etna/gpe/ms_payment_api/services/PaymentService.java:49 | 0.05 at 10 % is 0.005, which HALF_UP rounds to 0.01 |
| Commissions.LineItemName | src/main/java/com/etna/gpe/ms_payment_api/services/PaymentService.java:64 | the description when present, otherwise "Réservation" |
| Commissions.CheckoutParams | src/main/java/com/etna/gpe/ms_payment_api/services/PaymentService.java:55-77 | the session is in eur for the amount in cents, with the commission as application fee |
| Commissions.NewRecord | src/main/java/com/etna/gpe/ms_payment_api/services/PaymentService.java:80-93 | the record is PENDING in EUR with the session and intent ids, the request's amounts, commission and rate, and no refund deadline |
| Commissions.NoDeadlineNeverEligible | src/main/java/com/etna/gpe/ms_payment_api/services/PaymentService.java:126-133 | a record created and confirmed by this service is never refund-eligible, since no code sets its deadline |
| Commissions.ExpiredNotEligible | src/main/java/com/etna/gpe/ms_payment_api/services/PaymentService.java:126-133 | a passed deadline is never eligible, and eligibility at a later instant implies eligibility earlier |
| Commissions.RefundEligibleAt | src/main/java/com/etna/gpe/ms_payment_api/services/PaymentService.java:130-132 | an eligible payment is COMPLETED and not past its deadline, and a payment with no deadline is never eligible |
| Commissions.PaymentService.constructor | src/main/java/com/etna/gpe/ms_payment_api/services/PaymentService.java:25 | the service holds the repository, Connect service, gateway and broker it is given |
| Commissions.PaymentService.CreatePayment | src/main/java/com/etna/gpe/ms_payment_api/services/PaymentService.java:35-102 | no shop account or incomplete onboarding fail with no gateway call; otherwise one session on the shop's account is requested, a failure stores nothing, and success stores the PENDING record under the fresh id and returns its response |
| Commissions.PaymentService.ConfirmPayment | src/main/java/com/etna/gpe/ms_payment_api/services/PaymentService.java:107-121 | an unknown or ambiguous session changes nothing; otherwise the record is saved COMPLETED and PAYMENT_COMPLETED then APPOINTMENT_CONFIRMED are published, unless a message field (id, commission amount, payment-intent id) is null, in which case `Map.of` throws, the transaction rolls back and nothing is sent |
| Commissions.PaymentService.IsRefundEligible | src/main/java/com/etna/gpe/ms_payment_api/services/PaymentService.java:126-133 | an unknown payment is an error; otherwise true iff COMPLETED with a deadline still in the future |
| Webhook.DispatchOf | src/main/java/com/etna/gpe/ms_payment_api/controllers/StripeWebhookController.java:65-138 | a completed checkout with a session object confirms that session, an updated account with an account object synchronises it, and everything else is ignored |
| Webhook.ResponseStatus | src/main/java/com/etna/gpe/ms_payment_api/controllers/StripeWebhookController.java:35-60 | 400 iff the event could not be verified, 500 iff a handler threw, 200 otherwise |
| Webhook.ConfirmKeepsLookup | src/main/java/com/etna/gpe/ms_payment_api/controllers/StripeWebhookController.java:89-104 | after confirmation the session still finds exactly the confirmed record |
| Webhook.ConfirmIdempotentOnRecord | src/main/java/com/etna/gpe/ms_payment_api/services/PaymentService.java:108-121 | confirming an already COMPLETED record leaves it unchanged (no update stamp) |
| Webhook.StripeWebhookController.constructor | src/main/java/com/etna/gpe/ms_payment_api/controllers/StripeWebhookController.java:35-138 | the controller holds the two services it is given |
| Webhook.StripeWebhookController.HandleStripeWebhook | src/main/java/com/etna/gpe/ms_payment_api/controllers/StripeWebhookController.java:35-138 | an unverified event returns 400 and touches nothing; a checkout completion confirms that payment and returns 200, or returns 500 with nothing changed when the payment is missing, ambiguous or its messages cannot be built; an account update returns 200 after the account read and leaves the account table unchanged on a gateway failure or unknown account, otherwise synchronises exactly that account's row; other events return 200 with nothing changed |
| Webhook.StripeWebhookController.DeliverTwice | src/main/java/com/etna/gpe/ms_payment_api/controllers/StripeWebhookController.java:89-104 | a redelivered checkout completion is acknowledged twice with 200 and publishes the same two messages twice, since nothing deduplicates events; a record whose messages cannot be built gets 500 on both deliveries and nothing changes |
| Config.ValidateKey | src/main/java/com/etna/gpe/ms_payment_api/config/StripeConfig.java:28-38 | accepted iff the mode is neither "test" nor "live", or the key starts with the prefix the mode requires; a missing key in a checked mode is a NullPointerException, any other refusal a mismatch |
| Config.ModesExclusive | src/main/java/com/etna/gpe/ms_payment_api/config/StripeConfig.java:28-38 | no key is accepted in both test and live mode |
| Config.StripeSdk.constructor | src/main/java/com/etna/gpe/ms_payment_api/config/StripeConfig.java:25 | the SDK starts with no API key |
| Config.StripeConfig.constructor | src/main/java/com/etna/gpe/ms_payment_api/config/StripeConfig.java:23-39 | the configuration holds the mode and key it is given |
| Config.StripeConfig.Init | src/main/java/com/etna/gpe/ms_payment_api/config/StripeConfig.java:23-39 | the SDK key is assigned before the check, so it stays set even when start-up fails; the outcome is ValidateKey |
| Config.StartedConfigurationKey | src/main/java/com/etna/gpe/ms_payment_api/config/StripeConfig.java:28-38 | a configuration that started in test mode never holds a live key, and vice versa |
| Config.StripeConfig.IsTestMode | src/main/java/com/etna/gpe/ms_payment_api/config/StripeConfig.java:41-43 | in test mode the start-up check passes iff the key starts with "sk_test_" |
| Config.TestModeHoldsTestKey | src/main/java/com/etna/gpe/ms_payment_api/config/StripeConfig.java:28-32 | a configuration in test mode that passed its start-up check holds a test key and never a live one |
| Roles.RolesClientUserManagerPredicate | src/main/java/com/etna/gpe/mycloseshop/ms_payment_api/utils/predicates/roles/RolesPredicate.java:13-16 | the predicate accepts exactly USER, MANAGER and CLIENT |
| Roles.AdminRejected | src/main/java/com/etna/gpe/mycloseshop/ms_payment_api/utils/predicates/roles/RolesPredicate.java:14-15 | ADMIN and every other role are refused |
| Stripe.StripeApi.Send | src/main/java/com/etna/gpe/ms_payment_api/services/StripeConnectService.java:40-46 | each gateway request is appended to the request log |
| Common.Outbox.Publish | src/main/java/com/etna/gpe/ms_payment_api/services/RabbitMQService.java:54 | each message sent to the broker is appended to its log, after the earlier ones |

## Left out

- The Stripe SDK, its HTTP transport, webhook signature checking (`Webhook.constructEvent`), the shop-service REST calls and JWT handling are not executed. Each reply is a parameter and each request an entry in a log.
- RabbitMQ: each message is reduced to its kind and the payment it carries. The JSON serialisation and its swallowed `JsonProcessingException`, broker delivery failures and the `timestamp` field are not modelled. The `NullPointerException` that `Map.of` throws on a null value is modelled through `Commissions.MessageBuildable`.
- Fees.StripeFeeConfig.CalculateFeeAmount: the `double` percentage and `double` product are replaced by the exact rational, so binary floating-point rounding error is not captured; its contract only covers percentages in [0, 100].
- JPA merge semantics: calling `setId` on a detached object before `save` is modelled as a save of that same object. Lazy loading, flush ordering and the persistence context are not modelled.
- Every call reads a single `now`. `@Transactional` methods are atomic, and there is no concurrency: two requests racing on the same shop or session are not modelled.
- Null `userId`, `shopId` or `amount` arguments to `createCheckoutSession` are not modelled; the types make them non-null. Null `Boolean` flags in a gateway account object are not modelled either.
- The v2 payment entity class is not part of this model. Its fields come from its builder use in `PaymentService.java`, from `PaymentRepository.java` and from `RabbitMQService.java`; its timestamps are assumed to follow the same `@PrePersist`/`@PreUpdate` hooks as `Payment.java`.
- `findByStripeSessionId`, which `PaymentServiceImpl` calls, is not declared in `PaymentRepository.java`. It is modelled as the derived finder on the v1 `stripeSessionId` column.
- CommissionPayments.PaymentRepository.FindByUserIdOrderByCreatedAtDesc: takes a `Uuid`, whereas the declared parameter is a `Long` that could never match a UUID column.
- Payments.PaymentStore.FindByAppointmentId: weaker than "at most one payment per appointment", because no unique constraint exists; the `NonUnique` case is modelled instead.
- `PaymentServiceImpl.init`, which sets the SDK key when one is configured, is not modelled. `PaymentServiceImpl` declares `implements` on a class it does not implement; the model treats it as a standalone service.
- `StripeRedirectController` (line 40) also calls `handleCheckoutCompleted`. Its redirect logic is not modelled.
- Commissions.PaymentService.IsRefundEligible: the 48-hour refund window is not enforced anywhere in the code, and no code sets `refundEligibleUntil`, so the model has neither.
- The code keeps no processed-event ledger, no refund guard (it checks neither status nor deadline before refunding) and no partial-refund bookkeeping; the model has none either.
- Controllers other than the webhook controller, the security configuration, and the DTO-to-HTTP mapping are not modelled.

## Findings

| source | as written | input that shows it | evidently intended | confidence | as-written member | corrected member |
|---|---|---|---|---|---|---|
| src/main/java/com/etna/gpe/ms_payment_api/services/PaymentServiceImpl.java:248-252 | the direct attempt sets the application fee on the shared parameter builder, and the fallback (line 268) reuses that builder for a platform session | shop account "acct_1" whose direct-charge session is refused | a platform session, which has no connected account, carries no application fee | not executed | Checkout.FallbackCarriesFeeAsWritten | Checkout.PlatformAttemptsCarryNoFee |
