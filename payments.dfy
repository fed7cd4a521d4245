/**
 * `entity/Payment.java` and the part of `repositories/PaymentRepository.java`
 * that `PaymentServiceImpl` relies on: the checkout payment record (amount in
 * `long` cents, one Checkout session id), its lifecycle hooks, and the table
 * of those records with its NOT NULL and length constraints.
 */
module Payments {
  import opened Common
  import opened Status

  /** One row of `payment`; every reference-typed column may be null in the object. */
  datatype Payment = Payment(
    id: Option<Uuid>,
    amount: Long,
    currency: Option<string>,
    userId: Option<Uuid>,
    shopId: Option<Uuid>,
    appointmentId: Option<Uuid>,
    serviceId: Option<Uuid>,
    status: Option<PaymentStatus>,
    stripeSessionId: Option<string>,
    stripePaymentIntentId: Option<string>,
    stripeChargeId: Option<string>,
    createdAt: Option<Instant>,
    updatedAt: Option<Instant>)

  /**
   * The column constraints: amount, currency (at most 3 characters), user_id,
   * shop_id, status, created_at and updated_at are NOT NULL; the appointment,
   * the service and the three Stripe ids are optional. A status name is at
   * most 20 characters by construction (`PaymentStatus.Name`).
   */
  predicate Storable(p: Payment) {
    && p.currency.Some? && |p.currency.value| <= 3
    && p.userId.Some? && p.shopId.Some? && p.status.Some?
    && p.createdAt.Some? && p.updatedAt.Some?
  }

  /** The entity object: Lombok setters are assignments to these fields. */
  class PaymentEntity {
    var id: Option<Uuid>
    var amount: Long
    var currency: Option<string>
    var userId: Option<Uuid>
    var shopId: Option<Uuid>
    var appointmentId: Option<Uuid>
    var serviceId: Option<Uuid>
    var status: Option<PaymentStatus>
    var stripeSessionId: Option<string>
    var stripePaymentIntentId: Option<string>
    var stripeChargeId: Option<string>
    var createdAt: Option<Instant>
    var updatedAt: Option<Instant>

    function Row(): Payment
      reads this
    {
      Payment(id, amount, currency, userId, shopId, appointmentId, serviceId, status,
              stripeSessionId, stripePaymentIntentId, stripeChargeId, createdAt, updatedAt)
    }

    /** `new Payment()`: every reference field null, amount 0. */
    constructor ()
      ensures Row() == Payment(None, 0, None, None, None, None, None, None, None, None, None, None, None)
    {
      id, amount, currency, userId, shopId := None, 0, None, None, None;
      appointmentId, serviceId, status := None, None, None;
      stripeSessionId, stripePaymentIntentId, stripeChargeId := None, None, None;
      createdAt, updatedAt := None, None;
    }

    /** The managed instance a finder hands back for a stored row. */
    constructor Load(row: Payment)
      ensures Row() == row
    {
      id, amount, currency, userId, shopId := row.id, row.amount, row.currency, row.userId, row.shopId;
      appointmentId, serviceId, status := row.appointmentId, row.serviceId, row.status;
      stripeSessionId, stripePaymentIntentId, stripeChargeId :=
        row.stripeSessionId, row.stripePaymentIntentId, row.stripeChargeId;
      createdAt, updatedAt := row.createdAt, row.updatedAt;
    }

    /**
     * `@PrePersist prePersist`: both timestamps become the same instant,
     * whatever the caller had set; nothing else changes.
     */
    method PrePersist(now: Instant)
      modifies this
      ensures Row() == old(Row()).(createdAt := Some(now), updatedAt := Some(now))
    {
      createdAt := Some(now);
      updatedAt := Some(now);
    }

    /** `@PreUpdate preUpdate`: only updatedAt changes. */
    method PreUpdate(now: Instant)
      modifies this
      ensures Row() == old(Row()).(updatedAt := Some(now))
    {
      updatedAt := Some(now);
    }
  }

  /**
   * The row `save` writes for an entity whose state is `row`: an entity
   * without id gets the generated one; an entity whose id is not stored goes
   * through prePersist; a stored one goes through preUpdate only when it
   * differs from what is stored (dirty check).
   */
  function Prepared(row: Payment, rows: map<Uuid, Payment>, freshId: Uuid, now: Instant): Payment {
    if row.id.None? then row.(id := Some(freshId), createdAt := Some(now), updatedAt := Some(now))
    else if row.id.value !in rows then row.(createdAt := Some(now), updatedAt := Some(now))
    else if rows[row.id.value] == row then row
    else row.(updatedAt := Some(now))
  }

  /** Saving never changes the business fields of a record. */
  lemma PreparedKeepsBusinessFields(row: Payment, rows: map<Uuid, Payment>, freshId: Uuid, now: Instant)
    ensures var p := Prepared(row, rows, freshId, now);
      && p.id.Some?
      && (row.id.Some? ==> p.id == row.id)
      && p.(id := row.id, createdAt := row.createdAt, updatedAt := row.updatedAt) == row
  {
  }

  /** The `payment` table seen through the repository. */
  class PaymentStore {
    var rows: map<Uuid, Payment>

    ghost predicate Valid()
      reads this
    {
      forall k :: k in rows ==> rows[k].id == Some(k) && Storable(rows[k])
    }

    constructor ()
      ensures Valid() && rows == map[]
    {
      rows := map[];
    }

    /** `findById`. */
    function FindById(id: Uuid): (r: Option<Payment>)
      reads this
      requires Valid()
      ensures r.Some? <==> id in rows
      ensures r.Some? ==> r.value in rows.Values && r.value.id == Some(id) && Storable(r.value)
    {
      if id in rows then Some(rows[id]) else None
    }

    /** `findByStripeSessionId`: the derived single-result query on stripe_session_id. */
    function FindByStripeSessionId(sessionId: string): (r: Lookup<Payment>)
      reads this
      ensures r.Absent? <==> forall k :: k in rows ==> rows[k].stripeSessionId != Some(sessionId)
      ensures r.Found? ==> r.value in rows.Values && r.value.stripeSessionId == Some(sessionId)
      ensures r.NonUnique? <==>
        exists j, k :: j in rows && k in rows && j != k &&
          rows[j].stripeSessionId == Some(sessionId) && rows[k].stripeSessionId == Some(sessionId)
    {
      var matches := (p: Payment) => p.stripeSessionId == Some(sessionId);
      var r := FindOne(rows, matches);
      if r.Found? then FoundIsStored(rows, matches); r else r
    }

    /** `findByStripePaymentIntentId`. */
    function FindByStripePaymentIntentId(intentId: string): (r: Lookup<Payment>)
      reads this
      ensures r.Absent? <==> forall k :: k in rows ==> rows[k].stripePaymentIntentId != Some(intentId)
      ensures r.Found? ==> r.value in rows.Values && r.value.stripePaymentIntentId == Some(intentId)
      ensures r.NonUnique? <==>
        exists j, k :: j in rows && k in rows && j != k &&
          rows[j].stripePaymentIntentId == Some(intentId) && rows[k].stripePaymentIntentId == Some(intentId)
    {
      var matches := (p: Payment) => p.stripePaymentIntentId == Some(intentId);
      var r := FindOne(rows, matches);
      if r.Found? then FoundIsStored(rows, matches); r else r
    }

    /** `findByAppointmentId`. */
    function FindByAppointmentId(appointmentId: Uuid): (r: Lookup<Payment>)
      reads this
      ensures r.Absent? <==> forall k :: k in rows ==> rows[k].appointmentId != Some(appointmentId)
      ensures r.Found? ==> r.value in rows.Values && r.value.appointmentId == Some(appointmentId)
      ensures r.NonUnique? <==>
        exists j, k :: j in rows && k in rows && j != k &&
          rows[j].appointmentId == Some(appointmentId) && rows[k].appointmentId == Some(appointmentId)
    {
      var matches := (p: Payment) => p.appointmentId == Some(appointmentId);
      var r := FindOne(rows, matches);
      if r.Found? then FoundIsStored(rows, matches); r else r
    }

    /**
     * `save`: the entity goes through its lifecycle hook, then the row is
     * inserted or updated, unless it breaks a column constraint, in which
     * case the table is unchanged and a DataIntegrityViolationException is raised.
     */
    method Save(e: PaymentEntity, freshId: Uuid, now: Instant) returns (r: Result<Payment>)
      requires Valid()
      requires e.id.None? ==> freshId !in rows
      modifies this, e
      ensures Valid()
      ensures e.Row() == Prepared(old(e.Row()), old(rows), freshId, now)
      ensures r.Ok? <==> Storable(e.Row())
      ensures r.Ok? ==> r.value == e.Row() && rows == old(rows)[e.Row().id.value := e.Row()]
      ensures r.Err? ==> r.error == DataIntegrityViolation && rows == old(rows)
    {
      if e.id.None? {
        e.id := Some(freshId);
        e.PrePersist(now);
      } else if e.id.value !in rows {
        e.PrePersist(now);
      } else if rows[e.id.value] != e.Row() {
        e.PreUpdate(now);
      }
      var row := e.Row();
      if Storable(row) {
        rows := rows[row.id.value := row];
        r := Ok(row);
      } else {
        r := Err(DataIntegrityViolation);
      }
    }
  }

  /**
   * A found record is the only one with that key, and a finder answers
   * NonUnique as soon as two records share the key: stripe_session_id and
   * appointment_id carry no UNIQUE constraint.
   */
  lemma AppointmentLookupNonUnique(store: PaymentStore, j: Uuid, k: Uuid, appointmentId: Uuid)
    requires j in store.rows && k in store.rows && j != k
    requires store.rows[j].appointmentId == Some(appointmentId) && store.rows[k].appointmentId == Some(appointmentId)
    ensures store.FindByAppointmentId(appointmentId).NonUnique?
  {
  }
}
