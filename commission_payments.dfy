/**
 * `repositories/PaymentRepository.java` and the payment record that
 * `services/PaymentService.java` builds: a decimal amount, the commission
 * taken by the platform, one Checkout session id and a refund deadline. The
 * entity class of this record is not part of this model; its fields are the
 * ones the builder and the repository's queries name, and it is assumed to
 * carry the same lifecycle hooks as `entity/Payment.java`.
 */
module CommissionPayments {
  import opened Common
  import opened Status
  import opened Decimals

  datatype CommissionPayment = CommissionPayment(
    id: Option<Uuid>,
    stripePaymentIntentId: Option<string>,
    stripeCheckoutSessionId: Option<string>,
    userId: Uuid,
    shopId: Uuid,
    appointmentId: Option<Uuid>,
    amount: Decimal,
    commissionAmount: Option<Decimal>,
    commissionRate: Option<Decimal>,
    currency: string,
    status: PaymentStatus,
    description: Option<string>,
    refundEligibleUntil: Option<Instant>,
    createdAt: Option<Instant>,
    updatedAt: Option<Instant>)

  /**
   * The row `save` writes: a record without id gets the generated one and
   * both timestamps; a stored one gets a new updatedAt only when it differs
   * from what is stored.
   */
  function Prepared(p: CommissionPayment, rows: map<Uuid, CommissionPayment>, freshId: Uuid, now: Instant): CommissionPayment {
    if p.id.None? then p.(id := Some(freshId), createdAt := Some(now), updatedAt := Some(now))
    else if p.id.value !in rows then p.(createdAt := Some(now), updatedAt := Some(now))
    else if rows[p.id.value] == p then p
    else p.(updatedAt := Some(now))
  }

  /** Both timestamps are set: assumed NOT NULL, as in `entity/Payment.java`. */
  predicate Storable(p: CommissionPayment) {
    p.createdAt.Some? && p.updatedAt.Some?
  }

  /** `findExpiredRefundEligiblePayments`' predicate; a null deadline compares as unknown and never matches. */
  predicate DeadlinePassed(p: CommissionPayment, now: Instant) {
    p.refundEligibleUntil.Some? && p.refundEligibleUntil.value < now
  }

  /** Every timestamp in the sequence is set and none is later than the one before it. */
  ghost predicate NewestFirst(s: seq<CommissionPayment>) {
    forall i, j :: 0 <= i < j < |s| ==>
      s[i].createdAt.Some? && s[j].createdAt.Some? && s[j].createdAt.value <= s[i].createdAt.value
  }

  /** A non-empty set of stamped records has a newest member. */
  lemma {:induction false} NewestExists(s: set<CommissionPayment>)
    requires s != {} && forall p :: p in s ==> p.createdAt.Some?
    ensures exists p :: p in s && forall q :: q in s ==> q.createdAt.value <= p.createdAt.value
  {
    var x :| x in s;
    if s - {x} != {} {
      NewestExists(s - {x});
      var y :| y in s - {x} && forall q :: q in s - {x} ==> q.createdAt.value <= y.createdAt.value;
      if x.createdAt.value <= y.createdAt.value {
        assert forall q :: q in s ==> q.createdAt.value <= y.createdAt.value;
      } else {
        assert forall q :: q in s ==> q.createdAt.value <= x.createdAt.value;
      }
    } else {
      forall q | q in s ensures q == x {
        assert q !in s - {x};
      }
    }
  }

  /**
   * `ORDER BY createdAt DESC` over a set of records: every record once,
   * newest first. Records with the same timestamp come in an unspecified
   * order, so this is a ghost function.
   */
  ghost function NewestFirstOf(s: set<CommissionPayment>): (r: seq<CommissionPayment>)
    requires forall p :: p in s ==> p.createdAt.Some?
    ensures |r| == |s|
    ensures forall p :: p in r <==> p in s
    ensures forall i, j :: 0 <= i < j < |r| ==> r[i] != r[j]
    ensures NewestFirst(r)
    decreases |s|
  {
    if s == {} then []
    else
      NewestExists(s);
      var p :| p in s && forall q :: q in s ==> q.createdAt.value <= p.createdAt.value;
      var rest := NewestFirstOf(s - {p});
      assert forall j :: 0 <= j < |rest| ==> rest[j] in s - {p};
      [p] + rest
  }

  /** The repository over the payment table. */
  class PaymentRepository {
    var rows: map<Uuid, CommissionPayment>

    ghost predicate Valid()
      reads this
    {
      forall k :: k in rows ==> rows[k].id == Some(k) && Storable(rows[k])
    }

    constructor ()
      ensures Valid() && rows == map[]
    {
      rows := map[];
    }

    /** The rollback of a transaction: the table returns to what it held when the transaction began. */
    method Rollback(snapshot: map<Uuid, CommissionPayment>)
      requires forall k :: k in snapshot ==> snapshot[k].id == Some(k) && Storable(snapshot[k])
      modifies this
      ensures Valid() && rows == snapshot
    {
      rows := snapshot;
    }

    /**
     * `save`: the record after its hook, stored under its id; a
     * DataIntegrityViolationException, with the table unchanged, when a
     * timestamp is still null.
     */
    method Save(p: CommissionPayment, freshId: Uuid, now: Instant) returns (r: Result<CommissionPayment>)
      requires Valid()
      requires p.id.None? ==> freshId !in rows
      modifies this
      ensures Valid()
      ensures r.Ok? <==> Storable(Prepared(p, old(rows), freshId, now))
      ensures r.Ok? ==> var saved := Prepared(p, old(rows), freshId, now);
        r.value == saved && saved.id.Some? && rows == old(rows)[saved.id.value := saved]
      ensures r.Err? ==> r.error == DataIntegrityViolation && rows == old(rows)
    {
      var saved := Prepared(p, rows, freshId, now);
      if Storable(saved) {
        rows := rows[saved.id.value := saved];
        r := Ok(saved);
      } else {
        r := Err(DataIntegrityViolation);
      }
    }

    /** `findById`. */
    function FindById(id: Uuid): (r: Option<CommissionPayment>)
      reads this
      requires Valid()
      ensures r.Some? <==> id in rows
      ensures r.Some? ==> r.value in rows.Values && r.value.id == Some(id)
    {
      if id in rows then Some(rows[id]) else None
    }

    /** `findByStripePaymentIntentId`: a record with that PaymentIntent id, or empty. */
    function FindByStripePaymentIntentId(intentId: string): (r: Lookup<CommissionPayment>)
      reads this
      ensures r.Absent? <==> forall k :: k in rows ==> rows[k].stripePaymentIntentId != Some(intentId)
      ensures r.Found? ==> r.value in rows.Values && r.value.stripePaymentIntentId == Some(intentId)
      ensures r.NonUnique? <==>
        exists j, k :: j in rows && k in rows && j != k &&
          rows[j].stripePaymentIntentId == Some(intentId) && rows[k].stripePaymentIntentId == Some(intentId)
    {
      var matches := (p: CommissionPayment) => p.stripePaymentIntentId == Some(intentId);
      var r := FindOne(rows, matches);
      if r.Found? then FoundIsStored(rows, matches); r else r
    }

    /** `findByStripeCheckoutSessionId`: a record with that session id, or empty. */
    function FindByStripeCheckoutSessionId(sessionId: string): (r: Lookup<CommissionPayment>)
      reads this
      ensures r.Absent? <==> forall k :: k in rows ==> rows[k].stripeCheckoutSessionId != Some(sessionId)
      ensures r.Found? ==> r.value in rows.Values && r.value.stripeCheckoutSessionId == Some(sessionId)
      ensures r.NonUnique? <==>
        exists j, k :: j in rows && k in rows && j != k &&
          rows[j].stripeCheckoutSessionId == Some(sessionId) && rows[k].stripeCheckoutSessionId == Some(sessionId)
    {
      var matches := (p: CommissionPayment) => p.stripeCheckoutSessionId == Some(sessionId);
      var r := FindOne(rows, matches);
      if r.Found? then FoundIsStored(rows, matches); r else r
    }

    /** `findByAppointmentId`: a record for that appointment, or empty. */
    function FindByAppointmentId(appointmentId: Uuid): (r: Lookup<CommissionPayment>)
      reads this
      ensures r.Absent? <==> forall k :: k in rows ==> rows[k].appointmentId != Some(appointmentId)
      ensures r.Found? ==> r.value in rows.Values && r.value.appointmentId == Some(appointmentId)
      ensures r.NonUnique? <==>
        exists j, k :: j in rows && k in rows && j != k &&
          rows[j].appointmentId == Some(appointmentId) && rows[k].appointmentId == Some(appointmentId)
    {
      var matches := (p: CommissionPayment) => p.appointmentId == Some(appointmentId);
      var r := FindOne(rows, matches);
      if r.Found? then FoundIsStored(rows, matches); r else r
    }

    /** `findByUserIdAndStatus`: exactly the user's records in that status. */
    function FindByUserIdAndStatus(userId: Uuid, status: PaymentStatus): (r: set<CommissionPayment>)
      reads this
      ensures forall p :: p in r <==> p in rows.Values && p.userId == userId && p.status == status
    {
      set k | k in rows && rows[k].userId == userId && rows[k].status == status :: rows[k]
    }

    /** `findByShopIdAndStatus`: exactly the shop's records in that status. */
    function FindByShopIdAndStatus(shopId: Uuid, status: PaymentStatus): (r: set<CommissionPayment>)
      reads this
      ensures forall p :: p in r <==> p in rows.Values && p.shopId == shopId && p.status == status
    {
      set k | k in rows && rows[k].shopId == shopId && rows[k].status == status :: rows[k]
    }

    /** `findExpiredRefundEligiblePayments`: the records in that status whose refund deadline is before `now`. */
    function FindExpiredRefundEligiblePayments(status: PaymentStatus, now: Instant): (r: set<CommissionPayment>)
      reads this
      ensures forall p :: p in r <==> p in rows.Values && p.status == status && DeadlinePassed(p, now)
    {
      set k | k in rows && rows[k].status == status && DeadlinePassed(rows[k], now) :: rows[k]
    }

    /** The user's records; the argument of the ordered query below. */
    function UserRecords(userId: Uuid): (r: set<CommissionPayment>)
      reads this
      ensures forall p :: p in r <==> p in rows.Values && p.userId == userId
    {
      set k | k in rows && rows[k].userId == userId :: rows[k]
    }

    /**
     * `findByUserIdOrderByCreatedAtDesc`, with the user id as the UUID the
     * column holds: the user's records, each once, newest first.
     */
    ghost function FindByUserIdOrderByCreatedAtDesc(userId: Uuid): (r: seq<CommissionPayment>)
      reads this
      requires Valid()
      ensures forall p :: p in r <==> p in rows.Values && p.userId == userId
      ensures forall i, j :: 0 <= i < j < |r| ==> r[i] != r[j]
      ensures NewestFirst(r)
    {
      NewestFirstOf(UserRecords(userId))
    }
  }

  /**
   * The four status queries split a user's records: no record answers two
   * statuses, and together they return every record of the user.
   */
  lemma StatusQueriesPartition(repo: PaymentRepository, userId: Uuid, s1: PaymentStatus, s2: PaymentStatus)
    ensures s1 != s2 ==> repo.FindByUserIdAndStatus(userId, s1) * repo.FindByUserIdAndStatus(userId, s2) == {}
    ensures repo.FindByUserIdAndStatus(userId, Pending) + repo.FindByUserIdAndStatus(userId, Completed)
          + repo.FindByUserIdAndStatus(userId, Failed) + repo.FindByUserIdAndStatus(userId, Refunded)
          == repo.UserRecords(userId)
  {
    var all := repo.FindByUserIdAndStatus(userId, Pending) + repo.FindByUserIdAndStatus(userId, Completed)
             + repo.FindByUserIdAndStatus(userId, Failed) + repo.FindByUserIdAndStatus(userId, Refunded);
    forall p | p in repo.UserRecords(userId) ensures p in all {
      assert p.status in {Pending, Completed, Failed, Refunded};
    }
  }
}
