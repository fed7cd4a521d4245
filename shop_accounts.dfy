/**
 * `entity/ShopStripeAccount.java` and `repositories/ShopStripeAccountRepository.java`:
 * a shop's Connect account record, its JPA lifecycle hooks, and the table of
 * those records with its two UNIQUE keys, shop_id and stripe_account_id.
 */
module ShopAccounts {
  import opened Common

  /** One row of `shop_stripe_accounts`. */
  datatype ShopStripeAccount = ShopStripeAccount(
    id: Option<Uuid>,
    shopId: Uuid,
    stripeAccountId: string,
    onboardingCompleted: bool,
    chargesEnabled: bool,
    payoutsEnabled: bool,
    createdAt: Option<Instant>,
    updatedAt: Option<Instant>)

  /** The entity object: Lombok setters are assignments to these fields. */
  class ShopStripeAccountEntity {
    var id: Option<Uuid>
    var shopId: Uuid
    var stripeAccountId: string
    var onboardingCompleted: bool
    var chargesEnabled: bool
    var payoutsEnabled: bool
    var createdAt: Option<Instant>
    var updatedAt: Option<Instant>

    function Row(): ShopStripeAccount
      reads this
    {
      ShopStripeAccount(id, shopId, stripeAccountId, onboardingCompleted, chargesEnabled,
                        payoutsEnabled, createdAt, updatedAt)
    }

    /** The builder with only the two keys given: every flag takes its default, false. */
    constructor Build(shopId: Uuid, stripeAccountId: string)
      ensures Row() == ShopStripeAccount(None, shopId, stripeAccountId, false, false, false, None, None)
    {
      this.id := None;
      this.shopId := shopId;
      this.stripeAccountId := stripeAccountId;
      this.onboardingCompleted := false;
      this.chargesEnabled := false;
      this.payoutsEnabled := false;
      this.createdAt := None;
      this.updatedAt := None;
    }

    /** The managed instance a finder hands back for a stored row. */
    constructor Load(row: ShopStripeAccount)
      ensures Row() == row
    {
      this.id := row.id;
      this.shopId := row.shopId;
      this.stripeAccountId := row.stripeAccountId;
      this.onboardingCompleted := row.onboardingCompleted;
      this.chargesEnabled := row.chargesEnabled;
      this.payoutsEnabled := row.payoutsEnabled;
      this.createdAt := row.createdAt;
      this.updatedAt := row.updatedAt;
    }

    /** `@PrePersist onCreate`: both timestamps are set; nothing else changes. */
    method OnCreate(now: Instant)
      modifies this
      ensures Row() == old(Row()).(createdAt := Some(now), updatedAt := Some(now))
    {
      createdAt := Some(now);
      updatedAt := Some(now);
    }

    /** `@PreUpdate onUpdate`: only updatedAt changes. */
    method OnUpdate(now: Instant)
      modifies this
      ensures Row() == old(Row()).(updatedAt := Some(now))
    {
      updatedAt := Some(now);
    }
  }

  /** No two rows share a shop id, and no two share a Connect account id. */
  ghost predicate UniqueKeys(rows: map<Uuid, ShopStripeAccount>) {
    && (forall a, b :: a in rows && b in rows && rows[a].shopId == rows[b].shopId ==> a == b)
    && (forall a, b :: a in rows && b in rows && rows[a].stripeAccountId == rows[b].stripeAccountId ==> a == b)
  }

  /**
   * Whether the database accepts `row` as the row stored under its id: the
   * id and created_at are set (NOT NULL) and no other row holds the same
   * shop_id or stripe_account_id (UNIQUE).
   */
  predicate Admissible(rows: map<Uuid, ShopStripeAccount>, row: ShopStripeAccount) {
    && row.id.Some?
    && row.createdAt.Some?
    && forall k :: k in rows && k != row.id.value ==>
         rows[k].shopId != row.shopId && rows[k].stripeAccountId != row.stripeAccountId
  }

  /**
   * The row `save` writes for an entity whose state is `row`: a new entity
   * gets the generated id and goes through onCreate; a stored one goes
   * through onUpdate only when it differs from what is stored (dirty check).
   */
  function Prepared(row: ShopStripeAccount, rows: map<Uuid, ShopStripeAccount>, freshId: Uuid, now: Instant): ShopStripeAccount {
    if row.id.None? then row.(id := Some(freshId), createdAt := Some(now), updatedAt := Some(now))
    else if row.id.value !in rows then row.(createdAt := Some(now), updatedAt := Some(now))
    else if rows[row.id.value] == row then row
    else row.(updatedAt := Some(now))
  }

  class ShopStripeAccountRepository {
    var rows: map<Uuid, ShopStripeAccount>

    ghost predicate Valid()
      reads this
    {
      && (forall k :: k in rows ==> rows[k].id == Some(k) && rows[k].createdAt.Some?)
      && UniqueKeys(rows)
    }

    constructor ()
      ensures Valid() && rows == map[]
    {
      rows := map[];
    }

    /** `findByShopId`: the record with that shop id, or empty. */
    function FindByShopId(shopId: Uuid): (r: Option<ShopStripeAccount>)
      reads this
      requires Valid()
      ensures r.Some? <==> exists k :: k in rows && rows[k].shopId == shopId
      ensures r.Some? ==> exists k :: k in rows && rows[k] == r.value && r.value.shopId == shopId
    {
      match FindOne(rows, (a: ShopStripeAccount) => a.shopId == shopId)
      case Found(a) => Some(a)
      case _ => None
    }

    /** `findByStripeAccountId`: the record with that Connect account id, or empty. */
    function FindByStripeAccountId(stripeAccountId: string): (r: Option<ShopStripeAccount>)
      reads this
      requires Valid()
      ensures r.Some? <==> exists k :: k in rows && rows[k].stripeAccountId == stripeAccountId
      ensures r.Some? ==> exists k :: k in rows && rows[k] == r.value && r.value.stripeAccountId == stripeAccountId
    {
      match FindOne(rows, (a: ShopStripeAccount) => a.stripeAccountId == stripeAccountId)
      case Found(a) => Some(a)
      case _ => None
    }

    /** `existsByShopId`. */
    predicate ExistsByShopId(shopId: Uuid): (r: bool)
      reads this
      requires Valid()
      ensures r <==> FindByShopId(shopId).Some?
    {
      exists k :: k in rows && rows[k].shopId == shopId
    }

    /**
     * `save`: the entity goes through its lifecycle hook, then the row is
     * inserted or updated, unless the database refuses it, in which case the
     * table is unchanged and a DataIntegrityViolationException is raised.
     */
    method Save(e: ShopStripeAccountEntity, freshId: Uuid, now: Instant) returns (r: Result<ShopStripeAccount>)
      requires Valid()
      requires e.id.None? ==> freshId !in rows
      modifies this, e
      ensures Valid()
      ensures e.Row() == Prepared(old(e.Row()), old(rows), freshId, now)
      ensures r.Ok? <==> Admissible(old(rows), e.Row())
      ensures r.Ok? ==> r.value == e.Row() && rows == old(rows)[e.Row().id.value := e.Row()]
      ensures r.Err? ==> r.error == DataIntegrityViolation && rows == old(rows)
    {
      if e.id.None? {
        e.id := Some(freshId);
        e.OnCreate(now);
      } else if e.id.value !in rows {
        e.OnCreate(now);
      } else if rows[e.id.value] != e.Row() {
        e.OnUpdate(now);
      }
      var row := e.Row();
      if Admissible(rows, row) {
        rows := rows[row.id.value := row];
        r := Ok(row);
      } else {
        r := Err(DataIntegrityViolation);
      }
    }
  }

  /** A valid table never holds two records for one shop or for one Connect account. */
  lemma AtMostOneRecordPerKey(repo: ShopStripeAccountRepository, a: Uuid, b: Uuid)
    requires repo.Valid() && a in repo.rows && b in repo.rows && a != b
    ensures repo.rows[a].shopId != repo.rows[b].shopId
    ensures repo.rows[a].stripeAccountId != repo.rows[b].stripeAccountId
  {
  }
}
