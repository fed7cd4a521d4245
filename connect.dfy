/**
 * `services/StripeConnectService.java`: onboarding of a shop's Connect
 * account. Creation is idempotent per shop, the status sync copies three
 * capability flags from the gateway, and `canReceivePayments` reads only the
 * local record.
 */
module Connect {
  import opened Common
  import opened Stripe
  import opened ShopAccounts

  /** The record a first `createStripeAccount` for `shopId` persists. */
  function NewAccountRow(shopId: Uuid, stripeAccountId: string, id: Uuid, now: Instant): (a: ShopStripeAccount)
    ensures a.shopId == shopId && a.stripeAccountId == stripeAccountId
    ensures !a.onboardingCompleted && !a.chargesEnabled && !a.payoutsEnabled
  {
    ShopStripeAccount(Some(id), shopId, stripeAccountId, false, false, false, Some(now), Some(now))
  }

  /**
   * The record after a status sync from gateway account `g`: the three flags
   * are copied (onboardingCompleted from detailsSubmitted) and, when that
   * changed anything, updatedAt is stamped.
   */
  function Synced(a: ShopStripeAccount, g: GatewayAccount, now: Instant): (b: ShopStripeAccount)
    ensures b.chargesEnabled == g.chargesEnabled
    ensures b.payoutsEnabled == g.payoutsEnabled
    ensures b.onboardingCompleted == g.detailsSubmitted
    ensures b.id == a.id && b.shopId == a.shopId && b.stripeAccountId == a.stripeAccountId
    ensures b.createdAt == a.createdAt
    ensures b.updatedAt == a.updatedAt || b.updatedAt == Some(now)
  {
    var c := a.(chargesEnabled := g.chargesEnabled, payoutsEnabled := g.payoutsEnabled,
                onboardingCompleted := g.detailsSubmitted);
    if c == a then a else c.(updatedAt := Some(now))
  }

  /** Syncing twice from the same gateway state changes nothing the second time. */
  lemma SyncedIdempotent(a: ShopStripeAccount, g: GatewayAccount, now: Instant, later: Instant)
    ensures Synced(Synced(a, g, now), g, later) == Synced(a, g, now)
  {
  }

  /** The synced record is one the database accepts in place of the stored one. */
  lemma SyncedAdmissible(rows: map<Uuid, ShopStripeAccount>, k: Uuid, g: GatewayAccount, now: Instant)
    requires k in rows && rows[k].id == Some(k) && rows[k].createdAt.Some? && UniqueKeys(rows)
    ensures Prepared(rows[k].(chargesEnabled := g.chargesEnabled, payoutsEnabled := g.payoutsEnabled,
                              onboardingCompleted := g.detailsSubmitted), rows, k, now)
            == Synced(rows[k], g, now)
    ensures Admissible(rows, Synced(rows[k], g, now))
  {
  }

  /**
   * After the synced record replaces the stored one, the shop's record is the
   * synced one, so whether it can take payments follows the gateway flags.
   */
  lemma SyncedReceives(rows: map<Uuid, ShopStripeAccount>, k: Uuid, b: ShopStripeAccount, after: map<Uuid, ShopStripeAccount>)
    requires k in rows && after == rows[k := b] && UniqueKeys(after) && b.shopId == rows[k].shopId
    ensures (exists j :: j in after && after[j].shopId == b.shopId &&
               after[j].chargesEnabled && after[j].onboardingCompleted)
            <==> (b.chargesEnabled && b.onboardingCompleted)
  {
    assert after[k] == b;
    if exists j :: j in after && after[j].shopId == b.shopId && after[j].chargesEnabled && after[j].onboardingCompleted {
      var j :| j in after && after[j].shopId == b.shopId && after[j].chargesEnabled && after[j].onboardingCompleted;
      assert j == k;
    }
  }

  class StripeConnectService {
    const repository: ShopStripeAccountRepository
    const stripe: StripeApi

    ghost predicate Valid()
      reads this, repository
    {
      repository.Valid()
    }

    constructor (repository: ShopStripeAccountRepository, stripe: StripeApi)
      requires repository.Valid()
      ensures Valid() && this.repository == repository && this.stripe == stripe
    {
      this.repository := repository;
      this.stripe := stripe;
    }

    /** `getShopStripeAccount`: a lookup by shop id, nothing more. */
    function GetShopStripeAccount(shopId: Uuid): (r: Option<ShopStripeAccount>)
      reads this, repository
      requires Valid()
      ensures r.Some? <==> exists k :: k in repository.rows && repository.rows[k].shopId == shopId
      ensures r.Some? ==> r.value in repository.rows.Values && r.value.shopId == shopId
    {
      repository.FindByShopId(shopId)
    }

    /**
     * `canReceivePayments`: the shop's record says charges are enabled and
     * onboarding is complete; false for a shop with no record.
     */
    function CanReceivePayments(shopId: Uuid): (r: bool)
      reads this, repository
      requires Valid()
      ensures r <==> exists k :: k in repository.rows && repository.rows[k].shopId == shopId &&
                       repository.rows[k].chargesEnabled && repository.rows[k].onboardingCompleted
    {
      match repository.FindByShopId(shopId)
      case Some(a) => a.chargesEnabled && a.onboardingCompleted
      case None => false
    }

    /**
     * `createStripeAccount`: a shop that already has a record gets it back
     * unchanged and no gateway account is created; otherwise an Express
     * account (FR, eur) is created and a record with all flags false persisted.
     */
    method CreateStripeAccount(shopId: Uuid, created: Reply<string>, freshId: Uuid, now: Instant)
      returns (r: Result<ShopStripeAccount>)
      requires Valid() && freshId !in repository.rows
      modifies repository, stripe
      ensures Valid()
      ensures old(repository.FindByShopId(shopId)).Some? ==>
        && r == Ok(old(repository.FindByShopId(shopId)).value)
        && repository.rows == old(repository.rows)
        && stripe.requests == old(stripe.requests)
      ensures old(repository.FindByShopId(shopId)).None? ==>
        stripe.requests == old(stripe.requests) + [CreateAccount("FR", "eur")]
      ensures old(repository.FindByShopId(shopId)).None? && created.Failed? ==>
        r == Err(StripeFailure) && repository.rows == old(repository.rows)
      ensures old(repository.FindByShopId(shopId)).None? && created.Replied? ==>
        var row := NewAccountRow(shopId, created.value, freshId, now);
        if Admissible(old(repository.rows), row)
        then r == Ok(row) && repository.rows == old(repository.rows)[freshId := row]
        else r == Err(DataIntegrityViolation) && repository.rows == old(repository.rows)
    {
      var existing := repository.FindByShopId(shopId);
      if existing.Some? {
        return Ok(existing.value);
      }
      stripe.Send(CreateAccount("FR", "eur"));
      if created.Failed? {
        return Err(StripeFailure);
      }
      var entity := new ShopStripeAccountEntity.Build(shopId, created.value);
      r := repository.Save(entity, freshId, now);
    }

    /**
     * `createOnboardingLink`: fails for a shop with no record before calling
     * the gateway; never touches the table.
     */
    method CreateOnboardingLink(shopId: Uuid, returnUrl: string, refreshUrl: string, link: Reply<string>)
      returns (r: Result<string>)
      requires Valid()
      modifies stripe
      ensures repository.FindByShopId(shopId).None? ==>
        r == Err(ConnectAccountMissing) && stripe.requests == old(stripe.requests)
      ensures repository.FindByShopId(shopId).Some? ==>
        && stripe.requests == old(stripe.requests) +
             [CreateAccountLink(repository.FindByShopId(shopId).value.stripeAccountId, refreshUrl, returnUrl)]
        && r == (if link.Replied? then Ok(link.value) else Err(StripeFailure))
    {
      var account := repository.FindByShopId(shopId);
      if account.None? {
        return Err(ConnectAccountMissing);
      }
      stripe.Send(CreateAccountLink(account.value.stripeAccountId, refreshUrl, returnUrl));
      if link.Failed? {
        return Err(StripeFailure);
      }
      r := Ok(link.value);
    }

    /**
     * `updateAccountStatus`: reads the account from the gateway first, then
     * looks the record up by Connect account id and copies the three flags.
     */
    method UpdateAccountStatus(stripeAccountId: string, retrieved: Reply<GatewayAccount>, now: Instant)
      returns (r: Result<()>)
      requires Valid()
      modifies repository, stripe
      ensures Valid()
      ensures stripe.requests == old(stripe.requests) + [RetrieveAccount(stripeAccountId)]
      ensures retrieved.Failed? ==> r == Err(StripeFailure) && repository.rows == old(repository.rows)
      ensures retrieved.Replied? && old(repository.FindByStripeAccountId(stripeAccountId)).None? ==>
        r == Err(ConnectAccountMissing) && repository.rows == old(repository.rows)
      ensures retrieved.Replied? && old(repository.FindByStripeAccountId(stripeAccountId)).Some? ==>
        var a := old(repository.FindByStripeAccountId(stripeAccountId)).value;
        && r == Ok(())
        && repository.rows == old(repository.rows)[a.id.value := Synced(a, retrieved.value, now)]
        && CanReceivePayments(a.shopId) == (retrieved.value.chargesEnabled && retrieved.value.detailsSubmitted)
    {
      stripe.Send(RetrieveAccount(stripeAccountId));
      if retrieved.Failed? {
        return Err(StripeFailure);
      }
      var found := repository.FindByStripeAccountId(stripeAccountId);
      if found.None? {
        return Err(ConnectAccountMissing);
      }
      var a := found.value;
      ghost var k :| k in repository.rows && repository.rows[k] == a;
      assert a.id == Some(k);
      ApplySync(a, retrieved.value, now);
      r := Ok(());
    }

    /** The three setters on the stored record, then `save`. */
    method ApplySync(a: ShopStripeAccount, g: GatewayAccount, now: Instant)
      requires Valid() && a.id.Some? && a.id.value in repository.rows && repository.rows[a.id.value] == a
      modifies repository
      ensures Valid()
      ensures repository.rows == old(repository.rows)[a.id.value := Synced(a, g, now)]
      ensures CanReceivePayments(a.shopId) == (g.chargesEnabled && g.detailsSubmitted)
    {
      var k := a.id.value;
      SyncedAdmissible(repository.rows, k, g, now);
      var entity := new ShopStripeAccountEntity.Load(a);
      entity.chargesEnabled := g.chargesEnabled;
      entity.payoutsEnabled := g.payoutsEnabled;
      entity.onboardingCompleted := g.detailsSubmitted;
      ghost var before := repository.rows;
      var saved := repository.Save(entity, k, now);
      assert repository.rows == before[k := Synced(a, g, now)];
      SyncedReceives(before, k, Synced(a, g, now), repository.rows);
    }
  }
}
