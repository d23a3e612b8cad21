/** What billing does to the tiers of the account table, as events of the account model. */
module TierWrites {
  import opened Common
  import opened Tiers
  import opened BillingModel
  import A = AccountModel
  import AccountCoherence
  import BillingReplay

  /** The tier a processed webhook writes, and to whom. */
  ghost function TierWrite(db: Db, notice: Notice): Option<(UserId, int)> {
    match notice
    case CheckoutCompleted(session, snapshot) =>
      if Handle(db, notice).Ok? && session.paid && session.user.Some? && session.subscription.Some?
         && FindByStripeId(db.subs, session.subscription.value).None? && IsActive(snapshot.status)
      then Some((session.user.value, PREMIUM_TIER_ID)) else None
    case SubscriptionUpdated(payload, refetched) =>
      (match FindByStripeId(db.subs, payload.id)
       case Some(u) =>
         if ExtractPeriod(PeriodSource(payload, refetched)).None? then None
         else Some((u, if IsActive(PeriodSource(payload, refetched).status) then PREMIUM_TIER_ID else FREE_TIER_ID))
       case None => None)
    case SubscriptionDeleted(stripeId) =>
      (match FindByStripeId(db.subs, stripeId)
       case Some(u) => Some((u, FREE_TIER_ID))
       case None => None)
    case _ => None
  }

  /** A tier write, followed by the invalidation of the id key. */
  ghost function Touch(a: A.Accounts, write: Option<(UserId, int)>): A.Accounts {
    match write
    case Some((u, tierId)) => A.ChangeTier(a, u, tierId)
    case None => a
  }

  /** The tier a billing event other than the demotion job writes, and to whom. */
  ghost function WriteOf(db: Db, e: Event): Option<(UserId, int)> {
    match e
    case Deliver(id, notice) => if id in db.markers then None else TierWrite(db, notice)
    case ConfirmSession(u, session, snapshot) =>
      if Confirm(db, u, session, snapshot).Ok? && IsActive(snapshot.status) then Some((u, PREMIUM_TIER_ID)) else None
    case _ => None
  }

  lemma WriteIsStep(db: Db, e: Event)
    requires e.Deliver? || e.ConfirmSession? || e.RemindJob? || e.CleanupJob?
    ensures Step(db, e).users ==
            match WriteOf(db, e) case Some((u, tierId)) => SetTier(db.users, u, tierId) case None => db.users
    ensures Step(db, e).now == db.now
  {
    BillingReplay.ClockStep(db, e);
    if e.RemindJob? { BillingReplay.RemindFrame(db, e.order); }
  }

  /** The demotions of a list of users, as events of the account model. */
  function Demotions(order: seq<UserId>): seq<A.Event> {
    seq(|order|, i requires 0 <= i < |order| => A.Demoted(order[i]))
  }

  /** The demotion loop, one user further. */
  lemma DemotionsSnoc(a: A.Accounts, order: seq<UserId>, u: UserId)
    ensures A.Run(a, Demotions(order + [u])) == A.DemoteUser(A.Run(a, Demotions(order)), u)
  {
    assert Demotions(order + [u]) == Demotions(order) + [A.Demoted(u)];
    AccountCoherence.RunSplit(a, Demotions(order), [A.Demoted(u)]);
    var a' := A.Run(a, Demotions(order));
    assert A.Run(A.Step(a', A.Demoted(u)), []) == A.Step(a', A.Demoted(u));
  }

  /** After the loop exactly the listed users are on the free tier; the cached records stay. */
  lemma {:induction false} DemotionsUsers(a: A.Accounts, order: seq<UserId>)
    ensures var a' := A.Run(a, Demotions(order));
            && a'.now == a.now && a'.byId == a.byId && a'.byEmail == a.byEmail && a'.users.Keys == a.users.Keys
            && forall u :: u in a.users ==>
                 a'.users[u] == if u in order then a.users[u].(tierId := FREE_TIER_ID) else a.users[u]
    decreases |order|
  {
    if order != [] {
      var last := |order| - 1;
      DemotionsUsers(a, order[..last]);
      DemotionsSnoc(a, order[..last], order[last]);
      assert order == order[..last] + [order[last]];
    }
  }

  /** Visiting the due users one by one is the demotion step of the billing model. */
  lemma DemotionsDemote(a: A.Accounts, db: Db, order: seq<UserId>)
    requires a.users == db.users && forall u :: u in order <==> u in DueForDemotion(db)
    ensures A.Run(a, Demotions(order)).users == Demote(db).users
  {
    DemotionsUsers(a, order);
    var users := A.Run(a, Demotions(order)).users;
    assert users.Keys == Demote(db).users.Keys;
    forall u | u in users
      ensures users[u] == Demote(db).users[u]
    {
    }
  }
}
