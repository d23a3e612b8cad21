/** What the order of deliveries decides. Stripe does not promise one, and the handlers keep no trace of
    when a notice was made. */
module BillingOrder {
  import opened Common
  import opened Tiers
  import opened BillingModel
  import BillingGrace

  ghost function Apply(db: Db, notice: Notice): Db {
    OrElse(Handle(db, notice), db)
  }

  predicate Concerns(notice: Notice, sid: StripeId) {
    match notice
    case CheckoutCompleted(session, _) => session.subscription == Some(sid)
    case SubscriptionUpdated(payload, _) => payload.id == sid
    case SubscriptionDeleted(id) => id == sid
    case InvoicePaid(invoice) => invoice.subscription == Some(sid)
    case OtherNotice => false
  }

  /** The part of a notice about an existing row that reaches the row, if it carries a period. */
  function Written(payload: StripeSub, refetched: StripeSub): Option<(Status, (int, int), bool)> {
    var source := PeriodSource(payload, refetched);
    match ExtractPeriod(source)
    case None => None
    case Some(period) => Some((source.status, period, WebhookCancel(source)))
  }

  /** Two updates must write the same or not at all; an update beside a deletion must say canceled; two
      invoices must make the same payment. Everything else commutes. */
  predicate Commute(u: UserId, now: int, a: Notice, b: Notice) {
    match a
    case SubscriptionUpdated(pa, ra) =>
      (match b
       case SubscriptionUpdated(pb, rb) =>
         Written(pa, ra).None? || Written(pb, rb).None? || Written(pa, ra) == Written(pb, rb)
       case SubscriptionDeleted(_) => Written(pa, ra).None? || Written(pa, ra).value.0.Canceled?
       case _ => true)
    case SubscriptionDeleted(_) =>
      (match b
       case SubscriptionUpdated(pb, rb) => Written(pb, rb).None? || Written(pb, rb).value.0.Canceled?
       case _ => true)
    case InvoicePaid(ia) =>
      (match b
       case InvoicePaid(ib) => PaymentFor(u, ia, now) == PaymentFor(u, ib, now)
       case _ => true)
    case _ => true
  }

  /** A notice about the row of `u`, without the lookup. */
  function Effect(db: Db, u: UserId, notice: Notice): Db
    requires u in db.subs
  {
    match notice
    case SubscriptionUpdated(payload, refetched) =>
      (match Written(payload, refetched)
       case None => db
       case Some((status, period, cancel)) =>
         db.(subs := db.subs[u := db.subs[u].(
               status := status, periodStart := period.0, periodEnd := period.1, cancelAtPeriodEnd := cancel)],
             users := SetTier(db.users, u, if IsActive(status) then PREMIUM_TIER_ID else FREE_TIER_ID)))
    case SubscriptionDeleted(_) =>
      db.(subs := db.subs[u := db.subs[u].(status := Canceled)], users := SetTier(db.users, u, FREE_TIER_ID))
    case InvoicePaid(invoice) => db.(payments := db.payments + [PaymentFor(u, invoice, db.now)])
    case _ => db
  }

  lemma ApplyIsEffect(db: Db, u: UserId, sid: StripeId, notice: Notice)
    requires FindByStripeId(db.subs, sid) == Some(u) && Concerns(notice, sid)
    ensures u in db.subs && Apply(db, notice) == Effect(db, u, notice)
  {
  }

  lemma EffectKeepsLookup(db: Db, u: UserId, sid: StripeId, notice: Notice)
    requires Unique(db.subs) && FindByStripeId(db.subs, sid) == Some(u)
    ensures u in db.subs && u in Effect(db, u, notice).subs
    ensures Unique(Effect(db, u, notice).subs) && FindByStripeId(Effect(db, u, notice).subs, sid) == Some(u)
  {
    FindIs(Effect(db, u, notice).subs, u);
  }

  lemma ApplyTwice(db: Db, u: UserId, sid: StripeId, a: Notice, b: Notice)
    requires Valid(db) && FindByStripeId(db.subs, sid) == Some(u) && Concerns(a, sid) && Concerns(b, sid)
    ensures u in db.subs && u in Effect(db, u, a).subs
    ensures Apply(Apply(db, a), b) == Effect(Effect(db, u, a), u, b)
  {
    ApplyIsEffect(db, u, sid, a);
    EffectKeepsLookup(db, u, sid, a);
    ApplyIsEffect(Effect(db, u, a), u, sid, b);
  }

  /** Two notices about one subscription that has a row end in the same state in either order if and only
      if they commute. */
  lemma OrderMatters(db: Db, u: UserId, sid: StripeId, a: Notice, b: Notice)
    requires Valid(db) && FindByStripeId(db.subs, sid) == Some(u) && Concerns(a, sid) && Concerns(b, sid)
    ensures Apply(Apply(db, a), b) == Apply(Apply(db, b), a) <==> Commute(u, db.now, a, b)
  {
    ApplyTwice(db, u, sid, a, b);
    ApplyTwice(db, u, sid, b, a);
    EffectsCommute(db, u, a, b);
  }

  lemma TierTwice(users: map<UserId, User>, u: UserId, first: int, second: int)
    requires u in users
    ensures SetTier(SetTier(users, u, first), u, second) == SetTier(users, u, second)
  {
    assert users[u := users[u].(tierId := first)][u := users[u].(tierId := second)]
        == users[u := users[u].(tierId := second)];
  }

  lemma EffectsCommute(db: Db, u: UserId, a: Notice, b: Notice)
    requires u in db.subs && u in db.users
    ensures u in Effect(db, u, a).subs && u in Effect(db, u, b).subs
    ensures Effect(Effect(db, u, a), u, b) == Effect(Effect(db, u, b), u, a) <==> Commute(u, db.now, a, b)
  {
    TierTwice(db.users, u, FREE_TIER_ID, FREE_TIER_ID);
    TierTwice(db.users, u, FREE_TIER_ID, PREMIUM_TIER_ID);
    TierTwice(db.users, u, PREMIUM_TIER_ID, FREE_TIER_ID);
    TierTwice(db.users, u, PREMIUM_TIER_ID, PREMIUM_TIER_ID);
    var ab, ba := Effect(Effect(db, u, a), u, b), Effect(Effect(db, u, b), u, a);
    if a.InvoicePaid? && b.InvoicePaid? {
      var n := |db.payments|;
      assert ab.payments[n] == PaymentFor(u, a.invoice, db.now) && ba.payments[n] == PaymentFor(u, b.invoice, db.now);
    } else {
      assert ab.subs[u] == ba.subs[u] ==> ab.subs == ba.subs;
    }
  }

  // ---------- Before the row exists ----------

  /** A notice that overtakes the checkout that creates the row is lost: an update or deletion handled
      first changes nothing, and the two orders end alike exactly if the update writes what the checkout
      wrote, and a lapsed one finds the user free. */
  lemma CheckoutOvertaken(
    db: Db, u: UserId, session: Checkout, snapshot: StripeSub, payload: StripeSub, refetched: StripeSub)
    requires Valid(db) && FindByStripeId(db.subs, snapshot.id).None? && payload.id == snapshot.id
    requires session == Checkout(true, Some(u), Some(snapshot.id)) && u in db.users && ExtractPeriod(snapshot).Some?
    ensures var checkout, update := CheckoutCompleted(session, snapshot), SubscriptionUpdated(payload, refetched);
            var written := Written(payload, refetched);
            && Apply(Apply(db, update), checkout) == Apply(db, checkout)
            && Apply(Apply(db, SubscriptionDeleted(snapshot.id)), checkout) == Apply(db, checkout)
            && (Apply(Apply(db, checkout), update) == Apply(db, checkout) <==>
                  written.None? ||
                  (&& written.value == (snapshot.status, ExtractPeriod(snapshot).value, WebhookCancel(snapshot))
                   && (IsActive(snapshot.status) || db.users[u].tierId == FREE_TIER_ID)))
  {
    var row := FulfilledRow(snapshot, ExtractPeriod(snapshot).value, WebhookCancel(snapshot));
    var checkout, update := CheckoutCompleted(session, snapshot), SubscriptionUpdated(payload, refetched);
    var after := Apply(db, checkout);
    FulfilValid(db, u, row);
    assert after == Fulfil(db, u, row).value && after.subs[u] == row;
    FindIs(after.subs, u);
    ApplyIsEffect(after, u, snapshot.id, update);
    if Written(payload, refetched).Some? { EffectStands(after, u, update); }
  }

  /** An update leaves a state as it was exactly if it writes what is there. */
  lemma EffectStands(db: Db, u: UserId, update: Notice)
    requires u in db.subs && u in db.users && update.SubscriptionUpdated?
    requires Written(update.payload, update.refetched).Some?
    ensures var (status, period, cancel) := Written(update.payload, update.refetched).value;
            Effect(db, u, update) == db <==>
              && status == db.subs[u].status && period == (db.subs[u].periodStart, db.subs[u].periodEnd)
              && cancel == db.subs[u].cancelAtPeriodEnd
              && db.users[u].tierId == (if IsActive(status) then PREMIUM_TIER_ID else FREE_TIER_ID)
  {
    var db' := Effect(db, u, update);
    assert db'.subs[u] == db.subs[u] ==> db'.subs == db.subs;
    assert db'.users[u] == db.users[u] ==> db'.users == db.users;
  }

  // ---------- A late update ----------

  /** An active update handled after the deletion restores the tier, and the demotion worker never takes
      it back, however long the period has been over. */
  lemma LateUpdateRestores(db: Db, u: UserId, payload: StripeSub, refetched: StripeSub, later: int)
    requires Valid(db) && FindByStripeId(db.subs, payload.id) == Some(u)
    requires payload.status.Active? && ExtractPeriod(payload).Some?
    ensures var db' := Apply(Apply(db, SubscriptionDeleted(payload.id)), SubscriptionUpdated(payload, refetched));
            BillingGrace.Premium(db', u) && u in db'.subs && !DemotionDue(db'.subs[u], later)
  {
    ApplyTwice(db, u, payload.id, SubscriptionDeleted(payload.id), SubscriptionUpdated(payload, refetched));
  }
}
