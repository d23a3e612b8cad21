/** Fulfilment paths and the tier every writer leaves. */
module BillingTiers {
  import opened Common
  import opened Tiers
  import opened BillingModel

  // ---------- Confluence of the two fulfilment paths ----------

  /** The paths may differ only in the cancellation flag they read. */
  predicate SameFlag(sub: StripeSub) {
    sub.cancelSnake.Some? || sub.cancelCamel != Some(true)
  }

  /** From a state with no row for the Stripe subscription, the webhook alone, the confirmation
      alone, and both in either order all end in the same state, provided the two paths read the
      same flag; otherwise the row of the webhook alone differs from the others whenever the
      snapshot can be fulfilled at all. */
  lemma FulfilmentConfluence(db: Db, u: UserId, session: Checkout, snapshot: StripeSub)
    requires Valid(db)
    requires session == Checkout(true, Some(u), Some(snapshot.id))
    requires FindByStripeId(db.subs, snapshot.id).None?
    ensures var hook := OrElse(HandleCheckout(db, session, snapshot), db);
            var confirm := OrElse(Confirm(db, u, session, snapshot), db);
            var both := OrElse(Confirm(hook, u, session, snapshot), hook);
            var swapped := OrElse(HandleCheckout(confirm, session, snapshot), confirm);
            && both == confirm && swapped == confirm
            && (hook == confirm <==> SameFlag(snapshot) || ExtractPeriod(snapshot).None? || u !in db.users)
  {
    var period := ExtractPeriod(snapshot);
    if period.Some? && u in db.users {
      var hookRow := FulfilledRow(snapshot, period.value, WebhookCancel(snapshot));
      var confirmRow := FulfilledRow(snapshot, period.value, ConfirmCancel(snapshot));
      FulfilOverwrites(db, u, hookRow, confirmRow);
      assert Fulfil(db, u, confirmRow).value.subs[u].stripeId == snapshot.id;
    }
  }

  /** A fulfilment over a fulfilment of the same subscription leaves the second row. */
  lemma FulfilOverwrites(db: Db, u: UserId, first: Subscription, second: Subscription)
    requires Valid(db) && u in db.users
    requires FindByStripeId(db.subs, first.stripeId).None?
    requires first.stripeId == second.stripeId && first.status == second.status
    ensures Fulfil(db, u, first).Ok? && Fulfil(db, u, second).Ok?
    ensures Fulfil(db, u, first).value.subs[u] == first && Fulfil(db, u, second).value.subs[u] == second
    ensures Fulfil(Fulfil(db, u, first).value, u, second) == Fulfil(db, u, second)
  {
    assert db.subs[u := first][u := second] == db.subs[u := second];
    if IsActive(first.status) {
      var users := SetTier(db.users, u, PREMIUM_TIER_ID);
      assert SetTier(users, u, PREMIUM_TIER_ID) == users;
    }
  }

  // ---------- The tier invariant ----------

  /** An active or trialing row makes its user premium; a premium user has a row. */
  ghost predicate TierInv(db: Db) {
    && (forall u :: u in db.subs && IsActive(db.subs[u].status) ==>
          u in db.users && db.users[u].tierId == PREMIUM_TIER_ID)
    && (forall u :: u in db.users && db.users[u].tierId == PREMIUM_TIER_ID ==> u in db.subs)
  }

  /** Premium exactly when the row is active or trialing. */
  ghost predicate ExactTier(db: Db) {
    forall u :: u in db.users ==>
      (db.users[u].tierId == PREMIUM_TIER_ID <==> u in db.subs && IsActive(db.subs[u].status))
  }

  lemma {:induction false} RemindKeepsStatus(db: Db, order: seq<UserId>)
    ensures var db' := Remind(db, order);
            && db'.users == db.users && db'.subs.Keys == db.subs.Keys
            && forall u :: u in db.subs ==> db'.subs[u].status == db.subs[u].status
    decreases |order|
  {
    if order != [] { RemindKeepsStatus(RemindOne(db, order[0]), order[1..]); }
  }

  lemma FulfilTier(db: Db, u: UserId, row: Subscription)
    requires Valid(db) && TierInv(db) && Fulfil(db, u, row).Ok?
    ensures TierInv(Fulfil(db, u, row).value)
  {
  }

  /** The equivalence survives a fulfilment exactly when the snapshot is active or trialing, or the
      user was not premium before: a lapsed snapshot replaces the row and leaves the tier. */
  lemma FulfilExactness(db: Db, u: UserId, row: Subscription)
    requires Valid(db) && ExactTier(db) && Fulfil(db, u, row).Ok?
    ensures ExactTier(Fulfil(db, u, row).value) <==> IsActive(row.status) || db.users[u].tierId != PREMIUM_TIER_ID
  {
    var db' := Fulfil(db, u, row).value;
    assert db'.subs[u] == row && u in db'.users;
  }

  lemma HandleTier(db: Db, notice: Notice)
    requires Valid(db) && TierInv(db) && Handle(db, notice).Ok?
    ensures TierInv(Handle(db, notice).value)
    ensures ExactTier(db) && !notice.CheckoutCompleted? ==> ExactTier(Handle(db, notice).value)
  {
    match notice
    case CheckoutCompleted(session, snapshot) =>
      if Handle(db, notice) != Ok(db) {
        var row := FulfilledRow(snapshot, ExtractPeriod(snapshot).value, WebhookCancel(snapshot));
        FulfilTier(db, session.user.value, row);
      }
    case _ =>
  }

  lemma TierStep(db: Db, e: Event)
    requires Valid(db) && TierInv(db) && Enabled(db, e)
    ensures TierInv(Step(db, e))
  {
    match e
    case Deliver(_, notice) => if Handle(db, notice).Ok? { HandleTier(db, notice); }
    case ConfirmSession(u, session, snapshot) =>
      if Confirm(db, u, session, snapshot).Ok? {
        FulfilTier(db, u, FulfilledRow(snapshot, ExtractPeriod(snapshot).value, ConfirmCancel(snapshot)));
      }
    case RemindJob(order) => RemindKeepsStatus(db, order);
    case _ =>
  }

  // ---------- Lapsed fulfilments ----------

  /** Nobody but `u` has a row with that Stripe id, and `u` exists. */
  ghost predicate RowFree(db: Db, u: UserId, sid: StripeId) {
    u in db.users && forall v :: v in db.subs && db.subs[v].stripeId == sid ==> v == u
  }

  ghost predicate WritesLapsed(db: Db, u: UserId, snapshot: StripeSub) {
    && RowFree(db, u, snapshot.id) && ExtractPeriod(snapshot).Some?
    && !IsActive(snapshot.status) && db.users[u].tierId == PREMIUM_TIER_ID
  }

  /** One of the fulfilment paths writes a lapsed snapshot over a premium user. */
  ghost predicate LapsedOverPremium(db: Db, e: Event) {
    match e
    case Deliver(id, CheckoutCompleted(session, snapshot)) =>
      && id !in db.markers && session.paid && session.user.Some? && session.subscription.Some?
      && FindByStripeId(db.subs, session.subscription.value).None?
      && WritesLapsed(db, session.user.value, snapshot)
    case ConfirmSession(u, session, snapshot) =>
      session.paid && session.user == Some(u) && session.subscription.Some? && WritesLapsed(db, u, snapshot)
    case _ => false
  }

  lemma CheckoutExactness(db: Db, id: EventId, session: Checkout, snapshot: StripeSub)
    requires Valid(db) && ExactTier(db)
    ensures var e := Deliver(id, CheckoutCompleted(session, snapshot));
            ExactTier(Step(db, e)) <==> !LapsedOverPremium(db, e)
  {
    var notice := CheckoutCompleted(session, snapshot);
    if Handle(db, notice).Ok? && Handle(db, notice) != Ok(db) {
      var row := FulfilledRow(snapshot, ExtractPeriod(snapshot).value, WebhookCancel(snapshot));
      FulfilExactness(db, session.user.value, row);
    }
  }

  lemma ConfirmExactness(db: Db, u: UserId, session: Checkout, snapshot: StripeSub)
    requires Valid(db) && ExactTier(db)
    ensures var e := ConfirmSession(u, session, snapshot); ExactTier(Step(db, e)) <==> !LapsedOverPremium(db, e)
  {
    if Confirm(db, u, session, snapshot).Ok? {
      FulfilExactness(db, u, FulfilledRow(snapshot, ExtractPeriod(snapshot).value, ConfirmCancel(snapshot)));
    }
  }

  /** Premium goes on meaning active or trialing through every event but a lapsed fulfilment of a
      premium user. */
  lemma ExactnessStep(db: Db, e: Event)
    requires Valid(db) && TierInv(db) && ExactTier(db) && Enabled(db, e)
    ensures ExactTier(Step(db, e)) <==> !LapsedOverPremium(db, e)
  {
    match e
    case Deliver(id, CheckoutCompleted(session, snapshot)) => CheckoutExactness(db, id, session, snapshot);
    case Deliver(_, notice) => if Handle(db, notice).Ok? { HandleTier(db, notice); }
    case ConfirmSession(u, session, snapshot) => ConfirmExactness(db, u, session, snapshot);
    case RemindJob(order) => RemindKeepsStatus(db, order);
    case _ =>
  }

  ghost predicate ExactThroughout(db: Db, es: seq<Event>)
    decreases |es|
  {
    ExactTier(db) && (es == [] || ExactThroughout(Step(db, es[0]), es[1..]))
  }

  ghost predicate LapsedDuring(db: Db, es: seq<Event>)
    decreases |es|
  {
    es != [] && (LapsedOverPremium(db, es[0]) || LapsedDuring(Step(db, es[0]), es[1..]))
  }

  /** In every reachable state an active or trialing user is premium and a premium user has a row; and
      premium means exactly that throughout a run if and only if no fulfilment in it writes a lapsed
      snapshot over a premium user. */
  lemma {:induction false} TierOnRuns(db: Db, es: seq<Event>)
    requires Valid(db) && TierInv(db) && EnabledRun(db, es)
    ensures Valid(Run(db, es)) && TierInv(Run(db, es))
    ensures ExactTier(db) ==> (ExactThroughout(db, es) <==> !LapsedDuring(db, es))
    ensures ExactThroughout(db, es) ==> ExactTier(Run(db, es))
    decreases |es|
  {
    if es != [] {
      var db' := Step(db, es[0]);
      ValidStep(db, es[0]);
      TierStep(db, es[0]);
      if ExactTier(db) { ExactnessStep(db, es[0]); }
      TierOnRuns(db', es[1..]);
      assert !ExactTier(db') ==> !ExactThroughout(db', es[1..]);
    }
  }

  /** A fulfilled paid session retrieves its subscription as active or trialing. */
  predicate FulfilsActive(e: Event) {
    match e
    case Deliver(_, CheckoutCompleted(session, snapshot)) => session.paid ==> IsActive(snapshot.status)
    case ConfirmSession(_, session, snapshot) => session.paid ==> IsActive(snapshot.status)
    case _ => true
  }

  ghost predicate AllFulfilActive(es: seq<Event>) {
    forall i :: 0 <= i < |es| ==> FulfilsActive(es[i])
  }

  /** In particular: premium means active or trialing if every fulfilled session is retrieved so. */
  lemma {:induction false} ActiveNeverLapses(db: Db, es: seq<Event>)
    requires AllFulfilActive(es)
    ensures !LapsedDuring(db, es)
    decreases |es|
  {
    if es != [] {
      assert FulfilsActive(es[0]) && AllFulfilActive(es[1..]);
      ActiveNeverLapses(Step(db, es[0]), es[1..]);
    }
  }

  // ---------- Consequences ----------

  /** The guards in front of a Stripe checkout. */
  function CheckoutRefusal(db: Db, u: UserId): Option<Failure> {
    if u !in db.users then Some(NotFound)
    else if db.users[u].tierId == PREMIUM_TIER_ID then Some(Forbidden)
    else if u in db.subs && db.subs[u].status.Active? then Some(Forbidden)
    else None
  }

  /** A checkout is refused to every active and every trialing user, although the status test names
      only `active`: in reachable states the tier test alone decides. */
  lemma CheckoutRefusesSubscribers(db: Db, es: seq<Event>, u: UserId)
    requires Valid(db) && TierInv(db) && EnabledRun(db, es)
    ensures var r := Run(db, es);
            && (u in r.subs && IsActive(r.subs[u].status) ==> CheckoutRefusal(r, u) == Some(Forbidden))
            && (CheckoutRefusal(r, u).None? <==> u in r.users && r.users[u].tierId != PREMIUM_TIER_ID)
  {
    TierOnRuns(db, es);
  }

  /** The demotion worker changes a user exactly when a premium tier outlived a lapsed row; in
      particular never one that is active or trialing. */
  lemma DemotionTouches(db: Db, u: UserId)
    requires u in db.users
    ensures Demote(db).users[u] != db.users[u] <==>
              && u in db.subs && db.now - db.subs[u].periodEnd > 7 * 24 * 60 * 60
              && !IsActive(db.subs[u].status) && !db.subs[u].status.Incomplete? && !db.subs[u].status.Unlisted?
              && db.users[u].tierId != FREE_TIER_ID
    ensures u in db.subs && IsActive(db.subs[u].status) ==> Demote(db).users[u] == db.users[u]
  {
  }

  ghost predicate KnownTiers(db: Db) {
    forall u :: u in db.users ==> db.users[u].tierId == FREE_TIER_ID || db.users[u].tierId == PREMIUM_TIER_ID
  }

  lemma KnownTiersStep(db: Db, e: Event)
    requires KnownTiers(db) && Enabled(db, e)
    ensures KnownTiers(Step(db, e))
  {
    if e.RemindJob? { RemindKeepsStatus(db, e.order); }
  }

  lemma {:induction false} KnownTiersOnRuns(db: Db, es: seq<Event>)
    requires KnownTiers(db) && EnabledRun(db, es)
    ensures KnownTiers(Run(db, es))
    decreases |es|
  {
    if es != [] {
      KnownTiersStep(db, es[0]);
      KnownTiersOnRuns(Step(db, es[0]), es[1..]);
    }
  }

  /** Where premium means exactly active or trialing, the demotion worker has nothing to do. */
  lemma RedundantWhenExact(db: Db)
    requires ExactTier(db) && KnownTiers(db)
    ensures Demote(db) == db
  {
    forall u | u in db.users
      ensures Demote(db).users[u] == db.users[u]
    {
      DemotionTouches(db, u);
    }
    assert Demote(db).users == db.users;
  }

  /** If no fulfilment writes a lapsed snapshot over a premium user, the demotion worker has nothing to do
      in any reachable state. */
  lemma DemotionIsRedundant(es: seq<Event>)
    requires EnabledRun(Empty, es) && !LapsedDuring(Empty, es)
    ensures Demote(Run(Empty, es)) == Run(Empty, es)
  {
    TierOnRuns(Empty, es);
    KnownTiersOnRuns(Empty, es);
    RedundantWhenExact(Run(Empty, es));
  }
}
