/** When a premium user loses the tier, and how much of the seven days of grace the code grants. */
module BillingGrace {
  import opened Common
  import opened Tiers
  import opened BillingModel
  import BillingReplay
  import BillingTiers

  predicate Premium(db: Db, u: UserId) {
    u in db.users && db.users[u].tierId == PREMIUM_TIER_ID
  }

  /** A webhook not seen before says that the subscription of `u` is neither active nor trialing; an
      update must carry a period, in itself or when fetched again. */
  ghost predicate WebhookDowngrades(db: Db, e: Event, u: UserId) {
    match e
    case Deliver(id, SubscriptionUpdated(payload, refetched)) =>
      && id !in db.markers && FindByStripeId(db.subs, payload.id) == Some(u)
      && (ExtractPeriod(payload).Some? || ExtractPeriod(refetched).Some?)
      && !IsActive(PeriodSource(payload, refetched).status)
    case Deliver(id, SubscriptionDeleted(stripeId)) =>
      id !in db.markers && FindByStripeId(db.subs, stripeId) == Some(u)
    case _ => false
  }

  ghost predicate Downgrades(db: Db, e: Event, u: UserId) {
    WebhookDowngrades(db, e, u) || (e.DemoteJob? && u in DueForDemotion(db))
  }

  lemma HandleDowngrades(db: Db, id: EventId, notice: Notice, u: UserId)
    requires Valid(db) && Premium(db, u) && id !in db.markers && Handle(db, notice).Ok?
    ensures Premium(Handle(db, notice).value, u) <==> !WebhookDowngrades(db, Deliver(id, notice), u)
  {
  }

  /** A premium user loses the tier in a step if and only if a webhook or the worker downgrades the
      user in it. */
  lemma LosesPremiumExactly(db: Db, e: Event, u: UserId)
    requires Valid(db) && Enabled(db, e) && Premium(db, u)
    ensures Premium(Step(db, e), u) <==> !Downgrades(db, e, u)
  {
    match e
    case Deliver(id, notice) =>
      if Processes(db, e) { HandleDowngrades(db, id, notice, u); }
    case RemindJob(order) => BillingTiers.RemindKeepsStatus(db, order);
    case _ =>
  }

  ghost predicate PremiumThroughout(db: Db, es: seq<Event>, u: UserId)
    decreases |es|
  {
    Premium(db, u) && (es == [] || PremiumThroughout(Step(db, es[0]), es[1..], u))
  }

  ghost predicate DowngradedDuring(db: Db, es: seq<Event>, u: UserId)
    decreases |es|
  {
    es != [] && (Downgrades(db, es[0], u) || DowngradedDuring(Step(db, es[0]), es[1..], u))
  }

  /** On every run a premium user stays premium throughout if and only if nothing in it downgrades
      the user. */
  lemma {:induction false} PremiumUntilDowngraded(db: Db, es: seq<Event>, u: UserId)
    requires Valid(db) && EnabledRun(db, es) && Premium(db, u)
    ensures PremiumThroughout(db, es, u) <==> !DowngradedDuring(db, es, u)
    decreases |es|
  {
    if es != [] {
      var db' := Step(db, es[0]);
      ValidStep(db, es[0]);
      LosesPremiumExactly(db, es[0], u);
      if Premium(db', u) {
        PremiumUntilDowngraded(db', es[1..], u);
      } else {
        assert !PremiumThroughout(db', es[1..], u);
      }
    }
  }

  // ---------- The seven days ----------

  predicate InGrace(db: Db, u: UserId) {
    u in db.subs && db.now <= db.subs[u].periodEnd + 7 * 24 * 60 * 60
  }

  ghost predicate InGraceThroughout(db: Db, es: seq<Event>, u: UserId)
    decreases |es|
  {
    InGrace(db, u) && (es == [] || InGraceThroughout(Step(db, es[0]), es[1..], u))
  }

  ghost predicate WebhookDowngradesDuring(db: Db, es: seq<Event>, u: UserId)
    decreases |es|
  {
    es != [] && (WebhookDowngrades(db, es[0], u) || WebhookDowngradesDuring(Step(db, es[0]), es[1..], u))
  }

  /** The worker grants the seven days after the period's end, a webhook that reports a lapse does not:
      on every run that stays within them a premium user stays premium throughout if and only if no
      such webhook arrives. */
  lemma {:induction false} GraceExactly(db: Db, es: seq<Event>, u: UserId)
    requires Valid(db) && EnabledRun(db, es) && Premium(db, u) && InGraceThroughout(db, es, u)
    ensures PremiumThroughout(db, es, u) <==> !WebhookDowngradesDuring(db, es, u)
    decreases |es|
  {
    if es != [] {
      var db' := Step(db, es[0]);
      ValidStep(db, es[0]);
      LosesPremiumExactly(db, es[0], u);
      if Premium(db', u) {
        GraceExactly(db', es[1..], u);
      } else {
        assert !PremiumThroughout(db', es[1..], u);
      }
    }
  }

  ghost predicate KeepsPeriodEnd(db: Db, es: seq<Event>, u: UserId, end: int)
    decreases |es|
  {
    u in db.subs && db.subs[u].periodEnd == end && (es == [] || KeepsPeriodEnd(Step(db, es[0]), es[1..], u, end))
  }

  lemma {:induction false} ClockOnRuns(db: Db, es: seq<Event>)
    ensures db.now <= Run(db, es).now
    decreases |es|
  {
    if es != [] {
      BillingReplay.ClockStep(db, es[0]);
      ClockOnRuns(Step(db, es[0]), es[1..]);
    }
  }

  lemma {:induction false} GraceByTheClock(db: Db, es: seq<Event>, u: UserId, end: int)
    requires KeepsPeriodEnd(db, es, u, end) && Run(db, es).now <= end + 7 * 24 * 60 * 60
    ensures InGraceThroughout(db, es, u)
    decreases |es|
  {
    ClockOnRuns(db, es);
    if es != [] {
      GraceByTheClock(Step(db, es[0]), es[1..], u, end);
    }
  }

  /** The documented promise: while the row keeps its period end and the clock has not passed it by more
      than seven days, the tier is lost if and only if a webhook reports a lapse. */
  lemma SevenDaysOfGrace(db: Db, es: seq<Event>, u: UserId, end: int)
    requires Valid(db) && EnabledRun(db, es) && Premium(db, u)
    requires KeepsPeriodEnd(db, es, u, end) && Run(db, es).now <= end + 7 * 24 * 60 * 60
    ensures PremiumThroughout(db, es, u) <==> !WebhookDowngradesDuring(db, es, u)
  {
    GraceByTheClock(db, es, u, end);
    GraceExactly(db, es, u);
  }

  /** A past-due notice for any subscriber, at any time, ends the tier at once. */
  lemma PastDueEndsPremium(db: Db, id: EventId, payload: StripeSub, refetched: StripeSub, u: UserId)
    requires Valid(db) && Premium(db, u) && u in db.subs && id !in db.markers
    requires payload.id == db.subs[u].stripeId && payload.status.PastDue? && ExtractPeriod(payload).Some?
    ensures !Premium(Step(db, Deliver(id, SubscriptionUpdated(payload, refetched))), u)
  {
    FindIs(db.subs, u);
  }
}
