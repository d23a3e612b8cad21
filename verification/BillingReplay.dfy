/** Webhook deduplication over whole runs, and redelivery after a crash. */
module BillingReplay {
  import opened Common
  import opened Tiers
  import opened BillingModel

  // ---------- Repeats ----------

  /** `done` records when each event was processed, and is never pruned. */
  ghost function Noted(db: Db, done: map<EventId, int>, e: Event): map<EventId, int> {
    if Processes(db, e) then done[e.id := db.now] else done
  }

  ghost predicate Repeats(done: map<EventId, int>, e: Event) {
    e.Deliver? && e.id in done
  }

  /** The run with every repeat of a processed event removed. */
  ghost function Kept(db: Db, done: map<EventId, int>, es: seq<Event>): seq<Event>
    decreases |es|
  {
    if es == [] then []
    else if Repeats(done, es[0]) then Kept(db, done, es[1..])
    else [es[0]] + Kept(Step(db, es[0]), Noted(db, done, es[0]), es[1..])
  }

  /** Every repeat comes within the retention window of the event's recorded processing. */
  ghost predicate InTime(db: Db, done: map<EventId, int>, es: seq<Event>)
    decreases |es|
  {
    es == [] ||
    if Repeats(done, es[0])
    then db.now - done[es[0].id] <= 90 * 24 * 60 * 60 && InTime(db, done, es[1..])
    else InTime(Step(db, es[0]), Noted(db, done, es[0]), es[1..])
  }

  /** Weaker: no cleanup that ran more than the retention window after the processing precedes the
      repeat. `sweep` is the time of the last cleanup. */
  ghost predicate Unswept(db: Db, done: map<EventId, int>, sweep: int, es: seq<Event>)
    decreases |es|
  {
    es == [] ||
    if Repeats(done, es[0])
    then sweep - done[es[0].id] <= 90 * 24 * 60 * 60 && Unswept(db, done, sweep, es[1..])
    else Unswept(Step(db, es[0]), Noted(db, done, es[0]), if es[0].CleanupJob? then db.now else sweep, es[1..])
  }

  /** The markers are what the last cleanup left of `done`. */
  ghost predicate Tracks(db: Db, done: map<EventId, int>, sweep: int) {
    && sweep <= db.now
    && (forall id :: id in done ==> done[id] <= db.now)
    && (forall id :: id in db.markers <==> id in done && sweep - 90 * 24 * 60 * 60 <= done[id])
    && (forall id :: id in db.markers ==> db.markers[id] == done[id])
  }

  lemma {:induction false} InTimeIsUnswept(db: Db, done: map<EventId, int>, sweep: int, es: seq<Event>)
    requires sweep <= db.now && InTime(db, done, es)
    ensures Unswept(db, done, sweep, es)
    decreases |es|
  {
    if es != [] {
      if Repeats(done, es[0]) {
        InTimeIsUnswept(db, done, sweep, es[1..]);
      } else {
        ClockStep(db, es[0]);
        InTimeIsUnswept(
          Step(db, es[0]), Noted(db, done, es[0]), if es[0].CleanupJob? then db.now else sweep, es[1..]);
      }
    }
  }

  /** What a handler never touches: the clock, the markers and the mailbox. */
  lemma HandleFrame(db: Db, notice: Notice)
    requires Handle(db, notice).Ok?
    ensures var db' := Handle(db, notice).value;
            db'.now == db.now && db'.markers == db.markers && db'.outbox == db.outbox
  {
  }

  lemma ConfirmFrame(db: Db, u: UserId, session: Checkout, snapshot: StripeSub)
    requires Confirm(db, u, session, snapshot).Ok?
    ensures var db' := Confirm(db, u, session, snapshot).value;
            db'.now == db.now && db'.markers == db.markers && db'.outbox == db.outbox && db'.payments == db.payments
  {
  }

  lemma {:induction false} RemindFrame(db: Db, order: seq<UserId>)
    ensures var db' := Remind(db, order);
            db'.now == db.now && db'.markers == db.markers && db'.users == db.users && db'.payments == db.payments
    decreases |order|
  {
    if order != [] { RemindFrame(RemindOne(db, order[0]), order[1..]); }
  }

  /** Only deliveries and cleanups touch the markers, and only `Tick` moves the clock. */
  lemma ClockStep(db: Db, e: Event)
    ensures Step(db, e).now == if e.Tick? then db.now + e.seconds else db.now
    ensures Step(db, e).markers ==
            if Processes(db, e) then db.markers[e.id := db.now]
            else if e.CleanupJob? then Prune(db.markers, db.now)
            else db.markers
  {
    match e
    case Deliver(_, notice) => if Handle(db, notice).Ok? { HandleFrame(db, notice); }
    case ConfirmSession(u, session, snapshot) =>
      if Confirm(db, u, session, snapshot).Ok? { ConfirmFrame(db, u, session, snapshot); }
    case RemindJob(order) => RemindFrame(db, order);
    case _ =>
  }

  /** A cleanup keeps exactly the markers that are at most 90 days old, and keeps them as they are. */
  lemma MarkersPruned(db: Db, id: EventId)
    ensures var markers := Step(db, CleanupJob).markers;
            && (id in markers <==> id in db.markers && db.now - db.markers[id] <= 90 * 24 * 60 * 60)
            && (id in markers ==> markers[id] == db.markers[id])
  {
  }

  lemma TracksStep(db: Db, done: map<EventId, int>, sweep: int, e: Event)
    requires Tracks(db, done, sweep) && !Repeats(done, e)
    ensures Tracks(Step(db, e), Noted(db, done, e), if e.CleanupJob? then db.now else sweep)
  {
    ClockStep(db, e);
  }

  /** A repeat that no late cleanup precedes is skipped, so the run equals the run without it: rows,
      payments, tiers, markers and mails alike. */
  lemma {:induction false} RepeatsCollapse(db: Db, done: map<EventId, int>, sweep: int, es: seq<Event>)
    requires Tracks(db, done, sweep) && Unswept(db, done, sweep, es)
    ensures Run(db, es) == Run(db, Kept(db, done, es))
    decreases |es|
  {
    if es != [] {
      var e := es[0];
      if Repeats(done, e) {
        assert Step(db, e) == db;
        RepeatsCollapse(db, done, sweep, es[1..]);
      } else {
        var done' := Noted(db, done, e);
        TracksStep(db, done, sweep, e);
        RepeatsCollapse(Step(db, e), done', if e.CleanupJob? then db.now else sweep, es[1..]);
        assert ([e] + Kept(Step(db, e), done', es[1..]))[1..] == Kept(Step(db, e), done', es[1..]);
      }
    }
  }

  /** Webhook replay: when every repeat comes within 90 days of the event's processing, a run with
      cleanups, jobs and confirmations interleaved ends as the run without the repeats. */
  lemma ReplayWithinRetention(es: seq<Event>)
    requires InTime(Empty, map[], es)
    ensures Run(Empty, es) == Run(Empty, Kept(Empty, map[], es))
  {
    InTimeIsUnswept(Empty, map[], 0, es);
    RepeatsCollapse(Empty, map[], 0, es);
  }

  /** The window is exact: an invoice delivered again after `wait` seconds and a cleanup is paid
      once if and only if the wait does not exceed 90 days. */
  lemma InvoiceWindow(db: Db, id: EventId, invoice: Invoice, wait: nat)
    requires id !in db.markers
    requires invoice.subscription.Some? && FindByStripeId(db.subs, invoice.subscription.value).Some?
    ensures var es := [Deliver(id, InvoicePaid(invoice)), Tick(wait), CleanupJob, Deliver(id, InvoicePaid(invoice))];
            |Run(db, es).payments| == |db.payments| + (if wait <= 90 * 24 * 60 * 60 then 1 else 2)
  {
    var e := Deliver(id, InvoicePaid(invoice));
    var es := [e, Tick(wait), CleanupJob, e];
    var db1 := Step(db, e);
    var db2 := Step(db1, Tick(wait));
    var db3 := Step(db2, CleanupJob);
    assert es[1..] == [Tick(wait), CleanupJob, e] && es[1..][1..] == [CleanupJob, e] && es[1..][1..][1..] == [e];
    assert Run(db, es) == Run(db1, [Tick(wait), CleanupJob, e]) == Run(db2, [CleanupJob, e]) == Run(db3, [e]);
    assert Run(db3, [e]) == Step(db3, e);
    assert id in db3.markers <==> wait <= RETENTION;
  }

  // ---------- Crash before the marker ----------

  lemma CrashCheckout(db: Db, session: Checkout, snapshot: StripeSub, later: nat)
    requires Valid(db) && HandleCheckout(db, session, snapshot).Ok?
    ensures var committed := HandleCheckout(db, session, snapshot).value.(now := db.now + later);
            HandleCheckout(committed, session, snapshot) == Ok(committed)
  {
    var committed := HandleCheckout(db, session, snapshot).value.(now := db.now + later);
    if HandleCheckout(db, session, snapshot) != Ok(db) {
      var u := session.user.value;
      assert committed.subs[u] == FulfilledRow(snapshot, ExtractPeriod(snapshot).value, WebhookCancel(snapshot));
      assert committed.subs[u := committed.subs[u]] == committed.subs;
      if IsActive(snapshot.status) {
        assert SetTier(committed.users, u, PREMIUM_TIER_ID) == committed.users;
      }
    }
  }

  lemma CrashUpdated(db: Db, payload: StripeSub, refetched: StripeSub, later: nat)
    requires Valid(db) && HandleUpdated(db, payload, refetched).Ok?
    ensures var committed := HandleUpdated(db, payload, refetched).value.(now := db.now + later);
            HandleUpdated(committed, payload, refetched) == Ok(committed)
  {
    var committed := HandleUpdated(db, payload, refetched).value.(now := db.now + later);
    HandleValid(db, SubscriptionUpdated(payload, refetched));
    match FindByStripeId(db.subs, payload.id)
    case None =>
    case Some(u) =>
      FindIs(committed.subs, u);
      assert committed.subs[u := committed.subs[u]] == committed.subs;
      assert committed.users[u := committed.users[u]] == committed.users;
  }

  lemma CrashDeleted(db: Db, stripeId: StripeId, later: nat)
    requires Valid(db) && HandleDeleted(db, stripeId).Ok?
    ensures var committed := HandleDeleted(db, stripeId).value.(now := db.now + later);
            HandleDeleted(committed, stripeId) == Ok(committed)
  {
    var committed := HandleDeleted(db, stripeId).value.(now := db.now + later);
    HandleValid(db, SubscriptionDeleted(stripeId));
    match FindByStripeId(db.subs, stripeId)
    case None =>
    case Some(u) =>
      FindIs(committed.subs, u);
      assert committed.subs[u := committed.subs[u]] == committed.subs;
      assert committed.users[u := committed.users[u]] == committed.users;
  }

  /** The notice records a payment in this state. */
  ghost predicate Pays(db: Db, notice: Notice) {
    && notice.InvoicePaid? && notice.invoice.subscription.Some?
    && FindByStripeId(db.subs, notice.invoice.subscription.value).Some?
  }

  /** The handler committed, the process died before the marker, and the same notice is delivered
      again later: it succeeds and changes nothing, unless it records a payment. */
  lemma CrashRedelivery(db: Db, notice: Notice, later: nat)
    requires Valid(db) && Handle(db, notice).Ok?
    ensures var committed := Handle(db, notice).value.(now := db.now + later);
            Handle(committed, notice) == Ok(committed) <==> !Pays(db, notice)
  {
    var committed := Handle(db, notice).value.(now := db.now + later);
    match notice
    case CheckoutCompleted(session, snapshot) => CrashCheckout(db, session, snapshot, later);
    case SubscriptionUpdated(payload, refetched) => CrashUpdated(db, payload, refetched, later);
    case SubscriptionDeleted(stripeId) => CrashDeleted(db, stripeId, later);
    case InvoicePaid(invoice) =>
      if Pays(db, notice) {
        assert Handle(committed, notice).Ok?;
        assert |Handle(committed, notice).value.payments| == |committed.payments| + 1;
      }
    case OtherNotice =>
  }
}
