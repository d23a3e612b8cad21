/** Subscriptions, payments, webhook markers and user tiers as one value, with one function per
    webhook handler, fulfilment path and worker. */
module BillingModel {
  import opened Common
  import opened Tiers

  type StripeId = int
  type EventId = int

  const RETENTION := 90 * DAY

  /** Stripe's subscription statuses; the code compares strings, so an unlisted one is possible. */
  datatype Status =
    Active | Trialing | PastDue | Canceled | Unpaid | Incomplete | IncompleteExpired | Unlisted(name: int)

  predicate IsActive(status: Status) {
    status.Active? || status.Trialing?
  }

  /** One row of `subscriptions`. A user has at most one row, which is never deleted, so the row id
      is represented by the user id it is stored under. */
  datatype Subscription = Subscription(
    customer: int,
    stripeId: StripeId,
    tierId: int,
    status: Status,
    periodStart: int,
    periodEnd: int,
    cancelAtPeriodEnd: bool,
    remindedAt: Option<int>)

  datatype Payment = Payment(owner: UserId, invoice: int, intent: Option<int>, amount: int, currency: int, paidAt: int)

  datatype Mail = Mail(user: UserId, at: int)

  datatype Db = Db(
    now: int,
    users: map<UserId, User>,
    subs: map<UserId, Subscription>,
    payments: seq<Payment>,
    markers: map<EventId, int>,
    outbox: seq<Mail>)

  // ---------- What Stripe sends ----------

  /** A field of a Stripe object: absent or null, a number, or something else. */
  datatype Field = Missing | Num(n: int) | Other

  /** The two spellings a period bound may have, on an item or on the subscription. */
  datatype Period = Period(startSnake: Field, startCamel: Field, endSnake: Field, endCamel: Field)

  datatype StripeSub = StripeSub(
    id: StripeId,
    customer: int,
    status: Status,
    item: Option<Period>,
    top: Period,
    cancelSnake: Option<bool>,
    cancelCamel: Option<bool>)

  /** `user` is the client reference id, or else the user id in the metadata, or else absent. */
  datatype Checkout = Checkout(paid: bool, user: Option<UserId>, subscription: Option<StripeId>)

  datatype Invoice = Invoice(
    id: int,
    subscription: Option<StripeId>,
    amount: Option<int>,
    currency: Option<int>,
    intent: Option<int>,
    paidAt: Option<int>)

  const DEFAULT_CURRENCY := 0

  /** A webhook's content, with the snapshot the Stripe API returns while it is handled. */
  datatype Notice =
    | CheckoutCompleted(session: Checkout, snapshot: StripeSub)
    | SubscriptionUpdated(payload: StripeSub, refetched: StripeSub)
    | SubscriptionDeleted(stripeId: StripeId)
    | InvoicePaid(invoice: Invoice)
    | OtherNotice

  // ---------- Period extraction ----------

  function Coalesce(a: Field, b: Field): Field {
    if a.Missing? then b else a
  }

  function ItemOf(sub: StripeSub): Period {
    match sub.item
    case Some(p) => p
    case None => Period(Missing, Missing, Missing, Missing)
  }

  function ExtractPeriod(sub: StripeSub): Option<(int, int)> {
    var item := ItemOf(sub);
    var start := Coalesce(Coalesce(item.startSnake, item.startCamel), Coalesce(sub.top.startSnake, sub.top.startCamel));
    var end := Coalesce(Coalesce(item.endSnake, item.endCamel), Coalesce(sub.top.endSnake, sub.top.endCamel));
    if start.Num? && end.Num? then Some((start.n, end.n)) else None
  }

  /** `f` is the first of the fields that is there at all. */
  predicate Picks(fields: seq<Field>, f: Field) {
    exists i :: 0 <= i < |fields| && fields[i] == f && !f.Missing? && forall j :: 0 <= j < i ==> fields[j].Missing?
  }

  /** A period is found exactly when, for each of its bounds, the first spelling present (the item's
      before the subscription's) is a number; a value that is there but no number is not skipped. */
  lemma PeriodBounds(sub: StripeSub, start: int, end: int)
    ensures var item, top := ItemOf(sub), sub.top;
            ExtractPeriod(sub) == Some((start, end)) <==>
              && Picks([item.startSnake, item.startCamel, top.startSnake, top.startCamel], Num(start))
              && Picks([item.endSnake, item.endCamel, top.endSnake, top.endCamel], Num(end))
  {
    var item, top := ItemOf(sub), sub.top;
    PicksIsCoalesce(item.startSnake, item.startCamel, top.startSnake, top.startCamel, start);
    PicksIsCoalesce(item.endSnake, item.endCamel, top.endSnake, top.endCamel, end);
  }

  lemma PicksIsCoalesce(a: Field, b: Field, c: Field, d: Field, n: int)
    ensures Picks([a, b, c, d], Num(n)) <==> Coalesce(Coalesce(a, b), Coalesce(c, d)) == Num(n)
  {
    var fields := [a, b, c, d];
    assert fields[0] == a && fields[1] == b && fields[2] == c && fields[3] == d;
    if Coalesce(Coalesce(a, b), Coalesce(c, d)) == Num(n) {
      var i := if !a.Missing? then 0 else if !b.Missing? then 1 else if !c.Missing? then 2 else 3;
      assert fields[i] == Num(n);
    }
  }

  // ---------- Tables ----------

  ghost predicate Unique(subs: map<UserId, Subscription>) {
    forall u, v :: (u in subs && v in subs && subs[u].stripeId == subs[v].stripeId) ==> u == v
  }

  /** The constraints the table declares: one row per Stripe subscription, and a row's user exists. */
  ghost predicate Valid(db: Db) {
    && Unique(db.subs)
    && (forall u :: u in db.subs ==> u in db.users)
  }

  ghost function FindByStripeId(subs: map<UserId, Subscription>, sid: StripeId): Option<UserId> {
    if exists u :: u in subs && subs[u].stripeId == sid
    then var u :| u in subs && subs[u].stripeId == sid; Some(u)
    else None
  }

  /** Insert or replace the row of `u`; a violated constraint aborts the statement. */
  ghost function PutRow(db: Db, u: UserId, row: Subscription): Result<Db, Failure> {
    if u !in db.users then Err(Internal)
    else if exists v :: v in db.subs && v != u && db.subs[v].stripeId == row.stripeId then Err(Internal)
    else Ok(db.(subs := db.subs[u := row]))
  }

  /** `UPDATE users SET tierId`: no row, no effect. */
  function SetTier(users: map<UserId, User>, u: UserId, tierId: int): map<UserId, User> {
    if u in users then users[u := users[u].(tierId := tierId)] else users
  }

  // ---------- Fulfilment ----------

  function FulfilledRow(sub: StripeSub, period: (int, int), cancel: bool): Subscription {
    Subscription(sub.customer, sub.id, PREMIUM_TIER_ID, sub.status, period.0, period.1, cancel, None)
  }

  function OrFalse(a: Option<bool>): bool {
    a.Some? && a.value
  }

  /** The webhook reads one spelling of the cancellation flag, the confirm path both. */
  function WebhookCancel(sub: StripeSub): bool {
    OrFalse(sub.cancelSnake)
  }

  function ConfirmCancel(sub: StripeSub): bool {
    if sub.cancelSnake.Some? then sub.cancelSnake.value else OrFalse(sub.cancelCamel)
  }

  /** The transaction both fulfilment paths run: the row, and the premium tier if it is active. */
  ghost function Fulfil(db: Db, u: UserId, row: Subscription): Result<Db, Failure> {
    match PutRow(db, u, row)
    case Err(f) => Err(f)
    case Ok(db') => Ok(if IsActive(row.status) then db'.(users := SetTier(db'.users, u, PREMIUM_TIER_ID)) else db')
  }

  ghost function HandleCheckout(db: Db, session: Checkout, snapshot: StripeSub): Result<Db, Failure> {
    if !session.paid || session.user.None? || session.subscription.None? then Ok(db)
    else if FindByStripeId(db.subs, session.subscription.value).Some? then Ok(db)
    else
      match ExtractPeriod(snapshot)
      case None => Err(BadRequest)
      case Some(period) => Fulfil(db, session.user.value, FulfilledRow(snapshot, period, WebhookCancel(snapshot)))
  }

  /** The fallback a user calls after the redirect. */
  ghost function Confirm(db: Db, u: UserId, session: Checkout, snapshot: StripeSub): Result<Db, Failure> {
    if !session.paid then Err(BadRequest)
    else if session.user != Some(u) then Err(Forbidden)
    else if session.subscription.None? then Err(BadRequest)
    else
      match ExtractPeriod(snapshot)
      case None => Err(BadRequest)
      case Some(period) => Fulfil(db, u, FulfilledRow(snapshot, period, ConfirmCancel(snapshot)))
  }

  // ---------- The other handlers ----------

  /** The payload if it carries a period, otherwise the subscription fetched again. */
  function PeriodSource(payload: StripeSub, refetched: StripeSub): StripeSub {
    if ExtractPeriod(payload).Some? then payload else refetched
  }

  ghost function HandleUpdated(db: Db, payload: StripeSub, refetched: StripeSub): Result<Db, Failure> {
    match FindByStripeId(db.subs, payload.id)
    case None => Ok(db)
    case Some(u) =>
      var source := PeriodSource(payload, refetched);
      match ExtractPeriod(source)
      case None => Err(BadRequest)
      case Some(period) =>
        var row := db.subs[u].(
          status := source.status, periodStart := period.0, periodEnd := period.1,
          cancelAtPeriodEnd := WebhookCancel(source));
        var tier := if IsActive(source.status) then PREMIUM_TIER_ID else FREE_TIER_ID;
        Ok(db.(subs := db.subs[u := row], users := SetTier(db.users, u, tier)))
  }

  ghost function HandleDeleted(db: Db, stripeId: StripeId): Result<Db, Failure> {
    match FindByStripeId(db.subs, stripeId)
    case None => Ok(db)
    case Some(u) =>
      Ok(db.(subs := db.subs[u := db.subs[u].(status := Canceled)], users := SetTier(db.users, u, FREE_TIER_ID)))
  }

  function PaymentFor(u: UserId, invoice: Invoice, now: int): Payment {
    Payment(
      u, invoice.id, invoice.intent,
      if invoice.amount.Some? then invoice.amount.value else 0,
      if invoice.currency.Some? then invoice.currency.value else DEFAULT_CURRENCY,
      if invoice.paidAt.Some? then invoice.paidAt.value else now)
  }

  ghost function HandleInvoice(db: Db, invoice: Invoice): Result<Db, Failure> {
    if invoice.subscription.None? then Ok(db)
    else
      match FindByStripeId(db.subs, invoice.subscription.value)
      case None => Ok(db)
      case Some(u) => Ok(db.(payments := db.payments + [PaymentFor(u, invoice, db.now)]))
  }

  ghost function Handle(db: Db, notice: Notice): Result<Db, Failure> {
    match notice
    case CheckoutCompleted(session, snapshot) => HandleCheckout(db, session, snapshot)
    case SubscriptionUpdated(payload, refetched) => HandleUpdated(db, payload, refetched)
    case SubscriptionDeleted(stripeId) => HandleDeleted(db, stripeId)
    case InvoicePaid(invoice) => HandleInvoice(db, invoice)
    case OtherNotice => Ok(db)
  }

  // ---------- Workers ----------

  predicate ReminderDue(row: Subscription, now: int) {
    row.status.Active? && row.remindedAt.None? && now < row.periodEnd <= now + WEEK
  }

  predicate DemotionDue(row: Subscription, now: int) {
    && (row.status.Canceled? || row.status.PastDue? || row.status.Unpaid? || row.status.IncompleteExpired?)
    && row.periodEnd < now - WEEK
  }

  ghost function DueForReminder(db: Db): set<UserId> {
    set u | u in db.subs && ReminderDue(db.subs[u], db.now)
  }

  ghost function DueForDemotion(db: Db): set<UserId> {
    set u | u in db.subs && DemotionDue(db.subs[u], db.now)
  }

  /** Every due user falls to the free tier. */
  ghost function Demote(db: Db): Db {
    db.(users := map u | u in db.users ::
      if u in DueForDemotion(db) then db.users[u].(tierId := FREE_TIER_ID) else db.users[u])
  }

  /** One reminder: the mail, then the mark on the row. A row whose user is missing is skipped. */
  function RemindOne(db: Db, u: UserId): Db {
    if u in db.users && u in db.subs
    then db.(outbox := db.outbox + [Mail(u, db.now)], subs := db.subs[u := db.subs[u].(remindedAt := Some(db.now))])
    else db
  }

  function Remind(db: Db, order: seq<UserId>): Db
    decreases |order|
  {
    if order == [] then db else Remind(RemindOne(db, order[0]), order[1..])
  }

  function Prune(markers: map<EventId, int>, now: int): map<EventId, int> {
    markers - (set id | id in markers && markers[id] < now - RETENTION)
  }

  // ---------- Runs ----------

  /** `RemindJob` carries the order in which the finder returned the due rows. `Register` and `Amend`
      are what the account services do to the shared table: a new account, and a write to the profile,
      password or flags of an account. */
  datatype Event =
    | Deliver(id: EventId, notice: Notice)
    | ConfirmSession(user: UserId, session: Checkout, snapshot: StripeSub)
    | DemoteJob
    | RemindJob(order: seq<UserId>)
    | CleanupJob
    | Register(account: User)
    | Amend(account: User)
    | Tick(seconds: nat)

  function OrElse<T, E>(r: Result<T, E>, otherwise: T): T {
    match r
    case Ok(v) => v
    case Err(_) => otherwise
  }

  ghost predicate Processes(db: Db, e: Event) {
    e.Deliver? && e.id !in db.markers && Handle(db, e.notice).Ok?
  }

  /** A delivery whose marker exists is skipped; one that fails leaves neither effect nor marker. */
  ghost function DeliverTo(db: Db, id: EventId, notice: Notice): Db {
    if id in db.markers then db
    else
      match Handle(db, notice)
      case Err(_) => db
      case Ok(db') => db'.(markers := db'.markers[id := db.now])
  }

  ghost function Step(db: Db, e: Event): Db {
    match e
    case Deliver(id, notice) => DeliverTo(db, id, notice)
    case ConfirmSession(u, session, snapshot) => OrElse(Confirm(db, u, session, snapshot), db)
    case DemoteJob => Demote(db)
    case RemindJob(order) => Remind(db, order)
    case CleanupJob => db.(markers := Prune(db.markers, db.now))
    case Register(account) => db.(users := db.users[account.id := account])
    case Amend(account) => db.(users := db.users[account.id := account])
    case Tick(d) => db.(now := db.now + d)
  }

  predicate NoRepeats(order: seq<UserId>) {
    forall i, j :: 0 <= i < j < |order| ==> order[i] != order[j]
  }

  /** A reminder job visits the due rows once each; a new user starts on the free tier, and only
      billing writes a tier. */
  ghost predicate Enabled(db: Db, e: Event) {
    match e
    case RemindJob(order) => NoRepeats(order) && forall u :: u in order <==> u in DueForReminder(db)
    case Register(account) => account.id !in db.users && account.tierId == FREE_TIER_ID
    case Amend(account) => account.id in db.users && account.tierId == db.users[account.id].tierId
    case _ => true
  }

  ghost predicate EnabledRun(db: Db, es: seq<Event>)
    decreases |es|
  {
    es == [] || (Enabled(db, es[0]) && EnabledRun(Step(db, es[0]), es[1..]))
  }

  ghost function Run(db: Db, es: seq<Event>): Db
    decreases |es|
  {
    if es == [] then db else Run(Step(db, es[0]), es[1..])
  }

  /** A run in two parts. */
  lemma {:induction false} RunSplit(db: Db, es: seq<Event>, fs: seq<Event>)
    ensures Run(db, es + fs) == Run(Run(db, es), fs)
    ensures EnabledRun(db, es + fs) <==> EnabledRun(db, es) && EnabledRun(Run(db, es), fs)
    decreases |es|
  {
    if es == [] {
      assert es + fs == fs;
    } else {
      assert (es + fs)[1..] == es[1..] + fs;
      RunSplit(Step(db, es[0]), es[1..], fs);
    }
  }

  const Empty := Db(0, map[], map[], [], map[], [])

  // ---------- The table's constraints hold in every reachable state ----------

  /** The lookup by Stripe id is decided by the row that carries it. */
  lemma FindIs(subs: map<UserId, Subscription>, u: UserId)
    requires Unique(subs) && u in subs
    ensures FindByStripeId(subs, subs[u].stripeId) == Some(u)
  {
  }

  lemma FulfilValid(db: Db, u: UserId, row: Subscription)
    requires Valid(db) && Fulfil(db, u, row).Ok?
    ensures Valid(Fulfil(db, u, row).value)
  {
  }

  lemma HandleValid(db: Db, notice: Notice)
    requires Valid(db) && Handle(db, notice).Ok?
    ensures Valid(Handle(db, notice).value)
  {
    match notice
    case CheckoutCompleted(session, snapshot) =>
      if Handle(db, notice) != Ok(db) {
        var row := FulfilledRow(snapshot, ExtractPeriod(snapshot).value, WebhookCancel(snapshot));
        FulfilValid(db, session.user.value, row);
      }
    case _ =>
  }

  lemma {:induction false} RemindValid(db: Db, order: seq<UserId>)
    requires Valid(db)
    ensures Valid(Remind(db, order))
    decreases |order|
  {
    if order != [] { RemindValid(RemindOne(db, order[0]), order[1..]); }
  }

  lemma ValidStep(db: Db, e: Event)
    requires Valid(db)
    ensures Valid(Step(db, e))
  {
    match e
    case Deliver(_, notice) => if Handle(db, notice).Ok? { HandleValid(db, notice); }
    case ConfirmSession(u, session, snapshot) =>
      if Confirm(db, u, session, snapshot).Ok? {
        FulfilValid(db, u, FulfilledRow(snapshot, ExtractPeriod(snapshot).value, ConfirmCancel(snapshot)));
      }
    case RemindJob(order) => RemindValid(db, order);
    case _ =>
  }
}
