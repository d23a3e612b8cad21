/** What happens to one user depends only on the events that concern that user. */
module BillingIsolation {
  import opened Common
  import opened Tiers
  import opened BillingModel
  import BillingReplay
  import BillingReminders

  /** Who each Stripe subscription belongs to, and whom each Stripe event id is about. */
  datatype World = World(owner: StripeId -> UserId, subject: EventId -> Option<UserId>)

  function Subject(w: World, notice: Notice): Option<UserId> {
    match notice
    case CheckoutCompleted(session, _) => session.user
    case SubscriptionUpdated(payload, _) => Some(w.owner(payload.id))
    case SubscriptionDeleted(stripeId) => Some(w.owner(stripeId))
    case InvoicePaid(invoice) => if invoice.subscription.Some? then Some(w.owner(invoice.subscription.value)) else None
    case OtherNotice => None
  }

  /** A session's subscription belongs to the session's user, and Stripe returns the subscription
      that was asked for. */
  predicate SessionOwned(w: World, session: Checkout, snapshot: StripeSub) {
    session.user.Some? && session.subscription.Some? ==>
      && snapshot.id == session.subscription.value
      && w.owner(snapshot.id) == session.user.value
  }

  predicate Owned(w: World, e: Event) {
    match e
    case Deliver(id, notice) =>
      && w.subject(id) == Subject(w, notice)
      && (notice.CheckoutCompleted? ==> SessionOwned(w, notice.session, notice.snapshot))
    case ConfirmSession(_, session, snapshot) => SessionOwned(w, session, snapshot)
    case _ => true
  }

  ghost predicate OwnedRun(w: World, es: seq<Event>) {
    forall i :: 0 <= i < |es| ==> Owned(w, es[i])
  }

  ghost predicate OwnedRows(w: World, db: Db) {
    forall u :: u in db.subs ==> w.owner(db.subs[u].stripeId) == u
  }

  /** What is left of an event in the world of `u` alone: events about others disappear, a reminder
      job keeps only `u`, clock and workers stay. */
  function Project(w: World, e: Event, u: UserId): seq<Event> {
    match e
    case Deliver(_, notice) => if Subject(w, notice) == Some(u) then [e] else []
    case ConfirmSession(v, _, _) => if v == u then [e] else []
    case RemindJob(order) => if u in order then [RemindJob([u])] else []
    case Register(account) => if account.id == u then [e] else []
    case Amend(account) => if account.id == u then [e] else []
    case _ => [e]
  }

  function ProjectRun(w: World, es: seq<Event>, u: UserId): seq<Event> {
    if es == [] then [] else Project(w, es[0], u) + ProjectRun(w, es[1..], u)
  }

  function PaymentsOf(payments: seq<Payment>, u: UserId): seq<Payment> {
    if payments == [] then []
    else
      var last := payments[|payments| - 1];
      PaymentsOf(payments[..|payments| - 1], u) + if last.owner == u then [last] else []
  }

  lemma PaymentSnoc(payments: seq<Payment>, p: Payment, u: UserId)
    ensures PaymentsOf(payments + [p], u) == PaymentsOf(payments, u) + if p.owner == u then [p] else []
  {
    assert (payments + [p])[..|payments|] == payments;
  }

  /** Two states that show `u` the same clock, account, row, payments and markers. */
  ghost predicate Alike(w: World, a: Db, b: Db, u: UserId) {
    && a.now == b.now
    && (u in a.users <==> u in b.users) && (u in a.users ==> a.users[u] == b.users[u])
    && (u in a.subs <==> u in b.subs) && (u in a.subs ==> a.subs[u] == b.subs[u])
    && PaymentsOf(a.payments, u) == PaymentsOf(b.payments, u)
    && (forall id :: w.subject(id) == Some(u) ==> (id in a.markers <==> id in b.markers))
    && (forall id :: w.subject(id) == Some(u) && id in a.markers ==> a.markers[id] == b.markers[id])
  }

  /** With owned rows, the lookup by Stripe id can only find the owner. */
  lemma FindOwned(w: World, db: Db, sid: StripeId)
    requires OwnedRows(w, db)
    ensures var u := w.owner(sid);
            FindByStripeId(db.subs, sid) == if u in db.subs && db.subs[u].stripeId == sid then Some(u) else None
  {
    var u := w.owner(sid);
    if u in db.subs && db.subs[u].stripeId == sid {
      assert exists v :: v in db.subs && db.subs[v].stripeId == sid;
    }
  }

  lemma FulfilOwned(w: World, db: Db, u: UserId, row: Subscription)
    requires OwnedRows(w, db) && w.owner(row.stripeId) == u
    ensures Fulfil(db, u, row).Ok? <==> u in db.users
    ensures Fulfil(db, u, row).Ok? ==> OwnedRows(w, Fulfil(db, u, row).value)
  {
  }

  /** A notice about another user leaves `u` as before. */
  lemma HandleOther(w: World, db: Db, id: EventId, notice: Notice, u: UserId)
    requires OwnedRows(w, db) && Owned(w, Deliver(id, notice)) && Subject(w, notice) != Some(u)
    requires Handle(db, notice).Ok?
    ensures Alike(w, Handle(db, notice).value, db, u) && OwnedRows(w, Handle(db, notice).value)
  {
    HandleOwned(w, db, id, notice);
    match notice
    case CheckoutCompleted(session, _) =>
      if session.subscription.Some? { FindOwned(w, db, session.subscription.value); }
    case SubscriptionUpdated(payload, _) => FindOwned(w, db, payload.id);
    case SubscriptionDeleted(sid) => FindOwned(w, db, sid);
    case InvoicePaid(invoice) =>
      if Handle(db, notice) != Ok(db) {
        FindOwned(w, db, invoice.subscription.value);
        PaymentSnoc(db.payments, PaymentFor(w.owner(invoice.subscription.value), invoice, db.now), u);
      }
    case OtherNotice =>
  }

  lemma HandleOwned(w: World, db: Db, id: EventId, notice: Notice)
    requires OwnedRows(w, db) && Owned(w, Deliver(id, notice)) && Handle(db, notice).Ok?
    ensures OwnedRows(w, Handle(db, notice).value)
  {
    match notice
    case CheckoutCompleted(session, snapshot) =>
      if Handle(db, notice) != Ok(db) {
        var row := FulfilledRow(snapshot, ExtractPeriod(snapshot).value, WebhookCancel(snapshot));
        FulfilOwned(w, db, session.user.value, row);
      }
    case _ =>
  }

  lemma FulfilAlike(w: World, a: Db, b: Db, u: UserId, row: Subscription)
    requires Alike(w, a, b, u) && OwnedRows(w, a) && OwnedRows(w, b) && w.owner(row.stripeId) == u
    ensures Fulfil(a, u, row).Ok? <==> Fulfil(b, u, row).Ok?
    ensures Fulfil(a, u, row).Ok? ==> Alike(w, Fulfil(a, u, row).value, Fulfil(b, u, row).value, u)
  {
    FulfilOwned(w, a, u, row);
    FulfilOwned(w, b, u, row);
  }

  /** A notice about `u` succeeds or fails alike in alike states and leaves them alike. */
  lemma HandleAlike(w: World, a: Db, b: Db, id: EventId, notice: Notice, u: UserId)
    requires Alike(w, a, b, u) && OwnedRows(w, a) && OwnedRows(w, b)
    requires Owned(w, Deliver(id, notice)) && Subject(w, notice) == Some(u)
    ensures Handle(a, notice).Ok? <==> Handle(b, notice).Ok?
    ensures Handle(a, notice).Ok? ==> Alike(w, Handle(a, notice).value, Handle(b, notice).value, u)
  {
    match notice
    case CheckoutCompleted(session, snapshot) =>
      if session.subscription.Some? {
        FindOwned(w, a, session.subscription.value);
        FindOwned(w, b, session.subscription.value);
        if ExtractPeriod(snapshot).Some? {
          FulfilAlike(w, a, b, u, FulfilledRow(snapshot, ExtractPeriod(snapshot).value, WebhookCancel(snapshot)));
        }
      }
    case SubscriptionUpdated(payload, _) => FindOwned(w, a, payload.id); FindOwned(w, b, payload.id);
    case SubscriptionDeleted(sid) => FindOwned(w, a, sid); FindOwned(w, b, sid);
    case InvoicePaid(invoice) =>
      var sid := invoice.subscription.value;
      FindOwned(w, a, sid);
      FindOwned(w, b, sid);
      PaymentSnoc(a.payments, PaymentFor(u, invoice, a.now), u);
      PaymentSnoc(b.payments, PaymentFor(u, invoice, b.now), u);
  }

  lemma {:induction false} RemindOwned(w: World, db: Db, order: seq<UserId>)
    requires OwnedRows(w, db)
    ensures OwnedRows(w, Remind(db, order))
    decreases |order|
  {
    if order != [] { RemindOwned(w, RemindOne(db, order[0]), order[1..]); }
  }

  lemma OwnedStep(w: World, db: Db, e: Event)
    requires OwnedRows(w, db) && Owned(w, e)
    ensures OwnedRows(w, Step(db, e))
  {
    match e
    case Deliver(id, notice) => if Handle(db, notice).Ok? { HandleOwned(w, db, id, notice); }
    case ConfirmSession(u, session, snapshot) =>
      if Confirm(db, u, session, snapshot).Ok? {
        FulfilOwned(w, db, u, FulfilledRow(snapshot, ExtractPeriod(snapshot).value, ConfirmCancel(snapshot)));
      }
    case RemindJob(order) => RemindOwned(w, db, order);
    case _ =>
  }

  /** A visited row changes its mark and nothing else. */
  lemma {:induction false} RemindRow(db: Db, order: seq<UserId>, u: UserId)
    requires NoRepeats(order) && u in order && (forall v :: v in order ==> v in db.users && v in db.subs)
    ensures u in Remind(db, order).subs && Remind(db, order).subs[u] == db.subs[u].(remindedAt := Some(db.now))
    decreases |order|
  {
    var db1 := RemindOne(db, order[0]);
    if u == order[0] {
      assert u !in order[1..];
      BillingReminders.RemindOutcome(db1, order[1..], u);
    } else {
      RemindRow(db1, order[1..], u);
    }
  }

  function Marked(db: Db, u: UserId): Db
    requires u in db.subs
  {
    db.(subs := db.subs[u := db.subs[u].(remindedAt := Some(db.now))])
  }

  /** All a reminder job does, as far as `u` can see. */
  lemma RemindSeen(w: World, db: Db, order: seq<UserId>, u: UserId)
    requires NoRepeats(order) && (forall v :: v in order ==> v in db.users && v in db.subs)
    ensures Alike(w, Remind(db, order), if u in order then Marked(db, u) else db, u)
  {
    BillingReminders.RemindOutcome(db, order, u);
    BillingReplay.RemindFrame(db, order);
    if u in order { RemindRow(db, order, u); }
  }

  lemma AlikeChain(w: World, a1: Db, a2: Db, b2: Db, b1: Db, u: UserId)
    requires Alike(w, a1, a2, u) && Alike(w, a2, b2, u) && Alike(w, b1, b2, u)
    ensures Alike(w, a1, b1, u)
  {
  }

  lemma ConfirmAlike(w: World, a: Db, b: Db, v: UserId, session: Checkout, snapshot: StripeSub, u: UserId)
    requires Alike(w, a, b, u) && OwnedRows(w, a) && OwnedRows(w, b) && SessionOwned(w, session, snapshot)
    ensures Alike(w, OrElse(Confirm(a, v, session, snapshot), a),
                  if v == u then OrElse(Confirm(b, v, session, snapshot), b) else b, u)
  {
    if session.user == Some(v) && session.subscription.Some? && ExtractPeriod(snapshot).Some? {
      var row := FulfilledRow(snapshot, ExtractPeriod(snapshot).value, ConfirmCancel(snapshot));
      if v == u {
        FulfilAlike(w, a, b, u, row);
      }
    }
  }

  lemma RemindAlike(w: World, a: Db, b: Db, order: seq<UserId>, u: UserId)
    requires Valid(a) && Enabled(a, RemindJob(order)) && Alike(w, a, b, u)
    ensures Alike(w, Remind(a, order), if u in order then Remind(b, [u]) else b, u)
  {
    RemindSeen(w, a, order, u);
    if u in order {
      RemindSeen(w, b, [u], u);
      AlikeChain(w, Remind(a, order), Marked(a, u), Marked(b, u), Remind(b, [u]), u);
    }
  }

  lemma DeliverAlike(w: World, a: Db, b: Db, id: EventId, notice: Notice, u: UserId)
    requires Alike(w, a, b, u) && OwnedRows(w, a) && OwnedRows(w, b) && Owned(w, Deliver(id, notice))
    ensures Alike(w, DeliverTo(a, id, notice),
                  if Subject(w, notice) == Some(u) then DeliverTo(b, id, notice) else b, u)
  {
    if Subject(w, notice) == Some(u) {
      HandleAlike(w, a, b, id, notice, u);
      if Handle(a, notice).Ok? {
        BillingReplay.HandleFrame(a, notice);
        BillingReplay.HandleFrame(b, notice);
      }
    } else if Handle(a, notice).Ok? {
      HandleOther(w, a, id, notice, u);
      BillingReplay.HandleFrame(a, notice);
    }
  }

  /** A step in the full world is matched by its projection in the world of `u`. */
  lemma StepAlike(w: World, a: Db, b: Db, e: Event, u: UserId)
    requires Valid(a) && Enabled(a, e) && Alike(w, a, b, u)
    requires OwnedRows(w, a) && OwnedRows(w, b) && Owned(w, e)
    ensures var p := Project(w, e, u);
            Alike(w, Step(a, e), if p == [] then b else Step(b, p[0]), u)
  {
    match e
    case Deliver(id, notice) => DeliverAlike(w, a, b, id, notice, u);
    case ConfirmSession(v, session, snapshot) => ConfirmAlike(w, a, b, v, session, snapshot, u);
    case RemindJob(order) => RemindAlike(w, a, b, order, u);
    case _ =>
  }

  /** The row, tier, payments and markers of `u` after a run are those after the run reduced to the
      events that concern `u`. */
  lemma {:induction false} IsolationOnRuns(w: World, a: Db, b: Db, es: seq<Event>, u: UserId)
    requires Valid(a) && EnabledRun(a, es) && Alike(w, a, b, u)
    requires OwnedRows(w, a) && OwnedRows(w, b) && OwnedRun(w, es)
    ensures Alike(w, Run(a, es), Run(b, ProjectRun(w, es, u)), u)
    decreases |es|
  {
    if es != [] {
      var e, rest := es[0], ProjectRun(w, es[1..], u);
      var p := Project(w, e, u);
      var b' := if p == [] then b else Step(b, p[0]);
      ValidStep(a, e);
      StepAlike(w, a, b, e, u);
      OwnedStep(w, a, e);
      if p != [] { ProjectedOwned(w, b, e, u); }
      IsolationOnRuns(w, Step(a, e), b', es[1..], u);
      assert p == [] ==> p + rest == rest;
      assert p != [] ==> (p + rest)[0] == p[0] && (p + rest)[1..] == rest;
    }
  }

  lemma ProjectedOwned(w: World, b: Db, e: Event, u: UserId)
    requires OwnedRows(w, b) && Owned(w, e) && Project(w, e, u) != []
    ensures OwnedRows(w, Step(b, Project(w, e, u)[0]))
  {
    OwnedStep(w, b, Project(w, e, u)[0]);
  }

  /** Two runs from scratch with the same events about `u` treat `u` alike, whatever else happens. */
  lemma OnlyOwnEventsMatter(w: World, es: seq<Event>, fs: seq<Event>, u: UserId)
    requires EnabledRun(Empty, es) && EnabledRun(Empty, fs) && OwnedRun(w, es) && OwnedRun(w, fs)
    requires ProjectRun(w, es, u) == ProjectRun(w, fs, u)
    ensures Alike(w, Run(Empty, es), Run(Empty, fs), u)
  {
    IsolationOnRuns(w, Empty, Empty, es, u);
    IsolationOnRuns(w, Empty, Empty, fs, u);
  }
}
