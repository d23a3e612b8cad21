/** What a webhook or confirmation leaves in the tables, field by field, and what it leaves alone. */
module BillingRecords {
  import opened Common
  import opened Tiers
  import opened BillingModel

  /** Every row but that of `u`, and every user but `u`, is as before; so are mails and markers. */
  ghost predicate OthersUntouched(db: Db, db': Db, u: UserId) {
    && db'.now == db.now && db'.markers == db.markers && db'.outbox == db.outbox
    && (forall v :: v != u ==> (v in db'.subs <==> v in db.subs) && (v in db.subs ==> db'.subs[v] == db.subs[v]))
    && (forall v :: (v in db'.users <==> v in db.users) && (v in db.users && v != u ==> db'.users[v] == db.users[v]))
  }

  ghost predicate TierIs(db: Db, db': Db, u: UserId, tierId: int) {
    u in db.users && u in db'.users && db'.users[u] == db.users[u].(tierId := tierId)
  }

  predicate PaysFor(status: Status) {
    status == Active || status == Trialing
  }

  /** The row of a fulfilment is the snapshot's, premium and not reminded; the tier follows an active or
      trialing snapshot and otherwise stays. */
  ghost predicate Fulfilled(db: Db, db': Db, u: UserId, snapshot: StripeSub, start: int, end: int, cancel: bool) {
    && OthersUntouched(db, db', u) && db'.payments == db.payments && u in db'.subs
    && var row := db'.subs[u];
       && row.customer == snapshot.customer && row.stripeId == snapshot.id
       && row.tierId == PREMIUM_TIER_ID && row.status == snapshot.status
       && row.periodStart == start && row.periodEnd == end
       && row.cancelAtPeriodEnd == cancel && row.remindedAt.None?
       && if PaysFor(snapshot.status) then TierIs(db, db', u, PREMIUM_TIER_ID) else db'.users == db.users
  }

  lemma CheckoutWrites(db: Db, u: UserId, session: Checkout, snapshot: StripeSub, start: int, end: int)
    requires session.paid && session.user == Some(u) && session.subscription.Some?
    requires forall v :: v in db.subs ==> db.subs[v].stripeId != session.subscription.value
    requires ExtractPeriod(snapshot) == Some((start, end)) && u in db.users
    requires forall v :: v in db.subs && v != u ==> db.subs[v].stripeId != snapshot.id
    ensures var r := HandleCheckout(db, session, snapshot);
            r.Ok? && Fulfilled(db, r.value, u, snapshot, start, end, snapshot.cancelSnake == Some(true))
  {
  }

  lemma ConfirmWrites(db: Db, u: UserId, session: Checkout, snapshot: StripeSub, start: int, end: int)
    requires session.paid && session.user == Some(u) && session.subscription.Some?
    requires ExtractPeriod(snapshot) == Some((start, end)) && u in db.users
    requires forall v :: v in db.subs && v != u ==> db.subs[v].stripeId != snapshot.id
    ensures var r := Confirm(db, u, session, snapshot);
            r.Ok? && Fulfilled(
              db, r.value, u, snapshot, start, end,
              snapshot.cancelSnake == Some(true) || (snapshot.cancelSnake.None? && snapshot.cancelCamel == Some(true)))
  {
  }

  /** An update rewrites status, period and flag of the row, and the tier; nothing else of the row. */
  lemma UpdateWrites(db: Db, u: UserId, payload: StripeSub, refetched: StripeSub, start: int, end: int)
    requires Valid(db) && u in db.subs && db.subs[u].stripeId == payload.id
    requires var source := if ExtractPeriod(payload).Some? then payload else refetched;
             ExtractPeriod(source) == Some((start, end))
    ensures var source := if ExtractPeriod(payload).Some? then payload else refetched;
            var r := HandleUpdated(db, payload, refetched);
            && r.Ok? && OthersUntouched(db, r.value, u) && r.value.payments == db.payments && u in r.value.subs
            && r.value.subs[u] == db.subs[u].(
                 status := source.status, periodStart := start, periodEnd := end,
                 cancelAtPeriodEnd := source.cancelSnake == Some(true))
            && TierIs(db, r.value, u, if PaysFor(source.status) then PREMIUM_TIER_ID else FREE_TIER_ID)
  {
    FindIs(db.subs, u);
  }

  lemma DeletionWrites(db: Db, u: UserId)
    requires Valid(db) && u in db.subs
    ensures var r := HandleDeleted(db, db.subs[u].stripeId);
            && r.Ok? && OthersUntouched(db, r.value, u) && r.value.payments == db.payments && u in r.value.subs
            && r.value.subs[u] == db.subs[u].(status := Canceled) && TierIs(db, r.value, u, FREE_TIER_ID)
  {
    FindIs(db.subs, u);
  }

  /** One payment for the row's user: the invoice's amount (0 if it has none), its currency (or the
      default), its time of payment (or now), and the invoice and intent ids. */
  lemma InvoiceRecords(db: Db, u: UserId, invoice: Invoice)
    requires Valid(db) && u in db.subs && invoice.subscription == Some(db.subs[u].stripeId)
    ensures var r := HandleInvoice(db, invoice);
            && r.Ok? && r.value == db.(payments := r.value.payments)
            && |r.value.payments| == |db.payments| + 1 && r.value.payments[..|db.payments|] == db.payments
            && var payment := r.value.payments[|db.payments|];
               && payment.owner == u && payment.invoice == invoice.id && payment.intent == invoice.intent
               && (invoice.amount.Some? ==> payment.amount == invoice.amount.value)
               && (invoice.amount.None? ==> payment.amount == 0)
               && (invoice.currency.Some? ==> payment.currency == invoice.currency.value)
               && (invoice.currency.None? ==> payment.currency == DEFAULT_CURRENCY)
               && (invoice.paidAt.Some? ==> payment.paidAt == invoice.paidAt.value)
               && (invoice.paidAt.None? ==> payment.paidAt == db.now)
  {
    FindIs(db.subs, u);
  }

  /** A notice about a subscription without a row, and a checkout that is unpaid, anonymous, without a
      subscription or already recorded, changes nothing. */
  lemma Ignored(db: Db, notice: Notice)
    requires match notice {
               case CheckoutCompleted(session, _) =>
                 !session.paid || session.user.None? || session.subscription.None?
                 || exists v :: v in db.subs && db.subs[v].stripeId == session.subscription.value
               case SubscriptionUpdated(payload, _) => forall v :: v in db.subs ==> db.subs[v].stripeId != payload.id
               case SubscriptionDeleted(sid) => forall v :: v in db.subs ==> db.subs[v].stripeId != sid
               case InvoicePaid(invoice) =>
                 invoice.subscription.None?
                 || forall v :: v in db.subs ==> db.subs[v].stripeId != invoice.subscription.value
               case OtherNotice => true
             }
    ensures Handle(db, notice) == Ok(db)
  {
  }
}
