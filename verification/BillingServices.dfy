/** The billing services and workers, each proved to take one step of the billing model and, where it
    writes a tier, one step of the account model. */
module BillingServices {
  import opened Common
  import opened Tiers
  import opened Repositories
  import opened BillingModel
  import opened TierWrites
  import BillingTiers
  import A = AccountModel
  import SharedUsers

  function ErrorOf<T>(r: Result<T, Failure>): Option<Failure> {
    match r
    case Ok(_) => None
    case Err(f) => Some(f)
  }

  /** The reminder loop, one user further. */
  lemma {:induction false} RemindSnoc(db: Db, order: seq<UserId>, u: UserId)
    ensures Remind(db, order + [u]) == RemindOne(Remind(db, order), u)
    decreases |order|
  {
    if order == [] {
      assert Remind(RemindOne(db, u), []) == RemindOne(db, u);
    } else {
      assert (order + [u])[1..] == order[1..] + [u];
      RemindSnoc(RemindOne(db, order[0]), order[1..], u);
    }
  }

  /** The constraints a fulfilment has to meet: the user exists, and no other row has the Stripe id. */
  ghost predicate Storable(users: map<UserId, User>, rows: map<UserId, Subscription>, u: UserId, sid: StripeId) {
    u in users && forall v :: v in rows && v != u ==> rows[v].stripeId != sid
  }

  class BillingBackend {
    const users: UserRepository
    const userCache: UserCache
    const subs: SubscriptionRepository
    const payments: PaymentRepository
    const processed: ProcessedStripeEventRepository
    const mailer: Mailer

    constructor (
      users: UserRepository, userCache: UserCache, subs: SubscriptionRepository,
      payments: PaymentRepository, processed: ProcessedStripeEventRepository, mailer: Mailer)
      ensures this.users == users && this.userCache == userCache && this.subs == subs
      ensures this.payments == payments && this.processed == processed && this.mailer == mailer
    {
      this.users, this.userCache, this.subs := users, userCache, subs;
      this.payments, this.processed, this.mailer := payments, processed, mailer;
    }

    /** The billing tables at a given instant. */
    ghost function View(now: int): Db
      reads users, subs, payments, processed, mailer
    {
      Db(now, users.users, subs.rows, payments.rows, processed.processedAt, mailer.outbox)
    }

    /** The account table and cache at a given instant. */
    ghost function Accounts(now: int): A.Accounts
      reads users, userCache
    {
      A.Accounts(now, users.users, userCache.byId, userCache.byEmail, userCache.demoted, userCache.tierWrittenAt)
    }

    /** Both at once, as the joint model has them. */
    ghost function Joint(now: int): SharedUsers.World
      reads users, userCache, subs, payments, processed, mailer
    {
      SharedUsers.World(View(now), Accounts(now))
    }

    // ---------- Fulfilment ----------

    method ChangeTier(now: int, u: UserId, tierId: int)
      modifies users, userCache
      ensures Accounts(now) == A.ChangeTier(old(Accounts(now)), u, tierId)
      ensures users.users == SetTier(old(users.users), u, tierId)
      ensures users.users ==
              if u in old(users.users) then old(users.users)[u := old(users.users)[u].(tierId := tierId)]
              else old(users.users)
      ensures userCache.byId == old(userCache.byId) - {u} && userCache.byEmail == old(userCache.byEmail)
    {
      if u in users.users {
        userCache.NoteTierWrite(now, u, false);
      }
      users.UpdateTier(u, tierId);
      userCache.InvalidateUser(u, None);
    }

    /** The transaction of both fulfilment paths, and the invalidation after it. */
    method FulfilWithTrx(now: int, u: UserId, row: Subscription) returns (ok: bool)
      requires Valid(View(now))
      modifies users, userCache, subs
      ensures ok == Fulfil(old(View(now)), u, row).Ok?
      ensures View(now) == OrElse(Fulfil(old(View(now)), u, row), old(View(now)))
      ensures Accounts(now) ==
              Touch(old(Accounts(now)), if ok && IsActive(row.status) then Some((u, PREMIUM_TIER_ID)) else None)
    {
      var existing := subs.FindByUserId(u);
      if existing.Some? {
        ok := subs.UpdateWithTrx(u, row);
      } else {
        ok := subs.CreateWithTrx(users.users.Keys, u, row);
      }
      if ok && IsActive(row.status) {
        ChangeTier(now, u, PREMIUM_TIER_ID);
      }
    }

    method HandleCheckoutCompleted(now: int, session: Checkout, snapshot: StripeSub) returns (refused: Option<Failure>)
      requires Valid(View(now))
      modifies users, userCache, subs
      ensures refused == ErrorOf(HandleCheckout(old(View(now)), session, snapshot))
      ensures refused == (
                if !session.paid || session.user.None? || session.subscription.None? then None
                else if exists v :: v in old(subs.rows) && old(subs.rows)[v].stripeId == session.subscription.value
                then None
                else if ExtractPeriod(snapshot).None? then Some(BadRequest)
                else if Storable(old(users.users), old(subs.rows), session.user.value, snapshot.id) then None
                else Some(Internal))
      ensures View(now) == OrElse(HandleCheckout(old(View(now)), session, snapshot), old(View(now)))
      ensures Accounts(now) ==
              Touch(old(Accounts(now)), TierWrite(old(View(now)), CheckoutCompleted(session, snapshot)))
    {
      if !session.paid || session.user.None? || session.subscription.None? {
        return None;
      }
      var existing := subs.FindByStripeSubscriptionId(session.subscription.value);
      if existing.Some? {
        return None;
      }
      var period := ExtractPeriod(snapshot);
      if period.None? {
        return Some(BadRequest);
      }
      var row := Subscription(
        snapshot.customer, snapshot.id, PREMIUM_TIER_ID, snapshot.status, period.value.0, period.value.1,
        if snapshot.cancelSnake.Some? then snapshot.cancelSnake.value else false, None);
      var ok := FulfilWithTrx(now, session.user.value, row);
      refused := if ok then None else Some(Internal);
    }

    method ConfirmCheckoutSession(now: int, configured: bool, u: UserId, session: Checkout, snapshot: StripeSub)
      returns (refused: Option<Failure>)
      requires Valid(View(now))
      modifies users, userCache, subs
      ensures refused ==
              if configured then ErrorOf(Confirm(old(View(now)), u, session, snapshot)) else Some(Unavailable)
      ensures refused == (
                if !configured then Some(Unavailable)
                else if !session.paid then Some(BadRequest)
                else if session.user != Some(u) then Some(Forbidden)
                else if session.subscription.None? || ExtractPeriod(snapshot).None? then Some(BadRequest)
                else if Storable(old(users.users), old(subs.rows), u, snapshot.id) then None
                else Some(Internal))
      ensures View(now) ==
              if configured then Step(old(View(now)), ConfirmSession(u, session, snapshot)) else old(View(now))
      ensures Accounts(now) ==
              Touch(old(Accounts(now)),
                    if refused.None? && IsActive(snapshot.status) then Some((u, PREMIUM_TIER_ID)) else None)
      ensures Joint(now) ==
              if configured
              then SharedUsers.Step(old(Joint(now)), SharedUsers.Money(ConfirmSession(u, session, snapshot)))
              else old(Joint(now))
    {
      SharedUsers.MoneyStep(Joint(now), ConfirmSession(u, session, snapshot));
      if !configured {
        return Some(Unavailable);
      }
      if !session.paid {
        return Some(BadRequest);
      }
      if session.user.None? || session.user.value != u {
        return Some(Forbidden);
      }
      if session.subscription.None? {
        return Some(BadRequest);
      }
      var period := ExtractPeriod(snapshot);
      if period.None? {
        return Some(BadRequest);
      }
      var cancel := false;
      if snapshot.cancelSnake.Some? {
        cancel := snapshot.cancelSnake.value;
      } else if snapshot.cancelCamel.Some? {
        cancel := snapshot.cancelCamel.value;
      }
      var row := Subscription(
        snapshot.customer, snapshot.id, PREMIUM_TIER_ID, snapshot.status, period.value.0, period.value.1, cancel, None);
      var ok := FulfilWithTrx(now, u, row);
      refused := if ok then None else Some(Internal);
    }

    // ---------- The other handlers ----------

    method HandleSubscriptionUpdated(now: int, payload: StripeSub, refetched: StripeSub)
      returns (refused: Option<Failure>)
      requires Valid(View(now))
      modifies users, userCache, subs
      ensures refused == ErrorOf(HandleUpdated(old(View(now)), payload, refetched))
      ensures refused == (
                if (forall v :: v in old(subs.rows) ==> old(subs.rows)[v].stripeId != payload.id) then None
                else if ExtractPeriod(payload).None? && ExtractPeriod(refetched).None? then Some(BadRequest)
                else None)
      ensures View(now) == OrElse(HandleUpdated(old(View(now)), payload, refetched), old(View(now)))
      ensures Accounts(now) ==
              Touch(old(Accounts(now)), TierWrite(old(View(now)), SubscriptionUpdated(payload, refetched)))
    {
      var existing := subs.FindByStripeSubscriptionId(payload.id);
      if existing.None? {
        return None;
      }
      var u := existing.value;
      var source := payload;
      if ExtractPeriod(payload).None? {
        source := refetched;
      }
      var period := ExtractPeriod(source);
      if period.None? {
        return Some(BadRequest);
      }
      var row := subs.rows[u].(
        status := source.status, periodStart := period.value.0, periodEnd := period.value.1,
        cancelAtPeriodEnd := source.cancelSnake.Some? && source.cancelSnake.value);
      var ok := subs.UpdateWithTrx(u, row);
      if IsActive(source.status) {
        ChangeTier(now, u, PREMIUM_TIER_ID);
      } else {
        ChangeTier(now, u, FREE_TIER_ID);
      }
      refused := None;
    }

    method HandleSubscriptionDeleted(now: int, stripeId: StripeId)
      requires Valid(View(now))
      modifies users, userCache, subs
      ensures Ok(View(now)) == HandleDeleted(old(View(now)), stripeId)
      ensures Accounts(now) == Touch(old(Accounts(now)), TierWrite(old(View(now)), SubscriptionDeleted(stripeId)))
    {
      var existing := subs.FindByStripeSubscriptionId(stripeId);
      if existing.None? {
        return;
      }
      var u := existing.value;
      var ok := subs.UpdateWithTrx(u, subs.rows[u].(status := Canceled));
      ChangeTier(now, u, FREE_TIER_ID);
    }

    method HandleInvoicePaid(now: int, invoice: Invoice)
      requires Valid(View(now))
      modifies payments
      ensures Ok(View(now)) == HandleInvoice(old(View(now)), invoice)
    {
      if invoice.subscription.None? {
        return;
      }
      var existing := subs.FindByStripeSubscriptionId(invoice.subscription.value);
      if existing.None? {
        return;
      }
      var amount, currency, paidAt := 0, DEFAULT_CURRENCY, now;
      if invoice.amount.Some? {
        amount := invoice.amount.value;
      }
      if invoice.currency.Some? {
        currency := invoice.currency.value;
      }
      if invoice.paidAt.Some? {
        paidAt := invoice.paidAt.value;
      }
      payments.Create(Payment(existing.value, invoice.id, invoice.intent, amount, currency, paidAt));
    }

    /** The handler a notice is dispatched to. */
    method Dispatch(now: int, notice: Notice) returns (refused: Option<Failure>)
      requires Valid(View(now))
      modifies users, userCache, subs, payments
      ensures refused == ErrorOf(Handle(old(View(now)), notice))
      ensures View(now) == OrElse(Handle(old(View(now)), notice), old(View(now)))
      ensures Accounts(now) == Touch(old(Accounts(now)), TierWrite(old(View(now)), notice))
    {
      refused := None;
      match notice
      case CheckoutCompleted(session, snapshot) => refused := HandleCheckoutCompleted(now, session, snapshot);
      case SubscriptionUpdated(payload, refetched) => refused := HandleSubscriptionUpdated(now, payload, refetched);
      case SubscriptionDeleted(stripeId) => HandleSubscriptionDeleted(now, stripeId);
      case InvoicePaid(invoice) => HandleInvoicePaid(now, invoice);
      case OtherNotice =>
    }

    /** `configured` and `signed` are the two checks before the event is read. A handler's failure
        leaves no marker, so the event is handled again when it is delivered again. */
    method HandleStripeWebhook(now: int, configured: bool, signed: bool, id: EventId, notice: Notice)
      returns (refused: Option<Failure>)
      requires Valid(View(now))
      modifies users, userCache, subs, payments, processed
      ensures refused == if !configured then Some(Unavailable)
                         else if !signed then Some(BadRequest)
                         else if id in old(processed.processedAt) then None
                         else ErrorOf(Handle(old(View(now)), notice))
      ensures View(now) == if configured && signed then Step(old(View(now)), Deliver(id, notice)) else old(View(now))
      ensures Accounts(now) ==
              Touch(old(Accounts(now)),
                    if configured && signed && id !in old(processed.processedAt)
                    then TierWrite(old(View(now)), notice) else None)
      ensures Joint(now) ==
              if configured && signed
              then SharedUsers.Step(old(Joint(now)), SharedUsers.Money(Deliver(id, notice)))
              else old(Joint(now))
    {
      SharedUsers.MoneyStep(Joint(now), Deliver(id, notice));
      if !configured {
        return Some(Unavailable);
      }
      if !signed {
        return Some(BadRequest);
      }
      var alreadyProcessed := processed.Exists(id);
      if alreadyProcessed {
        return None;
      }
      refused := Dispatch(now, notice);
      if refused.None? {
        processed.Insert(now, id);
      }
    }

    // ---------- Checkout ----------

    /** `urlReturned` says whether Stripe answered with a checkout URL. */
    method CreateCheckoutSession(now: int, configured: bool, u: UserId, urlReturned: bool)
      returns (refused: Option<Failure>)
      ensures refused == (
                if !configured then Some(Unavailable)
                else if u !in users.users then Some(NotFound)
                else if users.users[u].tierId == PREMIUM_TIER_ID then Some(Forbidden)
                else if u in subs.rows && subs.rows[u].status == Active then Some(Forbidden)
                else if urlReturned then None
                else Some(Unavailable))
      ensures configured && BillingTiers.CheckoutRefusal(View(now), u).Some? ==>
                refused == BillingTiers.CheckoutRefusal(View(now), u)
      ensures configured && BillingTiers.CheckoutRefusal(View(now), u).None? ==>
                refused == if urlReturned then None else Some(Unavailable)
      ensures !configured ==> refused == Some(Unavailable)
    {
      if !configured {
        return Some(Unavailable);
      }
      var user := users.FindById(u);
      if user.None? {
        return Some(NotFound);
      }
      if user.value.tierId == PREMIUM_TIER_ID {
        return Some(Forbidden);
      }
      var existing := subs.FindByUserId(u);
      if existing.Some? && existing.value.status.Active? {
        return Some(Forbidden);
      }
      refused := if urlReturned then None else Some(Unavailable);
    }

    // ---------- Workers ----------

    /** One mail and one mark per due row; the whole job is one reminder step of the model. */
    method SendRenewalReminders(now: int) returns (order: seq<UserId>)
      requires Valid(View(now))
      modifies subs, mailer
      ensures Enabled(old(View(now)), RemindJob(order))
      ensures View(now) == Step(old(View(now)), RemindJob(order))
      ensures Joint(now) == SharedUsers.Step(old(Joint(now)), SharedUsers.Money(RemindJob(order)))
    {
      order := subs.FindDueForReminder(now);
      for i := 0 to |order|
        invariant View(now) == Remind(old(View(now)), order[..i])
        invariant subs.rows.Keys == old(subs.rows).Keys
      {
        var u := order[i];
        RemindSnoc(old(View(now)), order[..i], u);
        assert order[..i + 1] == order[..i] + [u];
        var user := users.FindById(u);
        if user.Some? {
          mailer.Send(Mail(u, now));
          subs.MarkReminded(u, now);
        }
      }
      assert order[..|order|] == order;
      SharedUsers.MoneyStep(old(Joint(now)), RemindJob(order));
    }

    /** The tier and no invalidation. */
    method DemoteOne(now: int, u: UserId)
      modifies users, userCache`demoted, userCache`tierWrittenAt
      ensures Accounts(now) == A.DemoteUser(old(Accounts(now)), u)
    {
      if u in users.users {
        userCache.NoteTierWrite(now, u, users.users[u].tierId != FREE_TIER_ID);
      }
      users.UpdateTier(u, FREE_TIER_ID);
    }

    /** Every due user falls to the free tier; the cached records stay. */
    method DemoteLapsed(now: int) returns (order: seq<UserId>)
      requires Valid(View(now))
      modifies users, userCache`demoted, userCache`tierWrittenAt
      ensures NoRepeats(order) && forall u :: u in order <==> u in DueForDemotion(old(View(now)))
      ensures userCache.byId == old(userCache.byId) && userCache.byEmail == old(userCache.byEmail)
      ensures View(now) == Step(old(View(now)), DemoteJob)
      ensures Accounts(now) == A.Run(old(Accounts(now)), Demotions(order))
      ensures Joint(now) == SharedUsers.Step(old(Joint(now)), SharedUsers.Demotion(order))
    {
      order := subs.FindDueForDemotion(now);
      for i := 0 to |order|
        invariant Accounts(now) == A.Run(old(Accounts(now)), Demotions(order[..i]))
      {
        DemotionsSnoc(old(Accounts(now)), order[..i], order[i]);
        assert order[..i + 1] == order[..i] + [order[i]];
        DemoteOne(now, order[i]);
      }
      assert order[..|order|] == order;
      DemotionsDemote(old(Accounts(now)), old(View(now)), order);
      SharedUsers.DemotionStep(old(Joint(now)), order);
    }
  }
}
