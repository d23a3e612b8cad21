/** Renewal reminders against fulfilments. */
module BillingReminders {
  import opened Common
  import opened BillingModel
  import BillingReplay

  ghost function MailsTo(outbox: seq<Mail>, u: UserId): nat {
    if outbox == [] then 0
    else MailsTo(outbox[..|outbox| - 1], u) + if outbox[|outbox| - 1].user == u then 1 else 0
  }

  /** A row that may still be reminded. */
  ghost function Armed(db: Db, u: UserId): nat {
    if u in db.subs && db.subs[u].remindedAt.None? then 1 else 0
  }

  /** The event writes the row of `u` through one of the fulfilment paths. */
  ghost predicate Fulfils(db: Db, e: Event, u: UserId) {
    match e
    case Deliver(id, CheckoutCompleted(session, snapshot)) =>
      && Processes(db, e)
      && session.paid && session.user == Some(u) && session.subscription.Some?
      && FindByStripeId(db.subs, session.subscription.value).None?
    case ConfirmSession(v, session, snapshot) => v == u && Confirm(db, u, session, snapshot).Ok?
    case _ => false
  }

  ghost function Fulfilments(db: Db, es: seq<Event>, u: UserId): nat
    decreases |es|
  {
    if es == [] then 0
    else (if Fulfils(db, es[0], u) then 1 else 0) + Fulfilments(Step(db, es[0]), es[1..], u)
  }

  lemma MailSnoc(outbox: seq<Mail>, m: Mail, u: UserId)
    ensures MailsTo(outbox + [m], u) == MailsTo(outbox, u) + if m.user == u then 1 else 0
  {
    assert (outbox + [m])[..|outbox|] == outbox;
  }

  /** What the reminder loop does to one user: one mail and one mark if visited, nothing otherwise. */
  lemma {:induction false} RemindOutcome(db: Db, order: seq<UserId>, u: UserId)
    requires NoRepeats(order) && forall v :: v in order ==> v in db.users && v in db.subs
    ensures var db' := Remind(db, order);
            && MailsTo(db'.outbox, u) == MailsTo(db.outbox, u) + (if u in order then 1 else 0)
            && db'.subs.Keys == db.subs.Keys
            && (u in order ==> db'.subs[u].remindedAt == Some(db.now))
            && (u !in order && u in db.subs ==> db'.subs[u] == db.subs[u])
    decreases |order|
  {
    if order != [] {
      var first, rest := order[0], order[1..];
      var db1 := RemindOne(db, first);
      MailSnoc(db.outbox, Mail(first, db.now), u);
      assert first !in rest;
      RemindOutcome(db1, rest, u);
    }
  }

  /** The job's mails, in the order of its visits and dated when it runs. */
  lemma {:induction false} MailsOfJob(db: Db, order: seq<UserId>)
    requires forall v :: v in order ==> v in db.users && v in db.subs
    ensures |Remind(db, order).outbox| == |db.outbox| + |order| && Remind(db, order).outbox[..|db.outbox|] == db.outbox
    ensures forall i :: 0 <= i < |order| ==> Remind(db, order).outbox[|db.outbox| + i] == Mail(order[i], db.now)
    decreases |order|
  {
    if order != [] {
      var db1 := RemindOne(db, order[0]);
      MailsOfJob(db1, order[1..]);
      var mails, n := Remind(db, order).outbox, |db.outbox|;
      assert mails[..n] == mails[..n + 1][..n] == db.outbox;
      assert mails[n] == mails[..n + 1][n];
      forall i | 1 <= i < |order|
        ensures mails[n + i] == Mail(order[i], db.now)
      {
        assert mails[n + 1 + (i - 1)] == Mail(order[1..][i - 1], db1.now);
      }
    }
  }

  /** Mails are sent by reminder jobs alone: one to each row that is active, unreminded and ends
      within the next seven days, and none to any other. */
  lemma RemindersAreDue(db: Db, e: Event, u: UserId)
    requires Valid(db) && Enabled(db, e)
    ensures MailsTo(Step(db, e).outbox, u) ==
            MailsTo(db.outbox, u) +
            if e.RemindJob? && u in db.subs && db.subs[u].status.Active? && db.subs[u].remindedAt.None?
               && 0 < db.subs[u].periodEnd - db.now <= 7 * 24 * 60 * 60
            then 1 else 0
  {
    match e
    case RemindJob(order) => RemindOutcome(db, order, u);
    case Deliver(_, notice) => if Handle(db, notice).Ok? { BillingReplay.HandleFrame(db, notice); }
    case ConfirmSession(v, session, snapshot) =>
      if Confirm(db, v, session, snapshot).Ok? { BillingReplay.ConfirmFrame(db, v, session, snapshot); }
    case _ =>
  }

  /** A fulfilment arms the row, a reminder job disarms it if it is due, and nothing else, a renewal
      in particular, does either. */
  lemma ArmedStep(db: Db, e: Event, u: UserId)
    requires Valid(db) && Enabled(db, e)
    ensures Armed(Step(db, e), u) ==
            if Fulfils(db, e, u) then 1 else if e.RemindJob? && u in DueForReminder(db) then 0 else Armed(db, u)
  {
    if e.RemindJob? { RemindOutcome(db, e.order, u); }
  }

  // ---------- Conservation ----------

  /** Fulfilments of a row that could not be reminded any more, or was not there yet. */
  ghost function Rearmings(db: Db, es: seq<Event>, u: UserId): nat
    decreases |es|
  {
    if es == [] then 0
    else (if Fulfils(db, es[0], u) && Armed(db, u) == 0 then 1 else 0) + Rearmings(Step(db, es[0]), es[1..], u)
  }

  /** Conservation, exactly: every mail uses up one arming of the row, and only a fulfilment that finds
      the row not armed adds one. */
  lemma {:induction false} RemindersConserved(db: Db, es: seq<Event>, u: UserId)
    requires Valid(db) && EnabledRun(db, es)
    ensures MailsTo(Run(db, es).outbox, u) + Armed(Run(db, es), u) ==
            MailsTo(db.outbox, u) + Armed(db, u) + Rearmings(db, es, u)
    ensures Rearmings(db, es, u) <= Fulfilments(db, es, u)
    decreases |es|
  {
    if es != [] {
      ValidStep(db, es[0]);
      RemindersAreDue(db, es[0], u);
      ArmedStep(db, es[0], u);
      RemindersConserved(Step(db, es[0]), es[1..], u);
    }
  }

  // ---------- When a row can still be reminded ----------

  ghost predicate Unmailed(db: Db, es: seq<Event>, u: UserId)
    decreases |es|
  {
    es == [] || (!(es[0].RemindJob? && u in DueForReminder(db)) && Unmailed(Step(db, es[0]), es[1..], u))
  }

  /** Some fulfilment of the row is followed by no mail to its user. */
  ghost predicate FulfilledSince(db: Db, es: seq<Event>, u: UserId)
    decreases |es|
  {
    es != [] &&
    ((Fulfils(db, es[0], u) && Unmailed(Step(db, es[0]), es[1..], u)) || FulfilledSince(Step(db, es[0]), es[1..], u))
  }

  /** After any run a row can still be reminded if and only if it could at the start or was fulfilled
      in between, and no reminder has been sent since. */
  lemma {:induction false} ArmedExactly(db: Db, es: seq<Event>, u: UserId)
    requires Valid(db) && EnabledRun(db, es)
    ensures Armed(Run(db, es), u) == 1 <==> (Armed(db, u) == 1 && Unmailed(db, es, u)) || FulfilledSince(db, es, u)
    decreases |es|
  {
    if es != [] {
      ValidStep(db, es[0]);
      ArmedStep(db, es[0], u);
      ArmedExactly(Step(db, es[0]), es[1..], u);
    }
  }

  /** Once a row is reminded, a renewal that brings it back into the reminder window, active as it is,
      leaves it without a reminder. */
  lemma RenewalIsNotReminded(
    db: Db, id: EventId, payload: StripeSub, refetched: StripeSub, u: UserId, start: int, end: int)
    requires Valid(db) && u in db.subs && db.subs[u].remindedAt.Some? && id !in db.markers
    requires payload.id == db.subs[u].stripeId && payload.status.Active?
    requires ExtractPeriod(payload) == Some((start, end)) && 0 < end - db.now <= 7 * 24 * 60 * 60
    ensures var db' := Step(db, Deliver(id, SubscriptionUpdated(payload, refetched)));
            && u in db'.subs && db'.subs[u].status.Active? && db'.subs[u].periodEnd == end
            && 0 < db'.subs[u].periodEnd - db'.now <= 7 * 24 * 60 * 60
            && u !in DueForReminder(db')
  {
    FindIs(db.subs, u);
  }

  /** And so on: without another fulfilment the user gets no further reminder, however often the
      subscription is renewed. */
  lemma {:induction false} NoFulfilmentNoReminder(db: Db, es: seq<Event>, u: UserId)
    requires Valid(db) && EnabledRun(db, es)
    requires Armed(db, u) == 0 && Fulfilments(db, es, u) == 0
    ensures MailsTo(Run(db, es).outbox, u) == MailsTo(db.outbox, u) && Armed(Run(db, es), u) == 0
    decreases |es|
  {
    if es != [] {
      ValidStep(db, es[0]);
      RemindersAreDue(db, es[0], u);
      ArmedStep(db, es[0], u);
      NoFulfilmentNoReminder(Step(db, es[0]), es[1..], u);
    }
  }
}
