/** Billing and accounts over the one `users` table they share: every joint run is a run of either
    model, so the theorems of both speak about it, and about each other. */
module SharedUsers {
  import opened Common
  import opened Tiers
  import opened TierWrites
  import A = AccountModel
  import B = BillingModel
  import AccountCoherence
  import AccountStaleness
  import BillingTiers

  datatype World = World(db: B.Db, accounts: A.Accounts)

  /** `Person` is anything the account services do, or time passing; `Money` a webhook, a confirmation,
      the reminder worker or the cleanup; `Demotion` the demotion worker, with the order in which the
      finder returned the due rows. */
  datatype Event = Person(act: A.Event) | Money(deed: B.Event) | Demotion(order: seq<UserId>)

  const Start := World(B.Empty, A.Empty)

  ghost predicate Joined(w: World) {
    w.accounts.users == w.db.users && w.accounts.now == w.db.now
  }

  // ---------- The two sides of an event ----------

  /** What an account write does to the billing model's table. */
  ghost function TableSide(a: A.Accounts, act: A.Event): seq<B.Event> {
    var users := A.Step(a, act).users;
    match act
    case Tick(d) => [B.Tick(d)]
    case RegisterUser(id, _, _, _) => if users == a.users then [] else [B.Register(users[id])]
    case OAuthSignUp(id, _, _) => if users == a.users then [] else [B.Register(users[id])]
    case PasswordSet(u, _) => if u in users then [B.Amend(users[u])] else []
    case AvatarSet(u, _) => if u in users then [B.Amend(users[u])] else []
    case ProfileSet(u, _) => if u in users then [B.Amend(users[u])] else []
    case EmailVerified(u) => if u in users then [B.Amend(users[u])] else []
    case _ => []
  }

  ghost function BillingSide(w: World, e: Event): seq<B.Event> {
    match e
    case Person(act) => TableSide(w.accounts, act)
    case Money(deed) => [deed]
    case Demotion(_) => [B.DemoteJob]
  }

  ghost function AccountSide(w: World, e: Event): seq<A.Event> {
    match e
    case Person(act) => [act]
    case Money(deed) => (match WriteOf(w.db, deed) case Some((u, tierId)) => [A.TierChanged(u, tierId)] case None => [])
    case Demotion(order) => Demotions(order)
  }

  ghost function Step(w: World, e: Event): World {
    World(B.Run(w.db, BillingSide(w, e)), A.Run(w.accounts, AccountSide(w, e)))
  }

  ghost predicate Enabled(w: World, e: Event) {
    match e
    case Person(act) => !act.TierChanged? && !act.Demoted? && A.Fresh(w.accounts, act)
    case Money(deed) =>
      (deed.Deliver? || deed.ConfirmSession? || deed.RemindJob? || deed.CleanupJob?) && B.Enabled(w.db, deed)
    case Demotion(order) => B.NoRepeats(order) && forall u :: u in order <==> u in B.DueForDemotion(w.db)
  }

  ghost function Run(w: World, es: seq<Event>): World
    decreases |es|
  {
    if es == [] then w else Run(Step(w, es[0]), es[1..])
  }

  ghost predicate EnabledRun(w: World, es: seq<Event>)
    decreases |es|
  {
    es == [] || (Enabled(w, es[0]) && EnabledRun(Step(w, es[0]), es[1..]))
  }

  ghost function BillingTrace(w: World, es: seq<Event>): seq<B.Event>
    decreases |es|
  {
    if es == [] then [] else BillingSide(w, es[0]) + BillingTrace(Step(w, es[0]), es[1..])
  }

  ghost function AccountTrace(w: World, es: seq<Event>): seq<A.Event>
    decreases |es|
  {
    if es == [] then [] else AccountSide(w, es[0]) + AccountTrace(Step(w, es[0]), es[1..])
  }

  // ---------- Both sides agree on the table ----------

  ghost predicate Good(w: World) {
    Joined(w) && AccountCoherence.Inv(w.accounts) && B.Valid(w.db)
  }

  lemma OneBilling(db: B.Db, e: B.Event)
    ensures B.Run(db, [e]) == B.Step(db, e) && (B.EnabledRun(db, [e]) <==> B.Enabled(db, e))
  {
    assert [e][1..] == [];
  }

  lemma OneAccount(a: A.Accounts, e: A.Event)
    ensures A.Run(a, [e]) == A.Step(a, e) && (A.FreshRun(a, [e]) <==> A.Fresh(a, e))
  {
    assert [e][1..] == [];
  }

  lemma SignUpSide(db: B.Db, a: A.Accounts, act: A.Event)
    requires a.users == db.users && A.Fresh(a, act) && (act.RegisterUser? || act.OAuthSignUp?)
    ensures var bs := TableSide(a, act);
            B.EnabledRun(db, bs) && B.Run(db, bs) == db.(users := A.Step(a, act).users)
  {
    var bs := TableSide(a, act);
    if bs != [] {
      assert bs == [bs[0]];
      OneBilling(db, bs[0]);
    }
  }

  lemma WriteSide(db: B.Db, a: A.Accounts, act: A.Event)
    requires a.users == db.users && AccountCoherence.IdsMatch(a.users)
    requires act.PasswordSet? || act.AvatarSet? || act.ProfileSet? || act.EmailVerified?
    ensures var bs := TableSide(a, act);
            B.EnabledRun(db, bs) && B.Run(db, bs) == db.(users := A.Step(a, act).users)
  {
    var u, users := act.user, A.Step(a, act).users;
    if u in a.users {
      var row := users[u];
      assert users == a.users[u := row] && row.id == u && row.tierId == a.users[u].tierId;
      OneBilling(db, B.Amend(row));
    } else {
      assert users == a.users;
    }
  }

  /** An account service, seen from billing: the clock moves, or one account is registered or amended
      with its tier kept, or nothing happens. */
  lemma PersonOnBilling(db: B.Db, a: A.Accounts, act: A.Event)
    requires a.users == db.users && a.now == db.now && AccountCoherence.IdsMatch(a.users)
    requires A.Fresh(a, act) && !act.TierChanged? && !act.Demoted?
    ensures var bs, a' := TableSide(a, act), A.Step(a, act);
            B.EnabledRun(db, bs) && B.Run(db, bs) == db.(users := a'.users, now := a'.now)
  {
    if act.RegisterUser? || act.OAuthSignUp? {
      SignUpSide(db, a, act);
    } else if act.PasswordSet? || act.AvatarSet? || act.ProfileSet? || act.EmailVerified? {
      WriteSide(db, a, act);
    } else if act.Tick? {
      OneBilling(db, B.Tick(act.seconds));
    }
  }

  lemma MoneyOnAccounts(w: World, deed: B.Event)
    requires Good(w) && Enabled(w, Money(deed))
    ensures var as', db' := AccountSide(w, Money(deed)), B.Step(w.db, deed);
            && A.FreshRun(w.accounts, as')
            && A.Run(w.accounts, as').users == db'.users && A.Run(w.accounts, as').now == db'.now
  {
    WriteIsStep(w.db, deed);
    if WriteOf(w.db, deed).Some? {
      OneAccount(w.accounts, AccountSide(w, Money(deed))[0]);
    }
  }

  lemma {:induction false} DemotionsFresh(a: A.Accounts, order: seq<UserId>)
    ensures A.FreshRun(a, Demotions(order))
    decreases |order|
  {
    if order != [] {
      assert Demotions(order)[1..] == Demotions(order[1..]);
      DemotionsFresh(A.Step(a, A.Demoted(order[0])), order[1..]);
    }
  }

  lemma StepJoined(w: World, e: Event)
    requires Good(w) && Enabled(w, e)
    ensures Joined(Step(w, e))
    ensures B.EnabledRun(w.db, BillingSide(w, e)) && A.FreshRun(w.accounts, AccountSide(w, e))
  {
    match e
    case Person(act) =>
      PersonOnBilling(w.db, w.accounts, act);
      OneAccount(w.accounts, act);
    case Money(deed) =>
      MoneyOnAccounts(w, deed);
      OneBilling(w.db, deed);
    case Demotion(order) =>
      OneBilling(w.db, B.DemoteJob);
      DemotionsFresh(w.accounts, order);
      DemotionsUsers(w.accounts, order);
      DemotionsDemote(w.accounts, w.db, order);
  }

  lemma {:induction false} ValidOnRuns(db: B.Db, es: seq<B.Event>)
    requires B.Valid(db)
    ensures B.Valid(B.Run(db, es))
    decreases |es|
  {
    if es != [] {
      B.ValidStep(db, es[0]);
      ValidOnRuns(B.Step(db, es[0]), es[1..]);
    }
  }

  lemma StepGood(w: World, e: Event)
    requires Good(w) && Enabled(w, e)
    ensures Good(Step(w, e))
    ensures B.EnabledRun(w.db, BillingSide(w, e)) && A.FreshRun(w.accounts, AccountSide(w, e))
  {
    StepJoined(w, e);
    ValidOnRuns(w.db, BillingSide(w, e));
    AccountCoherence.CoherentOnRuns(w.accounts, AccountSide(w, e));
  }

  /** A joint run, reduced to either side, is a run of that model with the same outcome, and both sides
      see the same table at the same time throughout. */
  lemma {:induction false} JointRuns(w: World, es: seq<Event>)
    requires Good(w) && EnabledRun(w, es)
    ensures Good(Run(w, es))
    ensures B.EnabledRun(w.db, BillingTrace(w, es)) && B.Run(w.db, BillingTrace(w, es)) == Run(w, es).db
    ensures A.FreshRun(w.accounts, AccountTrace(w, es)) && A.Run(w.accounts, AccountTrace(w, es)) == Run(w, es).accounts
    decreases |es|
  {
    if es != [] {
      var w' := Step(w, es[0]);
      StepGood(w, es[0]);
      JointRuns(w', es[1..]);
      B.RunSplit(w.db, BillingSide(w, es[0]), BillingTrace(w', es[1..]));
      AccountCoherence.RunSplit(w.accounts, AccountSide(w, es[0]), AccountTrace(w', es[1..]));
    }
  }

  /** The joint step of a billing deed is what the services do: the deed on the tables, then the tier
      write with its invalidation on the account side. */
  lemma MoneyStep(w: World, deed: B.Event)
    ensures Step(w, Money(deed)) == World(B.Step(w.db, deed), Touch(w.accounts, WriteOf(w.db, deed)))
  {
    OneBilling(w.db, deed);
    if WriteOf(w.db, deed).Some? {
      OneAccount(w.accounts, AccountSide(w, Money(deed))[0]);
    }
  }

  lemma DemotionStep(w: World, order: seq<UserId>)
    ensures Step(w, Demotion(order)) == World(B.Demote(w.db), A.Run(w.accounts, Demotions(order)))
  {
    OneBilling(w.db, B.DemoteJob);
  }

  /** The joint step of an account service: its step, and the table it left. */
  lemma PersonStep(w: World, act: A.Event)
    requires Good(w) && Enabled(w, Person(act))
    ensures var a' := A.Step(w.accounts, act);
            Step(w, Person(act)) == World(w.db.(users := a'.users, now := a'.now), a')
  {
    PersonOnBilling(w.db, w.accounts, act);
    OneAccount(w.accounts, act);
  }

  // ---------- What one model says about the other ----------

  /** A fulfilment in the run writes a lapsed snapshot over a premium user. */
  ghost predicate LapsedDuring(w: World, es: seq<Event>)
    decreases |es|
  {
    es != [] &&
    ((es[0].Money? && BillingTiers.LapsedOverPremium(w.db, es[0].deed)) || LapsedDuring(Step(w, es[0]), es[1..]))
  }

  ghost predicate Exact(db: B.Db) {
    BillingTiers.TierInv(db) && BillingTiers.ExactTier(db) && BillingTiers.KnownTiers(db)
  }

  lemma ExactOnRuns(db: B.Db, bs: seq<B.Event>)
    requires B.Valid(db) && Exact(db) && B.EnabledRun(db, bs) && !BillingTiers.LapsedDuring(db, bs)
    ensures Exact(B.Run(db, bs))
  {
    BillingTiers.TierOnRuns(db, bs);
    BillingTiers.KnownTiersOnRuns(db, bs);
  }

  lemma SideNeverLapses(w: World, e: Event)
    requires e.Money? ==> !BillingTiers.LapsedOverPremium(w.db, e.deed)
    ensures !BillingTiers.LapsedDuring(w.db, BillingSide(w, e))
  {
    var bs := BillingSide(w, e);
    if bs != [] {
      assert bs == [bs[0]] && !BillingTiers.LapsedOverPremium(w.db, bs[0]);
      assert bs[1..] == [];
    }
  }

  lemma ExactStep(w: World, e: Event)
    requires Good(w) && Exact(w.db) && Enabled(w, e)
    requires e.Money? ==> !BillingTiers.LapsedOverPremium(w.db, e.deed)
    ensures Exact(Step(w, e).db)
  {
    StepGood(w, e);
    SideNeverLapses(w, e);
    ExactOnRuns(w.db, BillingSide(w, e));
  }

  lemma {:induction false} IdleWhenFree(a: A.Accounts, order: seq<UserId>)
    requires forall u :: u in order && u in a.users ==> a.users[u].tierId == FREE_TIER_ID
    ensures AccountStaleness.IdleDemotions(a, Demotions(order))
    decreases |order|
  {
    if order != [] {
      assert Demotions(order)[1..] == Demotions(order[1..]);
      IdleWhenFree(A.Step(a, A.Demoted(order[0])), order[1..]);
    }
  }

  /** Where the demotion job is redundant for billing, it is idle for the cache. */
  lemma IdleStep(w: World, e: Event)
    requires Good(w) && Exact(w.db) && Enabled(w, e)
    ensures AccountStaleness.IdleDemotions(w.accounts, AccountSide(w, e))
  {
    if e.Demotion? {
      BillingTiers.RedundantWhenExact(w.db);
      forall u | u in e.order && u in w.accounts.users
        ensures w.accounts.users[u].tierId == FREE_TIER_ID
      {
        assert B.Demote(w.db).users[u] == w.db.users[u];
      }
      IdleWhenFree(w.accounts, e.order);
    } else if e.Money? && WriteOf(w.db, e.deed).Some? {
      OneAccount(w.accounts, AccountSide(w, e)[0]);
    }
  }

  ghost predicate AllGood(w: World) {
    Good(w) && Exact(w.db)
  }

  lemma AllGoodStep(w: World, e: Event)
    requires AllGood(w) && Enabled(w, e)
    requires e.Money? ==> !BillingTiers.LapsedOverPremium(w.db, e.deed)
    ensures AllGood(Step(w, e))
    ensures AccountStaleness.IdleDemotions(w.accounts, AccountSide(w, e))
  {
    StepGood(w, e);
    ExactStep(w, e);
    IdleStep(w, e);
  }

  lemma {:induction false} IdleOnRuns(w: World, es: seq<Event>)
    requires AllGood(w) && EnabledRun(w, es) && !LapsedDuring(w, es)
    ensures AccountStaleness.IdleDemotions(w.accounts, AccountTrace(w, es))
    decreases |es|
  {
    if es != [] {
      var e, rest, w' := es[0], es[1..], Step(w, es[0]);
      AllGoodStep(w, e);
      IdleOnRuns(w', rest);
      AccountStaleness.IdleSplit(w.accounts, AccountSide(w, e), AccountTrace(w', rest));
      assert AccountTrace(w, es) == AccountSide(w, e) + AccountTrace(w', rest);
    }
  }

  lemma StartGood()
    ensures AllGood(Start)
  {
  }

  /** If no fulfilment writes a lapsed snapshot over a premium user, then in every state the services and
      workers can reach together, every live id entry has the table's tier. */
  lemma IdTiersNeverStale(es: seq<Event>, u: UserId)
    requires EnabledRun(Start, es) && !LapsedDuring(Start, es)
    ensures AccountStaleness.IdleDemotions(A.Empty, AccountTrace(Start, es))
    ensures !AccountStaleness.Stale(Run(Start, es).accounts, u)
  {
    StartGood();
    JointRuns(Start, es);
    IdleOnRuns(Start, es);
    TraceNeverStale(AccountTrace(Start, es), u);
  }

  lemma TraceNeverStale(trace: seq<A.Event>, u: UserId)
    requires A.FreshRun(A.Empty, trace) && AccountStaleness.IdleDemotions(A.Empty, trace)
    ensures !AccountStaleness.Stale(A.Run(A.Empty, trace), u)
  {
    if A.CachedById(A.Run(A.Empty, trace), u).Some? {
      AccountStaleness.IdleDemotionsKeepIdTiers(trace, u);
    }
  }

  // ---------- Without that assumption ----------

  const Ends := B.Period(B.Num(0), B.Missing, B.Num(0), B.Missing)

  function Snapshot(status: B.Status): B.StripeSub {
    B.StripeSub(5, 9, status, None, Ends, Some(false), None)
  }

  const PaidSession := B.Checkout(true, Some(1), Some(5))

  function Member(tierId: int): User {
    User(1, 10, None, Some(Hash("pw")), false, None, 3, tierId)
  }

  function RowOf(status: B.Status): B.Subscription {
    B.FulfilledRow(Snapshot(status), (0, 0), false)
  }

  ghost predicate Stage(w: World, tierId: int, subs: map<UserId, B.Subscription>, now: int) {
    && w.db.users == map[1 := Member(tierId)] == w.accounts.users
    && w.db.subs == subs && w.db.now == now == w.accounts.now
  }

  lemma Registers() returns (e: Event)
    ensures e == Person(A.RegisterUser(1, 10, "pw", 3))
    ensures Enabled(Start, e) && Stage(Step(Start, e), FREE_TIER_ID, map[], 0)
  {
    e := Person(A.RegisterUser(1, 10, "pw", 3));
    OneAccount(A.Empty, e.act);
    assert TableSide(A.Empty, e.act) == [B.Register(Member(FREE_TIER_ID))];
    OneBilling(B.Empty, B.Register(Member(FREE_TIER_ID)));
  }

  lemma Confirms(w: World, subs: map<UserId, B.Subscription>, tierId: int, status: B.Status)
    requires Stage(w, tierId, subs, 0) && subs.Keys <= {1}
    ensures var e := Money(B.ConfirmSession(1, PaidSession, Snapshot(status)));
            && Enabled(w, e)
            && Stage(Step(w, e), if B.IsActive(status) then PREMIUM_TIER_ID else tierId, map[1 := RowOf(status)], 0)
            && (B.IsActive(status) || 1 !in w.accounts.byId ==> 1 !in Step(w, e).accounts.byId)
  {
    var deed := B.ConfirmSession(1, PaidSession, Snapshot(status));
    MoneyStep(w, deed);
    assert B.ExtractPeriod(Snapshot(status)) == Some((0, 0));
    assert B.PutRow(w.db, 1, RowOf(status)) == Ok(w.db.(subs := subs[1 := RowOf(status)]));
    assert subs[1 := RowOf(status)] == map[1 := RowOf(status)];
    assert map[1 := Member(tierId)][1 := Member(PREMIUM_TIER_ID)] == map[1 := Member(PREMIUM_TIER_ID)];
  }

  /** The clock passes the grace, and the user is read into the cache. */
  lemma ReadsLater(w: World, row: B.Subscription)
    requires Stage(w, PREMIUM_TIER_ID, map[1 := row], 0) && 1 !in w.accounts.byId
    ensures var tick, read := Person(A.Tick(WEEK + 1)), Person(A.GetMeBy(1));
            var w' := Step(Step(w, tick), read);
            && Enabled(w, tick) && Enabled(Step(w, tick), read)
            && Stage(w', PREMIUM_TIER_ID, map[1 := row], WEEK + 1)
            && A.CachedById(w'.accounts, 1) == Some(Member(PREMIUM_TIER_ID))
  {
    var tick, read := A.Tick(WEEK + 1), A.GetMeBy(1);
    OneBilling(w.db, B.Tick(WEEK + 1));
    OneAccount(w.accounts, tick);
    OneAccount(Step(w, Person(tick)).accounts, read);
  }

  lemma DemotesStale(w: World)
    requires Stage(w, PREMIUM_TIER_ID, map[1 := RowOf(B.Canceled)], WEEK + 1)
    requires A.CachedById(w.accounts, 1) == Some(Member(PREMIUM_TIER_ID))
    ensures Enabled(w, Demotion([1])) && AccountStaleness.Stale(Step(w, Demotion([1])).accounts, 1)
  {
    DemotionStep(w, [1]);
    assert Demotions([1]) == [A.Demoted(1)];
    OneAccount(w.accounts, A.Demoted(1));
  }

  lemma LapsedGoesStale(w: World)
    requires Stage(w, PREMIUM_TIER_ID, map[1 := RowOf(B.Canceled)], 0) && 1 !in w.accounts.byId
    ensures var es := [Person(A.Tick(WEEK + 1))] + ([Person(A.GetMeBy(1))] + ([Demotion([1])] + []));
            EnabledRun(w, es) && AccountStaleness.Stale(Run(w, es).accounts, 1)
  {
    var tick, read, demote := Person(A.Tick(WEEK + 1)), Person(A.GetMeBy(1)), Demotion([1]);
    ReadsLater(w, RowOf(B.Canceled));
    var w1 := Step(w, tick);
    var w2 := Step(w1, read);
    DemotesStale(w2);
    RunCons(w2, demote, []);
    RunCons(w1, read, [demote] + []);
    RunCons(w, tick, [read] + ([demote] + []));
  }

  /** A subscription fulfilled once while active and once more after it was canceled keeps the tier; the
      worker takes it when the grace is over, and the id key does not notice. */
  lemma LapsedFulfilmentGoesStale() returns (es: seq<Event>)
    ensures EnabledRun(Start, es) && AccountStaleness.Stale(Run(Start, es).accounts, 1)
    ensures es == [
      Person(A.RegisterUser(1, 10, "pw", 3)),
      Money(B.ConfirmSession(1, PaidSession, Snapshot(B.Active))),
      Money(B.ConfirmSession(1, PaidSession, Snapshot(B.Canceled))),
      Person(A.Tick(WEEK + 1)), Person(A.GetMeBy(1)), Demotion([1])]
  {
    var e0 := Registers();
    var w1 := Step(Start, e0);
    var e1, e2 := Money(B.ConfirmSession(1, PaidSession, Snapshot(B.Active))),
      Money(B.ConfirmSession(1, PaidSession, Snapshot(B.Canceled)));
    Confirms(w1, map[], FREE_TIER_ID, B.Active);
    var w2 := Step(w1, e1);
    Confirms(w2, map[1 := RowOf(B.Active)], PREMIUM_TIER_ID, B.Canceled);
    var w3 := Step(w2, e2);
    LapsedGoesStale(w3);
    var rest := [Person(A.Tick(WEEK + 1))] + ([Person(A.GetMeBy(1))] + ([Demotion([1])] + []));
    es := [e0] + ([e1] + ([e2] + rest));
    RunCons(w2, e2, rest);
    RunCons(w1, e1, [e2] + rest);
    RunCons(Start, e0, [e1] + ([e2] + rest));
  }

  lemma RunCons(w: World, e: Event, es: seq<Event>)
    ensures Run(w, [e] + es) == Run(Step(w, e), es)
    ensures EnabledRun(w, [e] + es) <==> Enabled(w, e) && EnabledRun(Step(w, e), es)
  {
    assert ([e] + es)[1..] == es;
  }
}
