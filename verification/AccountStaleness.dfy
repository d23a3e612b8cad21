/** When exactly the tier under an id key is not the table's, and for how long. */
module AccountStaleness {
  import opened Common
  import opened Tiers
  import opened AccountModel
  import opened AccountCoherence

  /** The id key answers, with a tier the table does not have. */
  ghost predicate Stale(a: Accounts, u: UserId) {
    CachedById(a, u).Some? && u in a.users && CachedById(a, u).value.tierId != a.users[u].tierId
  }

  // ---------- By the history of demotions ----------

  /** A user the worker demoted since the id entry was read is free, and the entry says otherwise. */
  ghost predicate DemotedAreStale(a: Accounts) {
    forall u :: u in a.demoted ==>
      && u in a.users && a.users[u].tierId == FREE_TIER_ID
      && (u in a.byId ==> a.byId[u].user.tierId != FREE_TIER_ID)
  }

  lemma DemotedAreStaleStep(a: Accounts, e: Event)
    requires Inv(a) && DemotedAreStale(a) && Fresh(a, e)
    ensures DemotedAreStale(Step(a, e))
  {
  }

  lemma {:induction false} DemotedAreStaleOnRuns(a: Accounts, es: seq<Event>)
    requires Inv(a) && DemotedAreStale(a) && FreshRun(a, es)
    ensures Inv(Run(a, es)) && DemotedAreStale(Run(a, es))
    decreases |es|
  {
    if es != [] {
      StepInv(a, es[0]);
      DemotedAreStaleStep(a, es[0]);
      DemotedAreStaleOnRuns(Step(a, es[0]), es[1..]);
    }
  }

  /** In every reachable state a live id entry carries the table's tier if and only if the demotion
      worker has not changed the user's tier since the entry was read from the table. */
  lemma IdTierCoherent(a: Accounts, u: UserId)
    requires Reachable(a) && CachedById(a, u).Some?
    ensures u in a.users && (CachedById(a, u).value.tierId == a.users[u].tierId <==> u !in a.demoted)
  {
    ReachableFacts(a);
  }

  // ---------- By the events ----------

  /** The demotion takes a tier away while the id key holds it. */
  ghost predicate Bites(a: Accounts, e: Event, u: UserId) {
    && e == Demoted(u) && CachedById(a, u).Some? && u in a.users && a.users[u].tierId != FREE_TIER_ID
  }

  /** The event ends a stale entry: the key is invalidated, lost or expires, or a login that misses the
      email key reads the table. */
  ghost predicate Clears(a: Accounts, e: Event, u: UserId) {
    match e
    case PasswordSet(v, _) => v == u
    case AvatarSet(v, _) => v == u
    case ProfileSet(v, name) =>
      v == u && !(name.Some? && name.value.Some? && UsernameTaken(a.users, u, name.value.value))
    case TierChanged(v, _) => v == u
    case LoseIdKey(v) => v == u
    case LoginBy(m) => u in a.users && CachedByEmail(a, m).None? && m == a.users[u].email
    case Tick(d) => u in a.byId && a.byId[u].expiresAt <= a.now + d
    case _ => false
  }

  lemma LoginStale(a: Accounts, m: Email, u: UserId)
    requires Inv(a)
    ensures Stale(LoginRead(a, m), u) <==> Stale(a, u) && !(CachedByEmail(a, m).None? && m == a.users[u].email)
  {
    if u in a.users { FindByEmailIs(a.users, u); }
  }

  lemma SignUpStale(a: Accounts, e: Event, u: UserId)
    requires Inv(a) && Fresh(a, e) && (e.RegisterUser? || e.OAuthSignUp?)
    ensures Stale(Step(a, e), u) <==> Stale(a, u)
  {
  }

  lemma DemotionStale(a: Accounts, v: UserId, u: UserId)
    requires Inv(a) && DemotedAreStale(a)
    ensures Stale(DemoteUser(a, v), u) <==> Stale(a, u) || Bites(a, Demoted(v), u)
  {
  }

  lemma ProfileStale(a: Accounts, v: UserId, name: Option<Option<string>>, u: UserId)
    requires Inv(a)
    ensures Stale(UpdateMe(a, v, name), u) <==>
              Stale(a, u) &&
              (v != u || (name.Some? && name.value.Some? && UsernameTaken(a.users, u, name.value.value)))
  {
  }

  lemma ReadStale(a: Accounts, v: UserId, u: UserId)
    requires Inv(a)
    ensures Stale(GetMe(a, v), u) <==> Stale(a, u)
    ensures Stale(RefreshRead(a, v), u) <==> Stale(a, u)
  {
  }

  /** One step: a stale entry stays so unless the event clears it, and a demotion that bites is the only
      way to become stale. */
  lemma StaleStep(a: Accounts, e: Event, u: UserId)
    requires Inv(a) && DemotedAreStale(a) && Fresh(a, e)
    ensures Stale(Step(a, e), u) <==> Bites(a, e, u) || (Stale(a, u) && !Clears(a, e, u))
  {
    match e
    case RegisterUser(_, _, _, _) => SignUpStale(a, e, u);
    case OAuthSignUp(_, _, _) => SignUpStale(a, e, u);
    case LoginBy(m) => LoginStale(a, m, u);
    case GetMeBy(v) => ReadStale(a, v, u);
    case RefreshBy(v) => ReadStale(a, v, u);
    case ProfileSet(v, name) => ProfileStale(a, v, name, u);
    case Demoted(v) => DemotionStale(a, v, u);
    case _ =>
  }

  lemma ReachableFacts(a: Accounts)
    requires Reachable(a)
    ensures Inv(a) && DemotedAreStale(a)
  {
    ReachableInv(a);
    var es :| FreshRun(Empty, es) && Run(Empty, es) == a;
    EmptyFacts();
    DemotedAreStaleOnRuns(Empty, es);
  }

  lemma EmptyFacts()
    ensures Inv(Empty) && DemotedAreStale(Empty)
  {
  }

  /** Demoting a user whose live id entry is right leaves it wrong exactly if the user was not free. */
  lemma DemotionMakesStale(a: Accounts, u: UserId)
    requires Reachable(a) && CachedById(a, u).Some? && !Stale(a, u)
    ensures u in a.users && (Stale(DemoteUser(a, u), u) <==> a.users[u].tierId != FREE_TIER_ID)
  {
    ReachableFacts(a);
    DemotionStale(a, u, u);
  }

  /** The `i`-th event bites and nothing after it clears the entry. */
  ghost predicate StaleFrom(es: seq<Event>, i: nat, u: UserId)
    requires i < |es|
  {
    && Bites(Run(Empty, es[..i]), es[i], u)
    && forall j :: i < j < |es| ==> !Clears(Run(Empty, es[..j]), es[j], u)
  }

  ghost predicate BittenSince(es: seq<Event>, u: UserId) {
    exists i :: 0 <= i < |es| && StaleFrom(es, i, u)
  }

  /** On every run, with no history field: the entry is stale at the end if and only if some demotion in
      the run took a tier away while the id key held it, and nothing has cleared the entry since. */
  lemma {:induction false} StaleExactly(es: seq<Event>, u: UserId)
    requires FreshRun(Empty, es)
    ensures Stale(Run(Empty, es), u) <==> BittenSince(es, u)
    decreases |es|
  {
    if es != [] {
      var n := |es| - 1;
      Unsnoc(es);
      StaleExactly(es[..n], u);
      DemotedAreStaleOnRuns(Empty, es[..n]);
      StaleStep(Run(Empty, es[..n]), es[n], u);
      BittenSnoc(es, u);
    }
  }

  lemma BittenSnoc(es: seq<Event>, u: UserId)
    requires es != []
    ensures var n := |es| - 1; var a := Run(Empty, es[..n]);
            BittenSince(es, u) <==>
              Bites(a, es[n], u) || (BittenSince(es[..n], u) && !Clears(a, es[n], u))
  {
    var n := |es| - 1;
    forall i | 0 <= i < n { StaleFromSnoc(es, i, u); }
    assert Bites(Run(Empty, es[..n]), es[n], u) ==> StaleFrom(es, n, u);
    if i :| 0 <= i < n && StaleFrom(es[..n], i, u) {
      StaleFromSnoc(es, i, u);
      assert !Clears(Run(Empty, es[..n]), es[n], u) ==> StaleFrom(es, i, u);
    }
  }

  lemma Unsnoc(es: seq<Event>)
    requires es != [] && FreshRun(Empty, es)
    ensures var n := |es| - 1;
            && FreshRun(Empty, es[..n]) && Fresh(Run(Empty, es[..n]), es[n])
            && Run(Empty, es) == Step(Run(Empty, es[..n]), es[n])
  {
    var n := |es| - 1;
    assert es == es[..n] + [es[n]];
    RunSplit(Empty, es[..n], [es[n]]);
    assert Run(Step(Run(Empty, es[..n]), es[n]), []) == Step(Run(Empty, es[..n]), es[n]);
  }

  lemma StaleFromSnoc(es: seq<Event>, i: nat, u: UserId)
    requires i < |es| - 1
    ensures var n := |es| - 1; var a := Run(Empty, es[..n]);
            StaleFrom(es, i, u) <==> StaleFrom(es[..n], i, u) && !Clears(a, es[n], u)
  {
    var n := |es| - 1;
    var init := es[..n];
    assert forall j :: 0 <= j < n ==> init[..j] == es[..j] && init[j] == es[j];
  }

  // ---------- It happens, and it lasts ----------

  /** Registered, upgraded by a webhook, read, demoted by the worker. */
  lemma StaleRun() returns (es: seq<Event>)
    ensures es == [RegisterUser(1, 10, "pw", 3), TierChanged(1, PREMIUM_TIER_ID), GetMeBy(1), Demoted(1)]
    ensures FreshRun(Empty, es) && Stale(Run(Empty, es), 1)
  {
    es := [RegisterUser(1, 10, "pw", 3), TierChanged(1, PREMIUM_TIER_ID), GetMeBy(1), Demoted(1)];
    var a1 := Step(Empty, es[0]);
    var a2 := Step(a1, es[1]);
    var a3 := Step(a2, es[2]);
    var a4 := Step(a3, es[3]);
    assert es[1..][1..] == es[2..] && es[2..][1..] == es[3..] && es[3..][1..] == [];
    assert Run(Empty, es) == Run(a1, es[1..]) == Run(a2, es[2..]) == Run(a3, es[3..]) == Run(a4, []);
    assert FreshRun(a3, es[3..]) && FreshRun(a2, es[2..]) && FreshRun(a1, es[1..]);
    assert CachedById(a3, 1) == Some(a2.users[1]);
  }

  function KeepAlive(u: UserId, n: nat): seq<Event> {
    if n == 0 then [] else [Tick(299), RefreshBy(u)] + KeepAlive(u, n - 1)
  }

  /** Both keys of `u` hold `user` for another full lifetime. */
  ghost predicate Held(a: Accounts, u: UserId, user: User) {
    && user.id == u
    && u in a.byId && a.byId[u] == Cached(user, a.now + CACHE_TTL)
    && user.email in a.byEmail && a.byEmail[user.email] == Cached(user, a.now + CACHE_TTL)
  }

  lemma HeldRound(a: Accounts, u: UserId, user: User)
    requires Held(a, u, user)
    ensures var b := Step(Step(a, Tick(299)), RefreshBy(u));
            Held(b, u, user) && b.users == a.users && b.now == a.now + 299
  {
  }

  lemma {:induction false} HeldOn(a: Accounts, u: UserId, user: User, n: nat)
    requires Held(a, u, user)
    ensures FreshRun(a, KeepAlive(u, n))
    ensures var b := Run(a, KeepAlive(u, n));
            Held(b, u, user) && b.users == a.users && b.now == a.now + n * 299
    decreases n
  {
    if n > 0 {
      var tick, refresh, rest := Tick(299), RefreshBy(u), KeepAlive(u, n - 1);
      var a1 := Step(a, tick);
      var a2 := Step(a1, refresh);
      HeldRound(a, u, user);
      HeldOn(a2, u, user, n - 1);
      var es := KeepAlive(u, n);
      assert es[0] == tick && es[1..][0] == refresh && es[1..][1..] == rest;
      assert Run(a, es) == Run(a1, es[1..]) == Run(a2, rest);
      assert FreshRun(a1, es[1..]);
    }
  }

  /** There is no bound in time: a client that refreshes within every five minutes keeps a stale record
      alive for as long as it likes, and under the email key too, so that logins read it as well. */
  lemma StaleWithoutBound(a: Accounts, u: UserId, n: nat)
    requires Reachable(a) && Stale(a, u)
    ensures var es := [RefreshBy(u)] + KeepAlive(u, n);
            var b, user := Run(a, es), CachedById(a, u).value;
            && FreshRun(a, es) && b.now == a.now + n * 299
            && Stale(b, u) && CachedById(b, u) == Some(user) && CachedByEmail(b, user.email) == Some(user)
  {
    ReachableInv(a);
    var user, a1 := CachedById(a, u).value, Step(a, RefreshBy(u));
    var es := [RefreshBy(u)] + KeepAlive(u, n);
    assert Held(a1, u, user);
    HeldOn(a1, u, user, n);
    assert es[1..] == KeepAlive(u, n);
  }

  // ---------- Idle demotions ----------

  /** The demotion worker visits only users that are already free. */
  ghost predicate IdleDemotions(a: Accounts, es: seq<Event>)
    decreases |es|
  {
    es == [] ||
    (&& (es[0].Demoted? && es[0].user in a.users ==> a.users[es[0].user].tierId == FREE_TIER_ID)
     && IdleDemotions(Step(a, es[0]), es[1..]))
  }

  lemma {:induction false} IdleSplit(a: Accounts, es: seq<Event>, fs: seq<Event>)
    ensures IdleDemotions(a, es + fs) <==> IdleDemotions(a, es) && IdleDemotions(Run(a, es), fs)
    decreases |es|
  {
    if es == [] {
      assert es + fs == fs;
    } else {
      assert (es + fs)[1..] == es[1..] + fs;
      IdleSplit(Step(a, es[0]), es[1..], fs);
    }
  }

  lemma {:induction false} IdleAddsNothing(a: Accounts, es: seq<Event>)
    requires a.demoted == {} && IdleDemotions(a, es)
    ensures Run(a, es).demoted == {}
    decreases |es|
  {
    if es != [] {
      IdleAddsNothing(Step(a, es[0]), es[1..]);
    }
  }

  /** On every run whose demotions visit only free users, every live id entry has the table's tier. */
  lemma IdleDemotionsKeepIdTiers(es: seq<Event>, u: UserId)
    requires FreshRun(Empty, es) && IdleDemotions(Empty, es)
    requires CachedById(Run(Empty, es), u).Some?
    ensures var a := Run(Empty, es); u in a.users && CachedById(a, u).value.tierId == a.users[u].tierId
  {
    IdleAddsNothing(Empty, es);
    IdTierCoherent(Run(Empty, es), u);
  }
}
