/** When exactly a login reads a tier the table does not have: the email key. */
module LoginStaleness {
  import opened Common
  import opened Tiers
  import opened AccountModel
  import opened AccountCoherence
  import opened AccountStaleness

  /** What a login of `u` finds under the email key. */
  ghost function MailEntry(a: Accounts, u: UserId): Option<User> {
    if u in a.users then CachedByEmail(a, a.users[u].email) else None
  }

  ghost predicate MailStale(a: Accounts, u: UserId) {
    MailEntry(a, u).Some? && u in a.users && MailEntry(a, u).value.tierId != a.users[u].tierId
  }

  /** A tier other than the entry's is written, or a refresh copies a stale id entry. */
  ghost predicate Spoils(a: Accounts, e: Event, u: UserId) {
    match e
    case TierChanged(v, tierId) => v == u && MailEntry(a, u).Some? && MailEntry(a, u).value.tierId != tierId
    case Demoted(v) => v == u && MailEntry(a, u).Some? && MailEntry(a, u).value.tierId != FREE_TIER_ID
    case RefreshBy(v) => v == u && Stale(a, u)
    case _ => false
  }

  /** The key is invalidated, lost, expired or filled from the table, or the table comes round to the
      entry's tier. */
  ghost predicate Heals(a: Accounts, e: Event, u: UserId) {
    match e
    case PasswordSet(v, _) => v == u
    case AvatarSet(v, _) => v == u
    case ProfileSet(v, name) =>
      v == u && !(name.Some? && name.value.Some? && UsernameTaken(a.users, u, name.value.value))
    case TierChanged(v, tierId) => v == u && MailEntry(a, u).Some? && MailEntry(a, u).value.tierId == tierId
    case Demoted(v) => v == u && MailEntry(a, u).Some? && MailEntry(a, u).value.tierId == FREE_TIER_ID
    case GetMeBy(v) => v == u && CachedById(a, u).None?
    case RefreshBy(v) => v == u && !Stale(a, u)
    case LoseEmailKey(m) => u in a.users && m == a.users[u].email
    case Tick(d) =>
      u in a.users && a.users[u].email in a.byEmail && a.byEmail[a.users[u].email].expiresAt <= a.now + d
    case _ => false
  }

  lemma SignUpMail(a: Accounts, e: Event, u: UserId)
    requires Inv(a) && Fresh(a, e) && (e.RegisterUser? || e.OAuthSignUp?)
    ensures MailStale(Step(a, e), u) <==> MailStale(a, u)
  {
  }

  lemma ReadMail(a: Accounts, e: Event, u: UserId)
    requires Inv(a) && (e.GetMeBy? || e.LoginBy? || e.RefreshBy?)
    ensures MailStale(Step(a, e), u) <==> Spoils(a, e, u) || (MailStale(a, u) && !Heals(a, e, u))
  {
    if e.LoginBy? && u in a.users { FindByEmailIs(a.users, u); }
  }

  lemma TierMail(a: Accounts, e: Event, u: UserId)
    requires Inv(a) && (e.TierChanged? || e.Demoted?)
    ensures MailStale(Step(a, e), u) <==> Spoils(a, e, u) || (MailStale(a, u) && !Heals(a, e, u))
  {
  }

  lemma WriteMail(a: Accounts, e: Event, u: UserId)
    requires Inv(a) && (e.PasswordSet? || e.AvatarSet? || e.ProfileSet? || e.EmailVerified?)
    ensures MailStale(Step(a, e), u) <==> MailStale(a, u) && !Heals(a, e, u)
  {
  }

  lemma PassiveMail(a: Accounts, e: Event, u: UserId)
    requires e.LoseIdKey? || e.LoseEmailKey? || e.Tick?
    ensures MailStale(Step(a, e), u) <==> MailStale(a, u) && !Heals(a, e, u)
  {
  }

  lemma MailStep(a: Accounts, e: Event, u: UserId)
    requires Inv(a) && Fresh(a, e)
    ensures MailStale(Step(a, e), u) <==> Spoils(a, e, u) || (MailStale(a, u) && !Heals(a, e, u))
  {
    match e
    case RegisterUser(_, _, _, _) => SignUpMail(a, e, u);
    case OAuthSignUp(_, _, _) => SignUpMail(a, e, u);
    case GetMeBy(_) => ReadMail(a, e, u);
    case LoginBy(_) => ReadMail(a, e, u);
    case RefreshBy(_) => ReadMail(a, e, u);
    case TierChanged(_, _) => TierMail(a, e, u);
    case Demoted(_) => TierMail(a, e, u);
    case LoseIdKey(_) => PassiveMail(a, e, u);
    case LoseEmailKey(_) => PassiveMail(a, e, u);
    case Tick(_) => PassiveMail(a, e, u);
    case _ => WriteMail(a, e, u);
  }

  ghost predicate NeverHealed(a: Accounts, es: seq<Event>, u: UserId)
    decreases |es|
  {
    es == [] || (!Heals(a, es[0], u) && NeverHealed(Step(a, es[0]), es[1..], u))
  }

  ghost predicate SpoiledSince(a: Accounts, es: seq<Event>, u: UserId)
    decreases |es|
  {
    es != [] &&
    ((Spoils(a, es[0], u) && NeverHealed(Step(a, es[0]), es[1..], u)) || SpoiledSince(Step(a, es[0]), es[1..], u))
  }

  lemma {:induction false} MailStaleExactly(a: Accounts, es: seq<Event>, u: UserId)
    requires Inv(a) && FreshRun(a, es)
    ensures MailStale(Run(a, es), u) <==> (MailStale(a, u) && NeverHealed(a, es, u)) || SpoiledSince(a, es, u)
    decreases |es|
  {
    if es != [] {
      StepInv(a, es[0]);
      MailStep(a, es[0], u);
      MailStaleExactly(Step(a, es[0]), es[1..], u);
    }
  }

  /** On every run, with no history field: a login of an existing user reads a tier other than the table's
      if and only if some event in the run spoiled the email key and none has healed it since. */
  lemma LoginTierExactly(es: seq<Event>, u: UserId)
    requires FreshRun(Empty, es) && u in Run(Empty, es).users
    ensures var a := Run(Empty, es); var read := ReadByEmail(a, a.users[u].email);
            read.Some? && (read.value.tierId != a.users[u].tierId <==> SpoiledSince(Empty, es, u))
  {
    var a := Run(Empty, es);
    EmptyFacts();
    CoherentOnRuns(Empty, es);
    MailStaleExactly(Empty, es, u);
    FindByEmailIs(a.users, u);
  }

  /** Registered and upgraded: for up to five minutes a login reads the free tier of a premium user. */
  lemma UpgradeUnread() returns (es: seq<Event>)
    ensures es == [RegisterUser(1, 10, "pw", 3), TierChanged(1, PREMIUM_TIER_ID)] && FreshRun(Empty, es)
    ensures var a := Run(Empty, es); var read := ReadByEmail(a, 10);
            && 1 in a.users && a.users[1].tierId == PREMIUM_TIER_ID
            && read.Some? && read.value.id == 1 && read.value.tierId == FREE_TIER_ID
  {
    es := [RegisterUser(1, 10, "pw", 3), TierChanged(1, PREMIUM_TIER_ID)];
    var a1 := Step(Empty, es[0]);
    var a2 := Step(a1, es[1]);
    assert es[1..][1..] == [];
    assert Run(Empty, es) == Run(a1, es[1..]) == Run(a2, []);
    assert FreshRun(a1, es[1..]);
    assert CachedByEmail(a2, 10).Some?;
  }
}
