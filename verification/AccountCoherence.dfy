/** How far the two cache keys of a user may drift from the table. */
module AccountCoherence {
  import opened Common
  import opened Tiers
  import opened AccountModel

  /** The fields every writer invalidates under both keys. */
  predicate SameProfile(x: User, y: User) {
    && x.id == y.id && x.email == y.email && x.username == y.username
    && x.passwordHash == y.passwordHash && x.avatarUrl == y.avatarUrl && x.permissions == y.permissions
  }

  ghost predicate IdsMatch(users: map<UserId, User>) {
    forall u :: u in users ==> users[u].id == u
  }

  ghost predicate TableOk(users: map<UserId, User>) {
    && IdsMatch(users)
    && (forall u, v :: (u in users && v in users && users[u].email == users[v].email) ==> u == v)
    && (forall u :: u in users && users[u].username.Some? ==> !UsernameTaken(users, u, users[u].username.value))
  }

  ghost predicate IdCoherent(a: Accounts) {
    forall u :: u in a.byId ==> u in a.users && SameProfile(a.byId[u].user, a.users[u])
  }

  ghost predicate EmailCoherent(a: Accounts) {
    forall m :: m in a.byEmail ==>
      var user := a.byEmail[m].user;
      user.email == m && user.id in a.users && SameProfile(user, a.users[user.id])
  }

  /** An id entry has the table's tier unless the demotion worker changed it since the read. */
  ghost predicate IdTier(a: Accounts) {
    forall u :: u in a.byId && u in a.users ==> a.byId[u].user.tierId == a.users[u].tierId || u in a.demoted
  }

  /** An email entry has the table's tier, unless the tier was written after the entry was filled, or
      the demotion worker changed it. */
  ghost predicate EmailTier(a: Accounts) {
    forall m :: m in a.byEmail && a.byEmail[m].user.id in a.users ==>
      var entry, id := a.byEmail[m], a.byEmail[m].user.id;
      || entry.user.tierId == a.users[id].tierId
      || id in a.demoted
      || (id in a.tierWrittenAt && entry.expiresAt - CACHE_TTL <= a.tierWrittenAt[id])
  }

  ghost predicate ClockOk(a: Accounts) {
    && (forall m :: m in a.byEmail ==> a.byEmail[m].expiresAt <= a.now + CACHE_TTL)
  }

  ghost predicate Coherent(a: Accounts) {
    TableOk(a.users) && IdCoherent(a) && EmailCoherent(a)
  }

  ghost predicate Inv(a: Accounts) {
    Coherent(a) && IdTier(a) && EmailTier(a) && ClockOk(a)
  }

  lemma FindByEmailIs(users: map<UserId, User>, u: UserId)
    requires TableOk(users) && u in users
    ensures FindByEmail(users, users[u].email) == Some(users[u])
  {
  }

  lemma PutInv(a: Accounts, user: User)
    requires Inv(a) && user.id in a.users && SameProfile(user, a.users[user.id])
    requires user.tierId == a.users[user.id].tierId || user.id in a.demoted
    ensures Inv(Put(a, user))
  {
  }

  lemma FillInv(a: Accounts, u: UserId)
    requires Inv(a) && u in a.users
    ensures Inv(Fill(a, a.users[u]))
  {
    PutInv(a, a.users[u]);
    var user, a' := a.users[u], Fill(a, a.users[u]);
    assert forall m :: m in a'.byEmail && a'.byEmail[m].user.id == u ==> m == user.email;
  }

  lemma InsertInv(a: Accounts, user: User)
    requires Inv(a) && user.id !in a.users && FindByEmail(a.users, user.email).None? && user.username.None?
    ensures Inv(a.(users := a.users[user.id := user]))
  {
  }

  lemma WriteProfileInv(a: Accounts, u: UserId, user: User)
    requires Inv(a) && u in a.users
    requires user.id == u && user.email == a.users[u].email && user.tierId == a.users[u].tierId
    requires user.username.Some? ==> !UsernameTaken(a.users, u, user.username.value)
    ensures Inv(WriteProfile(a, u, user))
  {
  }

  lemma WriteTierInv(a: Accounts, u: UserId, tierId: int)
    requires Inv(a)
    ensures Inv(Invalidate(WriteTier(a, u, tierId), u, None))
  {
  }

  lemma DemoteInv(a: Accounts, u: UserId)
    requires Inv(a)
    ensures Inv(DemoteUser(a, u))
  {
    var a' := DemoteUser(a, u);
    assert IdCoherent(a') && EmailCoherent(a') && IdTier(a');
  }

  lemma VerifiedInv(a: Accounts, u: UserId)
    requires Inv(a)
    ensures Inv(MarkVerified(a, u))
  {
  }

  lemma RegisterInv(a: Accounts, id: UserId, email: Email, password: string, permissions: int)
    requires Inv(a) && id !in a.users
    ensures Inv(Register(a, id, email, password, permissions))
  {
    if FindByEmail(a.users, email).None? {
      var user := User(id, email, None, Some(Hash(password)), false, None, permissions, FREE_TIER_ID);
      InsertInv(a, user);
      FillInv(a.(users := a.users[id := user]), id);
    }
  }

  lemma ProfileInv(a: Accounts, u: UserId, name: Option<Option<string>>)
    requires Inv(a)
    ensures Inv(UpdateMe(a, u, name))
  {
    if u in a.users {
      WriteProfileInv(a, u, a.users[u]);
      if name.Some? && (name.value.Some? ==> !UsernameTaken(a.users, u, name.value.value)) {
        WriteProfileInv(a, u, a.users[u].(username := name.value));
      }
    }
  }

  lemma ReadInv(a: Accounts, e: Event)
    requires Inv(a) && (e.GetMeBy? || e.LoginBy? || e.RefreshBy?)
    ensures Inv(Step(a, e))
  {
    match e
    case GetMeBy(u) => if u in a.users { FillInv(a, u); }
    case LoginBy(m) => if FindByEmail(a.users, m).Some? { FillInv(a, FindByEmail(a.users, m).value.id); }
    case RefreshBy(u) =>
      if CachedById(a, u).Some? { PutInv(a, CachedById(a, u).value); } else if u in a.users { FillInv(a, u); }
  }

  /** The clock moves on, or a key is lost. */
  lemma PassiveInv(a: Accounts, e: Event)
    requires Inv(a) && (e.LoseIdKey? || e.LoseEmailKey? || e.Tick?)
    ensures Inv(Step(a, e))
  {
  }

  lemma SetPasswordInv(a: Accounts, u: UserId, password: string)
    requires Inv(a)
    ensures Inv(SetPassword(a, u, password))
  {
    if u in a.users { WriteProfileInv(a, u, a.users[u].(passwordHash := Some(Hash(password)))); }
  }

  lemma SetAvatarInv(a: Accounts, u: UserId, avatar: Option<string>)
    requires Inv(a)
    ensures Inv(SetAvatar(a, u, avatar))
  {
    if u in a.users { WriteProfileInv(a, u, a.users[u].(avatarUrl := avatar)); }
  }

  lemma SignUpInv(a: Accounts, id: UserId, email: Email, verified: bool)
    requires Inv(a) && id !in a.users
    ensures Inv(CreateOAuthUser(a, id, email, verified))
  {
    if FindByEmail(a.users, email).None? { InsertInv(a, NewOAuthUser(id, email, verified)); }
  }

  lemma StepInv(a: Accounts, e: Event)
    requires Inv(a) && Fresh(a, e)
    ensures Inv(Step(a, e))
  {
    match e
    case RegisterUser(id, email, password, permissions) => RegisterInv(a, id, email, password, permissions);
    case OAuthSignUp(id, email, verified) => SignUpInv(a, id, email, verified);
    case GetMeBy(_) => ReadInv(a, e);
    case LoginBy(_) => ReadInv(a, e);
    case RefreshBy(_) => ReadInv(a, e);
    case PasswordSet(u, password) => SetPasswordInv(a, u, password);
    case AvatarSet(u, avatar) => SetAvatarInv(a, u, avatar);
    case ProfileSet(u, name) => ProfileInv(a, u, name);
    case EmailVerified(u) => VerifiedInv(a, u);
    case TierChanged(u, tierId) => WriteTierInv(a, u, tierId);
    case Demoted(u) => DemoteInv(a, u);
    case _ => PassiveInv(a, e);
  }

  /** Field-wise coherence, tier coherence of the id key and bounded tier staleness of the email key
      hold in every reachable state. */
  lemma {:induction false} CoherentOnRuns(a: Accounts, es: seq<Event>)
    requires Inv(a) && FreshRun(a, es)
    ensures Inv(Run(a, es))
    decreases |es|
  {
    if es != [] {
      StepInv(a, es[0]);
      CoherentOnRuns(Step(a, es[0]), es[1..]);
    }
  }

  lemma {:induction false} RunSplit(a: Accounts, es: seq<Event>, fs: seq<Event>)
    ensures Run(a, es + fs) == Run(Run(a, es), fs)
    ensures FreshRun(a, es + fs) <==> FreshRun(a, es) && FreshRun(Run(a, es), fs)
    decreases |es|
  {
    if es == [] {
      assert es + fs == fs;
    } else {
      assert (es + fs)[1..] == es[1..] + fs;
      RunSplit(Step(a, es[0]), es[1..], fs);
    }
  }

  // ---------- Consequences, for every reachable state ----------

  ghost predicate Reachable(a: Accounts) {
    exists es :: FreshRun(Empty, es) && Run(Empty, es) == a
  }

  lemma ReachableInv(a: Accounts)
    requires Reachable(a)
    ensures Inv(a)
  {
    var es :| FreshRun(Empty, es) && Run(Empty, es) == a;
    CoherentOnRuns(Empty, es);
  }

  /** Login through the cache decides like login through the table: the same addresses are known, the
      record agrees on the profile, and no password but the current one is ever accepted. */
  lemma LoginRefinesTable(a: Accounts, m: Email, password: string)
    requires Reachable(a)
    ensures var cached, stored := ReadByEmail(a, m), FindByEmail(a.users, m);
            && (cached.Some? <==> stored.Some?)
            && (cached.Some? ==> SameProfile(cached.value, stored.value))
            && (Accepts(cached, password) <==> Accepts(stored, password))
  {
    ReachableInv(a);
    if CachedByEmail(a, m).Some? {
      FindByEmailIs(a.users, a.byEmail[m].user.id);
    }
  }

  ghost predicate LeavesPassword(e: Event, u: UserId) {
    !(e.PasswordSet? && e.user == u)
  }

  lemma HashStep(a: Accounts, e: Event, u: UserId)
    requires u in a.users && Fresh(a, e) && LeavesPassword(e, u)
    ensures u in Step(a, e).users && Step(a, e).users[u].passwordHash == a.users[u].passwordHash
  {
  }

  /** Only a password change of `u` changes the stored hash of `u`. */
  lemma {:induction false} HashKept(a: Accounts, es: seq<Event>, u: UserId)
    requires u in a.users && FreshRun(a, es)
    requires forall i :: 0 <= i < |es| ==> LeavesPassword(es[i], u)
    ensures u in Run(a, es).users && Run(a, es).users[u].passwordHash == a.users[u].passwordHash
    decreases |es|
  {
    if es != [] {
      HashStep(a, es[0], u);
      HashKept(Step(a, es[0]), es[1..], u);
    }
  }

  lemma ReachOn(a: Accounts, es: seq<Event>)
    requires Reachable(a) && FreshRun(a, es)
    ensures Reachable(Run(a, es))
  {
    var before :| FreshRun(Empty, before) && Run(Empty, before) == a;
    RunSplit(Empty, before, es);
  }

  /** Once a password is changed or reset, login accepts the new one and no other, at once and until the
      next change, through whichever key or table it reads. */
  lemma NewPasswordOnly(a: Accounts, u: UserId, replacement: string, es: seq<Event>, attempt: string)
    requires Reachable(a) && u in a.users && FreshRun(SetPassword(a, u, replacement), es)
    requires forall i :: 0 <= i < |es| ==> LeavesPassword(es[i], u)
    ensures var b := Run(SetPassword(a, u, replacement), es);
            u in b.users && (Accepts(ReadByEmail(b, b.users[u].email), attempt) <==> attempt == replacement)
  {
    var changed := SetPassword(a, u, replacement);
    ReachStep(a, PasswordSet(u, replacement));
    ReachOn(changed, es);
    HashKept(changed, es, u);
    CurrentPasswordOnly(Run(changed, es), u, attempt);
  }

  lemma ReachStep(a: Accounts, e: Event)
    requires Reachable(a) && Fresh(a, e)
    ensures Reachable(Step(a, e))
  {
    assert Run(a, [e]) == Step(a, e);
    ReachOn(a, [e]);
  }

  lemma CurrentPasswordOnly(a: Accounts, u: UserId, attempt: string)
    requires Reachable(a) && u in a.users
    ensures Accepts(ReadByEmail(a, a.users[u].email), attempt) <==> a.users[u].passwordHash == Some(Hash(attempt))
  {
    ReachableInv(a);
    FindByEmailIs(a.users, u);
    LoginRefinesTable(a, a.users[u].email, attempt);
  }

  /** The tier a login reads from the cache is the table's, or the tier was written less than five
      minutes ago, or the demotion worker changed it. */
  lemma LoginTierStaleness(a: Accounts, m: Email)
    requires Reachable(a) && CachedByEmail(a, m).Some?
    ensures var user := CachedByEmail(a, m).value;
            && user.id in a.users
            && (|| user.tierId == a.users[user.id].tierId
                || user.id in a.demoted
                || (user.id in a.tierWrittenAt && a.now - a.tierWrittenAt[user.id] < 300))
  {
    ReachableInv(a);
  }
}
