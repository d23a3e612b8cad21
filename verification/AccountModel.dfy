/** The `users` table and its cache under two keys, `user:id:{id}` and `user:email:{email}`. */
module AccountModel {
  import opened Common
  import opened Tiers

  const CACHE_TTL := 300
  const OAUTH_PERMISSIONS := 1

  /** Update the profile (2) and upload an avatar (64). */
  const DEFAULT_PERMISSIONS := 66

  datatype Cached = Cached(user: User, expiresAt: int)

  /** `demoted` and `tierWrittenAt` are history: users whose tier the demotion worker changed since
      their id entry was last read from the table, and the time of the last write to a tier. */
  datatype Accounts = Accounts(
    now: int,
    users: map<UserId, User>,
    byId: map<UserId, Cached>,
    byEmail: map<Email, Cached>,
    demoted: set<UserId>,
    tierWrittenAt: map<UserId, int>)

  const Empty := Accounts(0, map[], map[], map[], {}, map[])

  // ---------- Lookups ----------

  function FindById(users: map<UserId, User>, u: UserId): Option<User> {
    if u in users then Some(users[u]) else None
  }

  ghost function FindByEmail(users: map<UserId, User>, m: Email): Option<User> {
    if exists u :: u in users && users[u].email == m
    then var u :| u in users && users[u].email == m; Some(users[u])
    else None
  }

  ghost predicate UsernameTaken(users: map<UserId, User>, u: UserId, name: string) {
    exists v :: v in users && v != u && users[v].username == Some(name)
  }

  function CachedById(a: Accounts, u: UserId): Option<User> {
    if u in a.byId && a.now < a.byId[u].expiresAt then Some(a.byId[u].user) else None
  }

  function CachedByEmail(a: Accounts, m: Email): Option<User> {
    if m in a.byEmail && a.now < a.byEmail[m].expiresAt then Some(a.byEmail[m].user) else None
  }

  /** Read-through by id: refresh and `GET /me`. */
  function ReadById(a: Accounts, u: UserId): Option<User> {
    if CachedById(a, u).Some? then CachedById(a, u) else FindById(a.users, u)
  }

  /** Read-through by email: login. */
  ghost function ReadByEmail(a: Accounts, m: Email): Option<User> {
    if CachedByEmail(a, m).Some? then CachedByEmail(a, m) else FindByEmail(a.users, m)
  }

  // ---------- Cache operations ----------

  /** `UserCache.set`: one record under both of its keys. */
  function Put(a: Accounts, user: User): Accounts {
    var entry := Cached(user, a.now + CACHE_TTL);
    a.(byId := a.byId[user.id := entry], byEmail := a.byEmail[user.email := entry])
  }

  /** The record was just read from the table. */
  function Fill(a: Accounts, user: User): Accounts {
    Put(a, user).(demoted := a.demoted - {user.id})
  }

  /** `UserCache.invalidateUser`: the email key only if an email is given. */
  function Invalidate(a: Accounts, u: UserId, email: Option<Email>): Accounts {
    a.(byId := a.byId - {u},
       byEmail := match email case Some(m) => a.byEmail - {m} case None => a.byEmail,
       demoted := a.demoted - {u})
  }

  // ---------- Readers ----------

  function GetMe(a: Accounts, u: UserId): Accounts {
    if CachedById(a, u).Some? || u !in a.users then a else Fill(a, a.users[u])
  }

  ghost function LoginRead(a: Accounts, m: Email): Accounts {
    if CachedByEmail(a, m).Some? then a
    else match FindByEmail(a.users, m)
         case Some(user) => Fill(a, user)
         case None => a
  }

  /** Refresh stores what it read, under both keys, even when it came from the id key. */
  function RefreshRead(a: Accounts, u: UserId): Accounts {
    if CachedById(a, u).Some? then Put(a, CachedById(a, u).value)
    else if u in a.users then Fill(a, a.users[u])
    else a
  }

  function Accepts(user: Option<User>, password: string): bool {
    user.Some? && user.value.passwordHash.Some? && Verify(user.value.passwordHash.value, password)
  }

  // ---------- Writers ----------

  ghost function Register(a: Accounts, id: UserId, email: Email, password: string, permissions: int): Accounts {
    if FindByEmail(a.users, email).Some? then a
    else
      var user := User(id, email, None, Some(Hash(password)), false, None, permissions, FREE_TIER_ID);
      Fill(a.(users := a.users[id := user]), user)
  }

  function NewOAuthUser(id: UserId, email: Email, verified: bool): User {
    User(id, email, None, None, verified, None, OAUTH_PERMISSIONS, FREE_TIER_ID)
  }

  /** A new social account is inserted and not cached. */
  ghost function CreateOAuthUser(a: Accounts, id: UserId, email: Email, verified: bool): Accounts {
    if FindByEmail(a.users, email).Some? then a
    else a.(users := a.users[id := NewOAuthUser(id, email, verified)])
  }

  /** A profile write followed by the invalidation of both keys. */
  function WriteProfile(a: Accounts, u: UserId, user: User): Accounts
    requires u in a.users
  {
    Invalidate(a.(users := a.users[u := user]), u, Some(a.users[u].email))
  }

  function SetPassword(a: Accounts, u: UserId, password: string): Accounts {
    if u in a.users then WriteProfile(a, u, a.users[u].(passwordHash := Some(Hash(password)))) else a
  }

  function SetAvatar(a: Accounts, u: UserId, avatar: Option<string>): Accounts {
    if u in a.users then WriteProfile(a, u, a.users[u].(avatarUrl := avatar)) else a
  }

  /** `name` is absent when the request does not mention the username. A taken name is refused, by
      the service's check or by the column's unique constraint. */
  ghost function UpdateMe(a: Accounts, u: UserId, name: Option<Option<string>>): Accounts {
    if u !in a.users then a
    else if name.None? then WriteProfile(a, u, a.users[u])
    else if name.value.Some? && UsernameTaken(a.users, u, name.value.value) then a
    else WriteProfile(a, u, a.users[u].(username := name.value))
  }

  /** Email verification writes the row and leaves the cache alone. */
  function MarkVerified(a: Accounts, u: UserId): Accounts {
    if u in a.users then a.(users := a.users[u := a.users[u].(isEmailVerified := true)]) else a
  }

  function WriteTier(a: Accounts, u: UserId, tierId: int): Accounts {
    if u in a.users
    then a.(users := a.users[u := a.users[u].(tierId := tierId)], tierWrittenAt := a.tierWrittenAt[u := a.now])
    else a
  }

  /** A webhook or confirmation: the tier, then the id key. */
  function ChangeTier(a: Accounts, u: UserId, tierId: int): Accounts {
    Invalidate(WriteTier(a, u, tierId), u, None)
  }

  /** The demotion worker: the tier and no invalidation. */
  function DemoteUser(a: Accounts, u: UserId): Accounts {
    if u in a.users && a.users[u].tierId != FREE_TIER_ID
    then WriteTier(a, u, FREE_TIER_ID).(demoted := a.demoted + {u})
    else WriteTier(a, u, FREE_TIER_ID)
  }

  // ---------- Runs ----------

  datatype Event =
    | RegisterUser(id: UserId, email: Email, password: string, permissions: int)
    | OAuthSignUp(id: UserId, email: Email, verified: bool)
    | GetMeBy(user: UserId)
    | LoginBy(email: Email)
    | RefreshBy(user: UserId)
    | PasswordSet(user: UserId, password: string)
    | AvatarSet(user: UserId, avatar: Option<string>)
    | ProfileSet(user: UserId, name: Option<Option<string>>)
    | EmailVerified(user: UserId)
    | TierChanged(user: UserId, tierId: int)
    | Demoted(user: UserId)
    | LoseIdKey(user: UserId)
    | LoseEmailKey(email: Email)
    | Tick(seconds: nat)

  ghost function Step(a: Accounts, e: Event): Accounts {
    match e
    case RegisterUser(id, email, password, permissions) => Register(a, id, email, password, permissions)
    case OAuthSignUp(id, email, verified) => CreateOAuthUser(a, id, email, verified)
    case GetMeBy(u) => GetMe(a, u)
    case LoginBy(m) => LoginRead(a, m)
    case RefreshBy(u) => RefreshRead(a, u)
    case PasswordSet(u, password) => SetPassword(a, u, password)
    case AvatarSet(u, avatar) => SetAvatar(a, u, avatar)
    case ProfileSet(u, name) => UpdateMe(a, u, name)
    case EmailVerified(u) => MarkVerified(a, u)
    case TierChanged(u, tierId) => ChangeTier(a, u, tierId)
    case Demoted(u) => DemoteUser(a, u)
    case LoseIdKey(u) => a.(byId := a.byId - {u})
    case LoseEmailKey(m) => a.(byEmail := a.byEmail - {m})
    case Tick(d) => a.(now := a.now + d)
  }

  ghost predicate Fresh(a: Accounts, e: Event) {
    match e
    case RegisterUser(id, _, _, _) => id !in a.users
    case OAuthSignUp(id, _, _) => id !in a.users
    case _ => true
  }

  ghost function Run(a: Accounts, es: seq<Event>): Accounts
    decreases |es|
  {
    if es == [] then a else Run(Step(a, es[0]), es[1..])
  }

  ghost predicate FreshRun(a: Accounts, es: seq<Event>)
    decreases |es|
  {
    es == [] || (Fresh(a, es[0]) && FreshRun(Step(a, es[0]), es[1..]))
  }
}
