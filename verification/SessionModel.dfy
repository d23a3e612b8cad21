/** The session store as a value: the `sessions` table, the `session:{id}` keys and the
    `user:sessions:{userId}` sets, with one function per operation on them. */
module SessionModel {
  import opened Common
  import opened Tiers

  const SESSION_TTL := WEEK
  const ACCESS_TTL := 15 * 60

  datatype Kind = Access | Refresh

  datatype Token = Token(sub: UserId, jti: SessionId, kind: Kind, exp: int)

  datatype Row = Row(userId: UserId, expiresAt: int)

  /** A Redis key with its expiry instant; it is absent once that instant is reached. */
  datatype CacheEntry = CacheEntry(userId: UserId, expiresAt: int)

  /** What was signed for one session id, and the login session it descends from. */
  datatype Issue = Issue(userId: UserId, at: int, root: SessionId)

  /** `issued` is the ledger of every session id ever generated. It stands for the JWT
      signature (only tokens in the ledger verify) and records lineage. */
  datatype Store = Store(
    now: int,
    jwtTtl: int,
    rows: map<SessionId, Row>,
    keys: map<SessionId, CacheEntry>,
    sets: map<UserId, set<SessionId>>,
    issued: map<SessionId, Issue>)

  function Init(jwtTtl: int): Store {
    Store(0, jwtTtl, map[], map[], map[], map[])
  }

  function MembersOf(sets: map<UserId, set<SessionId>>, u: UserId): set<SessionId> {
    if u in sets then sets[u] else {}
  }

  function Members(s: Store, u: UserId): set<SessionId> {
    MembersOf(s.sets, u)
  }

  /** Signature and expiry (section 4.1.4 of RFC 7519: not accepted on or after `exp`). */
  predicate VerifiesIn(issued: map<SessionId, Issue>, jwtTtl: int, now: int, t: Token) {
    && t.jti in issued
    && t.sub == issued[t.jti].userId
    && t.exp == issued[t.jti].at + (if t.kind.Refresh? then jwtTtl else ACCESS_TTL)
    && now < t.exp
  }

  predicate Verifies(s: Store, t: Token) {
    VerifiesIn(s.issued, s.jwtTtl, s.now, t)
  }

  predicate UsableAs(s: Store, t: Token, kind: Kind) {
    Verifies(s, t) && t.kind == kind
  }

  // ---------- The two ways to resolve a refresh token ----------

  function CachedUser(s: Store, id: SessionId): Option<UserId> {
    if id in s.keys && s.now < s.keys[id].expiresAt then Some(s.keys[id].userId) else None
  }

  function StoredUser(s: Store, id: SessionId): Option<UserId> {
    if id in s.rows && s.now < s.rows[id].expiresAt then Some(s.rows[id].userId) else None
  }

  /** What the refresh service does: cache first, row only on a miss. */
  function FastLookup(s: Store, t: Token): Option<UserId> {
    if !UsableAs(s, t, Refresh) then None
    else if CachedUser(s, t.jti).Some? then CachedUser(s, t.jti)
    else StoredUser(s, t.jti)
  }

  /** The reference: the row and its expiry alone decide. */
  function ReferenceLookup(s: Store, t: Token): Option<UserId> {
    if UsableAs(s, t, Refresh) then StoredUser(s, t.jti) else None
  }

  // ---------- Session cache ----------

  function CacheAdd(s: Store, u: UserId, id: SessionId): Store {
    s.(keys := s.keys[id := CacheEntry(u, s.now + SESSION_TTL)],
       sets := s.sets[u := Members(s, u) + {id}])
  }

  function CacheRemove(s: Store, u: UserId, id: SessionId): Store {
    s.(keys := s.keys - {id}, sets := s.sets[u := Members(s, u) - {id}])
  }

  function CacheRemoveAll(s: Store, u: UserId): Store {
    s.(keys := s.keys - Members(s, u), sets := s.sets - {u})
  }

  // ---------- Table ----------

  function RowsOf(rows: map<SessionId, Row>, u: UserId): set<SessionId> {
    set id | id in rows && rows[id].userId == u
  }

  function ActiveIn(rows: map<SessionId, Row>, now: int, u: UserId): set<SessionId> {
    set id | id in rows && rows[id].userId == u && now < rows[id].expiresAt
  }

  function ActiveRows(s: Store, u: UserId): set<SessionId> {
    ActiveIn(s.rows, s.now, u)
  }

  function ExpiredRows(rows: map<SessionId, Row>, now: int): set<SessionId> {
    set id | id in rows && rows[id].expiresAt < now
  }

  // ---------- Handlers ----------

  /** The number the tier limit is compared with: the set's size, or the table's count when the
      set is empty. */
  function CountedSessions(s: Store, u: UserId): nat {
    if Members(s, u) == {} then |ActiveRows(s, u)| else |Members(s, u)|
  }

  predicate WithinLimit(s: Store, u: UserId, tierId: int) {
    CountedSessions(s, u) < MaxSessions(tierId)
  }

  /** Row, cache entry and signed tokens of a new session. */
  function Open(s: Store, u: UserId, id: SessionId, root: SessionId): Store {
    CacheAdd(
      s.(rows := s.rows[id := Row(u, s.now + SESSION_TTL)],
         issued := s.issued[id := Issue(u, s.now, root)]),
      u, id)
  }

  function Login(s: Store, u: UserId, tierId: int, newId: SessionId): Store {
    if WithinLimit(s, u, tierId) then Open(s, u, newId, newId) else s
  }

  /** The user a refresh is accepted for, given the user ids that can be found. */
  function RefreshUser(s: Store, t: Token, known: set<UserId>): Option<UserId> {
    match FastLookup(s, t)
    case Some(u) => if u in known then Some(u) else None
    case None => None
  }

  function Rotate(s: Store, u: UserId, oldId: SessionId, newId: SessionId): Store
    requires oldId in s.issued
  {
    Open(CacheRemove(s.(rows := s.rows - {oldId}), u, oldId), u, newId, s.issued[oldId].root)
  }

  function RefreshSession(s: Store, t: Token, known: set<UserId>, newId: SessionId): Store {
    match RefreshUser(s, t, known)
    case Some(u) => Rotate(s, u, t.jti, newId)
    case None => s
  }

  function Logout(s: Store, t: Token): Store {
    if !UsableAs(s, t, Refresh) then s
    else
      var dropped := s.(rows := s.rows - {t.jti});
      match CachedUser(s, t.jti)
      case Some(u) => CacheRemove(dropped, u, t.jti)
      case None => dropped
  }

  function RevokeOutcome(s: Store, u: UserId, id: SessionId): Option<Failure> {
    if id !in s.rows then Some(NotFound)
    else if s.rows[id].userId != u then Some(Forbidden)
    else None
  }

  function Revoke(s: Store, u: UserId, id: SessionId): Store {
    if RevokeOutcome(s, u, id).Some? then s
    else CacheRemove(s.(rows := s.rows - {id}), u, id)
  }

  function RevokeAll(s: Store, u: UserId): Store {
    CacheRemoveAll(s.(rows := s.rows - RowsOf(s.rows, u)), u)
  }

  /** Every session of `u` but `keep` is deleted, then `keep` is cached again. */
  function KeepOnly(s: Store, u: UserId, keep: SessionId): Store {
    CacheAdd(CacheRemoveAll(s.(rows := s.rows - (RowsOf(s.rows, u) - {keep})), u), u, keep)
  }

  function Cleanup(s: Store): Store {
    s.(rows := s.rows - ExpiredRows(s.rows, s.now))
  }

  // ---------- Runs ----------

  /** Handler calls that reach the session store. `LoginAs` is a login or OAuth callback past
      authentication, with the tier id of the user record it read. `ChangePassword` carries the
      access token the request was authenticated with. */
  datatype Event =
    | LoginAs(user: UserId, tierId: int, newId: SessionId)
    | RefreshWith(token: Token, known: set<UserId>, newId: SessionId)
    | LogoutWith(token: Token)
    | RevokeOne(user: UserId, id: SessionId)
    | RevokeEvery(user: UserId)
    | ChangePassword(token: Token)
    | ResetPassword(user: UserId)
    | CleanupJob
    | LoseKey(id: SessionId)
    | Tick(seconds: nat)

  function Step(s: Store, e: Event): Store {
    match e
    case LoginAs(u, tierId, newId) => Login(s, u, tierId, newId)
    case RefreshWith(t, known, newId) => RefreshSession(s, t, known, newId)
    case LogoutWith(t) => Logout(s, t)
    case RevokeOne(u, id) => Revoke(s, u, id)
    case RevokeEvery(u) => RevokeAll(s, u)
    case ChangePassword(t) => if UsableAs(s, t, Access) then KeepOnly(s, t.sub, t.jti) else s
    case ResetPassword(u) => RevokeAll(s, u)
    case CleanupJob => Cleanup(s)
    case LoseKey(id) => s.(keys := s.keys - {id})
    case Tick(d) => s.(now := s.now + d)
  }

  function Run(s: Store, es: seq<Event>): Store
    decreases |es|
  {
    if es == [] then s else Run(Step(s, es[0]), es[1..])
  }

  /** Generated ids are new. */
  predicate Fresh(s: Store, e: Event) {
    (e.LoginAs? || e.RefreshWith?) ==> e.newId !in s.issued
  }

  predicate FreshRun(s: Store, es: seq<Event>)
    decreases |es|
  {
    es == [] || (Fresh(s, es[0]) && FreshRun(Step(s, es[0]), es[1..]))
  }

  /** The lifetime of the refresh token signed for a session id is over. */
  predicate RefreshExpired(s: Store, id: SessionId) {
    id in s.issued && s.issued[id].at + s.jwtTtl <= s.now
  }

  /** The event caches a session that has no row any more, although its refresh token still verifies. */
  predicate Revives(s: Store, e: Event, id: SessionId) {
    e.ChangePassword? && UsableAs(s, e.token, Access) && e.token.jti == id
    && id !in s.rows && !RefreshExpired(s, id)
  }

  /** A password change comes from a session that is still stored, or whose refresh token has expired. */
  predicate Careful(s: Store, e: Event) {
    e.ChangePassword? ==> !Revives(s, e, e.token.jti)
  }

  predicate CarefulRun(s: Store, es: seq<Event>)
    decreases |es|
  {
    es == [] || (Careful(s, es[0]) && CarefulRun(Step(s, es[0]), es[1..]))
  }

  /** One event in front of a run. */
  lemma RunCons(s: Store, e: Event, es: seq<Event>)
    ensures Run(s, [e] + es) == Run(Step(s, e), es)
    ensures FreshRun(s, [e] + es) <==> Fresh(s, e) && FreshRun(Step(s, e), es)
    ensures CarefulRun(s, [e] + es) <==> Careful(s, e) && CarefulRun(Step(s, e), es)
  {
    assert ([e] + es)[1..] == es;
  }
}
