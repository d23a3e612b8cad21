/** One-time codes and reset tokens: the `verification_tokens` table, the Redis reset tokens, the two
    resend cooldowns and the email queue. */
module OtpModel {
  import opened Common

  type OtpId = int
  type ResetToken = int

  const RESET_OTP_TTL := 10 * 60
  const VERIFY_OTP_TTL := DAY
  const RESEND_COOLDOWN := 120
  const RESET_TOKEN_TTL := 600

  datatype Purpose = EmailVerify | PasswordReset

  datatype OtpRow = OtpRow(id: OtpId, user: UserId, purpose: Purpose, hash: Hash, createdAt: int, expiresAt: int)

  datatype ResetEntry = ResetEntry(user: UserId, expiresAt: int)

  /** `pwd_reset:cooldown:{email}` and `email:resend:cooldown:{userId}`. */
  datatype CooldownKey = ForAddress(email: Email) | ForUser(user: UserId)

  /** The job payload: whom the code is for, and the code itself. */
  datatype OtpMail = OtpMail(key: CooldownKey, user: UserId, code: string, at: int)

  /** What the protocol did, oldest first. */
  datatype Entry =
    | Issued(user: UserId, purpose: Purpose, otp: OtpId, at: int)
    | Verified(user: UserId, purpose: Purpose, otp: OtpId, issuedAt: int, at: int, grant: Option<ResetToken>)
    | PasswordChanged(user: UserId, token: ResetToken, at: int)

  /** The table is a sequence in creation order. `log` is history; `delivery` is the environment's
      EMAIL_DELIVERY_ENABLED. */
  datatype OtpStore = OtpStore(
    now: int,
    delivery: bool,
    rows: seq<OtpRow>,
    resetKeys: map<ResetToken, ResetEntry>,
    cooldowns: map<CooldownKey, int>,
    queue: seq<OtpMail>,
    log: seq<Entry>)

  function Init(delivery: bool): OtpStore {
    OtpStore(0, delivery, [], map[], map[], [], [])
  }

  // ---------- Table ----------

  function Keep(rows: seq<OtpRow>, keep: OtpRow -> bool): seq<OtpRow> {
    if rows == [] then []
    else if keep(rows[0]) then [rows[0]] + Keep(rows[1..], keep)
    else Keep(rows[1..], keep)
  }

  function Without(rows: seq<OtpRow>, u: UserId, p: Purpose): seq<OtpRow> {
    Keep(rows, (row: OtpRow) => !(row.user == u && row.purpose == p))
  }

  function WithoutId(rows: seq<OtpRow>, id: OtpId): seq<OtpRow> {
    Keep(rows, (row: OtpRow) => row.id != id)
  }

  function Unexpired(rows: seq<OtpRow>, now: int): seq<OtpRow> {
    Keep(rows, (row: OtpRow) => now <= row.expiresAt)
  }

  /** The most recently created row that has not expired. */
  function FindValid(rows: seq<OtpRow>, u: UserId, p: Purpose, now: int): Option<OtpRow> {
    if rows == [] then None
    else
      var last := rows[|rows| - 1];
      if last.user == u && last.purpose == p && now < last.expiresAt then Some(last)
      else FindValid(rows[..|rows| - 1], u, p, now)
  }

  // ---------- Redis ----------

  /** Seconds left, 0 when the key is absent or its expiry is reached. */
  function CooldownTtl(s: OtpStore, key: CooldownKey): int {
    if key in s.cooldowns && s.now < s.cooldowns[key] then s.cooldowns[key] - s.now else 0
  }

  function ResetUser(s: OtpStore, token: ResetToken): Option<UserId> {
    if token in s.resetKeys && s.now < s.resetKeys[token].expiresAt then Some(s.resetKeys[token].user) else None
  }

  // ---------- Handlers ----------

  /** Replace the user's code by a new one. */
  function Issue(s: OtpStore, u: UserId, p: Purpose, id: OtpId, code: string): OtpStore {
    var ttl := if p.PasswordReset? then RESET_OTP_TTL else VERIFY_OTP_TTL;
    s.(rows := Without(s.rows, u, p) + [OtpRow(id, u, p, Hash(code), s.now, s.now + ttl)],
       log := s.log + [Issued(u, p, id, s.now)])
  }

  /** Queue the mail and start the cooldown; a queue failure leaves the new code and no cooldown. */
  function Announce(s: OtpStore, key: CooldownKey, u: UserId, code: string, queueUp: bool): OtpStore {
    if s.delivery && !queueUp then s
    else s.(queue := if s.delivery then s.queue + [OtpMail(key, u, code, s.now)] else s.queue,
            cooldowns := s.cooldowns[key := s.now + RESEND_COOLDOWN])
  }

  function SendReset(
    s: OtpStore, email: Email, user: Option<UserId>, id: OtpId, code: string, queueUp: bool): OtpStore
  {
    if CooldownTtl(s, ForAddress(email)) > 0 || user.None? then s
    else Announce(Issue(s, user.value, PasswordReset, id, code), ForAddress(email), user.value, code, queueUp)
  }

  /** `verified` is the account's flag, absent if there is no such user. */
  function SendVerification(
    s: OtpStore, u: UserId, verified: Option<bool>, id: OtpId, code: string, queueUp: bool): OtpStore
  {
    if CooldownTtl(s, ForUser(u)) > 0 || verified != Some(false) then s
    else Announce(Issue(s, u, EmailVerify, id, code), ForUser(u), u, code, queueUp)
  }

  /** The row a submitted code is accepted for. */
  function AcceptedRow(s: OtpStore, u: UserId, p: Purpose, code: string): Option<OtpRow> {
    match FindValid(s.rows, u, p, s.now)
    case Some(row) => if Verify(row.hash, code) then Some(row) else None
    case None => None
  }

  function VerifyReset(s: OtpStore, user: Option<UserId>, code: string, token: ResetToken): OtpStore {
    if user.None? then s
    else
      var u := user.value;
      match AcceptedRow(s, u, PasswordReset, code)
      case None => s
      case Some(row) =>
        s.(rows := Without(s.rows, u, PasswordReset),
           resetKeys := s.resetKeys[token := ResetEntry(u, s.now + RESET_TOKEN_TTL)],
           log := s.log + [Verified(u, PasswordReset, row.id, row.createdAt, s.now, Some(token))])
  }

  function VerifyEmail(s: OtpStore, u: UserId, code: string): OtpStore {
    match AcceptedRow(s, u, EmailVerify, code)
    case None => s
    case Some(row) =>
      s.(rows := WithoutId(s.rows, row.id),
         log := s.log + [Verified(u, EmailVerify, row.id, row.createdAt, s.now, None)])
  }

  /** The token is consumed first; the password changes only if its user is found. */
  function ResetPassword(s: OtpStore, token: ResetToken, known: set<UserId>): OtpStore {
    match ResetUser(s, token)
    case None => s
    case Some(u) =>
      var consumed := s.(resetKeys := s.resetKeys - {token});
      if u in known then consumed.(log := s.log + [PasswordChanged(u, token, s.now)]) else consumed
  }

  // ---------- Runs ----------

  datatype Event =
    | SendResetTo(email: Email, user: Option<UserId>, id: OtpId, code: string, queueUp: bool)
    | SendVerificationTo(target: UserId, verified: Option<bool>, id: OtpId, code: string, queueUp: bool)
    | SubmitReset(user: Option<UserId>, code: string, token: ResetToken)
    | SubmitEmail(target: UserId, code: string)
    | ChangePassword(token: ResetToken, known: set<UserId>)
    | CleanupJob
    | LoseToken(token: ResetToken)
    | Tick(seconds: nat)

  function Step(s: OtpStore, e: Event): OtpStore {
    match e
    case SendResetTo(email, user, id, code, queueUp) => SendReset(s, email, user, id, code, queueUp)
    case SendVerificationTo(u, verified, id, code, queueUp) => SendVerification(s, u, verified, id, code, queueUp)
    case SubmitReset(user, code, token) => VerifyReset(s, user, code, token)
    case SubmitEmail(u, code) => VerifyEmail(s, u, code)
    case ChangePassword(token, known) => ResetPassword(s, token, known)
    case CleanupJob => s.(rows := Unexpired(s.rows, s.now))
    case LoseToken(token) => s.(resetKeys := s.resetKeys - {token})
    case Tick(d) => s.(now := s.now + d)
  }

  /** Reset tokens and row ids are random and never issued twice. */
  predicate Fresh(s: OtpStore, e: Event) {
    && (e.SubmitReset? ==> e.token !in s.resetKeys)
    && (e.SendResetTo? || e.SendVerificationTo? ==> forall row :: row in s.rows ==> row.id != e.id)
  }

  predicate FreshRun(s: OtpStore, es: seq<Event>)
    decreases |es|
  {
    es == [] || (Fresh(s, es[0]) && FreshRun(Step(s, es[0]), es[1..]))
  }

  function Run(s: OtpStore, es: seq<Event>): OtpStore
    decreases |es|
  {
    if es == [] then s else Run(Step(s, es[0]), es[1..])
  }
}
