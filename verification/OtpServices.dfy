/** The one-time-code services, each proved to take one step of the code model and, where it touches
    accounts or sessions, one step of those models. */
module OtpServices {
  import opened Common
  import opened Repositories
  import opened AuthServices
  import opened OtpModel
  import A = AccountModel
  import AccountCoherence
  import SessionModel

  function IdOf(user: Option<User>): Option<UserId> {
    if user.Some? then Some(user.value.id) else None
  }

  class OtpBackend {
    const auth: AuthBackend
    const codes: VerificationTokenRepository
    const redis: RedisClient
    const emails: EmailQueue
    ghost var log: seq<Entry>

    constructor (auth: AuthBackend, codes: VerificationTokenRepository, redis: RedisClient, emails: EmailQueue)
      ensures this.auth == auth && this.codes == codes && this.redis == redis && this.emails == emails && log == []
    {
      this.auth, this.codes, this.redis, this.emails := auth, codes, redis, emails;
      log := [];
    }

    /** The code protocol's state at a given instant. */
    ghost function Codes(now: int): OtpStore
      reads this`log, codes, redis, emails
    {
      OtpStore(now, emails.delivery, codes.rows, redis.resetKeys, redis.cooldowns, emails.queue, log)
    }

    /** Replace the code, queue the mail, and start the cooldown unless the queue failed. */
    method IssueAndAnnounce(now: int, u: UserId, p: Purpose, id: OtpId, code: string, key: CooldownKey, queueUp: bool)
      returns (ok: bool)
      modifies this`log, codes, redis, emails
      ensures Codes(now) == Announce(Issue(old(Codes(now)), u, p, id, code), key, u, code, queueUp)
      ensures ok == (!emails.delivery || queueUp)
      ensures emails.queue ==
              if emails.delivery && queueUp then old(emails.queue) + [OtpMail(key, u, code, now)] else old(emails.queue)
      ensures redis.cooldowns == if ok then old(redis.cooldowns)[key := now + 2 * 60] else old(redis.cooldowns)
      ensures exists row ::
                && row in codes.rows && row == OtpRow(id, u, p, Hash(code), now, row.expiresAt)
                && row.expiresAt == now + if p.PasswordReset? then 10 * 60 else 24 * 60 * 60
    {
      codes.InvalidateByUserIdAndType(u, p);
      var ttl := if p.PasswordReset? then RESET_OTP_TTL else VERIFY_OTP_TTL;
      codes.Create(OtpRow(id, u, p, Hash(code), now, now + ttl));
      log := log + [Issued(u, p, id, now)];
      ok := emails.AddIfEnabled(OtpMail(key, u, code, now), queueUp);
      if ok {
        redis.SetCooldown(now, key, RESEND_COOLDOWN);
      }
    }

    /** The answer is whether a code was sent and after how many seconds the next one may be.
        An unknown address is answered like a sent code. */
    method SendPasswordResetOtp(now: int, email: Email, id: OtpId, code: string, queueUp: bool)
      returns (r: Result<(bool, int), Failure>)
      requires AccountCoherence.TableOk(auth.users.users)
      modifies this`log, codes, redis, emails
      ensures var user := A.FindByEmail(auth.users.users, email);
              && Codes(now) == SendReset(old(Codes(now)), email, IdOf(user), id, code, queueUp)
              && var ttl := CooldownTtl(old(Codes(now)), ForAddress(email));
                 r == if ttl > 0 then Ok((false, ttl))
                      else if user.Some? && emails.delivery && !queueUp then Err(Conflict)
                      else Ok((true, 120))
    {
      var ttl := redis.GetCooldownTtl(now, ForAddress(email));
      if ttl > 0 {
        return Ok((false, ttl));
      }
      var user := auth.users.FindByEmail(email);
      if user.None? {
        return Ok((true, RESEND_COOLDOWN));
      }
      var ok := IssueAndAnnounce(now, user.value.id, PasswordReset, id, code, ForAddress(email), queueUp);
      r := if ok then Ok((true, RESEND_COOLDOWN)) else Err(Conflict);
    }

    method SendVerificationOtp(now: int, u: UserId, id: OtpId, code: string, queueUp: bool)
      returns (r: Result<(bool, int), Failure>)
      modifies this`log, codes, redis, emails
      ensures var table := auth.users.users;
              var verified := if u in table then Some(table[u].isEmailVerified) else None;
              && Codes(now) == SendVerification(old(Codes(now)), u, verified, id, code, queueUp)
              && var ttl := CooldownTtl(old(Codes(now)), ForUser(u));
                 r == if ttl > 0 then Ok((false, ttl))
                      else if verified != Some(false) || (emails.delivery && !queueUp) then Err(Conflict)
                      else Ok((true, 120))
    {
      var ttl := redis.GetCooldownTtl(now, ForUser(u));
      if ttl > 0 {
        return Ok((false, ttl));
      }
      var user := auth.users.FindById(u);
      if user.None? || user.value.isEmailVerified {
        return Err(Conflict);
      }
      var ok := IssueAndAnnounce(now, u, EmailVerify, id, code, ForUser(u), queueUp);
      r := if ok then Ok((true, RESEND_COOLDOWN)) else Err(Conflict);
    }

    method VerifyPasswordResetOtp(now: int, email: Email, code: string, token: ResetToken)
      returns (r: Result<ResetToken, Failure>)
      requires AccountCoherence.TableOk(auth.users.users)
      modifies this`log, codes, redis
      ensures var user := A.FindByEmail(auth.users.users, email);
              && Codes(now) == VerifyReset(old(Codes(now)), IdOf(user), code, token)
              && r == (if user.Some? && AcceptedRow(old(Codes(now)), user.value.id, PasswordReset, code).Some?
                       then Ok(token) else Err(Unauthorized))
    {
      var user := auth.users.FindByEmail(email);
      if user.None? {
        return Err(Unauthorized);
      }
      var row := codes.FindValidByUserIdAndType(now, user.value.id, PasswordReset);
      if row.None? || !Verify(row.value.hash, code) {
        return Err(Unauthorized);
      }
      codes.InvalidateByUserIdAndType(user.value.id, PasswordReset);
      redis.SetResetToken(now, token, user.value.id);
      log := log + [Verified(user.value.id, PasswordReset, row.value.id, row.value.createdAt, now, Some(token))];
      r := Ok(token);
    }

    /** The account's flag and the spent code change together; the user cache is left alone. */
    method VerifyEmailOtp(now: int, u: UserId, code: string) returns (refused: Option<Failure>)
      modifies this`log, codes, auth.users
      ensures Codes(now) == VerifyEmail(old(Codes(now)), u, code)
      ensures var accepted := AcceptedRow(old(Codes(now)), u, EmailVerify, code).Some?;
              && refused == (if accepted then None else Some(Unauthorized))
              && (accepted && u in old(auth.users.users) ==>
                    auth.users.users == old(auth.users.users)[u := old(auth.users.users)[u].(isEmailVerified := true)])
              && auth.Accounts(now) ==
                 if accepted then A.MarkVerified(old(auth.Accounts(now)), u) else old(auth.Accounts(now))
    {
      var row := codes.FindValidByUserIdAndType(now, u, EmailVerify);
      if row.None? || !Verify(row.value.hash, code) {
        return Some(Unauthorized);
      }
      var user := auth.users.FindById(u);
      if user.Some? {
        auth.users.Update(u, user.value.(isEmailVerified := true));
      }
      codes.Delete(row.value.id);
      log := log + [Verified(u, EmailVerify, row.value.id, row.value.createdAt, now, None)];
      refused := None;
    }

    /** Consume the token, then replace the password, drop every session and forget the cached user. */
    method ResetPassword(now: int, token: ResetToken, newPassword: string) returns (refused: Option<Failure>)
      modifies this`log, redis, auth.users, auth.userCache, auth.sessions, auth.cache
      ensures Codes(now) == OtpModel.ResetPassword(old(Codes(now)), token, old(auth.users.users).Keys)
      ensures var u := ResetUser(old(Codes(now)), token);
              if u.Some? && u.value in old(auth.users.users)
              then && refused.None?
                   && auth.Accounts(now) == A.SetPassword(old(auth.Accounts(now)), u.value, newPassword)
                   && auth.users.users ==
                      old(auth.users.users)[
                        u.value := old(auth.users.users)[u.value].(passwordHash := Some(Hash(newPassword)))]
                   && auth.Sessions(now) == SessionModel.RevokeAll(old(auth.Sessions(now)), u.value)
              else && refused == Some(Unauthorized)
                   && auth.Accounts(now) == old(auth.Accounts(now)) && auth.Sessions(now) == old(auth.Sessions(now))
    {
      var userId := redis.ConsumeResetToken(now, token);
      if userId.None? {
        return Some(Unauthorized);
      }
      var user := auth.users.FindById(userId.value);
      if user.None? {
        return Some(Unauthorized);
      }
      auth.ReplacePassword(now, userId.value, user.value, newPassword, None);
      log := log + [PasswordChanged(userId.value, token, now)];
      refused := None;
    }
  }
}
