/** The tables, caches and Redis structures the services share, as objects updated in place. */
module Repositories {
  import opened Common
  import opened Tiers
  import SessionModel
  import AccountModel
  import AccountCoherence
  import BillingModel
  import OtpModel
  import OtpSafety

  // ---------- Users ----------

  class UserRepository {
    var users: map<UserId, User>

    method FindById(u: UserId) returns (r: Option<User>)
      ensures r == AccountModel.FindById(users, u)
    {
      r := if u in users then Some(users[u]) else None;
    }

    method FindByEmail(m: Email) returns (r: Option<User>)
      requires AccountCoherence.TableOk(users)
      ensures r == AccountModel.FindByEmail(users, m)
    {
      if u :| u in users && users[u].email == m {
        AccountCoherence.FindByEmailIs(users, u);
        r := Some(users[u]);
      } else {
        r := None;
      }
    }

    /** The account that bears a name; names are unique. */
    method FindByUsername(name: string) returns (r: Option<User>)
      requires AccountCoherence.TableOk(users)
      ensures r.Some? ==> r.value.id in users && users[r.value.id] == r.value && r.value.username == Some(name)
      ensures r.None? ==> forall u :: u in users ==> users[u].username != Some(name)
    {
      if u :| u in users && users[u].username == Some(name) {
        r := Some(users[u]);
      } else {
        r := None;
      }
    }

    method Insert(user: User)
      modifies this
      ensures users == old(users)[user.id := user]
    {
      users := users[user.id := user];
    }

    method Update(u: UserId, user: User)
      requires u in users
      modifies this
      ensures users == old(users)[u := user]
    {
      users := users[u := user];
    }

    /** Refused if another account bears the name. */
    method UpdateUsername(u: UserId, name: Option<string>) returns (ok: bool)
      requires u in users
      modifies this
      ensures ok == !(name.Some? && AccountModel.UsernameTaken(old(users), u, name.value))
      ensures users == if ok then old(users)[u := old(users)[u].(username := name)] else old(users)
    {
      if name.Some? {
        if v :| v in users && v != u && users[v].username == name {
          return false;
        }
      }
      users := users[u := users[u].(username := name)];
      ok := true;
    }

    method UpdateTier(u: UserId, tierId: int)
      modifies this
      ensures users == if u in old(users) then old(users)[u := old(users)[u].(tierId := tierId)] else old(users)
    {
      if u in users {
        users := users[u := users[u].(tierId := tierId)];
      }
    }
  }

  /** `demoted` and `tierWrittenAt` are the history the coherence theorems speak about. */
  class UserCache {
    var byId: map<UserId, AccountModel.Cached>
    var byEmail: map<Email, AccountModel.Cached>
    ghost var demoted: set<UserId>
    ghost var tierWrittenAt: map<UserId, int>

    method GetById(now: int, u: UserId) returns (r: Option<User>)
      ensures r == if u in byId && now < byId[u].expiresAt then Some(byId[u].user) else None
    {
      r := if u in byId && now < byId[u].expiresAt then Some(byId[u].user) else None;
    }

    method GetByEmail(now: int, m: Email) returns (r: Option<User>)
      ensures r == if m in byEmail && now < byEmail[m].expiresAt then Some(byEmail[m].user) else None
    {
      r := if m in byEmail && now < byEmail[m].expiresAt then Some(byEmail[m].user) else None;
    }

    /** Both keys get the record; `sourced` says that it was just read from the table. */
    method Set(now: int, user: User, ghost sourced: bool)
      modifies this
      ensures byId == old(byId)[user.id := AccountModel.Cached(user, now + 300)]
      ensures byEmail == old(byEmail)[user.email := AccountModel.Cached(user, now + 300)]
      ensures demoted == if sourced then old(demoted) - {user.id} else old(demoted)
      ensures tierWrittenAt == old(tierWrittenAt)
    {
      byId := byId[user.id := AccountModel.Cached(user, now + AccountModel.CACHE_TTL)];
      byEmail := byEmail[user.email := AccountModel.Cached(user, now + AccountModel.CACHE_TTL)];
      if sourced {
        demoted := demoted - {user.id};
      }
    }

    method InvalidateUser(u: UserId, email: Option<Email>)
      modifies this
      ensures byId == old(byId) - {u}
      ensures byEmail == match email case Some(m) => old(byEmail) - {m} case None => old(byEmail)
      ensures demoted == old(demoted) - {u} && tierWrittenAt == old(tierWrittenAt)
    {
      byId := byId - {u};
      if email.Some? {
        byEmail := byEmail - {email.value};
      }
      demoted := demoted - {u};
    }

    /** History of a tier write; `byWorker` says that no invalidation follows it. */
    ghost method NoteTierWrite(now: int, u: UserId, byWorker: bool)
      modifies this`demoted, this`tierWrittenAt
      ensures tierWrittenAt == old(tierWrittenAt)[u := now]
      ensures demoted == if byWorker then old(demoted) + {u} else old(demoted)
    {
      tierWrittenAt := tierWrittenAt[u := now];
      if byWorker {
        demoted := demoted + {u};
      }
    }
  }

  // ---------- Sessions ----------

  class SessionRepository {
    var rows: map<SessionId, SessionModel.Row>

    method FindById(id: SessionId) returns (r: Option<SessionModel.Row>)
      ensures r == if id in rows then Some(rows[id]) else None
    {
      r := if id in rows then Some(rows[id]) else None;
    }

    method Create(id: SessionId, u: UserId, expiresAt: int)
      modifies this
      ensures rows == old(rows)[id := SessionModel.Row(u, expiresAt)]
    {
      rows := rows[id := SessionModel.Row(u, expiresAt)];
    }

    method Delete(id: SessionId)
      modifies this
      ensures rows == old(rows) - {id}
    {
      rows := rows - {id};
    }

    /** Deletes the rows of `u`, keeping at most the one excepted. */
    method DeleteByUserId(u: UserId, except: Option<SessionId>)
      modifies this
      ensures rows == map id | id in old(rows) && (old(rows)[id].userId != u || except == Some(id)) :: old(rows)[id]
    {
      rows := rows - (SessionModel.RowsOf(rows, u) - if except.Some? then {except.value} else {});
    }

    method DeleteExpired(now: int)
      modifies this
      ensures rows == map id | id in old(rows) && now <= old(rows)[id].expiresAt :: old(rows)[id]
    {
      rows := rows - SessionModel.ExpiredRows(rows, now);
    }

    method CountActiveByUserId(now: int, u: UserId) returns (n: nat)
      ensures n == |SessionModel.ActiveIn(rows, now, u)|
    {
      var active := set id | id in rows && rows[id].userId == u && rows[id].expiresAt > now;
      assert active == SessionModel.ActiveIn(rows, now, u);
      n := |active|;
    }
  }

  class SessionCache {
    var keys: map<SessionId, SessionModel.CacheEntry>
    var sets: map<UserId, set<SessionId>>

    method GetSessionUserId(now: int, id: SessionId) returns (r: Option<UserId>)
      ensures r == if id in keys && now < keys[id].expiresAt then Some(keys[id].userId) else None
    {
      r := if id in keys && now < keys[id].expiresAt then Some(keys[id].userId) else None;
    }

    method AddSession(now: int, u: UserId, id: SessionId)
      modifies this
      ensures keys == old(keys)[id := SessionModel.CacheEntry(u, now + 7 * 24 * 60 * 60)]
      ensures sets == old(sets)[u := SessionModel.MembersOf(old(sets), u) + {id}]
    {
      keys := keys[id := SessionModel.CacheEntry(u, now + SessionModel.SESSION_TTL)];
      sets := sets[u := SessionModel.MembersOf(sets, u) + {id}];
    }

    method RemoveSession(u: UserId, id: SessionId)
      modifies this
      ensures keys == old(keys) - {id}
      ensures sets == old(sets)[u := SessionModel.MembersOf(old(sets), u) - {id}]
    {
      keys := keys - {id};
      sets := sets[u := SessionModel.MembersOf(sets, u) - {id}];
    }

    /** A loop over a snapshot of the set's members, one key at a time, then the set. */
    method RemoveAllSessionsForUser(u: UserId)
      modifies this
      ensures keys == old(keys) - SessionModel.MembersOf(old(sets), u)
      ensures sets == old(sets) - {u}
    {
      var sessionIds := Enumerate(SessionModel.MembersOf(sets, u));
      for i := 0 to |sessionIds|
        invariant keys == old(keys) - (set id | id in sessionIds[..i])
        invariant sets == old(sets)
      {
        assert sessionIds[..i + 1] == sessionIds[..i] + [sessionIds[i]];
        keys := keys - {sessionIds[i]};
      }
      assert (set id | id in sessionIds[..|sessionIds|]) == SessionModel.MembersOf(sets, u);
      sets := sets - {u};
    }

    method CountActiveByUserId(u: UserId) returns (n: nat)
      ensures n == |SessionModel.MembersOf(sets, u)|
    {
      n := |SessionModel.MembersOf(sets, u)|;
    }
  }

  /** JWT signing: a token verifies if and only if it was signed here and has not expired. */
  class TokenSigner {
    const jwtTtl: int
    var issued: map<SessionId, SessionModel.Issue>

    method VerifyToken(now: int, t: SessionModel.Token) returns (valid: bool)
      ensures valid == SessionModel.VerifiesIn(issued, jwtTtl, now, t)
    {
      valid := SessionModel.VerifiesIn(issued, jwtTtl, now, t);
    }

    /** Access and refresh token of a new session; `root` is the login it descends from. */
    method Sign(now: int, u: UserId, id: SessionId, root: SessionId)
      returns (access: SessionModel.Token, refresh: SessionModel.Token)
      modifies this
      ensures issued == old(issued)[id := SessionModel.Issue(u, now, root)]
      ensures access == SessionModel.Token(u, id, SessionModel.Access, now + 15 * 60)
      ensures refresh == SessionModel.Token(u, id, SessionModel.Refresh, now + jwtTtl)
    {
      issued := issued[id := SessionModel.Issue(u, now, root)];
      access := SessionModel.Token(u, id, SessionModel.Access, now + SessionModel.ACCESS_TTL);
      refresh := SessionModel.Token(u, id, SessionModel.Refresh, now + jwtTtl);
    }
  }

  // ---------- Billing ----------

  class SubscriptionRepository {
    var rows: map<UserId, BillingModel.Subscription>

    method FindByUserId(u: UserId) returns (r: Option<BillingModel.Subscription>)
      ensures r == if u in rows then Some(rows[u]) else None
    {
      r := if u in rows then Some(rows[u]) else None;
    }

    /** The user whose row carries a Stripe subscription id; the ids are unique. */
    method FindByStripeSubscriptionId(stripeId: BillingModel.StripeId) returns (r: Option<UserId>)
      requires BillingModel.Unique(rows)
      ensures r == BillingModel.FindByStripeId(rows, stripeId)
    {
      if u :| u in rows && rows[u].stripeId == stripeId {
        BillingModel.FindIs(rows, u);
        r := Some(u);
      } else {
        r := None;
      }
    }

    ghost predicate StripeIdTaken(u: UserId, stripeId: BillingModel.StripeId)
      reads this
    {
      exists v :: v in rows && v != u && rows[v].stripeId == stripeId
    }

    /** Refused if the user does not exist or another row has the Stripe id. */
    method CreateWithTrx(known: set<UserId>, u: UserId, row: BillingModel.Subscription) returns (ok: bool)
      requires u !in rows
      modifies this
      ensures ok == (u in known && !old(StripeIdTaken(u, row.stripeId)))
      ensures rows == if ok then old(rows)[u := row] else old(rows)
    {
      if v :| v in rows && v != u && rows[v].stripeId == row.stripeId {
        return false;
      }
      ok := u in known;
      if ok {
        rows := rows[u := row];
      }
    }

    /** Refused if another row has the Stripe id. */
    method UpdateWithTrx(u: UserId, row: BillingModel.Subscription) returns (ok: bool)
      requires u in rows
      modifies this
      ensures ok == !old(StripeIdTaken(u, row.stripeId))
      ensures rows == if ok then old(rows)[u := row] else old(rows)
    {
      if v :| v in rows && v != u && rows[v].stripeId == row.stripeId {
        return false;
      }
      rows := rows[u := row];
      ok := true;
    }

    method MarkReminded(u: UserId, at: int)
      requires u in rows
      modifies this
      ensures rows == old(rows)[u := old(rows)[u].(remindedAt := Some(at))]
    {
      rows := rows[u := rows[u].(remindedAt := Some(at))];
    }

    /** Active, not reminded, and ending within the next seven days. */
    method FindDueForReminder(now: int) returns (due: seq<UserId>)
      ensures BillingModel.NoRepeats(due)
      ensures forall u :: u in due <==>
                && u in rows && rows[u].status.Active? && rows[u].remindedAt.None?
                && 0 < rows[u].periodEnd - now <= 7 * 24 * 60 * 60
    {
      due := Enumerate(set u | u in rows && BillingModel.ReminderDue(rows[u], now));
    }

    /** Not renewed, and ended more than seven days ago. */
    method FindDueForDemotion(now: int) returns (due: seq<UserId>)
      ensures BillingModel.NoRepeats(due)
      ensures forall u :: u in due <==>
                && u in rows && now - rows[u].periodEnd > 7 * 24 * 60 * 60
                && (rows[u].status.Canceled? || rows[u].status.PastDue? || rows[u].status.Unpaid?
                    || rows[u].status.IncompleteExpired?)
    {
      due := Enumerate(set u | u in rows && BillingModel.DemotionDue(rows[u], now));
    }
  }

  class PaymentRepository {
    var rows: seq<BillingModel.Payment>

    method Create(payment: BillingModel.Payment)
      modifies this
      ensures rows == old(rows) + [payment]
    {
      rows := rows + [payment];
    }
  }

  class ProcessedStripeEventRepository {
    var processedAt: map<BillingModel.EventId, int>

    method Exists(id: BillingModel.EventId) returns (found: bool)
      ensures found == (id in processedAt)
    {
      found := id in processedAt;
    }

    method Insert(now: int, id: BillingModel.EventId)
      modifies this
      ensures processedAt == old(processedAt)[id := now]
    {
      processedAt := processedAt[id := now];
    }

    method DeleteOlderThan(cutoff: int)
      modifies this
      ensures processedAt == map id | id in old(processedAt) && cutoff <= old(processedAt)[id] :: old(processedAt)[id]
    {
      processedAt := processedAt - (set id | id in processedAt && processedAt[id] < cutoff);
    }
  }

  class Mailer {
    var outbox: seq<BillingModel.Mail>

    method Send(mail: BillingModel.Mail)
      modifies this
      ensures outbox == old(outbox) + [mail]
    {
      outbox := outbox + [mail];
    }
  }

  // ---------- Social accounts ----------

  /** Each provider account is linked to at most one user. */
  class SocialProviderRepository {
    var links: map<(int, int), UserId>

    method FindByProvider(provider: int, providerId: int) returns (r: Option<UserId>)
      ensures r == if (provider, providerId) in links then Some(links[(provider, providerId)]) else None
    {
      r := if (provider, providerId) in links then Some(links[(provider, providerId)]) else None;
    }

    method Create(provider: int, providerId: int, u: UserId)
      modifies this
      ensures links == old(links)[(provider, providerId) := u]
    {
      links := links[(provider, providerId) := u];
    }
  }

  // ---------- One-time codes ----------

  class VerificationTokenRepository {
    var rows: seq<OtpModel.OtpRow>

    /** Latest unexpired row first. */
    method FindValidByUserIdAndType(now: int, u: UserId, p: OtpModel.Purpose) returns (r: Option<OtpModel.OtpRow>)
      ensures r == OtpModel.FindValid(rows, u, p, now)
      ensures OtpSafety.IsLatestValid(rows, u, p, now, r)
    {
      OtpSafety.FindsLatest(rows, u, p, now);
      r := OtpModel.FindValid(rows, u, p, now);
    }

    method InvalidateByUserIdAndType(u: UserId, p: OtpModel.Purpose)
      modifies this
      ensures rows == OtpModel.Without(old(rows), u, p)
      ensures forall row :: row in rows <==> row in old(rows) && !(row.user == u && row.purpose == p)
    {
      OtpSafety.WithoutRows(rows, u, p);
      rows := OtpModel.Without(rows, u, p);
    }

    method Create(row: OtpModel.OtpRow)
      modifies this
      ensures rows == old(rows) + [row]
    {
      rows := rows + [row];
    }

    method Delete(id: OtpModel.OtpId)
      modifies this
      ensures rows == OtpModel.WithoutId(old(rows), id)
      ensures forall row :: row in rows <==> row in old(rows) && row.id != id
    {
      OtpSafety.KeepRows(rows, (row: OtpModel.OtpRow) => row.id != id);
      rows := OtpModel.WithoutId(rows, id);
    }

    method DeleteExpired(now: int)
      modifies this
      ensures rows == OtpModel.Unexpired(old(rows), now)
      ensures forall row :: row in rows <==> row in old(rows) && now <= row.expiresAt
    {
      OtpSafety.KeepRows(rows, (row: OtpModel.OtpRow) => now <= row.expiresAt);
      rows := OtpModel.Unexpired(rows, now);
    }
  }

  /** The cooldown keys and the single-use reset tokens. */
  class RedisClient {
    var cooldowns: map<OtpModel.CooldownKey, int>
    var resetKeys: map<OtpModel.ResetToken, OtpModel.ResetEntry>

    method GetCooldownTtl(now: int, key: OtpModel.CooldownKey) returns (ttl: int)
      ensures ttl == if key in cooldowns && now < cooldowns[key] then cooldowns[key] - now else 0
    {
      ttl := if key in cooldowns && now < cooldowns[key] then cooldowns[key] - now else 0;
    }

    method SetCooldown(now: int, key: OtpModel.CooldownKey, ttl: int)
      modifies this
      ensures cooldowns == old(cooldowns)[key := now + ttl] && resetKeys == old(resetKeys)
    {
      cooldowns := cooldowns[key := now + ttl];
    }

    method SetResetToken(now: int, token: OtpModel.ResetToken, u: UserId)
      modifies this
      ensures resetKeys == old(resetKeys)[token := OtpModel.ResetEntry(u, now + 10 * 60)]
      ensures cooldowns == old(cooldowns)
    {
      resetKeys := resetKeys[token := OtpModel.ResetEntry(u, now + OtpModel.RESET_TOKEN_TTL)];
    }

    /** Get, then delete: a token is consumed at most once. */
    method ConsumeResetToken(now: int, token: OtpModel.ResetToken) returns (r: Option<UserId>)
      modifies this
      ensures r == if token in old(resetKeys) && now < old(resetKeys)[token].expiresAt
                   then Some(old(resetKeys)[token].user) else None
      ensures resetKeys == if r.Some? then old(resetKeys) - {token} else old(resetKeys)
      ensures cooldowns == old(cooldowns)
    {
      r := if token in resetKeys && now < resetKeys[token].expiresAt then Some(resetKeys[token].user) else None;
      if r.Some? {
        resetKeys := resetKeys - {token};
      }
    }
  }

  /** The email queue behind its gate. */
  class EmailQueue {
    const delivery: bool
    var queue: seq<OtpModel.OtpMail>

    /** `up` says whether the queue can be reached. */
    method AddIfEnabled(mail: OtpModel.OtpMail, up: bool) returns (ok: bool)
      modifies this
      ensures ok == (!delivery || up)
      ensures queue == if delivery && up then old(queue) + [mail] else old(queue)
    {
      if !delivery {
        return true;
      }
      ok := up;
      if up {
        queue := queue + [mail];
      }
    }
  }
}
