/** The session and account services, each proved to take one step of the models. */
module AuthServices {
  import opened Common
  import opened Tiers
  import opened SessionModel
  import opened Repositories
  import A = AccountModel
  import AccountCoherence

  datatype Tokens = Tokens(user: User, access: Token, refresh: Token)

  /** What a social profile resolves to: a linked user, a link whose user is missing, an unlinked user
      with that address, or nobody yet. */
  datatype SocialCase = Returning(user: User) | Orphan | Linking(user: User) | SignUp

  ghost function CaseOf(
    users: map<UserId, User>, links: map<(int, int), UserId>, account: (int, int), email: Email): SocialCase
  {
    if account in links
    then if links[account] in users then Returning(users[links[account]]) else Orphan
    else match A.FindByEmail(users, email)
         case Some(user) => Linking(user)
         case None => SignUp
  }

  /** What a login or refresh hands out: an access token the guard passes for fifteen minutes, a refresh
      token that resolves to the user, and under the new id a row and a key that live for seven days. */
  ghost predicate Granted(s: Store, user: User, newId: SessionId, t: Tokens) {
    && t.user == user
    && t.access.sub == user.id && t.access.jti == newId && t.access.exp == s.now + 15 * 60
    && UsableAs(s, t.access, Access)
    && t.refresh.sub == user.id && t.refresh.jti == newId && t.refresh.exp == s.now + s.jwtTtl
    && t.refresh.kind.Refresh? && (0 < s.jwtTtl ==> FastLookup(s, t.refresh) == Some(user.id))
    && newId in s.rows && s.rows[newId] == Row(user.id, s.now + 7 * 24 * 60 * 60)
    && newId in s.keys && s.keys[newId] == CacheEntry(user.id, s.now + 7 * 24 * 60 * 60)
  }

  /** One login step, and its answer: tokens for the user if the limit allows, `Forbidden` if not. */
  ghost predicate LoggedIn(before: Store, after: Store, user: User, newId: SessionId, r: Result<Tokens, Failure>) {
    && after == Login(before, user.id, user.tierId, newId)
    && if WithinLimit(before, user.id, user.tierId)
       then r.Ok? && Granted(after, user, newId, r.value)
       else r == Err(Forbidden)
  }

  class AuthBackend {
    const users: UserRepository
    const userCache: UserCache
    const sessions: SessionRepository
    const cache: SessionCache
    const signer: TokenSigner
    const socials: SocialProviderRepository

    constructor (
      users: UserRepository, userCache: UserCache,
      sessions: SessionRepository, cache: SessionCache, signer: TokenSigner, socials: SocialProviderRepository)
      ensures this.users == users && this.userCache == userCache
      ensures this.sessions == sessions && this.cache == cache
      ensures this.signer == signer && this.socials == socials
    {
      this.users, this.userCache := users, userCache;
      this.sessions, this.cache, this.signer, this.socials := sessions, cache, signer, socials;
    }

    /** The session store these objects hold at a given instant. */
    ghost function Sessions(now: int): Store
      reads sessions, cache, signer
    {
      Store(now, signer.jwtTtl, sessions.rows, cache.keys, cache.sets, signer.issued)
    }

    /** The account table and cache at a given instant. */
    ghost function Accounts(now: int): A.Accounts
      reads users, userCache
    {
      A.Accounts(now, users.users, userCache.byId, userCache.byEmail, userCache.demoted, userCache.tierWrittenAt)
    }

    // ---------- Tier enforcement ----------

    /** Redis count first, table count when it is zero. */
    method EnforceSessionLimit(now: int, user: User) returns (refused: Option<Failure>)
      ensures refused == if WithinLimit(Sessions(now), user.id, user.tierId) then None else Some(Forbidden)
      ensures var members := if user.id in cache.sets then cache.sets[user.id] else {};
              var active := set id | id in sessions.rows && sessions.rows[id].userId == user.id
                                     && now < sessions.rows[id].expiresAt;
              refused.None? <==>
                (if members == {} then |active| else |members|) < (if user.tierId == PREMIUM_TIER_ID then 3 else 1)
    {
      var activeCount := cache.CountActiveByUserId(user.id);
      if activeCount == 0 {
        activeCount := sessions.CountActiveByUserId(now, user.id);
      }
      assert (set id | id in sessions.rows && sessions.rows[id].userId == user.id
                       && now < sessions.rows[id].expiresAt) == ActiveIn(sessions.rows, now, user.id);
      refused := if activeCount >= MaxSessions(user.tierId) then Some(Forbidden) else None;
    }

    /** The limit check and, below it, row, cache entry and tokens of a new session. */
    method CreateSession(now: int, user: User, newId: SessionId) returns (r: Result<Tokens, Failure>)
      modifies sessions, cache, signer
      ensures Sessions(now) == Login(old(Sessions(now)), user.id, user.tierId, newId)
      ensures r.Ok? <==> WithinLimit(old(Sessions(now)), user.id, user.tierId)
      ensures r.Err? ==> r.error == Forbidden
      ensures r.Ok? ==> Granted(Sessions(now), user, newId, r.value)
    {
      var refused := EnforceSessionLimit(now, user);
      if refused.Some? {
        return Err(refused.value);
      }
      sessions.Create(newId, user.id, now + SESSION_TTL);
      cache.AddSession(now, user.id, newId);
      var access, refresh := signer.Sign(now, user.id, newId, newId);
      r := Ok(Tokens(user, access, refresh));
    }

    // ---------- Login ----------

    method LoginWithEmail(now: int, email: Email, password: string, newId: SessionId)
      returns (r: Result<Tokens, Failure>)
      requires AccountCoherence.TableOk(users.users)
      modifies userCache, sessions, cache, signer
      ensures Accounts(now) == A.LoginRead(old(Accounts(now)), email)
      ensures var user := A.ReadByEmail(old(Accounts(now)), email);
              if A.Accepts(user, password)
              then && Sessions(now) == Login(old(Sessions(now)), user.value.id, user.value.tierId, newId)
                   && (r.Ok? <==> WithinLimit(old(Sessions(now)), user.value.id, user.value.tierId))
                   && (r.Ok? ==> Granted(Sessions(now), user.value, newId, r.value))
                   && (r.Err? ==> r.error == Forbidden)
              else r == Err(Unauthorized) && Sessions(now) == old(Sessions(now))
    {
      var user := userCache.GetByEmail(now, email);
      if user.None? {
        user := users.FindByEmail(email);
        if user.Some? {
          userCache.Set(now, user.value, true);
        }
      }
      if user.None? || user.value.passwordHash.None? {
        return Err(Unauthorized);
      }
      if !Verify(user.value.passwordHash.value, password) {
        return Err(Unauthorized);
      }
      r := CreateSession(now, user.value, newId);
    }

    // ---------- OAuth ----------

    /** `provider` is absent if the state token does not verify; the address may be absent too. */
    method OAuthCallback(
      now: int, provider: Option<int>, providerId: int, email: Option<Email>, verified: bool,
      newUserId: UserId, newId: SessionId) returns (r: Result<Tokens, Failure>)
      requires AccountCoherence.TableOk(users.users)
      modifies users, socials, sessions, cache, signer
      ensures provider.None? || email.None? ==>
                && r == Err(Unauthorized) && Accounts(now) == old(Accounts(now))
                && Sessions(now) == old(Sessions(now)) && socials.links == old(socials.links)
      ensures provider.Some? && email.Some? ==>
                var account := (provider.value, providerId);
                match CaseOf(old(users.users), old(socials.links), account, email.value)
                case Orphan =>
                  && r == Err(Unauthorized) && Sessions(now) == old(Sessions(now))
                  && Accounts(now) == old(Accounts(now)) && socials.links == old(socials.links)
                case Returning(user) =>
                  && Accounts(now) == old(Accounts(now)) && socials.links == old(socials.links)
                  && LoggedIn(old(Sessions(now)), Sessions(now), user, newId, r)
                case Linking(user) =>
                  && Accounts(now) == old(Accounts(now)) && socials.links == old(socials.links)[account := user.id]
                  && LoggedIn(old(Sessions(now)), Sessions(now), user, newId, r)
                case SignUp =>
                  && Accounts(now) == A.CreateOAuthUser(old(Accounts(now)), newUserId, email.value, verified)
                  && socials.links == old(socials.links)[account := newUserId]
                  && var user := User(newUserId, email.value, None, None, verified, None, 1, FREE_TIER_ID);
                     users.users == old(users.users)[newUserId := user]
                     && LoggedIn(old(Sessions(now)), Sessions(now), user, newId, r)
    {
      if provider.None? || email.None? {
        return Err(Unauthorized);
      }
      var user: User;
      var linked := socials.FindByProvider(provider.value, providerId);
      if linked.Some? {
        var found := users.FindById(linked.value);
        if found.None? {
          return Err(Unauthorized);
        }
        user := found.value;
      } else {
        var existing := users.FindByEmail(email.value);
        if existing.Some? {
          user := existing.value;
        } else {
          user := User(newUserId, email.value, None, None, verified, None, A.OAUTH_PERMISSIONS, FREE_TIER_ID);
          users.Insert(user);
        }
        socials.Create(provider.value, providerId, user.id);
      }
      r := CreateSession(now, user, newId);
    }

    // ---------- Refresh ----------

    /** Verification, then the cache, then the row. */
    method ResolveRefresh(now: int, t: Token) returns (userId: Option<UserId>)
      ensures userId == FastLookup(Sessions(now), t)
    {
      var verified := signer.VerifyToken(now, t);
      if !verified || !t.kind.Refresh? {
        return None;
      }
      userId := cache.GetSessionUserId(now, t.jti);
      if userId.None? {
        var row := sessions.FindById(t.jti);
        if row.None? || row.value.expiresAt <= now {
          return None;
        }
        userId := Some(row.value.userId);
      }
    }

    /** The user record of a refresh, stored again under both keys. */
    method ReadForRefresh(now: int, u: UserId) returns (user: Option<User>)
      modifies userCache
      ensures user == A.ReadById(old(Accounts(now)), u)
      ensures Accounts(now) == A.RefreshRead(old(Accounts(now)), u)
    {
      user := userCache.GetById(now, u);
      ghost var hit := user.Some?;
      if user.None? {
        user := users.FindById(u);
      }
      if user.Some? {
        userCache.Set(now, user.value, !hit);
      }
    }

    /** Rotation: the old row and cache entries go, a new session of the same lineage comes. */
    method RotateSession(now: int, user: User, oldId: SessionId, newId: SessionId) returns (r: Tokens)
      requires oldId in signer.issued
      modifies sessions, cache, signer
      ensures Sessions(now) == Rotate(old(Sessions(now)), user.id, oldId, newId)
      ensures Granted(Sessions(now), user, newId, r)
    {
      var root := signer.issued[oldId].root;
      sessions.Delete(oldId);
      cache.RemoveSession(user.id, oldId);
      sessions.Create(newId, user.id, now + SESSION_TTL);
      cache.AddSession(now, user.id, newId);
      var access, refresh := signer.Sign(now, user.id, newId, root);
      r := Tokens(user, access, refresh);
    }

    method RefreshWithToken(now: int, t: Token, newId: SessionId) returns (r: Result<Tokens, Failure>)
      requires AccountCoherence.IdCoherent(Accounts(now)) && AccountCoherence.TableOk(users.users)
      modifies userCache, sessions, cache, signer
      ensures Sessions(now) == RefreshSession(old(Sessions(now)), t, users.users.Keys, newId)
      ensures var u := FastLookup(old(Sessions(now)), t);
              Accounts(now) == if u.Some? then A.RefreshRead(old(Accounts(now)), u.value) else old(Accounts(now))
      ensures var u := RefreshUser(old(Sessions(now)), t, users.users.Keys);
              if u.Some?
              then r.Ok? && r.value.user.id == u.value && Granted(Sessions(now), r.value.user, newId, r.value)
                   && A.ReadById(old(Accounts(now)), u.value) == Some(r.value.user)
              else r == Err(Unauthorized)
    {
      var userId := ResolveRefresh(now, t);
      if userId.None? {
        return Err(Unauthorized);
      }
      var user := ReadForRefresh(now, userId.value);
      if user.None? {
        return Err(Unauthorized);
      }
      var tokens := RotateSession(now, user.value, t.jti, newId);
      r := Ok(tokens);
    }

    // ---------- Logout and revocation ----------

    method LogoutWithRefresh(now: int, t: Token)
      modifies sessions, cache
      ensures Sessions(now) == Logout(old(Sessions(now)), t)
    {
      var verified := signer.VerifyToken(now, t);
      if !verified || !t.kind.Refresh? {
        return;
      }
      var userId := cache.GetSessionUserId(now, t.jti);
      sessions.Delete(t.jti);
      if userId.Some? {
        cache.RemoveSession(userId.value, t.jti);
      }
    }

    method RevokeSession(now: int, u: UserId, id: SessionId) returns (refused: Option<Failure>)
      modifies sessions, cache
      ensures refused == RevokeOutcome(old(Sessions(now)), u, id)
      ensures refused == (if id !in old(sessions.rows) then Some(NotFound)
                          else if old(sessions.rows)[id].userId != u then Some(Forbidden)
                          else None)
      ensures Sessions(now) == Revoke(old(Sessions(now)), u, id)
    {
      var row := sessions.FindById(id);
      if row.None? {
        return Some(NotFound);
      }
      if row.value.userId != u {
        return Some(Forbidden);
      }
      sessions.Delete(id);
      cache.RemoveSession(u, id);
      refused := None;
    }

    method RevokeAllSessions(now: int, u: UserId)
      modifies sessions, cache
      ensures Sessions(now) == RevokeAll(old(Sessions(now)), u)
    {
      sessions.DeleteByUserId(u, None);
      cache.RemoveAllSessionsForUser(u);
    }

    // ---------- Passwords ----------

    /** The transaction and the cache work shared by both password services; `keep` is the session
        that survives a change. */
    method ReplacePassword(now: int, u: UserId, user: User, password: string, keep: Option<SessionId>)
      requires u in users.users && users.users[u] == user
      modifies users, userCache, sessions, cache
      ensures Accounts(now) == A.SetPassword(old(Accounts(now)), u, password)
      ensures users.users == old(users.users)[u := user.(passwordHash := Some(Hash(password)))]
      ensures Sessions(now) ==
              if keep.Some? then KeepOnly(old(Sessions(now)), u, keep.value) else RevokeAll(old(Sessions(now)), u)
    {
      users.Update(u, user.(passwordHash := Some(Hash(password))));
      sessions.DeleteByUserId(u, keep);
      cache.RemoveAllSessionsForUser(u);
      if keep.Some? {
        cache.AddSession(now, u, keep.value);
      }
      userCache.InvalidateUser(u, Some(user.email));
    }

    /** What stands in front of the route: a verified access token, whether or not its session is still
        stored. */
    method AuthGuard(now: int, t: Token) returns (passed: bool)
      ensures passed == UsableAs(Sessions(now), t, Access)
      ensures passed <==> t.kind.Access? && t.jti in signer.issued && t.sub == signer.issued[t.jti].userId
                          && t.exp == signer.issued[t.jti].at + 15 * 60 && now < t.exp
    {
      passed := signer.VerifyToken(now, t);
      passed := passed && t.kind.Access?;
    }

    /** The token's user changes the password; the token's session is the one that is kept. */
    method ChangePassword(now: int, t: Token, currentPassword: string, newPassword: string)
      returns (refused: Option<Failure>)
      modifies users, userCache, sessions, cache
      ensures refused == (
                var table := old(users.users);
                if !old(UsableAs(Sessions(now), t, Access)) || t.sub !in table then Some(Unauthorized)
                else if table[t.sub].passwordHash.None? then Some(BadRequest)
                else if !Verify(table[t.sub].passwordHash.value, currentPassword) then Some(Unauthorized)
                else None)
      ensures refused.None? ==>
                && Accounts(now) == A.Step(old(Accounts(now)), A.PasswordSet(t.sub, newPassword))
                && Sessions(now) == Step(old(Sessions(now)), SessionModel.ChangePassword(t))
                && users.users ==
                   old(users.users)[t.sub := old(users.users)[t.sub].(passwordHash := Some(Hash(newPassword)))]
      ensures refused.Some? ==> Accounts(now) == old(Accounts(now)) && Sessions(now) == old(Sessions(now))
    {
      var passed := AuthGuard(now, t);
      if !passed {
        return Some(Unauthorized);
      }
      var userId, sessionId := t.sub, t.jti;
      var user := users.FindById(userId);
      if user.None? {
        return Some(Unauthorized);
      }
      if user.value.passwordHash.None? {
        return Some(BadRequest);
      }
      if !Verify(user.value.passwordHash.value, currentPassword) {
        return Some(Unauthorized);
      }
      ReplacePassword(now, userId, user.value, newPassword, Some(sessionId));
      refused := None;
    }

    // ---------- Accounts ----------

    method RegisterWithEmail(now: int, newId: UserId, email: Email, password: string)
      returns (r: Result<User, Failure>)
      requires AccountCoherence.TableOk(users.users)
      requires newId !in users.users
      modifies users, userCache
      ensures Accounts(now) == A.Register(old(Accounts(now)), newId, email, password, A.DEFAULT_PERMISSIONS)
      ensures if A.FindByEmail(old(users.users), email).Some? then r == Err(Conflict)
              else && r == Ok(User(newId, email, None, Some(Hash(password)), false, None, 66, FREE_TIER_ID))
                   && users.users == old(users.users)[newId := r.value]
                   && A.ReadByEmail(Accounts(now), email) == Some(r.value)
                   && forall attempt :: A.Accepts(A.ReadByEmail(Accounts(now), email), attempt) <==> attempt == password
    {
      var existing := users.FindByEmail(email);
      if existing.Some? {
        return Err(Conflict);
      }
      var user := User(newId, email, None, Some(Hash(password)), false, None, A.DEFAULT_PERMISSIONS, FREE_TIER_ID);
      users.Insert(user);
      userCache.Set(now, user, true);
      r := Ok(user);
    }

    method GetMe(now: int, u: UserId) returns (r: Result<User, Failure>)
      modifies userCache
      ensures Accounts(now) == A.GetMe(old(Accounts(now)), u)
      ensures var user := A.ReadById(old(Accounts(now)), u);
              r == if user.Some? then Ok(user.value) else Err(NotFound)
    {
      var user := userCache.GetById(now, u);
      if user.None? {
        user := users.FindById(u);
        if user.Some? {
          userCache.Set(now, user.value, true);
        }
      }
      r := if user.Some? then Ok(user.value) else Err(NotFound);
    }

    /** A name the service's own check lets through (the empty one) is still refused by the column's
        unique constraint. */
    method UpdateMe(now: int, u: UserId, name: Option<Option<string>>) returns (r: Result<User, Failure>)
      requires AccountCoherence.TableOk(users.users)
      modifies users, userCache
      ensures Accounts(now) == A.UpdateMe(old(Accounts(now)), u, name)
      ensures if u !in old(users.users) then r == Err(NotFound)
              else if name.Some? && name.value.Some? && A.UsernameTaken(old(users.users), u, name.value.value)
              then r == Err(if name.value.value == "" then Internal else Conflict)
              else && users.users == (if name.Some?
                                      then old(users.users)[u := old(users.users)[u].(username := name.value)]
                                      else old(users.users))
                   && r == Ok(users.users[u])
    {
      var user := users.FindById(u);
      if user.None? {
        return Err(NotFound);
      }
      if name.Some? {
        if name.value.Some? && name.value.value != "" {
          var existing := users.FindByUsername(name.value.value);
          if existing.Some? && existing.value.id != u {
            return Err(Conflict);
          }
        }
        var ok := users.UpdateUsername(u, name.value);
        if !ok {
          return Err(Internal);
        }
      }
      userCache.InvalidateUser(u, Some(user.value.email));
      var updated := users.FindById(u);
      r := Ok(updated.value);
    }

    /** `uploaded` says whether the object store has the object, `ownKey` whether the key lies under
        the user's prefix. */
    method ConfirmAvatar(now: int, u: UserId, objectKey: string, enabled: bool, uploaded: bool, ownKey: bool)
      returns (refused: Option<Failure>)
      modifies users, userCache
      ensures refused == if !enabled then Some(Unavailable)
                         else if u !in old(users.users) then Some(NotFound)
                         else if !uploaded || !ownKey then Some(BadRequest)
                         else None
      ensures Accounts(now) ==
              if refused.None? then A.SetAvatar(old(Accounts(now)), u, Some(objectKey)) else old(Accounts(now))
      ensures refused.None? ==>
                users.users == old(users.users)[u := old(users.users)[u].(avatarUrl := Some(objectKey))]
    {
      if !enabled {
        return Some(Unavailable);
      }
      var user := users.FindById(u);
      if user.None? {
        return Some(NotFound);
      }
      if !uploaded || !ownKey {
        return Some(BadRequest);
      }
      users.Update(u, user.value.(avatarUrl := Some(objectKey)));
      userCache.InvalidateUser(u, Some(user.value.email));
      refused := None;
    }

    /** A user without an avatar is left alone, cache included. */
    method DeleteAvatar(now: int, u: UserId, enabled: bool, ownKey: bool) returns (refused: Option<Failure>)
      modifies users, userCache
      ensures var table := old(users.users);
              var bare := u in table && (table[u].avatarUrl.None? || table[u].avatarUrl.value == "");
              && refused == (if !enabled then Some(Unavailable)
                             else if u !in table then Some(NotFound)
                             else if !bare && !ownKey then Some(Forbidden)
                             else None)
              && Accounts(now) == (if refused.None? && !bare then A.SetAvatar(old(Accounts(now)), u, None)
                                   else old(Accounts(now)))
              && (refused.None? && !bare ==> users.users == table[u := table[u].(avatarUrl := None)])
    {
      if !enabled {
        return Some(Unavailable);
      }
      var user := users.FindById(u);
      if user.None? {
        return Some(NotFound);
      }
      if user.value.avatarUrl.None? || user.value.avatarUrl.value == "" {
        return None;
      }
      if !ownKey {
        return Some(Forbidden);
      }
      users.Update(u, user.value.(avatarUrl := None));
      userCache.InvalidateUser(u, Some(user.value.email));
      refused := None;
    }
  }
}
