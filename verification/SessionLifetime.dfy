/** Exactly how long a refresh token is good for. */
module SessionLifetime {
  import opened Common
  import opened SessionModel
  import opened SessionSafety
  import opened SessionRevocation

  lemma LedgerStep(s: Store, e: Event, id: SessionId)
    requires Fresh(s, e) && id in s.issued
    ensures id in Step(s, e).issued && Step(s, e).issued[id] == s.issued[id]
    ensures Step(s, e).jwtTtl == s.jwtTtl && s.now <= Step(s, e).now
  {
  }

  /** A stored session stays stored unless it is removed or has expired: neither a lost key nor a
      cleanup nor anything another session does takes it away. */
  lemma KeptUnlessRemoved(s: Store, e: Event, id: SessionId)
    requires Linked(s) && Fresh(s, e) && id in s.rows && !Removes(s, e, id)
    ensures id in Step(s, e).rows || s.rows[id].expiresAt < s.now
  {
  }

  /** A refresh token that was signed here, expired or not. */
  ghost predicate Signed(s: Store, t: Token) {
    && t.kind.Refresh? && t.jti in s.issued
    && t.sub == s.issued[t.jti].userId && t.exp == s.issued[t.jti].at + s.jwtTtl
  }

  /** At every state of the run the token resolves to its user if it has not expired and nothing has
      removed its session so far, and to nobody otherwise; `alive` says whether that is so at the start. */
  ghost predicate ExactThroughout(s: Store, es: seq<Event>, t: Token, alive: bool)
    decreases |es|
  {
    && FastLookup(s, t) == (if s.now < t.exp && alive then Some(t.sub) else None)
    && (es == [] || ExactThroughout(Step(s, es[0]), es[1..], t, alive && !Removes(s, es[0], t.jti)))
  }

  /** What `alive` has to mean: the session is stored, unless its token has expired; and a session that
      is not alive is spent. */
  ghost predicate Standing(s: Store, t: Token, alive: bool) {
    if alive then s.now < t.exp ==> t.jti in s.rows else Spent(s, t.jti)
  }

  lemma StandingResolves(s: Store, t: Token, alive: bool)
    requires Linked(s) && Signed(s, t) && Standing(s, t, alive) && s.jwtTtl <= SESSION_TTL
    ensures FastLookup(s, t) == if s.now < t.exp && alive then Some(t.sub) else None
  {
  }

  lemma StandingStep(s: Store, e: Event, t: Token, alive: bool)
    requires Linked(s) && Fresh(s, e) && Signed(s, t) && Standing(s, t, alive) && s.jwtTtl <= SESSION_TTL
    requires !Revives(s, e, t.jti)
    ensures Standing(Step(s, e), t, alive && !Removes(s, e, t.jti))
  {
    LedgerStep(s, e, t.jti);
    if Removes(s, e, t.jti) {
      RemovedIsSpent(s, e, t.jti);
    } else if !alive {
      SpentStep(s, e, t.jti);
    } else if s.now < t.exp {
      KeptUnlessRemoved(s, e, t.jti);
    }
  }

  /** A revival makes a session resolve that was not alive. */
  lemma RevivalShows(s: Store, e: Event, t: Token, alive: bool)
    requires Linked(s) && Fresh(s, e) && Signed(s, t) && Standing(s, t, alive) && Revives(s, e, t.jti)
    ensures !alive && FastLookup(Step(s, e), t).Some?
  {
    LedgerStep(s, e, t.jti);
  }

  lemma {:induction false} StandingExactly(s: Store, es: seq<Event>, t: Token, alive: bool)
    requires Linked(s) && FreshRun(s, es) && Signed(s, t) && Standing(s, t, alive) && s.jwtTtl <= SESSION_TTL
    ensures ExactThroughout(s, es, t, alive) <==> !RevivedDuring(s, es, t.jti)
    decreases |es|
  {
    StandingResolves(s, t, alive);
    if es != [] {
      var e, s' := es[0], Step(s, es[0]);
      if Revives(s, e, t.jti) {
        RevivalShows(s, e, t, alive);
        assert !ExactThroughout(s', es[1..], t, false);
      } else {
        LedgerStep(s, e, t.jti);
        LinkedStep(s, e);
        StandingStep(s, e, t, alive);
        StandingExactly(s', es[1..], t, alive && !Removes(s, e, t.jti));
      }
    }
  }

  /** Where refresh tokens live no longer than a session: on every run a usable refresh token of a stored
      session resolves to its user exactly until its expiry or the first event that removes the session,
      if and only if no later password change from that very session revives it. */
  lemma ExactLifetime(s: Store, es: seq<Event>, t: Token)
    requires Linked(s) && FreshRun(s, es) && s.jwtTtl <= 7 * 24 * 60 * 60
    requires UsableAs(s, t, Refresh) && t.jti in s.rows
    ensures ExactThroughout(s, es, t, true) <==> !RevivedDuring(s, es, t.jti)
  {
    StandingExactly(s, es, t, true);
  }
}
