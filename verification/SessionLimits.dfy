/** The tier limit on sequential runs. */
module SessionLimits {
  import opened Common
  import opened Tiers
  import opened SessionModel
  import opened SessionSafety

  /** The number the limit is compared with never undercounts the active rows, whether it comes from
      the Redis set or from the table. No condition on password changes is needed. */
  lemma SetNeverUndercounts(s: Store, u: UserId)
    requires Linked(s)
    ensures ActiveRows(s, u) <= Members(s, u)
    ensures |ActiveRows(s, u)| <= CountedSessions(s, u)
  {
    forall id | id in ActiveRows(s, u)
      ensures id in Members(s, u)
    {
      assert s.rows[id].userId == u;
    }
    SubsetCard(ActiveRows(s, u), Members(s, u));
  }

  /** An accepted login leaves at most the limit of the tier it read; a refused one changes nothing. */
  lemma LoginLeavesLimit(s: Store, u: UserId, tierId: int, newId: SessionId)
    requires Linked(s) && newId !in s.issued
    ensures var s' := Login(s, u, tierId, newId);
            if WithinLimit(s, u, tierId)
            then ActiveRows(s', u) == ActiveRows(s, u) + {newId} && |ActiveRows(s', u)| <= MaxSessions(tierId)
            else s' == s
  {
    SetNeverUndercounts(s, u);
    if WithinLimit(s, u, tierId) {
      assert ActiveRows(Login(s, u, tierId, newId), u) == ActiveRows(s, u) + {newId};
    }
  }

  lemma ActiveWithout(rows: map<SessionId, Row>, now: int, id: SessionId, u: UserId)
    ensures ActiveIn(rows - {id}, now, u) == ActiveIn(rows, now, u) - {id}
  {
  }

  lemma ActiveWith(rows: map<SessionId, Row>, now: int, id: SessionId, row: Row, u: UserId)
    requires id !in rows && now < row.expiresAt
    ensures row.userId == u ==> ActiveIn(rows[id := row], now, u) == ActiveIn(rows, now, u) + {id}
    ensures row.userId != u ==> ActiveIn(rows[id := row], now, u) == ActiveIn(rows, now, u)
  {
    var rows' := rows[id := row];
    assert forall i :: i != id ==> (i in rows' <==> i in rows) && (i in rows ==> rows'[i] == rows[i]);
  }

  lemma ReplaceKeepsCount(rows: map<SessionId, Row>, now: int, oldId: SessionId, newId: SessionId, row: Row, u: UserId)
    requires oldId in rows && newId !in rows && rows[oldId].userId == row.userId
    requires now < rows[oldId].expiresAt && now < row.expiresAt
    ensures |ActiveIn((rows - {oldId})[newId := row], now, u)| == |ActiveIn(rows, now, u)|
  {
    ActiveWithout(rows, now, oldId, u);
    ActiveWith(rows - {oldId}, now, newId, row, u);
    assert newId !in ActiveIn(rows, now, u);
    assert oldId in ActiveIn(rows, now, u) <==> row.userId == u;
  }

  lemma RotateMovesOne(s: Store, v: UserId, oldId: SessionId, newId: SessionId, u: UserId)
    requires oldId in s.issued && oldId in ActiveRows(s, v) && newId !in s.rows
    ensures |ActiveRows(Rotate(s, v, oldId, newId), u)| == |ActiveRows(s, u)|
  {
    ReplaceKeepsCount(s.rows, s.now, oldId, newId, Row(v, s.now + SESSION_TTL), u);
  }

  lemma OthersOnlyShrink(s: Store, e: Event, u: UserId)
    requires !e.RefreshWith? && (e.LoginAs? ==> e.user != u)
    ensures ActiveRows(Step(s, e), u) <= ActiveRows(s, u)
  {
  }

  /** Rotating a session whose row is gone or expired adds an active row. */
  lemma RotateAddsOne(s: Store, v: UserId, oldId: SessionId, newId: SessionId)
    requires oldId in s.issued && oldId !in ActiveRows(s, v) && newId !in s.rows
    ensures |ActiveRows(Rotate(s, v, oldId, newId), v)| == |ActiveRows(s, v)| + 1
  {
    ActiveWithout(s.rows, s.now, oldId, v);
    ActiveWith(s.rows - {oldId}, s.now, newId, Row(v, s.now + SESSION_TTL), v);
    assert newId !in ActiveRows(s, v);
  }

  lemma RotateForOther(s: Store, v: UserId, oldId: SessionId, newId: SessionId, u: UserId)
    requires oldId in s.issued && newId !in s.rows && v != u
    ensures ActiveRows(Rotate(s, v, oldId, newId), u) <= ActiveRows(s, u)
  {
    ActiveWithout(s.rows, s.now, oldId, u);
    ActiveWith(s.rows - {oldId}, s.now, newId, Row(v, s.now + SESSION_TTL), u);
  }

  /** The number of active sessions rises with an accepted login, with the refresh of a session that
      lives on in the cache alone, and with nothing else. */
  lemma RaisesExactly(s: Store, e: Event, u: UserId)
    requires Linked(s) && Fresh(s, e)
    ensures |ActiveRows(Step(s, e), u)| > |ActiveRows(s, u)| <==>
              || (e.LoginAs? && e.user == u && WithinLimit(s, u, e.tierId))
              || (e.RefreshWith? && RefreshUser(s, e.token, e.known) == Some(u) && e.token.jti !in ActiveRows(s, u))
  {
    var s' := Step(s, e);
    if e.LoginAs? && e.user == u {
      LoginLeavesLimit(s, u, e.tierId, e.newId);
      assert e.newId !in ActiveRows(s, u);
    } else if e.RefreshWith? {
      RefreshRaises(s, e.token, e.known, e.newId, u);
    } else {
      OthersOnlyShrink(s, e, u);
      SubsetCard(ActiveRows(s', u), ActiveRows(s, u));
    }
  }

  lemma RefreshRaises(s: Store, t: Token, known: set<UserId>, newId: SessionId, u: UserId)
    requires Linked(s) && newId !in s.issued
    ensures |ActiveRows(RefreshSession(s, t, known, newId), u)| > |ActiveRows(s, u)| <==>
              RefreshUser(s, t, known) == Some(u) && t.jti !in ActiveRows(s, u)
  {
    match RefreshUser(s, t, known)
    case None =>
    case Some(v) =>
      if v != u {
        RotateForOther(s, v, t.jti, newId, u);
        SubsetCard(ActiveRows(Rotate(s, v, t.jti, newId), u), ActiveRows(s, u));
      } else if t.jti in ActiveRows(s, u) {
        RotateMovesOne(s, u, t.jti, newId, u);
      } else {
        RotateAddsOne(s, u, t.jti, newId);
      }
  }

  /** While password changes are careful, no handler but a login of `u` ever raises the
      number of active sessions of `u`. */
  lemma OthersNeverRaise(s: Store, e: Event, u: UserId)
    requires Inv(s) && Fresh(s, e) && s.jwtTtl <= SESSION_TTL
    requires e.LoginAs? ==> e.user != u
    ensures |ActiveRows(Step(s, e), u)| <= |ActiveRows(s, u)|
  {
    RaisesExactly(s, e, u);
    if e.RefreshWith? { LookupsAgree(s, e.token); }
  }

  // ---------- On every run ----------

  lemma LoginMembers(s: Store, v: UserId, tierId: int, newId: SessionId, u: UserId, limit: nat)
    requires |Members(s, u)| <= limit && (v == u ==> MaxSessions(tierId) <= limit)
    ensures |Members(Login(s, v, tierId, newId), u)| <= limit
  {
    if v == u && WithinLimit(s, u, tierId) {
      assert Members(Login(s, v, tierId, newId), u) == Members(s, u) + {newId};
      assert Members(s, u) == {} ==> |Members(s, u) + {newId}| == 1;
    }
  }

  /** A rotation swaps one member of the set. */
  lemma RefreshMembers(s: Store, t: Token, known: set<UserId>, newId: SessionId, u: UserId)
    requires Linked(s)
    ensures |Members(RefreshSession(s, t, known, newId), u)| <= |Members(s, u)|
  {
    match RefreshUser(s, t, known)
    case None =>
    case Some(v) =>
      assert t.jti in Members(s, v);
      if v == u {
        assert Members(RefreshSession(s, t, known, newId), u) == Members(s, u) - {t.jti} + {newId};
      }
  }

  lemma ChangeMembers(s: Store, t: Token, u: UserId, limit: nat)
    requires 1 <= limit && |Members(s, u)| <= limit
    ensures |Members(Step(s, ChangePassword(t)), u)| <= limit
  {
    if UsableAs(s, t, Access) { KeepOnlyMembers(s, t.sub, t.jti); }
  }

  /** A handler that adds no session only takes members out of a set. */
  lemma OthersMembers(s: Store, e: Event, u: UserId)
    requires !e.LoginAs? && !e.RefreshWith? && !e.ChangePassword?
    ensures Members(Step(s, e), u) <= Members(s, u)
  {
  }

  lemma MembersStep(s: Store, e: Event, u: UserId, limit: nat)
    requires Linked(s) && 1 <= limit && |Members(s, u)| <= limit
    requires e.LoginAs? && e.user == u ==> MaxSessions(e.tierId) <= limit
    ensures |Members(Step(s, e), u)| <= limit
  {
    match e
    case LoginAs(v, tierId, newId) => LoginMembers(s, v, tierId, newId, u, limit);
    case RefreshWith(t, known, newId) => RefreshMembers(s, t, known, newId, u);
    case ChangePassword(t) => ChangeMembers(s, t, u, limit);
    case _ =>
      OthersMembers(s, e, u);
      SubsetCard(Members(Step(s, e), u), Members(s, u));
  }

  ghost predicate LoginsWithin(es: seq<Event>, u: UserId, limit: nat) {
    forall i :: 0 <= i < |es| && es[i].LoginAs? && es[i].user == u ==> MaxSessions(es[i].tierId) <= limit
  }

  /** On every run, whatever the token lifetime and wherever passwords are changed from, the active
      sessions of a user stay within the user's set and the set within the largest limit any of the
      user's logins read. */
  lemma {:induction false} LimitOnRuns(s: Store, es: seq<Event>, u: UserId, limit: nat)
    requires Linked(s) && FreshRun(s, es)
    requires 1 <= limit && |Members(s, u)| <= limit && LoginsWithin(es, u, limit)
    ensures |ActiveRows(Run(s, es), u)| <= |Members(Run(s, es), u)| <= limit
    decreases |es|
  {
    if es == [] {
      SetNeverUndercounts(s, u);
      SubsetCard(ActiveRows(s, u), Members(s, u));
    } else {
      LinkedStep(s, es[0]);
      MembersStep(s, es[0], u, limit);
      LimitOnRuns(Step(s, es[0]), es[1..], u, limit);
    }
  }

  /** From an empty store nobody ever has more than three active sessions. */
  lemma ThreeAtMost(jwtTtl: int, es: seq<Event>, u: UserId)
    requires FreshRun(Init(jwtTtl), es)
    ensures |ActiveRows(Run(Init(jwtTtl), es), u)| <= 3
  {
    LimitOnRuns(Init(jwtTtl), es, u, 3);
  }
}
