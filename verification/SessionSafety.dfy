/** What every run of the session store keeps, and what follows from it. */
module SessionSafety {
  import opened Common
  import opened SessionModel

  // ---------- Invariants ----------

  ghost predicate RowsLinked(s: Store) {
    forall id :: id in s.rows ==>
      && id in s.issued
      && s.rows[id].userId == s.issued[id].userId
      && s.rows[id].expiresAt == s.issued[id].at + SESSION_TTL
      && id in Members(s, s.rows[id].userId)
  }

  ghost predicate KeysLinked(s: Store) {
    forall id :: id in s.keys ==>
      && id in s.issued
      && s.keys[id].userId == s.issued[id].userId
      && s.issued[id].at + SESSION_TTL <= s.keys[id].expiresAt
      && id in Members(s, s.keys[id].userId)
  }

  ghost predicate SetsLinked(s: Store) {
    forall u, id :: id in Members(s, u) ==> id in s.issued && s.issued[id].userId == u
  }

  ghost predicate LedgerLinked(s: Store) {
    forall id :: id in s.issued ==> s.issued[id].at <= s.now && s.issued[id].root in s.issued
  }

  /** Holds on every run: rows and keys are in their owner's set, the sets of different users are
      disjoint, and everything traces back to the ledger. */
  ghost predicate Linked(s: Store) {
    RowsLinked(s) && KeysLinked(s) && SetsLinked(s) && LedgerLinked(s)
  }

  /** A cached key is either stored or its refresh token is past its expiry. */
  ghost predicate Backed(s: Store) {
    forall id :: id in s.keys && id in s.issued && id !in s.rows ==> s.issued[id].at + s.jwtTtl <= s.now
  }

  ghost predicate Inv(s: Store) {
    Linked(s) && Backed(s)
  }

  // ---------- Preservation ----------

  lemma DropLinked(s: Store, ids: set<SessionId>)
    requires Linked(s)
    ensures Linked(s.(rows := s.rows - ids))
  {
    var s' := s.(rows := s.rows - ids);
    assert forall u :: Members(s', u) == Members(s, u);
  }

  lemma RemoveLinked(s: Store, u: UserId, id: SessionId)
    requires Linked(s) && id !in s.rows
    ensures Linked(CacheRemove(s, u, id))
  {
    var s' := CacheRemove(s, u, id);
    assert Members(s', u) == Members(s, u) - {id};
    assert forall v :: v != u ==> Members(s', v) == Members(s, v);
  }

  lemma RemoveAllLinked(s: Store, u: UserId)
    requires Linked(s) && forall id :: id in s.rows ==> s.rows[id].userId != u
    ensures Linked(CacheRemoveAll(s, u))
  {
    var s' := CacheRemoveAll(s, u);
    assert Members(s', u) == {};
    assert forall v :: v != u ==> Members(s', v) == Members(s, v);
  }

  lemma OpenLinked(s: Store, u: UserId, id: SessionId, root: SessionId)
    requires Linked(s) && id !in s.issued && (root == id || root in s.issued)
    ensures Linked(Open(s, u, id, root))
  {
    var s' := Open(s, u, id, root);
    assert Members(s', u) == Members(s, u) + {id};
    assert forall v :: v != u ==> Members(s', v) == Members(s, v);
  }

  lemma KeepOnlyMembers(s: Store, u: UserId, keep: SessionId)
    ensures Members(KeepOnly(s, u, keep), u) == {keep}
    ensures forall v :: v != u ==> Members(KeepOnly(s, u, keep), v) == Members(s, v)
  {
  }

  lemma KeepOnlyRows(s: Store, u: UserId, keep: SessionId)
    requires RowsLinked(s)
    ensures RowsLinked(KeepOnly(s, u, keep))
  {
    KeepOnlyMembers(s, u, keep);
    var s' := KeepOnly(s, u, keep);
    assert forall id :: id in s'.rows ==> id in s.rows && s'.rows[id] == s.rows[id];
    assert forall id :: id in s'.rows && s.rows[id].userId == u ==> id == keep;
  }

  lemma KeepOnlyKeys(s: Store, u: UserId, keep: SessionId)
    requires KeysLinked(s) && LedgerLinked(s) && keep in s.issued && s.issued[keep].userId == u
    ensures KeysLinked(KeepOnly(s, u, keep))
  {
    KeepOnlyMembers(s, u, keep);
    var s' := KeepOnly(s, u, keep);
    assert forall id :: id in s'.keys && id != keep ==>
             id in s.keys && s'.keys[id] == s.keys[id] && id !in Members(s, u);
  }

  lemma KeepOnlySets(s: Store, u: UserId, keep: SessionId)
    requires SetsLinked(s) && keep in s.issued && s.issued[keep].userId == u
    ensures SetsLinked(KeepOnly(s, u, keep))
  {
    KeepOnlyMembers(s, u, keep);
  }

  lemma KeepOnlyLinked(s: Store, u: UserId, keep: SessionId)
    requires Linked(s) && keep in s.issued && s.issued[keep].userId == u
    ensures Linked(KeepOnly(s, u, keep))
  {
    KeepOnlyRows(s, u, keep);
    KeepOnlyKeys(s, u, keep);
    KeepOnlySets(s, u, keep);
  }

  /** The links hold on every run, with no condition on password changes. */
  lemma LinkedStep(s: Store, e: Event)
    requires Linked(s) && Fresh(s, e)
    ensures Linked(Step(s, e))
  {
    match e
    case LoginAs(u, _, newId) => OpenLinked(s, u, newId, newId);
    case RefreshWith(t, known, newId) =>
      if RefreshUser(s, t, known).Some? {
        var u := RefreshUser(s, t, known).value;
        DropLinked(s, {t.jti});
        var s1 := s.(rows := s.rows - {t.jti});
        RemoveLinked(s1, u, t.jti);
        OpenLinked(CacheRemove(s1, u, t.jti), u, newId, s.issued[t.jti].root);
      }
    case LogoutWith(t) =>
      DropLinked(s, {t.jti});
      if CachedUser(s, t.jti).Some? {
        RemoveLinked(s.(rows := s.rows - {t.jti}), CachedUser(s, t.jti).value, t.jti);
      }
    case RevokeOne(u, id) =>
      DropLinked(s, {id});
      RemoveLinked(s.(rows := s.rows - {id}), u, id);
    case RevokeEvery(u) => RevokeAllLinked(s, u);
    case ChangePassword(t) =>
      if UsableAs(s, t, Access) { KeepOnlyLinked(s, t.sub, t.jti); }
    case ResetPassword(u) => RevokeAllLinked(s, u);
    case CleanupJob => DropLinked(s, ExpiredRows(s.rows, s.now));
    case LoseKey(id) => assert forall u :: Members(Step(s, e), u) == Members(s, u);
    case Tick(d) => assert forall u :: Members(Step(s, e), u) == Members(s, u);
  }

  lemma RevokeAllLinked(s: Store, u: UserId)
    requires Linked(s)
    ensures Linked(RevokeAll(s, u))
  {
    DropLinked(s, RowsOf(s.rows, u));
    RemoveAllLinked(s.(rows := s.rows - RowsOf(s.rows, u)), u);
  }

  /** A refresh resolves as the reference does: this is where the two lookups meet. */
  lemma LookupsAgree(s: Store, t: Token)
    requires Linked(s) && Backed(s) && s.jwtTtl <= 7 * 24 * 60 * 60
    ensures FastLookup(s, t) == ReferenceLookup(s, t)
  {
  }

  lemma BackedStep(s: Store, e: Event)
    requires Linked(s) && Backed(s) && Fresh(s, e) && Careful(s, e) && s.jwtTtl <= SESSION_TTL
    ensures Backed(Step(s, e))
  {
    var s' := Step(s, e);
    forall id | id in s'.keys && id in s'.issued && id !in s'.rows
      ensures s'.issued[id].at + s'.jwtTtl <= s'.now
    {
      if e.RefreshWith? { LookupsAgree(s, e.token); }
    }
  }

  lemma StepLedger(s: Store, e: Event)
    requires Fresh(s, e)
    ensures Step(s, e).jwtTtl == s.jwtTtl
    ensures forall id :: id in s.issued ==> id in Step(s, e).issued && (id !in s.rows ==> id !in Step(s, e).rows)
  {
  }

  /** The invariant is inductive. */
  lemma StepKeeps(s: Store, e: Event)
    requires Inv(s) && Fresh(s, e) && Careful(s, e) && s.jwtTtl <= SESSION_TTL
    ensures Inv(Step(s, e)) && Step(s, e).jwtTtl == s.jwtTtl
  {
    LinkedStep(s, e);
    BackedStep(s, e);
    StepLedger(s, e);
  }

  lemma {:induction false} InvOnRuns(s: Store, es: seq<Event>)
    requires Inv(s) && FreshRun(s, es) && CarefulRun(s, es) && s.jwtTtl <= 7 * 24 * 60 * 60
    ensures Inv(Run(s, es)) && Run(s, es).jwtTtl == s.jwtTtl
    decreases |es|
  {
    if es != [] {
      StepKeeps(s, es[0]);
      InvOnRuns(Step(s, es[0]), es[1..]);
    }
  }

  // ---------- Cache refinement ----------

  /** In this state refresh accepts exactly the tokens the reference accepts, for the same user. */
  ghost predicate Refines(s: Store) {
    forall t: Token :: FastLookup(s, t) == ReferenceLookup(s, t)
  }

  ghost predicate RefinesThroughout(s: Store, es: seq<Event>)
    decreases |es|
  {
    Refines(s) && (es == [] || RefinesThroughout(Step(s, es[0]), es[1..]))
  }

  lemma RefinesNow(s: Store)
    requires Linked(s) && Backed(s) && s.jwtTtl <= SESSION_TTL
    ensures Refines(s)
  {
    forall t: Token { LookupsAgree(s, t); }
  }

  /** A careless password change caches a session without a row again, and its refresh token is accepted
      although the table has no row. */
  lemma CarelessChangeBreaks(s: Store, e: Event)
    requires Linked(s) && !Careful(s, e)
    ensures !Refines(Step(s, e))
  {
    var s' := Step(s, e);
    var t := Token(e.token.sub, e.token.jti, Refresh, s.issued[e.token.jti].at + s.jwtTtl);
    assert UsableAs(s', t, Refresh);
    assert FastLookup(s', t) == Some(e.token.sub);
    assert ReferenceLookup(s', t) == None;
  }

  /** The cache-first lookup refines the table-only one on a whole run exactly when every password
      change in it comes from a session that is still stored or can no longer be refreshed. */
  lemma {:induction false} RefinementOnRuns(s: Store, es: seq<Event>)
    requires Linked(s) && Backed(s) && FreshRun(s, es) && s.jwtTtl <= 7 * 24 * 60 * 60
    ensures RefinesThroughout(s, es) <==> CarefulRun(s, es)
    decreases |es|
  {
    RefinesNow(s);
    if es != [] {
      var s' := Step(s, es[0]);
      if Careful(s, es[0]) {
        LinkedStep(s, es[0]);
        BackedStep(s, es[0]);
        RefinementOnRuns(s', es[1..]);
      } else {
        CarelessChangeBreaks(s, es[0]);
        assert !RefinesThroughout(s', es[1..]);
      }
    }
  }

  /** Careless changes happen: log in, have the session revoked, and change the password with the access
      token that is still good. */
  lemma CarelessRun(jwtTtl: int) returns (es: seq<Event>)
    requires 0 < jwtTtl <= 7 * 24 * 60 * 60
    ensures es == [LoginAs(1, 1, 7), RevokeOne(1, 7), ChangePassword(Token(1, 7, Access, 15 * 60))]
    ensures FreshRun(Init(jwtTtl), es) && !CarefulRun(Init(jwtTtl), es) && !RefinesThroughout(Init(jwtTtl), es)
  {
    var s0 := Init(jwtTtl);
    var e1, e2, e3 := LoginAs(1, 1, 7), RevokeOne(1, 7), ChangePassword(Token(1, 7, Access, ACCESS_TTL));
    var s1 := Step(s0, e1);
    var s2 := Step(s1, e2);
    es := [e1] + ([e2] + ([e3] + []));
    RunCons(s0, e1, [e2] + ([e3] + []));
    RunCons(s1, e2, [e3] + []);
    RunCons(s2, e3, []);
    assert s1 == Open(s0, 1, 7, 7);
    assert 7 !in s2.rows && UsableAs(s2, e3.token, Access);
    RefinementOnRuns(s0, es);
  }

  /** Login, a password change one second later, then the row's expiry: the extended key outlives
      the row by that second. */
  lemma LongTokensBreak(jwtTtl: int) returns (es: seq<Event>)
    requires 7 * 24 * 60 * 60 < jwtTtl
    ensures FreshRun(Init(jwtTtl), es) && CarefulRun(Init(jwtTtl), es)
    ensures !Refines(Run(Init(jwtTtl), es))
  {
    var s0 := Init(jwtTtl);
    var e1, e2, e3, e4 :=
      LoginAs(1, 1, 7), Tick(1), ChangePassword(Token(1, 7, Access, ACCESS_TTL)), Tick(SESSION_TTL - 1);
    var s1 := Step(s0, e1);
    var s2 := Step(s1, e2);
    var s3 := Step(s2, e3);
    var s4 := Step(s3, e4);
    es := [e1] + ([e2] + ([e3] + ([e4] + [])));
    RunCons(s0, e1, [e2] + ([e3] + ([e4] + [])));
    RunCons(s1, e2, [e3] + ([e4] + []));
    RunCons(s2, e3, [e4] + []);
    RunCons(s3, e4, []);
    assert s1 == Open(s0, 1, 7, 7);
    var t := Token(1, 7, Refresh, jwtTtl);
    assert FastLookup(s4, t) == Some(1) && ReferenceLookup(s4, t) == None;
  }

  /** The refinement holds on all careful runs exactly for refresh tokens that live no longer than
      a session row, which the seven-day default meets. */
  lemma ExpiryBoundary(jwtTtl: int)
    ensures (forall es :: FreshRun(Init(jwtTtl), es) && CarefulRun(Init(jwtTtl), es) ==>
                            Refines(Run(Init(jwtTtl), es)))
            <==> jwtTtl <= 7 * 24 * 60 * 60
  {
    if jwtTtl <= SESSION_TTL {
      forall es | FreshRun(Init(jwtTtl), es) && CarefulRun(Init(jwtTtl), es)
        ensures Refines(Run(Init(jwtTtl), es))
      {
        InvOnRuns(Init(jwtTtl), es);
        RefinesNow(Run(Init(jwtTtl), es));
      }
    } else {
      var es := LongTokensBreak(jwtTtl);
    }
  }
}
