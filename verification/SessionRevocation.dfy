/** Rotation, lineage and revocation: which refresh tokens are over, and what could bring them back. */
module SessionRevocation {
  import opened Common
  import opened SessionModel
  import opened SessionSafety

  // ---------- What takes a session away ----------

  /** The session id whose refresh token this event presents and the store accepts, if any. */
  ghost function AcceptedNow(s: Store, e: Event): seq<SessionId> {
    if e.RefreshWith? && RefreshUser(s, e.token, e.known).Some? then [e.token.jti] else []
  }

  /** The session ids whose refresh tokens a run accepts, in order. */
  ghost function Accepted(s: Store, es: seq<Event>): seq<SessionId>
    decreases |es|
  {
    if es == [] then [] else AcceptedNow(s, es[0]) + Accepted(Step(s, es[0]), es[1..])
  }

  /** The ids a revoking handler takes away: all the user's, or all but the current one, or one. */
  ghost predicate Revokes(s: Store, e: Event, id: SessionId) {
    && id in s.issued
    && match e
       case RevokeEvery(u) => s.issued[id].userId == u
       case ResetPassword(u) => s.issued[id].userId == u
       case ChangePassword(t) => UsableAs(s, t, Access) && s.issued[id].userId == t.sub && id != t.jti
       case RevokeOne(u, target) => id == target && RevokeOutcome(s, u, target).None?
       case LogoutWith(t) => UsableAs(s, t, Refresh) && id == t.jti
       case _ => false
  }

  /** The event takes the session away: it is revoked, logged out, dropped by a password operation, or
      rotated. */
  ghost predicate Removes(s: Store, e: Event, id: SessionId) {
    Revokes(s, e, id) || id in AcceptedNow(s, e)
  }

  // ---------- Spent sessions ----------

  /** The session has no row, and no live key under which its refresh token could still pass. */
  ghost predicate Spent(s: Store, id: SessionId) {
    id in s.issued && id !in s.rows && (CachedUser(s, id).None? || RefreshExpired(s, id))
  }

  ghost predicate Refused(s: Store, id: SessionId) {
    forall t: Token :: t.jti == id ==> FastLookup(s, t) == None
  }

  ghost predicate RefusedThroughout(s: Store, es: seq<Event>, id: SessionId)
    decreases |es|
  {
    Refused(s, id) && (es == [] || RefusedThroughout(Step(s, es[0]), es[1..], id))
  }

  ghost predicate RevivedDuring(s: Store, es: seq<Event>, id: SessionId)
    decreases |es|
  {
    es != [] && (Revives(s, es[0], id) || RevivedDuring(Step(s, es[0]), es[1..], id))
  }

  lemma RevokedIsSpent(s: Store, e: Event, id: SessionId)
    requires Linked(s) && Revokes(s, e, id)
    ensures Spent(Step(s, e), id)
  {
    assert id in s.rows ==> s.rows[id].userId == s.issued[id].userId;
    assert id in s.keys ==> s.keys[id].userId == s.issued[id].userId && id in Members(s, s.issued[id].userId);
  }

  lemma AcceptedIsSpent(s: Store, e: Event, id: SessionId)
    requires Linked(s) && Fresh(s, e) && id in AcceptedNow(s, e)
    ensures id in s.issued && Spent(Step(s, e), id)
  {
  }

  lemma RemovedIsSpent(s: Store, e: Event, id: SessionId)
    requires Linked(s) && Fresh(s, e) && Removes(s, e, id)
    ensures Spent(Step(s, e), id)
  {
    if Revokes(s, e, id) { RevokedIsSpent(s, e, id); } else { AcceptedIsSpent(s, e, id); }
  }

  /** A spent session stays spent unless it is revived. */
  lemma SpentStep(s: Store, e: Event, id: SessionId)
    requires Linked(s) && Fresh(s, e) && Spent(s, id) && !Revives(s, e, id)
    ensures Spent(Step(s, e), id)
  {
  }

  lemma SpentIsRefused(s: Store, id: SessionId)
    requires Spent(s, id)
    ensures Refused(s, id)
  {
  }

  /** A revived session resolves again. */
  lemma RevivedResolves(s: Store, e: Event, id: SessionId)
    requires Linked(s) && Revives(s, e, id)
    ensures !Refused(Step(s, e), id)
  {
    var s' := Step(s, e);
    var t := Token(e.token.sub, id, Refresh, s.issued[id].at + s.jwtTtl);
    assert UsableAs(s', t, Refresh);
    assert FastLookup(s', t) == Some(e.token.sub);
  }

  lemma {:induction false} SpentExactly(s: Store, es: seq<Event>, id: SessionId)
    requires Linked(s) && FreshRun(s, es) && Spent(s, id)
    ensures RefusedThroughout(s, es, id) <==> !RevivedDuring(s, es, id)
    ensures !RevivedDuring(s, es, id) ==> id !in Accepted(s, es) && Spent(Run(s, es), id)
    decreases |es|
  {
    SpentIsRefused(s, id);
    if es != [] {
      var s' := Step(s, es[0]);
      if Revives(s, es[0], id) {
        RevivedResolves(s, es[0], id);
        assert !RefusedThroughout(s', es[1..], id);
      } else {
        LinkedStep(s, es[0]);
        SpentStep(s, es[0], id);
        SpentExactly(s', es[1..], id);
        assert id !in AcceptedNow(s, es[0]);
      }
    }
  }

  lemma {:induction false} CarefulRevivesNothing(s: Store, es: seq<Event>, id: SessionId)
    requires CarefulRun(s, es)
    ensures !RevivedDuring(s, es, id)
    decreases |es|
  {
    if es != [] {
      CarefulRevivesNothing(Step(s, es[0]), es[1..], id);
    }
  }

  // ---------- Permanent revocation ----------

  /** After a password reset, revoke-all, password change, revoke, logout or rotation, and for every
      lifetime of refresh tokens: a session it took away is refused for the rest of the run if and only
      if no later password change from that very session revives it; then it is never accepted either. */
  lemma RevocationIsPermanent(s: Store, e: Event, es: seq<Event>, id: SessionId)
    requires Linked(s) && FreshRun(s, [e] + es) && Removes(s, e, id)
    ensures RefusedThroughout(Step(s, e), es, id) <==> !RevivedDuring(Step(s, e), es, id)
    ensures !RevivedDuring(Step(s, e), es, id) ==> id !in Accepted(Step(s, e), es)
    ensures CarefulRun(Step(s, e), es) ==> RefusedThroughout(Step(s, e), es, id)
  {
    RunCons(s, e, es);
    LinkedStep(s, e);
    RemovedIsSpent(s, e, id);
    SpentExactly(Step(s, e), es, id);
    if CarefulRun(Step(s, e), es) { CarefulRevivesNothing(Step(s, e), es, id); }
  }

  // ---------- Rotation ----------

  ghost predicate Distinct(ids: seq<SessionId>) {
    forall i, j :: 0 <= i < j < |ids| ==> ids[i] != ids[j]
  }

  /** No session is revived after its refresh token was accepted. */
  ghost predicate NoneRevived(s: Store, es: seq<Event>)
    decreases |es|
  {
    es == [] ||
    (&& (forall id :: id in AcceptedNow(s, es[0]) ==> !RevivedDuring(Step(s, es[0]), es[1..], id))
     && NoneRevived(Step(s, es[0]), es[1..]))
  }

  lemma {:induction false} CarefulRunRevivesNone(s: Store, es: seq<Event>)
    requires CarefulRun(s, es)
    ensures NoneRevived(s, es)
    decreases |es|
  {
    if es != [] {
      var s', rest := Step(s, es[0]), es[1..];
      forall id | id in AcceptedNow(s, es[0])
        ensures !RevivedDuring(s', rest, id)
      {
        CarefulRevivesNothing(s', rest, id);
      }
      CarefulRunRevivesNone(s', rest);
    }
  }

  /** Rotation: whatever the lifetime, each refresh-token jti is accepted at most once on every run that
      revives no session after its token was accepted. */
  lemma {:induction false} AcceptedOnce(s: Store, es: seq<Event>)
    requires Linked(s) && FreshRun(s, es) && NoneRevived(s, es)
    ensures Distinct(Accepted(s, es))
    decreases |es|
  {
    if es != [] {
      var s', now, rest := Step(s, es[0]), AcceptedNow(s, es[0]), Accepted(Step(s, es[0]), es[1..]);
      LinkedStep(s, es[0]);
      AcceptedOnce(s', es[1..]);
      if now != [] {
        AcceptedIsSpent(s, es[0], now[0]);
        SpentExactly(s', es[1..], now[0]);
        assert now[0] !in rest;
      }
    }
  }

  /** One fresh event in front of a run, whose successor state and answer are known. */
  lemma OneFirst(s: Store, e: Event, s': Store, answer: seq<SessionId>, rest: seq<Event>)
    requires Fresh(s, e) && s' == Step(s, e) && answer == AcceptedNow(s, e)
    ensures FreshRun(s, [e] + rest) <==> FreshRun(s', rest)
    ensures Accepted(s, [e] + rest) == answer + Accepted(s', rest)
  {
    RunCons(s, e, rest);
    AcceptedCons(s, e, rest);
  }

  lemma FirstLogin(jwtTtl: int, rest: seq<Event>) returns (s: Store)
    requires 0 < jwtTtl
    ensures s == Open(Init(jwtTtl), 1, 7, 7)
    ensures FreshRun(Init(jwtTtl), [LoginAs(1, 1, 7)] + rest) <==> FreshRun(s, rest)
    ensures Accepted(Init(jwtTtl), [LoginAs(1, 1, 7)] + rest) == Accepted(s, rest)
  {
    s := Open(Init(jwtTtl), 1, 7, 7);
    OneFirst(Init(jwtTtl), LoginAs(1, 1, 7), s, [], rest);
  }

  lemma FirstRotation(s: Store, jwtTtl: int, rest: seq<Event>) returns (s': Store)
    requires 0 < jwtTtl && s == Open(Init(jwtTtl), 1, 7, 7)
    ensures s'.issued == map[7 := Issue(1, 0, 7), 8 := Issue(1, 0, 7)] && s'.now == 0 && s'.jwtTtl == jwtTtl
    ensures var es := [RefreshWith(Token(1, 7, Refresh, jwtTtl), {1}, 8)] + rest;
            (FreshRun(s, es) <==> FreshRun(s', rest)) && Accepted(s, es) == [7] + Accepted(s', rest)
  {
    var e := RefreshWith(Token(1, 7, Refresh, jwtTtl), {1}, 8);
    assert RefreshUser(s, e.token, {1}) == Some(1);
    s' := Rotate(s, 1, 7, 8);
    OneFirst(s, e, s', [7], rest);
  }

  /** Changing the password with the access token of session 7 makes its refresh token resolve. */
  lemma ChangeRevives(s: Store, rest: seq<Event>) returns (s': Store)
    requires s.issued == map[7 := Issue(1, 0, 7), 8 := Issue(1, 0, 7)] && s.now == 0 && 0 < s.jwtTtl
    ensures RefreshUser(s', Token(1, 7, Refresh, s.jwtTtl), {1}) == Some(1) && s'.issued == s.issued
    ensures var es := [ChangePassword(Token(1, 7, Access, 15 * 60))] + rest;
            (FreshRun(s, es) <==> FreshRun(s', rest)) && Accepted(s, es) == Accepted(s', rest)
  {
    var e := ChangePassword(Token(1, 7, Access, 15 * 60));
    assert UsableAs(s, e.token, Access);
    s' := KeepOnly(s, 1, 7);
    OneFirst(s, e, s', [], rest);
  }

  lemma TwiceAsChain(jwtTtl: int, refresh: seq<Event>, change: seq<Event>, last: seq<Event>)
    requires 0 < jwtTtl && last == [RefreshWith(Token(1, 7, Refresh, jwtTtl), {1}, 9)]
    requires change == [ChangePassword(Token(1, 7, Access, 15 * 60))] + last
    requires refresh == [RefreshWith(Token(1, 7, Refresh, jwtTtl), {1}, 8)] + change
    ensures var es := [LoginAs(1, 1, 7)] + refresh;
            FreshRun(Init(jwtTtl), es) && Accepted(Init(jwtTtl), es) == [7] + [7]
  {
    var s1 := FirstLogin(jwtTtl, refresh);
    var s2 := FirstRotation(s1, jwtTtl, change);
    var s3 := ChangeRevives(s2, last);
    AcceptedLast(s3, last[0]);
    assert AcceptedNow(s3, last[0]) == [7] && Fresh(s3, last[0]);
  }

  /** Log in, refresh, change the password with the first access token, and the first refresh token is
      accepted a second time. */
  lemma AcceptedTwice(jwtTtl: int) returns (es: seq<Event>)
    requires 0 < jwtTtl
    ensures var first := Token(1, 7, Refresh, jwtTtl);
            es == [LoginAs(1, 1, 7), RefreshWith(first, {1}, 8),
                   ChangePassword(Token(1, 7, Access, 15 * 60)), RefreshWith(first, {1}, 9)]
    ensures FreshRun(Init(jwtTtl), es) && Accepted(Init(jwtTtl), es) == [7, 7]
  {
    var first := Token(1, 7, Refresh, jwtTtl);
    var last := [RefreshWith(first, {1}, 9)];
    var change := [ChangePassword(Token(1, 7, Access, 15 * 60))] + last;
    var refresh := [RefreshWith(first, {1}, 8)] + change;
    TwiceAsChain(jwtTtl, refresh, change, last);
    es := [LoginAs(1, 1, 7)] + refresh;
  }

  lemma AcceptedLast(s: Store, e: Event)
    ensures Accepted(s, [e]) == AcceptedNow(s, e) && (FreshRun(s, [e]) <==> Fresh(s, e))
  {
    RunCons(s, e, []);
    AcceptedCons(s, e, []);
    assert [e] + [] == [e];
  }

  lemma AcceptedCons(s: Store, e: Event, es: seq<Event>)
    ensures Accepted(s, [e] + es) == AcceptedNow(s, e) + Accepted(Step(s, e), es)
  {
    assert ([e] + es)[1..] == es;
  }

  // ---------- Lineage ----------

  /** The sessions that have a row or a key. */
  function Present(s: Store): set<SessionId> {
    s.rows.Keys + s.keys.Keys
  }

  /** Of the sessions that descend from one login, at most one is present. */
  ghost predicate OneRoot(present: set<SessionId>, issued: map<SessionId, Issue>) {
    forall i, j ::
      (i in present && j in present && i in issued && j in issued && issued[i].root == issued[j].root) ==> i == j
  }

  /** A lineage belongs to one user. */
  ghost predicate RootOwner(issued: map<SessionId, Issue>) {
    forall id, root :: id in issued && root in issued && issued[id].root == root ==>
      issued[root].userId == issued[id].userId
  }

  ghost predicate OneHolder(s: Store) {
    OneRoot(Present(s), s.issued) && RootOwner(s.issued)
  }

  lemma RootOwnerAdds(issued: map<SessionId, Issue>, id: SessionId, issue: Issue)
    requires RootOwner(issued) && id !in issued
    requires forall i :: i in issued ==> issued[i].root in issued
    requires issue.root == id || (issue.root in issued && issued[issue.root].userId == issue.userId)
    ensures RootOwner(issued[id := issue])
  {
  }

  /** One session of a lineage takes the place of another. */
  lemma OneRootReplaces(
    present: set<SessionId>, issued: map<SessionId, Issue>, oldId: SessionId, newId: SessionId, issue: Issue)
    requires OneRoot(present, issued) && oldId in present && oldId in issued && newId !in issued
    requires issue.root == issued[oldId].root
    ensures OneRoot(present - {oldId} + {newId}, issued[newId := issue])
  {
    assert forall id :: id in present && id != oldId && id in issued ==> issued[id].root != issue.root;
  }

  /** The first session of a lineage. */
  lemma OneRootAdds(present: set<SessionId>, issued: map<SessionId, Issue>, newId: SessionId, issue: Issue)
    requires OneRoot(present, issued) && newId !in issued && issue.root == newId
    requires forall id :: id in issued ==> issued[id].root in issued
    ensures OneRoot(present + {newId}, issued[newId := issue])
  {
  }

  lemma OneRootShrinks(present: set<SessionId>, fewer: set<SessionId>, issued: map<SessionId, Issue>)
    requires OneRoot(present, issued) && fewer <= present
    ensures OneRoot(fewer, issued)
  {
  }

  /** One session stays, or comes back, and nothing else of its user. */
  lemma OneRootKeeps(
    present: set<SessionId>, others: set<SessionId>, issued: map<SessionId, Issue>, u: UserId, keep: SessionId)
    requires OneRoot(present, issued) && RootOwner(issued)
    requires keep in issued && issued[keep].userId == u && issued[keep].root in issued
    requires others <= present && forall id :: id in others ==> id in issued && issued[id].userId != u
    ensures OneRoot(others + {keep}, issued)
  {
    OneRootShrinks(present, others, issued);
    assert issued[issued[keep].root].userId == u;
    assert forall id :: id in others ==> issued[id].root != issued[keep].root;
  }

  lemma OpenPresent(s: Store, u: UserId, newId: SessionId, root: SessionId)
    ensures Present(Open(s, u, newId, root)) == Present(s) + {newId}
    ensures Open(s, u, newId, root).issued == s.issued[newId := Issue(u, s.now, root)]
  {
  }

  lemma RotatePresent(s: Store, u: UserId, oldId: SessionId, newId: SessionId)
    requires oldId in s.issued
    ensures Present(Rotate(s, u, oldId, newId)) == Present(s) - {oldId} + {newId}
    ensures Rotate(s, u, oldId, newId).issued == s.issued[newId := Issue(u, s.now, s.issued[oldId].root)]
  {
    var dropped := CacheRemove(s.(rows := s.rows - {oldId}), u, oldId);
    assert Present(dropped) == Present(s) - {oldId};
    OpenPresent(dropped, u, newId, s.issued[oldId].root);
  }

  lemma RotateOneHolder(s: Store, u: UserId, oldId: SessionId, newId: SessionId)
    requires LedgerLinked(s) && OneHolder(s) && newId !in s.issued
    requires oldId in s.issued && s.issued[oldId].userId == u && oldId in Present(s)
    ensures OneHolder(Rotate(s, u, oldId, newId))
  {
    var issue := Issue(u, s.now, s.issued[oldId].root);
    RootOwnerAdds(s.issued, newId, issue);
    OneRootReplaces(Present(s), s.issued, oldId, newId, issue);
    RotatePresent(s, u, oldId, newId);
  }

  lemma LoginOneHolder(s: Store, u: UserId, newId: SessionId)
    requires LedgerLinked(s) && OneHolder(s) && newId !in s.issued
    ensures OneHolder(Open(s, u, newId, newId))
  {
    var issue := Issue(u, s.now, newId);
    RootOwnerAdds(s.issued, newId, issue);
    OneRootAdds(Present(s), s.issued, newId, issue);
    OpenPresent(s, u, newId, newId);
  }

  lemma KeepOnlyPresent(s: Store, u: UserId, keep: SessionId, id: SessionId)
    requires Linked(s) && id != keep && id in Present(KeepOnly(s, u, keep))
    ensures id in Present(s) && id in s.issued && s.issued[id].userId != u
  {
  }

  /** The kept session may be one that had neither row nor key; but nothing else of its user is left. */
  lemma KeepOnlyOneHolder(s: Store, u: UserId, keep: SessionId)
    requires Linked(s) && OneHolder(s) && keep in s.issued && s.issued[keep].userId == u
    ensures OneHolder(KeepOnly(s, u, keep))
  {
    var present := Present(KeepOnly(s, u, keep));
    forall id | id in present - {keep}
      ensures id in Present(s) && id in s.issued && s.issued[id].userId != u
    {
      KeepOnlyPresent(s, u, keep, id);
    }
    OneRootKeeps(Present(s), present - {keep}, s.issued, u, keep);
    assert present - {keep} + {keep} == present;
  }

  lemma OthersShrink(s: Store, e: Event)
    requires !e.LoginAs? && !e.RefreshWith? && !e.ChangePassword?
    ensures Present(Step(s, e)) <= Present(s) && Step(s, e).issued == s.issued
  {
  }

  lemma ResolvedIsPresent(s: Store, t: Token, known: set<UserId>)
    requires Linked(s) && RefreshUser(s, t, known).Some?
    ensures t.jti in Present(s) && t.jti in s.issued && s.issued[t.jti].userId == RefreshUser(s, t, known).value
  {
  }

  lemma OneHolderStep(s: Store, e: Event)
    requires Linked(s) && OneHolder(s) && Fresh(s, e)
    ensures OneHolder(Step(s, e))
  {
    match e
    case LoginAs(u, _, newId) => LoginOneHolder(s, u, newId);
    case RefreshWith(t, known, newId) =>
      if RefreshUser(s, t, known).Some? {
        ResolvedIsPresent(s, t, known);
        RotateOneHolder(s, RefreshUser(s, t, known).value, t.jti, newId);
      }
    case ChangePassword(t) =>
      if UsableAs(s, t, Access) { KeepOnlyOneHolder(s, t.sub, t.jti); }
    case _ =>
      OthersShrink(s, e);
      OneRootShrinks(Present(s), Present(Step(s, e)), s.issued);
  }

  lemma {:induction false} OneHolderOnRuns(s: Store, es: seq<Event>)
    requires Linked(s) && OneHolder(s) && FreshRun(s, es)
    ensures Linked(Run(s, es)) && OneHolder(Run(s, es))
    decreases |es|
  {
    if es != [] {
      LinkedStep(s, es[0]);
      OneHolderStep(s, es[0]);
      OneHolderOnRuns(Step(s, es[0]), es[1..]);
    }
  }

  /** On every run, careful or not and for every lifetime, no two stored sessions descend from the same
      login. */
  lemma OnePerLogin(jwtTtl: int, es: seq<Event>, i: SessionId, j: SessionId)
    requires FreshRun(Init(jwtTtl), es)
    ensures var s := Run(Init(jwtTtl), es);
            i in s.rows && j in s.rows ==>
              i in s.issued && j in s.issued && (s.issued[i].root == s.issued[j].root ==> i == j)
  {
    OneHolderOnRuns(Init(jwtTtl), es);
  }
}
