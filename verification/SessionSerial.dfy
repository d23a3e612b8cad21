/** Run without interruption, the step-by-step handlers of `SessionRace` do what the atomic handlers
    of `SessionModel` do. */
module SessionSerial {
  import opened Common
  import opened Tiers
  import S = SessionModel
  import SessionSafety
  import R = SessionRace

  /** What the race model sees of a store: one user's rows, keys, set and issued ids. */
  function Seen(s: S.Store, u: UserId): R.World {
    R.World(
      s.now,
      map id | id in s.rows && s.rows[id].userId == u :: s.rows[id].expiresAt,
      map id | id in s.keys && s.keys[id].userId == u :: s.keys[id].expiresAt,
      S.Members(s, u),
      set id | id in s.issued && s.issued[id].userId == u,
      map[])
  }

  function At(w: R.World, proc: R.Proc): R.World {
    w.(procs := map[0 := proc])
  }

  function Next(w: R.World, newId: SessionId): R.World {
    R.Step(w, R.Advance(0, newId))
  }

  /** One handler from its start until it is done; none needs more than five accesses. */
  function Alone(w: R.World, proc: R.Proc, newId: SessionId): R.World {
    Next(Next(Next(Next(Next(R.Step(w, R.Start(0, proc)), newId), newId), newId), newId), newId)
  }

  /** The handler on its own starts, moves on, ends, and stays ended. */
  lemma Moves(w: R.World, p: R.Proc, q: R.Proc, newId: SessionId)
    requires w.procs == map[]
    ensures R.Step(w, R.Start(0, p)) == At(w, p)
    ensures R.Goto(At(w, p), 0, q) == At(w, q)
    ensures R.Finish(At(w, p), 0) == w
    ensures Next(w, newId) == w
  {
    assert map[0 := p][0 := q] == map[0 := q];
  }

  // ---------- Login ----------

  /** Row, key and set member of an admitted login. */
  function Opened(w: R.World, id: SessionId): R.World {
    w.(rows := w.rows[id := w.now + R.TTL], used := w.used + {id},
       keys := w.keys[id := w.now + R.TTL], members := w.members + {id})
  }

  lemma AdmittedOpens(w: R.World, newId: SessionId)
    requires w.procs == map[]
    ensures Next(Next(Next(At(w, R.Admitted), newId), newId), newId) == Opened(w, newId)
  {
    var w1 := w.(rows := w.rows[newId := w.now + R.TTL], used := w.used + {newId});
    var w2 := w1.(keys := w1.keys[newId := w1.now + R.TTL]);
    Moves(w1, R.Admitted, R.RowMade(newId), newId);
    Moves(w2, R.RowMade(newId), R.KeyMade(newId), newId);
    Moves(Opened(w, newId), R.KeyMade(newId), R.KeyMade(newId), newId);
    assert Next(At(w, R.Admitted), newId) == At(w1, R.RowMade(newId));
    assert Next(At(w1, R.RowMade(newId)), newId) == At(w2, R.KeyMade(newId));
  }

  lemma LoginAlone(w: R.World, limit: nat, newId: SessionId)
    requires w.procs == map[] && 1 <= limit
    ensures var counted := if w.members == {} then |R.Active(w)| else |w.members|;
            Alone(w, R.Arriving(limit), newId) == if counted < limit then Opened(w, newId) else w
  {
    AdmittedOpens(w, newId);
    Moves(w, R.Arriving(limit), R.SawEmpty(limit), newId);
    Moves(w, R.Arriving(limit), R.Admitted, newId);
    Moves(w, R.SawEmpty(limit), R.Admitted, newId);
    Moves(Opened(w, newId), R.Admitted, R.Admitted, newId);
    assert R.Active(At(w, R.SawEmpty(limit))) == R.Active(w);
  }

  lemma SeenOpened(s: S.Store, u: UserId, newId: SessionId)
    requires SessionSafety.Linked(s) && newId !in s.issued
    ensures Seen(S.Open(s, u, newId, newId), u) == Opened(Seen(s, u), newId)
  {
    var w, w' := Seen(s, u), Seen(S.Open(s, u, newId, newId), u);
    assert w'.rows == w.rows[newId := s.now + R.TTL];
    assert w'.keys == w.keys[newId := s.now + R.TTL];
    assert w'.used == w.used + {newId};
  }

  lemma LoginSerial(s: S.Store, u: UserId, tierId: int, newId: SessionId)
    requires SessionSafety.Linked(s) && newId !in s.issued
    ensures Alone(Seen(s, u), R.Arriving(MaxSessions(tierId)), newId) == Seen(S.Login(s, u, tierId, newId), u)
  {
    LoginAlone(Seen(s, u), MaxSessions(tierId), newId);
    assert R.Active(Seen(s, u)) == S.ActiveRows(s, u);
    SeenOpened(s, u, newId);
  }

  // ---------- Logout and revocation ----------

  function RowDropped(w: R.World, id: SessionId): R.World {
    w.(rows := w.rows - {id})
  }

  function Dropped(w: R.World, id: SessionId): R.World {
    w.(rows := w.rows - {id}, keys := w.keys - {id}, members := w.members - {id})
  }

  /** A removal that knows its session, from the row's deletion on. */
  lemma FoundDrops(w: R.World, id: SessionId, cached: bool, newId: SessionId)
    requires w.procs == map[]
    ensures Next(Next(Next(At(w, R.Found(id, cached)), newId), newId), newId)
            == if cached then Dropped(w, id) else RowDropped(w, id)
  {
    var w1 := RowDropped(w, id);
    var w2 := w1.(keys := w1.keys - {id});
    Moves(w1, R.Found(id, cached), R.RowGone(id), newId);
    if cached {
      Moves(w2, R.RowGone(id), R.KeyGone(id), newId);
      Moves(Dropped(w, id), R.KeyGone(id), R.KeyGone(id), newId);
      assert Next(At(w, R.Found(id, cached)), newId) == At(w1, R.RowGone(id));
      assert Next(At(w1, R.RowGone(id)), newId) == At(w2, R.KeyGone(id));
    }
  }

  lemma RemovalAlone(w: R.World, id: SessionId, newId: SessionId)
    requires w.procs == map[]
    ensures var cached := id in w.keys && w.now < w.keys[id];
            Alone(w, R.LoggingOut(id), newId) == if cached then Dropped(w, id) else RowDropped(w, id)
    ensures Alone(w, R.Revoking(id), newId) == if id in w.rows then Dropped(w, id) else w
  {
    var cached := id in w.keys && w.now < w.keys[id];
    Moves(w, R.LoggingOut(id), R.Found(id, cached), newId);
    Moves(w, R.Revoking(id), R.Found(id, true), newId);
    FoundDrops(w, id, cached, newId);
    FoundDrops(w, id, true, newId);
    Moves(Dropped(w, id), R.Admitted, R.Admitted, newId);
    Moves(RowDropped(w, id), R.Admitted, R.Admitted, newId);
  }

  lemma SeenDropped(s: S.Store, u: UserId, id: SessionId)
    ensures var dropped := s.(rows := s.rows - {id});
            && Seen(dropped, u) == RowDropped(Seen(s, u), id)
            && Seen(S.CacheRemove(dropped, u, id), u) == Dropped(Seen(s, u), id)
  {
    var dropped := s.(rows := s.rows - {id});
    assert Seen(dropped, u).rows == Seen(s, u).rows - {id};
    assert Seen(S.CacheRemove(dropped, u, id), u).keys == Seen(s, u).keys - {id};
  }

  lemma LogoutSerial(s: S.Store, t: S.Token, newId: SessionId)
    requires SessionSafety.Linked(s) && S.UsableAs(s, t, S.Refresh)
    ensures Alone(Seen(s, t.sub), R.LoggingOut(t.jti), newId) == Seen(S.Logout(s, t), t.sub)
  {
    RemovalAlone(Seen(s, t.sub), t.jti, newId);
    SeenDropped(s, t.sub, t.jti);
  }

  lemma RevokeSerial(s: S.Store, u: UserId, id: SessionId, newId: SessionId)
    ensures Alone(Seen(s, u), R.Revoking(id), newId) == Seen(S.Revoke(s, u, id), u)
  {
    RemovalAlone(Seen(s, u), id, newId);
    SeenDropped(s, u, id);
  }
}
