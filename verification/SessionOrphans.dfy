/** Interleaved handlers can leave a session key without a row; exactly when. */
module SessionOrphans {
  import opened Common
  import opened SessionRace

  /** A live key of a session that has no row: refresh would trust it. */
  predicate Orphan(w: World, id: Id) {
    id in w.keys && w.now < w.keys[id] && id !in w.rows
  }

  predicate LiveKey(w: World, id: Id) {
    id in w.keys && w.now < w.keys[id]
  }

  /** A login sets the key of a session whose row is gone by then, or the row of a session with a live
      key is deleted. */
  predicate Makes(w: World, m: Move, id: Id) {
    match m
    case Advance(pid, _) =>
      && pid in w.procs
      && match w.procs[pid] {
           case RowMade(i) => i == id && id !in w.rows
           case Found(i, _) => i == id && id in w.rows && LiveKey(w, id)
           case _ => false
         }
    case CleanupJob => id in w.rows && w.rows[id] < w.now && LiveKey(w, id)
    case _ => false
  }

  /** The key is deleted, lost, or expires. */
  predicate Clears(w: World, m: Move, id: Id) {
    match m
    case Advance(pid, _) => pid in w.procs && w.procs[pid] == RowGone(id)
    case LoseKey(i) => i == id
    case Tick(d) => id in w.keys && w.keys[id] <= w.now + d
    case _ => false
  }

  ghost predicate KeysUsed(w: World) {
    forall id :: id in w.keys ==> id in w.used
  }

  ghost predicate Sane(w: World) {
    RowsListed(w) && ProcsSound(w) && KeysUsed(w)
  }

  lemma KeysUsedStep(w: World, m: Move, most: nat, k: nat)
    requires Sane(w) && Enabled(w, m, most, k)
    ensures KeysUsed(Step(w, m))
  {
    if m.Advance? && m.pid in w.procs { assert Sound(w, w.procs[m.pid]); }
  }

  lemma SaneStep(w: World, m: Move, most: nat, k: nat)
    requires Sane(w) && Enabled(w, m, most, k)
    ensures Sane(Step(w, m))
  {
    ListedStep(w, m, most, k);
    SoundStep(w, m, most, k);
    KeysUsedStep(w, m, most, k);
  }

  lemma OrphanStep(w: World, m: Move, id: Id, most: nat, k: nat)
    requires KeysUsed(w) && Enabled(w, m, most, k)
    ensures Orphan(Step(w, m), id) <==> Makes(w, m, id) || (Orphan(w, id) && !Clears(w, m, id))
  {
  }

  ghost predicate NeverCleared(w: World, ms: seq<Move>, id: Id)
    decreases |ms|
  {
    ms == [] || (!Clears(w, ms[0], id) && NeverCleared(Step(w, ms[0]), ms[1..], id))
  }

  ghost predicate MadeSince(w: World, ms: seq<Move>, id: Id)
    decreases |ms|
  {
    ms != [] &&
    ((Makes(w, ms[0], id) && NeverCleared(Step(w, ms[0]), ms[1..], id)) || MadeSince(Step(w, ms[0]), ms[1..], id))
  }

  /** Under every interleaving a live key has no row at the end if and only if some access made it so, or
      it was so at the start, and nothing has cleared the key since. */
  lemma {:induction false} OrphanExactly(w: World, ms: seq<Move>, id: Id, most: nat, k: nat)
    requires Sane(w) && EnabledRun(w, ms, most, k)
    ensures Orphan(Run(w, ms), id) <==> (Orphan(w, id) && NeverCleared(w, ms, id)) || MadeSince(w, ms, id)
    decreases |ms|
  {
    if ms != [] {
      SaneStep(w, ms[0], most, k);
      OrphanStep(w, ms[0], id, most, k);
      OrphanExactly(Step(w, ms[0]), ms[1..], id, most, k);
    }
  }

  // ---------- It happens ----------

  lemma Go(w: World, m: Move)
    requires Reaches(Init, w, 1, 2) && Enabled(w, m, 1, 2)
    ensures Reaches(Init, Step(w, m), 1, 2)
  {
    ReachesStep(Init, w, m, 1, 2);
  }

  const Half := World(0, map[7 := TTL], map[], {}, {7}, map[0 := RowMade(7)])

  /** The login on its way to `Half`, and the revocation beside it. */
  function Arrived(proc: Proc): World {
    Init.(procs := map[0 := proc])
  }

  function Beside(rows: map<Id, int>, proc: Proc): World {
    Half.(rows := rows, procs := map[0 := RowMade(7), 1 := proc])
  }

  lemma LoginMoves()
    ensures Step(Init, Start(0, Arriving(1))) == Arrived(Arriving(1))
    ensures Step(Arrived(Arriving(1)), Advance(0, 7)) == Arrived(SawEmpty(1))
    ensures Step(Arrived(SawEmpty(1)), Advance(0, 7)) == Arrived(Admitted)
    ensures Step(Arrived(Admitted), Advance(0, 7)) == Half
  {
    assert Active(Arrived(SawEmpty(1))) == {};
  }

  /** A login has made its row and not yet set its key. */
  lemma HalfLogin()
    ensures Reaches(Init, Half, 1, 2)
  {
    LoginMoves();
    ReachesHere(Init, 1, 2);
    Go(Init, Start(0, Arriving(1)));
    Go(Arrived(Arriving(1)), Advance(0, 7));
    Go(Arrived(SawEmpty(1)), Advance(0, 7));
    Go(Arrived(Admitted), Advance(0, 7));
  }

  lemma RevokeStarts()
    ensures Step(Half, Start(1, Revoking(7))) == Beside(Half.rows, Revoking(7))
    ensures Step(Beside(Half.rows, Revoking(7)), Advance(1, 8)) == Beside(Half.rows, Found(7, true))
    ensures |Half.procs| < 2
  {
  }

  lemma RevokeDeletes()
    ensures Step(Beside(Half.rows, Found(7, true)), Advance(1, 8)) == Beside(map[], RowGone(7))
    ensures Step(Beside(map[], RowGone(7)), Advance(1, 8)) == Beside(map[], KeyGone(7))
  {
  }

  lemma RevokeEnds()
    ensures Step(Beside(map[], KeyGone(7)), Advance(1, 8)) == Half.(rows := map[])
  {
  }

  /** Meanwhile the session is revoked from start to end. */
  lemma RevokedMeanwhile()
    ensures Reaches(Init, Half.(rows := map[]), 1, 2)
  {
    HalfLogin();
    RevokeStarts();
    RevokeDeletes();
    RevokeEnds();
    Go(Half, Start(1, Revoking(7)));
    Go(Beside(Half.rows, Revoking(7)), Advance(1, 8));
    Go(Beside(Half.rows, Found(7, true)), Advance(1, 8));
    Go(Beside(map[], RowGone(7)), Advance(1, 8));
    Go(Beside(map[], KeyGone(7)), Advance(1, 8));
  }

  /** A revocation that runs inside a login leaves the revoked session with a live key and set member, and
      no handler in flight that would take them away. */
  lemma RevokedInsideLogin()
    ensures Reaches(Init, World(0, map[], map[7 := TTL], {7}, {7}, map[]), 1, 2)
    ensures Orphan(World(0, map[], map[7 := TTL], {7}, {7}, map[]), 7)
  {
    RevokedMeanwhile();
    var w1 := World(0, map[], map[7 := TTL], {}, {7}, map[0 := KeyMade(7)]);
    assert Step(Half.(rows := map[]), Advance(0, 8)) == w1;
    Go(Half.(rows := map[]), Advance(0, 8));
    assert Step(w1, Advance(0, 8)) == World(0, map[], map[7 := TTL], {7}, {7}, map[]);
    Go(w1, Advance(0, 8));
  }
}
