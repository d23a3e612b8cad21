/** Logins, logouts and single-session revocations of ONE user, interleaved at every table and
    Redis access. Ids are numbered here so that schedules can be written down. */
module SessionRace {
  import opened Common

  type Id = SessionId
  type Pid = nat

  const TTL := WEEK

  /** Where a handler in flight stands: each constructor names what it has already done. */
  datatype Proc =
    | Arriving(limit: nat)             // login: the set's size is read next
    | SawEmpty(limit: nat)             // login: the size was 0, the table's count is read next
    | Admitted                         // login: below the limit, the row is created next
    | RowMade(id: Id)                  // login: the session key is set next
    | KeyMade(id: Id)                  // login: the set is extended next
    | LoggingOut(id: Id)               // logout: the session key is read next
    | Revoking(id: Id)                 // revoke: the row is read next
    | Found(id: Id, cached: bool)      // the row is deleted next
    | RowGone(id: Id)                  // the session key is deleted next
    | KeyGone(id: Id)                  // the set is shrunk next

  datatype World = World(
    now: int,
    rows: map<Id, int>,
    keys: map<Id, int>,
    members: set<Id>,
    used: set<Id>,
    procs: map<Pid, Proc>)

  datatype Move =
    | Start(pid: Pid, proc: Proc)
    | Advance(pid: Pid, newId: Id)
    | CleanupJob
    | LoseKey(id: Id)
    | Tick(seconds: nat)

  const Init := World(0, map[], map[], {}, {}, map[])

  function Active(w: World): set<Id> {
    set id | id in w.rows && w.now < w.rows[id]
  }

  function Goto(w: World, pid: Pid, proc: Proc): World {
    w.(procs := w.procs[pid := proc])
  }

  function Finish(w: World, pid: Pid): World {
    w.(procs := w.procs - {pid})
  }

  function Advanced(w: World, pid: Pid, newId: Id): World
    requires pid in w.procs
  {
    match w.procs[pid]
    case Arriving(limit) =>
      if |w.members| == 0 then Goto(w, pid, SawEmpty(limit))
      else if |w.members| >= limit then Finish(w, pid)
      else Goto(w, pid, Admitted)
    case SawEmpty(limit) => if |Active(w)| >= limit then Finish(w, pid) else Goto(w, pid, Admitted)
    case Admitted =>
      Goto(w.(rows := w.rows[newId := w.now + TTL], used := w.used + {newId}), pid, RowMade(newId))
    case RowMade(id) => Goto(w.(keys := w.keys[id := w.now + TTL]), pid, KeyMade(id))
    case KeyMade(id) => Finish(w.(members := w.members + {id}), pid)
    case LoggingOut(id) => Goto(w, pid, Found(id, id in w.keys && w.now < w.keys[id]))
    case Revoking(id) => if id in w.rows then Goto(w, pid, Found(id, true)) else Finish(w, pid)
    case Found(id, cached) =>
      var w' := w.(rows := w.rows - {id});
      if cached then Goto(w', pid, RowGone(id)) else Finish(w', pid)
    case RowGone(id) => Goto(w.(keys := w.keys - {id}), pid, KeyGone(id))
    case KeyGone(id) => Finish(w.(members := w.members - {id}), pid)
  }

  function Step(w: World, m: Move): World {
    match m
    case Start(pid, proc) => Goto(w, pid, proc)
    case Advance(pid, newId) => if pid in w.procs then Advanced(w, pid, newId) else w
    case CleanupJob => w.(rows := w.rows - (set id | id in w.rows && w.rows[id] < w.now))
    case LoseKey(id) => w.(keys := w.keys - {id})
    case Tick(d) => w.(now := w.now + d)
  }

  /** At most `k` handlers in flight, limits at most `most`, generated ids new, and a logout only
      with a token that was signed. */
  predicate Enabled(w: World, m: Move, most: nat, k: nat) {
    match m
    case Start(pid, proc) =>
      && pid !in w.procs && |w.procs| < k
      && match proc {
           case Arriving(limit) => limit <= most
           case LoggingOut(id) => id in w.used
           case Revoking(_) => true
           case _ => false
         }
    case Advance(pid, newId) => newId !in w.used
    case _ => true
  }

  function Run(w: World, ms: seq<Move>): World
    decreases |ms|
  {
    if ms == [] then w else Run(Step(w, ms[0]), ms[1..])
  }

  predicate EnabledRun(w: World, ms: seq<Move>, most: nat, k: nat)
    decreases |ms|
  {
    ms == [] || (Enabled(w, ms[0], most, k) && EnabledRun(Step(w, ms[0]), ms[1..], most, k))
  }

  // ---------- The bound ----------

  /** A login that has read a cardinality and not yet extended the set. */
  predicate IsPending(proc: Proc) {
    proc.SawEmpty? || proc.Admitted? || proc.RowMade? || proc.KeyMade?
  }

  ghost function Pending(procs: map<Pid, Proc>): set<Pid> {
    set p | p in procs && IsPending(procs[p])
  }

  /** A login that has created row `id` and not yet listed it in the set. */
  predicate Holds(proc: Proc, id: Id) {
    proc == RowMade(id) || proc == KeyMade(id)
  }

  ghost predicate Held(procs: map<Pid, Proc>, id: Id) {
    exists p :: p in procs && Holds(procs[p], id)
  }

  ghost predicate RowsListed(w: World) {
    forall id :: id in w.rows ==> id in w.used && (id in w.members || Held(w.procs, id))
  }

  /** Handlers know only used ids, and a removal past its row deletion deleted that row. */
  ghost predicate Sound(w: World, proc: Proc) {
    match proc
    case Arriving(_) => true
    case SawEmpty(_) => true
    case Admitted => true
    case Revoking(_) => true
    case RowGone(id) => id in w.used && id !in w.rows
    case KeyGone(id) => id in w.used && id !in w.rows
    case RowMade(id) => id in w.used
    case KeyMade(id) => id in w.used
    case LoggingOut(id) => id in w.used
    case Found(id, _) => id in w.used
  }

  ghost predicate ProcsSound(w: World) {
    forall p :: p in w.procs ==> Sound(w, w.procs[p])
  }

  ghost predicate Inv(w: World, most: nat, k: nat) {
    && RowsListed(w) && ProcsSound(w)
    && |w.procs| <= k
    && (forall p :: p in w.procs && w.procs[p].Arriving? ==> w.procs[p].limit <= most)
    && Measure(w) <= most + k - 1
  }

  lemma PendingCount(procs: map<Pid, Proc>)
    ensures |Pending(procs)| <= |procs|
  {
    SubsetCard(Pending(procs), procs.Keys);
  }

  lemma GotoPending(procs: map<Pid, Proc>, pid: Pid, proc: Proc)
    ensures Pending(procs[pid := proc]) == if IsPending(proc) then Pending(procs) + {pid} else Pending(procs) - {pid}
    ensures |procs[pid := proc]| == if pid in procs then |procs| else |procs| + 1
  {
    MapAdd(procs, pid, proc);
  }

  lemma MapAdd<K, V>(m: map<K, V>, k: K, v: V)
    ensures |m[k := v]| == if k in m then |m| else |m| + 1
  {
    assert m[k := v].Keys == m.Keys + {k};
  }

  lemma FinishPending(procs: map<Pid, Proc>, pid: Pid)
    requires pid in procs
    ensures Pending(procs - {pid}) == Pending(procs) - {pid}
    ensures |procs - {pid}| == |procs| - 1
  {
    assert (procs - {pid}).Keys == procs.Keys - {pid};
  }

  /** Members plus pending logins: what the bound is proved for. */
  ghost function Measure(w: World): nat {
    |w.members| + |Pending(w.procs)|
  }

  lemma GotoMeasure(w: World, pid: Pid, proc: Proc)
    requires pid in w.procs
    ensures |Goto(w, pid, proc).procs| == |w.procs|
    ensures IsPending(proc) == IsPending(w.procs[pid]) ==> Measure(Goto(w, pid, proc)) == Measure(w)
    ensures Measure(Goto(w, pid, proc)) <= |w.members| + |w.procs|
  {
    GotoPending(w.procs, pid, proc);
    PendingCount(w.procs[pid := proc]);
    assert IsPending(w.procs[pid]) <==> pid in Pending(w.procs);
    assert pid in Pending(w.procs) ==> Pending(w.procs) + {pid} == Pending(w.procs);
    assert pid !in Pending(w.procs) ==> Pending(w.procs) - {pid} == Pending(w.procs);
  }

  lemma FinishMeasure(w: World, pid: Pid)
    requires pid in w.procs
    ensures |Finish(w, pid).procs| <= |w.procs|
    ensures Measure(Finish(w, pid)) + (if IsPending(w.procs[pid]) then 1 else 0) <= Measure(w)
  {
    FinishPending(w.procs, pid);
    assert IsPending(w.procs[pid]) <==> pid in Pending(w.procs);
  }

  lemma AdvanceMeasure(w: World, pid: Pid, newId: Id, most: nat, k: nat)
    requires Inv(w, most, k) && pid in w.procs && 1 <= most
    ensures |Advanced(w, pid, newId).procs| <= k && Measure(Advanced(w, pid, newId)) <= most + k - 1
  {
    var w' := Advanced(w, pid, newId);
    FinishMeasure(w, pid);
    match w.procs[pid]
    case Arriving(limit) => GotoMeasure(w, pid, SawEmpty(limit)); GotoMeasure(w, pid, Admitted);
    case SawEmpty(_) => GotoMeasure(w, pid, Admitted);
    case Admitted => GotoMeasure(w, pid, RowMade(newId));
    case RowMade(id) => GotoMeasure(w, pid, KeyMade(id));
    case KeyMade(id) => assert |w.members + {id}| <= |w.members| + 1;
    case LoggingOut(id) => GotoMeasure(w, pid, w'.procs[pid]);
    case Revoking(id) => GotoMeasure(w, pid, Found(id, true));
    case Found(id, _) => GotoMeasure(w, pid, RowGone(id));
    case RowGone(id) => GotoMeasure(w, pid, KeyGone(id));
    case KeyGone(id) => SubsetCard(w.members - {id}, w.members);
  }

  lemma MeasureStep(w: World, m: Move, most: nat, k: nat)
    requires Inv(w, most, k) && Enabled(w, m, most, k) && 1 <= most
    ensures |Step(w, m).procs| <= k && Measure(Step(w, m)) <= most + k - 1
  {
    match m
    case Start(pid, proc) =>
      GotoPending(w.procs, pid, proc);
      assert Pending(w.procs) - {pid} == Pending(w.procs);
    case Advance(pid, newId) =>
      if pid in w.procs { AdvanceMeasure(w, pid, newId, most, k); }
    case _ =>
  }

  lemma LimitsStep(w: World, m: Move, most: nat, k: nat)
    requires Inv(w, most, k) && Enabled(w, m, most, k)
    ensures forall p :: p in Step(w, m).procs && Step(w, m).procs[p].Arriving? ==> Step(w, m).procs[p].limit <= most
  {
  }

  lemma SoundStep(w: World, m: Move, most: nat, k: nat)
    requires RowsListed(w) && ProcsSound(w) && Enabled(w, m, most, k)
    ensures ProcsSound(Step(w, m))
  {
    var w' := Step(w, m);
    forall p | p in w'.procs
      ensures Sound(w', w'.procs[p])
    {
      if p in w.procs && w'.procs[p] == w.procs[p] {
        assert Sound(w, w.procs[p]);
      } else if p in w.procs {
        assert Sound(w, w.procs[p]);
      }
    }
  }

  lemma ListedStep(w: World, m: Move, most: nat, k: nat)
    requires RowsListed(w) && ProcsSound(w) && Enabled(w, m, most, k)
    ensures RowsListed(Step(w, m))
  {
    var w' := Step(w, m);
    forall id | id in w'.rows
      ensures id in w'.used && (id in w'.members || Held(w'.procs, id))
    {
      if id !in w.rows {
        assert Holds(w'.procs[m.pid], id);
      } else if id in w.members {
        if m.Advance? && m.pid in w.procs { assert Sound(w, w.procs[m.pid]); }
      } else {
        var p :| p in w.procs && Holds(w.procs[p], id);
        if m.Advance? && m.pid == p && w.procs[p].RowMade? {
          assert Holds(w'.procs[p], id);
        } else if !(m.Advance? && m.pid == p) {
          assert p in w'.procs && Holds(w'.procs[p], id);
        }
      }
    }
  }

  lemma InvStep(w: World, m: Move, most: nat, k: nat)
    requires Inv(w, most, k) && Enabled(w, m, most, k) && 1 <= most
    ensures Inv(Step(w, m), most, k)
  {
    MeasureStep(w, m, most, k);
    LimitsStep(w, m, most, k);
    SoundStep(w, m, most, k);
    ListedStep(w, m, most, k);
  }

  /** Ids held by the handlers in `ps`, at most one each. */
  lemma {:induction false} HeldCount(procs: map<Pid, Proc>, ps: set<Pid>) returns (ids: set<Id>)
    requires ps <= procs.Keys
    ensures |ids| <= |ps|
    ensures forall p, id :: p in ps && Holds(procs[p], id) ==> id in ids
    decreases ps
  {
    if ps == {} {
      ids := {};
    } else {
      var p :| p in ps;
      ids := HeldCount(procs, ps - {p});
      if procs[p].RowMade? || procs[p].KeyMade? {
        ids := ids + {procs[p].id};
      }
    }
  }

  lemma RowsWithinMeasure(w: World, most: nat, k: nat)
    requires Inv(w, most, k)
    ensures |w.rows| <= most + k - 1
  {
    var ids := HeldCount(w.procs, Pending(w.procs));
    forall id | id in w.rows
      ensures id in w.members + ids
    {
      if id !in w.members {
        var p :| p in w.procs && Holds(w.procs[p], id);
        assert p in Pending(w.procs);
      }
    }
    SubsetCard(w.rows.Keys, w.members + ids);
  }

  /** However logins, logouts, revocations, key losses and cleanups interleave, with at most `k`
      handlers in flight the user's stored sessions never exceed the limit by more than `k - 1`. */
  lemma {:induction false} BoundOnRuns(w: World, ms: seq<Move>, most: nat, k: nat)
    requires Inv(w, most, k) && EnabledRun(w, ms, most, k) && 1 <= most && 1 <= k
    ensures |Run(w, ms).rows| <= most + k - 1
    decreases |ms|
  {
    if ms == [] {
      RowsWithinMeasure(w, most, k);
    } else {
      InvStep(w, ms[0], most, k);
      BoundOnRuns(Step(w, ms[0]), ms[1..], most, k);
    }
  }

  // ---------- The bound is attained ----------

  /** Logins 0 to `j` are admitted; those below `i` have created their row. */
  ghost predicate CrowdProcs(procs: map<Pid, Proc>, listed: nat, i: nat, j: nat) {
    && |procs| == j
    && (forall p: Pid :: p in procs <==> p < j)
    && (forall p :: p in procs ==> procs[p] == if p < i then RowMade(listed + p) else Admitted)
  }

  ghost predicate CrowdRows(w: World, listed: nat, i: nat) {
    && |w.rows| == listed + i
    && (forall id :: id in w.rows ==> id < listed + i)
    && (forall id :: id in w.used ==> id < listed + i)
  }

  /** `listed` finished logins, `j` further logins admitted, of which `i` have created their row. */
  ghost predicate Crowd(w: World, listed: nat, i: nat, j: nat) {
    && CrowdRows(w, listed, i) && CrowdProcs(w.procs, listed, i, j)
    && |w.members| == listed && (forall id :: id in w.members ==> id < listed)
  }

  ghost predicate Reaches(v: World, w: World, most: nat, k: nat) {
    exists ms :: EnabledRun(v, ms, most, k) && Run(v, ms) == w
  }

  lemma ReachesHere(w: World, most: nat, k: nat)
    ensures Reaches(w, w, most, k)
  {
    assert EnabledRun(w, [], most, k) && Run(w, []) == w;
  }

  /** One enabled move extends reachability. */
  lemma ReachesStep(v: World, w: World, m: Move, most: nat, k: nat)
    requires Reaches(v, w, most, k) && Enabled(w, m, most, k)
    ensures Reaches(v, Step(w, m), most, k)
  {
    var ms :| EnabledRun(v, ms, most, k) && Run(v, ms) == w;
    RunSnoc(v, ms, m, most, k);
  }

  lemma {:induction false} RunSnoc(v: World, ms: seq<Move>, m: Move, most: nat, k: nat)
    requires EnabledRun(v, ms, most, k) && Enabled(Run(v, ms), m, most, k)
    ensures EnabledRun(v, ms + [m], most, k) && Run(v, ms + [m]) == Step(Run(v, ms), m)
    decreases |ms|
  {
    if ms == [] {
      assert ([] + [m])[1..] == [];
    } else {
      RunSnoc(Step(v, ms[0]), ms[1..], m, most, k);
      assert (ms + [m])[1..] == ms[1..] + [m];
    }
  }

  lemma CrowdAdmit(w: World, listed: nat, j: nat)
    requires Crowd(w, listed, 0, j)
    ensures Crowd(Goto(w, j, Admitted), listed, 0, j + 1)
  {
    MapAdd(w.procs, j, Admitted);
    assert CrowdProcs(w.procs[j := Admitted], listed, 0, j + 1);
  }

  lemma CrowdRow(w: World, listed: nat, i: nat, j: nat)
    requires Crowd(w, listed, i, j) && i < j
    ensures i in w.procs && w.procs[i] == Admitted && listed + i !in w.used
    ensures Crowd(Advanced(w, i, listed + i), listed, i + 1, j)
  {
    CrowdRowProcs(w.procs, listed, i, j);
    var w' := Advanced(w, i, listed + i);
    MapAdd(w.rows, listed + i, w.now + TTL);
    assert CrowdRows(w', listed, i + 1);
  }

  lemma CrowdRowProcs(procs: map<Pid, Proc>, listed: nat, i: nat, j: nat)
    requires CrowdProcs(procs, listed, i, j) && i < j
    ensures i in procs && procs[i] == Admitted
    ensures CrowdProcs(procs[i := RowMade(listed + i)], listed, i + 1, j)
  {
    MapAdd(procs, i, RowMade(listed + i));
  }

  /** A login arrives and reads the set's size. */
  lemma ReachArrival(v: World, w: World, p: Pid, limit: nat, newId: Id, most: nat, k: nat)
    requires Reaches(v, w, most, k) && p !in w.procs && |w.procs| < k && limit <= most && newId !in w.used
    ensures Reaches(v, Advanced(Goto(w, p, Arriving(limit)), p, newId), most, k)
  {
    ReachesStep(v, w, Start(p, Arriving(limit)), most, k);
    ReachesStep(v, Goto(w, p, Arriving(limit)), Advance(p, newId), most, k);
  }

  lemma GotoTwice(w: World, p: Pid, first: Proc, second: Proc)
    ensures Goto(Goto(w, p, first), p, second) == Goto(w, p, second)
  {
  }

  /** Another login reads the cardinality and is admitted. */
  lemma Admit(v: World, w: World, listed: nat, j: nat, most: nat, k: nat)
    requires Reaches(v, w, most, k) && Crowd(w, listed, 0, j) && listed < most && j < k
    ensures Reaches(v, Goto(w, j, Admitted), most, k) && Crowd(Goto(w, j, Admitted), listed, 0, j + 1)
  {
    ReachArrival(v, w, j, most, listed, most, k);
    if listed == 0 {
      AdmitEmpty(v, w, j, most, k);
    } else {
      GotoTwice(w, j, Arriving(most), Admitted);
    }
    CrowdAdmit(w, listed, j);
  }

  /** The set is empty, so the table is counted, and it is empty too. */
  lemma AdmitEmpty(v: World, w: World, j: nat, most: nat, k: nat)
    requires Reaches(v, Advanced(Goto(w, j, Arriving(most)), j, 0), most, k)
    requires |w.members| == 0 && |w.rows| == 0 && 0 !in w.used && 0 < most
    ensures Reaches(v, Goto(w, j, Admitted), most, k)
  {
    var seen := Goto(w, j, SawEmpty(most));
    GotoTwice(w, j, Arriving(most), SawEmpty(most));
    assert Active(seen) == {};
    ReachesStep(v, seen, Advance(j, 0), most, k);
    GotoTwice(w, j, SawEmpty(most), Admitted);
  }

  lemma ReachRow(v: World, w: World, i: Pid, newId: Id, most: nat, k: nat)
    requires Reaches(v, w, most, k) && i in w.procs && newId !in w.used
    ensures Reaches(v, Advanced(w, i, newId), most, k)
  {
    ReachesStep(v, w, Advance(i, newId), most, k);
  }

  /** An admitted login creates its row. */
  lemma MakeRow(v: World, w: World, listed: nat, i: nat, j: nat, most: nat, k: nat) returns (w': World)
    requires Reaches(v, w, most, k) && Crowd(w, listed, i, j) && i < j
    ensures Reaches(v, w', most, k) && Crowd(w', listed, i + 1, j)
  {
    CrowdRow(w, listed, i, j);
    ReachRow(v, w, i, listed + i, most, k);
    w' := Advanced(w, i, listed + i);
  }

  /** A login on its own runs to the end. */
  lemma LoginAlone(v: World, w: World, listed: nat, most: nat, k: nat) returns (w': World)
    requires Reaches(v, w, most, k) && Crowd(w, listed, 0, 0) && listed < most && 1 <= k
    ensures Reaches(v, w', most, k) && Crowd(w', listed + 1, 0, 0)
  {
    Admit(v, w, listed, 0, most, k);
    w' := MakeRow(v, Goto(w, 0, Admitted), listed, 0, 1, most, k);
    var m := Advance(0, listed + 1);
    ReachesStep(v, w', m, most, k);
    ReachesStep(v, Step(w', m), m, most, k);
    w' := FinishLast(w', listed);
  }

  /** The only login in flight sets its key, joins the set and is done. */
  lemma FinishLast(w: World, listed: nat) returns (w': World)
    requires Crowd(w, listed, 1, 1)
    ensures w' == Step(Step(w, Advance(0, listed + 1)), Advance(0, listed + 1))
    ensures Crowd(w', listed + 1, 0, 0)
  {
    assert w.procs[0] == RowMade(listed);
    var w1 := Goto(w.(keys := w.keys[listed := w.now + TTL]), 0, KeyMade(listed));
    assert w1 == Step(w, Advance(0, listed + 1));
    w' := Finish(w1.(members := w.members + {listed}), 0);
    assert w' == Step(w1, Advance(0, listed + 1));
    LastGone(w.procs, listed);
    assert |w'.members| == listed + 1;
  }

  lemma LastGone(procs: map<Pid, Proc>, listed: nat)
    requires CrowdProcs(procs, listed, 1, 1)
    ensures procs[0 := KeyMade(listed)] - {0} == map[]
    ensures CrowdProcs(map[], listed + 1, 0, 0)
  {
  }

  lemma {:induction false} ReachCrowd(listed: nat, i: nat, j: nat, most: nat, k: nat) returns (w: World)
    requires i <= j <= k && listed < most && 1 <= k
    ensures Reaches(Init, w, most, k) && Crowd(w, listed, i, j)
    decreases listed, j, i
  {
    if i > 0 {
      w := ReachCrowd(listed, i - 1, j, most, k);
      w := MakeRow(Init, w, listed, i - 1, j, most, k);
    } else if j > 0 {
      w := ReachCrowd(listed, 0, j - 1, most, k);
      Admit(Init, w, listed, j - 1, most, k);
      w := Goto(w, j - 1, Admitted);
    } else if listed > 0 {
      w := ReachCrowd(listed - 1, 0, 0, most, k);
      w := LoginAlone(Init, w, listed - 1, most, k);
    } else {
      ReachesHere(Init, most, k);
      w := Init;
    }
  }

  /** Some schedule with at most `k` handlers in flight stores exactly `most + k - 1` sessions. */
  lemma BoundAttained(most: nat, k: nat)
    requires 1 <= most && 1 <= k
    ensures exists ms :: EnabledRun(Init, ms, most, k) && |Run(Init, ms).rows| == most + k - 1
  {
    var w := ReachCrowd(most - 1, k, k, most, k);
    var ms :| EnabledRun(Init, ms, most, k) && Run(Init, ms) == w;
  }
}
