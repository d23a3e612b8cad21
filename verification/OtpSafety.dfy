/** Accounting, timing and rate of the one-time-code protocols. */
module OtpSafety {
  import opened Common
  import opened OtpModel

  // ---------- Counting ----------

  function CountRows(rows: seq<OtpRow>, u: UserId, p: Purpose): nat {
    if rows == [] then 0
    else (if rows[0].user == u && rows[0].purpose == p then 1 else 0) + CountRows(rows[1..], u, p)
  }

  predicate IsIssue(e: Entry, u: UserId) { e.Issued? && e.user == u && e.purpose.PasswordReset? }

  predicate IsVerification(e: Entry, u: UserId) { e.Verified? && e.user == u && e.purpose.PasswordReset? }

  predicate IsReset(e: Entry, u: UserId) { e.PasswordChanged? && e.user == u }

  function Issues(log: seq<Entry>, u: UserId): nat {
    if log == [] then 0
    else Issues(log[..|log| - 1], u) + if IsIssue(log[|log| - 1], u) then 1 else 0
  }

  function Verifications(log: seq<Entry>, u: UserId): nat {
    if log == [] then 0
    else Verifications(log[..|log| - 1], u) + if IsVerification(log[|log| - 1], u) then 1 else 0
  }

  function Resets(log: seq<Entry>, u: UserId): nat {
    if log == [] then 0
    else Resets(log[..|log| - 1], u) + if IsReset(log[|log| - 1], u) then 1 else 0
  }

  lemma CountSnoc(log: seq<Entry>, e: Entry, u: UserId)
    ensures Issues(log + [e], u) == Issues(log, u) + if IsIssue(e, u) then 1 else 0
    ensures Verifications(log + [e], u) == Verifications(log, u) + if IsVerification(e, u) then 1 else 0
    ensures Resets(log + [e], u) == Resets(log, u) + if IsReset(e, u) then 1 else 0
  {
    assert (log + [e])[..|log|] == log;
  }

  function TokensOf(keys: map<ResetToken, ResetEntry>, u: UserId): set<ResetToken> {
    set t | t in keys && keys[t].user == u
  }

  /** Every verification spent an issued code and every password change spent a verification; a code
      still stored and a token still alive are not spent yet. */
  ghost predicate Accounted(s: OtpStore, u: UserId) {
    && Resets(s.log, u) + |TokensOf(s.resetKeys, u)| <= Verifications(s.log, u)
    && Verifications(s.log, u) + CountRows(s.rows, u, PasswordReset) <= Issues(s.log, u)
  }

  lemma {:induction false} KeepCount(rows: seq<OtpRow>, keep: OtpRow -> bool, u: UserId, p: Purpose)
    ensures CountRows(Keep(rows, keep), u, p) <= CountRows(rows, u, p)
    ensures (forall row: OtpRow :: row.user == u && row.purpose == p ==> keep(row)) ==>
              CountRows(Keep(rows, keep), u, p) == CountRows(rows, u, p)
    ensures (forall row: OtpRow :: row.user == u && row.purpose == p ==> !keep(row)) ==>
              CountRows(Keep(rows, keep), u, p) == 0
  {
    if rows != [] {
      KeepCount(rows[1..], keep, u, p);
      if keep(rows[0]) {
        assert ([rows[0]] + Keep(rows[1..], keep))[1..] == Keep(rows[1..], keep);
      }
    }
  }

  lemma WithoutCount(rows: seq<OtpRow>, v: UserId, q: Purpose, u: UserId, p: Purpose)
    ensures CountRows(Without(rows, v, q), u, p) == if v == u && q == p then 0 else CountRows(rows, u, p)
  {
    KeepCount(rows, (row: OtpRow) => !(row.user == v && row.purpose == q), u, p);
  }

  lemma {:induction false} CountAppend(rows: seq<OtpRow>, row: OtpRow, u: UserId, p: Purpose)
    ensures CountRows(rows + [row], u, p) == CountRows(rows, u, p) + if row.user == u && row.purpose == p then 1 else 0
  {
    if rows != [] {
      assert (rows + [row])[1..] == rows[1..] + [row];
      CountAppend(rows[1..], row, u, p);
    } else {
      assert rows + [row] == [row];
    }
  }

  /** `r` is the last row that belongs to the user and purpose and has not expired, if there is one. */
  ghost predicate IsLatestValid(rows: seq<OtpRow>, u: UserId, p: Purpose, now: int, r: Option<OtpRow>) {
    match r
    case Some(row) =>
      exists i :: 0 <= i < |rows| && rows[i] == row && Usable(row, u, p, now) &&
        forall j :: i < j < |rows| ==> !Usable(rows[j], u, p, now)
    case None => forall j :: 0 <= j < |rows| ==> !Usable(rows[j], u, p, now)
  }

  predicate Usable(row: OtpRow, u: UserId, p: Purpose, now: int) {
    row.user == u && row.purpose == p && row.expiresAt > now
  }

  lemma {:induction false} FindsLatest(rows: seq<OtpRow>, u: UserId, p: Purpose, now: int)
    ensures IsLatestValid(rows, u, p, now, FindValid(rows, u, p, now))
  {
    if rows != [] {
      var init, last := rows[..|rows| - 1], |rows| - 1;
      if Usable(rows[last], u, p, now) {
        assert rows[last] == FindValid(rows, u, p, now).value;
      } else {
        FindsLatest(init, u, p, now);
        match FindValid(init, u, p, now)
        case None =>
        case Some(row) =>
          var i :| 0 <= i < |init| && init[i] == row && forall j :: i < j < |init| ==> !Usable(init[j], u, p, now);
          assert rows[i] == row;
      }
    }
  }

  /** A code that is found is stored. */
  lemma {:induction false} FoundIsStored(rows: seq<OtpRow>, u: UserId, p: Purpose, now: int)
    requires FindValid(rows, u, p, now).Some?
    ensures var row := FindValid(rows, u, p, now).value;
            row in rows && row.user == u && row.purpose == p && now < row.expiresAt
    ensures 1 <= CountRows(rows, u, p)
  {
    var init, last := rows[..|rows| - 1], rows[|rows| - 1];
    assert rows == init + [last];
    CountAppend(init, last, u, p);
    if !(last.user == u && last.purpose == p && now < last.expiresAt) {
      FoundIsStored(init, u, p, now);
    }
  }

  lemma IssueAccounted(s: OtpStore, v: UserId, p: Purpose, id: OtpId, code: string, u: UserId)
    requires Accounted(s, u)
    ensures Accounted(Issue(s, v, p, id, code), u)
  {
    var s' := Issue(s, v, p, id, code);
    CountSnoc(s.log, Issued(v, p, id, s.now), u);
    WithoutCount(s.rows, v, p, u, PasswordReset);
    CountAppend(Without(s.rows, v, p), s'.rows[|s'.rows| - 1], u, PasswordReset);
  }

  lemma AccountedStep(s: OtpStore, e: Event, u: UserId)
    requires Accounted(s, u) && Fresh(s, e)
    ensures Accounted(Step(s, e), u)
  {
    match e
    case SendResetTo(_, user, id, code, _) =>
      if user.Some? { IssueAccounted(s, user.value, PasswordReset, id, code, u); }
    case SendVerificationTo(v, _, id, code, _) => IssueAccounted(s, v, EmailVerify, id, code, u);
    case SubmitReset(user, code, token) => if user.Some? { VerifyAccounted(s, user.value, code, token, u); }
    case SubmitEmail(v, code) =>
      if AcceptedRow(s, v, EmailVerify, code).Some? {
        var row := AcceptedRow(s, v, EmailVerify, code).value;
        KeepCount(s.rows, (r: OtpRow) => r.id != row.id, u, PasswordReset);
        CountSnoc(s.log, Verified(v, EmailVerify, row.id, row.createdAt, s.now, None), u);
      }
    case ChangePassword(token, known) => ResetAccounted(s, token, known, u);
    case CleanupJob => KeepCount(s.rows, (row: OtpRow) => s.now <= row.expiresAt, u, PasswordReset);
    case LoseToken(token) => DropToken(s.resetKeys, token, u);
    case Tick(_) =>
  }

  lemma AddToken(keys: map<ResetToken, ResetEntry>, token: ResetToken, entry: ResetEntry, u: UserId)
    requires token !in keys
    ensures |TokensOf(keys[token := entry], u)| == |TokensOf(keys, u)| + if entry.user == u then 1 else 0
  {
    var keys' := keys[token := entry];
    assert forall t :: t != token ==> (t in TokensOf(keys', u) <==> t in TokensOf(keys, u));
    assert TokensOf(keys', u) - {token} == TokensOf(keys, u);
  }

  lemma DropToken(keys: map<ResetToken, ResetEntry>, token: ResetToken, u: UserId)
    ensures |TokensOf(keys - {token}, u)| ==
            |TokensOf(keys, u)| - if token in keys && keys[token].user == u then 1 else 0
  {
    assert TokensOf(keys - {token}, u) == TokensOf(keys, u) - {token};
  }

  lemma VerifyAccounted(s: OtpStore, v: UserId, code: string, token: ResetToken, u: UserId)
    requires Accounted(s, u) && token !in s.resetKeys
    ensures Accounted(VerifyReset(s, Some(v), code, token), u)
  {
    if AcceptedRow(s, v, PasswordReset, code).Some? {
      var row := AcceptedRow(s, v, PasswordReset, code).value;
      FoundIsStored(s.rows, v, PasswordReset, s.now);
      WithoutCount(s.rows, v, PasswordReset, u, PasswordReset);
      CountSnoc(s.log, Verified(v, PasswordReset, row.id, row.createdAt, s.now, Some(token)), u);
      AddToken(s.resetKeys, token, ResetEntry(v, s.now + RESET_TOKEN_TTL), u);
    }
  }

  lemma ResetAccounted(s: OtpStore, token: ResetToken, known: set<UserId>, u: UserId)
    requires Accounted(s, u)
    ensures Accounted(ResetPassword(s, token, known), u)
  {
    if ResetUser(s, token).Some? {
      DropToken(s.resetKeys, token, u);
      CountSnoc(s.log, PasswordChanged(ResetUser(s, token).value, token, s.now), u);
    }
  }

  lemma {:induction false} AccountedOnRuns(s: OtpStore, es: seq<Event>, u: UserId)
    requires Accounted(s, u) && FreshRun(s, es)
    ensures Accounted(Run(s, es), u)
    decreases |es|
  {
    if es != [] {
      AccountedStep(s, es[0], u);
      AccountedOnRuns(Step(s, es[0]), es[1..], u);
    }
  }

  /** Per user, password resets never exceed verified codes, and those never exceed issued ones. */
  lemma ResetAccounting(delivery: bool, es: seq<Event>, u: UserId)
    requires FreshRun(Init(delivery), es)
    ensures var log := Run(Init(delivery), es).log;
            Resets(log, u) <= Verifications(log, u) <= Issues(log, u)
  {
    assert TokensOf(Init(delivery).resetKeys, u) == {};
    AccountedOnRuns(Init(delivery), es, u);
  }

  // ---------- Only the latest code, and the time bound ----------

  function LastIssued(log: seq<Entry>, u: UserId, p: Purpose): Option<OtpId> {
    if log == [] then None
    else
      var last := log[|log| - 1];
      if last.Issued? && last.user == u && last.purpose == p then Some(last.otp)
      else LastIssued(log[..|log| - 1], u, p)
  }

  /** Every accepted code was the latest one issued for its user and purpose. */
  ghost predicate LatestOnly(log: seq<Entry>) {
    forall i :: 0 <= i < |log| && log[i].Verified? ==>
      LastIssued(log[..i], log[i].user, log[i].purpose) == Some(log[i].otp)
  }

  /** A password change is backed by a verification less than ten minutes earlier, which accepted a
      code issued less than ten minutes before that. */
  ghost predicate Backed(log: seq<Entry>, c: Entry)
    requires c.PasswordChanged?
  {
    exists v ::
      && v in log && v.Verified? && v.user == c.user && v.purpose.PasswordReset? && v.grant == Some(c.token)
      && Issued(v.user, PasswordReset, v.otp, v.issuedAt) in log
      && v.issuedAt <= v.at <= c.at
      && v.at < v.issuedAt + RESET_OTP_TTL && c.at < v.at + RESET_TOKEN_TTL
  }

  ghost predicate RowOk(s: OtpStore, row: OtpRow) {
    && Issued(row.user, row.purpose, row.id, row.createdAt) in s.log
    && LastIssued(s.log, row.user, row.purpose) == Some(row.id)
    && row.createdAt <= s.now
    && (row.purpose.PasswordReset? ==> row.expiresAt == row.createdAt + RESET_OTP_TTL)
  }

  ghost predicate TokenOk(s: OtpStore, token: ResetToken, entry: ResetEntry) {
    exists v ::
      && v in s.log && v.Verified? && v.user == entry.user && v.purpose.PasswordReset? && v.grant == Some(token)
      && Issued(v.user, PasswordReset, v.otp, v.issuedAt) in s.log
      && v.issuedAt <= v.at <= s.now && v.at < v.issuedAt + RESET_OTP_TTL
      && entry.expiresAt == v.at + RESET_TOKEN_TTL
  }

  ghost predicate Timely(s: OtpStore) {
    && LatestOnly(s.log)
    && (forall row :: row in s.rows ==> RowOk(s, row))
    && (forall t :: t in s.resetKeys ==> TokenOk(s, t, s.resetKeys[t]))
    && (forall c :: c in s.log && c.PasswordChanged? ==> Backed(s.log, c))
  }

  lemma LastSnoc(log: seq<Entry>, e: Entry, u: UserId, p: Purpose)
    ensures LastIssued(log + [e], u, p) ==
            if e.Issued? && e.user == u && e.purpose == p then Some(e.otp) else LastIssued(log, u, p)
  {
    assert (log + [e])[..|log|] == log;
  }

  lemma LatestSnoc(log: seq<Entry>, e: Entry)
    requires LatestOnly(log)
    requires e.Verified? ==> LastIssued(log, e.user, e.purpose) == Some(e.otp)
    ensures LatestOnly(log + [e])
  {
    var log' := log + [e];
    assert log'[..|log|] == log;
    assert forall i :: 0 <= i < |log| ==> log'[..i] == log[..i] && log'[i] == log[i];
  }

  lemma BackedSnoc(log: seq<Entry>, e: Entry)
    requires forall c :: c in log && c.PasswordChanged? ==> Backed(log, c)
    requires e.PasswordChanged? ==> Backed(log, e)
    ensures forall c :: c in log + [e] && c.PasswordChanged? ==> Backed(log + [e], c)
  {
    forall c | c in log + [e] && c.PasswordChanged?
      ensures Backed(log + [e], c)
    {
      var v :|
        && v in log && v.Verified? && v.user == c.user && v.purpose.PasswordReset? && v.grant == Some(c.token)
        && Issued(v.user, PasswordReset, v.otp, v.issuedAt) in log
        && v.issuedAt <= v.at <= c.at
        && v.at < v.issuedAt + RESET_OTP_TTL && c.at < v.at + RESET_TOKEN_TTL;
      assert v in log + [e];
    }
  }

  lemma TokenSnoc(s: OtpStore, e: Entry, t: ResetToken, entry: ResetEntry)
    requires TokenOk(s, t, entry)
    ensures TokenOk(s.(log := s.log + [e]), t, entry)
  {
    var v :|
      && v in s.log && v.Verified? && v.user == entry.user && v.purpose.PasswordReset? && v.grant == Some(t)
      && Issued(v.user, PasswordReset, v.otp, v.issuedAt) in s.log
      && v.issuedAt <= v.at <= s.now && v.at < v.issuedAt + RESET_OTP_TTL
      && entry.expiresAt == v.at + RESET_TOKEN_TTL;
    assert v in s.log + [e];
  }

  /** Appending to the log keeps every stored code and token, except codes a new issue supersedes. */
  lemma LogSnoc(s: OtpStore, e: Entry)
    requires Timely(s)
    requires e.Verified? ==> LastIssued(s.log, e.user, e.purpose) == Some(e.otp)
    requires e.PasswordChanged? ==> Backed(s.log, e)
    requires e.Issued? ==> forall row :: row in s.rows ==> !(row.user == e.user && row.purpose == e.purpose)
    ensures Timely(s.(log := s.log + [e]))
  {
    var s' := s.(log := s.log + [e]);
    LatestSnoc(s.log, e);
    BackedSnoc(s.log, e);
    forall row | row in s'.rows
      ensures RowOk(s', row)
    {
      assert RowOk(s, row);
      LastSnoc(s.log, e, row.user, row.purpose);
    }
    forall t | t in s'.resetKeys
      ensures TokenOk(s', t, s'.resetKeys[t])
    {
      TokenSnoc(s, e, t, s.resetKeys[t]);
    }
  }

  lemma {:induction false} KeepRows(rows: seq<OtpRow>, keep: OtpRow -> bool)
    ensures forall row :: row in Keep(rows, keep) <==> row in rows && keep(row)
  {
    if rows != [] {
      KeepRows(rows[1..], keep);
    }
  }

  lemma WithoutRows(rows: seq<OtpRow>, u: UserId, p: Purpose)
    ensures forall row :: row in Without(rows, u, p) <==> row in rows && !(row.user == u && row.purpose == p)
  {
    KeepRows(rows, (row: OtpRow) => !(row.user == u && row.purpose == p));
  }

  lemma FewerRows(s: OtpStore, rows: seq<OtpRow>)
    requires Timely(s) && forall row :: row in rows ==> row in s.rows
    ensures Timely(s.(rows := rows))
  {
    var s' := s.(rows := rows);
    forall row | row in rows
      ensures RowOk(s', row)
    {
      assert RowOk(s, row);
    }
    forall t | t in s'.resetKeys
      ensures TokenOk(s', t, s'.resetKeys[t])
    {
      assert TokenOk(s, t, s.resetKeys[t]);
    }
  }

  lemma FewerTokens(s: OtpStore, token: ResetToken)
    requires Timely(s)
    ensures Timely(s.(resetKeys := s.resetKeys - {token}))
  {
    var s' := s.(resetKeys := s.resetKeys - {token});
    forall row | row in s'.rows
      ensures RowOk(s', row)
    {
      assert RowOk(s, row);
    }
    forall t | t in s'.resetKeys
      ensures TokenOk(s', t, s'.resetKeys[t])
    {
      assert TokenOk(s, t, s.resetKeys[t]);
    }
  }

  lemma IssueTimely(s: OtpStore, u: UserId, p: Purpose, id: OtpId, code: string)
    requires Timely(s)
    ensures Timely(Issue(s, u, p, id, code))
  {
    var fewer := s.(rows := Without(s.rows, u, p));
    WithoutRows(s.rows, u, p);
    FewerRows(s, fewer.rows);
    var e := Issued(u, p, id, s.now);
    LogSnoc(fewer, e);
    LastSnoc(s.log, e, u, p);
    var s', logged := Issue(s, u, p, id, code), fewer.(log := s.log + [e]);
    forall row | row in s'.rows
      ensures RowOk(s', row)
    {
      if row in logged.rows { assert RowOk(logged, row); }
    }
    forall t | t in s'.resetKeys
      ensures TokenOk(s', t, s'.resetKeys[t])
    {
      assert TokenOk(logged, t, logged.resetKeys[t]);
    }
  }

  lemma VerifyTimely(s: OtpStore, u: UserId, code: string, token: ResetToken)
    requires Timely(s)
    ensures Timely(VerifyReset(s, Some(u), code, token))
  {
    if AcceptedRow(s, u, PasswordReset, code).Some? {
      var row := AcceptedRow(s, u, PasswordReset, code).value;
      FoundIsStored(s.rows, u, PasswordReset, s.now);
      assert RowOk(s, row);
      var fewer := s.(rows := Without(s.rows, u, PasswordReset));
      WithoutRows(s.rows, u, PasswordReset);
      FewerRows(s, fewer.rows);
      var e := Verified(u, PasswordReset, row.id, row.createdAt, s.now, Some(token));
      LogSnoc(fewer, e);
      var s', logged := VerifyReset(s, Some(u), code, token), fewer.(log := s.log + [e]);
      forall r | r in s'.rows
        ensures RowOk(s', r)
      {
        assert RowOk(logged, r);
      }
      forall t | t in s'.resetKeys
        ensures TokenOk(s', t, s'.resetKeys[t])
      {
        if t == token {
          assert e in s'.log;
        } else {
          assert TokenOk(logged, t, logged.resetKeys[t]);
        }
      }
    }
  }

  lemma ResetTimely(s: OtpStore, token: ResetToken, known: set<UserId>)
    requires Timely(s)
    ensures Timely(ResetPassword(s, token, known))
  {
    if ResetUser(s, token).Some? {
      var u := ResetUser(s, token).value;
      assert TokenOk(s, token, s.resetKeys[token]);
      assert Backed(s.log, PasswordChanged(u, token, s.now));
      FewerTokens(s, token);
      LogSnoc(s.(resetKeys := s.resetKeys - {token}), PasswordChanged(u, token, s.now));
    }
  }

  lemma ClockTimely(s: OtpStore, now: int, queue: seq<OtpMail>, cooldowns: map<CooldownKey, int>)
    requires Timely(s) && s.now <= now
    ensures Timely(s.(now := now, queue := queue, cooldowns := cooldowns))
  {
    var s' := s.(now := now, queue := queue, cooldowns := cooldowns);
    forall row | row in s'.rows
      ensures RowOk(s', row)
    {
      assert RowOk(s, row);
    }
    forall t | t in s'.resetKeys
      ensures TokenOk(s', t, s'.resetKeys[t])
    {
      assert TokenOk(s, t, s.resetKeys[t]);
    }
  }

  lemma TimelyStep(s: OtpStore, e: Event)
    requires Timely(s)
    ensures Timely(Step(s, e))
  {
    var s' := Step(s, e);
    match e
    case SendResetTo(email, user, id, code, _) =>
      if user.Some? {
        IssueTimely(s, user.value, PasswordReset, id, code);
        ClockTimely(Issue(s, user.value, PasswordReset, id, code), s.now, s'.queue, s'.cooldowns);
      }
    case SendVerificationTo(u, _, id, code, _) =>
      IssueTimely(s, u, EmailVerify, id, code);
      ClockTimely(Issue(s, u, EmailVerify, id, code), s.now, s'.queue, s'.cooldowns);
    case SubmitReset(user, code, token) => if user.Some? { VerifyTimely(s, user.value, code, token); }
    case SubmitEmail(u, code) =>
      if AcceptedRow(s, u, EmailVerify, code).Some? {
        var row := AcceptedRow(s, u, EmailVerify, code).value;
        FoundIsStored(s.rows, u, EmailVerify, s.now);
        assert RowOk(s, row);
        KeepRows(s.rows, (r: OtpRow) => r.id != row.id);
        FewerRows(s, WithoutId(s.rows, row.id));
        LogSnoc(
          s.(rows := WithoutId(s.rows, row.id)),
          Verified(u, EmailVerify, row.id, row.createdAt, s.now, None));
      }
    case ChangePassword(token, known) => ResetTimely(s, token, known);
    case CleanupJob =>
      KeepRows(s.rows, (row: OtpRow) => s.now <= row.expiresAt);
      FewerRows(s, Unexpired(s.rows, s.now));
    case LoseToken(token) => FewerTokens(s, token);
    case Tick(d) => ClockTimely(s, s.now + d, s.queue, s.cooldowns);
  }

  lemma {:induction false} TimelyOnRuns(s: OtpStore, es: seq<Event>)
    requires Timely(s)
    ensures Timely(Run(s, es))
    decreases |es|
  {
    if es != [] {
      TimelyStep(s, es[0]);
      TimelyOnRuns(Step(s, es[0]), es[1..]);
    }
  }

  /** `issue` is the code whose verification granted the reset token that the change `c` consumed. */
  ghost predicate Authorised(log: seq<Entry>, issue: Entry, c: Entry)
    requires c.PasswordChanged?
  {
    && issue in log && issue.Issued? && issue.purpose.PasswordReset? && issue.user == c.user
    && exists v ::
         && v in log && v.Verified? && v.purpose.PasswordReset? && v.user == c.user
         && v.otp == issue.otp && v.grant == Some(c.token) && issue.at <= v.at <= c.at
  }

  /** On every run only the latest code issued to a user for a purpose is ever accepted, and every
      password change happens less than twenty minutes after the issue of the very code whose
      verification granted its token. */
  lemma ResetWithinTwentyMinutes(delivery: bool, es: seq<Event>, i: nat)
    requires i < |Run(Init(delivery), es).log|
    ensures var log := Run(Init(delivery), es).log;
            && (log[i].Verified? ==> LastIssued(log[..i], log[i].user, log[i].purpose) == Some(log[i].otp))
            && (log[i].PasswordChanged? ==>
                  exists issue :: Authorised(log, issue, log[i]) && issue.at <= log[i].at < issue.at + 20 * 60)
  {
    TimelyOnRuns(Init(delivery), es);
    var log := Run(Init(delivery), es).log;
    if log[i].PasswordChanged? {
      assert log[i] in log && Backed(log, log[i]);
      var v :|
        && v in log && v.Verified? && v.user == log[i].user && v.purpose.PasswordReset? && v.grant == Some(log[i].token)
        && Issued(v.user, PasswordReset, v.otp, v.issuedAt) in log
        && v.issuedAt <= v.at <= log[i].at
        && v.at < v.issuedAt + RESET_OTP_TTL && log[i].at < v.at + RESET_TOKEN_TTL;
      assert Authorised(log, Issued(v.user, PasswordReset, v.otp, v.issuedAt), log[i]);
    }
  }
}
