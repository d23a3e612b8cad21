/** Which code is accepted, how long, and how long a reset token and a cooldown last: exactly. */
module OtpAcceptance {
  import opened Common
  import opened OtpModel
  import OtpSafety

  // ---------- Who sends, who is accepted ----------

  predicate Cooling(s: OtpStore, key: CooldownKey) {
    key in s.cooldowns && s.now < s.cooldowns[key]
  }

  /** The event issues a code to the user for the purpose. */
  predicate Sends(s: OtpStore, e: Event, u: UserId, p: Purpose) {
    match e
    case SendResetTo(email, user, _, _, _) => p.PasswordReset? && user == Some(u) && !Cooling(s, ForAddress(email))
    case SendVerificationTo(v, verified, _, _, _) =>
      p.EmailVerify? && v == u && verified == Some(false) && !Cooling(s, ForUser(u))
    case _ => false
  }

  function KeyOf(e: Event): CooldownKey
    requires e.SendResetTo? || e.SendVerificationTo?
  {
    match e
    case SendResetTo(email, _, _, _, _) => ForAddress(email)
    case SendVerificationTo(v, _, _, _, _) => ForUser(v)
  }

  predicate Accepted(s: OtpStore, u: UserId, p: Purpose, attempt: string) {
    AcceptedRow(s, u, p, attempt).Some?
  }

  /** The event submits a code for the user and purpose that is accepted. */
  predicate Submits(s: OtpStore, e: Event, u: UserId, p: Purpose) {
    match e
    case SubmitReset(user, code, _) => p.PasswordReset? && user == Some(u) && Accepted(s, u, p, code)
    case SubmitEmail(v, code) => p.EmailVerify? && v == u && Accepted(s, u, p, code)
    case _ => false
  }

  ghost predicate NoneSent(s: OtpStore, es: seq<Event>, u: UserId, p: Purpose)
    decreases |es|
  {
    es == [] || (!Sends(s, es[0], u, p) && NoneSent(Step(s, es[0]), es[1..], u, p))
  }

  /** Nothing is sent to, or accepted from, the user for that purpose; wrong attempts may be made. */
  ghost predicate Quiet(s: OtpStore, es: seq<Event>, u: UserId, p: Purpose)
    decreases |es|
  {
    es == [] ||
    (!Sends(s, es[0], u, p) && !Submits(s, es[0], u, p) && Quiet(Step(s, es[0]), es[1..], u, p))
  }

  // ---------- The table ----------

  ghost predicate IdsUnique(rows: seq<OtpRow>) {
    forall r, q :: r in rows && q in rows && r.id == q.id ==> r == q
  }

  ghost predicate OnePerPurpose(rows: seq<OtpRow>) {
    forall r, q :: r in rows && q in rows && r.user == q.user && r.purpose == q.purpose ==> r == q
  }

  ghost predicate Tidy(s: OtpStore) {
    IdsUnique(s.rows) && OnePerPurpose(s.rows)
  }

  ghost predicate NoRow(rows: seq<OtpRow>, u: UserId, p: Purpose) {
    forall r :: r in rows ==> !(r.user == u && r.purpose == p)
  }

  ghost predicate Sole(rows: seq<OtpRow>, row: OtpRow) {
    row in rows && forall r :: r in rows && r.user == row.user && r.purpose == row.purpose ==> r == row
  }

  lemma FewerTidy(rows: seq<OtpRow>, fewer: seq<OtpRow>)
    requires IdsUnique(rows) && OnePerPurpose(rows) && forall r :: r in fewer ==> r in rows
    ensures IdsUnique(fewer) && OnePerPurpose(fewer)
  {
  }

  function LifeOf(p: Purpose): int {
    if p.PasswordReset? then 10 * 60 else 24 * 60 * 60
  }

  /** The rows after a new code: those of other users and purposes, and the new one. */
  lemma IssueRows(s: OtpStore, u: UserId, p: Purpose, id: OtpId, code: string)
    ensures var rows, row := Issue(s, u, p, id, code).rows, OtpRow(id, u, p, Hash(code), s.now, s.now + LifeOf(p));
            forall r :: r in rows <==> r == row || (r in s.rows && !(r.user == u && r.purpose == p))
  {
    OtpSafety.WithoutRows(s.rows, u, p);
  }

  lemma SendRows(s: OtpStore, e: Event, u: UserId, p: Purpose)
    requires Sends(s, e, u, p)
    ensures var row := OtpRow(e.id, u, p, Hash(e.code), s.now, s.now + LifeOf(p));
            forall r :: r in Step(s, e).rows <==> r == row || (r in s.rows && !(r.user == u && r.purpose == p))
  {
    IssueRows(s, u, p, e.id, e.code);
  }

  lemma SomeoneSends(s: OtpStore, e: Event) returns (u: UserId, p: Purpose)
    requires (e.SendResetTo? || e.SendVerificationTo?) && Step(s, e).rows != s.rows
    ensures Sends(s, e, u, p)
  {
    if e.SendResetTo? { u, p := e.user.value, PasswordReset; } else { u, p := e.target, EmailVerify; }
  }

  /** An event that issues no code adds no row. */
  lemma OthersFewer(s: OtpStore, e: Event)
    requires !e.SendResetTo? && !e.SendVerificationTo?
    ensures forall r :: r in Step(s, e).rows ==> r in s.rows
  {
    match e
    case SubmitReset(user, _, _) => if user.Some? { OtpSafety.WithoutRows(s.rows, user.value, PasswordReset); }
    case SubmitEmail(u, code) =>
      if Accepted(s, u, EmailVerify, code) {
        var id := AcceptedRow(s, u, EmailVerify, code).value.id;
        OtpSafety.KeepRows(s.rows, (row: OtpRow) => row.id != id);
      }
    case CleanupJob => OtpSafety.KeepRows(s.rows, (row: OtpRow) => s.now <= row.expiresAt);
    case _ =>
  }

  lemma TidyStep(s: OtpStore, e: Event)
    requires Tidy(s) && Fresh(s, e)
    ensures Tidy(Step(s, e))
  {
    if !e.SendResetTo? && !e.SendVerificationTo? {
      OthersFewer(s, e);
      FewerTidy(s.rows, Step(s, e).rows);
    } else if Step(s, e).rows != s.rows {
      var u, p := SomeoneSends(s, e);
      SendRows(s, e, u, p);
    }
  }

  lemma {:induction false} TidyOnRuns(s: OtpStore, es: seq<Event>)
    requires Tidy(s) && FreshRun(s, es)
    ensures Tidy(Run(s, es))
    decreases |es|
  {
    if es != [] {
      TidyStep(s, es[0]);
      TidyOnRuns(Step(s, es[0]), es[1..]);
    }
  }

  // ---------- The code that is accepted ----------

  /** With one row for the user and purpose, its code is accepted until it expires, and no other. */
  lemma SoleAccepts(s: OtpStore, row: OtpRow, attempt: string)
    requires Sole(s.rows, row)
    ensures Accepted(s, row.user, row.purpose, attempt) <==> row.hash == Hash(attempt) && s.now < row.expiresAt
  {
    OtpSafety.FindsLatest(s.rows, row.user, row.purpose, s.now);
    var i :| 0 <= i < |s.rows| && s.rows[i] == row;
  }

  lemma NoRowRefuses(s: OtpStore, u: UserId, p: Purpose, attempt: string)
    requires NoRow(s.rows, u, p)
    ensures !Accepted(s, u, p, attempt)
  {
    OtpSafety.FindsLatest(s.rows, u, p, s.now);
  }

  lemma SubmitKeeps(s: OtpStore, e: Event, row: OtpRow)
    requires IdsUnique(s.rows) && Sole(s.rows, row) && (e.SubmitReset? || e.SubmitEmail?)
    requires !Submits(s, e, row.user, row.purpose)
    ensures Sole(Step(s, e).rows, row)
  {
    match e
    case SubmitReset(user, _, _) => if user.Some? { OtpSafety.WithoutRows(s.rows, user.value, PasswordReset); }
    case SubmitEmail(u, code) =>
      if Accepted(s, u, EmailVerify, code) {
        var spent := AcceptedRow(s, u, EmailVerify, code).value;
        OtpSafety.FoundIsStored(s.rows, u, EmailVerify, s.now);
        OtpSafety.KeepRows(s.rows, (r: OtpRow) => r.id != spent.id);
      }
  }

  /** The row stands, unless a cleanup took it after its expiry. */
  ghost predicate Standing(s: OtpStore, row: OtpRow) {
    Sole(s.rows, row) || (NoRow(s.rows, row.user, row.purpose) && row.expiresAt <= s.now)
  }

  lemma NoRowStep(s: OtpStore, e: Event, u: UserId, p: Purpose)
    requires NoRow(s.rows, u, p) && !Sends(s, e, u, p)
    ensures NoRow(Step(s, e).rows, u, p)
  {
    if !e.SendResetTo? && !e.SendVerificationTo? {
      OthersFewer(s, e);
    } else if Step(s, e).rows != s.rows {
      var v, q := SomeoneSends(s, e);
      SendRows(s, e, v, q);
    }
  }

  lemma SoleStep(s: OtpStore, e: Event, row: OtpRow)
    requires IdsUnique(s.rows) && Sole(s.rows, row)
    requires !Sends(s, e, row.user, row.purpose) && !Submits(s, e, row.user, row.purpose)
    ensures Standing(Step(s, e), row)
  {
    if e.SubmitReset? || e.SubmitEmail? {
      SubmitKeeps(s, e, row);
    } else if e.SendResetTo? || e.SendVerificationTo? {
      if Step(s, e).rows != s.rows {
        var v, q := SomeoneSends(s, e);
        SendRows(s, e, v, q);
      }
    } else if e.CleanupJob? {
      OtpSafety.KeepRows(s.rows, (r: OtpRow) => s.now <= r.expiresAt);
    }
  }

  lemma ClockStep(s: OtpStore, e: Event)
    ensures Step(s, e).now == if e.Tick? then s.now + e.seconds else s.now
  {
  }

  lemma {:induction false} StandingOnRuns(s: OtpStore, es: seq<Event>, row: OtpRow)
    requires Tidy(s) && FreshRun(s, es) && Standing(s, row) && Quiet(s, es, row.user, row.purpose)
    ensures Standing(Run(s, es), row)
    decreases |es|
  {
    if es != [] {
      TidyStep(s, es[0]);
      ClockStep(s, es[0]);
      if Sole(s.rows, row) { SoleStep(s, es[0], row); } else { NoRowStep(s, es[0], row.user, row.purpose); }
      StandingOnRuns(Step(s, es[0]), es[1..], row);
    }
  }

  /** After a code is sent, and for as long as no other is sent and none is accepted: an attempt is
      accepted if and only if it is that very code and less than ten minutes (for a password reset) or a
      day (for email verification) have passed. Wrong attempts spoil nothing. */
  lemma IssuedCodeAccepted(s: OtpStore, e: Event, es: seq<Event>, u: UserId, p: Purpose, attempt: string)
    requires Tidy(s) && Fresh(s, e) && Sends(s, e, u, p)
    requires FreshRun(Step(s, e), es) && Quiet(Step(s, e), es, u, p)
    ensures var later := Run(Step(s, e), es);
            Accepted(later, u, p, attempt) <==>
              attempt == e.code && later.now - s.now < (if p.PasswordReset? then 10 * 60 else 24 * 60 * 60)
  {
    var row := OtpRow(e.id, u, p, Hash(e.code), s.now, s.now + LifeOf(p));
    var later := Run(Step(s, e), es);
    SendRows(s, e, u, p);
    TidyStep(s, e);
    StandingOnRuns(Step(s, e), es, row);
    if Sole(later.rows, row) { SoleAccepts(later, row, attempt); } else { NoRowRefuses(later, u, p, attempt); }
  }

  // ---------- Once ----------

  lemma AcceptedLeavesNone(s: OtpStore, e: Event, u: UserId, p: Purpose)
    requires Tidy(s) && Submits(s, e, u, p)
    ensures NoRow(Step(s, e).rows, u, p)
  {
    OtpSafety.FoundIsStored(s.rows, u, p, s.now);
    if e.SubmitReset? {
      OtpSafety.WithoutRows(s.rows, u, p);
    } else {
      var id := AcceptedRow(s, u, p, e.code).value.id;
      OtpSafety.KeepRows(s.rows, (r: OtpRow) => r.id != id);
    }
  }

  lemma {:induction false} NoRowOnRuns(s: OtpStore, es: seq<Event>, u: UserId, p: Purpose)
    requires NoRow(s.rows, u, p) && NoneSent(s, es, u, p)
    ensures NoRow(Run(s, es).rows, u, p)
    decreases |es|
  {
    if es != [] {
      NoRowStep(s, es[0], u, p);
      NoRowOnRuns(Step(s, es[0]), es[1..], u, p);
    }
  }

  /** A code is accepted once: after that, and until another is sent, no attempt is. */
  lemma AcceptedCodeIsSpent(s: OtpStore, e: Event, es: seq<Event>, u: UserId, p: Purpose, attempt: string)
    requires Tidy(s) && Submits(s, e, u, p) && NoneSent(Step(s, e), es, u, p)
    ensures !Accepted(Run(Step(s, e), es), u, p, attempt)
  {
    AcceptedLeavesNone(s, e, u, p);
    NoRowOnRuns(Step(s, e), es, u, p);
    NoRowRefuses(Run(Step(s, e), es), u, p, attempt);
  }

  // ---------- The reset token ----------

  ghost predicate TokenUntouched(es: seq<Event>, token: ResetToken) {
    forall i :: 0 <= i < |es| ==>
      !(es[i].ChangePassword? && es[i].token == token) && !(es[i].LoseToken? && es[i].token == token)
  }

  lemma TokenStep(s: OtpStore, e: Event, token: ResetToken)
    requires token in s.resetKeys && Fresh(s, e)
    requires !(e.ChangePassword? && e.token == token) && !(e.LoseToken? && e.token == token)
    ensures token in Step(s, e).resetKeys && Step(s, e).resetKeys[token] == s.resetKeys[token]
  {
  }

  lemma {:induction false} TokenOnRuns(s: OtpStore, es: seq<Event>, token: ResetToken)
    requires token in s.resetKeys && FreshRun(s, es) && TokenUntouched(es, token)
    ensures token in Run(s, es).resetKeys && Run(s, es).resetKeys[token] == s.resetKeys[token]
    decreases |es|
  {
    if es != [] {
      TokenStep(s, es[0], token);
      assert TokenUntouched(es[1..], token);
      TokenOnRuns(Step(s, es[0]), es[1..], token);
    }
  }

  /** The token an accepted reset code earns names its user for exactly ten minutes, until it is used or
      lost; using it ends it. */
  lemma GrantedTokenLasts(s: OtpStore, e: Event, es: seq<Event>, u: UserId)
    requires e.SubmitReset? && Submits(s, e, u, PasswordReset)
    requires FreshRun(Step(s, e), es) && TokenUntouched(es, e.token)
    ensures var later := Run(Step(s, e), es);
            && ResetUser(later, e.token) == (if later.now - s.now < 10 * 60 then Some(u) else None)
            && forall known :: ResetUser(Step(later, ChangePassword(e.token, known)), e.token) == None
  {
    TokenOnRuns(Step(s, e), es, e.token);
  }

  // ---------- Mail and cooldown ----------

  /** A send mails the very code it stores and starts the cooldown of two minutes; if the queue cannot be
      reached it does neither. */
  lemma SendMails(s: OtpStore, e: Event, u: UserId, p: Purpose)
    requires Sends(s, e, u, p)
    ensures var s', key := Step(s, e), KeyOf(e);
            && s'.queue == s.queue + (if s.delivery && e.queueUp then [OtpMail(key, u, e.code, s.now)] else [])
            && s'.cooldowns == (if s.delivery && !e.queueUp then s.cooldowns else s.cooldowns[key := s.now + 2 * 60])
  {
  }

  ghost predicate KeyQuiet(s: OtpStore, es: seq<Event>, key: CooldownKey)
    decreases |es|
  {
    es == [] || (Step(s, es[0]).queue == s.queue && Step(s, es[0]).cooldowns == s.cooldowns
                 && KeyQuiet(Step(s, es[0]), es[1..], key))
    || (!((es[0].SendResetTo? || es[0].SendVerificationTo?) && KeyOf(es[0]) == key)
        && KeyQuiet(Step(s, es[0]), es[1..], key))
  }

  lemma CooldownStep(s: OtpStore, e: Event, key: CooldownKey)
    requires (e.SendResetTo? || e.SendVerificationTo?) ==> KeyOf(e) != key
    ensures key in Step(s, e).cooldowns <==> key in s.cooldowns
    ensures key in s.cooldowns ==> Step(s, e).cooldowns[key] == s.cooldowns[key]
  {
  }

  lemma {:induction false} CooldownOnRuns(s: OtpStore, es: seq<Event>, key: CooldownKey)
    requires key in s.cooldowns && KeyQuiet(s, es, key)
    ensures key in Run(s, es).cooldowns && Run(s, es).cooldowns[key] == s.cooldowns[key]
    decreases |es|
  {
    if es != [] {
      if Step(s, es[0]).cooldowns != s.cooldowns { CooldownStep(s, es[0], key); }
      CooldownOnRuns(Step(s, es[0]), es[1..], key);
    }
  }

  /** After a send that reached the queue, and until the next one to that key, the key cools down for
      exactly two minutes; the seconds left are what a further request is told. */
  lemma CooldownLasts(s: OtpStore, e: Event, es: seq<Event>, u: UserId, p: Purpose)
    requires Sends(s, e, u, p) && (s.delivery ==> e.queueUp) && KeyQuiet(Step(s, e), es, KeyOf(e))
    ensures var later := Run(Step(s, e), es);
            CooldownTtl(later, KeyOf(e)) == if later.now - s.now < 2 * 60 then 2 * 60 - (later.now - s.now) else 0
  {
    SendMails(s, e, u, p);
    CooldownOnRuns(Step(s, e), es, KeyOf(e));
  }
}
