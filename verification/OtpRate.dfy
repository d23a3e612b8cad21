/** How many codes are mailed to one address, or to one user, in any stretch of time. */
module OtpRate {
  import opened Common
  import opened OtpModel

  function TimesFor(queue: seq<OtpMail>, key: CooldownKey): seq<int> {
    if queue == [] then []
    else
      var last := queue[|queue| - 1];
      TimesFor(queue[..|queue| - 1], key) + if last.key == key then [last.at] else []
  }

  ghost predicate Spaced(ts: seq<int>) {
    forall i, j :: 0 <= i < j < |ts| ==> ts[i] + 120 <= ts[j]
  }

  /** Mails to a key are spaced by the cooldown, which the last of them still guards. */
  ghost predicate Guarded(queue: seq<OtpMail>, cooldowns: map<CooldownKey, int>, key: CooldownKey) {
    var ts := TimesFor(queue, key);
    && Spaced(ts)
    && (ts != [] ==> key in cooldowns && ts[|ts| - 1] + RESEND_COOLDOWN <= cooldowns[key])
  }

  lemma TimesSnoc(queue: seq<OtpMail>, mail: OtpMail, key: CooldownKey)
    ensures TimesFor(queue + [mail], key) == TimesFor(queue, key) + if mail.key == key then [mail.at] else []
  {
    assert (queue + [mail])[..|queue|] == queue;
  }

  lemma AnnounceGuarded(
    s: OtpStore, target: CooldownKey, u: UserId, code: string, queueUp: bool, key: CooldownKey)
    requires Guarded(s.queue, s.cooldowns, key) && CooldownTtl(s, target) <= 0
    ensures var s' := Announce(s, target, u, code, queueUp); Guarded(s'.queue, s'.cooldowns, key)
  {
    TimesSnoc(s.queue, OtpMail(target, u, code, s.now), key);
    if target == key { SpacedSnoc(TimesFor(s.queue, key), s.now); }
  }

  lemma SpacedSnoc(ts: seq<int>, at: int)
    requires Spaced(ts)
    ensures (ts != [] ==> ts[|ts| - 1] + RESEND_COOLDOWN <= at) ==> Spaced(ts + [at])
  {
    assert forall i :: 0 <= i < |ts| ==> ts[i] <= ts[|ts| - 1];
  }

  lemma SendGuarded(s: OtpStore, e: Event, key: CooldownKey)
    requires Guarded(s.queue, s.cooldowns, key) && (e.SendResetTo? || e.SendVerificationTo?)
    ensures var s' := Step(s, e); Guarded(s'.queue, s'.cooldowns, key)
  {
    match e
    case SendResetTo(email, user, id, code, queueUp) =>
      if CooldownTtl(s, ForAddress(email)) <= 0 && user.Some? {
        AnnounceGuarded(
          Issue(s, user.value, PasswordReset, id, code), ForAddress(email), user.value, code, queueUp, key);
      }
    case SendVerificationTo(u, verified, id, code, queueUp) =>
      if CooldownTtl(s, ForUser(u)) <= 0 && verified == Some(false) {
        AnnounceGuarded(Issue(s, u, EmailVerify, id, code), ForUser(u), u, code, queueUp, key);
      }
  }

  /** Only the two senders touch the queue and the cooldowns. */
  lemma OthersSendNothing(s: OtpStore, e: Event)
    requires !e.SendResetTo? && !e.SendVerificationTo?
    ensures Step(s, e).queue == s.queue && Step(s, e).cooldowns == s.cooldowns
  {
  }

  lemma GuardedStep(s: OtpStore, e: Event, key: CooldownKey)
    requires Guarded(s.queue, s.cooldowns, key)
    ensures var s' := Step(s, e); Guarded(s'.queue, s'.cooldowns, key)
  {
    if e.SendResetTo? || e.SendVerificationTo? {
      SendGuarded(s, e, key);
    } else {
      OthersSendNothing(s, e);
    }
  }

  lemma {:induction false} GuardedOnRuns(s: OtpStore, es: seq<Event>, key: CooldownKey)
    requires Guarded(s.queue, s.cooldowns, key)
    ensures var s' := Run(s, es); Guarded(s'.queue, s'.cooldowns, key)
    decreases |es|
  {
    if es != [] {
      GuardedStep(s, es[0], key);
      GuardedOnRuns(Step(s, es[0]), es[1..], key);
    }
  }

  function CountIn(ts: seq<int>, from: int, to: int): nat {
    if ts == [] then 0
    else CountIn(ts[..|ts| - 1], from, to) + if from <= ts[|ts| - 1] <= to then 1 else 0
  }

  /** Spaced instants in an interval of length L number at most 1 + L / 120. */
  lemma {:induction false} SpacedCount(ts: seq<int>, from: int, to: int)
    requires Spaced(ts)
    ensures from <= to ==> CountIn(ts, from, to) <= 1 + (to - from) / 120
    ensures to < from ==> CountIn(ts, from, to) == 0
    decreases |ts|
  {
    if ts != [] {
      var init, last := ts[..|ts| - 1], ts[|ts| - 1];
      if from <= last <= to {
        SameBelow(init, from, to, last - RESEND_COOLDOWN);
        SpacedCount(init, from, last - RESEND_COOLDOWN);
      } else {
        SpacedCount(init, from, to);
      }
    }
  }

  lemma {:induction false} SameBelow(ts: seq<int>, from: int, to: int, last: int)
    requires last <= to && forall i :: 0 <= i < |ts| ==> ts[i] <= last
    ensures CountIn(ts, from, to) == CountIn(ts, from, last)
    decreases |ts|
  {
    if ts != [] {
      SameBelow(ts[..|ts| - 1], from, to, last);
    }
  }

  /** On every run and for every interval, at most 1 + L / 120 password-reset codes are queued for
      one address, and as many verification codes for one user. */
  lemma RateBound(delivery: bool, es: seq<Event>, key: CooldownKey, from: int, length: nat)
    ensures CountIn(TimesFor(Run(Init(delivery), es).queue, key), from, from + length) <= 1 + length / 120
  {
    GuardedOnRuns(Init(delivery), es, key);
    SpacedCount(TimesFor(Run(Init(delivery), es).queue, key), from, from + length);
  }
}
