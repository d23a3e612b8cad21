# Authbox: sessions, subscriptions, accounts and one-time codes

This project models the three state machines at the heart of Authbox and proves what they keep on
every run.

* **Sessions.** The `sessions` table, the `session:{id}` keys and the `user:sessions:{userId}` sets.
  `SessionModel` has one function per handler. `SessionSafety` proves the invariant that relates the
  three copies and, from it, cache refinement; `SessionRevocation` proves rotation, lineage and
  permanent revocation. `SessionLifetime` says exactly how long a refresh token is good for,
  `SessionLimits` covers the tier limit on sequential runs, and `SessionRace` interleaves logins,
  logouts and revocations access by access and proves a tight bound; `SessionSerial` shows that its
  handlers, uninterrupted, are the handlers of `SessionModel`, and `SessionOrphans` says when they
  leave a key without a row.
* **Billing.** Webhook markers, the four webhook handlers, the confirmation path, the reminder and
  demotion workers and the user tier (`BillingModel`), with replay and crash redelivery
  (`BillingReplay`), what each notice writes (`BillingRecords`), the order of deliveries
  (`BillingOrder`), the tier invariant and confluence (`BillingTiers`), the loss of the tier
  (`BillingGrace`), reminder conservation (`BillingReminders`) and per-user isolation
  (`BillingIsolation`).
* **Accounts and one-time codes.** The user cache under two keys (`AccountModel`,
  `AccountCoherence`, `AccountStaleness`, `LoginStaleness`) and the code, reset-token and cooldown
  protocol (`OtpModel`, `OtpAcceptance`, `OtpSafety`, `OtpRate`).

Those modules work on immutable states. The code itself updates tables and Redis in place, so
`Repositories`, `AuthServices`, `OtpServices`, `BillingServices` and `Workers` write the services as
classes and methods over mutable tables, in the order the code reads and writes them, and every
service method is proved to take exactly one step of the models it touches, or none when it refuses.
Sessions and codes have tables of their own, and what they read of an account is a parameter of
their events, so any sequence of calls, with the clock between them, is a run of each. Billing and
accounts share the `users` table: `SharedUsers` is the model of both together, `BillingBackend` is
proved to take its steps (`Joint`), `SharedUsers.PersonStep` says what an account service does to
it, and `SharedUsers.JointRuns` reduces every joint run to a run of either model, so that the
theorems about each hold however their calls are interleaved. What the methods require of the tables
(`TableOk`, `IdCoherent`, `Valid`) is the declared constraints and the coherence that every step
keeps (`AccountCoherence.StepInv`, `BillingModel.ValidStep`).

Conventions. A run is any sequence of events: handler calls, worker jobs, key losses and clock
ticks. Clocks are whole seconds; a Redis key is absent once its expiry instant is reached. Random
ids and tokens are inputs; `FreshRun` says that they are new. Stripe's answers, OAuth profiles and
the state of the email queue are inputs. A hash verifies exactly the password it was made from, and
a token verifies exactly if it was signed here and its `exp` (section 4.1.4 of RFC 7519) lies ahead.
A run is *careful* if every password change in it comes from a session that is still stored or whose
refresh token has expired. The history fields `issued`, `log`, `demoted` and `tierWrittenAt` exist
for the theorems only; the first also stands for the token signature. Where a lifetime, window or
cooldown is promised, the theorem states the number, not the constant the code uses.

## Findings

These are properties that hold only under a condition. The condition is proved exact.

* Change-password caches the caller's session again without looking at its row
  (`src/modules/users/services/change-password.service.ts:54-55`). An access token outlives its
  session by up to 15 minutes, so a change from a revoked session makes that session's refresh token
  work again (`SessionSafety.CarelessRun`), and one from a rotated session lets one jti be accepted
  twice (`SessionRevocation.AcceptedTwice`). A session that was taken away stays refused if and only
  if no later change from that very session revives it, whatever other users do
  (`SessionRevocation.RevocationIsPermanent`); the cache refines the table on a run if and only if
  the run is careful (`SessionSafety.RefinementOnRuns`). Lineage and the tier limit hold without any
  condition (`SessionRevocation.OnePerLogin`, `SessionLimits.LimitOnRuns`); what else can raise the
  number of active rows is `SessionLimits.RaisesExactly`.
* With JWT_EXPIRY above seven days the cache accepts tokens the table refuses
  (`SessionSafety.ExpiryBoundary`).
* With k handlers in flight a user can end up with k - 1 sessions above the limit, and no more
  (`SessionRace.BoundOnRuns`, `SessionRace.BoundAttained`).
* A revocation that runs inside a login can delete the row before the login sets the key, which then
  outlives the session (`SessionOrphans.RevokedInsideLogin`; exactly when:
  `SessionOrphans.OrphanExactly`).
* The handlers keep no trace of when a notice was made: an active update handled after a deletion
  restores premium until the next downgrade, which the demotion worker never makes
  (`BillingOrder.LateUpdateRestores`). Which notices commute is `BillingOrder.OrderMatters`.
* The webhook reads one spelling of the cancellation flag and the confirmation path two; only when
  they read the same flag do both paths write the same row (`BillingTiers.FulfilmentConfluence`).
* A fulfilled session whose subscription is neither active nor trialing replaces the row and leaves
  a premium tier in place (`BillingTiers.FulfilExactness`); premium means active or trialing
  throughout a run if and only if that never happens to a premium user (`BillingTiers.TierOnRuns`).
* A crash between a handler's commit and its marker repeats payments and nothing else
  (`BillingReplay.CrashRedelivery`).
* A renewal that arrives as `customer.subscription.updated` does not re-arm the reminder. A row can
  be reminded if and only if it was fulfilled and has not been reminded since
  (`BillingReminders.ArmedExactly`), so a subscription that was reminded once and then renews year
  after year is never reminded again (`BillingReminders.RenewalIsNotReminded`,
  `BillingReminders.NoFulfilmentNoReminder`).
* `docs/PAYMENT_SUBSCRIPTION_DESIGN.md:70-73` promises seven days of grace after the period's end.
  The worker grants them, a webhook that reports a lapsed status does not: within the grace period a
  premium user keeps the tier if and only if no such webhook arrives (`BillingGrace.GraceExactly`,
  `BillingGrace.SevenDaysOfGrace`, `BillingGrace.PastDueEndsPremium`).
* The demotion worker leaves the cache alone. The tier under an id key is wrong if and only if a
  demotion took a tier while the key was live and nothing has cleared the entry since
  (`AccountStaleness.StaleExactly`). The 300 s of the key do not bound this: a refresh stores what
  it read for another 300 s, under the email key too, so a client that keeps refreshing keeps the
  old tier without limit (`AccountStaleness.StaleWithoutBound`). It cannot happen unless a lapsed
  snapshot is written over a premium user (`SharedUsers.IdTiersNeverStale`), and with one it can
  (`SharedUsers.LapsedFulfilmentGoesStale`).
* Webhooks invalidate the id key and not the email key, which login reads for the session limit:
  right after an upgrade a login reads the free tier (`LoginStaleness.UpgradeUnread`; exactly when:
  `LoginStaleness.LoginTierExactly`).

Where the documents and the code differ, the model follows the code. `docs/CACHE_ARCHITECTURE.md`
gives the session set the TTL of a session (line 54) and lets refresh fill the session cache on a
miss (line 67); the set has no TTL and a miss is not filled. The comment at
`src/workers/processors/subscription-demotion.processor.ts:11-12` lists three statuses where the
finder selects four.

## Model

| member | source | states |
|---|---|---|
| SessionSafety.LinkedStep | src/infrastructure/cache/session-cache.ts:33-52 | every event keeps: a stored row and a cached key of a user are in that user's set, sets of different users are disjoint, rows and keys agree with what was signed |
| SessionSafety.BackedStep | src/modules/users/services/change-password.service.ts:49-55 | every careful event keeps: a cached key is stored, or its refresh token has expired |
| SessionSafety.InvOnRuns | src/modules/auth/services/refresh-with-token.service.ts:46-117 | the whole invariant holds at the end of every careful run |
| SessionSafety.LookupsAgree | src/modules/auth/services/refresh-with-token.service.ts:50-69 | under the invariant the cache-first lookup and the table-only lookup give the same answer for every token |
| SessionSafety.CarelessChangeBreaks | src/modules/users/services/change-password.service.ts:54-55 | after a careless password change some token is accepted that the table refuses |
| SessionSafety.RefinementOnRuns | src/modules/auth/services/refresh-with-token.service.ts:50-69 | for every lifetime up to seven days: in every state of a run refresh accepts the same tokens for the same users as the table alone, if and only if the run is careful |
| SessionSafety.CarelessRun | src/core/middlewares/auth-guard.ts:44-69 | login, revocation and a password change with the access token still good: a run that is not careful and does not refine the table |
| SessionSafety.LongTokensBreak | src/core/security/jwt.ts:38-46 | for every refresh lifetime above seven days, a careful run on which the two lookups differ |
| SessionSafety.ExpiryBoundary | src/infrastructure/cache/cache-keys.ts:9-10 | all careful runs refine the table if and only if refresh tokens live at most as long as a session |
| SessionRevocation.RevokedIsSpent | src/modules/auth/services/reset-password.service.ts:42-47 | reset, revoke-all, revoke, logout and a password change (sparing the current session) leave every session they cover without row and without live key |
| SessionRevocation.SpentExactly | src/modules/auth/services/refresh-with-token.service.ts:61-69 | on every run a session without row and live key is refused throughout if and only if no password change from that very session revives it; then it is never accepted and stays so |
| SessionRevocation.RevocationIsPermanent | src/modules/auth/services/revoke-all-sessions.service.ts:19-22 | for every token lifetime and every run: a session that was revoked, logged out, dropped by a password operation or rotated is refused for the rest of the run if and only if no later password change from that very session revives it |
| SessionRevocation.AcceptedOnce | src/modules/auth/services/refresh-with-token.service.ts:81-95 | for every token lifetime: each refresh-token jti is accepted at most once on every run that revives no session after its token was accepted |
| SessionRevocation.AcceptedTwice | src/modules/users/services/change-password.service.ts:54-55 | login, refresh, password change with the first access token, refresh: a run that accepts one jti twice |
| SessionRevocation.OneHolderStep | src/modules/auth/services/refresh-with-token.service.ts:81-95 | every event keeps: of the sessions that descend from one login at most one has a row or a key, and a lineage belongs to one user |
| SessionRevocation.OnePerLogin | src/modules/auth/services/refresh-with-token.service.ts:81-95 | on every run, careful or not and for every lifetime, no two stored sessions descend from the same login |
| SessionLifetime.KeptUnlessRemoved | src/workers/processors/database-cleanup.processor.ts:13 | a stored session survives every event that does not remove it, until it has expired |
| SessionLifetime.ExactLifetime | src/modules/auth/services/refresh-with-token.service.ts:50-82 | where refresh tokens live at most as long as a session: at every state of a run a usable token resolves to its user exactly until its expiry or the first event that removes its session, if and only if no password change from that very session revives it afterwards |
| SessionLimits.SetNeverUndercounts | src/modules/auth/services/tier-enforcement.service.ts:25-36 | the active rows of a user are in the user's set, and the number compared with the limit is at least their number |
| SessionLimits.LoginLeavesLimit | src/modules/auth/services/login-with-email.service.ts:64-77 | an accepted login adds exactly its row and leaves at most the limit of the tier it read; a refused one changes nothing |
| SessionLimits.RotateMovesOne | src/modules/auth/services/refresh-with-token.service.ts:81-95 | rotating an active session keeps every user's number of active rows |
| SessionLimits.RaisesExactly | src/modules/auth/services/refresh-with-token.service.ts:81-95 | the number of active rows of a user rises if and only if a login of the user is accepted or a session without an active row is refreshed |
| SessionLimits.OthersNeverRaise | src/modules/auth/services/oauth.service.ts:167-180 | under the invariant no event but a login of the user raises the number of active rows |
| SessionLimits.LimitOnRuns | src/modules/auth/services/tier-enforcement.service.ts:24-37 | on every run, careful or not, active rows <= set members <= the largest limit the user's logins read |
| SessionLimits.ThreeAtMost | src/core/config/tiers.config.ts:8-26 | from an empty store nobody ever has more than three active sessions |
| Tiers.MaxSessions | src/core/config/tiers.config.ts:8-38 | looked up by id in the tier table, the limit is 3 for premium and 1 for free and for unknown ids |
| SessionRace.InvStep | src/modules/auth/services/login-with-email.service.ts:64-77 | every single access of an interleaved login, logout or revoke keeps the invariant, with set members plus pending logins <= limit + k - 1 |
| SessionRace.RowsWithinMeasure | src/infrastructure/cache/session-cache.ts:33-43 | stored rows never exceed set members plus pending logins |
| SessionRace.BoundOnRuns | src/modules/auth/services/tier-enforcement.service.ts:24-36 | with at most k handlers in flight the stored sessions of a user never exceed limit + k - 1, under every interleaving |
| SessionRace.BoundAttained | src/modules/auth/services/login-with-email.service.ts:64-77 | for every limit and k some interleaving stores exactly limit + k - 1 sessions |
| SessionOrphans.OrphanExactly | src/modules/auth/services/revoke-session.service.ts:29-30 | under every interleaving a live key has no row at the end if and only if some access set the key after the row was gone or deleted the row under a live key, and nothing has cleared the key since |
| SessionOrphans.RevokedInsideLogin | src/modules/auth/services/login-with-email.service.ts:69-77 | a revocation that runs inside a login: no handler is left in flight, the session is revoked, and its key is live |
| SessionSerial.LoginSerial | src/modules/auth/services/login-with-email.service.ts:64-77 | a login run access by access without interruption does to the user's rows, keys and set what the atomic login does |
| SessionSerial.LogoutSerial | src/modules/auth/services/logout-with-refresh.service.ts:43-45 | the same for logout |
| SessionSerial.RevokeSerial | src/modules/auth/services/revoke-session.service.ts:21-30 | the same for the revocation of one session |
| BillingModel.PeriodBounds | src/modules/subscriptions/services/handle-stripe-webhook.service.ts:162-185 | a period is extracted exactly when for both bounds the first of the four spellings that is present is a number, and it is that number |
| BillingModel.ValidStep | src/infrastructure/database/migrations/007_create_subscriptions_and_payments.ts:7-18 | every event keeps Stripe ids unique and every row's user present |
| BillingRecords.CheckoutWrites | src/modules/subscriptions/services/handle-stripe-webhook.service.ts:131-159 | a checkout that passes its guards writes the snapshot's customer, id, status, period and flag as a premium, unreminded row, the premium tier if active or trialing, and nothing of anybody else |
| BillingRecords.ConfirmWrites | src/modules/subscriptions/services/confirm-checkout-session.service.ts:101-134 | the same for a confirmation, with the flag in either spelling |
| BillingRecords.UpdateWrites | src/modules/subscriptions/services/handle-stripe-webhook.service.ts:194-221 | an update rewrites status, period and flag of the row and the user's tier, from the payload or, if that has no period, from the fetched subscription, and nothing else |
| BillingRecords.DeletionWrites | src/modules/subscriptions/services/handle-stripe-webhook.service.ts:226-235 | a deletion marks the row canceled and frees the user, and nothing else |
| BillingRecords.InvoiceRecords | src/modules/subscriptions/services/handle-stripe-webhook.service.ts:240-265 | an invoice adds one payment with its ids, amount (or 0), currency (or the default) and time (or now), and changes nothing else |
| BillingRecords.Ignored | src/modules/subscriptions/services/handle-stripe-webhook.service.ts:111-129 | a notice without a row for its subscription, and a checkout that is unpaid, anonymous, without subscription or recorded, changes nothing |
| BillingReplay.RepeatsCollapse | src/modules/subscriptions/services/handle-stripe-webhook.service.ts:74-103 | a run whose repeats precede any late cleanup ends in the very state of the run without them |
| BillingReplay.ReplayWithinRetention | src/workers/processors/database-cleanup.processor.ts:15-21 | if every repeat comes within 90 days of its processing, rows, payments, tiers, markers and mails are those of the run without repeats |
| BillingReplay.MarkersPruned | src/workers/processors/database-cleanup.processor.ts:15-21 | a cleanup keeps a marker, unchanged, if and only if it is at most 90 days old |
| BillingReplay.InvoiceWindow | src/workers/processors/database-cleanup.processor.ts:15-21 | an invoice repeated after a wait and a cleanup is recorded once if and only if the wait is at most 90 days |
| BillingReplay.CrashRedelivery | src/modules/subscriptions/services/handle-stripe-webhook.service.ts:85-103 | after a commit without a marker, redelivery changes nothing if and only if the notice records no payment |
| BillingReplay.CrashCheckout | src/modules/subscriptions/services/handle-stripe-webhook.service.ts:111-159 | a committed checkout delivered again succeeds and changes nothing |
| BillingReplay.CrashUpdated | src/modules/subscriptions/services/handle-stripe-webhook.service.ts:188-224 | a committed update delivered again with the same snapshot succeeds and changes nothing |
| BillingReplay.CrashDeleted | src/modules/subscriptions/services/handle-stripe-webhook.service.ts:226-238 | a committed deletion delivered again succeeds and changes nothing |
| BillingTiers.FulfilmentConfluence | src/modules/subscriptions/services/confirm-checkout-session.service.ts:42-138 | webhook then confirm and confirm then webhook both end as confirm alone; webhook alone does too if and only if the two paths read the same cancellation flag or nothing is written |
| BillingTiers.FulfilExactness | src/modules/subscriptions/services/confirm-checkout-session.service.ts:101-134 | a fulfilment keeps "premium exactly when active or trialing" if and only if the snapshot is active or trialing or the user was not premium |
| BillingTiers.TierStep | src/modules/subscriptions/services/handle-stripe-webhook.service.ts:144-156 | every event of every writer keeps the tier invariant |
| BillingTiers.ExactnessStep | src/modules/subscriptions/services/handle-stripe-webhook.service.ts:144-156 | where premium means active or trialing, a step of any writer keeps it so if and only if it does not write a lapsed snapshot over a premium user |
| BillingTiers.TierOnRuns | src/modules/subscriptions/services/handle-stripe-webhook.service.ts:205-235 | in every reachable state an active or trialing user is premium and a premium user has a row; premium means exactly that throughout a run if and only if no fulfilment in it writes a lapsed snapshot over a premium user |
| BillingTiers.ActiveNeverLapses | src/modules/subscriptions/services/confirm-checkout-session.service.ts:101-102 | a run whose fulfilled sessions are all retrieved active or trialing contains no such fulfilment |
| BillingTiers.CheckoutRefusesSubscribers | src/modules/subscriptions/services/create-checkout-session.service.ts:45-56 | in every reachable state checkout is refused to active and trialing users, and the tier test alone decides |
| BillingTiers.DemotionIsRedundant | src/workers/processors/subscription-demotion.processor.ts:18-25 | if no fulfilment writes a lapsed snapshot over a premium user, the demotion job changes nothing in any reachable state |
| BillingOrder.OrderMatters | src/modules/subscriptions/services/handle-stripe-webhook.service.ts:188-266 | two notices about one subscription that has a row end alike in either order if and only if they commute: updates that write the same, an update to canceled beside a deletion, equal payments, or anything else |
| BillingOrder.CheckoutOvertaken | src/modules/subscriptions/services/handle-stripe-webhook.service.ts:111-224 | an update or deletion that overtakes the checkout creating the row is lost, and when the two orders end alike |
| BillingOrder.LateUpdateRestores | src/modules/subscriptions/services/handle-stripe-webhook.service.ts:205-235 | an active update handled after the deletion restores premium, and the row is never due for demotion at any later time |
| BillingGrace.LosesPremiumExactly | src/modules/subscriptions/services/handle-stripe-webhook.service.ts:205-235 | a step takes the premium tier from a user if and only if it is an unmarked delivery of a lapse (with a period) or deletion of the user's subscription, or a demotion job that finds the user due |
| BillingGrace.PremiumUntilDowngraded | src/modules/subscriptions/services/handle-stripe-webhook.service.ts:205-235 | on every run a premium user stays premium throughout if and only if no such step occurs |
| BillingGrace.GraceExactly | docs/PAYMENT_SUBSCRIPTION_DESIGN.md:70-73 | on every run within seven days of the row's period end, a premium user stays premium throughout if and only if no webhook reports a lapse |
| BillingGrace.SevenDaysOfGrace | docs/PAYMENT_SUBSCRIPTION_DESIGN.md:70-73 | the same for runs that keep the period end and finish within seven days of it |
| BillingGrace.PastDueEndsPremium | src/modules/subscriptions/services/handle-stripe-webhook.service.ts:215-220 | a past-due notice ends the tier at once, at any time |
| BillingReminders.RemindersAreDue | src/modules/subscriptions/repositories/subscription.repository.ts:46-54 | a user gets one mail from a reminder job if the row is active, unreminded and ends in 0 to 7 days, and no mail from anything else |
| BillingReminders.RemindOutcome | src/workers/processors/subscription-renewal-reminder.processor.ts:21-36 | the loop sends each visited user one mail, marks that row, and touches no other |
| BillingReminders.MailsOfJob | src/workers/processors/subscription-renewal-reminder.processor.ts:21-36 | the loop adds one mail per visit, to the visited user, in order, dated when it runs |
| BillingReminders.ArmedStep | src/modules/subscriptions/services/handle-stripe-webhook.service.ts:205-214 | a fulfilment arms a row, a reminder job disarms it if due, and no other event, a renewal included, does either |
| BillingReminders.RemindersConserved | src/workers/processors/subscription-renewal-reminder.processor.ts:17-36 | over every run, mails plus armed rows grow by exactly the fulfilments that found the row not armed; so mails never exceed fulfilments |
| BillingReminders.ArmedExactly | src/modules/subscriptions/services/handle-stripe-webhook.service.ts:133-151 | after any run a row can be reminded if and only if it could at the start or was fulfilled, and no reminder was sent since |
| BillingReminders.RenewalIsNotReminded | src/modules/subscriptions/services/handle-stripe-webhook.service.ts:205-214 | a reminded row that a renewal brings back into the seven-day window, active, is not due |
| BillingReminders.NoFulfilmentNoReminder | src/modules/subscriptions/repositories/subscription.repository.ts:46-54 | on every run without a fulfilment of it a reminded row is never reminded again |
| BillingIsolation.StepAlike | src/modules/subscriptions/services/handle-stripe-webhook.service.ts:111-266 | each event in the full world is matched, as far as one user can see, by its projection to that user |
| BillingIsolation.IsolationOnRuns | src/modules/subscriptions/services/handle-stripe-webhook.service.ts:111-266 | row, tier, payments and markers of a user after a run are those after the run reduced to the user's events |
| BillingIsolation.OnlyOwnEventsMatter | src/modules/subscriptions/services/handle-stripe-webhook.service.ts:111-266 | two runs with the same events about a user leave that user alike |
| AccountCoherence.StepInv | src/infrastructure/cache/user-cache.ts:47-69 | every reader, writer and key loss keeps field-wise coherence of both keys, tier coherence of the id key and bounded staleness of the email key |
| AccountCoherence.CoherentOnRuns | src/modules/auth/services/refresh-with-token.service.ts:71-79 | all of these hold in every reachable state |
| AccountCoherence.LoginRefinesTable | src/modules/auth/services/login-with-email.service.ts:46-62 | a login through the cache finds the same addresses and accepts the same passwords as one through the table |
| AccountCoherence.CurrentPasswordOnly | src/modules/auth/services/login-with-email.service.ts:59-62 | login accepts a password if and only if it is the one stored in the table |
| AccountCoherence.NewPasswordOnly | src/modules/auth/services/reset-password.service.ts:40-48 | from a password change to the next one, login accepts an attempt if and only if it is the new password |
| AccountStaleness.IdTierCoherent | src/modules/subscriptions/services/handle-stripe-webhook.service.ts:158-237 | in every reachable state a live id entry has the table's tier if and only if the demotion worker has not changed the tier since the entry was read from the table |
| AccountStaleness.StaleStep | src/infrastructure/cache/user-cache.ts:47-69 | an id entry is stale after a step if and only if the step demotes a user who is not free under a live key, or the entry was stale and the step does not invalidate, lose, expire or refill it |
| AccountStaleness.DemotionMakesStale | src/workers/processors/subscription-demotion.processor.ts:23-25 | demoting a user whose live id entry is right leaves it wrong if and only if the user was not free |
| AccountStaleness.StaleExactly | src/workers/processors/subscription-demotion.processor.ts:23-25 | after any run an id entry is stale if and only if some demotion in the run took a tier while the key held it and no later step cleared the entry |
| AccountStaleness.StaleRun | src/workers/processors/subscription-demotion.processor.ts:23-25 | registration, upgrade, read and demotion: a run that ends stale |
| AccountStaleness.StaleWithoutBound | src/modules/auth/services/refresh-with-token.service.ts:71-79 | from any stale state, a refresh every 299 s keeps the stale record live for any number of rounds, under the id key and under the email key |
| AccountCoherence.LoginTierStaleness | src/infrastructure/cache/cache-keys.ts:6-7 | the tier a login reads is the table's, or was written less than 300 s ago, or was changed by the demotion worker |
| LoginStaleness.MailStep | src/infrastructure/cache/user-cache.ts:52-69 | an email entry has a wrong tier after a step if and only if the step writes a tier other than the entry's or copies a stale id entry, or it was wrong and the step neither replaces, drops nor expires it nor brings the table round |
| LoginStaleness.LoginTierExactly | src/modules/auth/services/login-with-email.service.ts:46-50 | after any run a login reads a tier other than the table's if and only if some event spoiled the email key and none has healed it since |
| LoginStaleness.UpgradeUnread | src/modules/subscriptions/services/handle-stripe-webhook.service.ts:158 | registered and upgraded: a login reads the free tier of a premium user |
| AccountStaleness.IdleDemotionsKeepIdTiers | src/workers/processors/subscription-demotion.processor.ts:23-25 | on every run from the start whose demotions visit only free users, every live id entry has the table's tier |
| SharedUsers.PersonOnBilling | src/modules/users/services/update-me.service.ts:26-43 | every account write is, for billing, a registration, an amendment that keeps id and tier, the clock, or nothing |
| SharedUsers.JointRuns | src/modules/subscriptions/services/handle-stripe-webhook.service.ts:144-158 | any interleaving of account services, webhooks, confirmations and workers over the one users table is a run of the billing model and a run of the account model, which agree on table and time |
| SharedUsers.IdTiersNeverStale | src/workers/processors/subscription-demotion.processor.ts:18-25 | if no fulfilment writes a lapsed snapshot over a premium user, no joint run ever leaves a stale id entry |
| SharedUsers.LapsedFulfilmentGoesStale | src/modules/subscriptions/services/confirm-checkout-session.service.ts:101-134 | without that, a joint run that ends stale: confirmed while active, confirmed again once canceled, read, demoted |
| OtpSafety.ResetAccounting | src/modules/auth/services/verify-password-reset-otp.service.ts:43-59 | per user, resets <= codes verified <= codes issued, on every run |
| OtpSafety.TimelyOnRuns | src/modules/auth/repositories/verification-token.repository.ts:30-46 | stored rows and live tokens always trace back to the issue and verification in the history, with their time bounds |
| OtpSafety.ResetWithinTwentyMinutes | src/infrastructure/queue/redis.client.ts:96-110 | only the latest issued code is ever accepted, and every reset comes less than 20 minutes after the issue of the code whose verification granted its token |
| OtpAcceptance.IssuedCodeAccepted | src/modules/auth/services/verify-password-reset-otp.service.ts:43-54 | after a send, and until another send or an accepted submission: an attempt is accepted if and only if it is the code sent and less than ten minutes (a day for email verification) have passed, wrong attempts notwithstanding |
| OtpAcceptance.AcceptedCodeIsSpent | src/modules/auth/services/verify-email-otp.service.ts:33-36 | after an accepted submission, and until another send, no attempt is accepted |
| OtpAcceptance.TidyOnRuns | src/modules/auth/services/send-password-reset-otp.service.ts:63-71 | on every run a user has at most one code per purpose, and ids stay unique |
| OtpAcceptance.GrantedTokenLasts | src/infrastructure/queue/redis.client.ts:96-110 | the token an accepted code earns names its user for exactly ten minutes until used or lost, and using it ends it |
| OtpAcceptance.SendMails | src/modules/auth/services/send-verification-otp.service.ts:54-80 | a send mails the code it stored and starts a cooldown of two minutes, or neither if the queue fails |
| OtpAcceptance.CooldownLasts | src/infrastructure/queue/redis.client.ts:71-92 | after a send, and until the next to that key, the cooldown reports exactly what is left of two minutes |
| OtpSafety.FindsLatest | src/modules/auth/repositories/verification-token.repository.ts:30-42 | the row found is the last usable one of the user and type; none is found only if none is usable |
| OtpSafety.WithoutRows | src/modules/auth/repositories/verification-token.repository.ts:44-46 | exactly the rows of other users or types stay |
| OtpRate.SendGuarded | src/modules/auth/services/send-password-reset-otp.service.ts:48-86 | a send keeps mails to one key spaced by 120 s and guarded by its cooldown |
| OtpRate.SpacedCount | src/modules/auth/services/send-verification-otp.service.ts:41-80 | instants spaced by 120 s number at most 1 + L / 120 in an interval of length L |
| OtpRate.RateBound | src/infrastructure/queue/redis.client.ts:71-92 | in every stretch of L seconds of every run at most 1 + floor(L / 120) codes are queued for one address, and for one user |
| Repositories.SessionCache.RemoveAllSessionsForUser | src/infrastructure/cache/session-cache.ts:46-52 | the loop over a snapshot of the set deletes exactly the members' keys, then the set |
| Repositories.SessionRepository.CountActiveByUserId | src/modules/auth/repositories/session.repository.ts:27-35 | the number of the user's unexpired rows |
| Repositories.SessionRepository.DeleteByUserId | src/modules/auth/repositories/session.repository.ts:48-59 | exactly the rows of other users stay, and the excepted one |
| Repositories.VerificationTokenRepository.FindValidByUserIdAndType | src/modules/auth/repositories/verification-token.repository.ts:30-42 | the last row of the user and type that has not expired, if there is one |
| Repositories.RedisClient.ConsumeResetToken | src/infrastructure/queue/redis.client.ts:103-110 | a live token yields its user and is gone, any other yields nothing and changes nothing |
| Repositories.SubscriptionRepository.FindByStripeSubscriptionId | src/modules/subscriptions/repositories/subscription.repository.ts:42-44 | the one user whose row carries the Stripe id, if any |
| Repositories.SubscriptionRepository.FindDueForReminder | src/modules/subscriptions/repositories/subscription.repository.ts:46-54 | exactly the due rows, each once |
| Repositories.SubscriptionRepository.FindDueForDemotion | src/modules/subscriptions/repositories/subscription.repository.ts:60-67 | exactly the lapsed rows, each once |
| Repositories.ProcessedStripeEventRepository.DeleteOlderThan | src/workers/processors/database-cleanup.processor.ts:17-21 | exactly the markers not older than the cutoff stay |
| AuthServices.AuthBackend.EnforceSessionLimit | src/modules/auth/services/tier-enforcement.service.ts:24-37 | refuses exactly when the set's size, or the number of active rows if the set is empty, reaches three (premium) or one |
| AuthServices.AuthBackend.CreateSession | src/modules/auth/services/oauth.service.ts:163-202 | one login step of the session model; if accepted, an access token the guard passes for 15 minutes, a refresh token that resolves to the user, and a row and key that live seven days |
| AuthServices.AuthBackend.LoginWithEmail | src/modules/auth/services/login-with-email.service.ts:42-99 | one login step of both models with the tier of the record read, exactly when that record accepts the password, and the tokens it grants |
| AuthServices.AuthBackend.OAuthCallback | src/modules/auth/services/oauth.service.ts:74-202 | for a linked, orphaned, unlinked or new profile: the account, link and login step of that case and its answer, Unauthorized for an orphan and Forbidden at the limit |
| AuthServices.AuthBackend.ResolveRefresh | src/modules/auth/services/refresh-with-token.service.ts:50-69 | verification, cache, row: the fast lookup of the session model |
| AuthServices.AuthBackend.ReadForRefresh | src/modules/auth/services/refresh-with-token.service.ts:71-79 | the record read by id, stored again under both keys |
| AuthServices.AuthBackend.RotateSession | src/modules/auth/services/refresh-with-token.service.ts:81-111 | one rotation of the session model; a usable access token and a resolving refresh token for the new id, and its row and key |
| AuthServices.AuthBackend.RefreshWithToken | src/modules/auth/services/refresh-with-token.service.ts:46-117 | one refresh step of the session and account models; accepted exactly when the token resolves to a known user, with the record read and usable new tokens |
| AuthServices.AuthBackend.LogoutWithRefresh | src/modules/auth/services/logout-with-refresh.service.ts:31-46 | one logout step of the session model |
| AuthServices.AuthBackend.RevokeSession | src/modules/auth/services/revoke-session.service.ts:20-31 | one revocation step; NotFound for an absent row, Forbidden for another user's |
| AuthServices.AuthBackend.RevokeAllSessions | src/modules/auth/services/revoke-all-sessions.service.ts:19-22 | one revoke-all step of the session model |
| AuthServices.AuthBackend.ReplacePassword | src/modules/auth/services/reset-password.service.ts:40-48 | the account's hash is that of the new password and nothing else of the table changes, together with revoke-all, or with keeping one session |
| AuthServices.AuthBackend.AuthGuard | src/core/middlewares/auth-guard.ts:44-62 | passes exactly an access token signed for its session less than 15 minutes ago; no table is read |
| AuthServices.AuthBackend.ChangePassword | src/modules/users/services/change-password.service.ts:30-57 | for the token the request carries: the refusals, or the password step and the change-password step of the models |
| AuthServices.AuthBackend.RegisterWithEmail | src/modules/auth/services/register-with-email.service.ts:34-55 | one registration step, refused for a known address; the account has the free tier and default permissions, reads back by its address, and accepts exactly the password given |
| AuthServices.AuthBackend.GetMe | src/modules/users/services/get-me.service.ts:20-30 | one read-through step by id |
| AuthServices.AuthBackend.UpdateMe | src/modules/users/services/update-me.service.ts:26-48 | one profile step, refused for an unknown user and a taken name |
| AuthServices.AuthBackend.ConfirmAvatar | src/modules/users/services/avatar-confirm.service.ts:28-58 | the refusals, or one avatar step that stores the given key and nothing else |
| AuthServices.AuthBackend.DeleteAvatar | src/modules/users/services/avatar-delete.service.ts:28-47 | the refusals, nothing for a user without an avatar, or one avatar step |
| OtpServices.OtpBackend.IssueAndAnnounce | src/modules/auth/services/send-password-reset-otp.service.ts:63-84 | the code is replaced by one with its hash and lifetime; the mail with that code and the cooldown follow unless the queue fails |
| OtpServices.OtpBackend.SendPasswordResetOtp | src/modules/auth/services/send-password-reset-otp.service.ts:47-87 | one send step; the answer for each of cooldown, unknown address, queue failure and success |
| OtpServices.OtpBackend.SendVerificationOtp | src/modules/auth/services/send-verification-otp.service.ts:40-81 | one send step keyed by user, refused for unknown and verified users |
| OtpServices.OtpBackend.VerifyPasswordResetOtp | src/modules/auth/services/verify-password-reset-otp.service.ts:36-65 | one verification step; a token is granted exactly if the latest live code matches |
| OtpServices.OtpBackend.VerifyEmailOtp | src/modules/auth/services/verify-email-otp.service.ts:22-37 | one verification step that sets the account's flag, the cache untouched |
| OtpServices.OtpBackend.ResetPassword | src/modules/auth/services/reset-password.service.ts:29-49 | the token is consumed first; with a known user the password, session and cache steps follow, otherwise nothing else changes |
| BillingServices.RemindSnoc | src/workers/processors/subscription-renewal-reminder.processor.ts:21-36 | the reminder loop over one more user is the loop followed by that user's reminder |
| TierWrites.DemotionsUsers | src/workers/processors/subscription-demotion.processor.ts:23-25 | after the loop exactly the listed users are free, and every cached record is as before |
| BillingServices.BillingBackend.FulfilWithTrx | src/modules/subscriptions/services/handle-stripe-webhook.service.ts:144-158 | insert or update and the tier write take effect together or not at all, followed by the invalidation of the id key |
| BillingServices.BillingBackend.HandleCheckoutCompleted | src/modules/subscriptions/services/handle-stripe-webhook.service.ts:111-159 | one checkout step of the billing model and its tier write in the account model |
| BillingServices.BillingBackend.HandleSubscriptionUpdated | src/modules/subscriptions/services/handle-stripe-webhook.service.ts:188-224 | one update step, fetching again only if the payload has no period, and its tier write in the account model |
| BillingServices.BillingBackend.HandleSubscriptionDeleted | src/modules/subscriptions/services/handle-stripe-webhook.service.ts:226-238 | one deletion step and its tier write in the account model |
| BillingServices.BillingBackend.HandleInvoicePaid | src/modules/subscriptions/services/handle-stripe-webhook.service.ts:240-266 | one payment for the row's user, or nothing without a subscription or row |
| BillingServices.BillingBackend.HandleStripeWebhook | src/modules/subscriptions/services/handle-stripe-webhook.service.ts:47-105 | one delivery step of the billing model, the refusals, and the account step of the tier it writes |
| BillingServices.BillingBackend.ConfirmCheckoutSession | src/modules/subscriptions/services/confirm-checkout-session.service.ts:35-138 | one confirmation step, its refusals, and the account step of the tier it writes |
| BillingServices.BillingBackend.CreateCheckoutSession | src/modules/subscriptions/services/create-checkout-session.service.ts:35-76 | the five answers in the order of the guards, and nothing changed |
| BillingServices.BillingBackend.SendRenewalReminders | src/workers/processors/subscription-renewal-reminder.processor.ts:17-36 | the loop is one reminder step of the billing model over the due rows |
| BillingServices.BillingBackend.DemoteLapsed | src/workers/processors/subscription-demotion.processor.ts:18-25 | the loop is one demotion step of the billing model and one demotion per due user in the account model |
| Workers.CleanDatabase | src/workers/processors/database-cleanup.processor.ts:9-21 | exactly the unexpired sessions and codes and the markers of at most 90 days stay; one cleanup step in each of the three models |

## Left out

- Identifiers are opaque integers, compared for equality only; a user id or jti that is the empty string is not modelled apart from an absent one.
- Lower-casing and trimming of addresses and usernames, and the schemas that validate request bodies.
- Dates are integers: the conversion between `Date` and ISO strings in the user cache, and Redis's rounding of a TTL, are not modelled.
- `createdAt` (except as the order of codes), `updatedAt`, device, IP, logs, email texts, and the email, permissions and tier claims of a token.
- HTTP, controllers, middlewares, the rate limiter, permission checks, OpenAPI, dependency injection and clustering.
- Argon2, JWT signing, Stripe signatures, Google and S3: a hash, a ledger, and inputs stand for them.
- OAuth `initiate` and the exchange of the code; a callback starts from the profile.
- Eviction of the session sets, cooldown keys and queues; session keys, user keys and reset tokens may be lost at any time.
- A crash in the middle of a handler other than between a webhook's commit and its marker, and interleavings other than those of `SessionRace`: refresh, revoke-all, password operations, cache fills and worker loops are atomic.
- Subscription and payment row ids: a user has at most one row, so the row is addressed by its user.
- The welcome email of a registration and the renewal email's wording.
- Deletion of users; nothing in the modelled services deletes one.
- Liveness of login: an overcounting set can refuse a login the table alone would admit, and no member claims otherwise.
