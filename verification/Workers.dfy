/** The daily cleanup, which prunes the three tables of three state machines. */
module Workers {
  import opened AuthServices
  import opened OtpServices
  import opened BillingServices
  import SessionModel
  import OtpModel
  import BillingModel

  method CleanDatabase(now: int, auth: AuthBackend, otp: OtpBackend, billing: BillingBackend)
    modifies auth.sessions, otp.codes, billing.processed
    ensures auth.Sessions(now) == SessionModel.Step(old(auth.Sessions(now)), SessionModel.CleanupJob)
    ensures otp.Codes(now) == OtpModel.Step(old(otp.Codes(now)), OtpModel.CleanupJob)
    ensures forall id :: id in billing.processed.processedAt <==>
              && id in old(billing.processed.processedAt)
              && now - old(billing.processed.processedAt)[id] <= 90 * 24 * 60 * 60
    ensures forall id :: id in auth.sessions.rows <==>
              id in old(auth.sessions.rows) && now <= old(auth.sessions.rows)[id].expiresAt
    ensures forall row :: row in otp.codes.rows <==> row in old(otp.codes.rows) && now <= row.expiresAt
    ensures billing.View(now) == BillingModel.Step(old(billing.View(now)), BillingModel.CleanupJob)
  {
    auth.sessions.DeleteExpired(now);
    otp.codes.DeleteExpired(now);
    billing.processed.DeleteOlderThan(now - BillingModel.RETENTION);
  }
}
