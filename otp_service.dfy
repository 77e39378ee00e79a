/** `OtpService` (src/modules/auths/otp.service.ts): OTP sessions opened through the
    2Factor SMS provider and stored in the otp_verifications table. */
module Otp {
  import opened Common
  import opened OtpEntity
  import Store

  const Template := "MANDIPL_OTP"

  /** The two provider endpoints the service calls, with the parts of the URL that vary. */
  datatype ProviderRequest =
    | SendSms(mobileNumber: string, template: string)
    | VerifySms(sessionId: string, otp: string)

  /** The provider's JSON reply: `Status` and `Details`. */
  datatype Reply = Reply(status: string, details: string)

  /** The provider's answer to a request, or None when the HTTP request itself fails. */
  type Provider = ProviderRequest -> Option<Reply>

  class OtpService {
    const db: Store.Database
    const provider: Provider
    /** Every request sent to the provider, in order. */
    var requests: seq<ProviderRequest>

    constructor (db: Store.Database, provider: Provider)
      ensures this.db == db && this.provider == provider && requests == []
    {
      this.db := db;
      this.provider := provider;
      requests := [];
    }

    /** `sendOtp(mobileNumber)`: one provider call; a record is stored only on 'Success',
        holding the provider's session id, unused, created at `now`. */
    method SendOtp(mobileNumber: string, now: nat) returns (r: Result<()>)
      requires db.Valid()
      modifies this, db
      ensures db.Valid()
      ensures requests == old(requests) + [SendSms(mobileNumber, Template)]
      ensures var reply := provider(SendSms(mobileNumber, Template));
        && (reply.None? ==> r.Err? && r.error.Upstream?)
        && (reply.Some? && reply.value.status != "Success" ==> r == Err(BadRequest("Failed to send OTP")))
        && (r.Ok? <==> reply.Some? && reply.value.status == "Success")
        && (r.Ok? ==> (db.otps == old(db.otps)[old(db.nextId) := OtpVerification(mobileNumber, reply.value.details, false, now)]
              && old(db.nextId) !in old(db.otps)))
      ensures r.Err? ==> unchanged(db)
      ensures db.trucks == old(db.trucks) && db.invoices == old(db.invoices) && db.users == old(db.users)
    {
      var request := SendSms(mobileNumber, Template);
      requests := requests + [request];
      var reply := provider(request);
      if reply.None? {
        return Err(Upstream("OTP provider request failed"));
      }
      if reply.value.status != "Success" {
        return Err(BadRequest("Failed to send OTP"));
      }
      var _ := db.InsertOtp(OtpVerification(mobileNumber, reply.value.details, false, now));
      r := Ok(());
    }

    /** `verifyOtp(mobileNumber, otp)`: with no unused record for the number nothing is
        asked and nothing changes; otherwise the provider is asked about the newest such
        record's session, and only a 'Success' marks that one record used. */
    method VerifyOtp(mobileNumber: string, otp: string) returns (r: Result<()>)
      requires db.Valid()
      modifies this, db
      ensures db.Valid()
      ensures (forall i :: !Store.Candidate(old(db.otps), mobileNumber, i)) ==>
        r == Err(BadRequest("OTP session not found")) && requests == old(requests)
      ensures r.Err? ==> unchanged(db)
      ensures (exists i :: Store.Candidate(old(db.otps), mobileNumber, i)) ==>
        exists i :: Store.Newest(old(db.otps), mobileNumber, i)
          && var request := VerifySms(old(db.otps)[i].providerSessionId, otp);
          && requests == old(requests) + [request]
          && (r.Ok? <==> provider(request).Some? && provider(request).value.status == "Success")
          && (provider(request).Some? && provider(request).value.status != "Success" ==> r == Err(BadRequest("Invalid or expired OTP")))
          && (r.Ok? ==> db.otps == old(db.otps)[i := old(db.otps)[i].(isUsed := true)])
      ensures db.trucks == old(db.trucks) && db.invoices == old(db.invoices) && db.users == old(db.users)
    {
      var selected := db.FindNewestUnused(mobileNumber);
      if selected.None? {
        return Err(BadRequest("OTP session not found"));
      }
      var id := selected.value;
      var record := db.otps[id];
      var request := VerifySms(record.providerSessionId, otp);
      requests := requests + [request];
      var reply := provider(request);
      if reply.None? {
        r := Err(Upstream("OTP provider request failed"));
      } else if reply.value.status != "Success" {
        r := Err(BadRequest("Invalid or expired OTP"));
      } else {
        db.UpdateOtp(id, record.(isUsed := true));
        r := Ok(());
      }
      assert Store.Newest(old(db.otps), mobileNumber, id);
    }
  }
}
