/** The otp_verifications table row (src/entities/otp-verification.entity.ts). */
module OtpEntity {

  /** One row; `createdAt` is the insertion time in milliseconds. */
  datatype OtpVerification = OtpVerification(
    mobileNumber: string,
    providerSessionId: string,
    isUsed: bool,
    createdAt: nat)
}
