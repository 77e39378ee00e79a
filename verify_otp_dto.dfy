/** The OTP verification body (src/modules/auths/dto/verify-otp.dto.ts). */
module VerifyOtpDto {
  import opened JsValue
  import opened Pattern
  import opened ClassValidator
  import RegisterDto
  import LoginDto

  /** `@Matches(/^[6-9]\d{9}$/)` alone, the registration pattern; it refuses
      non-strings itself. */
  predicate ValidMobile(v: Value) {
    MatchesPattern(v, RegisterDto.IndianMobilePattern)
  }

  /** `@Length(4, 6)`. */
  predicate ValidOtp(v: Value) {
    Length(v, 4, 6)
  }

  predicate ValidVerifyOtp(body: map<string, Value>) {
    ValidMobile(Get(body, "mobileNumber")) && ValidOtp(Get(body, "otp"))
  }

  /** The mobile number is ten digits starting with 6 to 9, the same set login accepts. */
  lemma AcceptedMobile(v: Value)
    ensures ValidMobile(v) <==> v.Str? && RegisterDto.IndianMobileShape(v.s)
    ensures ValidMobile(v) <==> LoginDto.ValidMobile(v)
  {
    if v.Str? {
      RegisterDto.IndianMobilePatternShape(v.s);
    }
  }

  /** Only the length of the code is checked: any string whose measured length is 4
      to 6, digits or not, is accepted, and nothing else is; presentation selectors
      do not count towards it. */
  lemma OtpOnlyLength(v: Value)
    ensures ValidOtp(v) <==> v.Str? && 4 <= MeasuredLength(v.s) <= 6
    ensures ValidOtp(Str("abcd")) && !ValidOtp(Str("123")) && !ValidOtp(Str("1234567"))
    ensures ValidOtp(Str("1234\U{FE0F}\U{FE0F}\U{FE0F}"))
  {
    MeasuredLengthWithoutSelectors("abcd");
    MeasuredLengthWithoutSelectors("123");
    MeasuredLengthWithoutSelectors("1234567");
    var c := '\U{FE0F}';
    MeasuredLengthWithoutSelectors("1234");
    MeasuredLengthAppendSelector("1234", c);
    MeasuredLengthAppendSelector("1234" + [c], c);
    MeasuredLengthAppendSelector("1234" + [c] + [c], c);
    assert "1234" + [c] + [c] + [c] == "1234\U{FE0F}\U{FE0F}\U{FE0F}";
  }
}
