/** The login body (src/modules/auths/dto/login.dto.ts). */
module LoginDto {
  import opened JsValue
  import opened Text
  import opened Pattern
  import opened ClassValidator
  import RegisterDto

  /** `/^[6-9]\d{9}$/`, the registration pattern. */
  predicate ValidMobile(v: Value) {
    IsString(v) && MatchesPattern(v, RegisterDto.IndianMobilePattern)
  }

  /** An accepted number has exactly ten characters, starts with 6 to 9 and is all
      decimal digits, so a '+' prefix or a country code is refused. */
  lemma AcceptedMobile(v: Value)
    requires ValidMobile(v)
    ensures |v.s| == 10
    ensures '6' <= v.s[0] <= '9'
    ensures forall k :: 0 <= k < |v.s| ==> IsDigit(v.s[k])
    ensures '+' !in v.s
  {
    RegisterDto.IndianMobilePatternShape(v.s);
  }

  /** Login accepts exactly the numbers registration accepts. */
  lemma SameAsRegister(v: Value)
    ensures ValidMobile(v) <==> RegisterDto.ValidMobile(v)
  {
  }
}
