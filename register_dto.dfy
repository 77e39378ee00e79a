/** The registration body (src/modules/auths/dto/register.dto.ts). */
module RegisterDto {
  import opened JsValue
  import opened Text
  import opened Pattern
  import opened ClassValidator
  import CreateUserDto
  import UserEntity

  /** `/^[6-9]\d{9}$/`, an Indian mobile number without country code. */
  const IndianMobilePattern: seq<Piece> := [Piece(Between('6', '9'), 1, 1), Piece(AnyDigit, 9, 9)]

  predicate ValidName(v: Value) {
    IsString(v) && IsNotEmpty(v)
  }

  predicate ValidMobile(v: Value) {
    IsString(v) && MatchesPattern(v, IndianMobilePattern)
  }

  predicate ValidState(v: Value) {
    IsEnum(v, UserEntity.IndiaStates)
  }

  predicate ValidRegister(body: map<string, Value>) {
    ValidName(Get(body, "name")) && ValidMobile(Get(body, "mobileNumber")) && ValidState(Get(body, "state"))
  }

  /** Ten decimal digits, the first of them 6, 7, 8 or 9. */
  predicate IndianMobileShape(s: string) {
    |s| == 10 && '6' <= s[0] <= '9' && AllIn(s, AnyDigit)
  }

  /** The Indian mobile pattern accepts exactly the strings of `IndianMobileShape`. */
  lemma IndianMobilePatternShape(s: string)
    ensures Matches(IndianMobilePattern, s) <==> IndianMobileShape(s)
  {
    var p := IndianMobilePattern;
    assert p[1..] == [Piece(AnyDigit, 9, 9)];
    RunFixed(p, 1, s);
    if s != [] {
      RunLast(p[1..], 9, 9, s[1..]);
      assert s[..1] == [s[0]];
      assert s == [s[0]] + s[1..];
    }
  }

  lemma AcceptedMobile(v: Value)
    ensures ValidMobile(v) <==> v.Str? && IndianMobileShape(v.s)
  {
    if v.Str? {
      IndianMobilePatternShape(v.s);
    }
  }

  /** A number accepted at registration is also a valid user mobile number,
      so registering never produces a user the user DTO would refuse. */
  lemma RegisterMobileIsUserMobile(v: Value)
    requires ValidMobile(v)
    ensures CreateUserDto.ValidMobile(v)
  {
    AcceptedMobile(v);
    CreateUserDto.AcceptedMobile(v);
  }

  /** A state is accepted exactly when it is one of the 29 distinct enum members. */
  lemma StatesAreDistinct()
    ensures |UserEntity.IndiaStates| == 29
    ensures forall i, j :: 0 <= i < j < |UserEntity.IndiaStates| ==> UserEntity.IndiaStates[i] != UserEntity.IndiaStates[j]
    ensures forall v :: ValidState(v) <==> v.Str? && v.s in UserEntity.IndiaStates
  {
  }
}
