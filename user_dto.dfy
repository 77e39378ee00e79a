/** The request body accepted for creating a user (src/modules/users/dto/create-user.dto.ts). */
module CreateUserDto {
  import opened JsValue
  import opened Pattern
  import opened ClassValidator
  import CreateTruckDto
  import UserEntity

  /** The primary number: `/^\+?[1-9]\d{1,14}$/`, the truck contacts' pattern. */
  predicate ValidMobile(v: Value) {
    IsString(v) && IsNotEmpty(v) && MatchesPattern(v, CreateTruckDto.ContactPattern) && MaxLength(v, 15)
  }

  /** `secondaryMobileNumber`: optional, and otherwise checked like the primary number
      except for `@IsNotEmpty()`. */
  predicate ValidSecondaryMobile(v: Value) {
    Absent(v) || (IsString(v) && MatchesPattern(v, CreateTruckDto.ContactPattern) && MaxLength(v, 15))
  }

  predicate ValidState(v: Value) {
    IsString(v) && IsNotEmpty(v) && MaxLength(v, 255)
  }

  predicate ValidCreateUser(body: map<string, Value>) {
    && ValidMobile(Get(body, "mobileNumber"))
    && ValidSecondaryMobile(Get(body, "secondaryMobileNumber"))
    && OptionalBoundedString(Get(body, "name"), 255)
    && ValidState(Get(body, "state"))
    && (Absent(Get(body, "identity")) || IsEnum(Get(body, "identity"), UserEntity.IdentityValues))
    && OptionalStringList(Get(body, "products"))
    && OptionalStringList(Get(body, "loadingPoint"))
    && OptionalStringList(Get(body, "destinationShopAddress"))
    && OptionalStringList(Get(body, "route"))
    && OptionalStringList(Get(body, "officeAddress"))
    && OptionalStringList(Get(body, "destinationAddress"))
  }

  /** The number of digits after the optional '+'. */
  function DigitCount(s: string): nat {
    if s != [] && s[0] == '+' then |s| - 1 else |s|
  }

  /** An accepted mobile number: an optional '+', a first digit 1-9, 2 to 15 digits
      in all (the length limit of an ITU-T E.164 number), and with the '+' at most 14
      digits, because `@MaxLength(15)` counts the '+' too. */
  lemma AcceptedMobile(v: Value)
    ensures ValidMobile(v) <==> v.Str? && CreateTruckDto.ContactShape(v.s) && |v.s| <= 15
    ensures ValidMobile(v) ==> 2 <= DigitCount(v.s) <= 15
    ensures ValidMobile(v) && v.s[0] == '+' ==> DigitCount(v.s) <= 14
  {
    CreateTruckDto.ContactChecks(v);
  }

  /** `@MaxLength(15)` cuts off only '+'-prefixed numbers with 15 digits. */
  lemma MaxLengthCutsOnlyPlusFifteen(s: string)
    requires Matches(CreateTruckDto.ContactPattern, s) && !MaxLength(Str(s), 15)
    ensures s[0] == '+' && DigitCount(s) == 15
  {
    CreateTruckDto.ContactPatternShape(s);
    CreateTruckDto.ContactMeasuredLength(s);
  }

  /** A present secondary number is checked exactly like the primary one
      (the primary's `@IsNotEmpty()` is implied by the pattern). */
  lemma SecondaryLikePrimary(v: Value)
    ensures ValidSecondaryMobile(v) <==> Absent(v) || ValidMobile(v)
  {
    if v.Str? {
      CreateTruckDto.ContactPatternShape(v.s);
    }
  }

  /** What an accepted body holds in its other properties: a non-empty state and a name
      that is absent or a string, each of measured length at most 255, and list fields
      that are absent or arrays of strings. */
  lemma AcceptedUserFields(body: map<string, Value>)
    requires ValidCreateUser(body)
    ensures var st := Get(body, "state"); st.Str? && st.s != "" && MeasuredLength(st.s) <= 255
    ensures var n := Get(body, "name"); Absent(n) || (n.Str? && MeasuredLength(n.s) <= 255)
    ensures var l := Get(body, "products");
      Absent(l) || (l.Arr? && forall i :: 0 <= i < |l.items| ==> l.items[i].Str?)
    ensures var l := Get(body, "loadingPoint");
      Absent(l) || (l.Arr? && forall i :: 0 <= i < |l.items| ==> l.items[i].Str?)
    ensures var l := Get(body, "destinationShopAddress");
      Absent(l) || (l.Arr? && forall i :: 0 <= i < |l.items| ==> l.items[i].Str?)
    ensures var l := Get(body, "route");
      Absent(l) || (l.Arr? && forall i :: 0 <= i < |l.items| ==> l.items[i].Str?)
    ensures var l := Get(body, "officeAddress");
      Absent(l) || (l.Arr? && forall i :: 0 <= i < |l.items| ==> l.items[i].Str?)
    ensures var l := Get(body, "destinationAddress");
      Absent(l) || (l.Arr? && forall i :: 0 <= i < |l.items| ==> l.items[i].Str?)
  {
  }
}
