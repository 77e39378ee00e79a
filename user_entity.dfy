/** The users table row (src/entities/user.entity.ts) and the transformer on its
    `secondaryMobileNumber` column. */
module UserEntity {
  import opened Common
  import opened Text

  /** One row; `name` and the lists may be missing because the DTO makes them optional. */
  datatype User = User(
    mobileNumber: string,
    secondaryMobileNumber: Option<string>,
    name: Option<string>,
    state: string,
    identity: Option<string>,
    products: Option<seq<string>>,
    loadingPoint: Option<seq<string>>,
    destinationShopAddress: Option<seq<string>>,
    route: Option<seq<string>>,
    officeAddress: Option<seq<string>>,
    destinationAddress: Option<seq<string>>)

  /** The members of the `IndiaState` enum, as the `users_state_enum` type lists them. */
  const IndiaStates: seq<string> := [
    "ANDHRA_PRADESH", "ARUNACHAL_PRADESH", "ASSAM", "BIHAR", "CHHATTISGARH", "GOA",
    "GUJARAT", "HARYANA", "HIMACHAL_PRADESH", "JHARKHAND", "KARNATAKA", "KERALA",
    "MADHYA_PRADESH", "MAHARASHTRA", "MANIPUR", "MEGHALAYA", "MIZORAM", "NAGALAND",
    "ODISHA", "PUNJAB", "RAJASTHAN", "SIKKIM", "TAMIL_NADU", "TELANGANA", "TRIPURA",
    "UTTAR_PRADESH", "UTTARAKHAND", "WEST_BENGAL", "DELHI"]

  /** The values of the `Identity` enum, as the `users_identity_enum` type lists them. */
  const IdentityValues: seq<string> := ["TRANSPORTER", "SUPPLIER", "BUYER", "AGENT"]

  /** Both enum columns hold members of their types: `state` always, `identity` when
      it is not null. */
  predicate InEnums(u: User) {
    u.state in IndiaStates && (u.identity.Some? ==> u.identity.value in IdentityValues)
  }

  /** Every enum value a patch supplies is a member of its type. */
  predicate PatchInEnums(p: UserPatch) {
    (p.state.Some? ==> p.state.value in IndiaStates) && (p.identity.Some? ==> p.identity.value in IdentityValues)
  }

  /** The NOT NULL `name` column holds a value (`mobileNumber` and `state` always do). */
  predicate Complete(u: User) {
    u.name.Some?
  }

  /** A validated `CreateUserDto`. */
  datatype CreateUser = CreateUser(
    mobileNumber: string,
    secondaryMobileNumber: Option<string>,
    name: Option<string>,
    state: string,
    identity: Option<string>,
    products: Option<seq<string>>,
    loadingPoint: Option<seq<string>>,
    destinationShopAddress: Option<seq<string>>,
    route: Option<seq<string>>,
    officeAddress: Option<seq<string>>,
    destinationAddress: Option<seq<string>>)

  /** An `UpdateUserDto`: every property may be absent. */
  datatype UserPatch = UserPatch(
    mobileNumber: Option<string>,
    secondaryMobileNumber: Option<string>,
    name: Option<string>,
    state: Option<string>,
    identity: Option<string>,
    products: Option<seq<string>>,
    loadingPoint: Option<seq<string>>,
    destinationShopAddress: Option<seq<string>>,
    route: Option<seq<string>>,
    officeAddress: Option<seq<string>>,
    destinationAddress: Option<seq<string>>)

  /** `repository.create(dto)`: the entity carries the DTO's properties as given. */
  function NewUser(d: CreateUser): User {
    User(d.mobileNumber, d.secondaryMobileNumber, d.name, d.state, d.identity, d.products,
      d.loadingPoint, d.destinationShopAddress, d.route, d.officeAddress, d.destinationAddress)
  }

  /** `Object.assign(user, dto)`: each supplied property replaces the field. */
  function Apply(u: User, p: UserPatch): User {
    User(Or(p.mobileNumber, u.mobileNumber), OrKeep(p.secondaryMobileNumber, u.secondaryMobileNumber),
      OrKeep(p.name, u.name), Or(p.state, u.state), OrKeep(p.identity, u.identity),
      OrKeep(p.products, u.products), OrKeep(p.loadingPoint, u.loadingPoint),
      OrKeep(p.destinationShopAddress, u.destinationShopAddress), OrKeep(p.route, u.route),
      OrKeep(p.officeAddress, u.officeAddress), OrKeep(p.destinationAddress, u.destinationAddress))
  }

  /** The row as the database holds it: the column transformer's `to` has been applied. */
  function Stored(u: User): (s: User)
    ensures s.secondaryMobileNumber == None <==> u.secondaryMobileNumber == None || IsBlank(u.secondaryMobileNumber.value)
    ensures s.secondaryMobileNumber != None ==> s.secondaryMobileNumber == u.secondaryMobileNumber
    ensures s.(secondaryMobileNumber := u.secondaryMobileNumber) == u
  {
    SecondaryToNullIffBlank(u.secondaryMobileNumber);
    u.(secondaryMobileNumber := SecondaryTo(u.secondaryMobileNumber))
  }

  /** The transformer's `to`, applied to the value written to the column:
      null, '' and whitespace-only strings are stored as null. */
  function SecondaryTo(v: Option<string>): Option<string> {
    if v == None || v.value == "" || Trim(v.value) == "" then None else v
  }

  /** The transformer's `from`, applied to the value read from the column. */
  function SecondaryFrom(v: Option<string>): Option<string> {
    v
  }

  /** `to` yields null exactly for null and for strings made only of whitespace
      (the empty string among them); any other string is stored as given, untrimmed. */
  lemma SecondaryToNullIffBlank(v: Option<string>)
    ensures SecondaryTo(v) == None <==> v == None || IsBlank(v.value)
    ensures SecondaryTo(v) != None ==> SecondaryTo(v) == v
  {
    if v != None {
      TrimEmptyIffBlank(v.value);
    }
  }

  lemma SecondaryToExamples()
    ensures SecondaryTo(None) == None && SecondaryTo(Some("")) == None
    ensures SecondaryTo(Some(" \t ")) == None
    ensures SecondaryTo(Some(" 9876543210 ")) == Some(" 9876543210 ")
  {
    var blank, number := " \t ", " 9876543210 ";
    assert IsBlank(blank) by {
      assert IsWhitespace(blank[0]) && IsWhitespace(blank[1]) && IsWhitespace(blank[2]);
    }
    SecondaryToNullIffBlank(Some(blank));
    assert !IsBlank(number) by {
      assert !IsWhitespace(number[1]);
    }
    SecondaryToNullIffBlank(Some(number));
  }

  /** Writing a value that was already written stores the same value. */
  lemma SecondaryToIdempotent(v: Option<string>)
    ensures SecondaryTo(SecondaryTo(v)) == SecondaryTo(v)
  {
  }

  /** Reading back a written value gives exactly what `to` stored. */
  lemma SecondaryRoundTrip(v: Option<string>)
    ensures SecondaryFrom(SecondaryTo(v)) == SecondaryTo(v)
    ensures SecondaryFrom(v) == v
  {
  }
}
