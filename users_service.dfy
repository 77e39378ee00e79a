/** `UsersService` (src/modules/users/users.service.ts): the users table with two unique
    keys, `mobileNumber` and the nullable `secondaryMobileNumber`, each guarded by a
    Conflict rule checked before the write. */
module Users {
  import opened Common
  import opened Text
  import opened UserEntity
  import Store

  const MobileExists := "User with this mobile number already exists"
  const SecondaryExists := "User with this secondary mobile number already exists"

  /** `create`'s second rule: a supplied, truthy secondary number some user already has. */
  predicate SecondaryConflicts(users: map<Id, User>, secondary: Option<string>) {
    secondary.Some? && secondary.value != "" && Store.SecondaryTaken(users, secondary.value)
  }

  /** `update`'s first rule: a supplied, truthy mobile number that differs from the
      current one and is already taken. */
  predicate MobileUpdateConflicts(users: map<Id, User>, current: User, p: UserPatch) {
    p.mobileNumber.Some? && p.mobileNumber.value != "" && p.mobileNumber.value != current.mobileNumber
      && Store.MobileTaken(users, p.mobileNumber.value)
  }

  /** `update`'s second rule, the same for the secondary number. */
  predicate SecondaryUpdateConflicts(users: map<Id, User>, current: User, p: UserPatch) {
    p.secondaryMobileNumber.Some? && p.secondaryMobileNumber.value != ""
      && p.secondaryMobileNumber != current.secondaryMobileNumber
      && Store.SecondaryTaken(users, p.secondaryMobileNumber.value)
  }

  /** When no stored secondary number is blank, `create`'s secondary rule is exactly the
      unique index on the value the transformer stores. */
  lemma CreateRuleIsIndex(users: map<Id, User>, secondary: Option<string>)
    requires forall u :: u in users && users[u].secondaryMobileNumber.Some? ==> !IsBlank(users[u].secondaryMobileNumber.value)
    ensures SecondaryConflicts(users, secondary) <==>
      SecondaryTo(secondary).Some? && Store.SecondaryTaken(users, SecondaryTo(secondary).value)
  {
    SecondaryToNullIffBlank(secondary);
  }

  /** With both indexes intact, a row the update's rules let through collides with no
      other row on either key, except an empty mobile number, which the rule never checks. */
  lemma UpdateRulesGuardIndexes(users: map<Id, User>, id: Id, p: UserPatch)
    requires Store.UniqueMobiles(users) && Store.UniqueSecondaries(users) && id in users
    requires forall u :: u in users && users[u].secondaryMobileNumber.Some? ==> !IsBlank(users[u].secondaryMobileNumber.value)
    requires !MobileUpdateConflicts(users, users[id], p) && !SecondaryUpdateConflicts(users, users[id], p)
    ensures var s := Stored(Apply(users[id], p));
      && (Store.MobileTaken(users - {id}, s.mobileNumber) ==> p.mobileNumber == Some(""))
      && !(s.secondaryMobileNumber.Some? && Store.SecondaryTaken(users - {id}, s.secondaryMobileNumber.value))
  {
    var u := Apply(users[id], p);
    var s := Stored(u);
    if Store.MobileTaken(users - {id}, s.mobileNumber) {
      var a :| a in users - {id} && (users - {id})[a].mobileNumber == s.mobileNumber;
      assert users[a].mobileNumber == s.mobileNumber;
    }
    SecondaryToNullIffBlank(u.secondaryMobileNumber);
  }

  class UsersService {
    const db: Store.Database

    constructor (db: Store.Database)
      ensures this.db == db
    {
      this.db := db;
    }

    /** `create(dto)`: the mobile rule first, then the secondary rule, then the insert,
        which the enum types refuse for a state or identity outside them (the DTO checks
        only that `state` is a non-empty string) and the NOT NULL `name` column refuses
        when no name is given. */
    method Create(dto: CreateUser) returns (r: Result<Id>)
      requires db.Valid()
      modifies db
      ensures db.Valid()
      ensures r.Err? ==> unchanged(db)
      ensures Store.MobileTaken(old(db.users), dto.mobileNumber) ==> r == Err(Conflict(MobileExists))
      ensures !Store.MobileTaken(old(db.users), dto.mobileNumber) && SecondaryConflicts(old(db.users), dto.secondaryMobileNumber) ==>
        r == Err(Conflict(SecondaryExists))
      ensures !Store.MobileTaken(old(db.users), dto.mobileNumber) && !SecondaryConflicts(old(db.users), dto.secondaryMobileNumber) ==>
        r == (if dto.state !in IndiaStates then Err(InvalidEnum("state"))
          else if dto.identity.Some? && dto.identity.value !in IdentityValues then Err(InvalidEnum("identity"))
          else if dto.name.None? then Err(NotNull("name"))
          else Ok(old(db.nextId)))
      ensures r.Ok? ==> (r.value !in old(db.users) && db.users == old(db.users)[r.value := Stored(NewUser(dto))]
        && db.trucks == old(db.trucks) && db.invoices == old(db.invoices) && db.otps == old(db.otps))
    {
      var existing := db.FindUserByMobile(dto.mobileNumber);
      if existing.Some? {
        return Err(Conflict(MobileExists));
      }
      if dto.secondaryMobileNumber.Some? && dto.secondaryMobileNumber.value != "" {
        var existingSecondary := db.FindUserBySecondary(dto.secondaryMobileNumber.value);
        if existingSecondary.Some? {
          return Err(Conflict(SecondaryExists));
        }
      }
      CreateRuleIsIndex(db.users, dto.secondaryMobileNumber);
      r := db.InsertUser(NewUser(dto));
    }

    /** `findOne(id)`. */
    method FindOne(id: Id) returns (r: Result<User>)
      ensures id !in db.users ==> r == Err(NotFound("User", id))
      ensures id in db.users ==> r == Ok(db.users[id])
    {
      if id !in db.users {
        return Err(NotFound("User", id));
      }
      r := Ok(db.users[id]);
    }

    /** `findByMobileNumber(n)`: the one user holding `n`, or null. */
    method FindByMobileNumber(n: string) returns (r: Option<Row<User>>)
      requires db.Valid()
      ensures r.None? <==> !Store.MobileTaken(db.users, n)
      ensures r.Some? ==> r.value.id in db.users && db.users[r.value.id] == r.value.row && r.value.row.mobileNumber == n
      ensures r.Some? ==> forall a :: a in db.users && db.users[a].mobileNumber == n ==> a == r.value.id
    {
      var found := db.FindUserByMobile(n);
      if found.None? {
        return None;
      }
      r := Some(Row(found.value, db.users[found.value]));
    }

    /** `update(id, dto)`: NotFound, the mobile rule, the secondary rule, then the merged
        row is saved. The save fails for a state or identity outside its enum type, and
        otherwise only for an empty mobile number that another user holds. */
    method Update(id: Id, p: UserPatch) returns (r: Result<Id>)
      requires db.Valid()
      modifies db
      ensures db.Valid()
      ensures r.Err? ==> unchanged(db)
      ensures id !in old(db.users) ==> r == Err(NotFound("User", id))
      ensures id in old(db.users) && MobileUpdateConflicts(old(db.users), old(db.users)[id], p) ==> r == Err(Conflict(MobileExists))
      ensures (id in old(db.users) && !MobileUpdateConflicts(old(db.users), old(db.users)[id], p)
        && SecondaryUpdateConflicts(old(db.users), old(db.users)[id], p)) ==> r == Err(Conflict(SecondaryExists))
      ensures (id in old(db.users) && !MobileUpdateConflicts(old(db.users), old(db.users)[id], p)
        && !SecondaryUpdateConflicts(old(db.users), old(db.users)[id], p)) ==>
        && (p.state.Some? && p.state.value !in IndiaStates ==> r == Err(InvalidEnum("state")))
        && ((p.state.None? || p.state.value in IndiaStates) && p.identity.Some? && p.identity.value !in IdentityValues ==>
          r == Err(InvalidEnum("identity")))
        && (PatchInEnums(p) ==> (r.Ok? <==> !(p.mobileNumber == Some("") && Store.MobileTaken(old(db.users) - {id}, ""))))
        && (PatchInEnums(p) && r.Err? ==> r == Err(DuplicateKey("mobileNumber")))
      ensures r.Ok? ==> (r.value == id && db.users == old(db.users)[id := Stored(Apply(old(db.users)[id], p))]
        && db.trucks == old(db.trucks) && db.invoices == old(db.invoices) && db.otps == old(db.otps))
    {
      var loaded := FindOne(id);
      if loaded.Err? {
        return Err(loaded.error);
      }
      var user := loaded.value;
      if p.mobileNumber.Some? && p.mobileNumber.value != "" && p.mobileNumber.value != user.mobileNumber {
        var existing := db.FindUserByMobile(p.mobileNumber.value);
        if existing.Some? {
          return Err(Conflict(MobileExists));
        }
      }
      if p.secondaryMobileNumber.Some? && p.secondaryMobileNumber.value != ""
        && p.secondaryMobileNumber != user.secondaryMobileNumber
      {
        var existing := db.FindUserBySecondary(p.secondaryMobileNumber.value);
        if existing.Some? {
          return Err(Conflict(SecondaryExists));
        }
      }
      UpdateRulesGuardIndexes(db.users, id, p);
      r := db.UpdateUser(id, Apply(user, p));
    }

    /** `remove(id)`: NotFound, or exactly that row goes. */
    method Remove(id: Id) returns (r: Result<()>)
      requires db.Valid()
      modifies db
      ensures db.Valid()
      ensures id !in old(db.users) ==> r == Err(NotFound("User", id)) && unchanged(db)
      ensures id in old(db.users) ==> (r.Ok? && db.users == old(db.users) - {id}
        && db.trucks == old(db.trucks) && db.invoices == old(db.invoices) && db.otps == old(db.otps))
    {
      var loaded := FindOne(id);
      if loaded.Err? {
        return Err(loaded.error);
      }
      db.DeleteUser(id);
      r := Ok(());
    }
  }
}
