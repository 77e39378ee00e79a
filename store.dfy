/** The relational store behind the TypeORM repositories: one map per table keyed by
    primary key, a counter standing for the uuid generator, and the unique indexes,
    NOT NULL columns and the invoice-to-truck foreign key the schema declares. */
module Store {
  import opened Common
  import opened Text
  import TruckEntity
  import InvoiceEntity
  import UserEntity
  import OtpEntity

  type Truck = TruckEntity.Truck
  type Invoice = InvoiceEntity.Invoice
  type User = UserEntity.User
  type Otp = OtpEntity.OtpVerification

  // ---- unique indexes (src/entities/truck.entity.ts:13, src/entities/invoice.entity.ts:13,
  //      src/entities/user.entity.ts:13-14) ----

  predicate TruckNumberTaken(m: map<Id, Truck>, n: string) {
    exists a :: a in m && m[a].truckNumber == n
  }

  predicate UniqueTruckNumbers(m: map<Id, Truck>) {
    forall a, b :: a in m && b in m && m[a].truckNumber == m[b].truckNumber ==> a == b
  }

  predicate InvoiceNumberTaken(m: map<Id, Invoice>, n: string) {
    exists a :: a in m && m[a].invoiceNumber == n
  }

  predicate UniqueInvoiceNumbers(m: map<Id, Invoice>) {
    forall a, b :: a in m && b in m && m[a].invoiceNumber == m[b].invoiceNumber ==> a == b
  }

  predicate MobileTaken(m: map<Id, User>, n: string) {
    exists a :: a in m && m[a].mobileNumber == n
  }

  predicate UniqueMobiles(m: map<Id, User>) {
    forall a, b :: a in m && b in m && m[a].mobileNumber == m[b].mobileNumber ==> a == b
  }

  predicate SecondaryTaken(m: map<Id, User>, n: string) {
    exists a :: a in m && m[a].secondaryMobileNumber == Some(n)
  }

  /** A unique index in PostgreSQL admits any number of nulls. */
  predicate UniqueSecondaries(m: map<Id, User>) {
    forall a, b :: (a in m && b in m && m[a].secondaryMobileNumber.Some?
      && m[a].secondaryMobileNumber == m[b].secondaryMobileNumber) ==> a == b
  }

  /** The user table's invariant: both unique indexes, the NOT NULL `name`, both enum
      columns, and no stored secondary number that the transformer would have turned
      into null. */
  predicate UserTableOk(m: map<Id, User>) {
    && UniqueMobiles(m) && UniqueSecondaries(m)
    && (forall u :: u in m ==> UserEntity.Complete(m[u]))
    && (forall u :: u in m ==> UserEntity.InEnums(m[u]))
    && (forall u :: u in m && m[u].secondaryMobileNumber.Some? ==> !IsBlank(m[u].secondaryMobileNumber.value))
  }

  /** Writing a complete, transformed row `id` with valid enum values keeps the user
      table's invariant when no other row holds its keys. */
  lemma PutKeepsUserTable(users: map<Id, User>, id: Id, s: User)
    requires UserTableOk(users) && UserEntity.Complete(s) && UserEntity.InEnums(s)
    requires s.secondaryMobileNumber.Some? ==> !IsBlank(s.secondaryMobileNumber.value)
    requires !MobileTaken(users - {id}, s.mobileNumber)
    requires s.secondaryMobileNumber.Some? ==> !SecondaryTaken(users - {id}, s.secondaryMobileNumber.value)
    ensures UserTableOk(users[id := s])
  {
    PutKeepsUserIndexes(users, id, s);
  }

  /** Writing row `id` keeps both user indexes when no other row holds its keys. */
  lemma PutKeepsUserIndexes(users: map<Id, User>, id: Id, s: User)
    requires UniqueMobiles(users) && UniqueSecondaries(users)
    requires !MobileTaken(users - {id}, s.mobileNumber)
    requires s.secondaryMobileNumber.Some? ==> !SecondaryTaken(users - {id}, s.secondaryMobileNumber.value)
    ensures UniqueMobiles(users[id := s]) && UniqueSecondaries(users[id := s])
  {
    var m := users[id := s];
    forall a, b | a in m && b in m && m[a].mobileNumber == m[b].mobileNumber ensures a == b {
      if a != id && b != id {
        assert users[a] == m[a] && users[b] == m[b];
      } else if a != id {
        assert a in users - {id};
      } else if b != id {
        assert b in users - {id};
      }
    }
    forall a, b | a in m && b in m && m[a].secondaryMobileNumber.Some?
      && m[a].secondaryMobileNumber == m[b].secondaryMobileNumber ensures a == b {
      assert a in users - {id} || a == id;
      assert b in users - {id} || b == id;
      assert (a == id) == (b == id);
      if a != id {
        assert users[a] == m[a] && users[b] == m[b];
      }
    }
  }

  /** One more claim on truck `t`; every other row as it was. */
  function WithClaim(trucks: map<Id, Truck>, t: Id): (r: map<Id, Truck>)
    ensures r.Keys == trucks.Keys
  {
    if t in trucks then trucks[t := trucks[t].(claimCount := trucks[t].claimCount + 1)] else trucks
  }

  /** `WithClaim` raises exactly the one counter by exactly one and touches nothing else. */
  lemma WithClaimRaisesOne(trucks: map<Id, Truck>, t: Id)
    requires t in trucks
    ensures WithClaim(trucks, t)[t].claimCount == trucks[t].claimCount + 1
    ensures WithClaim(trucks, t)[t].(claimCount := trucks[t].claimCount) == trucks[t]
    ensures forall o :: o in trucks && o != t ==> WithClaim(trucks, t)[o] == trucks[o]
  {
  }

  // ---- the truck foreign key (ON DELETE SET NULL) ----

  predicate LinksResolve(invoices: map<Id, Invoice>, trucks: map<Id, Truck>) {
    forall i :: i in invoices && invoices[i].truck.Some? ==> invoices[i].truck.value in trucks
  }

  /** `ON DELETE SET NULL`: every invoice linked to `t` loses its link. */
  function Unlink(invoices: map<Id, Invoice>, t: Id): (r: map<Id, Invoice>)
    ensures r.Keys == invoices.Keys
  {
    map i | i in invoices :: if invoices[i].truck == Some(t) then invoices[i].(truck := None) else invoices[i]
  }

  /** The `invoices` relation of truck `t`. */
  function InvoicesOf(invoices: map<Id, Invoice>, t: Id): (r: map<Id, Invoice>)
    ensures forall i :: i in r <==> i in invoices && invoices[i].truck == Some(t)
  {
    map i | i in invoices && invoices[i].truck == Some(t) :: invoices[i]
  }

  /** Deleting a truck unlinks exactly its invoices and changes nothing else in them,
      so every remaining link still resolves. */
  lemma UnlinkAfterDelete(invoices: map<Id, Invoice>, trucks: map<Id, Truck>, t: Id)
    requires LinksResolve(invoices, trucks)
    ensures LinksResolve(Unlink(invoices, t), trucks - {t})
    ensures InvoicesOf(Unlink(invoices, t), t) == map[]
    ensures forall i :: i in invoices ==> Unlink(invoices, t)[i].(truck := invoices[i].truck) == invoices[i]
    ensures UniqueInvoiceNumbers(invoices) ==> UniqueInvoiceNumbers(Unlink(invoices, t))
  {
    var u := Unlink(invoices, t);
    forall i | i in u && u[i].truck.Some? ensures u[i].truck.value in trucks - {t} {
      assert invoices[i].truck == u[i].truck;
    }
    assert InvoicesOf(u, t).Keys == {};
    if UniqueInvoiceNumbers(invoices) {
      forall a, b | a in u && b in u && u[a].invoiceNumber == u[b].invoiceNumber ensures a == b {
        assert invoices[a].invoiceNumber == u[a].invoiceNumber;
        assert invoices[b].invoiceNumber == u[b].invoiceNumber;
      }
    }
  }

  // ---- the OTP table's query: newest unused record for a mobile number ----

  predicate Candidate(m: map<Id, Otp>, mobile: string, i: Id) {
    i in m && m[i].mobileNumber == mobile && !m[i].isUsed
  }

  /** `i` is a record `findOne({ where: { mobileNumber, isUsed: false }, order: { createdAt: 'DESC' } })`
      may return: a candidate whose `createdAt` no other candidate exceeds. */
  predicate Newest(m: map<Id, Otp>, mobile: string, i: Id) {
    Candidate(m, mobile, i) && forall j :: j in m && Candidate(m, mobile, j) ==> m[j].createdAt <= m[i].createdAt
  }

  /** Among finitely many candidates one is newest. */
  lemma {:induction false} NewestExists(m: map<Id, Otp>, mobile: string, i: Id)
    requires Candidate(m, mobile, i)
    ensures exists k :: Newest(m, mobile, k)
    decreases |m|
  {
    var rest := m - {i};
    if j :| Candidate(rest, mobile, j) {
      NewestExists(rest, mobile, j);
      var k :| Newest(rest, mobile, k);
      if m[i].createdAt <= m[k].createdAt {
        assert Newest(m, mobile, k) by {
          forall c | Candidate(m, mobile, c) ensures m[c].createdAt <= m[k].createdAt {
            if c != i { assert Candidate(rest, mobile, c); }
          }
        }
      } else {
        assert Newest(m, mobile, i) by {
          forall c | Candidate(m, mobile, c) ensures m[c].createdAt <= m[i].createdAt {
            if c != i { assert Candidate(rest, mobile, c); }
          }
        }
      }
    } else {
      assert forall c :: Candidate(m, mobile, c) ==> c == i by {
        forall c | Candidate(m, mobile, c) && c != i ensures false {
          assert Candidate(rest, mobile, c);
        }
      }
      assert Newest(m, mobile, i);
    }
  }

  /** Marking a record used takes exactly that record out of the candidates, so it can
      never be selected again while every other record keeps its standing. */
  lemma MarkUsedRemovesCandidate(m: map<Id, Otp>, mobile: string, i: Id, j: Id)
    requires i in m
    ensures !Candidate(m[i := m[i].(isUsed := true)], mobile, i)
    ensures j != i ==> (Candidate(m[i := m[i].(isUsed := true)], mobile, j) <==> Candidate(m, mobile, j))
  {
  }

  /** A newest record stays newest when other mobiles' records are added or changed. */
  lemma NewestIgnoresOtherMobiles(m: map<Id, Otp>, mobile: string, i: Id, j: Id, o: Otp)
    requires Newest(m, mobile, i) && j != i && o.mobileNumber != mobile
    ensures Newest(m[j := o], mobile, i)
  {
    var m' := m[j := o];
    forall c: Id | Candidate(m', mobile, c) ensures m'[c].createdAt <= m'[i].createdAt {
      assert c != j && Candidate(m, mobile, c);
    }
  }

  /** The store. Each method is one repository call; a write that would break an index,
      a NOT NULL column or the foreign key is refused and changes nothing. */
  class Database {
    var trucks: map<Id, Truck>
    var invoices: map<Id, Invoice>
    var users: map<Id, User>
    var otps: map<Id, Otp>
    var nextId: Id

    ghost predicate Valid()
      reads this
    {
      && UniqueTruckNumbers(trucks)
      && (forall t :: t in trucks ==> TruckEntity.Complete(trucks[t]))
      && UniqueInvoiceNumbers(invoices)
      && LinksResolve(invoices, trucks)
      && UserTableOk(users)
      && (forall i :: i in trucks ==> i < nextId)
      && (forall i :: i in invoices ==> i < nextId)
      && (forall i :: i in users ==> i < nextId)
      && (forall i :: i in otps ==> i < nextId)
    }

    constructor ()
      ensures Valid()
      ensures trucks == map[] && invoices == map[] && users == map[] && otps == map[]
    {
      trucks, invoices, users, otps, nextId := map[], map[], map[], map[], 0;
    }

    // ---- trucks ----

    /** `findOne({ where: { truckNumber } })`. */
    method FindTruckByNumber(n: string) returns (r: Option<Id>)
      ensures r.Some? ==> r.value in trucks && trucks[r.value].truckNumber == n
      ensures r.None? <==> !TruckNumberTaken(trucks, n)
    {
      if exists a :: a in trucks && trucks[a].truckNumber == n {
        var a :| a in trucks && trucks[a].truckNumber == n;
        r := Some(a);
      } else {
        r := None;
      }
    }

    /** `save` of a new truck. */
    method InsertTruck(t: Truck) returns (r: Result<Id>)
      requires Valid()
      modifies this
      ensures Valid()
      ensures !TruckEntity.Complete(t) ==> r == Err(NotNull(TruckEntity.MissingColumn(t)))
      ensures TruckEntity.Complete(t) && TruckNumberTaken(old(trucks), t.truckNumber) ==> r == Err(DuplicateKey("truckNumber"))
      ensures r.Err? ==> unchanged(this)
      ensures r.Ok? <==> TruckEntity.Complete(t) && !TruckNumberTaken(old(trucks), t.truckNumber)
      ensures r.Ok? ==> (r.value == old(nextId) && r.value !in old(trucks) && trucks == old(trucks)[r.value := t]
        && nextId == old(nextId) + 1 && invoices == old(invoices) && users == old(users) && otps == old(otps))
    {
      if !TruckEntity.Complete(t) {
        return Err(NotNull(TruckEntity.MissingColumn(t)));
      }
      var found := FindTruckByNumber(t.truckNumber);
      if found.Some? {
        return Err(DuplicateKey("truckNumber"));
      }
      r := Ok(nextId);
      trucks := trucks[nextId := t];
      nextId := nextId + 1;
    }

    /** `save` of a loaded truck, written back whole. */
    method UpdateTruck(id: Id, t: Truck) returns (r: Result<Id>)
      requires Valid() && id in trucks
      modifies this
      ensures Valid()
      ensures !TruckEntity.Complete(t) ==> r == Err(NotNull(TruckEntity.MissingColumn(t)))
      ensures TruckEntity.Complete(t) && TruckNumberTaken(old(trucks) - {id}, t.truckNumber) ==> r == Err(DuplicateKey("truckNumber"))
      ensures r.Err? ==> unchanged(this)
      ensures r.Ok? <==> TruckEntity.Complete(t) && !TruckNumberTaken(old(trucks) - {id}, t.truckNumber)
      ensures r.Ok? ==> (r.value == id && trucks == old(trucks)[id := t]
        && nextId == old(nextId) && invoices == old(invoices) && users == old(users) && otps == old(otps))
    {
      if !TruckEntity.Complete(t) {
        return Err(NotNull(TruckEntity.MissingColumn(t)));
      }
      if exists a :: a in trucks && a != id && trucks[a].truckNumber == t.truckNumber {
        assert TruckNumberTaken(trucks - {id}, t.truckNumber) by {
          var a :| a in trucks && a != id && trucks[a].truckNumber == t.truckNumber;
          assert a in trucks - {id};
        }
        return Err(DuplicateKey("truckNumber"));
      }
      r := Ok(id);
      trucks := trucks[id := t];
    }

    /** `remove` of a loaded truck; the foreign key unlinks its invoices. */
    method DeleteTruck(id: Id)
      requires Valid() && id in trucks
      modifies this
      ensures Valid()
      ensures trucks == old(trucks) - {id} && invoices == Unlink(old(invoices), id)
      ensures nextId == old(nextId) && users == old(users) && otps == old(otps)
    {
      UnlinkAfterDelete(invoices, trucks, id);
      invoices := Unlink(invoices, id);
      trucks := trucks - {id};
    }

    /** `increment({ id }, 'claimCount', 1)`: one atomic UPDATE; no row, no change. */
    method IncrementClaimCount(id: Id)
      requires Valid()
      modifies this
      ensures Valid()
      ensures trucks == WithClaim(old(trucks), id)
      ensures nextId == old(nextId) && invoices == old(invoices) && users == old(users) && otps == old(otps)
    {
      if id in trucks {
        trucks := trucks[id := trucks[id].(claimCount := trucks[id].claimCount + 1)];
      }
    }

    // ---- invoices ----

    /** `findOne({ where: { invoiceNumber } })`. */
    method FindInvoiceByNumber(n: string) returns (r: Option<Id>)
      ensures r.Some? ==> r.value in invoices && invoices[r.value].invoiceNumber == n
      ensures r.None? <==> !InvoiceNumberTaken(invoices, n)
    {
      if exists a :: a in invoices && invoices[a].invoiceNumber == n {
        var a :| a in invoices && invoices[a].invoiceNumber == n;
        r := Some(a);
      } else {
        r := None;
      }
    }

    /** `save` of a new invoice. */
    method InsertInvoice(inv: Invoice) returns (r: Result<Id>)
      requires Valid()
      modifies this
      ensures Valid()
      ensures inv.truck.Some? && inv.truck.value !in old(trucks) ==> r == Err(ForeignKey("truckId"))
      ensures r.Err? ==> unchanged(this)
      ensures r.Ok? <==> (inv.truck.None? || inv.truck.value in old(trucks)) && !InvoiceNumberTaken(old(invoices), inv.invoiceNumber)
      ensures r.Err? && !(inv.truck.Some? && inv.truck.value !in old(trucks)) ==> r == Err(DuplicateKey("invoiceNumber"))
      ensures r.Ok? ==> (r.value == old(nextId) && r.value !in old(invoices) && invoices == old(invoices)[r.value := inv]
        && nextId == old(nextId) + 1 && trucks == old(trucks) && users == old(users) && otps == old(otps))
    {
      if inv.truck.Some? && inv.truck.value !in trucks {
        return Err(ForeignKey("truckId"));
      }
      var found := FindInvoiceByNumber(inv.invoiceNumber);
      if found.Some? {
        return Err(DuplicateKey("invoiceNumber"));
      }
      r := Ok(nextId);
      invoices := invoices[nextId := inv];
      nextId := nextId + 1;
    }

    /** `save` of a loaded invoice, written back whole. */
    method UpdateInvoice(id: Id, inv: Invoice) returns (r: Result<Id>)
      requires Valid() && id in invoices
      modifies this
      ensures Valid()
      ensures inv.truck.Some? && inv.truck.value !in old(trucks) ==> r == Err(ForeignKey("truckId"))
      ensures r.Err? ==> unchanged(this)
      ensures r.Ok? <==> (inv.truck.None? || inv.truck.value in old(trucks)) && !InvoiceNumberTaken(old(invoices) - {id}, inv.invoiceNumber)
      ensures r.Err? && !(inv.truck.Some? && inv.truck.value !in old(trucks)) ==> r == Err(DuplicateKey("invoiceNumber"))
      ensures r.Ok? ==> (r.value == id && invoices == old(invoices)[id := inv]
        && nextId == old(nextId) && trucks == old(trucks) && users == old(users) && otps == old(otps))
    {
      if inv.truck.Some? && inv.truck.value !in trucks {
        return Err(ForeignKey("truckId"));
      }
      if exists a :: a in invoices && a != id && invoices[a].invoiceNumber == inv.invoiceNumber {
        assert InvoiceNumberTaken(invoices - {id}, inv.invoiceNumber) by {
          var a :| a in invoices && a != id && invoices[a].invoiceNumber == inv.invoiceNumber;
          assert a in invoices - {id};
        }
        return Err(DuplicateKey("invoiceNumber"));
      }
      r := Ok(id);
      invoices := invoices[id := inv];
    }

    /** `remove` of a loaded invoice. */
    method DeleteInvoice(id: Id)
      requires Valid() && id in invoices
      modifies this
      ensures Valid()
      ensures invoices == old(invoices) - {id}
      ensures nextId == old(nextId) && trucks == old(trucks) && users == old(users) && otps == old(otps)
    {
      invoices := invoices - {id};
    }

    // ---- users ----

    /** `findOne({ where: { mobileNumber } })`. */
    method FindUserByMobile(n: string) returns (r: Option<Id>)
      ensures r.Some? ==> r.value in users && users[r.value].mobileNumber == n
      ensures r.None? <==> !MobileTaken(users, n)
    {
      if exists a :: a in users && users[a].mobileNumber == n {
        var a :| a in users && users[a].mobileNumber == n;
        r := Some(a);
      } else {
        r := None;
      }
    }

    /** `findOne({ where: { secondaryMobileNumber } })`. */
    method FindUserBySecondary(n: string) returns (r: Option<Id>)
      ensures r.Some? ==> r.value in users && users[r.value].secondaryMobileNumber == Some(n)
      ensures r.None? <==> !SecondaryTaken(users, n)
    {
      if exists a :: a in users && users[a].secondaryMobileNumber == Some(n) {
        var a :| a in users && users[a].secondaryMobileNumber == Some(n);
        r := Some(a);
      } else {
        r := None;
      }
    }

    /** `save` of a new user; the column transformer turns a blank secondary number into null.
        The enum input checks come first, then NOT NULL, then the unique indexes. */
    method InsertUser(u: User) returns (r: Result<Id>)
      requires Valid()
      modifies this
      ensures Valid()
      ensures u.state !in UserEntity.IndiaStates ==> r == Err(InvalidEnum("state"))
      ensures u.state in UserEntity.IndiaStates && !UserEntity.InEnums(u) ==> r == Err(InvalidEnum("identity"))
      ensures UserEntity.InEnums(u) && !UserEntity.Complete(u) ==> r == Err(NotNull("name"))
      ensures (UserEntity.InEnums(u) && UserEntity.Complete(u) && MobileTaken(old(users), u.mobileNumber)) ==>
        r == Err(DuplicateKey("mobileNumber"))
      ensures r.Err? ==> unchanged(this)
      ensures r.Ok? <==> (UserEntity.InEnums(u) && UserEntity.Complete(u) && !MobileTaken(old(users), u.mobileNumber)
        && !(UserEntity.Stored(u).secondaryMobileNumber.Some? && SecondaryTaken(old(users), UserEntity.Stored(u).secondaryMobileNumber.value)))
      ensures r.Err? && UserEntity.InEnums(u) && UserEntity.Complete(u) ==> r.error.DuplicateKey?
      ensures r.Ok? ==> (r.value == old(nextId) && r.value !in old(users) && users == old(users)[r.value := UserEntity.Stored(u)]
        && nextId == old(nextId) + 1 && trucks == old(trucks) && invoices == old(invoices) && otps == old(otps))
    {
      if u.state !in UserEntity.IndiaStates {
        return Err(InvalidEnum("state"));
      }
      if u.identity.Some? && u.identity.value !in UserEntity.IdentityValues {
        return Err(InvalidEnum("identity"));
      }
      if !UserEntity.Complete(u) {
        return Err(NotNull("name"));
      }
      if MobileTaken(users, u.mobileNumber) {
        return Err(DuplicateKey("mobileNumber"));
      }
      var s := UserEntity.Stored(u);
      if s.secondaryMobileNumber.Some? && SecondaryTaken(users, s.secondaryMobileNumber.value) {
        return Err(DuplicateKey("secondaryMobileNumber"));
      }
      var id := PutNewUser(s);
      r := Ok(id);
    }

    /** The write of a new user row whose keys are free. */
    method PutNewUser(s: User) returns (id: Id)
      requires Valid() && UserEntity.Complete(s) && UserEntity.InEnums(s)
      requires s.secondaryMobileNumber.Some? ==> !IsBlank(s.secondaryMobileNumber.value)
      requires !MobileTaken(users, s.mobileNumber)
      requires s.secondaryMobileNumber.Some? ==> !SecondaryTaken(users, s.secondaryMobileNumber.value)
      modifies this
      ensures Valid()
      ensures id == old(nextId) && id !in old(users) && users == old(users)[id := s]
      ensures nextId == old(nextId) + 1 && trucks == old(trucks) && invoices == old(invoices) && otps == old(otps)
    {
      assert users - {nextId} == users;
      PutKeepsUserTable(users, nextId, s);
      id := nextId;
      users := users[nextId := s];
      nextId := nextId + 1;
    }

    /** `save` of a loaded user, written back whole through the transformer. */
    method UpdateUser(id: Id, u: User) returns (r: Result<Id>)
      requires Valid() && id in users
      modifies this
      ensures Valid()
      ensures u.state !in UserEntity.IndiaStates ==> r == Err(InvalidEnum("state"))
      ensures u.state in UserEntity.IndiaStates && !UserEntity.InEnums(u) ==> r == Err(InvalidEnum("identity"))
      ensures UserEntity.InEnums(u) && !UserEntity.Complete(u) ==> r == Err(NotNull("name"))
      ensures (UserEntity.InEnums(u) && UserEntity.Complete(u) && MobileTaken(old(users) - {id}, u.mobileNumber)) ==>
        r == Err(DuplicateKey("mobileNumber"))
      ensures r.Err? ==> unchanged(this)
      ensures r.Ok? <==> (UserEntity.InEnums(u) && UserEntity.Complete(u) && !MobileTaken(old(users) - {id}, u.mobileNumber)
        && !(UserEntity.Stored(u).secondaryMobileNumber.Some? && SecondaryTaken(old(users) - {id}, UserEntity.Stored(u).secondaryMobileNumber.value)))
      ensures r.Err? && UserEntity.InEnums(u) && UserEntity.Complete(u) ==> r.error.DuplicateKey?
      ensures r.Ok? ==> (r.value == id && users == old(users)[id := UserEntity.Stored(u)]
        && nextId == old(nextId) && trucks == old(trucks) && invoices == old(invoices) && otps == old(otps))
    {
      if u.state !in UserEntity.IndiaStates {
        return Err(InvalidEnum("state"));
      }
      if u.identity.Some? && u.identity.value !in UserEntity.IdentityValues {
        return Err(InvalidEnum("identity"));
      }
      if !UserEntity.Complete(u) {
        return Err(NotNull("name"));
      }
      var s := UserEntity.Stored(u);
      var rest := users - {id};
      if MobileTaken(rest, u.mobileNumber) {
        return Err(DuplicateKey("mobileNumber"));
      }
      if s.secondaryMobileNumber.Some? && SecondaryTaken(rest, s.secondaryMobileNumber.value) {
        return Err(DuplicateKey("secondaryMobileNumber"));
      }
      PutKeepsUserTable(users, id, s);
      r := Ok(id);
      users := users[id := s];
    }

    /** `remove` of a loaded user. */
    method DeleteUser(id: Id)
      requires Valid() && id in users
      modifies this
      ensures Valid()
      ensures users == old(users) - {id}
      ensures nextId == old(nextId) && trucks == old(trucks) && invoices == old(invoices) && otps == old(otps)
    {
      users := users - {id};
    }

    // ---- OTP records ----

    /** `save` of a new OTP record; only the primary key constrains this table. */
    method InsertOtp(o: Otp) returns (id: Id)
      requires Valid()
      modifies this
      ensures Valid()
      ensures id == old(nextId) && id !in old(otps) && otps == old(otps)[id := o]
      ensures nextId == old(nextId) + 1 && trucks == old(trucks) && invoices == old(invoices) && users == old(users)
    {
      id := nextId;
      otps := otps[id := o];
      nextId := nextId + 1;
    }

    /** `save` of a loaded OTP record. */
    method UpdateOtp(id: Id, o: Otp)
      requires Valid() && id in otps
      modifies this
      ensures Valid()
      ensures otps == old(otps)[id := o]
      ensures nextId == old(nextId) && trucks == old(trucks) && invoices == old(invoices) && users == old(users)
    {
      otps := otps[id := o];
    }

    /** The newest unused record for `mobile`, if any (ties between equal timestamps are
        resolved arbitrarily, as an ORDER BY on a non-unique column is). */
    method FindNewestUnused(mobile: string) returns (r: Option<Id>)
      ensures r.Some? ==> Newest(otps, mobile, r.value)
      ensures r.None? <==> forall i :: !Candidate(otps, mobile, i)
    {
      if exists i :: i in otps && otps[i].mobileNumber == mobile && !otps[i].isUsed {
        var i :| i in otps && otps[i].mobileNumber == mobile && !otps[i].isUsed;
        assert Candidate(otps, mobile, i);
        NewestExists(otps, mobile, i);
        var k :| Newest(otps, mobile, k);
        r := Some(k);
      } else {
        r := None;
      }
    }
  }
}
