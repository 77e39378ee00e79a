/** `TrucksService` (src/modules/trucks/trucks.service.ts): create, look up, update,
    remove and count claims on the trucks table, with a Conflict rule on truckNumber
    checked before each write. */
module Trucks {
  import opened Common
  import opened TruckEntity
  import InvoiceEntity
  import Store

  /** A truck loaded with its `invoices` relation. */
  datatype TruckView = TruckView(id: Id, truck: Truck, invoices: map<Id, InvoiceEntity.Invoice>)

  const TruckExists := "Truck with this number already exists"

  /** The update's own Conflict rule: a supplied, truthy truck number that differs from
      the current one and is already held by some truck. */
  predicate UpdateConflicts(trucks: map<Id, Truck>, current: Truck, p: TruckPatch) {
    p.truckNumber.Some? && p.truckNumber.value != "" && p.truckNumber.value != current.truckNumber
      && Store.TruckNumberTaken(trucks, p.truckNumber.value)
  }

  /** With the index intact, a truck number the update's rule lets through is held by no
      other truck, except the empty string, which the rule never checks. */
  lemma UpdateRuleGuardsIndex(trucks: map<Id, Truck>, id: Id, p: TruckPatch)
    requires Store.UniqueTruckNumbers(trucks) && id in trucks
    requires !UpdateConflicts(trucks, trucks[id], p)
    ensures Store.TruckNumberTaken(trucks - {id}, Apply(trucks[id], p).truckNumber) ==> p.truckNumber == Some("")
  {
    var n := Apply(trucks[id], p).truckNumber;
    if Store.TruckNumberTaken(trucks - {id}, n) {
      var a :| a in trucks - {id} && (trucks - {id})[a].truckNumber == n;
      assert trucks[a].truckNumber == n;
    }
  }

  class TrucksService {
    const db: Store.Database

    constructor (db: Store.Database)
      ensures this.db == db
    {
      this.db := db;
    }

    /** `create(dto)`: Conflict when the number is taken, else exactly one new row. */
    method Create(dto: CreateTruck) returns (r: Result<Id>)
      requires db.Valid()
      modifies db
      ensures db.Valid()
      ensures Store.TruckNumberTaken(old(db.trucks), dto.truckNumber) ==> r == Err(Conflict(TruckExists)) && unchanged(db)
      ensures !Store.TruckNumberTaken(old(db.trucks), dto.truckNumber) ==> r.Ok? && r.value !in old(db.trucks)
      ensures r.Ok? ==> (db.trucks == old(db.trucks)[r.value := NewTruck(dto)]
        && db.invoices == old(db.invoices) && db.users == old(db.users) && db.otps == old(db.otps))
    {
      var existing := db.FindTruckByNumber(dto.truckNumber);
      if existing.Some? {
        return Err(Conflict(TruckExists));
      }
      r := db.InsertTruck(NewTruck(dto));
    }

    /** `findOne(id)` with the `invoices` relation. */
    method FindOne(id: Id) returns (r: Result<TruckView>)
      ensures id !in db.trucks ==> r == Err(NotFound("Truck", id))
      ensures id in db.trucks ==> r == Ok(TruckView(id, db.trucks[id], Store.InvoicesOf(db.invoices, id)))
    {
      if id !in db.trucks {
        return Err(NotFound("Truck", id));
      }
      r := Ok(TruckView(id, db.trucks[id], Store.InvoicesOf(db.invoices, id)));
    }

    /** `findByTruckNumber(n)`: the one truck holding `n`, or null. */
    method FindByTruckNumber(n: string) returns (r: Option<Row<Truck>>)
      requires db.Valid()
      ensures r.None? <==> !Store.TruckNumberTaken(db.trucks, n)
      ensures r.Some? ==> r.value.id in db.trucks && db.trucks[r.value.id] == r.value.row && r.value.row.truckNumber == n
      ensures r.Some? ==> forall a :: a in db.trucks && db.trucks[a].truckNumber == n ==> a == r.value.id
    {
      var found := db.FindTruckByNumber(n);
      if found.None? {
        return None;
      }
      r := Some(Row(found.value, db.trucks[found.value]));
    }

    /** `update(id, dto)`: NotFound, then the Conflict rule, then the merged row is saved.
        The store's own index refuses the save exactly when the patch sets an empty truck
        number, which the Conflict rule skips, and another truck holds it. */
    method Update(id: Id, p: TruckPatch) returns (r: Result<Id>)
      requires db.Valid()
      modifies db
      ensures db.Valid()
      ensures r.Err? ==> unchanged(db)
      ensures id !in old(db.trucks) ==> r == Err(NotFound("Truck", id))
      ensures id in old(db.trucks) && UpdateConflicts(old(db.trucks), old(db.trucks)[id], p) ==> r == Err(Conflict(TruckExists))
      ensures id in old(db.trucks) && !UpdateConflicts(old(db.trucks), old(db.trucks)[id], p) ==>
        && (r.Ok? <==> !(p.truckNumber == Some("") && Store.TruckNumberTaken(old(db.trucks) - {id}, "")))
        && (r.Err? ==> r == Err(DuplicateKey("truckNumber")))
      ensures r.Ok? ==> (r.value == id && db.trucks == old(db.trucks)[id := Apply(old(db.trucks)[id], p)]
        && db.invoices == old(db.invoices) && db.users == old(db.users) && db.otps == old(db.otps))
    {
      var loaded := FindOne(id);
      if loaded.Err? {
        return Err(loaded.error);
      }
      var truck := loaded.value.truck;
      if p.truckNumber.Some? && p.truckNumber.value != "" && p.truckNumber.value != truck.truckNumber {
        var existing := db.FindTruckByNumber(p.truckNumber.value);
        if existing.Some? {
          return Err(Conflict(TruckExists));
        }
      }
      ApplyChangesSuppliedOnly(truck, p);
      UpdateRuleGuardsIndex(db.trucks, id, p);
      r := db.UpdateTruck(id, Apply(truck, p));
    }

    /** `remove(id)`: NotFound, or exactly that row goes and its invoices lose the link. */
    method Remove(id: Id) returns (r: Result<()>)
      requires db.Valid()
      modifies db
      ensures db.Valid()
      ensures id !in old(db.trucks) ==> r == Err(NotFound("Truck", id)) && unchanged(db)
      ensures id in old(db.trucks) ==> (r.Ok? && db.trucks == old(db.trucks) - {id}
        && db.invoices == Store.Unlink(old(db.invoices), id) && db.users == old(db.users) && db.otps == old(db.otps))
    {
      var loaded := FindOne(id);
      if loaded.Err? {
        return Err(loaded.error);
      }
      db.DeleteTruck(id);
      r := Ok(());
    }

    /** `incrementClaimCount(id)`: load, add one, save the whole row back. */
    method IncrementClaimCount(id: Id) returns (r: Result<Id>)
      requires db.Valid()
      modifies db
      ensures db.Valid()
      ensures id !in old(db.trucks) ==> r == Err(NotFound("Truck", id)) && unchanged(db)
      ensures id in old(db.trucks) ==> (r == Ok(id)
        && db.trucks == Store.WithClaim(old(db.trucks), id)
        && db.invoices == old(db.invoices) && db.users == old(db.users) && db.otps == old(db.otps))
    {
      var loaded := FindOne(id);
      if loaded.Err? {
        return Err(loaded.error);
      }
      var truck := loaded.value.truck;
      var bumped := truck.(claimCount := truck.claimCount + 1);
      r := db.UpdateTruck(id, bumped);
    }
  }
}
