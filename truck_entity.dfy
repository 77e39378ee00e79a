/** The trucks table row (src/entities/truck.entity.ts), the typed create DTO, the
    partial update DTO, and the rows the invoice service writes on its own. */
module TruckEntity {
  import opened Common

  /** One row. The four name and contact columns are NOT NULL in the schema but are
      optional here, because the invoice update path builds a row without them. */
  datatype Truck = Truck(
    truckNumber: string,
    ownerName: Option<string>,
    ownerContactNumber: Option<string>,
    driverName: Option<string>,
    driverContactNumber: Option<string>,
    claimCount: int,
    officeAddress: Option<seq<string>>,
    route: Option<seq<string>>,
    permit: Option<string>,
    licence: Option<string>,
    challan: Option<string>)

  /** Every column declared without `nullable: true` holds a value. */
  predicate Complete(t: Truck) {
    t.ownerName.Some? && t.ownerContactNumber.Some? && t.driverName.Some? && t.driverContactNumber.Some?
  }

  /** The first NOT NULL column a row leaves empty, as the database reports it. */
  function MissingColumn(t: Truck): (c: string)
    requires !Complete(t)
    ensures c in {"ownerName", "ownerContactNumber", "driverName", "driverContactNumber"}
  {
    if t.ownerName.None? then "ownerName"
    else if t.ownerContactNumber.None? then "ownerContactNumber"
    else if t.driverName.None? then "driverName"
    else "driverContactNumber"
  }

  /** A validated `CreateTruckDto`. */
  datatype CreateTruck = CreateTruck(
    truckNumber: string,
    ownerName: string,
    ownerContactNumber: string,
    driverName: string,
    driverContactNumber: string,
    officeAddress: Option<seq<string>>,
    route: Option<seq<string>>,
    permit: Option<string>,
    licence: Option<string>,
    challan: Option<string>)

  /** An `UpdateTruckDto`: every property may be absent. */
  datatype TruckPatch = TruckPatch(
    truckNumber: Option<string>,
    ownerName: Option<string>,
    ownerContactNumber: Option<string>,
    driverName: Option<string>,
    driverContactNumber: Option<string>,
    officeAddress: Option<seq<string>>,
    route: Option<seq<string>>,
    permit: Option<string>,
    licence: Option<string>,
    challan: Option<string>)

  /** `repository.create(dto)`: the DTO's properties, with `claimCount` at its column default 0. */
  function NewTruck(d: CreateTruck): (t: Truck)
    ensures Complete(t) && t.claimCount == 0 && t.truckNumber == d.truckNumber
  {
    Truck(d.truckNumber, Some(d.ownerName), Some(d.ownerContactNumber), Some(d.driverName),
      Some(d.driverContactNumber), 0, d.officeAddress, d.route, d.permit, d.licence, d.challan)
  }

  /** `Object.assign(truck, dto)`: each supplied property replaces the column, the others
      and `claimCount` keep their values. */
  function Apply(t: Truck, p: TruckPatch): Truck {
    Truck(Or(p.truckNumber, t.truckNumber), OrKeep(p.ownerName, t.ownerName),
      OrKeep(p.ownerContactNumber, t.ownerContactNumber), OrKeep(p.driverName, t.driverName),
      OrKeep(p.driverContactNumber, t.driverContactNumber), t.claimCount,
      OrKeep(p.officeAddress, t.officeAddress), OrKeep(p.route, t.route),
      OrKeep(p.permit, t.permit), OrKeep(p.licence, t.licence), OrKeep(p.challan, t.challan))
  }

  /** The truck the invoice create path inserts for an unknown truck number
      (src/modules/invoices/invoices.service.ts:54-60). */
  function CreatePathPlaceholder(truckNumber: string): Truck {
    Truck(truckNumber, Some("Unknown"), Some("0000000000"), Some("Unknown"), Some("0000000000"),
      0, None, None, None, None, None)
  }

  /** The truck the invoice update path inserts for an unknown truck number: only
      `truckNumber` is set (src/modules/invoices/invoices.service.ts:179-181). */
  function UpdatePathPlaceholder(truckNumber: string): Truck {
    Truck(truckNumber, None, None, None, None, 0, None, None, None, None, None)
  }

  /** Applying a patch changes exactly the supplied columns and never `claimCount`;
      an empty patch changes nothing, and a complete row stays complete. */
  lemma ApplyChangesSuppliedOnly(t: Truck, p: TruckPatch)
    ensures Apply(t, p).claimCount == t.claimCount
    ensures p.truckNumber.None? ==> Apply(t, p).truckNumber == t.truckNumber
    ensures p.truckNumber.Some? ==> Apply(t, p).truckNumber == p.truckNumber.value
    ensures p.ownerName.Some? ==> Apply(t, p).ownerName == p.ownerName
    ensures p.ownerName.None? ==> Apply(t, p).ownerName == t.ownerName
    ensures Complete(t) ==> Complete(Apply(t, p))
    ensures p == TruckPatch(None, None, None, None, None, None, None, None, None, None) ==> Apply(t, p) == t
  {
  }

  /** The create-path placeholder satisfies every NOT NULL column and starts with no
      claims; the update-path one leaves `ownerName` empty. */
  lemma Placeholders(n: string)
    ensures Complete(CreatePathPlaceholder(n)) && CreatePathPlaceholder(n).claimCount == 0
    ensures !Complete(UpdatePathPlaceholder(n)) && MissingColumn(UpdatePathPlaceholder(n)) == "ownerName"
    ensures CreatePathPlaceholder(n).truckNumber == n && UpdatePathPlaceholder(n).truckNumber == n
    ensures var t := CreatePathPlaceholder(n);
      && t.ownerName == Some("Unknown") && t.driverName == Some("Unknown")
      && t.ownerContactNumber == Some("0000000000") && t.driverContactNumber == Some("0000000000")
  {
  }
}
