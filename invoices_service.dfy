/** `InvoicesService` (src/modules/invoices/invoices.service.ts): the invoice write path.
    A write checks the invoice number, finds or creates the truck it names, uploads the
    weighment slips, saves the row and queues one PDF job. */
module Invoices {
  import opened Common
  import opened InvoiceEntity
  import TruckEntity
  import Store
  import Storage
  import JobQueue
  import CreateInvoiceDto

  const InvoiceExists := "Invoice with this number already exists"
  const SlipFolder := "weighment-slips"
  const PdfJob := "generate-pdf"

  /** A JavaScript-truthy optional text: present and not empty. */
  predicate Supplied(v: Option<string>) {
    v.Some? && v.value != ""
  }

  /** `value || null` on an optional text. */
  function OrNull(v: Option<string>): Option<string> {
    if Supplied(v) then v else None
  }

  /** The row `create` builds (src/modules/invoices/invoices.service.ts:76-101). */
  function NewInvoice(d: CreateInvoiceDto.CreateInvoice, truck: Option<Id>, urls: seq<string>, stringify: Stringify): Invoice {
    Invoice(
      d.invoiceNumber, d.invoiceDate, OrNull(d.terms), d.supplierName, d.supplierAddress,
      d.placeOfSupply, d.billToName, d.billToAddress, d.shipToName, d.shipToAddress,
      stringify(d.productName), OrNull(d.hsnCode), d.quantity, d.rate, d.amount, truck,
      OrNull(d.vehicleNumber), OrNull(d.weighmentSlipNote),
      if |urls| > 0 then Some(urls) else None,
      d.isClaim == Some(true), OrNull(d.claimDetails), None)
  }

  /** The defaults `create` applies: an absent or false `isClaim` is false, an absent or
      empty optional text is null, no slip URLs is null, and there is no PDF yet. */
  lemma CreateDefaults(d: CreateInvoiceDto.CreateInvoice, truck: Option<Id>, urls: seq<string>, stringify: Stringify)
    ensures var inv := NewInvoice(d, truck, urls, stringify);
      && (inv.isClaim <==> d.isClaim == Some(true))
      && (inv.terms.None? <==> d.terms.None? || d.terms == Some(""))
      && (inv.hsnCode.None? <==> d.hsnCode.None? || d.hsnCode == Some(""))
      && (inv.vehicleNumber.None? <==> d.vehicleNumber.None? || d.vehicleNumber == Some(""))
      && (inv.weighmentSlipNote.None? <==> d.weighmentSlipNote.None? || d.weighmentSlipNote == Some(""))
      && (inv.claimDetails.None? <==> d.claimDetails.None? || d.claimDetails == Some(""))
      && (inv.terms.Some? ==> inv.terms == d.terms)
      && (inv.weighmentSlipUrls.None? <==> urls == [])
      && (inv.weighmentSlipUrls.Some? ==> inv.weighmentSlipUrls.value == urls)
      && inv.pdfUrl.None? && inv.truck == truck && inv.productName == stringify(d.productName)
  {
  }

  /** The truck table after `create`'s find-or-create step: unchanged when no truthy truck
      number is given or it is known, else with the placeholder under the next id. */
  function TrucksAfterLookup(trucks: map<Id, TruckEntity.Truck>, nextId: Id, truckNumber: Option<string>): map<Id, TruckEntity.Truck> {
    if Supplied(truckNumber) && !Store.TruckNumberTaken(trucks, truckNumber.value) then
      trucks[nextId := TruckEntity.CreatePathPlaceholder(truckNumber.value)]
    else trucks
  }

  /** The slip URLs `create` stores for `files` when every upload succeeds. */
  function CreateUrls(files: seq<Storage.File>, upload: Storage.UploadFile): seq<string> {
    var all := Storage.UploadAll(files, SlipFolder, upload);
    if |files| > 0 && all.Ok? then all.value else []
  }

  /** The upload log entries of a write that got as far as the upload step. */
  function SlipCalls(files: seq<Storage.File>): seq<Storage.Upload> {
    if |files| > 0 then Storage.Logged(files, SlipFolder) else []
  }

  /** `update`'s merge: the stored list, null read as empty, then the new URLs. */
  function MergedUrls(current: Option<seq<string>>, added: seq<string>): (r: seq<string>)
    ensures |r| == (if current.Some? then |current.value| else 0) + |added|
    ensures current.Some? ==> r[..|current.value|] == current.value
    ensures r[|r| - |added|..] == added
  {
    (if current.Some? then current.value else []) + added
  }

  /** `update`'s Conflict rule: a supplied, truthy invoice number that differs from the
      current one and is already taken. */
  predicate UpdateConflicts(invoices: map<Id, Invoice>, current: Invoice, p: InvoicePatch) {
    Supplied(p.invoiceNumber) && p.invoiceNumber.value != current.invoiceNumber
      && Store.InvoiceNumberTaken(invoices, p.invoiceNumber.value)
  }

  /** `update`'s checks before any upload all pass: the row exists, its new number is not
      taken, and a truthy truck number names a known truck. */
  predicate PassesUpdateChecks(invoices: map<Id, Invoice>, trucks: map<Id, TruckEntity.Truck>, id: Id, p: InvoicePatch) {
    && id in invoices
    && !UpdateConflicts(invoices, invoices[id], p)
    && (Supplied(p.truckNumber) ==> Store.TruckNumberTaken(trucks, p.truckNumber.value))
  }

  /** With the index intact, an invoice number the update's rule lets through is held by
      no other invoice, except the empty string, which the rule never checks. */
  lemma UpdateRuleGuardsIndex(invoices: map<Id, Invoice>, id: Id, p: InvoicePatch, inv: Invoice, stringify: Stringify)
    requires Store.UniqueInvoiceNumbers(invoices) && id in invoices
    requires inv.invoiceNumber == invoices[id].invoiceNumber
    requires !UpdateConflicts(invoices, invoices[id], p)
    ensures Store.InvoiceNumberTaken(invoices - {id}, Apply(inv, p, stringify).invoiceNumber) ==> p.invoiceNumber == Some("")
  {
    var n := Apply(inv, p, stringify).invoiceNumber;
    if Store.InvoiceNumberTaken(invoices - {id}, n) {
      var a :| a in invoices - {id} && (invoices - {id})[a].invoiceNumber == n;
      assert invoices[a].invoiceNumber == n;
    }
  }

  /** An invoice loaded with its `truck` relation. */
  datatype InvoiceView = InvoiceView(id: Id, invoice: Invoice, truck: Option<TruckEntity.Truck>)

  class InvoicesService {
    const db: Store.Database
    const queue: JobQueue.Queue
    const storage: Storage.StorageService
    const stringify: Stringify

    constructor (db: Store.Database, queue: JobQueue.Queue, storage: Storage.StorageService, stringify: Stringify)
      ensures this.db == db && this.queue == queue && this.storage == storage && this.stringify == stringify
    {
      this.db := db;
      this.queue := queue;
      this.storage := storage;
      this.stringify := stringify;
    }

    /** `create`'s find-or-create step for a truthy truck number: the truck holding it, or
        a new placeholder truck. */
    method LinkForCreate(truckNumber: Option<string>) returns (truck: Option<Id>)
      requires db.Valid()
      modifies db
      ensures db.Valid()
      ensures db.trucks == TrucksAfterLookup(old(db.trucks), old(db.nextId), truckNumber)
      ensures db.invoices == old(db.invoices) && db.users == old(db.users) && db.otps == old(db.otps)
      ensures truck.None? <==> !Supplied(truckNumber)
      ensures truck.Some? ==> truck.value in db.trucks && db.trucks[truck.value].truckNumber == truckNumber.value
    {
      truck := None;
      if truckNumber.Some? && truckNumber.value != "" {
        var found := db.FindTruckByNumber(truckNumber.value);
        if found.Some? {
          truck := found;
        } else {
          var placeholder := TruckEntity.CreatePathPlaceholder(truckNumber.value);
          TruckEntity.Placeholders(truckNumber.value);
          var created := db.InsertTruck(placeholder);
          truck := Some(created.value);
        }
      }
    }

    /** `create`'s last steps: save the row, queue its PDF job, count a claim. */
    method SaveNew(invoice: Invoice) returns (id: Id)
      requires db.Valid() && !Store.InvoiceNumberTaken(db.invoices, invoice.invoiceNumber)
      requires invoice.truck.Some? ==> invoice.truck.value in db.trucks
      modifies db, queue
      ensures db.Valid()
      ensures id !in old(db.invoices) && db.invoices == old(db.invoices)[id := invoice]
      ensures db.users == old(db.users) && db.otps == old(db.otps)
      ensures queue.jobs == old(queue.jobs) + [JobQueue.Job(PdfJob, id)]
      ensures db.trucks == (if invoice.isClaim && invoice.truck.Some? then Store.WithClaim(old(db.trucks), invoice.truck.value) else old(db.trucks))
    {
      var saved := db.InsertInvoice(invoice);
      id := saved.value;
      queue.Add(PdfJob, id);
      if invoice.isClaim && invoice.truck.Some? {
        db.IncrementClaimCount(invoice.truck.value);
      }
    }

    /** `create(dto, files)`. */
    method Create(dto: CreateInvoiceDto.CreateInvoice, files: seq<Storage.File>) returns (r: Result<Row<Invoice>>)
      requires db.Valid()
      modifies db, queue, storage
      ensures db.Valid()
      ensures db.users == old(db.users) && db.otps == old(db.otps)
      // the Conflict check comes first and then nothing at all happens
      ensures Store.InvoiceNumberTaken(old(db.invoices), dto.invoiceNumber) ==>
        r == Err(Conflict(InvoiceExists)) && unchanged(db) && unchanged(queue) && unchanged(storage)
      // past it, the truck step and the uploads always happen; only an upload can fail
      ensures !Store.InvoiceNumberTaken(old(db.invoices), dto.invoiceNumber) ==>
        && storage.calls == old(storage.calls) + SlipCalls(files)
        && (r.Ok? <==> |files| == 0 || Storage.UploadAll(files, SlipFolder, storage.uploadFile).Ok?)
        && (r.Err? ==> (r.error == Storage.UploadAll(files, SlipFolder, storage.uploadFile).error
              && db.trucks == TrucksAfterLookup(old(db.trucks), old(db.nextId), dto.truckNumber)))
      ensures r.Err? ==> db.invoices == old(db.invoices) && queue.jobs == old(queue.jobs)
      // the saved row, its truck link, one job, and the claim counter
      ensures r.Ok? ==>
        var base := TrucksAfterLookup(old(db.trucks), old(db.nextId), dto.truckNumber);
        var link := r.value.row.truck;
        && r.value.id !in old(db.invoices)
        && db.invoices == old(db.invoices)[r.value.id := r.value.row]
        && r.value.row == NewInvoice(dto, link, CreateUrls(files, storage.uploadFile), stringify)
        && (link.None? <==> !Supplied(dto.truckNumber))
        && (link.Some? ==> link.value in base && base[link.value].truckNumber == dto.truckNumber.value)
        && queue.jobs == old(queue.jobs) + [JobQueue.Job(PdfJob, r.value.id)]
        && db.trucks == (if r.value.row.isClaim && link.Some? then Store.WithClaim(base, link.value) else base)
    {
      var existing := db.FindInvoiceByNumber(dto.invoiceNumber);
      if existing.Some? {
        return Err(Conflict(InvoiceExists));
      }
      var truck := LinkForCreate(dto.truckNumber);
      var urls: seq<string> := [];
      if |files| > 0 {
        var uploaded := storage.UploadMultipleFiles(files, SlipFolder);
        if uploaded.Err? {
          return Err(uploaded.error);
        }
        urls := uploaded.value;
      }
      assert urls == CreateUrls(files, storage.uploadFile);
      var invoice := NewInvoice(dto, truck, urls, stringify);
      var id := SaveNew(invoice);
      r := Ok(Row(id, invoice));
    }

    /** `findOne(id)` with the `truck` relation. */
    method FindOne(id: Id) returns (r: Result<InvoiceView>)
      requires db.Valid()
      ensures id !in db.invoices ==> r == Err(NotFound("Invoice", id))
      ensures id in db.invoices ==> (r.Ok? && r.value.id == id && r.value.invoice == db.invoices[id]
        && (db.invoices[id].truck.None? ==> r.value.truck.None?)
        && (db.invoices[id].truck.Some? ==> r.value.truck == Some(db.trucks[db.invoices[id].truck.value])))
    {
      if id !in db.invoices {
        return Err(NotFound("Invoice", id));
      }
      var invoice := db.invoices[id];
      var truck := if invoice.truck.Some? then Some(db.trucks[invoice.truck.value]) else None;
      r := Ok(InvoiceView(id, invoice, truck));
    }

    /** `findByInvoiceNumber(n)` with the `truck` relation: the one invoice holding `n`, or null. */
    method FindByInvoiceNumber(n: string) returns (r: Option<InvoiceView>)
      requires db.Valid()
      ensures r.None? <==> !Store.InvoiceNumberTaken(db.invoices, n)
      ensures r.Some? ==> (r.value.id in db.invoices && db.invoices[r.value.id] == r.value.invoice
        && r.value.invoice.invoiceNumber == n
        && (forall a :: a in db.invoices && db.invoices[a].invoiceNumber == n ==> a == r.value.id)
        && (r.value.invoice.truck.None? ==> r.value.truck.None?)
        && (r.value.invoice.truck.Some? ==> r.value.truck == Some(db.trucks[r.value.invoice.truck.value])))
    {
      var found := db.FindInvoiceByNumber(n);
      if found.None? {
        return None;
      }
      var view := FindOne(found.value);
      r := Some(view.value);
    }

    /** `update`'s truck step for a truthy truck number: the truck holding it, or the
        store's refusal of the bare placeholder, which changes nothing. */
    method LinkForUpdate(truckNumber: string) returns (r: Result<Id>)
      requires db.Valid() && truckNumber != ""
      modifies db
      ensures unchanged(db)
      ensures Store.TruckNumberTaken(db.trucks, truckNumber) ==>
        (r.Ok? && r.value in db.trucks && db.trucks[r.value].truckNumber == truckNumber)
      ensures !Store.TruckNumberTaken(db.trucks, truckNumber) ==> r == Err(NotNull("ownerName"))
    {
      var found := db.FindTruckByNumber(truckNumber);
      if found.Some? {
        return Ok(found.value);
      }
      var placeholder := TruckEntity.UpdatePathPlaceholder(truckNumber);
      TruckEntity.Placeholders(truckNumber);
      var created := db.InsertTruck(placeholder);
      r := Err(created.error);
    }

    /** `update`'s checks before any upload: the row exists, its new number is not taken,
        and a truthy truck number resolves; the row with its truck link is returned. */
    method Prepare(id: Id, p: InvoicePatch) returns (r: Result<Invoice>)
      requires db.Valid()
      modifies db
      ensures unchanged(db)
      ensures id !in db.invoices ==> r == Err(NotFound("Invoice", id))
      ensures id in db.invoices && UpdateConflicts(db.invoices, db.invoices[id], p) ==> r == Err(Conflict(InvoiceExists))
      ensures (id in db.invoices && !UpdateConflicts(db.invoices, db.invoices[id], p)
        && Supplied(p.truckNumber) && !Store.TruckNumberTaken(db.trucks, p.truckNumber.value)) ==>
        r == Err(NotNull("ownerName"))
      ensures r.Err? ==> !r.error.DuplicateKey?
      ensures r.Ok? <==> PassesUpdateChecks(db.invoices, db.trucks, id, p)
      ensures r.Ok? ==> (id in db.invoices && !UpdateConflicts(db.invoices, db.invoices[id], p)
        && r.value == db.invoices[id].(truck := r.value.truck)
        && (!Supplied(p.truckNumber) ==> r.value.truck == db.invoices[id].truck)
        && (Supplied(p.truckNumber) ==> (r.value.truck.Some? && r.value.truck.value in db.trucks
              && db.trucks[r.value.truck.value].truckNumber == p.truckNumber.value)))
    {
      var loaded := FindOne(id);
      if loaded.Err? {
        return Err(loaded.error);
      }
      var invoice := loaded.value.invoice;
      if p.invoiceNumber.Some? && p.invoiceNumber.value != "" && p.invoiceNumber.value != invoice.invoiceNumber {
        var existing := db.FindInvoiceByNumber(p.invoiceNumber.value);
        if existing.Some? {
          return Err(Conflict(InvoiceExists));
        }
      }
      if p.truckNumber.Some? && p.truckNumber.value != "" {
        var truck := LinkForUpdate(p.truckNumber.value);
        if truck.Err? {
          return Err(truck.error);
        }
        invoice := invoice.(truck := Some(truck.value));
      }
      r := Ok(invoice);
    }

    /** `update`'s upload step: with files, the slips are uploaded and their URLs appended
        to the stored list; the first failure is returned. */
    method AddSlips(invoice: Invoice, files: seq<Storage.File>) returns (r: Result<Invoice>)
      modifies storage
      ensures storage.calls == old(storage.calls) + SlipCalls(files)
      ensures |files| == 0 ==> r == Ok(invoice)
      ensures |files| > 0 ==> var all := Storage.UploadAll(files, SlipFolder, storage.uploadFile);
        (all.Err? ==> r == Err(all.error))
        && (all.Ok? ==> r == Ok(invoice.(weighmentSlipUrls := Some(MergedUrls(invoice.weighmentSlipUrls, all.value)))))
    {
      r := Ok(invoice);
      if |files| > 0 {
        var added := storage.UploadMultipleFiles(files, SlipFolder);
        if added.Err? {
          return Err(added.error);
        }
        r := Ok(invoice.(weighmentSlipUrls := Some(MergedUrls(invoice.weighmentSlipUrls, added.value))));
      }
    }

    /** `update`'s last steps: apply the patch, save the row, queue its PDF job. */
    method SaveChanges(id: Id, invoice: Invoice, p: InvoicePatch) returns (r: Result<Row<Invoice>>)
      requires db.Valid() && id in db.invoices
      requires invoice.invoiceNumber == db.invoices[id].invoiceNumber
      requires !UpdateConflicts(db.invoices, db.invoices[id], p)
      requires invoice.truck.Some? ==> invoice.truck.value in db.trucks
      modifies db, queue
      ensures db.Valid()
      // the store's index then refuses only an empty number that another invoice holds
      ensures r.Ok? <==> !(p.invoiceNumber == Some("") && Store.InvoiceNumberTaken(old(db.invoices) - {id}, ""))
      ensures r.Err? ==> (r == Err(DuplicateKey("invoiceNumber")) && p.invoiceNumber == Some("")
        && unchanged(db) && queue.jobs == old(queue.jobs))
      ensures r.Ok? ==> (r.value == Row(id, Apply(invoice, p, stringify))
        && db.invoices == old(db.invoices)[id := r.value.row]
        && db.trucks == old(db.trucks) && db.users == old(db.users) && db.otps == old(db.otps)
        && queue.jobs == old(queue.jobs) + [JobQueue.Job(PdfJob, id)])
    {
      var updated := Apply(invoice, p, stringify);
      ApplyKeepsLinks(invoice, p, stringify);
      UpdateRuleGuardsIndex(db.invoices, id, p, invoice, stringify);
      var saved := db.UpdateInvoice(id, updated);
      if saved.Err? {
        return Err(saved.error);
      }
      queue.Add(PdfJob, id);
      r := Ok(Row(id, updated));
    }

    /** `update(id, dto, files)`. */
    method Update(id: Id, p: InvoicePatch, files: seq<Storage.File>) returns (r: Result<Row<Invoice>>)
      requires db.Valid()
      modifies db, queue, storage
      ensures db.Valid()
      ensures db.trucks == old(db.trucks) && db.users == old(db.users) && db.otps == old(db.otps)
      ensures r.Err? ==> db.invoices == old(db.invoices) && queue.jobs == old(queue.jobs)
      ensures id !in old(db.invoices) ==>
        r == Err(NotFound("Invoice", id)) && unchanged(db) && unchanged(queue) && unchanged(storage)
      ensures id in old(db.invoices) && UpdateConflicts(old(db.invoices), old(db.invoices)[id], p) ==>
        r == Err(Conflict(InvoiceExists)) && unchanged(db) && unchanged(queue) && unchanged(storage)
      // an unknown truck number makes the store refuse the bare placeholder: nothing else happens
      ensures (id in old(db.invoices) && !UpdateConflicts(old(db.invoices), old(db.invoices)[id], p)
        && Supplied(p.truckNumber) && !Store.TruckNumberTaken(old(db.trucks), p.truckNumber.value)) ==>
        r == Err(NotNull("ownerName")) && unchanged(db) && unchanged(queue) && unchanged(storage)
      ensures r.Ok? ==>
        var current := old(db.invoices)[id];
        var link := r.value.row.truck;
        && r.value.id == id
        && db.invoices == old(db.invoices)[id := r.value.row]
        && (!Supplied(p.truckNumber) ==> link == current.truck)
        && (Supplied(p.truckNumber) ==> (link.Some? && link.value in db.trucks
              && db.trucks[link.value].truckNumber == p.truckNumber.value))
        && (|files| == 0 ==> r.value.row.weighmentSlipUrls == current.weighmentSlipUrls)
        && (|files| > 0 ==> (Storage.UploadAll(files, SlipFolder, storage.uploadFile).Ok?
              && r.value.row.weighmentSlipUrls == Some(MergedUrls(current.weighmentSlipUrls,
                   Storage.UploadAll(files, SlipFolder, storage.uploadFile).value))))
        && r.value.row == Apply(current.(truck := link, weighmentSlipUrls := r.value.row.weighmentSlipUrls), p, stringify)
        && storage.calls == old(storage.calls) + SlipCalls(files)
        && queue.jobs == old(queue.jobs) + [JobQueue.Job(PdfJob, id)]
      // once the checks pass, the slips are uploaded; the first failed upload is the error,
      // and after the uploads only an empty number another invoice holds is refused
      ensures PassesUpdateChecks(old(db.invoices), old(db.trucks), id, p) ==>
        && storage.calls == old(storage.calls) + SlipCalls(files)
        && (|files| > 0 && Storage.UploadAll(files, SlipFolder, storage.uploadFile).Err? ==>
              r == Err(Storage.UploadAll(files, SlipFolder, storage.uploadFile).error))
        && ((|files| == 0 || Storage.UploadAll(files, SlipFolder, storage.uploadFile).Ok?) ==>
              (r.Ok? <==> !(p.invoiceNumber == Some("") && Store.InvoiceNumberTaken(old(db.invoices) - {id}, ""))))
      // past the upload step, the store's invoice-number index rejects only an empty number
      ensures r.Err? && r.error.DuplicateKey? && (|files| == 0 || Storage.UploadAll(files, SlipFolder, storage.uploadFile).Ok?) ==>
        p.invoiceNumber == Some("")
    {
      var invoice := Prepare(id, p);
      if invoice.Err? {
        return Err(invoice.error);
      }
      var withSlips := AddSlips(invoice.value, files);
      if withSlips.Err? {
        return Err(withSlips.error);
      }
      r := SaveChanges(id, withSlips.value, p);
    }

    /** `remove(id)`: NotFound, or exactly that row goes. */
    method Remove(id: Id) returns (r: Result<()>)
      requires db.Valid()
      modifies db
      ensures db.Valid()
      ensures id !in old(db.invoices) ==> r == Err(NotFound("Invoice", id)) && unchanged(db)
      ensures id in old(db.invoices) ==> (r.Ok? && db.invoices == old(db.invoices) - {id}
        && db.trucks == old(db.trucks) && db.users == old(db.users) && db.otps == old(db.otps))
    {
      var loaded := FindOne(id);
      if loaded.Err? {
        return Err(loaded.error);
      }
      db.DeleteInvoice(id);
      r := Ok(());
    }
  }
}
