/** `InvoicePdfProcessor` (src/modules/queue/processors/invoice-pdf.processor.ts): the
    queue worker that renders an invoice to PDF, uploads it and stores its URL. */
module InvoicePdf {
  import opened Common
  import opened Text
  import InvoiceEntity
  import TruckEntity
  import Store
  import Storage

  const PdfFolder := "invoice-pdfs"

  /** The PDF renderer: an invoice with its truck and its slip URLs, to bytes or a failure. */
  type Render = (InvoiceEntity.Invoice, Option<TruckEntity.Truck>, seq<string>) -> Result<Bytes>

  /** `invoice-${invoiceNumber}-${Date.now()}.pdf`. */
  function PdfFilename(invoiceNumber: string, now: nat): string {
    "invoice-" + invoiceNumber + "-" + NatToString(now) + ".pdf"
  }

  /** The filename is `invoice-`, the invoice number, `-`, the decimal timestamp and `.pdf`,
      in that order. */
  lemma FilenameShape(invoiceNumber: string, now: nat)
    ensures var f := PdfFilename(invoiceNumber, now);
      && f[..8] == "invoice-"
      && f[8..8 + |invoiceNumber|] == invoiceNumber
      && f[|f| - 4..] == ".pdf"
      && f[8 + |invoiceNumber|] == '-'
      && f[9 + |invoiceNumber|..|f| - 4] == NatToString(now)
  {
  }

  /** Two jobs at different times for the same invoice upload under different names. */
  lemma FilenamesDifferInTime(invoiceNumber: string, t1: nat, t2: nat)
    requires t1 != t2
    ensures PdfFilename(invoiceNumber, t1) != PdfFilename(invoiceNumber, t2)
  {
    FilenameShape(invoiceNumber, t1);
    FilenameShape(invoiceNumber, t2);
    var f1, f2 := PdfFilename(invoiceNumber, t1), PdfFilename(invoiceNumber, t2);
    if f1 == f2 {
      assert f1[9 + |invoiceNumber|..|f1| - 4] == f2[9 + |invoiceNumber|..|f2| - 4];
      NatToStringInjective(t1, t2);
    }
  }

  class InvoicePdfProcessor {
    const db: Store.Database
    const storage: Storage.StorageService
    const render: Render

    constructor (db: Store.Database, storage: Storage.StorageService, render: Render)
      ensures this.db == db && this.storage == storage && this.render == render
    {
      this.db := db;
      this.storage := storage;
      this.render := render;
    }

    /** `process(job)` for the job's invoice id, at time `now`. */
    method Process(invoiceId: Id, now: nat) returns (r: Result<()>)
      requires db.Valid()
      modifies db, storage
      ensures db.Valid()
      ensures db.trucks == old(db.trucks) && db.users == old(db.users) && db.otps == old(db.otps)
      // a missing invoice fails before anything is rendered or uploaded
      ensures invoiceId !in old(db.invoices) ==>
        r == Err(NotFound("Invoice", invoiceId)) && unchanged(db) && unchanged(storage)
      ensures invoiceId in old(db.invoices) ==>
        var inv := old(db.invoices)[invoiceId];
        var truck := if inv.truck.Some? then Some(db.trucks[inv.truck.value]) else None;
        var pdf := render(inv, truck, if inv.weighmentSlipUrls.Some? then inv.weighmentSlipUrls.value else []);
        var name := PdfFilename(inv.invoiceNumber, now);
        // a failed render is rethrown with no upload and no write
        && (pdf.Err? ==> r == Err(pdf.error) && unchanged(db) && unchanged(storage))
        && (pdf.Ok? ==>
              var url := storage.uploadPdf(pdf.value, name, PdfFolder);
              && storage.calls == old(storage.calls) + [Storage.PdfUpload(pdf.value, name, PdfFolder)]
              // a failed upload is rethrown with no write
              && (url.Err? ==> r == Err(url.error) && unchanged(db))
              // else the loaded row is written back with the URL and nothing else changes
              && (url.Ok? ==> r == Ok(()) && db.invoices == old(db.invoices)[invoiceId := inv.(pdfUrl := Some(url.value))]))
    {
      if invoiceId !in db.invoices {
        return Err(NotFound("Invoice", invoiceId));
      }
      var invoice := db.invoices[invoiceId];
      var truck := if invoice.truck.Some? then Some(db.trucks[invoice.truck.value]) else None;
      var slips := if invoice.weighmentSlipUrls.Some? then invoice.weighmentSlipUrls.value else [];
      var pdf := render(invoice, truck, slips);
      if pdf.Err? {
        return Err(pdf.error);
      }
      var name := PdfFilename(invoice.invoiceNumber, now);
      var url := storage.UploadPdf(pdf.value, name, PdfFolder);
      if url.Err? {
        return Err(url.error);
      }
      assert !Store.InvoiceNumberTaken(db.invoices - {invoiceId}, invoice.invoiceNumber);
      var saved := db.UpdateInvoice(invoiceId, invoice.(pdfUrl := Some(url.value)));
      r := Ok(());
    }
  }
}
