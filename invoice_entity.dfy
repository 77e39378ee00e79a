/** The invoices table row (src/entities/invoice.entity.ts) and the partial update DTO. */
module InvoiceEntity {
  import opened Common

  /** One row. `invoiceDate` keeps the date text it was built from, `productName` the
      JSON text of the product list, and `truck` the id of the linked truck. */
  datatype Invoice = Invoice(
    invoiceNumber: string,
    invoiceDate: string,
    terms: Option<string>,
    supplierName: string,
    supplierAddress: seq<string>,
    placeOfSupply: string,
    billToName: string,
    billToAddress: seq<string>,
    shipToName: string,
    shipToAddress: seq<string>,
    productName: string,
    hsnCode: Option<string>,
    quantity: int,
    rate: int,
    amount: int,
    truck: Option<Id>,
    vehicleNumber: Option<string>,
    weighmentSlipNote: Option<string>,
    weighmentSlipUrls: Option<seq<string>>,
    isClaim: bool,
    claimDetails: Option<string>,
    pdfUrl: Option<string>)

  /** An `UpdateInvoiceDto`: every property of the create DTO, each possibly absent. */
  datatype InvoicePatch = InvoicePatch(
    invoiceNumber: Option<string>,
    invoiceDate: Option<string>,
    terms: Option<string>,
    supplierName: Option<string>,
    supplierAddress: Option<seq<string>>,
    placeOfSupply: Option<string>,
    billToName: Option<string>,
    billToAddress: Option<seq<string>>,
    shipToName: Option<string>,
    shipToAddress: Option<seq<string>>,
    productName: Option<seq<string>>,
    hsnCode: Option<string>,
    quantity: Option<int>,
    rate: Option<int>,
    amount: Option<int>,
    truckNumber: Option<string>,
    vehicleNumber: Option<string>,
    weighmentSlipNote: Option<string>,
    isClaim: Option<bool>,
    claimDetails: Option<string>)

  /** `JSON.stringify` of a list of strings. */
  type Stringify = seq<string> -> string

  /** `Object.assign(invoice, updateData)` where `updateData` is the patch without
      `truckNumber` and with a supplied `productName` list turned into its JSON text. */
  function Apply(inv: Invoice, p: InvoicePatch, stringify: Stringify): Invoice {
    Invoice(
      Or(p.invoiceNumber, inv.invoiceNumber), Or(p.invoiceDate, inv.invoiceDate),
      OrKeep(p.terms, inv.terms), Or(p.supplierName, inv.supplierName),
      Or(p.supplierAddress, inv.supplierAddress), Or(p.placeOfSupply, inv.placeOfSupply),
      Or(p.billToName, inv.billToName), Or(p.billToAddress, inv.billToAddress),
      Or(p.shipToName, inv.shipToName), Or(p.shipToAddress, inv.shipToAddress),
      if p.productName.Some? then stringify(p.productName.value) else inv.productName,
      OrKeep(p.hsnCode, inv.hsnCode), Or(p.quantity, inv.quantity), Or(p.rate, inv.rate),
      Or(p.amount, inv.amount), inv.truck, OrKeep(p.vehicleNumber, inv.vehicleNumber),
      OrKeep(p.weighmentSlipNote, inv.weighmentSlipNote), inv.weighmentSlipUrls,
      Or(p.isClaim, inv.isClaim), OrKeep(p.claimDetails, inv.claimDetails), inv.pdfUrl)
  }

  /** The patch never reaches the truck link, the slip URLs or the PDF URL, and a
      supplied optional text is stored as given: an empty `terms` stays empty rather
      than becoming null as it does on create. */
  lemma ApplyKeepsLinks(inv: Invoice, p: InvoicePatch, stringify: Stringify)
    ensures var r := Apply(inv, p, stringify);
      && r.truck == inv.truck && r.weighmentSlipUrls == inv.weighmentSlipUrls && r.pdfUrl == inv.pdfUrl
      && (p.terms.Some? ==> r.terms == p.terms)
      && (p.invoiceNumber.None? ==> r.invoiceNumber == inv.invoiceNumber)
      && (p.productName.Some? ==> r.productName == stringify(p.productName.value))
      && (p.productName.None? ==> r.productName == inv.productName)
      && (p.isClaim.None? ==> r.isClaim == inv.isClaim)
  {
  }
}
