/** The request body accepted for creating an invoice
    (src/modules/invoices/dto/create-invoice.dto.ts): the class-transformer
    transforms applied first, then the class-validator checks, then the typed input
    the invoice service receives. */
module CreateInvoiceDto {
  import opened Common
  import opened JsValue
  import opened ClassValidator

  /** The fields whose `@Transform` turns a string into an array. */
  const ListFields: seq<string> := ["supplierAddress", "billToAddress", "shipToAddress", "productName"]

  /** Every property the DTO declares. */
  const Properties: seq<string> := [
    "invoiceNumber", "invoiceDate", "terms", "supplierName", "supplierAddress", "placeOfSupply",
    "billToName", "billToAddress", "shipToName", "shipToAddress", "productName", "hsnCode",
    "quantity", "rate", "amount", "truckNumber", "vehicleNumber", "weighmentSlipNote",
    "isClaim", "claimDetails"]

  /** The fields with `@Type(() => Number)`. */
  const NumberFields: seq<string> := ["quantity", "rate", "amount"]

  /** The `@Transform` of the list fields: a string is parsed as JSON and kept if it
      is an array; any other string, or one JSON cannot parse, becomes `[value]`.
      Anything that is not a string passes through. */
  function ListTransform(v: Value, parse: JsonParse): Value {
    if v.Str? then
      match parse(v.s)
      case Some(p) => if p.Arr? then p else Arr([v])
      case None => Arr([v])
    else v
  }

  /** The `@Transform` of `isClaim`: `value === 'true' || value === true`. */
  function ClaimTransform(v: Value): Value {
    Bool(v == Str("true") || v == Bool(true))
  }

  /** A string always comes out as an array, which is empty only if the string was
      the JSON text of an empty array; anything else is left as it is. */
  lemma ListTransformShape(v: Value, parse: JsonParse)
    ensures v.Str? ==> ListTransform(v, parse).Arr?
    ensures !v.Str? ==> ListTransform(v, parse) == v
    ensures v.Str? && ListTransform(v, parse) == Arr([]) ==> parse(v.s) == Some(Arr([]))
    ensures v.Str? && (parse(v.s).None? || !parse(v.s).value.Arr?) ==> ListTransform(v, parse) == Arr([v])
  {
  }

  /** Applying the list transform to its own output changes nothing. */
  lemma ListTransformIdempotent(v: Value, parse: JsonParse)
    ensures ListTransform(ListTransform(v, parse), parse) == ListTransform(v, parse)
  {
  }

  /** The claim transform always yields a boolean, true exactly for 'true' and true,
      so `@IsBoolean()` can never fail after it. */
  lemma ClaimTransformIsBoolean(v: Value)
    ensures IsBoolean(ClaimTransform(v))
    ensures ClaimTransform(v) == Bool(true) <==> v == Str("true") || v == Bool(true)
    ensures ClaimTransform(ClaimTransform(v)) == ClaimTransform(v)
  {
  }

  /** `Number(v)`, with NaN where the conversion fails. */
  function Converted(v: Value, toNumber: ToNumber): Value {
    match toNumber(v)
    case Some(n) => Num(n)
    case None => NaN
  }

  /** `@Type(() => Number)`: undefined and null stay as they are, an array has each of
      its elements converted, and anything else becomes `Number(value)`. */
  function NumberTransform(v: Value, toNumber: ToNumber): Value
    decreases v
  {
    if v.Undefined? || v.Null? then v
    else if v.Arr? then Arr(seq(|v.items|, i requires 0 <= i < |v.items| => NumberTransform(v.items[i], toNumber)))
    else Converted(v, toNumber)
  }

  /** class-transformer on the body: each transform runs on the properties present. */
  function TransformBody(body: map<string, Value>, parse: JsonParse, toNumber: ToNumber): (r: map<string, Value>)
    ensures r.Keys == body.Keys
  {
    map k | k in body ::
      if k in ListFields then ListTransform(body[k], parse)
      else if k in NumberFields then NumberTransform(body[k], toNumber)
      else if k == "isClaim" then ClaimTransform(body[k])
      else body[k]
  }

  predicate OptionalString(v: Value) {
    Absent(v) || IsString(v)
  }

  /** `@IsArray() @ArrayMinSize(1) @IsString({ each: true })`. */
  predicate NonEmptyStringList(v: Value) {
    IsArray(v) && ArrayMinSize(v, 1) && EachIsString(v)
  }

  /** `@IsNumber() @Min(0)`, checked on the value `@Type(() => Number)` produced. */
  predicate NonNegativeNumber(v: Value) {
    IsNumber(v) && Min(v, 0)
  }

  /** Every check of the DTO, on the transformed body; `isDateString` stands for
      `@IsDateString()`'s ISO 8601 test. */
  predicate ValidCreateInvoice(b: map<string, Value>, isDateString: string -> bool) {
    && RequiredString(Get(b, "invoiceNumber"))
    && IsNotEmpty(Get(b, "invoiceDate")) && Get(b, "invoiceDate").Str? && isDateString(Get(b, "invoiceDate").s)
    && OptionalString(Get(b, "terms"))
    && RequiredString(Get(b, "supplierName"))
    && NonEmptyStringList(Get(b, "supplierAddress"))
    && RequiredString(Get(b, "placeOfSupply"))
    && RequiredString(Get(b, "billToName"))
    && NonEmptyStringList(Get(b, "billToAddress"))
    && RequiredString(Get(b, "shipToName"))
    && NonEmptyStringList(Get(b, "shipToAddress"))
    && NonEmptyStringList(Get(b, "productName"))
    && OptionalString(Get(b, "hsnCode"))
    && NonNegativeNumber(Get(b, "quantity"))
    && NonNegativeNumber(Get(b, "rate"))
    && NonNegativeNumber(Get(b, "amount"))
    && OptionalString(Get(b, "truckNumber"))
    && OptionalString(Get(b, "vehicleNumber"))
    && OptionalString(Get(b, "weighmentSlipNote"))
    && (Absent(Get(b, "isClaim")) || IsBoolean(Get(b, "isClaim")))
    && OptionalString(Get(b, "claimDetails"))
  }

  /** The validated DTO as the service sees it; None is an absent optional property. */
  datatype CreateInvoice = CreateInvoice(
    invoiceNumber: string,
    invoiceDate: string,
    terms: Option<string>,
    supplierName: string,
    supplierAddress: seq<string>,
    placeOfSupply: string,
    billToName: string,
    billToAddress: seq<string>,
    shipToName: string,
    shipToAddress: seq<string>,
    productName: seq<string>,
    hsnCode: Option<string>,
    quantity: int,
    rate: int,
    amount: int,
    truckNumber: Option<string>,
    vehicleNumber: Option<string>,
    weighmentSlipNote: Option<string>,
    isClaim: Option<bool>,
    claimDetails: Option<string>)

  function OptStr(v: Value): Option<string> {
    if v.Str? then Some(v.s) else None
  }

  function Strings(v: Value): seq<string>
    requires v.Arr? && EachIsString(v)
  {
    seq(|v.items|, i requires 0 <= i < |v.items| => v.items[i].s)
  }

  /** The typed DTO of a valid body: the required names are non-empty, every list has
      at least one line, and quantity, rate and amount are not negative. */
  function ToCreateInvoice(b: map<string, Value>, isDateString: string -> bool): (d: CreateInvoice)
    requires ValidCreateInvoice(b, isDateString)
    ensures d.invoiceNumber != "" && d.supplierName != "" && d.placeOfSupply != ""
    ensures d.billToName != "" && d.shipToName != "" && d.invoiceDate != ""
    ensures |d.supplierAddress| >= 1 && |d.billToAddress| >= 1 && |d.shipToAddress| >= 1
    ensures |d.productName| >= 1
    ensures d.quantity >= 0 && d.rate >= 0 && d.amount >= 0
    ensures d.isClaim.Some? <==> Get(b, "isClaim").Bool?
  {
    CreateInvoice(
      Get(b, "invoiceNumber").s, Get(b, "invoiceDate").s, OptStr(Get(b, "terms")),
      Get(b, "supplierName").s, Strings(Get(b, "supplierAddress")), Get(b, "placeOfSupply").s,
      Get(b, "billToName").s, Strings(Get(b, "billToAddress")),
      Get(b, "shipToName").s, Strings(Get(b, "shipToAddress")),
      Strings(Get(b, "productName")), OptStr(Get(b, "hsnCode")),
      Get(b, "quantity").n, Get(b, "rate").n, Get(b, "amount").n,
      OptStr(Get(b, "truckNumber")), OptStr(Get(b, "vehicleNumber")),
      OptStr(Get(b, "weighmentSlipNote")),
      if Get(b, "isClaim").Bool? then Some(Get(b, "isClaim").b) else None,
      OptStr(Get(b, "claimDetails")))
  }

  /** After the transforms, a present `isClaim` always passes its check, and a list
      field that arrived as a string is an array. */
  lemma TransformedBodyShape(body: map<string, Value>, parse: JsonParse, toNumber: ToNumber)
    ensures var t := TransformBody(body, parse, toNumber);
      && ("isClaim" in body ==> IsBoolean(t["isClaim"]))
      && (forall f :: f in ListFields && f in body && body[f].Str? ==> t[f].Arr?)
  {
  }

  /** A number field passes `@IsNumber() @Min(0)` after its conversion exactly when it
      is present, not an array, and `Number()` turns it into a value of at least 0. So a
      string such as '' passes whenever `Number('')` is 0. */
  lemma NumberFieldAccepted(v: Value, toNumber: ToNumber)
    ensures NonNegativeNumber(NumberTransform(v, toNumber))
        <==> !Absent(v) && !v.Arr? && toNumber(v).Some? && toNumber(v).value >= 0
    ensures toNumber(Str("")) == Some(0) ==> NonNegativeNumber(NumberTransform(Str(""), toNumber))
  {
  }

  /** In the transformed body, quantity, rate and amount pass their checks exactly when
      the sent values convert to numbers of at least 0. */
  lemma NumberFieldsOfBody(body: map<string, Value>, parse: JsonParse, toNumber: ToNumber, f: string)
    requires f in NumberFields
    ensures var t := TransformBody(body, parse, toNumber);
      NonNegativeNumber(Get(t, f)) <==>
        (f in body && !Absent(body[f]) && !body[f].Arr? && toNumber(body[f]).Some? && toNumber(body[f]).value >= 0)
  {
    assert f !in ListFields;
    if f in body {
      NumberFieldAccepted(body[f], toNumber);
    }
  }
}
