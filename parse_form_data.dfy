/** `ParseFormDataPipe.transform` (src/common/pipes/parse-form-data.pipe.ts): turns the
    string-valued fields of a multipart body into the arrays, numbers and booleans the
    DTOs expect, on a shallow copy of the body. */
module ParseFormDataPipe {
  import opened Common
  import opened JsValue
  import opened Text
  import CreateInvoiceDto

  const ArrayFields: seq<string> := [
    "supplierAddress", "billToAddress", "shipToAddress", "productName", "officeAddress",
    "route", "loadingPoint", "destinationShopAddress", "destinationAddress"]

  const NumberFields: seq<string> := ["quantity", "rate", "amount"]

  /** `s.split(',').map((s) => s.trim())`. */
  function SplitTrimmed(s: string): (r: seq<Value>)
    ensures |r| == Count(s, ',') + 1
  {
    var pieces := Split(s, ',');
    seq(|pieces|, i requires 0 <= i < |pieces| => Str(Trim(pieces[i])))
  }

  /** What the array-field loop leaves in one listed field. */
  function ArrayFieldAfter(v: Value, parse: JsonParse): Value {
    if Truthy(v) && v.Str? then
      match parse(v.s)
      case Some(p) => p
      case None => Arr(SplitTrimmed(v.s))
    else v
  }

  /** What the number-field loop leaves in one listed field. */
  function NumberFieldAfter(v: Value, toNumber: ToNumber): Value {
    if Unsupplied(v) then v
    else match toNumber(v)
      case Some(n) => Num(n)
      case None => v
  }

  /** What the boolean step leaves in `isClaim`. */
  function ClaimAfter(v: Value): Value {
    if Unsupplied(v) then v else Bool(v == Str("true") || v == Bool(true))
  }

  /** The value the pipe leaves under key `k` that held `v` in the copy. */
  function FieldAfter(k: string, v: Value, parse: JsonParse, toNumber: ToNumber): Value {
    if k in ArrayFields then ArrayFieldAfter(v, parse)
    else if k in NumberFields then NumberFieldAfter(v, toNumber)
    else if k == "isClaim" then ClaimAfter(v)
    else v
  }

  function Parsed(m: map<string, Value>, parse: JsonParse, toNumber: ToNumber): (r: map<string, Value>)
    ensures r.Keys == m.Keys
  {
    map k | k in m :: FieldAfter(k, m[k], parse, toNumber)
  }

  lemma NatToStringInjectiveAll()
    ensures forall m: nat, n: nat :: NatToString(m) == NatToString(n) ==> m == n
  {
    forall m: nat, n: nat | NatToString(m) == NatToString(n) ensures m == n {
      NatToStringInjective(m, n);
    }
  }

  /** `{ ...items }` of an array: its elements under the keys "0", "1", ... */
  function IndexKeyed(items: seq<Value>): (r: map<string, Value>)
    ensures forall i :: 0 <= i < |items| ==> NatToString(i) in r && r[NatToString(i)] == items[i]
    ensures forall k :: k in r ==> exists i :: 0 <= i < |items| && k == NatToString(i)
  {
    NatToStringInjectiveAll();
    map i | 0 <= i < |items| :: NatToString(i) := items[i]
  }

  /** `{ ...value }` of an object or an array. */
  function Spread(v: Value): map<string, Value>
    requires v.Obj? || v.Arr?
  {
    if v.Obj? then v.fields else IndexKeyed(v.items)
  }

  /** The copy after the array-field loop. */
  function AfterArrays(m: map<string, Value>, parse: JsonParse): map<string, Value> {
    map k | k in m :: if k in ArrayFields then ArrayFieldAfter(m[k], parse) else m[k]
  }

  /** The copy after the number-field loop. */
  function AfterNumbers(m: map<string, Value>, toNumber: ToNumber): map<string, Value> {
    map k | k in m :: if k in NumberFields then NumberFieldAfter(m[k], toNumber) else m[k]
  }

  /** The copy after the `isClaim` step. */
  function AfterClaim(m: map<string, Value>): map<string, Value> {
    if "isClaim" in m then m["isClaim" := ClaimAfter(m["isClaim"])] else m
  }

  /** No key is in two of the three groups the pipe converts. */
  lemma FieldListsDisjoint()
    ensures forall k :: k in NumberFields ==> k !in ArrayFields
    ensures "isClaim" !in ArrayFields && "isClaim" !in NumberFields
  {
    forall k | k in NumberFields ensures k !in ArrayFields {
      assert |k| == 8 || |k| == 4 || |k| == 6;
      assert forall a :: a in ArrayFields ==> |a| != 4 && |a| != 6 && |a| != 8;
    }
  }

  /** The three steps in turn are the per-field description. */
  lemma StagesCompose(m: map<string, Value>, parse: JsonParse, toNumber: ToNumber)
    ensures AfterClaim(AfterNumbers(AfterArrays(m, parse), toNumber)) == Parsed(m, parse, toNumber)
  {
    FieldListsDisjoint();
    var a := AfterArrays(m, parse);
    var b := AfterNumbers(a, toNumber);
    assert b.Keys == m.Keys;
    forall k | k in m ensures AfterClaim(b)[k] == FieldAfter(k, m[k], parse, toNumber) {
    }
  }

  /** The loop over the list fields. */
  method ParseArrayFields(m: map<string, Value>, parse: JsonParse) returns (parsed: map<string, Value>)
    ensures parsed == AfterArrays(m, parse)
  {
    parsed := m;
    var i := 0;
    while i < |ArrayFields|
      invariant 0 <= i <= |ArrayFields|
      invariant parsed.Keys == m.Keys
      invariant forall k :: k in m ==>
        parsed[k] == if k in ArrayFields[..i] then ArrayFieldAfter(m[k], parse) else m[k]
    {
      var field := ArrayFields[i];
      assert field !in ArrayFields[..i];
      var cur := Get(parsed, field);
      if Truthy(cur) {
        if cur.Str? {
          match parse(cur.s)
          case Some(p) =>
            parsed := parsed[field := p];
          case None =>
            parsed := parsed[field := Arr(SplitTrimmed(cur.s))];
        }
      }
      assert ArrayFields[..i + 1] == ArrayFields[..i] + [field];
      i := i + 1;
    }
    assert ArrayFields[..i] == ArrayFields;
  }

  /** The loop over the number fields. */
  method ParseNumberFields(m: map<string, Value>, toNumber: ToNumber) returns (parsed: map<string, Value>)
    ensures parsed == AfterNumbers(m, toNumber)
  {
    parsed := m;
    var j := 0;
    while j < |NumberFields|
      invariant 0 <= j <= |NumberFields|
      invariant parsed.Keys == m.Keys
      invariant forall k :: k in m ==>
        parsed[k] == if k in NumberFields[..j] then NumberFieldAfter(m[k], toNumber) else m[k]
    {
      var field := NumberFields[j];
      assert field !in NumberFields[..j];
      var cur := Get(parsed, field);
      if cur != Undefined && cur != Null && cur != Str("") {
        var num := toNumber(cur);
        if num.Some? {
          parsed := parsed[field := Num(num.value)];
        }
      }
      assert NumberFields[..j + 1] == NumberFields[..j] + [field];
      j := j + 1;
    }
    assert NumberFields[..j] == NumberFields;
  }

  /** `transform(value)`. Values are immutable here, so the caller's body is
      untouched by construction; the copy is `Spread(value)`. */
  method Transform(value: Value, parse: JsonParse, toNumber: ToNumber) returns (r: Value)
    ensures !Truthy(value) || !IsObjectType(value) ==> r == value
    ensures Truthy(value) && IsObjectType(value) ==>
      r == Obj(Parsed(Spread(value), parse, toNumber))
  {
    if !Truthy(value) || !IsObjectType(value) {
      return value;
    }
    var parsed := Spread(value);
    parsed := ParseArrayFields(parsed, parse);
    parsed := ParseNumberFields(parsed, toNumber);
    var claim := Get(parsed, "isClaim");
    if claim != Undefined && claim != Null && claim != Str("") {
      parsed := parsed["isClaim" := Bool(claim == Str("true") || claim == Bool(true))];
    }
    StagesCompose(Spread(value), parse, toNumber);
    r := Obj(parsed);
  }

  /** A listed field holding a non-empty string that JSON cannot parse becomes its
      comma-separated pieces, trimmed: one more piece than there are commas, and the
      pieces before trimming join back into the original string. */
  lemma CommaSeparatedField(s: string, parse: JsonParse)
    requires s != "" && parse(s).None?
    ensures var r := ArrayFieldAfter(Str(s), parse);
      && r.Arr? && |r.items| == Count(s, ',') + 1
      && (forall i :: 0 <= i < |r.items| ==> r.items[i] == Str(Trim(Split(s, ',')[i])))
      && Join(Split(s, ','), ',') == s
  {
    JoinSplit(s, ',');
  }

  /** No piece of the split contains a comma, and trimming leaves no whitespace at
      either end of any piece. */
  lemma CommaSeparatedPiecesClean(s: string, i: nat)
    requires i < |SplitTrimmed(s)|
    ensures var t := SplitTrimmed(s)[i];
      && t.Str? && ',' !in t.s
      && (t.s != [] ==> !IsWhitespace(t.s[0]) && !IsWhitespace(t.s[|t.s| - 1]))
  {
    var piece := Split(s, ',')[i];
    TrimKeepsAbsent(piece, ',');
    TrimEndsNotWhitespace(piece);
  }

  /** Only the listed fields and `isClaim` may change; a listed field that is falsy or
      not a string is left as it is. */
  lemma UntouchedFields(k: string, v: Value, parse: JsonParse, toNumber: ToNumber)
    requires (k !in ArrayFields && k !in NumberFields && k != "isClaim")
          || (k in ArrayFields && (!Truthy(v) || !v.Str?))
    ensures FieldAfter(k, v, parse, toNumber) == v
  {
  }

  /** `isClaim` stays undefined, null or '' when it is one of those; otherwise it
      becomes true exactly for 'true' and true, and false for everything else. */
  lemma ClaimCoercion(v: Value, parse: JsonParse, toNumber: ToNumber)
    ensures Unsupplied(v) ==> FieldAfter("isClaim", v, parse, toNumber) == v
    ensures !Unsupplied(v) ==> FieldAfter("isClaim", v, parse, toNumber) == Bool(v == Str("true") || v == Bool(true))
  {
  }

  /** A number field is untouched when it is undefined, null or '' or converts to NaN. */
  lemma NumberFieldUntouched(k: string, v: Value, parse: JsonParse, toNumber: ToNumber)
    requires k in NumberFields
    requires Unsupplied(v) || toNumber(v).None?
    ensures FieldAfter(k, v, parse, toNumber) == v
  {
    assert k !in ArrayFields;
  }

  /** Nest runs the global `ValidationPipe`, which transforms and validates the body,
      before the route's `ParseFormDataPipe`, so the pipe receives the validated invoice
      DTO. On it the pipe changes none of the DTO's properties: the lists are arrays
      already, the numbers are numbers, and `isClaim` is a boolean or absent. */
  lemma PipeAfterValidation(t: map<string, Value>, parse: JsonParse, toNumber: ToNumber,
                            isDateString: string -> bool, k: string)
    requires CreateInvoiceDto.ValidCreateInvoice(t, isDateString)
    requires forall n :: toNumber(Num(n)) == Some(n)
    requires k in t && k in CreateInvoiceDto.Properties
    ensures Parsed(t, parse, toNumber)[k] == t[k]
  {
    FieldListsDisjoint();
    if k in ArrayFields {
      assert k in CreateInvoiceDto.ListFields;
      assert CreateInvoiceDto.NonEmptyStringList(Get(t, k));
    } else if k in NumberFields {
      assert CreateInvoiceDto.NonNegativeNumber(Get(t, k));
    }
  }
}
