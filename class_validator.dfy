/** What the class-validator decorators used by the DTOs accept, stated on the
    JavaScript value of one property (after any class-transformer transform). */
module ClassValidator {
  import opened JsValue
  import opened Pattern

  /** `@IsOptional()`: a null or undefined property skips every other check. */
  predicate Absent(v: Value) {
    v == Undefined || v == Null
  }

  /** `@IsString()`. */
  predicate IsString(v: Value) {
    v.Str?
  }

  /** `@IsNotEmpty()`: anything except '', null and undefined. */
  predicate IsNotEmpty(v: Value) {
    v != Str("") && v != Null && v != Undefined
  }

  /** `@Matches(/^...$/)`: a string the anchored pattern matches. */
  predicate MatchesPattern(v: Value, ps: seq<Piece>)
    requires WellFormed(ps)
  {
    v.Str? && Matches(ps, v.s)
  }

  /** U+FE0E and U+FE0F, the text and emoji presentation selectors. */
  predicate IsPresentationSelector(c: char) {
    c == '\U{FE0E}' || c == '\U{FE0F}'
  }

  /** The length validator.js `isLength` measures: the UTF-16 code units, less one for
      each presentation selector and one for each surrogate pair. A `char` here is a
      whole Unicode scalar value, so a character outside the Basic Multilingual Plane
      already counts once and only the selectors are left out. */
  function MeasuredLength(s: string): (n: nat)
    ensures n <= |s|
  {
    if s == [] then 0
    else (if IsPresentationSelector(s[0]) then 0 else 1) + MeasuredLength(s[1..])
  }

  /** Without presentation selectors the measured length is the number of characters. */
  lemma {:induction false} MeasuredLengthWithoutSelectors(s: string)
    requires forall k :: 0 <= k < |s| ==> !IsPresentationSelector(s[k])
    ensures MeasuredLength(s) == |s|
  {
    if s != [] {
      assert forall k :: 0 <= k < |s[1..]| ==> s[1..][k] == s[k + 1];
      MeasuredLengthWithoutSelectors(s[1..]);
    }
  }

  /** Appending a presentation selector leaves the measured length as it was. */
  lemma {:induction false} MeasuredLengthAppendSelector(s: string, c: char)
    requires IsPresentationSelector(c)
    ensures MeasuredLength(s + [c]) == MeasuredLength(s)
  {
    if s == [] {
      assert [c][1..] == [];
    } else {
      assert (s + [c])[1..] == s[1..] + [c];
      MeasuredLengthAppendSelector(s[1..], c);
    }
  }

  /** `@MaxLength(n)`: `isLength(value, { min: 0, max: n })` on a string. */
  predicate MaxLength(v: Value, n: nat) {
    v.Str? && MeasuredLength(v.s) <= n
  }

  /** `@Length(lo, hi)`: `isLength(value, { min: lo, max: hi })` on a string. */
  predicate Length(v: Value, lo: nat, hi: nat) {
    v.Str? && lo <= MeasuredLength(v.s) <= hi
  }

  /** `@IsArray()`. */
  predicate IsArray(v: Value) {
    v.Arr?
  }

  /** `@ArrayMinSize(n)`. */
  predicate ArrayMinSize(v: Value, n: nat) {
    v.Arr? && |v.items| >= n
  }

  /** `@IsString({ each: true })`: every element of an array, or else the value itself. */
  predicate EachIsString(v: Value) {
    if v.Arr? then forall i :: 0 <= i < |v.items| ==> v.items[i].Str? else v.Str?
  }

  /** `@IsNumber()`. */
  predicate IsNumber(v: Value) {
    v.Num?
  }

  /** `@Min(m)`. */
  predicate Min(v: Value, m: int) {
    v.Num? && v.n >= m
  }

  /** `@IsBoolean()`. */
  predicate IsBoolean(v: Value) {
    v.Bool?
  }

  /** `@IsEnum(E)` for a string enum whose member values are `values`. */
  predicate IsEnum(v: Value, values: seq<string>) {
    v.Str? && v.s in values
  }

  /** An optional list of strings: `@IsArray() @IsOptional() @IsString({ each: true })`. */
  predicate OptionalStringList(v: Value) {
    Absent(v) || (IsArray(v) && EachIsString(v))
  }

  /** An optional bounded string: `@IsString() @IsOptional() @MaxLength(n)`. */
  predicate OptionalBoundedString(v: Value, n: nat) {
    Absent(v) || (IsString(v) && MaxLength(v, n))
  }

  /** A required string: `@IsString() @IsNotEmpty()`. */
  predicate RequiredString(v: Value) {
    IsString(v) && IsNotEmpty(v)
  }
}
