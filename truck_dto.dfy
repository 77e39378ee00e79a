/** The request body accepted for creating a truck (src/modules/trucks/dto/create-truck.dto.ts). */
module CreateTruckDto {
  import opened JsValue
  import opened Text
  import opened Pattern
  import opened ClassValidator

  /** `/^[A-Z]{2}\d{2}[A-Z]{1,2}\d{4}$/`: state code, district number, series, number. */
  const TruckNumberPattern: seq<Piece> :=
    [Piece(Capital, 2, 2), Piece(AnyDigit, 2, 2), Piece(Capital, 1, 2), Piece(AnyDigit, 4, 4)]

  /** `/^\+?[1-9]\d{1,14}$/`, the contact-number pattern. */
  const ContactPattern: seq<Piece> :=
    [Piece(Exactly('+'), 0, 1), Piece(NonZeroDigit, 1, 1), Piece(AnyDigit, 1, 14)]

  predicate ValidTruckNumber(v: Value) {
    IsString(v) && IsNotEmpty(v) && MatchesPattern(v, TruckNumberPattern) && MaxLength(v, 20)
  }

  predicate ValidContactNumber(v: Value) {
    IsString(v) && IsNotEmpty(v) && MatchesPattern(v, ContactPattern) && MaxLength(v, 15)
  }

  /** Every property check of the DTO. */
  predicate ValidCreateTruck(body: map<string, Value>) {
    && ValidTruckNumber(Get(body, "truckNumber"))
    && RequiredString(Get(body, "ownerName"))
    && ValidContactNumber(Get(body, "ownerContactNumber"))
    && RequiredString(Get(body, "driverName"))
    && ValidContactNumber(Get(body, "driverContactNumber"))
    && OptionalStringList(Get(body, "officeAddress"))
    && OptionalStringList(Get(body, "route"))
    && OptionalBoundedString(Get(body, "permit"), 255)
    && OptionalBoundedString(Get(body, "licence"), 255)
    && OptionalBoundedString(Get(body, "challan"), 255)
  }

  /** The shape the truck-number pattern describes, position by position. */
  predicate TruckNumberShape(s: string) {
    && (|s| == 9 || |s| == 10)
    && AllIn(s[..2], Capital)
    && AllIn(s[2..4], AnyDigit)
    && AllIn(s[4..|s| - 4], Capital)
    && AllIn(s[|s| - 4..], AnyDigit)
  }

  /** The last two pieces, `[A-Z]{1,2}\d{4}`: one or two capitals, then four digits. */
  lemma SeriesAndNumber(u: string)
    ensures Matches(TruckNumberPattern[2..], u)
        <==> (|u| == 5 || |u| == 6) && AllIn(u[..|u| - 4], Capital) && AllIn(u[|u| - 4..], AnyDigit)
  {
    var p := TruckNumberPattern[2..];
    assert p == [Piece(Capital, 1, 2), Piece(AnyDigit, 4, 4)];
    assert p[1..] == [Piece(AnyDigit, 4, 4)];
    if u != [] {
      RunLast(p[1..], 4, 4, u[1..]);
      assert MatchRun(p, 0, 1, u[1..]) <==> (Matches(p[1..], u[1..])
        || (u[1..] != [] && InClass(u[1], Capital) && MatchRun(p, 0, 0, u[2..])));
      if |u| >= 2 {
        RunLast(p[1..], 4, 4, u[2..]);
        assert MatchRun(p, 0, 0, u[2..]) <==> Matches(p[1..], u[2..]);
        if |u| == 6 {
          assert u[..2] == [u[0], u[1]];
          assert u[2..] == u[|u| - 4..];
        }
      }
      if |u| == 5 {
        assert u[..1] == [u[0]];
        assert u[1..] == u[|u| - 4..];
      }
    }
  }

  /** The truck-number pattern accepts exactly the strings of `TruckNumberShape`. */
  lemma TruckNumberPatternShape(s: string)
    ensures Matches(TruckNumberPattern, s) <==> TruckNumberShape(s)
  {
    var p := TruckNumberPattern;
    RunFixed(p, 2, s);
    if |s| >= 2 {
      var t := s[2..];
      RunFixed(p[1..], 2, t);
      assert p[1..][1..] == p[2..];
      if |t| >= 2 {
        var u := t[2..];
        SeriesAndNumber(u);
        assert t[..2] == s[2..4];
        assert u == s[4..];
        if |s| >= 8 {
          assert u[..|u| - 4] == s[4..|s| - 4];
          assert u[|u| - 4..] == s[|s| - 4..];
        }
      }
    }
  }

  /** Every character of a truck number is a capital or a digit. */
  lemma TruckNumberCharacters(s: string)
    requires TruckNumberShape(s)
    ensures forall k :: 0 <= k < |s| ==> 'A' <= s[k] <= 'Z' || IsDigit(s[k])
  {
    forall k | 0 <= k < |s| ensures 'A' <= s[k] <= 'Z' || IsDigit(s[k]) {
      if k < 2 {
        assert s[k] == s[..2][k];
      } else if k < 4 {
        assert s[k] == s[2..4][k - 2];
      } else if k < |s| - 4 {
        assert s[k] == s[4..|s| - 4][k - 4];
      } else {
        assert s[k] == s[|s| - 4..][k - (|s| - 4)];
      }
    }
  }

  /** An accepted truck number has 9 or 10 characters and no lower-case letter. */
  lemma AcceptedTruckNumber(v: Value)
    requires ValidTruckNumber(v)
    ensures |v.s| == 9 || |v.s| == 10
    ensures forall k :: 0 <= k < |v.s| ==> !('a' <= v.s[k] <= 'z')
  {
    TruckNumberPatternShape(v.s);
    TruckNumberCharacters(v.s);
  }

  /** `@IsNotEmpty()` and `@MaxLength(20)` reject nothing the pattern accepts:
      the truck-number checks come down to the pattern alone. */
  lemma TruckNumberChecksArePattern(v: Value)
    ensures ValidTruckNumber(v) <==> v.Str? && TruckNumberShape(v.s)
  {
    if v.Str? {
      TruckNumberPatternShape(v.s);
      if TruckNumberShape(v.s) {
        TruckNumberCharacters(v.s);
        MeasuredLengthWithoutSelectors(v.s);
      }
    }
  }

  /** The documented example is accepted. */
  lemma ExampleTruckNumberAccepted()
    ensures ValidTruckNumber(Str("MH12AB1234"))
  {
    var s := "MH12AB1234";
    assert TruckNumberShape(s) by {
      assert s[..2] == ['M', 'H'];
      assert s[2..4] == ['1', '2'];
      assert s[4..|s| - 4] == ['A', 'B'];
      assert s[|s| - 4..] == ['1', '2', '3', '4'];
    }
    TruckNumberChecksArePattern(Str(s));
  }

  /** The shape the contact pattern describes: an optional '+', then 2 to 15 digits
      of which the first is not zero. */
  predicate ContactShape(s: string) {
    var d := if s != [] && s[0] == '+' then s[1..] else s;
    2 <= |d| <= 15 && '1' <= d[0] <= '9' && AllIn(d, AnyDigit)
  }

  /** `[1-9]\d{1,14}`. */
  lemma SignificantDigits(d: string)
    ensures Matches(ContactPattern[1..], d) <==> 2 <= |d| <= 15 && '1' <= d[0] <= '9' && AllIn(d, AnyDigit)
  {
    var p := ContactPattern[1..];
    assert p[1..] == [Piece(AnyDigit, 1, 14)];
    RunFixed(p, 1, d);
    if d != [] {
      RunLast(p[1..], 1, 14, d[1..]);
      assert d[..1] == [d[0]];
      assert d == [d[0]] + d[1..];
    }
  }

  /** Every character of a contact number is '+' or a digit. */
  lemma ContactCharacters(s: string)
    requires ContactShape(s)
    ensures forall k :: 0 <= k < |s| ==> s[k] == '+' || IsDigit(s[k])
  {
    forall k | 0 <= k < |s| ensures s[k] == '+' || IsDigit(s[k]) {
      if s[0] == '+' && k > 0 {
        assert s[k] == s[1..][k - 1];
      }
    }
  }

  /** A contact number's measured length is its number of characters. */
  lemma ContactMeasuredLength(s: string)
    requires ContactShape(s)
    ensures MeasuredLength(s) == |s|
  {
    ContactCharacters(s);
    MeasuredLengthWithoutSelectors(s);
  }

  /** The contact pattern accepts exactly the strings of `ContactShape`. */
  lemma ContactPatternShape(s: string)
    ensures Matches(ContactPattern, s) <==> ContactShape(s)
  {
    var p := ContactPattern;
    assert MatchRun(p, 0, 1, s) <==> (Matches(p[1..], s)
      || (s != [] && s[0] == '+' && MatchRun(p, 0, 0, s[1..])));
    SignificantDigits(s);
    if s != [] {
      SignificantDigits(s[1..]);
      assert MatchRun(p, 0, 0, s[1..]) <==> Matches(p[1..], s[1..]);
    }
  }

  /** The contact-number checks: the pattern, and at most 15 characters in all. */
  lemma ContactChecks(v: Value)
    ensures ValidContactNumber(v) <==> v.Str? && ContactShape(v.s) && |v.s| <= 15
  {
    if v.Str? {
      ContactPatternShape(v.s);
      if ContactShape(v.s) {
        ContactMeasuredLength(v.s);
      }
    }
  }

  /** The placeholder contact written for trucks created from an invoice fails the
      contact checks: its first digit is zero. */
  lemma PlaceholderContactRejected()
    ensures !ValidContactNumber(Str("0000000000"))
  {
    ContactChecks(Str("0000000000"));
  }

  /** The permit, licence and challan of an accepted body are each absent or a string
      whose measured length is at most 255. */
  lemma AcceptedDocuments(body: map<string, Value>)
    requires ValidCreateTruck(body)
    ensures forall k :: k in ["permit", "licence", "challan"] ==>
      var d := Get(body, k); Absent(d) || (d.Str? && MeasuredLength(d.s) <= 255)
  {
  }
}
