/** The JavaScript string built-ins the core relies on: `trim`, `split` on one
    character, and the decimal rendering of a number in a template literal. */
module Text {

  /** The characters `String.prototype.trim` removes: ECMAScript WhiteSpace and
      LineTerminator code points (section 12.2 and 12.3 of ECMA-262). */
  predicate IsWhitespace(c: char) {
    || '\U{0009}' <= c <= '\U{000D}'
    || c == ' ' || c == '\U{00A0}' || c == '\U{1680}'
    || '\U{2000}' <= c <= '\U{200A}'
    || c == '\U{2028}' || c == '\U{2029}' || c == '\U{202F}' || c == '\U{205F}'
    || c == '\U{3000}' || c == '\U{FEFF}'
  }

  predicate IsBlank(s: string) {
    forall k :: 0 <= k < |s| ==> IsWhitespace(s[k])
  }

  /** `trimStart`: the suffix left after dropping every leading whitespace character. */
  function TrimStart(s: string): (r: string)
    ensures |r| <= |s| && r == s[|s| - |r|..]
    ensures IsBlank(s[..|s| - |r|])
    ensures r != [] ==> !IsWhitespace(r[0])
    decreases |s|
  {
    if s != [] && IsWhitespace(s[0]) then
      var r := TrimStart(s[1..]);
      assert s[1..][..|s[1..]| - |r|] == s[1..|s| - |r|];
      assert s[..|s| - |r|] == [s[0]] + s[1..|s| - |r|];
      BlankPrepend(s[0], s[1..|s| - |r|]);
      r
    else s
  }

  /** `trimEnd`: the prefix left after dropping every trailing whitespace character. */
  function TrimEnd(s: string): (r: string)
    ensures |r| <= |s| && r == s[..|r|]
    ensures IsBlank(s[|r|..])
    ensures r != [] ==> !IsWhitespace(r[|r| - 1])
    decreases |s|
  {
    if s != [] && IsWhitespace(s[|s| - 1]) then
      var r := TrimEnd(s[..|s| - 1]);
      assert s[..|s| - 1][|r|..] == s[|r|..|s| - 1];
      assert s[|r|..] == s[|r|..|s| - 1] + [s[|s| - 1]];
      BlankAppend(s[|r|..|s| - 1], s[|s| - 1]);
      r
    else s
  }

  lemma BlankPrepend(c: char, s: string)
    requires IsWhitespace(c) && IsBlank(s)
    ensures IsBlank([c] + s)
  {
    assert forall k :: 0 < k <= |s| ==> ([c] + s)[k] == s[k - 1];
  }

  lemma BlankAppend(s: string, c: char)
    requires IsBlank(s) && IsWhitespace(c)
    ensures IsBlank(s + [c])
  {
    assert forall k :: 0 <= k < |s| ==> (s + [c])[k] == s[k];
  }

  /** `trim`. */
  function Trim(s: string): string {
    TrimEnd(TrimStart(s))
  }

  /** Trimming never introduces a character. */
  lemma TrimKeepsAbsent(s: string, c: char)
    requires c !in s
    ensures c !in Trim(s)
  {
  }

  /** What trim keeps neither starts nor ends with whitespace. */
  lemma TrimEndsNotWhitespace(s: string)
    ensures Trim(s) != [] ==> !IsWhitespace(Trim(s)[0]) && !IsWhitespace(Trim(s)[|Trim(s)| - 1])
  {
    var u := TrimStart(s);
    var t := TrimEnd(u);
    if t != [] {
      assert t[0] == u[0];
    }
  }

  lemma TrimStartOfUntrimmed(s: string)
    requires s == [] || !IsWhitespace(s[0])
    ensures TrimStart(s) == s
  {
  }

  lemma TrimEndOfUntrimmed(s: string)
    requires s == [] || !IsWhitespace(s[|s| - 1])
    ensures TrimEnd(s) == s
  {
  }

  /** A string that neither starts nor ends with whitespace is left unchanged. */
  lemma TrimOfTrimmed(s: string)
    requires s == [] || (!IsWhitespace(s[0]) && !IsWhitespace(s[|s| - 1]))
    ensures Trim(s) == s
  {
    TrimStartOfUntrimmed(s);
    TrimEndOfUntrimmed(s);
  }

  /** Trimming twice is trimming once. */
  lemma TrimIdempotent(s: string)
    ensures Trim(Trim(s)) == Trim(s)
  {
    TrimEndsNotWhitespace(s);
    TrimOfTrimmed(Trim(s));
  }

  /** `s.trim() === ''` exactly when every character of `s` is whitespace. */
  lemma TrimEmptyIffBlank(s: string)
    ensures Trim(s) == "" <==> IsBlank(s)
  {
    var u := TrimStart(s);
    assert u[0..] == u;
    assert s[..|s|] == s;
  }

  /** The number of occurrences of `d` in `s`. */
  function Count(s: string, d: char): nat {
    if s == [] then 0 else (if s[0] == d then 1 else 0) + Count(s[1..], d)
  }

  /** `s.split(d)` for a one-character separator: the pieces between separators,
      one more piece than there are separators, none containing a separator. */
  function Split(s: string, d: char): (r: seq<string>)
    ensures |r| == Count(s, d) + 1
    ensures forall i :: 0 <= i < |r| ==> d !in r[i]
    decreases |s|
  {
    if s == [] then [""]
    else
      var rest := Split(s[1..], d);
      if s[0] == d then [""] + rest
      else [[s[0]] + rest[0]] + rest[1..]
  }

  /** `parts.join(d)`. */
  function Join(parts: seq<string>, d: char): string
    decreases |parts|
  {
    if |parts| == 0 then ""
    else if |parts| == 1 then parts[0]
    else parts[0] + [d] + Join(parts[1..], d)
  }

  /** Joining the pieces of a split with the same separator gives back the string. */
  lemma {:induction false} JoinSplit(s: string, d: char)
    ensures Join(Split(s, d), d) == s
    decreases |s|
  {
    if s != [] {
      var rest := Split(s[1..], d);
      JoinSplit(s[1..], d);
      if s[0] == d {
        assert Join([""] + rest, d) == "" + [d] + Join(rest, d) by {
          assert ([""] + rest)[1..] == rest;
        }
      } else {
        var head := [s[0]] + rest[0];
        if |rest| == 1 {
          assert Split(s, d) == [head];
        } else {
          assert Join(rest, d) == rest[0] + [d] + Join(rest[1..], d);
          assert ([head] + rest[1..])[1..] == rest[1..];
        }
      }
    }
  }

  predicate IsDigit(c: char) {
    '0' <= c <= '9'
  }

  function DigitChar(n: nat): char
    requires n < 10
  {
    ['0', '1', '2', '3', '4', '5', '6', '7', '8', '9'][n]
  }

  function DigitValue(c: char): nat
    requires IsDigit(c)
  {
    (c as int - '0' as int) as nat
  }

  /** The decimal rendering of a non-negative integer, as `${n}` produces it. */
  function NatToString(n: nat): (r: string)
    ensures |r| >= 1
    ensures forall k :: 0 <= k < |r| ==> IsDigit(r[k])
    ensures r[0] == '0' ==> n == 0 && r == "0"
  {
    if n < 10 then [DigitChar(n)] else NatToString(n / 10) + [DigitChar(n % 10)]
  }

  /** The value of a string of decimal digits. */
  function ParseNat(s: string): nat
    requires forall k :: 0 <= k < |s| ==> IsDigit(s[k])
  {
    if s == [] then 0 else ParseNat(s[..|s| - 1]) * 10 + DigitValue(s[|s| - 1])
  }

  /** Reading back the decimal rendering gives the number. */
  lemma {:induction false} ParseNatToString(n: nat)
    ensures ParseNat(NatToString(n)) == n
  {
    if n >= 10 {
      var r := NatToString(n);
      ParseNatToString(n / 10);
      assert r[..|r| - 1] == NatToString(n / 10);
    }
  }

  /** Distinct numbers render as distinct strings. */
  lemma NatToStringInjective(m: nat, n: nat)
    requires NatToString(m) == NatToString(n)
    ensures m == n
  {
    ParseNatToString(m);
    ParseNatToString(n);
  }
}
