/** The fragment of JavaScript regular expressions the validators use: an anchored
    (`^...$`) sequence of character classes, each repeated between a minimum and a
    maximum number of times (`[A-Z]{1,2}`, `\d{4}`, `\+?`), matched with backtracking.
    Without the `u` flag, `\d` is the ASCII digits and `[A-Z]` the ASCII capitals. */
module Pattern {
  import opened Text

  datatype CharClass =
    | AnyDigit                   // \d
    | NonZeroDigit               // [1-9]
    | Capital                    // [A-Z]
    | Between(lo: char, hi: char) // [lo-hi]
    | Exactly(c: char)           // a literal such as \+

  /** `cls{min,max}`. */
  datatype Piece = Piece(cls: CharClass, min: nat, max: nat)

  predicate InClass(c: char, cls: CharClass) {
    match cls
    case AnyDigit => IsDigit(c)
    case NonZeroDigit => '1' <= c <= '9'
    case Capital => 'A' <= c <= 'Z'
    case Between(lo, hi) => lo <= c <= hi
    case Exactly(x) => c == x
  }

  predicate AllIn(s: string, cls: CharClass) {
    forall k :: 0 <= k < |s| ==> InClass(s[k], cls)
  }

  predicate WellFormed(ps: seq<Piece>) {
    forall i :: 0 <= i < |ps| ==> ps[i].min <= ps[i].max
  }

  /** `^ps$` tested on all of `s`. */
  predicate Matches(ps: seq<Piece>, s: string)
    requires WellFormed(ps)
    decreases |ps|, 1, 0
  {
    if ps == [] then s == [] else MatchRun(ps, ps[0].min, ps[0].max, s)
  }

  /** The first piece may take between `lo` and `hi` more characters of `s`, and the
      remaining pieces must match what is left. */
  predicate MatchRun(ps: seq<Piece>, lo: nat, hi: nat, s: string)
    requires WellFormed(ps) && ps != [] && lo <= hi
    decreases |ps|, 0, hi
  {
    if lo > 0 then
      s != [] && InClass(s[0], ps[0].cls) && MatchRun(ps, lo - 1, hi - 1, s[1..])
    else
      Matches(ps[1..], s)
      || (hi > 0 && s != [] && InClass(s[0], ps[0].cls) && MatchRun(ps, 0, hi - 1, s[1..]))
  }

  /** The last piece matches exactly the strings of its class whose length is in range. */
  lemma {:induction false} RunLast(ps: seq<Piece>, lo: nat, hi: nat, s: string)
    requires WellFormed(ps) && |ps| == 1 && lo <= hi
    ensures MatchRun(ps, lo, hi, s) <==> lo <= |s| <= hi && AllIn(s, ps[0].cls)
    decreases hi
  {
    assert ps[1..] == [];
    if s != [] && hi > 0 {
      RunLast(ps, if lo > 0 then lo - 1 else 0, hi - 1, s[1..]);
    }
  }

  /** A piece repeated exactly `n` times consumes exactly `n` characters. */
  lemma {:induction false} RunFixed(ps: seq<Piece>, n: nat, s: string)
    requires WellFormed(ps) && ps != []
    ensures MatchRun(ps, n, n, s)
        <==> n <= |s| && AllIn(s[..n], ps[0].cls) && Matches(ps[1..], s[n..])
    decreases n
  {
    if n > 0 && s != [] {
      RunFixed(ps, n - 1, s[1..]);
      if n <= |s| {
        assert s[1..][..n - 1] == s[1..n];
        assert s[1..][n - 1..] == s[n..];
      }
    }
  }
}
