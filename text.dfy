/**
 * The handful of Python string operations the modelled code relies on, written out:
 * `strip`, `strip(chars)`, ASCII `upper`/`lower`, slicing with `[::-1]`, `str(int)`,
 * `split(sep)`, and `repr` of a string and of a list of strings.
 */
module Text {
  import opened Wrappers

  /** Python's `str.isspace()`: the characters `str.strip()` removes when given no argument. */
  predicate IsSpace(c: char)
  {
    || ('\t' <= c <= '\r')
    || ('\U{1C}' <= c <= ' ')
    || c == '\U{85}' || c == '\U{A0}' || c == '\U{1680}'
    || ('\U{2000}' <= c <= '\U{200A}')
    || c == '\U{2028}' || c == '\U{2029}' || c == '\U{202F}' || c == '\U{205F}' || c == '\U{3000}'
  }

  /** The argument of `strip`: the characters listed, or, when none are given, whitespace. */
  datatype Chars = Only(cs: set<char>) | Whitespace

  predicate In(c: char, chars: Chars)
  {
    match chars
    case Only(cs) => c in cs
    case Whitespace => IsSpace(c)
  }

  // ---------------------------------------------------------------------------
  // strip

  /** The first position at or after `i` whose character is outside `cs` (or the end). */
  function SkipLeft(s: string, cs: Chars, i: nat): (j: nat)
    requires i <= |s|
    decreases |s| - i
    ensures i <= j <= |s|
  {
    if i < |s| && In(s[i], cs) then SkipLeft(s, cs, i + 1) else i
  }

  /** `SkipLeft` passes over characters of `cs` only, and stops at one outside it. */
  lemma {:induction false} SkipLeftStops(s: string, cs: Chars, i: nat)
    requires i <= |s|
    decreases |s| - i
    ensures forall k :: i <= k < SkipLeft(s, cs, i) ==> In(s[k], cs)
    ensures SkipLeft(s, cs, i) < |s| ==> !In(s[SkipLeft(s, cs, i)], cs)
  {
    if i < |s| && In(s[i], cs) {
      SkipLeftStops(s, cs, i + 1);
    }
  }

  /** The end of the longest part `s[lo..e]` of `s[lo..j]` whose last character is outside `cs`. */
  function SkipRight(s: string, cs: Chars, lo: nat, j: nat): (e: nat)
    requires lo <= j <= |s|
    decreases j
    ensures lo <= e <= j
  {
    if lo < j && In(s[j - 1], cs) then SkipRight(s, cs, lo, j - 1) else j
  }

  /** `SkipRight` passes back over characters of `cs` only, and stops after one outside it. */
  lemma {:induction false} SkipRightStops(s: string, cs: Chars, lo: nat, j: nat)
    requires lo <= j <= |s|
    decreases j
    ensures forall k :: SkipRight(s, cs, lo, j) <= k < j ==> In(s[k], cs)
    ensures lo < SkipRight(s, cs, lo, j) ==> !In(s[SkipRight(s, cs, lo, j) - 1], cs)
  {
    if lo < j && In(s[j - 1], cs) {
      SkipRightStops(s, cs, lo, j - 1);
    }
  }

  /**
   * Python's `s.strip(chars)`: what remains once the longest prefix and the longest suffix
   * made of characters of `cs` are removed.
   */
  function StripChars(s: string, cs: Chars): (r: string)
    ensures |r| <= |s|
    ensures r != [] ==> !In(r[0], cs) && !In(r[|r| - 1], cs)
  {
    var i := SkipLeft(s, cs, 0);
    SkipLeftStops(s, cs, 0);
    SkipRightStops(s, cs, i, |s|);
    s[i..SkipRight(s, cs, i, |s|)]
  }

  /**
   * What `strip(chars)` keeps is one contiguous part of `s`, and everything it removes, before
   * and after that part, is a character of `cs`.
   */
  lemma StripCharsRemovesOnly(s: string, cs: Chars) returns (i: nat)
    ensures var r := StripChars(s, cs);
      && i + |r| <= |s|
      && r == s[i..i + |r|]
      && (forall k :: 0 <= k < i ==> In(s[k], cs))
      && (forall k :: i + |r| <= k < |s| ==> In(s[k], cs))
      && (r != [] ==> !In(s[i], cs))
  {
    i := SkipLeft(s, cs, 0);
    SkipLeftStops(s, cs, 0);
    SkipRightStops(s, cs, i, |s|);
  }

  /** Python's `s.strip()`. */
  function Strip(s: string): string
  {
    StripChars(s, Whitespace)
  }

  /** A string whose two ends are outside `cs` is left alone by `strip(cs)`. */
  lemma StripCharsKeeps(s: string, cs: Chars)
    requires s == [] || (!In(s[0], cs) && !In(s[|s| - 1], cs))
    ensures StripChars(s, cs) == s
  {
  }

  /**
   * A text whose two ends are outside `cs`, wrapped in characters of `cs`, is exactly what
   * `strip(cs)` leaves of it.
   */
  lemma StripCharsEnclosed(before: string, text: string, after: string, cs: Chars)
    requires forall k :: 0 <= k < |before| ==> In(before[k], cs)
    requires forall k :: 0 <= k < |after| ==> In(after[k], cs)
    requires text != [] && !In(text[0], cs) && !In(text[|text| - 1], cs)
    ensures StripChars(before + text + after, cs) == text
  {
    var s := before + text + after;
    var i := StripCharsRemovesOnly(s, cs);
    assert forall k :: 0 <= k < |before| ==> s[k] == before[k];
    assert forall k :: 0 <= k < |after| ==> s[|before| + |text| + k] == after[k];
    assert s[|before|] == text[0] && s[|before| + |text| - 1] == text[|text| - 1];
    assert s[|before|..|before| + |text|] == text;
  }

  /** Stripping twice with the same characters is stripping once. */
  lemma StripCharsIdempotent(s: string, cs: Chars)
    ensures StripChars(StripChars(s, cs), cs) == StripChars(s, cs)
  {
    StripCharsKeeps(StripChars(s, cs), cs);
  }

  // ---------------------------------------------------------------------------
  // upper, lower, reverse

  predicate IsAsciiLower(c: char) { 'a' <= c <= 'z' }

  predicate IsAsciiUpper(c: char) { 'A' <= c <= 'Z' }

  function UpperChar(c: char): char
  {
    if IsAsciiLower(c) then (c as int - 32) as char else c
  }

  function LowerChar(c: char): char
  {
    if IsAsciiUpper(c) then (c as int + 32) as char else c
  }

  /** `s.upper()` over ASCII letters. */
  function Upper(s: string): (r: string)
    ensures |r| == |s| && forall i :: 0 <= i < |s| ==> r[i] == UpperChar(s[i])
  {
    if s == [] then [] else [UpperChar(s[0])] + Upper(s[1..])
  }

  /** `s.lower()` over ASCII letters. */
  function Lower(s: string): (r: string)
    ensures |r| == |s| && forall i :: 0 <= i < |s| ==> r[i] == LowerChar(s[i])
  {
    if s == [] then [] else [LowerChar(s[0])] + Lower(s[1..])
  }

  /** `s[::-1]`. */
  function Reverse(s: string): (r: string)
    ensures |r| == |s| && forall i :: 0 <= i < |s| ==> r[i] == s[|s| - 1 - i]
  {
    if s == [] then [] else Reverse(s[1..]) + [s[0]]
  }

  lemma ReverseInvolution(s: string)
    ensures Reverse(Reverse(s)) == s
  {
  }

  /** Upper-casing leaves no lower-case letter, and lower-casing it gives back the lower-cased input. */
  lemma UpperThenLower(s: string)
    ensures forall i :: 0 <= i < |Upper(s)| ==> !IsAsciiLower(Upper(s)[i])
    ensures Lower(Upper(s)) == Lower(s)
  {
  }

  /** Lower-casing leaves no upper-case letter, and upper-casing it gives back the upper-cased input. */
  lemma LowerThenUpper(s: string)
    ensures forall i :: 0 <= i < |Lower(s)| ==> !IsAsciiUpper(Lower(s)[i])
    ensures Upper(Lower(s)) == Upper(s)
  {
  }

  // ---------------------------------------------------------------------------
  // str(int) and its inverse

  predicate IsDigit(c: char) { '0' <= c <= '9' }

  predicate AllDigits(s: string) { forall i :: 0 <= i < |s| ==> IsDigit(s[i]) }

  function DigitChar(d: nat): (c: char)
    requires d < 10
    ensures IsDigit(c)
  {
    ('0' as int + d) as char
  }

  function DigitValue(c: char): (d: nat)
    requires IsDigit(c)
    ensures d < 10 && DigitChar(d) == c
  {
    c as int - '0' as int
  }

  /** The decimal digits of `n`, without leading zeros. */
  function NatToDecimal(n: nat): (r: string)
    ensures |r| >= 1 && AllDigits(r)
    ensures r[0] == '0' ==> r == "0"
    decreases n
  {
    if n < 10 then [DigitChar(n)] else NatToDecimal(n / 10) + [DigitChar(n % 10)]
  }

  /** The number a string of decimal digits denotes. */
  function DigitsValue(s: string): nat
    requires AllDigits(s)
  {
    if s == [] then 0 else DigitsValue(s[..|s| - 1]) * 10 + DigitValue(s[|s| - 1])
  }

  lemma {:induction false} DigitsOfNat(n: nat)
    ensures DigitsValue(NatToDecimal(n)) == n
    decreases n
  {
    if n >= 10 {
      DigitsOfNat(n / 10);
      var s := NatToDecimal(n);
      assert s[..|s| - 1] == NatToDecimal(n / 10);
    }
  }

  /** Python's `str(i)` for an integer `i`. */
  function IntToDecimal(i: int): string
  {
    if i < 0 then "-" + NatToDecimal(-i) else NatToDecimal(i)
  }

  /** Python's `int(s)` restricted to an optional minus sign followed by digits. */
  function ParseDecimal(s: string): Option<int>
  {
    if |s| >= 2 && s[0] == '-' && AllDigits(s[1..]) then Some(-(DigitsValue(s[1..]) as int))
    else if s != [] && AllDigits(s) then Some(DigitsValue(s))
    else None
  }

  /** `str(i)` can be read back as `i`, so distinct integers print differently. */
  lemma DecimalRoundTrip(i: int)
    ensures ParseDecimal(IntToDecimal(i)) == Some(i)
  {
    var s := IntToDecimal(i);
    if i < 0 {
      var n := NatToDecimal(-i);
      assert s == "-" + n && s[1..] == n;
      DigitsOfNat(-i);
    } else {
      assert IsDigit(s[0]);
      DigitsOfNat(i);
    }
  }

  // ---------------------------------------------------------------------------
  // split on one separator character

  /** The position of the first `c` in `s`. */
  function IndexOf(s: string, c: char): (i: nat)
    requires c in s
    ensures i < |s| && s[i] == c && c !in s[..i]
  {
    if s[0] == c then 0 else 1 + IndexOf(s[1..], c)
  }

  /** Python's `s.split(c)` for a one-character separator. */
  function Split(s: string, c: char): (parts: seq<string>)
    ensures |parts| >= 1
    ensures forall k :: 0 <= k < |parts| ==> c !in parts[k]
    decreases |s|
  {
    if c in s then
      var i := IndexOf(s, c);
      [s[..i]] + Split(s[i + 1..], c)
    else
      [s]
  }

  /** Python's `c.join(parts)`. */
  function Join(parts: seq<string>, c: char): string
  {
    if parts == [] then ""
    else if |parts| == 1 then parts[0]
    else parts[0] + [c] + Join(parts[1..], c)
  }

  /** Joining the pieces of a split restores the string. */
  lemma {:induction false} JoinSplit(s: string, c: char)
    ensures Join(Split(s, c), c) == s
    decreases |s|
  {
    if c in s {
      var i := IndexOf(s, c);
      var p, r := s[..i], s[i + 1..];
      assert Split(s, c) == [p] + Split(r, c);
      JoinCons(p, Split(r, c), c);
      JoinSplit(r, c);
      assert s == p + [c] + r;
    }
  }

  /** Joining a head before a non-empty tail puts one separator between them. */
  lemma JoinCons(head: string, tail: seq<string>, c: char)
    requires tail != []
    ensures Join([head] + tail, c) == head + [c] + Join(tail, c)
  {
    assert ([head] + tail)[1..] == tail;
  }

  lemma IndexOfSeparator(p: string, c: char, rest: string)
    requires c !in p
    ensures IndexOf(p + [c] + rest, c) == |p|
  {
    var s := p + [c] + rest;
    assert s[..|p|] == p && s[|p|] == c;
  }

  /** Splitting a join of separator-free pieces gives the pieces back. */
  lemma {:induction false} SplitJoin(parts: seq<string>, c: char)
    requires parts != []
    requires forall k :: 0 <= k < |parts| ==> c !in parts[k]
    ensures Split(Join(parts, c), c) == parts
  {
    if |parts| > 1 {
      var rest := Join(parts[1..], c);
      IndexOfSeparator(parts[0], c, rest);
      var s := parts[0] + [c] + rest;
      assert s[..|parts[0]|] == parts[0];
      assert s[|parts[0]| + 1..] == rest;
      SplitJoin(parts[1..], c);
    }
  }

  // ---------------------------------------------------------------------------
  // repr

  function HexDigit(d: nat): char
    requires d < 16
  {
    if d < 10 then ('0' as int + d) as char else ('a' as int + d - 10) as char
  }

  /**
   * One character as `repr` writes it between the chosen quotes. The control characters of
   * ASCII and Latin-1 and the soft hyphen are not printable and become `\xhh`; every character
   * above U+00FF is taken as printable.
   */
  function EscapeChar(c: char, quote: char): string
  {
    if c == quote || c == '\\' then ['\\', c]
    else if c == '\t' then "\\t"
    else if c == '\n' then "\\n"
    else if c == '\r' then "\\r"
    else if c < ' ' || ('\U{7F}' <= c <= '\U{A0}') || c == '\U{AD}' then
      ['\\', 'x', HexDigit(c as int / 16), HexDigit(c as int % 16)]
    else [c]
  }

  function EscapeAll(s: string, quote: char): string
  {
    if s == [] then "" else EscapeChar(s[0], quote) + EscapeAll(s[1..], quote)
  }

  /** Python's `repr(s)`: double quotes only when `s` holds a single quote and no double quote. */
  function Repr(s: string): string
  {
    var quote := if '\'' in s && '"' !in s then '"' else '\'';
    [quote] + EscapeAll(s, quote) + [quote]
  }

  /** Printable ASCII without quote or backslash: a string that `repr` writes verbatim between single quotes. */
  predicate Plain(s: string)
  {
    forall i :: 0 <= i < |s| ==> s[i] != '\'' && s[i] != '\\' && ' ' <= s[i] <= '~'
  }

  lemma {:induction false} EscapePlain(s: string)
    requires Plain(s)
    ensures EscapeAll(s, '\'') == s
  {
    if s != [] {
      EscapePlain(s[1..]);
    }
  }

  lemma ReprOfPlain(s: string)
    requires Plain(s)
    ensures Repr(s) == "'" + s + "'"
  {
    EscapePlain(s);
  }

  function JoinReprs(xs: seq<string>): string
  {
    if xs == [] then ""
    else if |xs| == 1 then Repr(xs[0])
    else Repr(xs[0]) + ", " + JoinReprs(xs[1..])
  }

  /** Python's `str(xs)` (equally `repr(xs)`) for a list of strings. */
  function ListRepr(xs: seq<string>): string
  {
    "[" + JoinReprs(xs) + "]"
  }

  predicate IsPrefix(x: string, s: string)
  {
    |x| <= |s| && s[..|x|] == x
  }

  /** `x in s` for strings: `x` occurs in `s` as a contiguous piece. */
  predicate IsInfix(x: string, s: string)
    decreases |s|
  {
    IsPrefix(x, s) || (s != [] && IsInfix(x, s[1..]))
  }

  lemma {:induction false} InfixAfter(x: string, a: string, s: string)
    requires IsInfix(x, s)
    ensures IsInfix(x, a + s)
    decreases |a|
  {
    if a == [] {
      assert a + s == s;
    } else {
      assert (a + s)[1..] == a[1..] + s;
      InfixAfter(x, a[1..], s);
    }
  }

  lemma {:induction false} InfixBefore(x: string, s: string, b: string)
    requires IsInfix(x, s)
    ensures IsInfix(x, s + b)
    decreases |s|
  {
    if IsPrefix(x, s) {
      assert (s + b)[..|x|] == s[..|x|];
    } else {
      assert (s + b)[1..] == s[1..] + b;
      InfixBefore(x, s[1..], b);
    }
  }

  lemma {:induction false} JoinReprsContains(xs: seq<string>, k: nat)
    requires k < |xs|
    ensures IsInfix(Repr(xs[k]), JoinReprs(xs))
    decreases k
  {
    if k == 0 {
      var r := Repr(xs[0]);
      assert IsPrefix(r, r);
      if |xs| > 1 {
        InfixBefore(r, r, ", " + JoinReprs(xs[1..]));
        assert r + (", " + JoinReprs(xs[1..])) == JoinReprs(xs);
      }
    } else {
      JoinReprsContains(xs[1..], k - 1);
      InfixAfter(Repr(xs[k]), Repr(xs[0]) + ", ", JoinReprs(xs[1..]));
      assert Repr(xs[0]) + ", " + JoinReprs(xs[1..]) == JoinReprs(xs);
    }
  }

  /** Every element's `repr` occurs in the `repr` of the list. */
  lemma ListReprContains(xs: seq<string>, k: nat)
    requires k < |xs|
    ensures IsInfix(Repr(xs[k]), ListRepr(xs))
  {
    JoinReprsContains(xs, k);
    InfixAfter(Repr(xs[k]), "[", JoinReprs(xs));
    InfixBefore(Repr(xs[k]), "[" + JoinReprs(xs), "]");
  }

  /** A plain element even occurs verbatim in the list's `repr`. */
  lemma ListReprContainsPlain(xs: seq<string>, k: nat)
    requires k < |xs| && Plain(xs[k])
    ensures IsInfix(xs[k], ListRepr(xs))
  {
    ListReprContains(xs, k);
    ReprOfPlain(xs[k]);
    InfixOfInfix(xs[k], Repr(xs[k]), ListRepr(xs));
  }

  lemma {:induction false} InfixOfInfix(x: string, y: string, s: string)
    requires IsInfix(x, y) && IsInfix(y, s)
    ensures IsInfix(x, s)
    decreases |s| + |y|
  {
    if IsPrefix(y, s) {
      if IsPrefix(x, y) {
        assert s[..|x|] == y[..|x|];
      } else {
        assert y[1..] == s[1..|y|];
        InfixOfInfix(x, y[1..], s[1..|y|]);
        InfixBefore(x, s[1..|y|], s[|y|..]);
        assert s[1..|y|] + s[|y|..] == s[1..];
      }
    } else {
      InfixOfInfix(x, y, s[1..]);
    }
  }
}
