/** Character and string operations of the two runtimes that the models rely
    on: JavaScript's `trim`, `toLowerCase` and UTF-16 `length`, and Python's
    `strip`, `lower`, `splitlines` and `str(int)`. */
module Text {
  import Seqs

  /** Characters removed by JavaScript's `String.prototype.trim`: the
      ECMAScript WhiteSpace and LineTerminator code points. */
  predicate IsJsWhitespace(c: char) {
    var n := c as int;
    n == 0x09 || n == 0x0A || n == 0x0B || n == 0x0C || n == 0x0D || n == 0x20 ||
    n == 0xA0 || n == 0x1680 || (0x2000 <= n <= 0x200A) || n == 0x2028 || n == 0x2029 ||
    n == 0x202F || n == 0x205F || n == 0x3000 || n == 0xFEFF
  }

  /** Characters removed by Python's `str.strip()` with no argument
      (those for which `str.isspace` holds). */
  predicate IsPyWhitespace(c: char) {
    var n := c as int;
    (0x09 <= n <= 0x0D) || (0x1C <= n <= 0x20) || n == 0x85 || n == 0xA0 ||
    n == 0x1680 || (0x2000 <= n <= 0x200A) || n == 0x2028 || n == 0x2029 ||
    n == 0x202F || n == 0x205F || n == 0x3000
  }

  /** Line boundaries recognised by Python's `str.splitlines`. */
  predicate IsPyLineBreak(c: char) {
    var n := c as int;
    (0x0A <= n <= 0x0D) || (0x1C <= n <= 0x1E) || n == 0x85 || n == 0x2028 || n == 0x2029
  }

  function DropLeading(ws: char -> bool, s: string): (r: string)
    ensures |r| <= |s| && r == s[|s| - |r|..]
    ensures r == [] || !ws(r[0])
  {
    if s != [] && ws(s[0]) then DropLeading(ws, s[1..]) else s
  }

  /** Everything `DropLeading` removes is whitespace. */
  lemma {:induction false} DropLeadingOnlyWhitespace(ws: char -> bool, s: string)
    ensures forall i :: 0 <= i < |s| - |DropLeading(ws, s)| ==> ws(s[i])
  {
    if s != [] && ws(s[0]) {
      DropLeadingOnlyWhitespace(ws, s[1..]);
      forall i | 1 <= i < |s| - |DropLeading(ws, s)| ensures ws(s[i]) {
        assert s[i] == s[1..][i - 1];
      }
    }
  }

  function DropTrailing(ws: char -> bool, s: string): (r: string)
    ensures |r| <= |s| && r == s[..|r|]
    ensures r == [] || !ws(r[|r| - 1])
  {
    if s != [] && ws(s[|s| - 1]) then DropTrailing(ws, s[..|s| - 1]) else s
  }

  /** Everything `DropTrailing` removes is whitespace. */
  lemma {:induction false} DropTrailingOnlyWhitespace(ws: char -> bool, s: string)
    ensures forall i :: |DropTrailing(ws, s)| <= i < |s| ==> ws(s[i])
  {
    if s != [] && ws(s[|s| - 1]) {
      DropTrailingOnlyWhitespace(ws, s[..|s| - 1]);
      forall i | |DropTrailing(ws, s)| <= i < |s| - 1 ensures ws(s[i]) {
        assert s[i] == s[..|s| - 1][i];
      }
    }
  }

  /** `s` with the longest all-whitespace prefix and suffix removed. */
  function Strip(ws: char -> bool, s: string): (r: string)
  {
    DropTrailing(ws, DropLeading(ws, s))
  }

  /** The stripped string neither starts nor ends with whitespace. */
  lemma StripEnds(ws: char -> bool, s: string)
    ensures var r := Strip(ws, s); r == [] || (!ws(r[0]) && !ws(r[|r| - 1]))
  {
    var l := DropLeading(ws, s);
    var r := DropTrailing(ws, l);
    if r != [] {
      assert l[0] == r[0];
    }
  }

  /** The stripped string is empty exactly when every character is whitespace. */
  lemma StripEmptyIff(ws: char -> bool, s: string)
    ensures Strip(ws, s) == [] <==> forall k :: 0 <= k < |s| ==> ws(s[k])
  {
    var l := DropLeading(ws, s);
    DropLeadingOnlyWhitespace(ws, s);
    DropTrailingOnlyWhitespace(ws, l);
    assert forall k :: |s| - |l| <= k < |s| ==> s[k] == l[k - (|s| - |l|)];
  }

  /** Stripping twice removes nothing more. */
  lemma StripIdempotent(ws: char -> bool, s: string)
    ensures Strip(ws, Strip(ws, s)) == Strip(ws, s)
  {
    StripEnds(ws, s);
    var r := Strip(ws, s);
    assert DropLeading(ws, r) == r;
  }

  function JsTrim(s: string): string { Strip(IsJsWhitespace, s) }

  function PyStrip(s: string): string { Strip(IsPyWhitespace, s) }

  /** Lower-casing, restricted to ASCII letters: the stand-in used here for
      JavaScript's `toLowerCase` and Python's `lower`. */
  function LowerChar(c: char): (d: char)
    ensures 'A' <= c <= 'Z' ==> d as int == c as int + 32
    ensures !('A' <= c <= 'Z') ==> d == c
  {
    if 'A' <= c <= 'Z' then (c as int + 32) as char else c
  }

  function Lower(s: string): (r: string)
    ensures |r| == |s| && forall i :: 0 <= i < |s| ==> r[i] == LowerChar(s[i])
  {
    seq(|s|, i requires 0 <= i < |s| => LowerChar(s[i]))
  }

  lemma LowerIdempotent(s: string)
    ensures Lower(Lower(s)) == Lower(s)
  {
  }

  /** JavaScript's `String.prototype.length`: the number of UTF-16 code units,
      two for every code point outside the Basic Multilingual Plane. */
  function Utf16Length(s: string): (n: nat)
    ensures |s| <= n <= 2 * |s|
  {
    if s == [] then 0
    else (if s[0] as int >= 0x10000 then 2 else 1) + Utf16Length(s[1..])
  }

  function DigitChar(d: nat): (c: char)
    requires d < 10
  {
    ['0', '1', '2', '3', '4', '5', '6', '7', '8', '9'][d]
  }

  /** Decimal rendering of a natural number (`str(n)`, template literals). */
  function NatToString(n: nat): (s: string)
    ensures |s| >= 1
    ensures forall i :: 0 <= i < |s| ==> '0' <= s[i] <= '9'
  {
    if n < 10 then [DigitChar(n)] else NatToString(n / 10) + [DigitChar(n % 10)]
  }

  function DigitValue(c: char): nat
    requires '0' <= c <= '9'
  {
    c as int - '0' as int
  }

  /** Reading the decimal digits back. */
  function ParseDigits(s: string): nat
    requires forall i :: 0 <= i < |s| ==> '0' <= s[i] <= '9'
  {
    if s == [] then 0 else 10 * ParseDigits(s[..|s| - 1]) + DigitValue(s[|s| - 1])
  }

  lemma {:induction false} NatToStringRoundTrip(n: nat)
    ensures ParseDigits(NatToString(n)) == n
  {
    if n >= 10 {
      NatToStringRoundTrip(n / 10);
      var s := NatToString(n);
      assert s[..|s| - 1] == NatToString(n / 10);
    }
  }

  /** The first element of Python's `s.splitlines()` for a non-empty `s`:
      everything before the first line boundary. */
  function FirstLine(s: string): (r: string)
    ensures Seqs.StartsWith(s, r)
    ensures forall i :: 0 <= i < |r| ==> !IsPyLineBreak(r[i])
    ensures |r| < |s| ==> IsPyLineBreak(s[|r|])
  {
    if s == [] || IsPyLineBreak(s[0]) then [] else [s[0]] + FirstLine(s[1..])
  }

  /** Python slicing `s[:n]`. */
  function Prefix(s: string, n: nat): (r: string)
    ensures |r| == if |s| < n then |s| else n
    ensures Seqs.StartsWith(s, r)
  {
    if |s| <= n then s else s[..n]
  }
}
