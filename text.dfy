/** The Python string operations the screening flow relies on, over
    `string` = `seq<char>` (one element per Unicode code point, as in Python). */
module Text {

  import opened Wrappers

  // ---------------------------------------------------------------------
  // Prefixes, suffixes, substrings
  // ---------------------------------------------------------------------

  /** `s.startswith(p)` */
  predicate StartsWith(s: string, p: string) {
    |p| <= |s| && s[..|p|] == p
  }

  /** `s.endswith(p)` */
  predicate EndsWith(s: string, p: string) {
    |p| <= |s| && s[|s| - |p|..] == p
  }

  /** `k` occurs in `s` starting at index `i` */
  predicate OccursAt(s: string, k: string, i: int) {
    0 <= i && i + |k| <= |s| && s[i..i + |k|] == k
  }

  /** Python's substring test `k in s` (true for the empty `k`) */
  predicate Contains(s: string, k: string) {
    exists i :: 0 <= i <= |s| && OccursAt(s, k, i)
  }

  /** `s[:n]` for a non-negative `n` */
  function Take(s: string, n: nat): (r: string)
    ensures |r| <= n && |r| <= |s| && r == s[..|r|]
    ensures |s| <= n ==> r == s
  {
    if |s| <= n then s else s[..n]
  }

  /** A string that has `k` in its middle contains `k`. */
  lemma ContainsInfix(p: string, k: string, q: string)
    ensures Contains(p + k + q, k)
  {
    var s := p + k + q;
    assert s[|p|..|p| + |k|] == k;
    assert OccursAt(s, k, |p|);
  }

  /** A string lacking one of the characters of `k` does not contain `k`. */
  lemma NotContainsWithoutChar(s: string, k: string, c: char)
    requires c in k && c !in s
    ensures !Contains(s, k)
  {
  }

  lemma NotInConcat(c: char, a: string, b: string)
    requires c !in a && c !in b
    ensures c !in a + b
  {
  }

  /** When the character on one side of the seam between `a` and `b` is not
      part of `k`, no occurrence of `k` in `a + b` can straddle the seam. */
  lemma ContainsAcross(a: string, b: string, k: string)
    requires (a != [] && a[|a| - 1] !in k) || (b != [] && b[0] !in k)
    ensures Contains(a + b, k) <==> Contains(a, k) || Contains(b, k)
  {
    var s := a + b;
    if Contains(a, k) {
      var i :| 0 <= i <= |a| && OccursAt(a, k, i);
      assert s[i..i + |k|] == a[i..i + |k|];
      assert OccursAt(s, k, i);
    }
    if Contains(b, k) {
      var i :| 0 <= i <= |b| && OccursAt(b, k, i);
      assert s[|a| + i..|a| + i + |k|] == b[i..i + |k|];
      assert OccursAt(s, k, |a| + i);
    }
    if Contains(s, k) {
      var i :| 0 <= i <= |s| && OccursAt(s, k, i);
      if i + |k| <= |a| {
        assert a[i..i + |k|] == s[i..i + |k|];
        assert OccursAt(a, k, i);
      } else if |a| <= i {
        assert b[i - |a|..i - |a| + |k|] == s[i..i + |k|];
        assert OccursAt(b, k, i - |a|);
      } else {
        SeamInsideOccurrence(a, b, k, i);
        assert false;
      }
    }
  }

  /** An occurrence that straddles the seam of `a + b` uses the characters on
      both sides of it. */
  lemma SeamInsideOccurrence(a: string, b: string, k: string, i: int)
    requires OccursAt(a + b, k, i) && i < |a| < i + |k|
    ensures a[|a| - 1] in k && b[0] in k
  {
    var s := a + b;
    assert s[|a| - 1] == k[|a| - 1 - i];
    assert s[|a|] == k[|a| - i];
  }

  // ---------------------------------------------------------------------
  // Whitespace and case
  // ---------------------------------------------------------------------

  /** Python's `str.isspace` for one code point */
  predicate IsSpace(c: char) {
    || c == ' ' || '\t' <= c <= '\r' || '\U{1c}' <= c <= '\U{1f}'
    || c == '\U{85}' || c == '\U{a0}' || c == '\U{1680}'
    || '\U{2000}' <= c <= '\U{200a}' || c == '\U{2028}' || c == '\U{2029}'
    || c == '\U{202f}' || c == '\U{205f}' || c == '\U{3000}'
  }

  /** `s.lstrip()` */
  function LStrip(s: string): (r: string)
    ensures |r| <= |s|
  {
    if s != [] && IsSpace(s[0]) then LStrip(s[1..]) else s
  }

  /** `s.rstrip()` */
  function RStrip(s: string): (r: string)
    ensures |r| <= |s|
  {
    if s != [] && IsSpace(s[|s| - 1]) then RStrip(s[..|s| - 1]) else s
  }

  /** `s.strip()` */
  function Strip(s: string): string {
    RStrip(LStrip(s))
  }

  /** `lstrip` removes exactly the leading whitespace. */
  lemma {:induction false} LStripSpec(s: string)
    ensures var r := LStrip(s);
            && r == s[|s| - |r|..]
            && (forall i :: 0 <= i < |s| - |r| ==> IsSpace(s[i]))
            && (r == [] || !IsSpace(r[0]))
    decreases |s|
  {
    if s != [] && IsSpace(s[0]) {
      LStripSpec(s[1..]);
      var r := LStrip(s[1..]);
      assert s[1..][|s| - 1 - |r|..] == s[|s| - |r|..];
      forall i | 0 <= i < |s| - |r|
        ensures IsSpace(s[i])
      {
        if i > 0 {
          assert s[i] == s[1..][i - 1];
        }
      }
    }
  }

  /** `rstrip` removes exactly the trailing whitespace. */
  lemma {:induction false} RStripSpec(s: string)
    ensures var r := RStrip(s);
            && r == s[..|r|]
            && (forall i :: |r| <= i < |s| ==> IsSpace(s[i]))
            && (r == [] || !IsSpace(r[|r| - 1]))
    decreases |s|
  {
    if s != [] && IsSpace(s[|s| - 1]) {
      var t := s[..|s| - 1];
      RStripSpec(t);
      var r := RStrip(t);
      assert t[..|r|] == s[..|r|];
      forall i | |r| <= i < |s|
        ensures IsSpace(s[i])
      {
        if i < |s| - 1 {
          assert s[i] == t[i];
        }
      }
    }
  }

  /** `strip` keeps the middle of the text, from its first non-whitespace
      character (offset `|s| - |LStrip(s)|`) to its last. */
  lemma StripSpec(s: string)
    ensures var i, r := |s| - |LStrip(s)|, Strip(s);
            && 0 <= i <= |s| - |r| && s[i..i + |r|] == r
            && (forall k :: 0 <= k < i ==> IsSpace(s[k]))
            && (forall k :: i + |r| <= k < |s| ==> IsSpace(s[k]))
            && (r == [] || (!IsSpace(r[0]) && !IsSpace(r[|r| - 1])))
  {
    var l := LStrip(s);
    LStripSpec(s);
    RStripSpec(l);
    var r := RStrip(l);
    var i := |s| - |l|;
    assert s[i..i + |r|] == l[..|r|];
    forall k | i + |r| <= k < |s|
      ensures IsSpace(s[k])
    {
      assert s[k] == l[k - i];
    }
    if r != [] {
      assert r[0] == l[0];
    }
  }

  /** A string with no whitespace at either end is its own strip. */
  lemma StripUnchanged(s: string)
    requires s == [] || (!IsSpace(s[0]) && !IsSpace(s[|s| - 1]))
    ensures Strip(s) == s
  {
  }

  /** `s.rstrip(c)` for a single character `c` */
  function RStripChar(s: string, c: char): (r: string)
    ensures |r| <= |s| && r == s[..|r|]
    ensures forall i :: |r| <= i < |s| ==> s[i] == c
    ensures r == [] || r[|r| - 1] != c
  {
    if s != [] && s[|s| - 1] == c then RStripChar(s[..|s| - 1], c) else s
  }

  predicate IsAsciiUpper(c: char) { 'A' <= c <= 'Z' }

  predicate IsAsciiLetter(c: char) { 'A' <= c <= 'Z' || 'a' <= c <= 'z' }

  function LowerChar(c: char): char {
    if IsAsciiUpper(c) then (c as int + 32) as char else c
  }

  /** `s.lower()`, for the ASCII letters (see README for why that suffices) */
  function Lower(s: string): (r: string)
    ensures |r| == |s|
  {
    seq(|s|, i requires 0 <= i < |s| => LowerChar(s[i]))
  }

  /** Lower-casing neither creates nor destroys an occurrence of a text
      that has no ASCII letter in it. */
  lemma LowerKeepsCaselessOccurrence(s: string, k: string)
    requires forall j :: 0 <= j < |k| ==> !IsAsciiLetter(k[j])
    ensures Contains(Lower(s), k) <==> Contains(s, k)
  {
    var t := Lower(s);
    if Contains(s, k) {
      var i :| 0 <= i <= |s| && OccursAt(s, k, i);
      forall j | 0 <= j < |k| ensures t[i + j] == k[j] {
        assert s[i + j] == k[j];
      }
      assert t[i..i + |k|] == k;
      assert OccursAt(t, k, i);
    }
    if Contains(t, k) {
      var i :| 0 <= i <= |t| && OccursAt(t, k, i);
      forall j | 0 <= j < |k| ensures s[i + j] == k[j] {
        assert t[i + j] == k[j];
        assert t[i + j] == LowerChar(s[i + j]);
      }
      assert s[i..i + |k|] == k;
      assert OccursAt(s, k, i);
    }
  }

  // ---------------------------------------------------------------------
  // Searching, joining and splitting
  // ---------------------------------------------------------------------

  /** `s.find(c)`: the first index of `c`, or -1 */
  function Find(s: string, c: char): (i: int)
    ensures -1 <= i < |s|
    ensures i == -1 <==> c !in s
    ensures 0 <= i ==> s[i] == c && c !in s[..i]
  {
    if s == [] then -1
    else if s[0] == c then 0
    else
      var j := Find(s[1..], c);
      assert s[1..][..j + 1] == s[1..j + 2] by {}
      if j < 0 then -1 else j + 1
  }

  /** `s.rfind(c)`: the last index of `c`, or -1 */
  function RFind(s: string, c: char): (i: int)
    ensures -1 <= i < |s|
    ensures i == -1 <==> c !in s
    ensures 0 <= i ==> s[i] == c && c !in s[i + 1..]
  {
    if s == [] then -1
    else if s[|s| - 1] == c then |s| - 1
    else
      var j := RFind(s[..|s| - 1], c);
      assert j < 0 ==> s == s[..|s| - 1] + [s[|s| - 1]];
      assert 0 <= j ==> s[j + 1..] == s[..|s| - 1][j + 1..] + [s[|s| - 1]];
      j
  }

  /** `sep.join(parts)` */
  function Join(sep: string, parts: seq<string>): string
    decreases |parts|
  {
    if |parts| == 0 then ""
    else if |parts| == 1 then parts[0]
    else parts[0] + sep + Join(sep, parts[1..])
  }

  /** The line boundaries of Python's `str.splitlines` */
  predicate IsLineBreak(c: char) {
    || c == '\n' || c == '\r' || c == '\U{b}' || c == '\U{c}'
    || '\U{1c}' <= c <= '\U{1e}' || c == '\U{85}' || c == '\U{2028}' || c == '\U{2029}'
  }

  predicate NoLineBreak(s: string) {
    forall j :: 0 <= j < |s| ==> !IsLineBreak(s[j])
  }

  /** Index of the first line boundary, or |s| */
  function LineEnd(s: string): (i: nat)
    ensures i <= |s| && NoLineBreak(s[..i])
    ensures i < |s| ==> IsLineBreak(s[i])
  {
    if s == [] || IsLineBreak(s[0]) then 0
    else
      var j := LineEnd(s[1..]);
      assert s[..j + 1] == [s[0]] + s[1..][..j];
      j + 1
  }

  /** `s.splitlines()`: "\r\n" is one boundary, a final boundary does not
      open an empty last line, and the empty string has no lines. */
  function SplitLines(s: string): (lines: seq<string>)
    ensures forall k :: 0 <= k < |lines| ==> NoLineBreak(lines[k])
    decreases |s|
  {
    if s == [] then []
    else
      var i := LineEnd(s);
      if i == |s| then [s]
      else
        var width := if s[i] == '\r' && i + 1 < |s| && s[i + 1] == '\n' then 2 else 1;
        [s[..i]] + SplitLines(s[i + width..])
  }

  lemma LineEndAtBreak(a: string, b: string)
    requires NoLineBreak(a)
    ensures LineEnd(a + "\n" + b) == |a|
    decreases |a|
  {
    if a != [] {
      assert (a + "\n" + b)[1..] == a[1..] + "\n" + b;
      LineEndAtBreak(a[1..], b);
    }
  }

  /** Joining lines with "\n" and splitting again gives the lines back, when
      no line holds a boundary and the last line is not empty. */
  lemma {:induction false} SplitLinesJoin(lines: seq<string>)
    requires lines != [] && lines[|lines| - 1] != []
    requires forall k :: 0 <= k < |lines| ==> NoLineBreak(lines[k])
    ensures SplitLines(Join("\n", lines)) == lines
  {
    if |lines| == 1 {
      var s := lines[0];
      assert LineEnd(s) == |s|;
    } else {
      var rest := Join("\n", lines[1..]);
      var s := lines[0] + "\n" + rest;
      assert Join("\n", lines) == s;
      LineEndAtBreak(lines[0], rest);
      assert s[..|lines[0]|] == lines[0];
      assert s[|lines[0]| + 1..] == rest;
      SplitLinesJoin(lines[1..]);
      assert lines == [lines[0]] + lines[1..];
    }
  }

  // ---------------------------------------------------------------------
  // Decimal numerals: `str(n)` and `int(s)`
  // ---------------------------------------------------------------------

  predicate IsDigit(c: char) { '0' <= c <= '9' }

  function DigitChar(d: nat): char
    requires d < 10
  {
    ('0' as int + d) as char
  }

  function DigitValue(c: char): nat
    requires IsDigit(c)
  {
    c as int - '0' as int
  }

  predicate AllDigits(s: string) {
    forall j :: 0 <= j < |s| ==> IsDigit(s[j])
  }

  /** `str(n)` for a natural number */
  function NatToString(n: nat): (s: string)
    ensures s != [] && AllDigits(s)
  {
    if n < 10 then [DigitChar(n)] else NatToString(n / 10) + [DigitChar(n % 10)]
  }

  /** `str(n)` */
  function IntToString(n: int): string {
    if n < 0 then "-" + NatToString(-n) else NatToString(n)
  }

  /** The value of a string of decimal digits */
  function DecimalValue(ds: string): nat
    requires AllDigits(ds)
  {
    if ds == [] then 0 else 10 * DecimalValue(ds[..|ds| - 1]) + DigitValue(ds[|ds| - 1])
  }

  predicate DigitsOrUnderscores(s: string) {
    forall j :: 0 <= j < |s| ==> IsDigit(s[j]) || s[j] == '_'
  }

  /** Digits, with single underscores allowed between two digits, as the
      integer literal that `int(s)` accepts in base 10 */
  predicate IsNumeral(s: string) {
    && s != [] && IsDigit(s[0]) && IsDigit(s[|s| - 1]) && DigitsOrUnderscores(s)
    && forall j :: 0 < j < |s| && s[j] == '_' ==> IsDigit(s[j - 1])
  }

  /** The numeral without its underscores */
  function Digits(s: string): (ds: string)
    requires DigitsOrUnderscores(s)
    ensures AllDigits(ds)
  {
    if s == [] then []
    else if s[|s| - 1] == '_' then Digits(s[..|s| - 1])
    else Digits(s[..|s| - 1]) + [s[|s| - 1]]
  }

  /** Python's `int(s)` on a string in base 10: surrounding whitespace,
      one optional sign, then a numeral; `None` where Python raises
      `ValueError`. */
  function ParseInt(s: string): Option<int> {
    ParseTrimmed(Strip(s))
  }

  /** `int(t)` once the surrounding whitespace is gone */
  function ParseTrimmed(t: string): Option<int> {
    var signed := t != [] && (t[0] == '-' || t[0] == '+');
    var body := if signed then t[1..] else t;
    if !IsNumeral(body) then None
    else
      var v: int := DecimalValue(Digits(body));
      Some(if signed && t[0] == '-' then -v else v)
  }

  lemma {:induction false} DecimalValueOfNatToString(n: nat)
    ensures DecimalValue(NatToString(n)) == n
  {
    if n >= 10 {
      var s := NatToString(n);
      assert s[..|s| - 1] == NatToString(n / 10);
      DecimalValueOfNatToString(n / 10);
    }
  }

  lemma {:induction false} DigitsOfDigitString(s: string)
    requires AllDigits(s)
    ensures Digits(s) == s
  {
    if s != [] {
      DigitsOfDigitString(s[..|s| - 1]);
      assert s == s[..|s| - 1] + [s[|s| - 1]];
    }
  }

  lemma NumeralOfDigits(ds: string)
    requires ds != [] && AllDigits(ds)
    ensures IsNumeral(ds)
  {
  }

  lemma ParseTrimmedNegative(ds: string)
    requires ds != [] && AllDigits(ds)
    ensures ParseTrimmed("-" + ds) == Some(-(DecimalValue(ds) as int))
  {
    var t := "-" + ds;
    assert t[1..] == ds;
    NumeralOfDigits(ds);
    DigitsOfDigitString(ds);
  }

  lemma ParseTrimmedPlain(ds: string)
    requires ds != [] && AllDigits(ds)
    ensures ParseTrimmed(ds) == Some(DecimalValue(ds) as int)
  {
    assert IsDigit(ds[0]);
    NumeralOfDigits(ds);
    DigitsOfDigitString(ds);
  }

  lemma NegativeDigitsTrimmed(ds: string)
    requires ds != [] && AllDigits(ds)
    ensures Strip("-" + ds) == "-" + ds
  {
    var t := "-" + ds;
    assert t[|t| - 1] == ds[|ds| - 1];
    StripUnchanged(t);
  }

  lemma ParseIntOfNegativeDigits(ds: string)
    requires ds != [] && AllDigits(ds)
    ensures ParseInt("-" + ds) == Some(-(DecimalValue(ds) as int))
  {
    NegativeDigitsTrimmed(ds);
    ParseTrimmedNegative(ds);
  }

  lemma ParseIntOfPlainDigits(ds: string)
    requires ds != [] && AllDigits(ds)
    ensures ParseInt(ds) == Some(DecimalValue(ds) as int)
  {
    assert IsDigit(ds[0]) && IsDigit(ds[|ds| - 1]);
    StripUnchanged(ds);
    ParseTrimmedPlain(ds);
  }

  /** `int(str(n)) == n`: the decimal rendering of an integer is read back
      as the same integer. */
  lemma ParseIntOfIntToString(n: int)
    ensures ParseInt(IntToString(n)) == Some(n)
  {
    var m := if n < 0 then -n else n;
    DecimalValueOfNatToString(m);
    if n < 0 {
      ParseIntOfNegativeDigits(NatToString(m));
    } else {
      ParseIntOfPlainDigits(NatToString(m));
    }
  }
}
