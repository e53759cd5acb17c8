/** Character classes and string helpers shared by the front end (JavaScript
    semantics) and the back end (Python semantics). Strings are sequences of
    Unicode scalar values. */
module Text {

  predicate IsDigit(c: char) { '0' <= c <= '9' }

  function DigitValue(c: char): (d: nat)
    requires IsDigit(c)
    ensures d < 10
  {
    (c as int) - ('0' as int)
  }

  function DigitChar(d: nat): (c: char)
    requires d < 10
    ensures IsDigit(c) && DigitValue(c) == d
  {
    ((d + '0' as int) as char)
  }

  predicate AllDigits(s: string) { forall i :: 0 <= i < |s| ==> IsDigit(s[i]) }

  /** Decimal value of a digit string, most significant digit first. */
  function DigitsValue(s: string): nat
    requires AllDigits(s)
  {
    if s == [] then 0 else DigitsValue(s[..|s| - 1]) * 10 + DigitValue(s[|s| - 1])
  }

  /** Decimal rendering of a natural number, without leading zeros. */
  function NatToString(n: nat): (s: string)
    ensures |s| >= 1 && AllDigits(s)
    ensures n < 10 ==> |s| == 1
    ensures n >= 10 ==> |s| >= 2
  {
    if n < 10 then [DigitChar(n)] else NatToString(n / 10) + [DigitChar(n % 10)]
  }

  lemma {:induction false} NatToStringValue(n: nat)
    ensures DigitsValue(NatToString(n)) == n
  {
    if n >= 10 {
      var s := NatToString(n);
      assert s[..|s| - 1] == NatToString(n / 10);
      NatToStringValue(n / 10);
    }
  }

  lemma {:induction false} NatToStringLength(n: nat, k: nat)
    requires k >= 1
    ensures (n < Pow10(k)) == (|NatToString(n)| <= k)
  {
    if n >= 10 && k > 1 {
      NatToStringLength(n / 10, k - 1);
    }
  }

  function Pow10(k: nat): (p: nat)
    ensures p >= 1
  {
    if k == 0 then 1 else 10 * Pow10(k - 1)
  }

  /** The keys of a table with string keys (a JavaScript object, a Python
      dict), in order. */
  function Keys<X>(t: seq<(string, X)>): (ks: seq<string>)
    ensures |ks| == |t| && forall i :: 0 <= i < |t| ==> ks[i] == t[i].0
  {
    seq(|t|, i requires 0 <= i < |t| => t[i].0)
  }

  /** No key appears twice. */
  predicate UniqueKeys<X>(t: seq<(string, X)>)
  {
    forall i, j :: 0 <= i < j < |t| ==> t[i].0 != t[j].0
  }

  /** String(n) for an integer n, as JavaScript and Python print integers. */
  function IntToString(n: int): string
  {
    if n < 0 then "-" + NatToString(-n) else NatToString(n)
  }

  /** A four-digit number (a year from 1000 to 9999) prints as four digits
      that read back as the number. */
  lemma FourDigitText(n: int)
    requires 1000 <= n <= 9999
    ensures |IntToString(n)| == 4 && AllDigits(IntToString(n)) && DigitsValue(IntToString(n)) == n
  {
    NatToStringLength(n, 4);
    NatToStringLength(n, 3);
    NatToStringValue(n);
  }

  /** String(n).padStart(2, '0') for a non-negative integer. */
  function Pad2(n: nat): (s: string)
    ensures AllDigits(s) && |s| >= 2
    ensures n < 100 ==> |s| == 2 && DigitsValue(s) == n
  {
    NatToStringValue(n);
    if n < 10 then "0" + NatToString(n) else NatToString(n)
  }

  predicate StartsWith(s: string, prefix: string)
  {
    |prefix| <= |s| && s[..|prefix|] == prefix
  }

  /** `s.includes(p)` / Python `p in s`. */
  predicate Contains(s: string, p: string)
    decreases |s|
  {
    StartsWith(s, p) || (|s| > 0 && Contains(s[1..], p))
  }

  lemma {:induction false} ContainsAt(s: string, p: string, i: nat)
    requires i + |p| <= |s| && s[i..i + |p|] == p
    ensures Contains(s, p)
  {
    if i > 0 {
      assert s[1..][i - 1..i - 1 + |p|] == s[i..i + |p|];
      ContainsAt(s[1..], p, i - 1);
    }
  }

  lemma {:induction false} ContainsWitness(s: string, p: string) returns (i: nat)
    requires Contains(s, p)
    ensures i + |p| <= |s| && s[i..i + |p|] == p
    decreases |s|
  {
    if StartsWith(s, p) {
      i := 0;
    } else {
      var j := ContainsWitness(s[1..], p);
      i := j + 1;
      assert s[i..i + |p|] == s[1..][j..j + |p|];
    }
  }

  predicate ContainsChar(s: string, c: char) { c in s }

  /** Whitespace as JavaScript's `\s` and `String.prototype.trim` see it. */
  predicate IsJsSpace(c: char)
  {
    var n := c as int;
    n == 0x09 || n == 0x0A || n == 0x0B || n == 0x0C || n == 0x0D || n == 0x20 || n == 0xA0
    || n == 0x1680 || (0x2000 <= n <= 0x200A) || n == 0x2028 || n == 0x2029
    || n == 0x202F || n == 0x205F || n == 0x3000 || n == 0xFEFF
  }

  /** Whitespace as Python's `str.isspace` and `str.strip()` see it. */
  predicate IsPySpace(c: char)
  {
    var n := c as int;
    (0x09 <= n <= 0x0D) || (0x1C <= n <= 0x1F) || n == 0x20 || n == 0x85 || n == 0xA0
    || n == 0x1680 || (0x2000 <= n <= 0x200A) || n == 0x2028 || n == 0x2029
    || n == 0x202F || n == 0x205F || n == 0x3000
  }

  function TrimStart(s: string, isSpace: char -> bool): (r: string)
    ensures |r| <= |s|
    ensures r != [] ==> !isSpace(r[0])
  {
    if s != [] && isSpace(s[0]) then TrimStart(s[1..], isSpace) else s
  }

  /** What `TrimStart` removes is a run of spaces at the front, and nothing else. */
  lemma {:induction false} TrimStartSuffix(s: string, isSpace: char -> bool)
    ensures TrimStart(s, isSpace) == s[|s| - |TrimStart(s, isSpace)|..]
    ensures forall i :: 0 <= i < |s| - |TrimStart(s, isSpace)| ==> isSpace(s[i])
  {
    if s != [] && isSpace(s[0]) {
      TrimStartSuffix(s[1..], isSpace);
    }
  }

  function TrimEnd(s: string, isSpace: char -> bool): (r: string)
    ensures |r| <= |s| && r == s[..|r|]
    ensures r != [] ==> !isSpace(r[|r| - 1])
    ensures forall i :: |r| <= i < |s| ==> isSpace(s[i])
  {
    if s != [] && isSpace(s[|s| - 1]) then TrimEnd(s[..|s| - 1], isSpace) else s
  }

  /** `s.trim()` in JavaScript. */
  function JsTrim(s: string): string { TrimEnd(TrimStart(s, IsJsSpace), IsJsSpace) }

  /** `s.strip()` in Python. */
  function PyStrip(s: string): string { TrimEnd(TrimStart(s, IsPySpace), IsPySpace) }

  lemma {:induction false} TrimEmptyIffAllSpace(s: string, isSpace: char -> bool)
    ensures (TrimEnd(TrimStart(s, isSpace), isSpace) == []) <==> (forall i :: 0 <= i < |s| ==> isSpace(s[i]))
  {
    var t := TrimStart(s, isSpace);
    TrimStartSuffix(s, isSpace);
    if t != [] {
      assert !isSpace(s[|s| - |t|]);
      assert TrimEnd(t, isSpace) != [];
    }
  }

  /** Letter case folding for the ASCII range; other characters are kept. */
  function LowerChar(c: char): char
  {
    if 'A' <= c <= 'Z' then ((c as int) + 32) as char else c
  }

  function Lower(s: string): (r: string)
    ensures |r| == |s| && forall i :: 0 <= i < |s| ==> r[i] == LowerChar(s[i])
  {
    seq(|s|, i requires 0 <= i < |s| => LowerChar(s[i]))
  }

  /** Python `str.lower()` as far as it produces ASCII letters: `A`-`Z`, the
      Kelvin sign (to `k`) and the capital I with dot above (to `i` and a
      combining dot). Every other character is kept as it is; Python maps some
      of them to other non-ASCII letters, which changes no search for ASCII text. */
  function PyLower(s: string): (r: string)
    ensures |r| >= |s|
    ensures (forall i :: 0 <= i < |s| ==> s[i] as int < 0x80) ==> r == Lower(s)
  {
    if s == [] then []
    else
      var c := s[0];
      var head := if c as int == 0x130 then "i\U{0307}" else if c as int == 0x212A then "k" else [LowerChar(c)];
      head + PyLower(s[1..])
  }

  /** Python `s.replace(c, r)` for a one-character pattern. */
  function ReplaceChar(s: string, c: char, r: string): (t: string)
    ensures r == [] ==> c !in t
    ensures c !in s ==> t == s
  {
    if s == [] then []
    else (if s[0] == c then r else [s[0]]) + ReplaceChar(s[1..], c, r)
  }

  /** `s.split(sep)[0]` for a one-character separator: the text before the first `sep`. */
  function BeforeFirst(s: string, sep: char): (r: string)
    ensures |r| <= |s| && r == s[..|r|] && sep !in r
    ensures |r| < |s| ==> s[|r|] == sep
  {
    if s == [] || s[0] == sep then [] else [s[0]] + BeforeFirst(s[1..], sep)
  }
}
