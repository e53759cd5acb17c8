/** The forgiving number converters of the two invoice mappers: they never
    raise, and turn whatever the extraction produced into an int or a
    Decimal, with a fixed fallback for what they cannot read. */
module PyConvert {
  import opened Wrappers
  import opened Text
  import opened PyValue

  /** `int(x)` for a float: truncation toward zero. */
  function TruncateTowardZero(x: real): (n: int)
    ensures x >= 0.0 ==> n as real <= x < n as real + 1.0
    ensures x < 0.0 ==> n as real - 1.0 < x <= n as real
  {
    if x >= 0.0 then x.Floor else -((-x).Floor)
  }

  /** The characters `re.sub(r'[^\d.-]', '', s)` keeps. */
  predicate NumericChar(c: char) { IsDigit(c) || c == '.' || c == '-' }

  function KeepNumeric(s: string): (r: string)
    ensures |r| <= |s|
    ensures forall i :: 0 <= i < |r| ==> NumericChar(r[i])
    ensures (forall i :: 0 <= i < |s| ==> NumericChar(s[i])) ==> r == s
  {
    if s == [] then []
    else (if NumericChar(s[0]) then [s[0]] else []) + KeepNumeric(s[1..])
  }

  /** `int(float(c))` for a string of digits, points and minus signs: an
      optional leading minus, then digits with at most one point and at
      least one digit. `None` where `float` raises `ValueError`. */
  function TruncatedFloat(c: string): (r: Option<int>)
  {
    var neg := c != [] && c[0] == '-';
    var body := if neg then c[1..] else c;
    var whole := BeforeFirst(body, '.');
    if |whole| == |body| then
      if body != [] && AllDigits(body) then (var n: int := DigitsValue(body); Some(if neg then -n else n)) else None
    else
      var frac := body[|whole| + 1..];
      if AllDigits(whole) && AllDigits(frac) && (whole != [] || frac != [])
      then (var n: int := DigitsValue(whole); Some(if neg then -n else n))
      else None
  }

  /** What the string branch of `_safe_int_convert` reads: the text without
      commas, reduced to digits, points and minus signs. */
  function IntText(s: string): string
  {
    KeepNumeric(ReplaceChar(s, ',', ""))
  }

  /** `_safe_int_convert(v)`; `fallback` is 1 in the weekly-invoice mapper
      and 0 in the trip mapper. A `bool` is an `int` to Python and is kept. */
  function SafeInt(v: V, fallback: int): (n: int)
    ensures v.VInt? ==> n == v.i
    ensures v.VBool? ==> n == (if v.b then 1 else 0)
    ensures v.VFloat? ==> n == TruncateTowardZero(v.x)
    ensures v.VStr? && TruncatedFloat(IntText(v.s)).None? ==> n == fallback
    ensures v.VStr? && TruncatedFloat(IntText(v.s)).Some? ==> n == TruncatedFloat(IntText(v.s)).value
    ensures !(v.VInt? || v.VBool? || v.VFloat? || v.VStr?) ==> n == fallback
  {
    match v
    case VBool(b) => if b then 1 else 0
    case VInt(i) => i
    case VFloat(x) => TruncateTowardZero(x)
    case VStr(s) =>
      var clean := IntText(s);
      if clean == [] then fallback
      else (match TruncatedFloat(clean) case Some(n) => n case None => fallback)
    case _ => fallback
  }

  /** An integer written in decimal reads back as itself. */
  lemma SafeIntReadsIntegers(n: int, fallback: int)
    ensures SafeInt(VStr(IntToString(n)), fallback) == n
  {
    var m: nat := if n < 0 then -n else n;
    var digits := NatToString(m);
    NatToStringValue(m);
    DigitsReadBack(digits);
    var s := IntToString(n);
    if n < 0 {
      assert s == "-" + digits;
      assert forall i :: 1 <= i < |s| ==> s[i] == digits[i - 1];
    }
    NumericTextKept(s);
  }

  /** A digit string, with or without a leading minus, reads as its value. */
  lemma DigitsReadBack(d: string)
    requires d != [] && AllDigits(d)
    ensures TruncatedFloat(d) == Some(DigitsValue(d))
    ensures TruncatedFloat("-" + d) == Some(0 - DigitsValue(d))
  {
    assert '.' !in d by {
      forall i | 0 <= i < |d|
        ensures d[i] != '.'
      {
        assert IsDigit(d[i]);
      }
    }
    assert d[0] != '-' by { assert IsDigit(d[0]); }
    assert ("-" + d)[1..] == d;
  }

  /** Text made of digits and minus signs is read as it is. */
  lemma NumericTextKept(s: string)
    requires forall i :: 0 <= i < |s| ==> IsDigit(s[i]) || s[i] == '-'
    ensures IntText(s) == s
  {
    assert ',' !in s by {
      forall i | 0 <= i < |s|
        ensures s[i] != ','
      {
      }
    }
  }

  /** Everything but digits, points and minus signs is ignored. */
  lemma SafeIntIgnoresOtherCharacters(s: string, fallback: int)
    ensures SafeInt(VStr(s), fallback) == SafeInt(VStr(IntText(s)), fallback)
  {
    var c := IntText(s);
    assert ',' !in c by {
      forall i | 0 <= i < |c|
        ensures c[i] != ','
      {
        assert NumericChar(c[i]);
      }
    }
    assert ReplaceChar(c, ',', "") == c;
    assert KeepNumeric(c) == c;
  }

  /** What `_safe_decimal_convert` hands to `Decimal` for a string: no commas,
      no dollar signs, no surrounding white space. */
  function DecimalText(s: string): string
  {
    PyStrip(ReplaceChar(ReplaceChar(s, ',', ""), '$', ""))
  }

  /** `_safe_decimal_convert(v)`: never raises; 0.00 where `Decimal` cannot
      read the value. `Decimal(str(True))` raises, so booleans give 0.00. */
  function SafeDecimal(env: PyEnv, v: V): (d: real)
    ensures v.VDecimal? ==> d == v.d
    ensures v.VInt? ==> d == v.i as real
    ensures v.VFloat? ==> d == v.x
    ensures v.VBool? ==> d == 0.0
    ensures v.VStr? && DecimalText(v.s) == [] ==> d == 0.0
    ensures v.VStr? && DecimalText(v.s) != [] && env.parseDecimal(DecimalText(v.s)).None? ==> d == 0.0
    ensures v.VStr? && env.parseDecimal(DecimalText(v.s)).Some? && DecimalText(v.s) != []
      ==> d == env.parseDecimal(DecimalText(v.s)).value
    ensures !(v.VDecimal? || v.VInt? || v.VFloat? || v.VBool?) ==>
      var c := DecimalText(Display(env, v));
      (c != [] && env.parseDecimal(c).Some? ==> d == env.parseDecimal(c).value)
      && (c == [] || env.parseDecimal(c).None? ==> d == 0.0)
  {
    match v
    case VDecimal(x) => x
    case VInt(i) => i as real
    case VFloat(x) => x
    case VBool(_) => 0.0
    case _ =>
      var clean := DecimalText(Display(env, v));
      if clean == [] then 0.0
      else (match env.parseDecimal(clean) case Some(x) => x case None => 0.0)
  }

  lemma PyStripIdempotent(s: string)
    ensures PyStrip(PyStrip(s)) == PyStrip(s)
  {
    var t := TrimStart(s, IsPySpace);
    var r := PyStrip(s);
    if r != [] {
      assert r[0] == t[0];
      assert TrimStart(r, IsPySpace) == r;
    }
  }

  /** Cleaning the text a second time changes nothing, so commas, dollar signs
      and surrounding white space never change the amount read. */
  lemma SafeDecimalIgnoresSymbols(env: PyEnv, s: string)
    ensures SafeDecimal(env, VStr(s)) == SafeDecimal(env, VStr(DecimalText(s)))
  {
    DecimalTextFixed(s);
  }

  lemma DecimalTextFixed(s: string)
    ensures DecimalText(DecimalText(s)) == DecimalText(s)
  {
    var c := DecimalText(s);
    var u := ReplaceChar(ReplaceChar(s, ',', ""), '$', "");
    assert ',' !in u by {
      NoCharAfterReplace(ReplaceChar(s, ',', ""), '$', ',');
    }
    assert ',' !in c && '$' !in c by {
      forall i | 0 <= i < |c|
        ensures c[i] in u
      {
        TrimStartSuffix(u, IsPySpace);
        var t := TrimStart(u, IsPySpace);
        assert c[i] == t[i];
        assert t[i] == u[|u| - |t| + i];
      }
    }
    assert ReplaceChar(ReplaceChar(c, ',', ""), '$', "") == c;
    PyStripIdempotent(u);
  }

  lemma {:induction false} NoCharAfterReplace(s: string, c: char, other: char)
    requires other !in s
    ensures other !in ReplaceChar(s, c, "")
  {
    if s != [] {
      NoCharAfterReplace(s[1..], c, other);
    }
  }
}
