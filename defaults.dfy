/** `getDefaultValueByType`: a blank value of the same shape as an example,
    used to seed a new record from an existing one. Objects keep every key and
    are blanked recursively; arrays become empty; strings become a fresh date,
    a sample e-mail address or the empty string. */
module Defaults {
  import opened Text
  import opened JsonValue
  import opened JsPlatform
  import opened DateDetect

  const SampleEmail := "nuevo@ejemplo.com"

  /** The blank counterpart of a string example. */
  function DefaultString(env: Env, s: string): (r: string)
    ensures UtilsDetect(env, JStr(s)).IsDate? && UtilsDetect(env, JStr(s)).hasTime ==> r == env.nowIso
    ensures UtilsDetect(env, JStr(s)).IsDate? && !UtilsDetect(env, JStr(s)).hasTime ==> r == BeforeFirst(env.nowIso, 'T')
    ensures UtilsDetect(env, JStr(s)).NotDate? ==> (r == SampleEmail <==> '@' in s && '.' in s)
    ensures UtilsDetect(env, JStr(s)).NotDate? && r != SampleEmail ==> r == ""
  {
    var info := UtilsDetect(env, JStr(s));
    if info.IsDate? then
      if info.hasTime then env.nowIso else BeforeFirst(env.nowIso, 'T')
    else if ContainsChar(s, '@') && ContainsChar(s, '.') then SampleEmail
    else ""
  }

  /** `getDefaultValueByType(v)`. Every clock read of one call sees the same instant. */
  function Default(env: Env, v: J): (r: J)
    decreases v
  {
    match v
    case JNull => JStr("")
    case JArr(_) => JArr([])
    case JObj(fields) => JObj(seq(|fields|, i requires 0 <= i < |fields| => (fields[i].0, Default(env, fields[i].1))))
    case JStr(s) => JStr(DefaultString(env, s))
    case JNum(_) => JNum(Fin(0.0))
    case JBool(_) => JBool(false)
  }

  /** The result is an object exactly when the example is one, with the same keys
      in the same order, each holding the blank of the example's value. */
  lemma {:induction false} DefaultKeepsKeys(env: Env, v: J)
    ensures Default(env, v).JObj? <==> v.JObj?
    ensures v.JObj? ==> Keys(Default(env, v).fields) == Keys(v.fields)
    ensures v.JObj? ==> forall i :: 0 <= i < |v.fields| ==> Default(env, v).fields[i].1 == Default(env, v.fields[i].1)
  {
    if v.JObj? {
      var f := v.fields;
      var g := Default(env, v).fields;
      assert |g| == |f|;
      forall i | 0 <= i < |f|
        ensures Keys(g)[i] == Keys(f)[i]
      {
      }
    }
  }

  /** Scalars map to their blank: null to `""`, numbers to `0`, booleans to `false`,
      strings to strings; arrays to `[]`. */
  lemma DefaultOfScalars(env: Env, v: J)
    ensures v.JNull? ==> Default(env, v) == JStr("")
    ensures v.JArr? ==> Default(env, v) == JArr([])
    ensures v.JNum? ==> Default(env, v) == JNum(Fin(0.0))
    ensures v.JBool? ==> Default(env, v) == JBool(false)
    ensures v.JStr? ==> Default(env, v).JStr?
  {
  }

  /** A blank value: no array has items, every number is zero, every boolean is
      false, and every string is empty, the sample address or a clock reading. */
  predicate Blank(env: Env, v: J)
    decreases v
  {
    match v
    case JNull => false
    case JBool(b) => !b
    case JNum(n) => n == Fin(0.0)
    case JStr(s) => s == "" || s == SampleEmail || s == env.nowIso || s == BeforeFirst(env.nowIso, 'T')
    case JArr(items) => items == []
    case JObj(fields) => forall i :: 0 <= i < |fields| ==> Blank(env, fields[i].1)
  }

  lemma {:induction false} DefaultIsBlank(env: Env, v: J)
    ensures Blank(env, Default(env, v))
    decreases v
  {
    match v
    case JObj(fields) =>
      var g := Default(env, v).fields;
      forall i | 0 <= i < |g|
        ensures Blank(env, g[i].1)
      {
        assert fields[i] in fields;
        DefaultIsBlank(env, fields[i].1);
      }
    case _ =>
  }

  /** The blank of a well-formed object is well formed: keys stay distinct. */
  lemma {:induction false} DefaultKeepsWf(env: Env, v: J)
    requires Wf(v)
    ensures Wf(Default(env, v))
    decreases v
  {
    match v
    case JObj(fields) =>
      var g := Default(env, v).fields;
      DefaultKeepsKeys(env, v);
      forall i | 0 <= i < |g|
        ensures Wf(g[i].1)
      {
        assert fields[i] in fields;
        DefaultKeepsWf(env, fields[i].1);
      }
      forall i, j | 0 <= i < j < |g|
        ensures g[i].0 != g[j].0
      {
        assert g[i].0 == Keys(g)[i] == Keys(fields)[i];
        assert g[j].0 == Keys(g)[j] == Keys(fields)[j];
      }
    case _ =>
  }

  /** When the clock's text is a `YYYY-MM-DDTHH:MM:SS.sssZ` timestamp that the
      runtime reads back, and so is its date part, blanking a blank value of
      that clock changes nothing. */
  lemma {:induction false} DefaultIdempotent(env: Env, v: J)
    requires FullMatch(env.nowIso, IsoDateTimeMillisZ)
    requires env.parseDate(JStr(env.nowIso)).ValidDate?
    requires env.parseDate(JStr(BeforeFirst(env.nowIso, 'T'))).ValidDate?
    ensures Default(env, Default(env, v)) == Default(env, v)
    decreases v
  {
    match v
    case JObj(fields) =>
      var g := Default(env, v).fields;
      var h := Default(env, Default(env, v)).fields;
      assert |h| == |g|;
      forall i | 0 <= i < |g|
        ensures h[i] == g[i]
      {
        assert fields[i] in fields;
        DefaultIdempotent(env, fields[i].1);
      }
    case JStr(s) =>
      StringIdempotent(env, s);
    case JNull =>
      StringIdempotent(env, "");
    case _ =>
  }

  lemma StringIdempotent(env: Env, s: string)
    requires FullMatch(env.nowIso, IsoDateTimeMillisZ)
    requires env.parseDate(JStr(env.nowIso)).ValidDate?
    requires env.parseDate(JStr(BeforeFirst(env.nowIso, 'T'))).ValidDate?
    ensures DefaultString(env, DefaultString(env, s)) == DefaultString(env, s)
  {
    var now := env.nowIso;
    IsoTimestampDatePart(now);
    MillisImpliesSeconds(now);
    var today := BeforeFirst(now, 'T');
    assert UtilsDetect(env, JStr(now)).IsDate? && UtilsDetect(env, JStr(now)).hasTime;
    assert !PrefixMatch(today, IsoDateTime);
    assert UtilsDetect(env, JStr(today)).IsDate? && !UtilsDetect(env, JStr(today)).hasTime;
    assert !UtilsShape(SampleEmail) by {
      assert !SymMatches(Digit, SampleEmail[0]);
    }
    assert '@' in SampleEmail && '.' in SampleEmail by {
      assert SampleEmail[5] == '@' && SampleEmail[13] == '.';
    }
    assert !UtilsShape("");
  }
}
