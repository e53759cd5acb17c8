/** The trip-receipt side of the extraction back end: the guards of
    `process_facture_trip_invoice` and `_map_to_pydantic_format`, which turns
    the language model's answer into the fields of a trip receipt: thirteen
    stripped strings, two integers, ten amounts, the net-weight rule and three
    dates, with backup dates read from the original text. */
module TripProcessor {
  import opened Wrappers
  import opened Text
  import opened Calendar
  import opened PyValue
  import opened PyConvert

  const StringFields: seq<string> := [
    "name_business", "business_region", "business_ubication", "key",
    "code_facture", "type_material", "type_movement", "type_document",
    "proveedor", "name_transport", "name_operator", "plates", "ubication_trip"]

  const IntFields: seq<string> := ["cuantity_bales", "container"]

  const FloatFields: seq<string> := [
    "gross_weight", "tare_weight", "net_weight", "not_suitable",
    "forbiden_weight", "humidity", "kg_desc_not_suitable",
    "kg_desc_forbiden", "kg_desc_humidity", "kg_desc_accepted_weight"]

  const DateFields: seq<string> := ["date_entry", "date_exit", "recibes_trip"]

  /** The formats `_parse_flexible_date` tries, in order. */
  const DateFormats: seq<string> := [
    "%Y-%m-%d %H:%M:%S", "%Y-%m-%dT%H:%M:%S", "%Y-%m-%d",
    "%d/%m/%Y %H:%M:%S", "%d/%m/%Y %I:%M:%S%p",
    "%m/%d/%Y %H:%M:%S", "%m/%d/%Y %I:%M:%S%p",
    "%d %b %Y", "%d %B %Y"]

  /** The patterns the backup dates are searched with, each with the format
      its matches are read with. */
  const BackupPatterns: seq<(string, string)> := [
    (@"(\d{1,2}/\d{1,2}/\d{4}\s+\d{1,2}:\d{2}:\d{2}[AP]M)", "%m/%d/%Y %I:%M:%S%p"),
    (@"(\d{1,2}/\d{1,2}/\d{4})", "%d/%m/%Y"),
    (@"(\d{1,2}\s+[A-Z]{3}\s+\d{4})", "%d %b %Y"),
    (@"(\d{4}-\d{2}-\d{2})", "%Y-%m-%d")]

  /** No field is listed in two groups. */
  lemma FieldGroupsDisjoint()
    ensures forall f :: f in StringFields ==> f !in IntFields && f !in FloatFields && f !in DateFields
    ensures forall f :: f in IntFields ==> f !in FloatFields && f !in DateFields
    ensures forall f :: f in FloatFields ==> f !in DateFields
  {
  }

  // ---- Converters ----

  /** `_safe_float_convert(v)`: never raises; 0.0 where `float` cannot read
      the value. A `bool` is an `int` to Python. */
  function SafeFloat(env: PyEnv, v: V): (x: real)
    ensures v.VInt? ==> x == v.i as real
    ensures v.VBool? ==> x == (if v.b then 1.0 else 0.0)
    ensures v.VFloat? ==> x == v.x
    ensures v.VStr? && (DecimalText(v.s) == [] || env.parseFloat(DecimalText(v.s)).None?) ==> x == 0.0
    ensures !(v.VInt? || v.VBool? || v.VFloat? || v.VStr?) ==> x == 0.0
  {
    match v
    case VBool(b) => if b then 1.0 else 0.0
    case VInt(i) => i as real
    case VFloat(x) => x
    case VStr(s) =>
      var clean := DecimalText(s);
      if clean == [] then 0.0
      else (match env.parseFloat(clean) case Some(x) => x case None => 0.0)
    case _ => 0.0
  }

  /** Commas, dollar signs and surrounding white space never change the amount read. */
  lemma SafeFloatIgnoresSymbols(env: PyEnv, s: string)
    ensures SafeFloat(env, VStr(s)) == SafeFloat(env, VStr(DecimalText(s)))
  {
    DecimalTextFixed(s);
  }

  // ---- The field loops ----

  /** `for field in fields: mapped_data[field] = value(field)`. */
  function AssignAll(d: Dict, fields: seq<string>, value: string -> V): Dict
    decreases |fields|
  {
    if fields == [] then d
    else AssignAll(Set(d, fields[0], value(fields[0])), fields[1..], value)
  }

  /** After the loop every listed field holds its value. */
  lemma {:induction false} AssignAllValue(d: Dict, fields: seq<string>, value: string -> V, f: string)
    requires f in fields
    ensures Get(AssignAll(d, fields, value), f) == Some(value(f))
    decreases |fields|
  {
    var d1 := Set(d, fields[0], value(fields[0]));
    if f in fields[1..] {
      AssignAllValue(d1, fields[1..], value, f);
    } else {
      assert f == fields[0];
      AssignAllFrame(d1, fields[1..], value, f);
      GetSet(d, fields[0], value(fields[0]), f);
    }
  }

  /** The loop leaves every other key alone. */
  lemma {:induction false} AssignAllFrame(d: Dict, fields: seq<string>, value: string -> V, k: string)
    requires k !in fields
    ensures Get(AssignAll(d, fields, value), k) == Get(d, k)
    decreases |fields|
  {
    if fields != [] {
      GetSet(d, fields[0], value(fields[0]), k);
      AssignAllFrame(Set(d, fields[0], value(fields[0])), fields[1..], value, k);
    }
  }

  method AssignFields(d: Dict, fields: seq<string>, value: string -> V) returns (r: Dict)
    ensures r == AssignAll(d, fields, value)
  {
    r := d;
    var i := 0;
    while i < |fields|
      invariant 0 <= i <= |fields|
      invariant AssignAll(r, fields[i..], value) == AssignAll(d, fields, value)
    {
      assert fields[i..][1..] == fields[i + 1..];
      r := Set(r, fields[i], value(fields[i]));
      i := i + 1;
    }
  }

  /** A string field: `""` for a missing or null value, else `str(value).strip()`. */
  function StringField(env: PyEnv, ai: Dict, f: string): (v: V)
    ensures v.VStr? && PyStrip(v.s) == v.s
    ensures GetOr(ai, f, VNone) == VNone ==> v == VStr("")
    ensures GetOr(ai, f, VNone).VStr? ==> v == VStr(PyStrip(GetOr(ai, f, VNone).s))
  {
    var x := GetOr(ai, f, VNone);
    if x == VNone then VStr("")
    else
      PyStripIdempotent(Display(env, x));
      VStr(PyStrip(Display(env, x)))
  }

  /** An integer field; 0 when absent or unreadable. */
  function IntField(ai: Dict, f: string): V
  {
    VInt(SafeInt(GetOr(ai, f, VInt(0)), 0))
  }

  /** The amount a decimal field reads as; 0.0 when absent or unreadable. */
  function FloatAmount(env: PyEnv, ai: Dict, f: string): real
  {
    SafeFloat(env, GetOr(ai, f, VFloat(0.0)))
  }

  function StringValues(env: PyEnv, ai: Dict): string -> V { f => StringField(env, ai, f) }

  function IntValues(ai: Dict): string -> V { f => IntField(ai, f) }

  function FloatValues(env: PyEnv, ai: Dict): string -> V { f => VFloat(FloatAmount(env, ai, f)) }

  /** The strings, integers and amounts, before the net-weight rule. */
  function Scalars(env: PyEnv, ai: Dict): Dict
  {
    AssignAll(AssignAll(AssignAll([], StringFields, StringValues(env, ai)), IntFields, IntValues(ai)), FloatFields, FloatValues(env, ai))
  }

  /** The net weight the rule puts in place of `net`, if it applies: a zero
      or missing net weight becomes gross minus tare when both are non-zero
      (all three are floats by then). */
  function FilledNet(net: V, gross: V, tare: V): (r: Option<V>)
    ensures net.VFloat? && gross.VFloat? && tare.VFloat? ==>
      (r.Some? <==> net.x == 0.0 && gross.x != 0.0 && tare.x != 0.0)
    ensures r.Some? ==> gross.VFloat? && tare.VFloat? && r.value == VFloat(gross.x - tare.x)
  {
    if (!Truthy(net) || PyEq(net, VInt(0))) && Truthy(gross) && Truthy(tare) && gross.VFloat? && tare.VFloat? then
      Some(VFloat(gross.x - tare.x))
    else None
  }

  /** The net-weight rule applied to the mapped fields. */
  function WithNetWeight(d: Dict): Dict
  {
    match FilledNet(GetOr(d, "net_weight", VNone), GetOr(d, "gross_weight", VNone), GetOr(d, "tare_weight", VNone))
    case Some(net) => Set(d, "net_weight", net)
    case None => d
  }

  // ---- Dates ----

  /** The first of `fmts` that `strptime` accepts `s` with. */
  function FirstParse(env: PyEnv, s: string, fmts: seq<string>): Option<DateTime>
  {
    if fmts == [] then None
    else match env.strptime(s, fmts[0])
      case Some(dt) => Some(dt)
      case None => FirstParse(env, s, fmts[1..])
  }

  /** `FirstParse` fails exactly when every format fails, and otherwise
      answers with the first format that succeeds. */
  lemma {:induction false} FirstParseIsFirst(env: PyEnv, s: string, fmts: seq<string>)
    ensures FirstParse(env, s, fmts).None? <==> forall i :: 0 <= i < |fmts| ==> env.strptime(s, fmts[i]).None?
    ensures FirstParse(env, s, fmts).Some? ==>
      exists i :: 0 <= i < |fmts|
        && env.strptime(s, fmts[i]) == FirstParse(env, s, fmts)
        && forall j :: 0 <= j < i ==> env.strptime(s, fmts[j]).None?
  {
    if fmts != [] && env.strptime(s, fmts[0]).None? {
      FirstParseIsFirst(env, s, fmts[1..]);
      assert forall i :: 1 <= i < |fmts| ==> fmts[i] == fmts[1..][i - 1];
      if FirstParse(env, s, fmts).Some? {
        var i :| 0 <= i < |fmts[1..]| && env.strptime(s, fmts[1..][i]) == FirstParse(env, s, fmts[1..])
          && forall j :: 0 <= j < i ==> env.strptime(s, fmts[1..][j]).None?;
        assert env.strptime(s, fmts[i + 1]) == FirstParse(env, s, fmts);
        assert forall j :: 0 <= j < i + 1 ==> env.strptime(s, fmts[j]).None? by {
          forall j | 0 <= j < i + 1
            ensures env.strptime(s, fmts[j]).None?
          {
            if j > 0 {
              assert fmts[j] == fmts[1..][j - 1];
            }
          }
        }
      }
    }
  }

  /** `_parse_flexible_date`. */
  function FlexibleDate(env: PyEnv, v: V): (r: Option<DateTime>)
    ensures !Truthy(v) ==> r.None?
    ensures v.VDateTime? ==> r == Some(v.dt)
    ensures Truthy(v) && !v.VDateTime? ==> r == FirstParse(env, PyStrip(Display(env, v)), DateFormats)
  {
    if !Truthy(v) then None
    else if v.VDateTime? then Some(v.dt)
    else FirstParse(env, PyStrip(Display(env, v)), DateFormats)
  }

  method ParseFlexibleDate(env: PyEnv, v: V) returns (r: Option<DateTime>)
    ensures r == FlexibleDate(env, v)
  {
    if !Truthy(v) {
      return None;
    }
    var s := PyStrip(Display(env, v));
    if v.VDateTime? {
      return Some(v.dt);
    }
    var i := 0;
    while i < |DateFormats|
      invariant 0 <= i <= |DateFormats|
      invariant FirstParse(env, s, DateFormats[i..]) == FirstParse(env, s, DateFormats)
    {
      var parsed := env.strptime(s, DateFormats[i]);
      if parsed.Some? {
        return parsed;
      }
      assert DateFormats[i..][1..] == DateFormats[i + 1..];
      i := i + 1;
    }
    return None;
  }

  /** The dates `strptime` reads from the matches `ms` with `fmt`, in order;
      the matches it rejects are skipped. */
  function ParsedMatches(env: PyEnv, ms: seq<string>, fmt: string): seq<DateTime>
  {
    if ms == [] then []
    else
      ParsedMatches(env, ms[..|ms| - 1], fmt)
      + (match env.strptime(ms[|ms| - 1], fmt) case Some(dt) => [dt] case None => [])
  }

  /** The dates found with each (pattern, format) pair in turn. */
  function FoundDates(env: PyEnv, text: string, pairs: seq<(string, string)>): seq<DateTime>
  {
    if pairs == [] then []
    else
      var last := pairs[|pairs| - 1];
      FoundDates(env, text, pairs[..|pairs| - 1]) + ParsedMatches(env, env.reFindAll(last.0, text), last.1)
  }

  /** `_extract_all_dates_from_text`: the dates found, in ascending order. */
  function ExtractedDates(env: PyEnv, text: string): seq<DateTime>
  {
    SortAscending(FoundDates(env, text, BackupPatterns))
  }

  /** A date is read from the matches exactly when some match parses to it. */
  lemma {:induction false} ParsedMatchesMembers(env: PyEnv, ms: seq<string>, fmt: string, x: DateTime)
    ensures x in ParsedMatches(env, ms, fmt) <==> exists m :: m in ms && env.strptime(m, fmt) == Some(x)
  {
    if ms != [] {
      var init := ms[..|ms| - 1];
      ParsedMatchesMembers(env, init, fmt, x);
      assert ms == init + [ms[|ms| - 1]];
      if env.strptime(ms[|ms| - 1], fmt) == Some(x) {
        assert exists m :: m in ms && env.strptime(m, fmt) == Some(x);
      }
      if exists m :: m in ms && env.strptime(m, fmt) == Some(x) {
        var m :| m in ms && env.strptime(m, fmt) == Some(x);
        if m != ms[|ms| - 1] {
          assert m in init;
        }
      }
    }
  }

  /** A date is found exactly when one of the pairs reads it from one of its matches. */
  lemma {:induction false} FoundDatesMembers(env: PyEnv, text: string, pairs: seq<(string, string)>, x: DateTime)
    ensures x in FoundDates(env, text, pairs) <==>
      exists i :: 0 <= i < |pairs| && x in ParsedMatches(env, env.reFindAll(pairs[i].0, text), pairs[i].1)
  {
    if pairs != [] {
      var init := pairs[..|pairs| - 1];
      FoundDatesMembers(env, text, init, x);
      assert forall i :: 0 <= i < |init| ==> init[i] == pairs[i];
    }
  }

  /** The backup dates are in ascending order, and are exactly the dates that
      some pattern's match parses to with that pattern's format. */
  lemma ExtractedDatesMembers(env: PyEnv, text: string, x: DateTime)
    ensures SortedAscending(ExtractedDates(env, text))
    ensures x in ExtractedDates(env, text) <==>
      exists i, m :: 0 <= i < |BackupPatterns|
        && m in env.reFindAll(BackupPatterns[i].0, text) && env.strptime(m, BackupPatterns[i].1) == Some(x)
  {
    var found := FoundDates(env, text, BackupPatterns);
    assert x in ExtractedDates(env, text) <==> x in multiset(found);
    FoundDatesMembers(env, text, BackupPatterns, x);
    forall i | 0 <= i < |BackupPatterns|
      ensures x in ParsedMatches(env, env.reFindAll(BackupPatterns[i].0, text), BackupPatterns[i].1)
        <==> exists m :: m in env.reFindAll(BackupPatterns[i].0, text) && env.strptime(m, BackupPatterns[i].1) == Some(x)
    {
      ParsedMatchesMembers(env, env.reFindAll(BackupPatterns[i].0, text), BackupPatterns[i].1, x);
    }
  }

  method ExtractAllDates(env: PyEnv, text: string) returns (dates: seq<DateTime>)
    ensures dates == ExtractedDates(env, text)
  {
    var found: seq<DateTime> := [];
    var i := 0;
    while i < |BackupPatterns|
      invariant 0 <= i <= |BackupPatterns|
      invariant found == FoundDates(env, text, BackupPatterns[..i])
    {
      var pattern, fmt := BackupPatterns[i].0, BackupPatterns[i].1;
      var matches := env.reFindAll(pattern, text);
      var before := found;
      var j := 0;
      while j < |matches|
        invariant 0 <= j <= |matches|
        invariant found == before + ParsedMatches(env, matches[..j], fmt)
      {
        var dt := env.strptime(matches[j], fmt);
        if dt.Some? {
          found := found + [dt.value];
        }
        assert matches[..j + 1][..j] == matches[..j];
        j := j + 1;
      }
      assert matches[..j] == matches;
      assert BackupPatterns[..i + 1][..i] == BackupPatterns[..i];
      i := i + 1;
    }
    assert BackupPatterns[..i] == BackupPatterns;
    dates := SortAscending(found);
  }

  /** The date an unparsable field falls back to: the latest backup for
      `recibes_trip` (`max`, the last of the sorted list), the earliest for the
      others, and the current time when there are none. */
  function Fallback(env: PyEnv, field: string, backups: seq<DateTime>): DateTime
  {
    if field == "recibes_trip" && backups != [] then backups[|backups| - 1]
    else if backups != [] then backups[0]
    else env.now
  }

  lemma FallbackBounds(env: PyEnv, field: string, backups: seq<DateTime>)
    requires SortedAscending(backups)
    ensures backups == [] ==> Fallback(env, field, backups) == env.now
    ensures backups != [] ==> Fallback(env, field, backups) in backups
    ensures backups != [] && field == "recibes_trip" ==>
      forall b :: b in backups ==> NotAfter(b, Fallback(env, field, backups))
    ensures backups != [] && field != "recibes_trip" ==>
      forall b :: b in backups ==> NotAfter(Fallback(env, field, backups), b)
  {
    if backups != [] {
      var n := |backups|;
      forall b | b in backups
        ensures NotAfter(b, backups[n - 1]) && NotAfter(backups[0], b)
      {
        var k :| 0 <= k < n && backups[k] == b;
        if k < n - 1 {
          assert NotAfter(backups[k], backups[n - 1]);
        }
        if 0 < k {
          assert NotAfter(backups[0], backups[k]);
        }
      }
    }
  }

  /** A date field: its parsed value, or the fallback. */
  function DateValue(env: PyEnv, ai: Dict, field: string, backups: seq<DateTime>): DateTime
  {
    match FlexibleDate(env, GetOr(ai, field, VNone))
    case Some(dt) => dt
    case None => Fallback(env, field, backups)
  }

  function DateValues(env: PyEnv, ai: Dict, backups: seq<DateTime>): string -> V
  {
    f => VDateTime(DateValue(env, ai, f, backups))
  }

  /** `ai_data.get('_original_text', '')` as `re.findall` takes it; `None`
      where it raises `TypeError` (not a string). */
  function OriginalText(ai: Dict): (r: Option<string>)
    ensures "_original_text" !in Keys(ai) ==> r == Some("")
  {
    match GetOr(ai, "_original_text", VStr(""))
    case VStr(s) => Some(s)
    case _ => None
  }

  /** `_map_to_pydantic_format`. */
  function TripMapped(env: PyEnv, ai: Dict): Option<Dict>
  {
    match OriginalText(ai)
    case None => None
    case Some(text) => Some(AssignAll(WithNetWeight(Scalars(env, ai)), DateFields, DateValues(env, ai, ExtractedDates(env, text))))
  }

  method MapToPydanticFormat(env: PyEnv, ai: Dict) returns (r: Option<Dict>)
    ensures r == TripMapped(env, ai)
  {
    var mapped := AssignFields([], StringFields, StringValues(env, ai));
    mapped := AssignFields(mapped, IntFields, IntValues(ai));
    mapped := AssignFields(mapped, FloatFields, FloatValues(env, ai));
    mapped := WithNetWeight(mapped);
    var text := OriginalText(ai);
    if text.None? {
      return None;
    }
    var backups := ExtractAllDates(env, text.value);
    mapped := AssignDates(env, ai, mapped, backups);
    return Some(mapped);
  }

  /** The date loop of `_map_to_pydantic_format`. */
  method AssignDates(env: PyEnv, ai: Dict, d: Dict, backups: seq<DateTime>) returns (r: Dict)
    ensures r == AssignAll(d, DateFields, DateValues(env, ai, backups))
  {
    r := d;
    var i := 0;
    while i < |DateFields|
      invariant 0 <= i <= |DateFields|
      invariant AssignAll(r, DateFields[i..], DateValues(env, ai, backups)) == AssignAll(d, DateFields, DateValues(env, ai, backups))
    {
      var f := DateFields[i];
      var parsed := ParseFlexibleDate(env, GetOr(ai, f, VNone));
      var dt := if parsed.Some? then parsed.value else Fallback(env, f, backups);
      assert DateFields[i..][1..] == DateFields[i + 1..];
      r := Set(r, f, VDateTime(dt));
      i := i + 1;
    }
  }

  // ---- What the mapping produces ----

  /** The net-weight rule touches nothing but the net weight. */
  lemma {:induction false} WithNetWeightFrame(d: Dict, k: string)
    requires k != "net_weight"
    ensures Get(WithNetWeight(d), k) == Get(d, k)
  {
    var filled := FilledNet(GetOr(d, "net_weight", VNone), GetOr(d, "gross_weight", VNone), GetOr(d, "tare_weight", VNone));
    if filled.Some? {
      GetSet(d, "net_weight", filled.value, k);
    }
  }

  /** Past the scalar loops, the mapping touches only the net weight and the dates. */
  lemma {:induction false} TripMappedFrame(env: PyEnv, ai: Dict, k: string)
    requires TripMapped(env, ai).Some?
    requires k != "net_weight" && k !in DateFields
    ensures Get(TripMapped(env, ai).value, k) == Get(Scalars(env, ai), k)
  {
    var backups := ExtractedDates(env, OriginalText(ai).value);
    AssignAllFrame(WithNetWeight(Scalars(env, ai)), DateFields, DateValues(env, ai, backups), k);
    WithNetWeightFrame(Scalars(env, ai), k);
  }

  /** Every string field is present, as its stripped text, or `""` when missing or null. */
  lemma {:induction false} TripStrings(env: PyEnv, ai: Dict, f: string)
    requires TripMapped(env, ai).Some? && f in StringFields
    ensures Get(TripMapped(env, ai).value, f) == Some(StringField(env, ai, f))
  {
    FieldGroupsDisjoint();
    TripMappedFrame(env, ai, f);
    var d1 := AssignAll([], StringFields, StringValues(env, ai));
    var d2 := AssignAll(d1, IntFields, IntValues(ai));
    AssignAllFrame(d2, FloatFields, FloatValues(env, ai), f);
    AssignAllFrame(d1, IntFields, IntValues(ai), f);
    AssignAllValue([], StringFields, StringValues(env, ai), f);
  }

  /** Both integer fields are present, read with fallback 0. */
  lemma {:induction false} TripInts(env: PyEnv, ai: Dict, f: string)
    requires TripMapped(env, ai).Some? && f in IntFields
    ensures Get(TripMapped(env, ai).value, f) == Some(VInt(SafeInt(GetOr(ai, f, VInt(0)), 0)))
  {
    FieldGroupsDisjoint();
    TripMappedFrame(env, ai, f);
    var d1 := AssignAll([], StringFields, StringValues(env, ai));
    var d2 := AssignAll(d1, IntFields, IntValues(ai));
    AssignAllFrame(d2, FloatFields, FloatValues(env, ai), f);
    AssignAllValue(d1, IntFields, IntValues(ai), f);
  }

  /** Before the net-weight rule, every amount is present as the float it reads as. */
  lemma {:induction false} ScalarAmounts(env: PyEnv, ai: Dict, f: string)
    requires f in FloatFields
    ensures Get(Scalars(env, ai), f) == Some(VFloat(FloatAmount(env, ai, f)))
  {
    var d2 := AssignAll(AssignAll([], StringFields, StringValues(env, ai)), IntFields, IntValues(ai));
    AssignAllValue(d2, FloatFields, FloatValues(env, ai), f);
  }

  /** Every amount but the net weight is present as the float it reads as. */
  lemma {:induction false} TripAmounts(env: PyEnv, ai: Dict, f: string)
    requires TripMapped(env, ai).Some? && f in FloatFields && f != "net_weight"
    ensures Get(TripMapped(env, ai).value, f) == Some(VFloat(FloatAmount(env, ai, f)))
  {
    FieldGroupsDisjoint();
    TripMappedFrame(env, ai, f);
    ScalarAmounts(env, ai, f);
  }

  /** The net weight is gross minus tare exactly when it reads as 0 and both
      gross and tare are non-zero; otherwise it is what it reads as. */
  lemma {:induction false} TripNetWeight(env: PyEnv, ai: Dict)
    requires TripMapped(env, ai).Some?
    ensures var net := FloatAmount(env, ai, "net_weight");
      var gross := FloatAmount(env, ai, "gross_weight");
      var tare := FloatAmount(env, ai, "tare_weight");
      Get(TripMapped(env, ai).value, "net_weight")
        == Some(VFloat(if net == 0.0 && gross != 0.0 && tare != 0.0 then gross - tare else net))
  {
    ScalarWeights(env, ai);
    NetOfAmounts(env, ai, Scalars(env, ai), DateValues(env, ai, ExtractedDates(env, OriginalText(ai).value)));
  }

  lemma {:induction false} NetOfAmounts(env: PyEnv, ai: Dict, s: Dict, dates: string -> V)
    requires Get(s, "net_weight") == Some(VFloat(FloatAmount(env, ai, "net_weight")))
    requires Get(s, "gross_weight") == Some(VFloat(FloatAmount(env, ai, "gross_weight")))
    requires Get(s, "tare_weight") == Some(VFloat(FloatAmount(env, ai, "tare_weight")))
    ensures var net := FloatAmount(env, ai, "net_weight");
      var gross := FloatAmount(env, ai, "gross_weight");
      var tare := FloatAmount(env, ai, "tare_weight");
      Get(AssignAll(WithNetWeight(s), DateFields, dates), "net_weight")
        == Some(VFloat(if net == 0.0 && gross != 0.0 && tare != 0.0 then gross - tare else net))
  {
    NetAfterDates(s, dates, FloatAmount(env, ai, "net_weight"), FloatAmount(env, ai, "gross_weight"), FloatAmount(env, ai, "tare_weight"));
  }

  lemma {:induction false} ScalarWeights(env: PyEnv, ai: Dict)
    ensures Get(Scalars(env, ai), "net_weight") == Some(VFloat(FloatAmount(env, ai, "net_weight")))
    ensures Get(Scalars(env, ai), "gross_weight") == Some(VFloat(FloatAmount(env, ai, "gross_weight")))
    ensures Get(Scalars(env, ai), "tare_weight") == Some(VFloat(FloatAmount(env, ai, "tare_weight")))
  {
    ScalarAmounts(env, ai, "net_weight");
    ScalarAmounts(env, ai, "gross_weight");
    ScalarAmounts(env, ai, "tare_weight");
  }

  /** The dates do not touch the net weight. */
  lemma {:induction false} NetAfterDates(s: Dict, dates: string -> V, net: real, gross: real, tare: real)
    requires Get(s, "net_weight") == Some(VFloat(net))
    requires Get(s, "gross_weight") == Some(VFloat(gross))
    requires Get(s, "tare_weight") == Some(VFloat(tare))
    ensures Get(AssignAll(WithNetWeight(s), DateFields, dates), "net_weight")
      == Some(VFloat(if net == 0.0 && gross != 0.0 && tare != 0.0 then gross - tare else net))
  {
    NetWeightValue(s, net, gross, tare);
    DateFieldsExclude();
    AssignAllFrame(WithNetWeight(s), DateFields, dates, "net_weight");
  }

  lemma DateFieldsExclude()
    ensures "net_weight" !in DateFields
  {
  }

  /** The net-weight rule on three float fields. */
  lemma {:induction false} NetWeightRule(d: Dict, net: real, gross: real, tare: real)
    requires GetOr(d, "net_weight", VNone) == VFloat(net)
    requires GetOr(d, "gross_weight", VNone) == VFloat(gross)
    requires GetOr(d, "tare_weight", VNone) == VFloat(tare)
    ensures WithNetWeight(d)
      == if net == 0.0 && gross != 0.0 && tare != 0.0 then Set(d, "net_weight", VFloat(gross - tare)) else d
  {
    var filled := FilledNet(GetOr(d, "net_weight", VNone), GetOr(d, "gross_weight", VNone), GetOr(d, "tare_weight", VNone));
    assert filled == FilledNet(VFloat(net), VFloat(gross), VFloat(tare));
    if filled.Some? {
      assert filled.value == VFloat(gross - tare);
    }
  }

  lemma {:induction false} NetWeightValue(d: Dict, net: real, gross: real, tare: real)
    requires GetOr(d, "net_weight", VNone) == VFloat(net)
    requires GetOr(d, "gross_weight", VNone) == VFloat(gross)
    requires GetOr(d, "tare_weight", VNone) == VFloat(tare)
    ensures Get(WithNetWeight(d), "net_weight")
      == Some(VFloat(if net == 0.0 && gross != 0.0 && tare != 0.0 then gross - tare else net))
  {
    NetWeightRule(d, net, gross, tare);
    GetSet(d, "net_weight", VFloat(gross - tare), "net_weight");
  }

  /** Every date field holds its parsed value, or its fallback among the
      backup dates read from the original text. */
  lemma {:induction false} TripDates(env: PyEnv, ai: Dict, f: string)
    requires TripMapped(env, ai).Some? && f in DateFields
    ensures Get(TripMapped(env, ai).value, f)
      == Some(VDateTime(DateValue(env, ai, f, ExtractedDates(env, OriginalText(ai).value))))
  {
    var backups := ExtractedDates(env, OriginalText(ai).value);
    AssignAllValue(WithNetWeight(Scalars(env, ai)), DateFields, DateValues(env, ai, backups), f);
  }

  /** Nothing in this mapper sets `_original_text`, so when the answer does not
      carry it there are no backup dates (a search of the empty text finds
      nothing) and an unparsable date becomes the current time. */
  lemma {:induction false} TripDateWithoutText(env: PyEnv, ai: Dict, f: string)
    requires "_original_text" !in Keys(ai) && f in DateFields
    requires forall p :: env.reFindAll(p, "") == []
    requires FlexibleDate(env, GetOr(ai, f, VNone)).None?
    ensures TripMapped(env, ai).Some?
    ensures Get(TripMapped(env, ai).value, f) == Some(VDateTime(env.now))
  {
    assert OriginalText(ai) == Some("");
    FoundNothing(env, "", BackupPatterns);
    var backups := ExtractedDates(env, "");
    assert multiset(backups) == multiset([]);
    assert backups == [];
    assert DateValue(env, ai, f, backups) == env.now;
    TripDates(env, ai, f);
  }

  /** Patterns that match nothing find no dates. */
  lemma {:induction false} FoundNothing(env: PyEnv, text: string, pairs: seq<(string, string)>)
    requires forall i :: 0 <= i < |pairs| ==> env.reFindAll(pairs[i].0, text) == []
    ensures FoundDates(env, text, pairs) == []
  {
    if pairs != [] {
      FoundNothing(env, text, pairs[..|pairs| - 1]);
    }
  }

  // ---- The whole trip-receipt step ----

  /** The checks `process_facture_trip_invoice` makes before mapping:
      non-blank text, and a non-empty dict answer with a non-empty
      `name_business`. */
  function CheckedTripAnswer(text: string, ai: Option<V>): (r: Option<Dict>)
    ensures r.Some? <==> (PyStrip(text) != [] && ai.Some? && ai.value.VDict? && Truthy(ai.value)
      && Truthy(GetOr(ai.value.entries, "name_business", VNone)))
    ensures r.Some? ==> r.value == ai.value.entries
  {
    if PyStrip(text) == [] then None
    else match ai
      case Some(VDict(d)) =>
        if d == [] || !Truthy(GetOr(d, "name_business", VNone)) then None
        else Some(d)
      case _ => None
  }

  /** `process_facture_trip_invoice` once the model has answered with `ai`
      (`None` when the request failed or the answer was not JSON). */
  function TripInvoice(env: PyEnv, text: string, ai: Option<V>): Option<Dict>
  {
    match CheckedTripAnswer(text, ai)
    case None => None
    case Some(d) => TripMapped(env, d)
  }

  method ProcessTripInvoice(env: PyEnv, text: string, ai: Option<V>) returns (r: Option<Dict>)
    ensures r == TripInvoice(env, text, ai)
    ensures r.Some? ==> CheckedTripAnswer(text, ai).Some?
  {
    if PyStrip(text) == [] {
      return None;
    }
    if ai.None? || !Truthy(ai.value) || !ai.value.VDict? {
      return None;
    }
    var d := ai.value.entries;
    if !Truthy(GetOr(d, "name_business", VNone)) {
      return None;
    }
    r := MapToPydanticFormat(env, d);
  }
}
