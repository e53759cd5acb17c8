/** The weekly transport invoice (CFDI) pipeline after the language model has
    answered: guards, the corrections checked against the recognised text,
    and the mapping of the answer onto the invoice model's field types. The
    dicts of the answer are values here; each step returns the updated dict,
    or `None` where the step raises (the pipeline then returns `None`). */
module WeekendProcessor {
  import opened Wrappers
  import opened Text
  import opened PyValue
  import opened PyConvert

  /** The SAT verification page; the folio is appended. */
  const SatVerificationUrl := "https://verificacfdi.facturaelectronica.sat.gob.mx/default.aspx?id="

  /** A UUID, matched without regard to case. */
  const UuidPattern := "(?i)[A-F0-9]{8}-[A-F0-9]{4}-[A-F0-9]{4}-[A-F0-9]{4}-[A-F0-9]{12}"

  /** The certificate-number searches, in order. The third is a literal number. */
  const CsdPatterns: seq<string> := [
    "No\\.?\\s*de\\s*serie\\s*del\\s*CSD[^\\d]*(\\d{10,})",
    "CSD[^\\d]*(\\d{10,})",
    "00001000000718612524"
  ]

  /** A certificate number the extraction is known to confuse with a date. */
  const PlaceholderCsd := "2025-10-29 19:19:49"

  /** A concept line: product code, unit key, description, amount. */
  const ConceptPattern := "(\\d{8})\\s+([A-Z]\\d{2})\\s+([^\\t\\n]+)\\s+([\\d,]+\\.\\d{2,6})"

  /** The withheld-tax searches, in order; each has one group, the amount. */
  const RetentionPatterns: seq<string> := [
    "Impuestos\\s+retenidos[^\\d]*\\$?\\s*([0-9,]+\\.\\d{2})",
    "IVA\\s+Retención[^\\d]*([0-9,]+\\.\\d{2,6})",
    "retenidos[^\\d]*\\$?\\s*([0-9,]+\\.\\d{2})"
  ]

  const ServiceUnit := "Unidad de servicio"

  const ConceptDecimalFields: seq<string> := ["value_unit", "import_total"]
  const DutyDecimalFields: seq<string> := ["base_import", "import_with_fee_rate"]
  const InvoiceDecimalFields: seq<string> := ["subtotal", "transferred_taxes", "stoped_taxes", "total"]

  const EmissionFormat := "%Y-%m-%d %H:%M:%S"

  // ---- Searching a list of patterns ----

  /** The first pattern from index `k` on that matches, with its match. */
  function FirstMatchFrom(env: PyEnv, patterns: seq<string>, text: string, k: nat): (r: Option<(nat, Match)>)
    requires k <= |patterns|
    ensures r.Some? ==> k <= r.value.0 < |patterns| && Search(env, patterns[r.value.0], text) == Some(r.value.1)
    ensures r.Some? ==> forall j :: k <= j < r.value.0 ==> Search(env, patterns[j], text).None?
    ensures r.None? ==> forall j :: k <= j < |patterns| ==> Search(env, patterns[j], text).None?
    decreases |patterns| - k
  {
    if k == |patterns| then None
    else match Search(env, patterns[k], text)
      case Some(m) => Some((k, m))
      case None => FirstMatchFrom(env, patterns, text, k + 1)
  }

  /** `for pattern in patterns: match = re.search(pattern, text); if match: ... break`. */
  method FirstMatch(env: PyEnv, patterns: seq<string>, text: string) returns (r: Option<(nat, Match)>)
    ensures r == FirstMatchFrom(env, patterns, text, 0)
  {
    var k := 0;
    while k < |patterns|
      invariant 0 <= k <= |patterns|
      invariant FirstMatchFrom(env, patterns, text, 0) == FirstMatchFrom(env, patterns, text, k)
    {
      var m := Search(env, patterns[k], text);
      if m.Some? {
        return Some((k, m.value));
      }
      k := k + 1;
    }
    return None;
  }

  // ---- Updating every concept in place ----

  /** Every dict through `step`, or `None` as soon as one raises. */
  function MapAll(cs: seq<Dict>, step: Dict -> Option<Dict>): (r: Option<seq<Dict>>)
    ensures r.Some? <==> forall i :: 0 <= i < |cs| ==> step(cs[i]).Some?
    ensures r.Some? ==> |r.value| == |cs| && forall i :: 0 <= i < |cs| ==> r.value[i] == step(cs[i]).value
  {
    if cs == [] then Some([])
    else match step(cs[0])
      case None => None
      case Some(c) =>
        match MapAll(cs[1..], step)
        case None => None
        case Some(rest) => Some([c] + rest)
  }

  /** A `for c in cs:` loop that updates each dict in place. */
  method ForEach(cs: seq<Dict>, step: Dict -> Option<Dict>) returns (r: Option<seq<Dict>>)
    ensures r == MapAll(cs, step)
  {
    var done: seq<Dict> := [];
    var i := 0;
    while i < |cs|
      invariant 0 <= i <= |cs|
      invariant |done| == i && forall j :: 0 <= j < i ==> step(cs[j]).Some? && done[j] == step(cs[j]).value
    {
      var c := step(cs[i]);
      if c.None? {
        return None;
      }
      done := done + [c.value];
      i := i + 1;
    }
    assert MapAll(cs, step).value == done;
    return Some(done);
  }

  /** The concepts a `for concept in d.get('concepts', [])` loop visits. */
  function ConceptsOf(d: Dict): Option<seq<Dict>>
  {
    IterateDicts(GetOr(d, "concepts", VList([])))
  }

  /** A list of concepts updated in place; an empty string or dict iterated
      over stays as it was. */
  function WithConcepts(d: Dict, cs: seq<Dict>): (r: Dict)
    ensures SameExcept(r, d, "concepts")
  {
    if Get(d, "concepts").Some? && Get(d, "concepts").value.VList? then
      SetFrame(d, "concepts", ListOfDicts(cs));
      Set(d, "concepts", ListOfDicts(cs))
    else d
  }

  /** The dict after `step` ran on each of its concepts; `None` where the loop raises. */
  function UpdatedConcepts(d: Dict, step: Dict -> Option<Dict>): (r: Option<Dict>)
    ensures r.Some? <==> ConceptsOf(d).Some? && MapAll(ConceptsOf(d).value, step).Some?
    ensures r.Some? ==> SameExcept(r.value, d, "concepts") && ConceptsOf(r.value) == MapAll(ConceptsOf(d).value, step)
  {
    match ConceptsOf(d)
    case None => None
    case Some(cs) =>
      match MapAll(cs, step)
      case None => None
      case Some(updated) =>
        ConceptsOfWith(d, cs, updated);
        Some(WithConcepts(d, updated))
  }

  lemma ConceptsOfWith(d: Dict, cs: seq<Dict>, updated: seq<Dict>)
    requires ConceptsOf(d) == Some(cs) && |updated| == |cs|
    ensures ConceptsOf(WithConcepts(d, updated)) == Some(updated)
  {
    if Get(d, "concepts").Some? && Get(d, "concepts").value.VList? {
      SetFrame(d, "concepts", ListOfDicts(updated));
    } else {
      assert cs == [];
    }
  }

  method UpdateConcepts(d: Dict, step: Dict -> Option<Dict>) returns (r: Option<Dict>)
    ensures r == UpdatedConcepts(d, step)
  {
    var cs := ConceptsOf(d);
    if cs.None? {
      return None;
    }
    var updated := ForEach(cs.value, step);
    if updated.None? {
      return None;
    }
    ConceptsOfWith(d, cs.value, updated.value);
    return Some(WithConcepts(d, updated.value));
  }

  // ---- Corrections against the recognised text ----

  /** A UUID found in the text replaces the folio. */
  function FixTaxFolio(env: PyEnv, d: Dict, text: string): (r: Dict)
    ensures SameExcept(r, d, "tax_folio")
    ensures Search(env, UuidPattern, text).Some? ==> Get(r, "tax_folio") == Some(VStr(Search(env, UuidPattern, text).value.whole))
    ensures Search(env, UuidPattern, text).None? ==> r == d
  {
    match Search(env, UuidPattern, text)
    case Some(m) =>
      SetFrame(d, "tax_folio", VStr(m.whole));
      Set(d, "tax_folio", VStr(m.whole))
    case None => d
  }

  /** The certificate number is looked for only when it is missing or is the known date mix-up. */
  predicate NeedsCsd(d: Dict)
  {
    !Truthy(GetOr(d, "no_csd", VNone)) || Get(d, "no_csd") == Some(VStr(PlaceholderCsd))
  }

  /** The certificate number a match yields as intended: the group where the
      pattern has one, the matched number itself for the literal pattern. */
  function CsdOf(m: Match): (csd: string)
    ensures Group(m, 1).Some? ==> csd == Group(m, 1).value
    ensures Group(m, 1).None? ==> csd == m.whole
  {
    if m.groups != [] then m.groups[0] else m.whole
  }

  /** The certificate step as intended, given the first matching search. */
  function CsdStep(d: Dict, found: Option<(nat, Match)>): (r: Dict)
    ensures SameExcept(r, d, "no_csd")
    ensures !NeedsCsd(d) ==> r == d
    ensures NeedsCsd(d) && found.None? ==> Get(r, "no_csd") == Some(VStr(""))
    ensures NeedsCsd(d) && found.Some? ==> Get(r, "no_csd") == Some(VStr(CsdOf(found.value.1)))
  {
    if !NeedsCsd(d) then d
    else
      var csd := if found.None? then "" else CsdOf(found.value.1);
      SetFrame(d, "no_csd", VStr(csd));
      Set(d, "no_csd", VStr(csd))
  }

  /** The certificate step as written: group 1 of the first match, which
      raises `IndexError` for the literal third search. Wherever it does not
      raise, it agrees with `CsdStep`. */
  function CsdStepAsWritten(d: Dict, found: Option<(nat, Match)>): (r: Option<Dict>)
    ensures !NeedsCsd(d) || found.None? ==> r == Some(CsdStep(d, found))
    ensures NeedsCsd(d) && found.Some? ==> (r.None? <==> Group(found.value.1, 1).None?)
    ensures r.Some? ==> r.value == CsdStep(d, found)
  {
    if !NeedsCsd(d) then Some(d)
    else if found.None? then Some(Set(d, "no_csd", VStr("")))
    else match Group(found.value.1, 1)
      case None => None
      case Some(g) => Some(Set(d, "no_csd", VStr(g)))
  }

  /** A text that shows the certificate number only as the literal (nothing
      for the first two searches to find) makes the step as written raise, so
      the whole invoice is lost; the intended step records the number. */
  lemma LiteralCsdRaises(env: PyEnv, d: Dict, text: string)
    requires NeedsCsd(d)
    requires Search(env, CsdPatterns[0], text).None? && Search(env, CsdPatterns[1], text).None?
    requires Contains(text, CsdPatterns[2])
    ensures CsdStepAsWritten(d, FirstMatchFrom(env, CsdPatterns, text, 0)).None?
    ensures Get(CsdStep(d, FirstMatchFrom(env, CsdPatterns, text, 0)), "no_csd") == Some(VStr(CsdPatterns[2]))
  {
    assert LiteralPattern(CsdPatterns[2]);
    assert FirstMatchFrom(env, CsdPatterns, text, 3).None?;
    assert FirstMatchFrom(env, CsdPatterns, text, 0) == Some((2, Match(CsdPatterns[2], [])));
  }

  /** Every concept gets the product code and unit key of the concept line. */
  function SetCodes(productCode: string, keyUnit: string): Dict -> Option<Dict>
  {
    c => Some(Set(Set(c, "product_code", VStr(productCode)), "key_unit", VStr(keyUnit)))
  }

  /** The concept-code step: only when the text has a concept line and the
      invoice has concepts; reading the two groups raises if they are missing. */
  function ConceptCodes(env: PyEnv, d: Dict, text: string): (r: Option<Dict>)
    ensures Search(env, ConceptPattern, text).None? || !Truthy(GetOr(d, "concepts", VNone)) ==> r == Some(d)
    ensures r.Some? ==> SameExcept(r.value, d, "concepts")
  {
    var m := Search(env, ConceptPattern, text);
    if m.None? || !Truthy(GetOr(d, "concepts", VNone)) then Some(d)
    else if Group(m.value, 1).None? || Group(m.value, 2).None? then None
    else UpdatedConcepts(d, SetCodes(Group(m.value, 1).value, Group(m.value, 2).value))
  }

  /** Once the codes are set, every concept carries the concept line's codes. */
  lemma ConceptCodesSet(env: PyEnv, d: Dict, text: string)
    requires ConceptCodes(env, d, text).Some?
    requires Search(env, ConceptPattern, text).Some? && Truthy(GetOr(d, "concepts", VNone))
    ensures var m := Search(env, ConceptPattern, text).value;
      var cs := ConceptsOf(ConceptCodes(env, d, text).value);
      cs.Some? && forall c :: c in cs.value ==>
        Get(c, "product_code") == Some(VStr(Group(m, 1).value)) && Get(c, "key_unit") == Some(VStr(Group(m, 2).value))
  {
    var m := Search(env, ConceptPattern, text).value;
    var step := SetCodes(Group(m, 1).value, Group(m, 2).value);
    assert ConceptCodes(env, d, text) == UpdatedConcepts(d, step);
    CodesSetEach(ConceptsOf(d).value, Group(m, 1).value, Group(m, 2).value);
  }

  /** Every concept through the code step carries both codes. */
  lemma CodesSetEach(cs: seq<Dict>, productCode: string, keyUnit: string)
    ensures var r := MapAll(cs, SetCodes(productCode, keyUnit));
      r.Some? && forall c :: c in r.value ==>
        Get(c, "product_code") == Some(VStr(productCode)) && Get(c, "key_unit") == Some(VStr(keyUnit))
  {
    var step := SetCodes(productCode, keyUnit);
    assert forall i :: 0 <= i < |cs| ==> step(cs[i]).Some?;
    var r := MapAll(cs, step).value;
    forall c | c in r
      ensures Get(c, "product_code") == Some(VStr(productCode)) && Get(c, "key_unit") == Some(VStr(keyUnit))
    {
      var i :| 0 <= i < |r| && r[i] == c;
      GetSet(cs[i], "product_code", VStr(productCode), "product_code");
      GetSet(Set(cs[i], "product_code", VStr(productCode)), "key_unit", VStr(keyUnit), "product_code");
      GetSet(Set(cs[i], "product_code", VStr(productCode)), "key_unit", VStr(keyUnit), "key_unit");
    }
  }

  /** A placeholder unit type becomes the service unit; anything else stays. */
  function FixTypeUnit(c: Dict): (r: Option<Dict>)
    ensures r.Some? && SameExcept(r.value, c, "type_unit")
    ensures Get(r.value, "type_unit") != Some(VStr("Tipo")) && Get(r.value, "type_unit") != Some(VStr(""))
    ensures Get(c, "type_unit") != Some(VStr("Tipo")) && Get(c, "type_unit") != Some(VStr("")) ==> r.value == c
  {
    var t := Get(c, "type_unit");
    if t == Some(VStr("Tipo")) || t == Some(VStr("")) then
      SetFrame(c, "type_unit", VStr(ServiceUnit));
      Some(Set(c, "type_unit", VStr(ServiceUnit)))
    else Some(c)
  }

  // ---- Trips counted from the destination codes ----

  /** The length of the run of digits at the front of `s`. */
  function DigitRun(s: string): (n: nat)
    ensures n <= |s| && AllDigits(s[..n]) && (n < |s| ==> !IsDigit(s[n]))
  {
    if s != [] && IsDigit(s[0]) then
      var n := DigitRun(s[1..]);
      assert s[..n + 1] == [s[0]] + s[1..][..n];
      n + 1
    else 0
  }

  /** `re.findall(r'SAC\d+', s)`: every `SAC` followed by its whole run of
      digits, left to right, without overlaps. */
  function SacCodes(s: string): seq<string>
    decreases |s|
  {
    if |s| < 4 then []
    else if s[..3] == "SAC" && IsDigit(s[3]) then
      var n := DigitRun(s[3..]);
      [s[..3 + n]] + SacCodes(s[3 + n..])
    else SacCodes(s[1..])
  }

  /** Every code found is `SAC` followed by at least one digit and nothing else. */
  lemma {:induction false} SacCodesShape(s: string)
    ensures forall c :: c in SacCodes(s) ==> |c| >= 4 && c[..3] == "SAC" && AllDigits(c[3..])
    decreases |s|
  {
    if |s| >= 4 {
      if s[..3] == "SAC" && IsDigit(s[3]) {
        var n := DigitRun(s[3..]);
        var code := s[..3 + n];
        assert code[3..] == s[3..][..n];
        SacCodesShape(s[3 + n..]);
      } else {
        SacCodesShape(s[1..]);
      }
    }
  }

  /** The number of distinct destination codes. */
  function DistinctSacCount(s: string): nat
  {
    |set c | c in SacCodes(s)|
  }

  /** `concept.get('cuantity_trips', 0)`. */
  function Trips(c: Dict): V
  {
    GetOr(c, "cuantity_trips", VInt(0))
  }

  /** The description a concept is counted from: `concept.get('description', '')`. */
  function Description(c: Dict): V
  {
    GetOr(c, "description", VStr(""))
  }

  /** A description mentioning `SAC` sets the trip count to the number of
      distinct codes when there is at least one and it differs. */
  function CountSacTrips(c: Dict): (r: Option<Dict>)
    ensures r.Some? ==> SameExcept(r.value, c, "cuantity_trips")
    ensures !Truthy(Description(c)) || PyIn("SAC", Description(c)) == Some(false) ==> r == Some(c)
    ensures Truthy(Description(c)) && PyIn("SAC", Description(c)).None? ==> r.None?
    ensures Description(c).VStr? && Contains(Description(c).s, "SAC") && DistinctSacCount(Description(c).s) > 0
      ==> r.Some? && PyEq(VInt(DistinctSacCount(Description(c).s)), Trips(r.value))
  {
    var desc := Description(c);
    if !Truthy(desc) then Some(c)
    else match PyIn("SAC", desc)
      case None => None
      case Some(false) => Some(c)
      case Some(true) =>
        if !desc.VStr? then None
        else
          var inferred := DistinctSacCount(desc.s);
          if inferred > 0 && !PyEq(VInt(inferred), Trips(c)) then
            SetFrame(c, "cuantity_trips", VInt(inferred));
            Some(Set(c, "cuantity_trips", VInt(inferred)))
          else Some(c)
  }

  /** The trip count is a number greater than zero. */
  predicate TripsPositive(c: Dict)
  {
    NumberOf(Trips(c)).Some? && NumberOf(Trips(c)).value > 0.0
  }

  /** A count that is not positive becomes 1; comparing a non-number with 0
      raises `TypeError`. */
  function DefaultTrips(c: Dict): (r: Option<Dict>)
    ensures r.Some? <==> NumberOf(Trips(c)).Some?
    ensures r.Some? ==> TripsPositive(r.value) && SameExcept(r.value, c, "cuantity_trips")
    ensures TripsPositive(c) ==> r == Some(c)
  {
    match NumberOf(Trips(c))
    case None => None
    case Some(x) =>
      if x <= 0.0 then
        SetFrame(c, "cuantity_trips", VInt(1));
        Some(Set(c, "cuantity_trips", VInt(1)))
      else Some(c)
  }

  /** One concept through the trip-count step. */
  function TripCountStep(c: Dict): (r: Option<Dict>)
    ensures r.Some? ==> TripsPositive(r.value) && SameExcept(r.value, c, "cuantity_trips")
    ensures r.Some? && Description(c).VStr? && Contains(Description(c).s, "SAC") && DistinctSacCount(Description(c).s) > 0
      ==> PyEq(VInt(DistinctSacCount(Description(c).s)), Trips(r.value))
  {
    match CountSacTrips(c)
    case None => None
    case Some(c1) =>
      CountedTripsPositive(c, c1);
      match DefaultTrips(c1)
      case None => None
      case Some(c2) =>
        SameExceptTrans(c2, c1, c, "cuantity_trips");
        Some(c2)
  }

  /** A concept whose description names SAC codes leaves the count step with
      a positive count. */
  lemma CountedTripsPositive(c: Dict, c1: Dict)
    requires CountSacTrips(c) == Some(c1)
    ensures Description(c).VStr? && Contains(Description(c).s, "SAC") && DistinctSacCount(Description(c).s) > 0
      ==> TripsPositive(c1) && PyEq(VInt(DistinctSacCount(Description(c).s)), Trips(c1))
  {
  }

  // ---- Withheld taxes ----

  /** `d.get(k, 0)`. */
  function Field(d: Dict, k: string): V
  {
    GetOr(d, k, VInt(0))
  }

  /** `total - subtotal - transferred_taxes`; `None` where it raises `TypeError`. */
  function ExpectedStopedTaxes(d: Dict): (r: Option<V>)
    ensures r.Some? ==> (NumberOf(Field(d, "total")).Some? && NumberOf(Field(d, "subtotal")).Some?
      && NumberOf(Field(d, "transferred_taxes")).Some?
      && NumberOf(r.value) == Some(NumberOf(Field(d, "total")).value - NumberOf(Field(d, "subtotal")).value
        - NumberOf(Field(d, "transferred_taxes")).value))
  {
    match Minus(Field(d, "total"), Field(d, "subtotal"))
    case None => None
    case Some(x) => Minus(x, Field(d, "transferred_taxes"))
  }

  function RealAbs(x: real): real { if x < 0.0 then -x else x }

  /** The expected amount is positive and more than a cent away from the current one. */
  predicate ExpectedDiffers(d: Dict)
  {
    match ExpectedStopedTaxes(d)
    case None => false
    case Some(e) =>
      NumberOf(e).value > 0.0 && Minus(e, Field(d, "stoped_taxes")).Some?
      && RealAbs(NumberOf(Minus(e, Field(d, "stoped_taxes")).value).value) > 0.01
  }

  /** The amount a retention match yields; `None` where it has no group 1
      (Python raises `IndexError`). */
  function RetentionAmount(env: PyEnv, m: Match): Option<real>
  {
    match Group(m, 1)
    case None => None
    case Some(g) => Some(SafeDecimal(env, VStr(g)))
  }

  /** A positive retention amount was found in the text. */
  predicate RetentionWins(env: PyEnv, found: Option<(nat, Match)>)
  {
    found.Some? && RetentionAmount(env, found.value.1).Some? && RetentionAmount(env, found.value.1).value > 0.0
  }

  /** The withheld-tax step, given the first matching retention search. */
  function FixStopedTaxes(env: PyEnv, d: Dict, found: Option<(nat, Match)>): (r: Option<Dict>)
    ensures r.Some? ==> SameExcept(r.value, d, "stoped_taxes")
    ensures ExpectedStopedTaxes(d).None? ==> r.None?
    ensures found.Some? && RetentionAmount(env, found.value.1).None? ==> r.None?
    ensures r.Some? && RetentionWins(env, found) ==>
      Get(r.value, "stoped_taxes") == Some(VDecimal(RetentionAmount(env, found.value.1).value))
    ensures r.Some? && !RetentionWins(env, found) && ExpectedDiffers(d) ==>
      Get(r.value, "stoped_taxes") == Some(ExpectedStopedTaxes(d).value)
    ensures r.Some? && !RetentionWins(env, found) && !ExpectedDiffers(d) ==> r.value == d
  {
    match ExpectedStopedTaxes(d)
    case None => None
    case Some(e) =>
      if found.Some? && RetentionAmount(env, found.value.1).None? then None
      else if RetentionWins(env, found) then
        var x := RetentionAmount(env, found.value.1).value;
        SetFrame(d, "stoped_taxes", VDecimal(x));
        Some(Set(d, "stoped_taxes", VDecimal(x)))
      else if NumberOf(e).value <= 0.0 then Some(d)
      else match Minus(e, Field(d, "stoped_taxes"))
        case None => None
        case Some(diff) =>
          if RealAbs(NumberOf(diff).value) > 0.01 then
            SetFrame(d, "stoped_taxes", e);
            Some(Set(d, "stoped_taxes", e))
          else Some(d)
  }

  // ---- The verification URL ----

  /** The verification URL of a folio. */
  function UrlFor(env: PyEnv, folio: V): V
  {
    VStr(SatVerificationUrl + Display(env, folio))
  }

  /** Whenever the folio is non-empty, the URL is the folio's verification URL. */
  ghost predicate UrlMatchesFolio(env: PyEnv, d: Dict)
  {
    Truthy(GetOr(d, "tax_folio", VNone)) ==> Get(d, "url_qr") == Some(UrlFor(env, GetOr(d, "tax_folio", VNone)))
  }

  /** The URL step of the corrections: always rebuilt from a non-empty folio. */
  function FixUrl(env: PyEnv, d: Dict): (r: Dict)
    ensures UrlMatchesFolio(env, r) && SameExcept(r, d, "url_qr")
    ensures !Truthy(GetOr(d, "tax_folio", VNone)) ==> r == d
  {
    var folio := GetOr(d, "tax_folio", VNone);
    if Truthy(folio) then
      SetFrame(d, "url_qr", UrlFor(env, folio));
      Set(d, "url_qr", UrlFor(env, folio))
    else d
  }

  // ---- All corrections ----

  /** The corrections up to the trip counts: folio, certificate number as
      written (an `IndexError` on the literal search loses the invoice),
      concept codes, unit types and trip counts. */
  function Prepared(env: PyEnv, d: Dict, text: string): Option<Dict>
  {
    var d1 := FixTaxFolio(env, d, text);
    match CsdStepAsWritten(d1, FirstMatchFrom(env, CsdPatterns, text, 0))
    case None => None
    case Some(d2) => ConceptPasses(env, d2, text)
  }

  /** The concept passes of the corrections: codes, unit types and trip counts. */
  function ConceptPasses(env: PyEnv, d2: Dict, text: string): Option<Dict>
  {
    match ConceptCodes(env, d2, text)
    case None => None
    case Some(d3) =>
      match UpdatedConcepts(d3, FixTypeUnit)
      case None => None
      case Some(d4) => UpdatedConcepts(d4, TripCountStep)
  }

  /** The same corrections with the certificate step as intended. */
  function PreparedIntended(env: PyEnv, d: Dict, text: string): Option<Dict>
  {
    var d1 := FixTaxFolio(env, d, text);
    ConceptPasses(env, CsdStep(d1, FirstMatchFrom(env, CsdPatterns, text, 0)), text)
  }

  /** The corrections as written and as intended differ only where the
      certificate step raises: there the written ones lose the invoice. */
  lemma PreparedAgrees(env: PyEnv, d: Dict, text: string)
    ensures var step := CsdStepAsWritten(FixTaxFolio(env, d, text), FirstMatchFrom(env, CsdPatterns, text, 0));
      (step.Some? ==> Prepared(env, d, text) == PreparedIntended(env, d, text))
      && (step.None? ==> Prepared(env, d, text).None?)
  {
  }

  /** A text whose only certificate line is the literal number makes the
      written corrections, and so the whole weekly invoice, come to nothing. */
  lemma LiteralCsdDropsInvoice(env: PyEnv, text: string, ai: Option<V>)
    requires CheckedAnswer(text, ai).Some?
    requires NeedsCsd(FixTaxFolio(env, CheckedAnswer(text, ai).value, text))
    requires Search(env, CsdPatterns[0], text).None? && Search(env, CsdPatterns[1], text).None?
    requires Contains(text, CsdPatterns[2])
    ensures Prepared(env, CheckedAnswer(text, ai).value, text).None?
    ensures WeekendInvoice(env, text, ai).None?
  {
    var d := CheckedAnswer(text, ai).value;
    LiteralCsdRaises(env, FixTaxFolio(env, d, text), text);
  }

  /** `_apply_transport_corrections`, without the unit-value step. */
  function Corrected(env: PyEnv, d: Dict, text: string): (r: Option<Dict>)
    ensures r.Some? ==> UrlMatchesFolio(env, r.value)
  {
    match Prepared(env, d, text)
    case None => None
    case Some(d5) =>
      match FixStopedTaxes(env, d5, FirstMatchFrom(env, RetentionPatterns, text, 0))
      case None => None
      case Some(d6) => Some(FixUrl(env, d6))
  }

  method Prepare(env: PyEnv, d: Dict, text: string) returns (r: Option<Dict>)
    ensures r == Prepared(env, d, text)
  {
    var cur := FixTaxFolio(env, d, text);
    if NeedsCsd(cur) {
      var found := FirstMatch(env, CsdPatterns, text);
      if found.None? {
        cur := Set(cur, "no_csd", VStr(""));
      } else {
        var g := Group(found.value.1, 1);
        if g.None? {
          // `match.group(1)` raises; the caller turns that into no invoice
          return None;
        }
        cur := Set(cur, "no_csd", VStr(g.value));
      }
    }
    var coded := ApplyConceptCodes(env, cur, text);
    if coded.None? {
      return None;
    }
    var typed := UpdateConcepts(coded.value, FixTypeUnit);
    if typed.None? {
      return None;
    }
    r := UpdateConcepts(typed.value, TripCountStep);
  }

  /** The concept-code block of the corrections. */
  method ApplyConceptCodes(env: PyEnv, d: Dict, text: string) returns (r: Option<Dict>)
    ensures r == ConceptCodes(env, d, text)
  {
    var m := Search(env, ConceptPattern, text);
    if m.None? || !Truthy(GetOr(d, "concepts", VNone)) {
      return Some(d);
    }
    if Group(m.value, 1).None? || Group(m.value, 2).None? {
      return None;
    }
    r := UpdateConcepts(d, SetCodes(Group(m.value, 1).value, Group(m.value, 2).value));
  }

  method ApplyCorrections(env: PyEnv, d: Dict, text: string) returns (r: Option<Dict>)
    ensures r == Corrected(env, d, text)
  {
    var prepared := Prepare(env, d, text);
    if prepared.None? {
      return None;
    }
    var retention := FirstMatch(env, RetentionPatterns, text);
    var taxed := FixStopedTaxes(env, prepared.value, retention);
    if taxed.None? {
      return None;
    }
    return Some(FixUrl(env, taxed.value));
  }

  /** What the corrections leave in every concept. */
  predicate ConceptCorrected(c: Dict)
  {
    TripsPositive(c) && Get(c, "type_unit") != Some(VStr("Tipo")) && Get(c, "type_unit") != Some(VStr(""))
  }

  /** The first corrections leave every concept with a positive trip count
      and a real unit type. */
  lemma PreparedConcepts(env: PyEnv, d: Dict, text: string)
    requires Prepared(env, d, text).Some?
    ensures var cs := ConceptsOf(Prepared(env, d, text).value);
      cs.Some? && forall c :: c in cs.value ==> ConceptCorrected(c)
  {
    var d1 := FixTaxFolio(env, d, text);
    var d2 := CsdStepAsWritten(d1, FirstMatchFrom(env, CsdPatterns, text, 0)).value;
    assert Prepared(env, d, text) == ConceptPasses(env, d2, text);
    ConceptPassesCorrect(env, d2, text);
  }

  /** The concept passes leave every concept corrected. */
  lemma ConceptPassesCorrect(env: PyEnv, d2: Dict, text: string)
    requires ConceptPasses(env, d2, text).Some?
    ensures var cs := ConceptsOf(ConceptPasses(env, d2, text).value);
      cs.Some? && forall c :: c in cs.value ==> ConceptCorrected(c)
  {
    var d3 := ConceptCodes(env, d2, text).value;
    var d4 := UpdatedConcepts(d3, FixTypeUnit).value;
    assert ConceptPasses(env, d2, text) == UpdatedConcepts(d4, TripCountStep);
    CountedCorrect(ConceptsOf(d3).value, ConceptsOf(d4).value);
  }

  /** Concepts whose unit types were fixed, once counted, are corrected. */
  lemma CountedCorrect(cs: seq<Dict>, typed: seq<Dict>)
    requires MapAll(cs, FixTypeUnit) == Some(typed) && MapAll(typed, TripCountStep).Some?
    ensures forall c :: c in MapAll(typed, TripCountStep).value ==> ConceptCorrected(c)
  {
    var counted := MapAll(typed, TripCountStep).value;
    forall c | c in counted
      ensures ConceptCorrected(c)
    {
      var i :| 0 <= i < |counted| && counted[i] == c;
      assert typed[i] == FixTypeUnit(cs[i]).value;
      assert Get(c, "type_unit") == Get(typed[i], "type_unit");
    }
  }

  /** The first corrections change only the folio, the certificate number and the concepts. */
  lemma PreparedFrame(env: PyEnv, d: Dict, text: string, k: string)
    requires Prepared(env, d, text).Some?
    requires k != "tax_folio" && k != "no_csd" && k != "concepts"
    ensures Get(Prepared(env, d, text).value, k) == Get(d, k)
  {
    var d1 := FixTaxFolio(env, d, text);
    var d2 := CsdStepAsWritten(d1, FirstMatchFrom(env, CsdPatterns, text, 0)).value;
    var d3 := ConceptCodes(env, d2, text).value;
    var d4 := UpdatedConcepts(d3, FixTypeUnit).value;
    assert Get(d4, k) == Get(d3, k) == Get(d2, k) == Get(d1, k) == Get(d, k);
  }

  /** After the corrections every concept has a positive trip count and a real unit type. */
  lemma CorrectedConcepts(env: PyEnv, d: Dict, text: string)
    requires Corrected(env, d, text).Some?
    ensures var cs := ConceptsOf(Corrected(env, d, text).value);
      cs.Some? && forall c :: c in cs.value ==> ConceptCorrected(c)
  {
    CorrectedSteps(env, d, text);
    PreparedConcepts(env, d, text);
    var d5 := Prepared(env, d, text).value;
    TailKeeps(env, d5, FirstMatchFrom(env, RetentionPatterns, text, 0), "concepts");
    assert ConceptsOf(Corrected(env, d, text).value) == ConceptsOf(d5);
  }

  /** A correction that succeeds is the tax and URL steps applied to the first corrections. */
  lemma CorrectedSteps(env: PyEnv, d: Dict, text: string)
    requires Corrected(env, d, text).Some?
    ensures Prepared(env, d, text).Some?
    ensures var found := FirstMatchFrom(env, RetentionPatterns, text, 0);
      var t := FixStopedTaxes(env, Prepared(env, d, text).value, found);
      t.Some? && Corrected(env, d, text) == Some(FixUrl(env, t.value))
  {
  }

  /** The tax and URL steps leave every key but the withheld tax and the URL alone. */
  lemma TailKeeps(env: PyEnv, d: Dict, found: Option<(nat, Match)>, k: string)
    requires FixStopedTaxes(env, d, found).Some?
    requires k != "stoped_taxes" && k != "url_qr"
    ensures Get(FixUrl(env, FixStopedTaxes(env, d, found).value), k) == Get(d, k)
  {
  }

  /** The withheld tax after the corrections: a positive amount found in the
      text wins; otherwise the expected amount, when it is positive and more
      than a cent away; otherwise the answer's own value. */
  lemma CorrectedStopedTaxes(env: PyEnv, d: Dict, text: string)
    requires Corrected(env, d, text).Some?
    ensures var r := Corrected(env, d, text).value;
      var found := FirstMatchFrom(env, RetentionPatterns, text, 0);
      (RetentionWins(env, found) ==> Get(r, "stoped_taxes") == Some(VDecimal(RetentionAmount(env, found.value.1).value)))
      && (!RetentionWins(env, found) && ExpectedDiffers(d) ==> Get(r, "stoped_taxes") == Some(ExpectedStopedTaxes(d).value))
      && (!RetentionWins(env, found) && !ExpectedDiffers(d) ==> Get(r, "stoped_taxes") == Get(d, "stoped_taxes"))
  {
    CorrectedSteps(env, d, text);
    PreparedTaxFields(env, d, text);
    var d5 := Prepared(env, d, text).value;
    TailTax(env, d5, FirstMatchFrom(env, RetentionPatterns, text, 0));
  }

  /** The URL step keeps the withheld tax. */
  lemma TailTax(env: PyEnv, d: Dict, found: Option<(nat, Match)>)
    requires FixStopedTaxes(env, d, found).Some?
    ensures var t := FixStopedTaxes(env, d, found).value;
      Get(FixUrl(env, t), "stoped_taxes") == Get(t, "stoped_taxes")
  {
  }

  /** The first corrections leave the expected withheld tax as it was. */
  lemma PreparedTaxFields(env: PyEnv, d: Dict, text: string)
    requires Prepared(env, d, text).Some?
    ensures ExpectedStopedTaxes(Prepared(env, d, text).value) == ExpectedStopedTaxes(d)
    ensures ExpectedDiffers(Prepared(env, d, text).value) == ExpectedDiffers(d)
    ensures Get(Prepared(env, d, text).value, "stoped_taxes") == Get(d, "stoped_taxes")
  {
    PreparedFrame(env, d, text, "total");
    PreparedFrame(env, d, text, "subtotal");
    PreparedFrame(env, d, text, "transferred_taxes");
    PreparedFrame(env, d, text, "stoped_taxes");
    SameTaxFields(Prepared(env, d, text).value, d);
  }

  /** Dicts that agree on the four amounts expect the same withheld tax. */
  lemma SameTaxFields(a: Dict, b: Dict)
    requires Get(a, "total") == Get(b, "total") && Get(a, "subtotal") == Get(b, "subtotal")
    requires Get(a, "transferred_taxes") == Get(b, "transferred_taxes") && Get(a, "stoped_taxes") == Get(b, "stoped_taxes")
    ensures ExpectedStopedTaxes(a) == ExpectedStopedTaxes(b) && ExpectedDiffers(a) == ExpectedDiffers(b)
  {
    assert Field(a, "total") == Field(b, "total") && Field(a, "subtotal") == Field(b, "subtotal");
    assert Field(a, "transferred_taxes") == Field(b, "transferred_taxes");
    assert Field(a, "stoped_taxes") == Field(b, "stoped_taxes");
  }

  // ---- Mapping onto the invoice model ----

  /** `for field in fields: d[field] = _safe_decimal_convert(d.get(field, '0.00'))`. */
  function WithDecimals(env: PyEnv, d: Dict, fields: seq<string>): Dict
    decreases |fields|
  {
    if fields == [] then d
    else WithDecimals(env, Set(d, fields[0], VDecimal(SafeDecimal(env, GetOr(d, fields[0], VStr("0.00"))))), fields[1..])
  }

  /** Keys that are not listed keep their values. */
  lemma {:induction false} WithDecimalsFrame(env: PyEnv, d: Dict, fields: seq<string>, k: string)
    requires k !in fields
    ensures Get(WithDecimals(env, d, fields), k) == Get(d, k)
    decreases |fields|
  {
    if fields != [] {
      var v := VDecimal(SafeDecimal(env, GetOr(d, fields[0], VStr("0.00"))));
      GetSet(d, fields[0], v, k);
      WithDecimalsFrame(env, Set(d, fields[0], v), fields[1..], k);
    }
  }

  /** Each listed field ends up holding the Decimal its old value (or "0.00") converts to. */
  lemma {:induction false} WithDecimalsValue(env: PyEnv, d: Dict, fields: seq<string>, f: string)
    requires forall i, j :: 0 <= i < j < |fields| ==> fields[i] != fields[j]
    requires f in fields
    ensures Get(WithDecimals(env, d, fields), f) == Some(VDecimal(SafeDecimal(env, GetOr(d, f, VStr("0.00")))))
    decreases |fields|
  {
    var v := VDecimal(SafeDecimal(env, GetOr(d, fields[0], VStr("0.00"))));
    var d1 := Set(d, fields[0], v);
    GetSet(d, fields[0], v, f);
    if f == fields[0] {
      assert f !in fields[1..];
      WithDecimalsFrame(env, d1, fields[1..], f);
    } else {
      assert f in fields[1..];
      WithDecimalsValue(env, d1, fields[1..], f);
      assert GetOr(d1, f, VStr("0.00")) == GetOr(d, f, VStr("0.00"));
    }
  }

  /** The field loop over one dict. */
  method ConvertDecimals(env: PyEnv, d: Dict, fields: seq<string>) returns (r: Dict)
    ensures r == WithDecimals(env, d, fields)
  {
    r := d;
    var i := 0;
    while i < |fields|
      invariant 0 <= i <= |fields|
      invariant WithDecimals(env, r, fields[i..]) == WithDecimals(env, d, fields)
    {
      assert fields[i..][1..] == fields[i + 1..];
      var f := fields[i];
      r := Set(r, f, VDecimal(SafeDecimal(env, GetOr(r, f, VStr("0.00")))));
      i := i + 1;
    }
  }

  /** The duty list of a concept; `[]` when it is missing or not a list. */
  function DutyItems(c: Dict): seq<V>
  {
    match Get(c, "dutys_of_concept")
    case Some(VList(items)) => items
    case _ => []
  }

  /** `concept.get('object_duty', False)`. */
  function ObjectDuty(c: Dict): V
  {
    GetOr(c, "object_duty", VBool(false))
  }

  /** `concept['dutys_of_concept'] = []` unless it holds a list. */
  function DefaultDuties(c: Dict): (r: Dict)
    ensures Get(r, "dutys_of_concept") == Some(VList(DutyItems(c)))
    ensures SameExcept(r, c, "dutys_of_concept")
  {
    SetFrame(c, "dutys_of_concept", VList([]));
    if Get(c, "dutys_of_concept").Some? && Get(c, "dutys_of_concept").value.VList? then c
    else Set(c, "dutys_of_concept", VList([]))
  }

  /** The trip count as an integer; 1 when absent. */
  function MappedTrips(c: Dict): (n: int)
    ensures Get(c, "cuantity_trips").None? ==> n == 1
    ensures Get(c, "cuantity_trips").Some? ==> n == SafeInt(Get(c, "cuantity_trips").value, 1)
  {
    match Get(c, "cuantity_trips")
    case Some(v) => SafeInt(v, 1)
    case None => 1
  }

  /** `concept.get('object_duty', False) or len(duties) > 0`. */
  function MappedDuty(c: Dict): (v: V)
    ensures Truthy(v) <==> Truthy(ObjectDuty(c)) || DutyItems(c) != []
    ensures Truthy(ObjectDuty(c)) ==> v == ObjectDuty(c)
  {
    if Truthy(ObjectDuty(c)) then ObjectDuty(c) else VBool(DutyItems(c) != [])
  }

  /** The duty list defaulted, the trip count made an integer, and the duty flag set. */
  function ConceptDefaults(c: Dict): (r: Dict)
  {
    var c1 := DefaultDuties(c);
    var c2 := Set(c1, "cuantity_trips", VInt(MappedTrips(c)));
    Set(c2, "object_duty", MappedDuty(c))
  }

  /** What the defaults leave in a concept. */
  lemma {:induction false} ConceptDefaultsFields(c: Dict)
    ensures var r := ConceptDefaults(c);
      Get(r, "dutys_of_concept") == Some(VList(DutyItems(c)))
      && Get(r, "cuantity_trips") == Some(VInt(MappedTrips(c)))
      && Get(r, "object_duty") == Some(MappedDuty(c))
      && forall k :: k != "dutys_of_concept" && k != "cuantity_trips" && k != "object_duty" ==> Get(r, k) == Get(c, k)
  {
    var c1 := DefaultDuties(c);
    var c2 := Set(c1, "cuantity_trips", VInt(MappedTrips(c)));
    SetFrame(c1, "cuantity_trips", VInt(MappedTrips(c)));
    SetFrame(c2, "object_duty", MappedDuty(c));
  }

  /** The duties with their two amounts converted. */
  function MappedDuties(env: PyEnv, ds: seq<Dict>): (r: seq<Dict>)
    ensures |r| == |ds|
  {
    if ds == [] then [] else [WithDecimals(env, ds[0], DutyDecimalFields)] + MappedDuties(env, ds[1..])
  }

  /** The `i`-th mapped duty is the `i`-th duty with its amounts converted. */
  lemma {:induction false} MappedDutiesAt(env: PyEnv, ds: seq<Dict>, i: nat)
    requires i < |ds|
    ensures MappedDuties(env, ds)[i] == WithDecimals(env, ds[i], DutyDecimalFields)
  {
    if i > 0 {
      MappedDutiesAt(env, ds[1..], i - 1);
    }
  }

  /** One concept through the mapping; `None` where a duty is not a dict. */
  function MappedConcept(env: PyEnv, c: Dict): (r: Option<Dict>)
    ensures r.Some? <==> DictsOf(DutyItems(c)).Some?
  {
    match DictsOf(DutyItems(c))
    case None => None
    case Some(ds) =>
      var c1 := WithDecimals(env, ConceptDefaults(c), ConceptDecimalFields);
      Some(Set(c1, "dutys_of_concept", ListOfDicts(MappedDuties(env, ds))))
  }

  /** Past the defaults, the mapping of a concept touches only its amounts and duties. */
  lemma {:induction false} MappedConceptFrame(env: PyEnv, c: Dict, k: string)
    requires MappedConcept(env, c).Some?
    requires k !in ConceptDecimalFields && k != "dutys_of_concept"
    ensures Get(MappedConcept(env, c).value, k) == Get(ConceptDefaults(c), k)
  {
    var ds := DictsOf(DutyItems(c)).value;
    var c1 := WithDecimals(env, ConceptDefaults(c), ConceptDecimalFields);
    GetSet(c1, "dutys_of_concept", ListOfDicts(MappedDuties(env, ds)), k);
    WithDecimalsFrame(env, ConceptDefaults(c), ConceptDecimalFields, k);
  }

  /** The mapping gives a concept an integer trip count (1 when absent) and
      sets its duty flag when it has duties. */
  lemma {:induction false} MappedConceptCounts(env: PyEnv, c: Dict)
    requires MappedConcept(env, c).Some?
    ensures var r := MappedConcept(env, c).value;
      (Get(c, "cuantity_trips").None? ==> Get(r, "cuantity_trips") == Some(VInt(1)))
      && (Get(c, "cuantity_trips").Some? ==> Get(r, "cuantity_trips") == Some(VInt(SafeInt(Get(c, "cuantity_trips").value, 1))))
      && Get(r, "object_duty").Some? && (Truthy(Get(r, "object_duty").value) <==> Truthy(ObjectDuty(c)) || DutyItems(c) != [])
  {
    ConceptDefaultsFields(c);
    MappedConceptFrame(env, c, "cuantity_trips");
    MappedConceptFrame(env, c, "object_duty");
  }

  /** The mapping turns both amounts of a concept into Decimals. */
  lemma {:induction false} MappedConceptAmounts(env: PyEnv, c: Dict)
    requires MappedConcept(env, c).Some?
    ensures var r := MappedConcept(env, c).value;
      Get(r, "value_unit") == Some(VDecimal(SafeDecimal(env, GetOr(c, "value_unit", VStr("0.00")))))
      && Get(r, "import_total") == Some(VDecimal(SafeDecimal(env, GetOr(c, "import_total", VStr("0.00")))))
  {
    MappedConceptAmount(env, c, "value_unit");
    MappedConceptAmount(env, c, "import_total");
  }

  /** One amount of a mapped concept. */
  lemma {:induction false} MappedConceptAmount(env: PyEnv, c: Dict, f: string)
    requires MappedConcept(env, c).Some?
    requires f == "value_unit" || f == "import_total"
    ensures Get(MappedConcept(env, c).value, f) == Some(VDecimal(SafeDecimal(env, GetOr(c, f, VStr("0.00")))))
  {
    var ds := DictsOf(DutyItems(c)).value;
    var c0 := ConceptDefaults(c);
    var c1 := WithDecimals(env, c0, ConceptDecimalFields);
    ConceptDefaultsFields(c);
    GetSet(c1, "dutys_of_concept", ListOfDicts(MappedDuties(env, ds)), f);
    WithDecimalsValue(env, c0, ConceptDecimalFields, f);
    assert GetOr(c0, f, VStr("0.00")) == GetOr(c, f, VStr("0.00"));
  }

  /** The mapping keeps every duty of a concept, in order, with both amounts as Decimals. */
  lemma {:induction false} MappedConceptDuties(env: PyEnv, c: Dict)
    requires MappedConcept(env, c).Some?
    ensures var r := MappedConcept(env, c).value;
      Get(r, "dutys_of_concept").Some? && Get(r, "dutys_of_concept").value.VList?
      && var duties := DictsOf(Get(r, "dutys_of_concept").value.items);
      duties.Some? && |duties.value| == |DutyItems(c)|
      && forall i :: 0 <= i < |duties.value| ==> DutyMapped(env, DictsOf(DutyItems(c)).value[i], duties.value[i])
  {
    var ds := DictsOf(DutyItems(c)).value;
    var c1 := WithDecimals(env, ConceptDefaults(c), ConceptDecimalFields);
    var mapped := MappedDuties(env, ds);
    GetSet(c1, "dutys_of_concept", ListOfDicts(mapped), "dutys_of_concept");
    MappedDutiesConverted(env, ds);
  }

  lemma {:induction false} MappedDutiesConverted(env: PyEnv, ds: seq<Dict>)
    ensures forall i :: 0 <= i < |ds| ==> DutyMapped(env, ds[i], MappedDuties(env, ds)[i])
  {
    forall i | 0 <= i < |ds|
      ensures DutyMapped(env, ds[i], MappedDuties(env, ds)[i])
    {
      MappedDutiesAt(env, ds, i);
      WithDecimalsValue(env, ds[i], DutyDecimalFields, "base_import");
      WithDecimalsValue(env, ds[i], DutyDecimalFields, "import_with_fee_rate");
    }
  }

  /** A duty after the mapping: both amounts are the Decimals its old values convert to. */
  predicate DutyMapped(env: PyEnv, before: Dict, after: Dict)
  {
    Get(after, "base_import") == Some(VDecimal(SafeDecimal(env, GetOr(before, "base_import", VStr("0.00")))))
    && Get(after, "import_with_fee_rate") == Some(VDecimal(SafeDecimal(env, GetOr(before, "import_with_fee_rate", VStr("0.00")))))
  }

  /** The duty loop of one concept. */
  method ConvertDuties(env: PyEnv, ds: seq<Dict>) returns (done: seq<Dict>)
    ensures done == MappedDuties(env, ds)
  {
    done := [];
    var j := 0;
    while j < |ds|
      invariant 0 <= j <= |ds|
      invariant done == MappedDuties(env, ds[..j])
    {
      var duty := ConvertDecimals(env, ds[j], DutyDecimalFields);
      MappedDutiesSnoc(env, ds, j);
      done := done + [duty];
      j := j + 1;
    }
    assert ds[..j] == ds;
  }

  lemma MappedDutiesSnoc(env: PyEnv, ds: seq<Dict>, j: nat)
    requires j < |ds|
    ensures MappedDuties(env, ds[..j + 1]) == MappedDuties(env, ds[..j]) + [WithDecimals(env, ds[j], DutyDecimalFields)]
  {
    assert ds[..j + 1] == ds[..j] + [ds[j]];
    MappedDutiesAppend(env, ds[..j], [ds[j]]);
    assert [ds[j]][1..] == [];
  }

  /** Mapping a concatenation maps each part. */
  lemma {:induction false} MappedDutiesAppend(env: PyEnv, a: seq<Dict>, b: seq<Dict>)
    ensures MappedDuties(env, a + b) == MappedDuties(env, a) + MappedDuties(env, b)
  {
    if a == [] {
      assert a + b == b;
    } else {
      assert (a + b)[0] == a[0] && (a + b)[1..] == a[1..] + b;
      MappedDutiesAppend(env, a[1..], b);
    }
  }

  method MapConcept(env: PyEnv, c: Dict) returns (r: Option<Dict>)
    ensures r == MappedConcept(env, c)
  {
    var cur := ConceptDefaults(c);
    cur := ConvertDecimals(env, cur, ConceptDecimalFields);
    var ds := DictsOf(DutyItems(c));
    if ds.None? {
      return None;
    }
    var done := ConvertDuties(env, ds.value);
    return Some(Set(cur, "dutys_of_concept", ListOfDicts(done)));
  }

  /** The concepts the mapping iterates: the list, or `[]` when missing or not a list. */
  function ConceptItems(d: Dict): seq<V>
  {
    match Get(d, "concepts")
    case Some(VList(items)) => items
    case _ => []
  }

  function MappedConceptStep(env: PyEnv): Dict -> Option<Dict>
  {
    c => MappedConcept(env, c)
  }

  /** The emission time as `strptime` is given it: `T` and `/` replaced. */
  function EmissionText(s: string): string
  {
    ReplaceChar(ReplaceChar(s, 'T', " "), '/', "-")
  }

  /** `datetime_emisor` after the mapping: a parsed time or `None`; a
      non-empty value that is not a string raises (`.replace` is not a string
      method there), which the pipeline turns into `None`. */
  function EmissionDate(env: PyEnv, v: V): (r: Option<V>)
    ensures !Truthy(v) ==> r == Some(VNone)
    ensures Truthy(v) ==> (r.Some? <==> v.VStr?)
    ensures r.Some? ==> r.value.VNone? || r.value.VDateTime?
    ensures Truthy(v) && v.VStr? ==> (r.value.VDateTime? <==> env.strptime(EmissionText(v.s), EmissionFormat).Some?)
    ensures r.Some? && r.value.VDateTime? ==> v.VStr? && env.strptime(EmissionText(v.s), EmissionFormat) == Some(r.value.dt)
  {
    if !Truthy(v) then Some(VNone)
    else if !v.VStr? then None
    else match env.strptime(EmissionText(v.s), EmissionFormat)
      case Some(dt) => Some(VDateTime(dt))
      case None => Some(VNone)
  }

  /** The URL step of the mapping: only an empty URL is filled in. */
  function DefaultUrl(env: PyEnv, d: Dict): (r: Dict)
    ensures SameExcept(r, d, "url_qr")
    ensures Truthy(GetOr(d, "url_qr", VNone)) ==> r == d
    ensures UrlMatchesFolio(env, d) || !Truthy(GetOr(d, "url_qr", VNone)) ==> UrlMatchesFolio(env, r)
  {
    var folio := GetOr(d, "tax_folio", VNone);
    if !Truthy(GetOr(d, "url_qr", VNone)) && Truthy(folio) then
      SetFrame(d, "url_qr", UrlFor(env, folio));
      Set(d, "url_qr", UrlFor(env, folio))
    else d
  }

  /** The mapped concepts; `None` where a concept or one of its duties is not a dict. */
  function MappedConcepts(env: PyEnv, d: Dict): Option<seq<Dict>>
  {
    match DictsOf(ConceptItems(d))
    case None => None
    case Some(cs) => MapAll(cs, MappedConceptStep(env))
  }

  /** The invoice with its mapped concepts stored and its four amounts converted. */
  function WithMappedConcepts(env: PyEnv, d: Dict, ms: seq<Dict>): Dict
  {
    WithDecimals(env, Set(d, "concepts", ListOfDicts(ms)), InvoiceDecimalFields)
  }

  /** The last two steps of the mapping: the emission time and the URL. */
  function MappedTail(env: PyEnv, d: Dict): (r: Option<Dict>)
    ensures r.Some? <==> EmissionDate(env, GetOr(d, "datetime_emisor", VNone)).Some?
  {
    match EmissionDate(env, GetOr(d, "datetime_emisor", VNone))
    case None => None
    case Some(e) => Some(DefaultUrl(env, Set(d, "datetime_emisor", e)))
  }

  /** `_map_transport_data_to_pydantic`. */
  function Mapped(env: PyEnv, d: Dict): (r: Option<Dict>)
    ensures r.Some? ==> MappedConcepts(env, d).Some?
  {
    match MappedConcepts(env, d)
    case None => None
    case Some(ms) => MappedTail(env, WithMappedConcepts(env, d, ms))
  }

  /** One more concept through the loop. */
  lemma {:induction false} MapAllSnoc(cs: seq<Dict>, step: Dict -> Option<Dict>, i: nat)
    requires i < |cs| && MapAll(cs[..i], step).Some? && step(cs[i]).Some?
    ensures MapAll(cs[..i + 1], step) == Some(MapAll(cs[..i], step).value + [step(cs[i]).value])
  {
    var p, q := cs[..i + 1], cs[..i];
    assert forall j :: 0 <= j < |q| ==> p[j] == q[j];
    assert p[i] == cs[i];
    var a := MapAll(p, step);
    var b := MapAll(q, step).value + [step(cs[i]).value];
    assert forall j :: 0 <= j < |p| ==> step(p[j]).Some?;
    assert |a.value| == |b|;
    assert forall j :: 0 <= j < |b| ==> a.value[j] == b[j];
    assert a.value == b;
  }

  method MapTransportData(env: PyEnv, d: Dict) returns (r: Option<Dict>)
    ensures r == Mapped(env, d)
  {
    var cs := DictsOf(ConceptItems(d));
    if cs.None? {
      return None;
    }
    var ms: seq<Dict> := [];
    var i := 0;
    while i < |cs.value|
      invariant 0 <= i <= |cs.value|
      invariant MapAll(cs.value[..i], MappedConceptStep(env)) == Some(ms)
    {
      var m := MapConcept(env, cs.value[i]);
      assert MappedConceptStep(env)(cs.value[i]) == m;
      if m.None? {
        return None;
      }
      MapAllSnoc(cs.value, MappedConceptStep(env), i);
      ms := ms + [m.value];
      i := i + 1;
    }
    assert cs.value[..i] == cs.value;
    r := FinishMapping(env, d, ms);
  }

  /** The mapping once the concepts are done. */
  method FinishMapping(env: PyEnv, d: Dict, ms: seq<Dict>) returns (r: Option<Dict>)
    ensures r == MappedTail(env, WithMappedConcepts(env, d, ms))
  {
    var cur := Set(d, "concepts", ListOfDicts(ms));
    cur := ConvertDecimals(env, cur, InvoiceDecimalFields);
    var e := EmissionDate(env, GetOr(cur, "datetime_emisor", VNone));
    if e.None? {
      return None;
    }
    return Some(DefaultUrl(env, Set(cur, "datetime_emisor", e.value)));
  }

  /** The last two steps change only the emission time and an empty URL. */
  lemma {:induction false} MappedTailFrame(env: PyEnv, d: Dict, k: string)
    requires MappedTail(env, d).Some?
    requires k != "datetime_emisor" && k != "url_qr"
    ensures Get(MappedTail(env, d).value, k) == Get(d, k)
  {
    var e := EmissionDate(env, GetOr(d, "datetime_emisor", VNone)).value;
    GetSet(d, "datetime_emisor", e, k);
  }

  /** Storing the concepts and converting the amounts leaves every other key alone. */
  lemma {:induction false} WithMappedConceptsFrame(env: PyEnv, d: Dict, ms: seq<Dict>, k: string)
    requires k != "concepts" && k !in InvoiceDecimalFields
    ensures Get(WithMappedConcepts(env, d, ms), k) == Get(d, k)
  {
    GetSet(d, "concepts", ListOfDicts(ms), k);
    WithDecimalsFrame(env, Set(d, "concepts", ListOfDicts(ms)), InvoiceDecimalFields, k);
  }

  /** The mapping changes only the concepts, the four amounts, the emission
      time and an empty URL. */
  lemma {:induction false} MappedFrame(env: PyEnv, d: Dict, k: string)
    requires Mapped(env, d).Some?
    requires k != "concepts" && k != "datetime_emisor" && k != "url_qr" && k !in InvoiceDecimalFields
    ensures Get(Mapped(env, d).value, k) == Get(d, k)
  {
    var ms := MappedConcepts(env, d).value;
    WithMappedConceptsFrame(env, d, ms, k);
    MappedTailFrame(env, WithMappedConcepts(env, d, ms), k);
  }

  /** The mapped concepts correspond one to one, in order, to the concepts. */
  lemma {:induction false} MappedConceptsEach(env: PyEnv, d: Dict)
    requires MappedConcepts(env, d).Some?
    ensures var cs := DictsOf(ConceptItems(d)).value;
      var ms := MappedConcepts(env, d).value;
      |ms| == |cs| && forall i :: 0 <= i < |cs| ==> MappedConcept(env, cs[i]) == Some(ms[i])
  {
    var cs := DictsOf(ConceptItems(d)).value;
    assert forall i :: 0 <= i < |cs| ==> MappedConceptStep(env)(cs[i]) == MappedConcept(env, cs[i]);
  }

  /** After the mapping the invoice holds the mapped concepts. */
  lemma {:induction false} MappedConceptList(env: PyEnv, d: Dict, ms: seq<Dict>)
    requires MappedConcepts(env, d) == Some(ms) && Mapped(env, d).Some?
    ensures Get(Mapped(env, d).value, "concepts") == Some(ListOfDicts(ms))
  {
    WithMappedConceptsStored(env, d, ms);
    MappedTailFrame(env, WithMappedConcepts(env, d, ms), "concepts");
  }

  lemma {:induction false} WithMappedConceptsStored(env: PyEnv, d: Dict, ms: seq<Dict>)
    ensures Get(WithMappedConcepts(env, d, ms), "concepts") == Some(ListOfDicts(ms))
  {
    var d0 := Set(d, "concepts", ListOfDicts(ms));
    GetSet(d, "concepts", ListOfDicts(ms), "concepts");
    WithDecimalsFrame(env, d0, InvoiceDecimalFields, "concepts");
  }

  /** Storing the concepts and converting the amounts turns each amount into
      the Decimal its old value reads as. */
  lemma {:induction false} WithMappedConceptsAmount(env: PyEnv, d: Dict, ms: seq<Dict>, f: string)
    requires f in InvoiceDecimalFields
    ensures Get(WithMappedConcepts(env, d, ms), f) == Some(VDecimal(SafeDecimal(env, GetOr(d, f, VStr("0.00")))))
  {
    var d0 := Set(d, "concepts", ListOfDicts(ms));
    GetSet(d, "concepts", ListOfDicts(ms), f);
    assert GetOr(d0, f, VStr("0.00")) == GetOr(d, f, VStr("0.00"));
    InvoiceFieldsDistinct();
    WithDecimalsValue(env, d0, InvoiceDecimalFields, f);
  }

  lemma InvoiceFieldsDistinct()
    ensures forall i, j :: 0 <= i < j < |InvoiceDecimalFields| ==> InvoiceDecimalFields[i] != InvoiceDecimalFields[j]
  {
  }

  /** After the mapping the four amounts are Decimals read from their old values. */
  lemma {:induction false} MappedAmounts(env: PyEnv, d: Dict, f: string)
    requires Mapped(env, d).Some?
    requires f in InvoiceDecimalFields
    ensures Get(Mapped(env, d).value, f) == Some(VDecimal(SafeDecimal(env, GetOr(d, f, VStr("0.00")))))
  {
    var ms := MappedConcepts(env, d).value;
    MappedSteps(env, d);
    WithMappedConceptsAmount(env, d, ms, f);
    AmountsOutsideTail(f);
    MappedTailFrame(env, WithMappedConcepts(env, d, ms), f);
  }

  lemma AmountsOutsideTail(f: string)
    requires f in InvoiceDecimalFields
    ensures f != "datetime_emisor" && f != "url_qr" && f != "concepts"
  {
  }

  /** After the mapping the emission time is a parsed time or `None`. */
  lemma {:induction false} MappedEmission(env: PyEnv, d: Dict)
    requires Mapped(env, d).Some?
    ensures var r := Mapped(env, d).value;
      Get(r, "datetime_emisor").Some? && (Get(r, "datetime_emisor").value.VNone? || Get(r, "datetime_emisor").value.VDateTime?)
  {
    MappedSteps(env, d);
    TailEmission(env, WithMappedConcepts(env, d, MappedConcepts(env, d).value));
  }

  /** The tail steps leave a parsed emission time or `None`. */
  lemma {:induction false} TailEmission(env: PyEnv, d: Dict)
    requires MappedTail(env, d).Some?
    ensures var r := MappedTail(env, d).value;
      Get(r, "datetime_emisor").Some? && (Get(r, "datetime_emisor").value.VNone? || Get(r, "datetime_emisor").value.VDateTime?)
  {
    var e := EmissionDate(env, GetOr(d, "datetime_emisor", VNone)).value;
    GetSet(d, "datetime_emisor", e, "datetime_emisor");
  }

  /** The mapping keeps a URL that matches the folio, and fills in a missing one. */
  lemma {:induction false} MappedUrl(env: PyEnv, d: Dict)
    requires Mapped(env, d).Some?
    requires UrlMatchesFolio(env, d) || !Truthy(GetOr(d, "url_qr", VNone))
    ensures UrlMatchesFolio(env, Mapped(env, d).value)
  {
    var ms := MappedConcepts(env, d).value;
    var d1 := WithMappedConcepts(env, d, ms);
    MappedSteps(env, d);
    UrlFieldsKept(env, d, ms);
    TailUrl(env, d, d1);
  }

  /** Storing the concepts and converting the amounts keep the folio and the URL. */
  lemma UrlFieldsKept(env: PyEnv, d: Dict, ms: seq<Dict>)
    ensures var d1 := WithMappedConcepts(env, d, ms);
      Get(d1, "tax_folio") == Get(d, "tax_folio") && Get(d1, "url_qr") == Get(d, "url_qr")
  {
    WithMappedConceptsFrame(env, d, ms, "tax_folio");
    WithMappedConceptsFrame(env, d, ms, "url_qr");
  }

  /** A mapping that succeeds is the tail steps applied to the invoice with its concepts mapped. */
  lemma MappedSteps(env: PyEnv, d: Dict)
    requires Mapped(env, d).Some?
    ensures MappedConcepts(env, d).Some?
    ensures MappedTail(env, WithMappedConcepts(env, d, MappedConcepts(env, d).value)) == Mapped(env, d)
  {
  }

  /** Where the folio and URL are those of `d`, the last two steps leave the URL matching. */
  lemma {:induction false} TailUrl(env: PyEnv, d: Dict, d1: Dict)
    requires Get(d1, "tax_folio") == Get(d, "tax_folio") && Get(d1, "url_qr") == Get(d, "url_qr")
    requires MappedTail(env, d1).Some?
    requires UrlMatchesFolio(env, d) || !Truthy(GetOr(d, "url_qr", VNone))
    ensures UrlMatchesFolio(env, MappedTail(env, d1).value)
  {
    var e := EmissionDate(env, GetOr(d1, "datetime_emisor", VNone)).value;
    var d2 := Set(d1, "datetime_emisor", e);
    GetSet(d1, "datetime_emisor", e, "tax_folio");
    GetSet(d1, "datetime_emisor", e, "url_qr");
    assert GetOr(d2, "tax_folio", VNone) == GetOr(d, "tax_folio", VNone);
    assert GetOr(d2, "url_qr", VNone) == GetOr(d, "url_qr", VNone);
  }

  // ---- The whole weekly-invoice step ----

  /** The checks `process_facture_weekend_invoice` makes before correcting:
      non-blank text, and an answer that is a non-empty dict naming both the
      issuer's RFC and the folio. */
  function CheckedAnswer(text: string, ai: Option<V>): (r: Option<Dict>)
    ensures r.Some? <==> (PyStrip(text) != [] && ai.Some? && ai.value.VDict? && Truthy(ai.value)
      && Truthy(GetOr(ai.value.entries, "rfc_emisor", VNone)) && Truthy(GetOr(ai.value.entries, "tax_folio", VNone)))
    ensures r.Some? ==> r.value == ai.value.entries
  {
    if PyStrip(text) == [] then None
    else match ai
      case Some(VDict(d)) =>
        if d == [] || !Truthy(GetOr(d, "rfc_emisor", VNone)) || !Truthy(GetOr(d, "tax_folio", VNone)) then None
        else Some(d)
      case _ => None
  }

  /** `process_facture_weekend_invoice` once the model has answered with
      `ai` (`None` when the request failed or the answer was not JSON); the
      result is what is handed to the invoice model. */
  function WeekendInvoice(env: PyEnv, text: string, ai: Option<V>): Option<Dict>
  {
    match CheckedAnswer(text, ai)
    case None => None
    case Some(d) =>
      match Corrected(env, d, text)
      case None => None
      case Some(c) => Mapped(env, c)
  }

  /** Whenever the invoice's folio is non-empty, its URL is exactly the SAT
      verification page followed by the folio. */
  lemma {:induction false} WeekendInvoiceUrl(env: PyEnv, text: string, ai: Option<V>)
    requires WeekendInvoice(env, text, ai).Some?
    ensures UrlMatchesFolio(env, WeekendInvoice(env, text, ai).value)
  {
    var d := CheckedAnswer(text, ai).value;
    MappedUrl(env, Corrected(env, d, text).value);
  }

  method ProcessWeekendInvoice(env: PyEnv, text: string, ai: Option<V>) returns (r: Option<Dict>)
    ensures r == WeekendInvoice(env, text, ai)
    ensures r.Some? ==> CheckedAnswer(text, ai).Some?
  {
    if PyStrip(text) == [] {
      return None;
    }
    if ai.None? || !ai.value.VDict? || !Truthy(ai.value) {
      return None;
    }
    var d := ai.value.entries;
    if !Truthy(GetOr(d, "rfc_emisor", VNone)) || !Truthy(GetOr(d, "tax_folio", VNone)) {
      return None;
    }
    var corrected := ApplyCorrections(env, d, text);
    if corrected.None? {
      return None;
    }
    r := MapTransportData(env, corrected.value);
  }
}
