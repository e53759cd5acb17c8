/** Telling the two invoice kinds apart from the recognised text. Each kind
    has a table of keyword groups; a kind scores one point for every group
    found in the lower-cased text, and the transport receipt ("trip") wins
    only with a strictly higher score. As written, the search uses the group
    NAMES as the regular expressions; the group's own expressions are what
    the table evidently means. Both are modelled. */
module InvoiceType {
  import opened Wrappers
  import opened Text

  const Weekend := "facture_weekend"
  const Trip := "facture_trip"

  /** A regular expression of the tables: words separated by `\s*`. */
  type Pattern = seq<string>

  datatype Group = Group(name: string, patterns: seq<Pattern>)

  /** The keyword groups of the weekly transport invoice (CFDI). `conceptos?`
      is found exactly where `concepto` is. */
  const RfcEmisor := Group("rfc_emisor", [["rfc", "emisor"], ["emisor", "rfc"], ["rfc"]])
  const FolioFiscal := Group("folio_fiscal", [["folio", "fiscal"], ["uuid"], ["folio"]])
  const Cfdi := Group("cfdi", [["cfdi"], ["comprobante"]])
  const Conceptos := Group("conceptos", [["concepto"], ["descripcion"]])
  const NombreReceptor := Group("nombre_receptor", [["nombre", "receptor"], ["receptor"]])
  const RfcReceptor := Group("rfc_receptor", [["rfc", "receptor"], ["receptor", "rfc"]])
  const MetodoPago := Group("metodo_pago", [["metodo", "pago"], ["forma", "pago"]])
  const Moneda := Group("moneda", [["moneda"], ["divisa"]])
  const WeekendGroups: seq<Group> := [RfcEmisor, FolioFiscal, Cfdi, Conceptos, NombreReceptor, RfcReceptor, MetodoPago, Moneda]

  /** The keyword groups of the transport receipt. */
  const Clave := Group("clave", [["clave"]])
  const PesoBruto := Group("peso_bruto", [["peso", "bruto"], ["bruto"]])
  const PesoTara := Group("peso_tara", [["peso", "tara"], ["tara"]])
  const TipoMaterial := Group("tipo_material", [["tipo", "material"], ["material"]])
  const Recibido := Group("recibido", [["recibido"]])
  const Pacas := Group("pacas", [["pacas"]])
  const TipoDocumento := Group("tipo_documento", [["tipo", "documento"], ["documento"]])
  const Placas := Group("placas", [["placas"]])
  const Salida := Group("salida", [["salida"]])
  const TipoMovimiento := Group("tipo_movimiento", [["tipo", "movimiento"], ["movimiento"]])
  const PorcentajeNoAptos := Group("porcentaje_no_aptos", [["%", "no", "aptos"], ["no", "aptos"], ["porcentaje"]])
  const PesoNeto := Group("peso_neto", [["peso", "neto"], ["neto"]])
  const Humedad := Group("humedad", [["humedad"]])
  const TripGroups: seq<Group> := [Clave, PesoBruto, PesoTara, TipoMaterial, Recibido, Pacas, TipoDocumento, Placas, Salida, TipoMovimiento, PorcentajeNoAptos, PesoNeto, Humedad]

  /** `t` begins with the pattern: each word, then any run of white space
      before the next one. Every word starts with a non-space character, so
      skipping the whole run is the only way `\s*` can let the next word match. */
  predicate MatchesAt(t: string, p: Pattern)
    decreases |p|
  {
    p == [] || (StartsWith(t, p[0]) && MatchesAt(TrimStart(t[|p[0]|..], IsPySpace), p[1..]))
  }

  /** `re.search(p, t)`. */
  predicate Search(t: string, p: Pattern)
  {
    exists i :: 0 <= i <= |t| && MatchesAt(t[i..], p)
  }

  predicate GroupFound(t: string, g: Group)
  {
    exists j :: 0 <= j < |g.patterns| && Search(t, g.patterns[j])
  }

  /** The score as intended: the number of groups one of whose expressions occurs. */
  function PatternScore(t: string, groups: seq<Group>): (n: nat)
    ensures n <= |groups|
  {
    if groups == [] then 0
    else PatternScore(t, groups[..|groups| - 1]) + (if GroupFound(t, groups[|groups| - 1]) then 1 else 0)
  }

  /** The score as written: the number of group names that occur literally
      (the names hold only letters and `_`, which a regular expression takes literally). */
  function NameScore(t: string, groups: seq<Group>): (n: nat)
    ensures n <= |groups|
  {
    if groups == [] then 0
    else NameScore(t, groups[..|groups| - 1]) + (if Contains(t, groups[|groups| - 1].name) then 1 else 0)
  }

  /** `max(scores, key=scores.get)` over `{weekend: w, trip: t}`, which keeps
      the first of equal maxima, followed by the zero-score fallback. */
  function Verdict(weekendScore: nat, tripScore: nat): (kind: string)
    ensures kind == Trip <==> tripScore > weekendScore
    ensures kind == Weekend <==> tripScore <= weekendScore
  {
    var detected := if tripScore > weekendScore then Trip else Weekend;
    var best := if tripScore > weekendScore then tripScore else weekendScore;
    if best == 0 then Weekend else detected
  }

  /** The inner loop as written: one point per group name found. */
  method CountNames(t: string, groups: seq<Group>) returns (score: nat)
    ensures score == NameScore(t, groups)
  {
    score := 0;
    var i := 0;
    while i < |groups|
      invariant 0 <= i <= |groups|
      invariant score == NameScore(t, groups[..i])
    {
      assert groups[..i + 1][..i] == groups[..i];
      if Contains(t, groups[i].name) {
        score := score + 1;
      }
      i := i + 1;
    }
    assert groups[..|groups|] == groups;
  }

  /** The inner loop as intended: one point per group any of whose expressions is found. */
  method CountGroups(t: string, groups: seq<Group>) returns (score: nat)
    ensures score == PatternScore(t, groups)
  {
    score := 0;
    var i := 0;
    while i < |groups|
      invariant 0 <= i <= |groups|
      invariant score == PatternScore(t, groups[..i])
    {
      assert groups[..i + 1][..i] == groups[..i];
      var found := false;
      var j := 0;
      while j < |groups[i].patterns| && !found
        invariant 0 <= j <= |groups[i].patterns|
        invariant found <==> exists k :: 0 <= k < j && Search(t, groups[i].patterns[k])
      {
        found := Search(t, groups[i].patterns[j]);
        j := j + 1;
      }
      if found {
        score := score + 1;
      }
      i := i + 1;
    }
    assert groups[..|groups|] == groups;
  }

  /** `_detect_invoice_type` as written. */
  method DetectAsWritten(text: string) returns (kind: string)
    ensures kind == Weekend || kind == Trip
    ensures kind == Trip <==> NameScore(PyLower(text), TripGroups) > NameScore(PyLower(text), WeekendGroups)
  {
    var t := PyLower(text);
    var weekendScore := CountNames(t, WeekendGroups);
    var tripScore := CountNames(t, TripGroups);
    kind := Verdict(weekendScore, tripScore);
  }

  /** `_detect_invoice_type` with the group expressions it evidently meant to search for. */
  method Detect(text: string) returns (kind: string)
    ensures kind == Weekend || kind == Trip
    ensures kind == Trip <==> PatternScore(PyLower(text), TripGroups) > PatternScore(PyLower(text), WeekendGroups)
  {
    var t := PyLower(text);
    var weekendScore := CountGroups(t, WeekendGroups);
    var tripScore := CountGroups(t, TripGroups);
    kind := Verdict(weekendScore, tripScore);
  }

  /** The guard and the classification of `process_extracted_text`, with the
      detector as written: empty or white-space-only text is not classified;
      anything else goes to the type whose group names occur more often. */
  method ProcessExtractedText(text: string) returns (kind: Option<string>)
    ensures kind.None? <==> forall i :: 0 <= i < |text| ==> IsPySpace(text[i])
    ensures kind.Some? ==> kind.value == Weekend || kind.value == Trip
    ensures kind.Some? ==> (kind.value == Trip <==>
      NameScore(PyLower(text), TripGroups) > NameScore(PyLower(text), WeekendGroups))
  {
    TrimEmptyIffAllSpace(text, IsPySpace);
    if text == [] || PyStrip(text) == [] {
      return None;
    }
    var k := DetectAsWritten(text);
    return Some(k);
  }

  // ---- A text that shows the difference ----

  /** Some letter of `w` does not occur in `t`. */
  predicate LacksLetter(t: string, w: string)
  {
    exists k :: 0 <= k < |w| && w[k] !in t
  }

  /** A word lacking a letter of `t` does not occur in `t`, nor in any suffix of it. */
  lemma {:induction false} LacksLetterAbsent(t: string, w: string)
    requires LacksLetter(t, w)
    ensures !Contains(t, w)
    decreases |t|
  {
    var k :| 0 <= k < |w| && w[k] !in t;
    if |w| <= |t| {
      assert t[k] in t;
      assert t[..|w|][k] != w[k];
    }
    if |t| > 0 {
      assert w[k] !in t[1..] by {
        assert forall c :: c in t[1..] ==> c in t;
      }
      LacksLetterAbsent(t[1..], w);
    }
  }

  /** Every expression of a group has a first word lacking a letter of `t`. */
  predicate PatternsLack(t: string, ps: seq<Pattern>)
  {
    forall j :: 0 <= j < |ps| ==> ps[j] != [] && LacksLetter(t, ps[j][0])
  }

  /** An expression whose first word lacks a letter of `t` is not found in `t`. */
  lemma NotSearched(t: string, p: Pattern)
    requires p != [] && LacksLetter(t, p[0])
    ensures !Search(t, p)
  {
    var k :| 0 <= k < |p[0]| && p[0][k] !in t;
    forall i | 0 <= i <= |t|
      ensures !MatchesAt(t[i..], p)
    {
      assert p[0][k] !in t[i..] by {
        assert forall c :: c in t[i..] ==> c in t;
      }
      LacksLetterAbsent(t[i..], p[0]);
    }
  }

  /** No group name and no expression of the groups can be found in a text
      that lacks a letter of each name and of each expression's first word. */
  lemma {:induction false} AbsentLetters(t: string, groups: seq<Group>)
    requires forall i :: 0 <= i < |groups| ==> LacksLetter(t, groups[i].name)
    requires forall i :: 0 <= i < |groups| ==> PatternsLack(t, groups[i].patterns)
    ensures NameScore(t, groups) == 0 && PatternScore(t, groups) == 0
    decreases |groups|
  {
    if groups != [] {
      var n := |groups| - 1;
      var g := groups[n];
      var prefix := groups[..n];
      assert forall i :: 0 <= i < n ==> prefix[i] == groups[i];
      AbsentLetters(t, prefix);
      LacksLetterAbsent(t, g.name);
      forall j | 0 <= j < |g.patterns|
        ensures !Search(t, g.patterns[j])
      {
        NotSearched(t, g.patterns[j]);
      }
    }
  }

  lemma {:induction false} NameScoreZero(t: string, groups: seq<Group>)
    requires forall i :: 0 <= i < |groups| ==> LacksLetter(t, groups[i].name)
    ensures NameScore(t, groups) == 0
    decreases |groups|
  {
    if groups != [] {
      var n := |groups| - 1;
      var prefix := groups[..n];
      assert forall i :: 0 <= i < n ==> prefix[i] == groups[i];
      NameScoreZero(t, prefix);
      LacksLetterAbsent(t, groups[n].name);
    }
  }

  lemma {:induction false} PatternScoreFound(t: string, groups: seq<Group>, i: nat)
    requires i < |groups| && GroupFound(t, groups[i])
    ensures PatternScore(t, groups) >= 1
    decreases |groups|
  {
    if i < |groups| - 1 {
      assert groups[..|groups| - 1][i] == groups[i];
      PatternScoreFound(t, groups[..|groups| - 1], i);
    }
  }

  /** A scale ticket line that only reads "Tara" (the tare weight). */
  const TaraLine := "Tara"

  lemma TaraLineLowered()
    ensures PyLower(TaraLine) == "tara"
  {
    assert Lower(TaraLine) == "tara";
  }

  /** No weekend group, by name or by expression, occurs in "tara". */
  lemma WeekendAbsentFromTara()
    ensures NameScore("tara", WeekendGroups) == 0 && PatternScore("tara", WeekendGroups) == 0
  {
    var t := "tara";
    forall i | 0 <= i < |WeekendGroups|
      ensures LacksLetter(t, WeekendGroups[i].name) && PatternsLack(t, WeekendGroups[i].patterns)
    {
      if i == 0 { RfcEmisorLacksTara(); }
      else if i == 1 { FolioFiscalLacksTara(); }
      else if i == 2 { CfdiLacksTara(); }
      else if i == 3 { ConceptosLacksTara(); }
      else if i == 4 { NombreReceptorLacksTara(); }
      else if i == 5 { RfcReceptorLacksTara(); }
      else if i == 6 { MetodoPagoLacksTara(); }
      else { MonedaLacksTara(); }
    }
    AbsentLetters(t, WeekendGroups);
  }

  lemma RfcEmisorLacksTara()
    ensures LacksLetter("tara", RfcEmisor.name) && PatternsLack("tara", RfcEmisor.patterns)
  {
    assert RfcEmisor.name[1] !in "tara";
    assert RfcEmisor.patterns[0][0][1] !in "tara";
    assert RfcEmisor.patterns[1][0][0] !in "tara";
    assert RfcEmisor.patterns[2][0][1] !in "tara";
  }

  lemma FolioFiscalLacksTara()
    ensures LacksLetter("tara", FolioFiscal.name) && PatternsLack("tara", FolioFiscal.patterns)
  {
    assert FolioFiscal.name[0] !in "tara";
    assert FolioFiscal.patterns[0][0][0] !in "tara";
    assert FolioFiscal.patterns[1][0][0] !in "tara";
    assert FolioFiscal.patterns[2][0][0] !in "tara";
  }

  lemma CfdiLacksTara()
    ensures LacksLetter("tara", Cfdi.name) && PatternsLack("tara", Cfdi.patterns)
  {
    assert Cfdi.name[0] !in "tara";
    assert Cfdi.patterns[0][0][0] !in "tara";
    assert Cfdi.patterns[1][0][0] !in "tara";
  }

  lemma ConceptosLacksTara()
    ensures LacksLetter("tara", Conceptos.name) && PatternsLack("tara", Conceptos.patterns)
  {
    assert Conceptos.name[0] !in "tara";
    assert Conceptos.patterns[0][0][0] !in "tara";
    assert Conceptos.patterns[1][0][0] !in "tara";
  }

  lemma NombreReceptorLacksTara()
    ensures LacksLetter("tara", NombreReceptor.name) && PatternsLack("tara", NombreReceptor.patterns)
  {
    assert NombreReceptor.name[0] !in "tara";
    assert NombreReceptor.patterns[0][0][0] !in "tara";
    assert NombreReceptor.patterns[1][0][1] !in "tara";
  }

  lemma RfcReceptorLacksTara()
    ensures LacksLetter("tara", RfcReceptor.name) && PatternsLack("tara", RfcReceptor.patterns)
  {
    assert RfcReceptor.name[1] !in "tara";
    assert RfcReceptor.patterns[0][0][1] !in "tara";
    assert RfcReceptor.patterns[1][0][1] !in "tara";
  }

  lemma MetodoPagoLacksTara()
    ensures LacksLetter("tara", MetodoPago.name) && PatternsLack("tara", MetodoPago.patterns)
  {
    assert MetodoPago.name[0] !in "tara";
    assert MetodoPago.patterns[0][0][0] !in "tara";
    assert MetodoPago.patterns[1][0][0] !in "tara";
  }

  lemma MonedaLacksTara()
    ensures LacksLetter("tara", Moneda.name) && PatternsLack("tara", Moneda.patterns)
  {
    assert Moneda.name[0] !in "tara";
    assert Moneda.patterns[0][0][0] !in "tara";
    assert Moneda.patterns[1][0][0] !in "tara";
  }

  /** No trip group name occurs in "tara". */
  lemma TripNamesAbsentFromTara()
    ensures NameScore("tara", TripGroups) == 0
  {
    forall i | 0 <= i < |TripGroups|
      ensures LacksLetter("tara", TripGroups[i].name)
    {
      if i == 0 { assert Clave.name[0] !in "tara"; }
      else if i == 1 { assert PesoBruto.name[0] !in "tara"; }
      else if i == 2 { assert PesoTara.name[0] !in "tara"; }
      else if i == 3 { assert TipoMaterial.name[1] !in "tara"; }
      else if i == 4 { assert Recibido.name[1] !in "tara"; }
      else if i == 5 { assert Pacas.name[0] !in "tara"; }
      else if i == 6 { assert TipoDocumento.name[1] !in "tara"; }
      else if i == 7 { assert Placas.name[0] !in "tara"; }
      else if i == 8 { assert Salida.name[0] !in "tara"; }
      else if i == 9 { assert TipoMovimiento.name[1] !in "tara"; }
      else if i == 10 { assert PorcentajeNoAptos.name[0] !in "tara"; }
      else if i == 11 { assert PesoNeto.name[0] !in "tara"; }
      else { assert Humedad.name[0] !in "tara"; }
    }
    NameScoreZero("tara", TripGroups);
  }

  /** The tare expression `tara` of the trip table occurs in "tara". */
  lemma TripFoundInTara()
    ensures PatternScore("tara", TripGroups) >= 1
  {
    var t := "tara";
    assert MatchesAt(t, PesoTara.patterns[1]) by {
      assert StartsWith(t, "tara");
      assert t[4..] == [];
    }
    assert t[0..] == t;
    assert GroupFound(t, TripGroups[2]);
    PatternScoreFound(t, TripGroups, 2);
  }

  /** A receipt that only shows "Tara" scores 0 to 0 as written and is taken
      for a weekly invoice; the intended search finds the tare-weight group. */
  lemma TaraMisclassified()
    ensures Verdict(NameScore(PyLower(TaraLine), WeekendGroups), NameScore(PyLower(TaraLine), TripGroups)) == Weekend
    ensures Verdict(PatternScore(PyLower(TaraLine), WeekendGroups), PatternScore(PyLower(TaraLine), TripGroups)) == Trip
  {
    TaraLineLowered();
    WeekendAbsentFromTara();
    TripNamesAbsentFromTara();
    TripFoundInTara();
  }
}
