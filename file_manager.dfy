/** The naming and lookup rules of the invoice store: date-stamped folder
    names and how they are read back, the folder a trip receipt joins, the
    date-range search, the name a corrected invoice's folder gets and when the
    folder is renamed. The filesystem is passed in as listings of folder
    entries and the contents of their `factura.json`. */
module FileManager {
  import opened Wrappers
  import opened Text
  import opened Calendar
  import opened PyValue
  import TripProcessor

  // ---- Folder names ----

  /** A field of `strftime` printed with `%m`, `%d`, `%H`, `%M` or `%S`. */
  function Field2(n: int): (s: string)
    ensures 0 <= n < 100 ==> |s| == 2 && AllDigits(s) && DigitsValue(s) == n
  {
    if n < 0 then IntToString(n) else Pad2(n)
  }

  /** `dt.strftime("%Y-%m-%d")`; `%Y` is not padded below the year 1000. */
  function DateText(dt: DateTime): string
  {
    IntToString(dt.year) + "-" + Field2(dt.month) + "-" + Field2(dt.day)
  }

  /** `dt.strftime("%Y-%m-%d_%H-%M-%S")`, the name of a weekly invoice's folder
      (`_create_date_based_folder_name`). */
  function FolderName(dt: DateTime): string
  {
    DateText(dt) + "_" + Field2(dt.hour) + "-" + Field2(dt.minute) + "-" + Field2(dt.second)
  }

  /** The character at position `i` of `\d{4}-\d{2}-\d{2}_\d{2}-\d{2}-\d{2}`. */
  predicate StampChar(i: int, c: char)
  {
    if i == 4 || i == 7 || i == 13 || i == 16 then c == '-'
    else if i == 10 then c == '_'
    else IsDigit(c)
  }

  /** `_is_valid_date_folder`: `re.match` anchors at the start only, so a name
      is valid when it BEGINS with a stamp, whatever follows. */
  predicate IsValidDateFolder(name: string)
  {
    |name| >= 19 && forall i :: 0 <= i < 19 ==> StampChar(i, name[i])
  }

  /** Text after a stamp does not make a name invalid. */
  lemma ValidFolderPrefix(name: string, rest: string)
    requires IsValidDateFolder(name)
    ensures IsValidDateFolder(name + rest)
  {
    assert forall i :: 0 <= i < 19 ==> (name + rest)[i] == name[i];
  }

  /** `_parse_date_folder_name` on a name of the valid shape: `strptime` reads
      the six fields and rejects the name when text follows the stamp
      ("unconverted data remains") or a field is out of range. */
  function ParseFolderName(name: string): (r: Option<DateTime>)
    requires IsValidDateFolder(name)
    ensures r.Some? ==> |name| == 19 && ValidDateTime(r.value)
  {
    assert AllDigits(name[0..4]) && AllDigits(name[5..7]) && AllDigits(name[8..10]);
    assert AllDigits(name[11..13]) && AllDigits(name[14..16]) && AllDigits(name[17..19]);
    var dt := DateTime(DigitsValue(name[0..4]), DigitsValue(name[5..7]), DigitsValue(name[8..10]),
      DigitsValue(name[11..13]), DigitsValue(name[14..16]), DigitsValue(name[17..19]));
    if |name| == 19 && ValidDateTime(dt) then Some(dt) else None
  }

  /** The folder of a date-time from the year 1000 on is a valid name and
      reads back as that date-time. */
  lemma {:induction false} FolderNameRoundTrip(dt: DateTime)
    requires ValidDateTime(dt) && dt.year >= 1000
    ensures IsValidDateFolder(FolderName(dt))
    ensures ParseFolderName(FolderName(dt)) == Some(dt)
  {
    FourDigitText(dt.year);
    var y, mo, d := IntToString(dt.year), Field2(dt.month), Field2(dt.day);
    var h, mi, s := Field2(dt.hour), Field2(dt.minute), Field2(dt.second);
    var name := FolderName(dt);
    assert name == y + "-" + mo + "-" + d + "_" + h + "-" + mi + "-" + s;
    assert |name| == 19;
    assert name[0..4] == y && name[5..7] == mo && name[8..10] == d;
    assert name[11..13] == h && name[14..16] == mi && name[17..19] == s;
    assert IsValidDateFolder(name) by {
      forall i | 0 <= i < 19
        ensures StampChar(i, name[i])
      {
        if i < 4 { assert name[i] == y[i]; }
        else if 4 < i < 7 { assert name[i] == mo[i - 5]; }
        else if 7 < i < 10 { assert name[i] == d[i - 8]; }
        else if 10 < i < 13 { assert name[i] == h[i - 11]; }
        else if 13 < i < 16 { assert name[i] == mi[i - 14]; }
        else if 16 < i { assert name[i] == s[i - 17]; }
      }
    }
  }

  /** Before the year 1000 the unpadded year breaks the stamp, so the folder
      of such a date is never listed by the search. */
  lemma EarlyYearsInvalid(dt: DateTime)
    requires 1 <= dt.year < 1000
    ensures !IsValidDateFolder(FolderName(dt))
  {
    NatToStringLength(dt.year, 3);
    var y := IntToString(dt.year);
    var name := FolderName(dt);
    assert name[|y|] == '-';
    if |name| >= 19 {
      assert !StampChar(|y|, name[|y|]);
    }
  }

  // ---- Parsing a stored date ----

  /** `_parse_datetime`: a date-time as it is, the current time for a falsy
      value, otherwise the first of the nine formats that reads the stripped
      text, and the current time when none does. */
  function ParsedOrNow(env: PyEnv, v: V): (dt: DateTime)
    ensures v.VDateTime? ==> dt == v.dt
    ensures !Truthy(v) ==> dt == env.now
    ensures Truthy(v) && !v.VDateTime? ==>
      var parsed := TripProcessor.FirstParse(env, PyStrip(Display(env, v)), TripProcessor.DateFormats);
      dt == if parsed.Some? then parsed.value else env.now
  {
    match TripProcessor.FlexibleDate(env, v)
    case Some(d) => d
    case None => env.now
  }

  method ParseDateTime(env: PyEnv, v: V) returns (dt: DateTime)
    ensures dt == ParsedOrNow(env, v)
  {
    var parsed := TripProcessor.ParseFlexibleDate(env, v);
    dt := if parsed.Some? then parsed.value else env.now;
  }

  // ---- The weekend folder of a trip ----

  /** A folder under a company: its name, whether it is a directory, and its
      `factura.json` as `json.load` reads it (`None` when it is missing or
      unreadable). */
  datatype FolderEntry = FolderEntry(name: string, isDir: bool, invoice: Option<V>)

  /** The calendar day of a date-time (`dt.date()`). */
  function DayOf(dt: DateTime): DateTime
  {
    DateTime(dt.year, dt.month, dt.day, 0, 0, 0)
  }

  /** Whether a concept's description mentions the code: `None` where the loop
      raises (a concept that is not a dict, a description `in` cannot search). */
  function ConceptsMention(code: string, concepts: seq<V>): (r: Option<bool>)
  {
    if concepts == [] then Some(false)
    else if !concepts[0].VDict? then None
    else match PyIn(code, GetOr(concepts[0].entries, "description", VStr("")))
      case None => None
      case Some(true) => Some(true)
      case Some(false) => ConceptsMention(code, concepts[1..])
  }

  /** A concept is a dict whose description `in` can search, with outcome `found`. */
  predicate Searched(code: string, concept: V, found: bool)
  {
    concept.VDict? && PyIn(code, GetOr(concept.entries, "description", VStr(""))) == Some(found)
  }

  /** Concept `k` has the code, and every concept before it is a dict whose
      description lacks it. */
  predicate MentionedAt(code: string, concepts: seq<V>, k: int)
  {
    0 <= k < |concepts| && Searched(code, concepts[k], true)
    && forall j :: 0 <= j < k ==> Searched(code, concepts[j], false)
  }

  /** `ConceptsMention` finds the code exactly when some concept has it and
      every concept before it is a dict whose description lacks it. */
  lemma {:induction false} ConceptsMentionWitness(code: string, concepts: seq<V>)
    ensures ConceptsMention(code, concepts) == Some(true) <==> exists k :: MentionedAt(code, concepts, k)
  {
    if concepts != [] && Searched(code, concepts[0], false) {
      var rest := concepts[1..];
      ConceptsMentionWitness(code, rest);
      if ConceptsMention(code, concepts) == Some(true) {
        var k :| MentionedAt(code, rest, k);
        assert forall j :: 1 <= j < k + 2 ==> concepts[j] == rest[j - 1];
        assert MentionedAt(code, concepts, k + 1);
      }
      if exists k :: MentionedAt(code, concepts, k) {
        var k :| MentionedAt(code, concepts, k);
        assert forall j :: 0 <= j < k ==> rest[j] == concepts[j + 1];
        assert MentionedAt(code, rest, k - 1);
      }
    } else if concepts != [] && Searched(code, concepts[0], true) {
      assert MentionedAt(code, concepts, 0);
    } else if concepts != [] {
      forall k | 0 <= k < |concepts|
        ensures !MentionedAt(code, concepts, k)
      {
        if k > 0 {
          assert !Searched(code, concepts[0], false);
        }
      }
    }
  }

  /** Whether a stored weekly invoice mentions the code, in a concept's
      description or in the general description. Everything that raises
      inside the `try` (a non-dict document or `data_facture`, a concept that
      is not a dict, a description `in` cannot search) skips the folder. */
  function InvoiceMentions(code: string, invoice: V): bool
  {
    match invoice
    case VDict(doc) =>
      if "data_facture" !in Keys(doc) then false
      else (match GetOr(doc, "data_facture", VNone)
        case VDict(data) =>
          var concepts := GetOr(data, "concepts", VNone);
          var inConcepts := if "concepts" in Keys(data) && concepts.VList? then ConceptsMention(code, concepts.items) else Some(false);
          (match inConcepts
           case None => false
           case Some(true) => true
           case Some(false) => PyIn(code, GetOr(data, "description", VStr(""))) == Some(true))
        case _ => false)
    case _ => false
  }

  /** A mention is found only in the `data_facture` dict: in the description of
      one of its concepts, or in its general description. */
  lemma MentionIsInData(code: string, invoice: V)
    requires InvoiceMentions(code, invoice)
    ensures invoice.VDict? && "data_facture" in Keys(invoice.entries)
    ensures var data := GetOr(invoice.entries, "data_facture", VNone);
      data.VDict? && (
        PyIn(code, GetOr(data.entries, "description", VStr(""))) == Some(true)
        || (GetOr(data.entries, "concepts", VNone).VList?
          && exists k :: MentionedAt(code, GetOr(data.entries, "concepts", VNone).items, k)))
  {
    var data := GetOr(invoice.entries, "data_facture", VNone);
    var concepts := GetOr(data.entries, "concepts", VNone);
    if concepts.VList? {
      ConceptsMentionWitness(code, concepts.items);
    }
  }

  /** The test a folder passes to receive the trip: a directory whose leading
      date is not before the trip's day and whose invoice mentions the code. */
  predicate FolderMatches(env: PyEnv, code: string, tripDate: DateTime, e: FolderEntry)
  {
    e.isDir
    && match env.strptime(BeforeFirst(e.name, '_'), "%Y-%m-%d")
      case None => false
      case Some(folderDate) =>
        !Before(DayOf(folderDate), DayOf(tripDate)) && e.invoice.Some? && InvoiceMentions(code, e.invoice.value)
  }

  function MatchTest(env: PyEnv, code: string, tripDate: DateTime): FolderEntry -> bool
  {
    e => FolderMatches(env, code, tripDate, e)
  }

  /** The name of the first entry that passes `test`. */
  function FirstNameWhere(entries: seq<FolderEntry>, test: FolderEntry -> bool): Option<string>
  {
    if entries == [] then None
    else if test(entries[0]) then Some(entries[0].name)
    else FirstNameWhere(entries[1..], test)
  }

  lemma {:induction false} FirstNameWhereIsFirst(entries: seq<FolderEntry>, test: FolderEntry -> bool)
    ensures FirstNameWhere(entries, test).None? <==> forall i :: 0 <= i < |entries| ==> !test(entries[i])
    ensures FirstNameWhere(entries, test).Some? ==>
      exists i :: 0 <= i < |entries| && test(entries[i])
        && FirstNameWhere(entries, test) == Some(entries[i].name)
        && forall j :: 0 <= j < i ==> !test(entries[j])
  {
    if entries != [] && !test(entries[0]) {
      var rest := entries[1..];
      FirstNameWhereIsFirst(rest, test);
      assert forall i :: 1 <= i < |entries| ==> entries[i] == rest[i - 1];
      if FirstNameWhere(entries, test).Some? {
        var i :| 0 <= i < |rest| && test(rest[i])
          && FirstNameWhere(rest, test) == Some(rest[i].name)
          && forall j :: 0 <= j < i ==> !test(rest[j]);
        assert entries[i + 1] == rest[i];
      }
    }
  }

  /** The first folder of the listing that passes the test. */
  function WeekendFolderFor(env: PyEnv, code: string, tripDate: DateTime, entries: seq<FolderEntry>): Option<string>
  {
    FirstNameWhere(entries, MatchTest(env, code, tripDate))
  }

  /** The folder chosen is the first that passes the test, and none is chosen
      only when no folder passes it. */
  lemma WeekendFolderIsFirst(env: PyEnv, code: string, tripDate: DateTime, entries: seq<FolderEntry>)
    ensures WeekendFolderFor(env, code, tripDate, entries).None? <==>
      forall i :: 0 <= i < |entries| ==> !FolderMatches(env, code, tripDate, entries[i])
    ensures WeekendFolderFor(env, code, tripDate, entries).Some? ==>
      exists i :: 0 <= i < |entries| && FolderMatches(env, code, tripDate, entries[i])
        && WeekendFolderFor(env, code, tripDate, entries) == Some(entries[i].name)
        && forall j :: 0 <= j < i ==> !FolderMatches(env, code, tripDate, entries[j])
  {
    FirstNameWhereIsFirst(entries, MatchTest(env, code, tripDate));
  }

  /** `_find_weekend_folder_for_trip`; `listing` is `None` when the company has
      no folder. */
  method FindWeekendFolder(env: PyEnv, code: string, tripDate: DateTime, listing: Option<seq<FolderEntry>>)
    returns (r: Option<string>)
    ensures listing.None? ==> r.None?
    ensures listing.Some? ==> r == WeekendFolderFor(env, code, tripDate, listing.value)
  {
    if listing.None? {
      return None;
    }
    var entries := listing.value;
    var i := 0;
    while i < |entries|
      invariant 0 <= i <= |entries|
      invariant FirstNameWhere(entries[i..], MatchTest(env, code, tripDate)) == WeekendFolderFor(env, code, tripDate, entries)
    {
      if FolderMatches(env, code, tripDate, entries[i]) {
        return Some(entries[i].name);
      }
      assert entries[i..][1..] == entries[i + 1..];
      i := i + 1;
    }
    return None;
  }

  /** Where a trip receipt is stored. */
  datatype Location = WeekendFolder(folder: string) | TempFolder

  datatype Placement = Placement(location: Location, tripFolder: string)

  /** `facture_trip_organize` up to saving: a trip needs a code; its folder is
      `<date>_<code>`, placed in the company's matching weekend folder, or in
      the temporary folder. The company is the text of `name_business` before
      the first comma; `listingOf` gives each company's folders. */
  function TripPlacement(env: PyEnv, code: string, recibes: DateTime, nameBusiness: string,
                         listingOf: string -> Option<seq<FolderEntry>>): (r: Result<Placement>)
    ensures r.Err? <==> code == ""
    ensures r.Ok? ==> r.value.tripFolder == DateText(recibes) + "_" + code
    ensures r.Ok? && r.value.location.WeekendFolder? ==>
      listingOf(BeforeFirst(nameBusiness, ',')).Some?
      && WeekendFolderFor(env, code, recibes, listingOf(BeforeFirst(nameBusiness, ',')).value) == Some(r.value.location.folder)
    ensures r.Ok? && r.value.location.TempFolder? ==>
      listingOf(BeforeFirst(nameBusiness, ',')).None?
      || WeekendFolderFor(env, code, recibes, listingOf(BeforeFirst(nameBusiness, ',')).value).None?
  {
    if code == "" then Err("code_facture es requerido")
    else
      var listing := listingOf(BeforeFirst(nameBusiness, ','));
      var target := if listing.Some? then WeekendFolderFor(env, code, recibes, listing.value) else None;
      var location := if target.Some? then WeekendFolder(target.value) else TempFolder;
      Ok(Placement(location, DateText(recibes) + "_" + code))
  }

  // ---- The date-range search ----

  /** A folder entry of a company: its name and whether it is a directory. */
  datatype Entry = Entry(name: string, isDir: bool)

  /** A listed invoice: its folder name and the date-time the name reads as. */
  datatype Dated = Dated(name: string, date: DateTime)

  predicate InRange(d: DateTime, start: DateTime, end: DateTime)
  {
    NotAfter(start, d) && NotAfter(d, end)
  }

  /** The folders the search lists, in listing order: directories with a valid
      name that reads as a date-time within `[start, end]`. A valid-looking
      name `strptime` rejects is skipped. */
  function Collected(entries: seq<Entry>, start: DateTime, end: DateTime): seq<Dated>
  {
    if entries == [] then []
    else
      var e := entries[|entries| - 1];
      Collected(entries[..|entries| - 1], start, end)
      + (if e.isDir && IsValidDateFolder(e.name) && ParseFolderName(e.name).Some? && InRange(ParseFolderName(e.name).value, start, end)
         then [Dated(e.name, ParseFolderName(e.name).value)] else [])
  }

  /** A folder is listed exactly when it is a directory whose valid name reads
      as a date-time within the range; it is listed with that date-time. */
  lemma {:induction false} CollectedMembers(entries: seq<Entry>, start: DateTime, end: DateTime, x: Dated)
    ensures x in Collected(entries, start, end) <==>
      (Entry(x.name, true) in entries && IsValidDateFolder(x.name)
        && ParseFolderName(x.name) == Some(x.date) && InRange(x.date, start, end))
  {
    if entries != [] {
      var init := entries[..|entries| - 1];
      CollectedMembers(init, start, end, x);
      assert entries == init + [entries[|entries| - 1]];
    }
  }

  predicate NewestFirstOrder(s: seq<Dated>)
  {
    forall i, j :: 0 <= i < j < |s| ==> NotAfter(s[j].date, s[i].date)
  }

  lemma NewestCons(h: Dated, t: seq<Dated>)
    requires NewestFirstOrder(t)
    requires forall y :: y in t ==> NotAfter(y.date, h.date)
    ensures NewestFirstOrder([h] + t)
  {
    forall i, j | 0 <= i < j < |[h] + t|
      ensures NotAfter(([h] + t)[j].date, ([h] + t)[i].date)
    {
      assert ([h] + t)[j] == t[j - 1];
      if i == 0 {
        assert t[j - 1] in t;
      } else {
        assert ([h] + t)[i] == t[i - 1];
      }
    }
  }

  /** Places `x` after every entry that is not older, so entries of the same
      date-time keep their order. */
  function InsertNewest(s: seq<Dated>, x: Dated): (r: seq<Dated>)
    requires NewestFirstOrder(s)
    ensures NewestFirstOrder(r) && multiset(r) == multiset(s) + multiset{x}
  {
    if s == [] then [x]
    else if Before(s[0].date, x.date) then
      forall y | y in s
        ensures NotAfter(y.date, x.date)
      {
        var k :| 0 <= k < |s| && s[k] == y;
        if k > 0 {
          assert NotAfter(s[k].date, s[0].date);
        }
        BeforeIsStrictTotalOrder(y.date, s[0].date, x.date);
      }
      NewestCons(x, s);
      [x] + s
    else
      var rest := InsertNewest(s[1..], x);
      assert s == [s[0]] + s[1..];
      BeforeIsStrictTotalOrder(x.date, s[0].date, s[0].date);
      forall y | y in rest
        ensures NotAfter(y.date, s[0].date)
      {
        assert y in multiset(rest);
        if y != x {
          assert y in s[1..];
          var k :| 0 <= k < |s[1..]| && s[1..][k] == y;
          assert s[k + 1] == y;
        }
      }
      NewestCons(s[0], rest);
      [s[0]] + rest
  }

  /** `sort(key=date, reverse=True)`: the same entries, newest first. */
  function NewestFirst(s: seq<Dated>): (r: seq<Dated>)
    ensures NewestFirstOrder(r) && multiset(r) == multiset(s)
  {
    if s == [] then []
    else
      assert s == s[..|s| - 1] + [s[|s| - 1]];
      InsertNewest(NewestFirst(s[..|s| - 1]), s[|s| - 1])
  }

  /** The search as intended: the listed folders, newest first. */
  function SearchResult(entries: seq<Entry>, start: DateTime, end: DateTime): seq<Dated>
  {
    NewestFirst(Collected(entries, start, end))
  }

  /** `search_invoices_by_date_range`, with names `strptime` rejects skipped. */
  method SearchByDateRange(entries: seq<Entry>, start: DateTime, end: DateTime) returns (r: seq<Dated>)
    ensures r == SearchResult(entries, start, end)
    ensures NewestFirstOrder(r)
  {
    var found: seq<Dated> := [];
    var i := 0;
    while i < |entries|
      invariant 0 <= i <= |entries|
      invariant found == Collected(entries[..i], start, end)
    {
      var e := entries[i];
      assert entries[..i + 1][..i] == entries[..i];
      if e.isDir && IsValidDateFolder(e.name) {
        var date := ParseFolderName(e.name);
        if date.Some? && InRange(date.value, start, end) {
          found := found + [Dated(e.name, date.value)];
        }
      }
      i := i + 1;
    }
    assert entries[..i] == entries;
    r := NewestFirst(found);
  }

  /** A directory whose name looks valid but does not read as a date-time:
      text after the stamp, or an impossible date. */
  predicate UnreadableFolder(e: Entry)
  {
    e.isDir && IsValidDateFolder(e.name) && ParseFolderName(e.name).None?
  }

  /** The search as written: the first unreadable folder makes `strptime`
      raise out of the whole search (`None`). */
  function SearchAsWritten(entries: seq<Entry>, start: DateTime, end: DateTime): (r: Option<seq<Dated>>)
    ensures r.None? <==> exists i :: 0 <= i < |entries| && UnreadableFolder(entries[i])
  {
    if exists i :: 0 <= i < |entries| && UnreadableFolder(entries[i]) then None
    else Some(SearchResult(entries, start, end))
  }

  /** A single folder with a suffix after its stamp makes the written search
      fail, where the intended one lists nothing. */
  lemma SuffixedFolderBreaksSearch(start: DateTime, end: DateTime)
    ensures var entries := [Entry("2025-01-01_10-00-00_copia", true)];
      SearchAsWritten(entries, start, end).None? && SearchResult(entries, start, end) == []
  {
    var name := "2025-01-01_10-00-00_copia";
    assert IsValidDateFolder(name) by {
      forall i | 0 <= i < 19
        ensures StampChar(i, name[i])
      {
      }
    }
    assert UnreadableFolder(Entry(name, true));
    var entries := [Entry(name, true)];
    assert entries[..0] == [];
    assert Collected(entries, start, end) == [];
  }

  /** Without unreadable folders the written search agrees with the intended one. */
  lemma SearchAsWrittenAgrees(entries: seq<Entry>, start: DateTime, end: DateTime)
    requires forall i :: 0 <= i < |entries| ==> !UnreadableFolder(entries[i])
    ensures SearchAsWritten(entries, start, end) == Some(SearchResult(entries, start, end))
  {
  }

  // ---- Folder names for a corrected invoice ----

  /** The date-time a name generator reads from a field: a string holding a
      `T` through `fromisoformat` (a `Z` read as `+00:00`), another string
      through `strptime` with `"%Y-%m-%d %H:%M:%S"`, a date-time as it is, the
      current time for a falsy value. `None` where the generator raises: an
      unreadable string, or a truthy value without `strftime`. */
  function StampedDate(env: PyEnv, v: V): (r: Option<DateTime>)
    ensures v.VDateTime? ==> r == Some(v.dt)
    ensures !v.VStr? && !Truthy(v) ==> r == Some(env.now)
    ensures !v.VStr? && !v.VDateTime? && Truthy(v) ==> r.None?
  {
    match v
    case VStr(s) =>
      if 'T' in s then env.fromIsoFormat(ReplaceChar(s, 'Z', "+00:00"))
      else env.strptime(s, "%Y-%m-%d %H:%M:%S")
    case VDateTime(dt) => Some(dt)
    case _ => if Truthy(v) then None else Some(env.now)
  }

  /** `_generate_weekend_folder_name`: the stamp of the emission time, or of
      the current time when it cannot be read. */
  function WeekendFolderName(env: PyEnv, data: Dict): (name: string)
    ensures StampedDate(env, GetOr(data, "datetime_emisor", VNone)).None? ==> name == FolderName(env.now)
  {
    match StampedDate(env, GetOr(data, "datetime_emisor", VNone))
    case Some(dt) => FolderName(dt)
    case None => FolderName(env.now)
  }

  /** `_generate_trip_folder_name`: `<date>_<code>`, or `<date>_trip` without
      a code; the current time's full stamp when the date cannot be read. */
  function TripFolderName(env: PyEnv, data: Dict): (name: string)
    ensures StampedDate(env, GetOr(data, "recibes_trip", VNone)).None? ==> name == FolderName(env.now)
  {
    var code := GetOr(data, "code_facture", VStr(""));
    match StampedDate(env, GetOr(data, "recibes_trip", VNone))
    case Some(dt) => DateText(dt) + "_" + (if Truthy(code) then Display(env, code) else "trip")
    case None => FolderName(env.now)
  }

  /** `_generate_new_folder_name`: an unknown model type gets the current
      time's stamp. */
  function NewFolderName(env: PyEnv, modelType: string, data: Dict): (name: string)
    ensures modelType != "facture_weekend" && modelType != "facture_trip" ==> name == FolderName(env.now)
  {
    if modelType == "facture_weekend" then WeekendFolderName(env, data)
    else if modelType == "facture_trip" then TripFolderName(env, data)
    else FolderName(env.now)
  }

  /** A corrected weekly invoice whose emission time reads gets the folder the
      search lists under that time. */
  lemma WeekendNameListed(env: PyEnv, data: Dict, dt: DateTime)
    requires StampedDate(env, GetOr(data, "datetime_emisor", VNone)) == Some(dt)
    requires ValidDateTime(dt) && dt.year >= 1000
    ensures IsValidDateFolder(NewFolderName(env, "facture_weekend", data))
    ensures ParseFolderName(NewFolderName(env, "facture_weekend", data)) == Some(dt)
  {
    FolderNameRoundTrip(dt);
  }

  /** A corrected trip whose code and date are unchanged keeps the folder name
      it was stored under. */
  lemma TripNameStable(env: PyEnv, data: Dict, code: string, recibes: DateTime, nameBusiness: string,
                       listingOf: string -> Option<seq<FolderEntry>>)
    requires GetOr(data, "code_facture", VStr("")) == VStr(code) && code != ""
    requires GetOr(data, "recibes_trip", VNone) == VDateTime(recibes)
    ensures TripPlacement(env, code, recibes, nameBusiness, listingOf).Ok?
    ensures NewFolderName(env, "facture_trip", data) == TripPlacement(env, code, recibes, nameBusiness, listingOf).value.tripFolder
  {
  }

  /** A trip without a code is named after its date and `trip`. */
  lemma TripNameWithoutCode(env: PyEnv, data: Dict, recibes: DateTime)
    requires "code_facture" !in Keys(data)
    requires GetOr(data, "recibes_trip", VNone) == VDateTime(recibes)
    ensures NewFolderName(env, "facture_trip", data) == DateText(recibes) + "_trip"
  {
    var t := DateText(recibes);
    assert StampedDate(env, GetOr(data, "recibes_trip", VNone)) == Some(recibes);
    assert !Truthy(GetOr(data, "code_facture", VStr("")));
    assert TripFolderName(env, data) == t + "_" + "trip";
    assert t + "_" + "trip" == t + "_trip";
  }

  // ---- Correcting a stored invoice ----

  /** The stored `factura.json` of a folder. */
  datatype Stored = Missing | Corrupt | Loaded(doc: V)

  datatype CorrectionError = FolderNotFound | InvoiceNotFound | Raised

  /** The outcome: the folder the invoice ends up in, whether it was renamed,
      and the document written back. */
  datatype Correction =
    | Failed(error: CorrectionError)
    | Corrected(folder: string, renamed: bool, newName: Option<string>, saved: Dict)

  /** `correct_invoice_data`. The folder `current` exists when `folderExists`; its
      parent holds `siblings`; `stamp` is the correction time in ISO form;
      `renameSucceeds` says whether the operating system performs a rename
      (a refused rename is reported and the document written in place). */
  function CorrectInvoice(env: PyEnv, folderExists: bool, current: string, siblings: set<string>, stored: Stored,
                          modelType: string, corrected: Dict, stamp: string, renameSucceeds: bool): (r: Correction)
    ensures !folderExists ==> r == Failed(FolderNotFound)
    ensures folderExists && stored.Missing? ==> r == Failed(InvoiceNotFound)
    ensures r.Corrected? ==> stored.Loaded? && stored.doc.VDict?
    ensures r.Corrected? ==> (r.renamed <==>
      NewFolderName(env, modelType, corrected) != current && NewFolderName(env, modelType, corrected) !in siblings && renameSucceeds)
    ensures r.Corrected? && r.renamed ==>
      r.folder == NewFolderName(env, modelType, corrected) && r.folder != current && r.folder !in siblings
      && r.newName == Some(r.folder)
    ensures r.Corrected? && !r.renamed ==> r.folder == current && r.newName.None?
  {
    if !folderExists then Failed(FolderNotFound)
    else match stored
      case Missing => Failed(InvoiceNotFound)
      case Corrupt => Failed(Raised)
      case Loaded(doc) =>
        if !doc.VDict? then Failed(Raised)
        else
          var saved := Set(Set(Set(doc.entries, "data_facture", VDict(corrected)), "corrected_timestamp", VStr(stamp)), "corrected", VBool(true));
          var newName := NewFolderName(env, modelType, corrected);
          var renamed := newName != current && newName !in siblings && renameSucceeds;
          Corrected(if renamed then newName else current, renamed, if renamed then Some(newName) else None, saved)
  }

  /** The document written back carries the corrected data, the correction
      time and the flag, and keeps every other key. */
  lemma {:induction false} CorrectionSaves(env: PyEnv, folderExists: bool, current: string, siblings: set<string>, stored: Stored,
                          modelType: string, corrected: Dict, stamp: string, renameSucceeds: bool, k: string)
    requires CorrectInvoice(env, folderExists, current, siblings, stored, modelType, corrected, stamp, renameSucceeds).Corrected?
    ensures var saved := CorrectInvoice(env, folderExists, current, siblings, stored, modelType, corrected, stamp, renameSucceeds).saved;
      Get(saved, "data_facture") == Some(VDict(corrected))
      && Get(saved, "corrected_timestamp") == Some(VStr(stamp))
      && Get(saved, "corrected") == Some(VBool(true))
      && (k != "data_facture" && k != "corrected_timestamp" && k != "corrected" ==> Get(saved, k) == Get(stored.doc.entries, k))
  {
    var d0 := stored.doc.entries;
    var d1 := Set(d0, "data_facture", VDict(corrected));
    var d2 := Set(d1, "corrected_timestamp", VStr(stamp));
    GetSet(d2, "corrected", VBool(true), k);
    GetSet(d2, "corrected", VBool(true), "data_facture");
    GetSet(d2, "corrected", VBool(true), "corrected_timestamp");
    GetSet(d2, "corrected", VBool(true), "corrected");
    GetSet(d1, "corrected_timestamp", VStr(stamp), k);
    GetSet(d1, "corrected_timestamp", VStr(stamp), "data_facture");
    GetSet(d1, "corrected_timestamp", VStr(stamp), "corrected_timestamp");
    GetSet(d0, "data_facture", VDict(corrected), k);
    GetSet(d0, "data_facture", VDict(corrected), "data_facture");
  }
}
