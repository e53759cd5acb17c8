/** Recognising dates inside string values. The record editor has its own
    detector (eight patterns, and explicit construction for two of them); the
    shared utilities have another (six patterns, always the generic `Date`
    parser). Both first test the string against fixed regular expressions and
    then ask the runtime whether the string denotes a valid instant. */
module DateDetect {
  import opened Text
  import opened JsonValue
  import opened JsPlatform

  /** One position of an anchored regular expression: `\d`, `.` or a literal. */
  datatype Sym = Digit | Any | Lit(c: char)

  /** Characters that the regular-expression `.` does not match. */
  predicate IsLineTerminator(c: char)
  {
    c == '\n' || c == '\r' || c as int == 0x2028 || c as int == 0x2029
  }

  predicate SymMatches(y: Sym, c: char)
  {
    match y
    case Digit => IsDigit(c)
    case Any => !IsLineTerminator(c)
    case Lit(l) => c == l
  }

  /** Pattern text with `d` for `\d` and `.` for any character. */
  function Shape(p: string): (shape: seq<Sym>)
    ensures |shape| == |p|
  {
    seq(|p|, i requires 0 <= i < |p| => if p[i] == 'd' then Digit else if p[i] == '.' then Any else Lit(p[i]))
  }

  /** `/^...$/.test(s)`. */
  predicate FullMatch(s: string, shape: seq<Sym>)
  {
    |s| == |shape| && forall i :: 0 <= i < |s| ==> SymMatches(shape[i], s[i])
  }

  /** `/^.../.test(s)`: the pattern is anchored at the start only. */
  predicate PrefixMatch(s: string, shape: seq<Sym>)
  {
    |shape| <= |s| && forall i :: 0 <= i < |shape| ==> SymMatches(shape[i], s[i])
  }

  const IsoDate := Shape("dddd-dd-dd")
  const IsoDateTime := Shape("dddd-dd-ddTdd:dd:dd")
  const IsoDateTimeMillisZ := Shape("dddd-dd-ddTdd:dd:dd.dddZ")
  const DaySlashDate := Shape("dd/dd/dddd")
  const DayDashDate := Shape("dd-dd-dddd")
  const SlashDate := Shape("dddd/dd/dd")
  const DateHourMinute := Shape("dddd-dd-dd dd:dd")
  const DateHourMinuteSecond := Shape("dddd-dd-dd dd:dd:dd")

  /** The patterns tested by the detector shared through the utilities. */
  predicate UtilsShape(s: string)
  {
    FullMatch(s, IsoDate) || PrefixMatch(s, IsoDateTime) || PrefixMatch(s, IsoDateTimeMillisZ)
    || FullMatch(s, DaySlashDate) || FullMatch(s, DayDashDate) || FullMatch(s, SlashDate)
  }

  /** The patterns tested by the record editor's own detector: the same six and two more. */
  predicate EditorShape(s: string)
  {
    UtilsShape(s) || FullMatch(s, DateHourMinute) || FullMatch(s, DateHourMinuteSecond)
  }

  /** `/ \d{1,2}:\d{2}/` matches at position i. */
  predicate SpaceTimeAt(s: string, i: int)
  {
    0 <= i && i + 5 <= |s| && s[i] == ' ' && IsDigit(s[i + 1])
    && ((s[i + 2] == ':' && IsDigit(s[i + 3]) && IsDigit(s[i + 4]))
        || (i + 6 <= |s| && IsDigit(s[i + 2]) && s[i + 3] == ':' && IsDigit(s[i + 4]) && IsDigit(s[i + 5])))
  }

  predicate HasSpaceTime(s: string) { exists i :: 0 <= i < |s| && SpaceTimeAt(s, i) }

  /** `/(\d{1,2}:\d{2})/` matches somewhere: some digit is followed by `:` and two digits. */
  predicate DigitTimeAt(s: string, i: int)
  {
    0 <= i && i + 4 <= |s| && IsDigit(s[i]) && s[i + 1] == ':' && IsDigit(s[i + 2]) && IsDigit(s[i + 3])
  }

  predicate HasDigitTime(s: string) { exists i :: 0 <= i < |s| && DigitTimeAt(s, i) }

  datatype DateInfo = NotDate | IsDate(date: LocalTime, hasTime: bool)

  lemma MatchedDigits(s: string, shape: seq<Sym>, a: nat, b: nat)
    requires a <= b <= |shape| <= |s|
    requires forall i :: 0 <= i < |shape| ==> SymMatches(shape[i], s[i])
    requires forall i :: a <= i < b ==> shape[i] == Digit
    ensures AllDigits(s[a..b])
  {
    assert forall i :: 0 <= i < b - a ==> s[a..b][i] == s[a + i];
  }

  /** `Number` of a run of digits. */
  function DigitsAt(s: string, a: nat, b: nat): nat
    requires a <= b <= |s| && AllDigits(s[a..b])
  {
    DigitsValue(s[a..b])
  }

  /** `new Date(year, month - 1, day, hours, minutes)` on the fields of a
      `YYYY-MM-DD HH:MM` string, as the record editor builds it. */
  function DateHourMinuteFields(env: Env, s: string): LocalTime
    requires FullMatch(s, DateHourMinute)
  {
    MatchedDigits(s, DateHourMinute, 0, 4);
    MatchedDigits(s, DateHourMinute, 5, 7);
    MatchedDigits(s, DateHourMinute, 8, 10);
    MatchedDigits(s, DateHourMinute, 11, 13);
    MatchedDigits(s, DateHourMinute, 14, 16);
    env.makeDate(DigitsAt(s, 0, 4), DigitsAt(s, 5, 7) - 1, DigitsAt(s, 8, 10), DigitsAt(s, 11, 13), DigitsAt(s, 14, 16))
  }

  /** `new Date(year, month - 1, day)` on the fields of a `YYYY-MM-DD` string. */
  function IsoDateFields(env: Env, s: string): LocalTime
    requires FullMatch(s, IsoDate)
  {
    MatchedDigits(s, IsoDate, 0, 4);
    MatchedDigits(s, IsoDate, 5, 7);
    MatchedDigits(s, IsoDate, 8, 10);
    env.makeDate(DigitsAt(s, 0, 4), DigitsAt(s, 5, 7) - 1, DigitsAt(s, 8, 10), 0, 0)
  }

  /** The pattern `...T..:..:...dddZ` is only ever met by strings that also meet `...T..:..:..`. */
  lemma MillisImpliesSeconds(s: string)
    requires PrefixMatch(s, IsoDateTimeMillisZ)
    ensures PrefixMatch(s, IsoDateTime)
  {
    assert forall i :: 0 <= i < |IsoDateTime| ==> IsoDateTime[i] == IsoDateTimeMillisZ[i];
  }

  /** A string that fully matches a pattern holds only characters that the pattern allows. */
  lemma NotInFullMatch(s: string, shape: seq<Sym>, c: char)
    requires FullMatch(s, shape)
    requires !IsDigit(c) && Lit(c) !in shape && Any !in shape
    ensures c !in s
  {
    forall i | 0 <= i < |s|
      ensures s[i] != c
    {
      assert SymMatches(shape[i], s[i]) && shape[i] in shape;
    }
  }

  lemma ContainsSingle(s: string, c: char)
    requires Contains(s, [c])
    ensures c in s
  {
    var i := ContainsWitness(s, [c]);
    assert s[i..i + 1][0] == s[i];
  }

  lemma NoSpaceNoSpaceTime(s: string)
    requires ' ' !in s
    ensures !HasSpaceTime(s)
  {
    forall i | 0 <= i < |s|
      ensures !SpaceTimeAt(s, i)
    {
      assert s[i] in s;
    }
  }

  lemma NoColonNoDigitTime(s: string)
    requires ':' !in s
    ensures !HasDigitTime(s)
  {
    forall i | 0 <= i < |s| && i + 1 < |s|
      ensures !DigitTimeAt(s, i)
    {
      assert s[i + 1] in s;
    }
  }

  /** Among the strings that pass the patterns, those of the four date-only
      patterns hold no `T`, no space and no colon. */
  lemma DateOnlyShapesHaveNoTime(s: string)
    requires FullMatch(s, IsoDate) || FullMatch(s, DaySlashDate) || FullMatch(s, DayDashDate) || FullMatch(s, SlashDate)
    ensures !Contains(s, "T") && !HasSpaceTime(s) && !HasDigitTime(s)
  {
    var shape := if FullMatch(s, IsoDate) then IsoDate
      else if FullMatch(s, DaySlashDate) then DaySlashDate
      else if FullMatch(s, DayDashDate) then DayDashDate
      else SlashDate;
    assert forall i :: 0 <= i < |shape| ==> shape[i] == Digit || shape[i] == Lit('-') || shape[i] == Lit('/');
    NotInFullMatch(s, shape, 'T');
    NotInFullMatch(s, shape, ' ');
    NotInFullMatch(s, shape, ':');
    if Contains(s, "T") {
      ContainsSingle(s, 'T');
    }
    NoSpaceNoSpaceTime(s);
    NoColonNoDigitTime(s);
  }

  lemma IsoDateTimeHasT(s: string)
    requires PrefixMatch(s, IsoDateTime)
    ensures Contains(s, "T")
  {
    assert SymMatches(IsoDateTime[10], s[10]);
    assert s[10..11] == "T";
    ContainsAt(s, "T", 10);
  }

  /** The editor's time test `s.includes('T') || / \d{1,2}:\d{2}/.test(s)`
      holds exactly for the strings of the patterns that carry a time. */
  lemma EditorTimeShapes(s: string)
    requires EditorShape(s)
    ensures (Contains(s, "T") || HasSpaceTime(s))
      <==> (PrefixMatch(s, IsoDateTime) || FullMatch(s, DateHourMinute) || FullMatch(s, DateHourMinuteSecond))
  {
    if PrefixMatch(s, IsoDateTimeMillisZ) {
      MillisImpliesSeconds(s);
    }
    if PrefixMatch(s, IsoDateTime) {
      IsoDateTimeHasT(s);
    } else if FullMatch(s, DateHourMinute) || FullMatch(s, DateHourMinuteSecond) {
      var shape := if FullMatch(s, DateHourMinute) then DateHourMinute else DateHourMinuteSecond;
      assert SymMatches(shape[10], s[10]) && SymMatches(shape[11], s[11]) && SymMatches(shape[12], s[12]);
      assert SymMatches(shape[13], s[13]) && SymMatches(shape[14], s[14]) && SymMatches(shape[15], s[15]);
      assert SpaceTimeAt(s, 10);
    } else {
      DateOnlyShapesHaveNoTime(s);
    }
  }

  /** The utilities' time test `s.includes('T') || /(\d{1,2}:\d{2})/.test(s)`
      holds exactly for the strings that start like `YYYY-MM-DDTHH:MM:SS`. */
  lemma UtilsTimeShapes(s: string)
    requires UtilsShape(s)
    ensures (Contains(s, "T") || HasDigitTime(s)) <==> PrefixMatch(s, IsoDateTime)
  {
    if PrefixMatch(s, IsoDateTimeMillisZ) {
      MillisImpliesSeconds(s);
    }
    if PrefixMatch(s, IsoDateTime) {
      IsoDateTimeHasT(s);
    } else {
      DateOnlyShapesHaveNoTime(s);
    }
  }

  /** The text before the `T` of a `YYYY-MM-DDTHH:MM:SS.sssZ` timestamp, as
      `toISOString().split('T')[0]` takes it, is a `YYYY-MM-DD` date. */
  lemma IsoTimestampDatePart(s: string)
    requires FullMatch(s, IsoDateTimeMillisZ)
    ensures BeforeFirst(s, 'T') == s[..10]
    ensures FullMatch(s[..10], IsoDate)
  {
    var d := BeforeFirst(s, 'T');
    forall i | 0 <= i < 10
      ensures s[i] != 'T' && SymMatches(IsoDate[i], s[i])
    {
      assert SymMatches(IsoDateTimeMillisZ[i], s[i]);
    }
    assert SymMatches(IsoDateTimeMillisZ[10], s[10]);
    assert |d| == 10;
  }

  /** `detectDate` of the record editor. */
  function EditorDetect(env: Env, v: J): (r: DateInfo)
    ensures r.IsDate? ==> v.JStr? && EditorShape(v.s)
    ensures v.JStr? && (FullMatch(v.s, IsoDate) || FullMatch(v.s, DateHourMinute)) ==> r.IsDate?
    ensures v.JStr? && FullMatch(v.s, DateHourMinute) ==> r.date == DateHourMinuteFields(env, v.s)
    ensures v.JStr? && FullMatch(v.s, IsoDate) ==> r.date == IsoDateFields(env, v.s)
    ensures v.JStr? && EditorShape(v.s) && !FullMatch(v.s, IsoDate) && !FullMatch(v.s, DateHourMinute)
      ==> (r.IsDate? <==> env.parseDate(v).ValidDate?) && (r.IsDate? ==> r.date == env.parseDate(v).local)
    ensures r.IsDate? ==> (r.hasTime <==> PrefixMatch(v.s, IsoDateTime) || FullMatch(v.s, DateHourMinute) || FullMatch(v.s, DateHourMinuteSecond))
  {
    if !v.JStr? || !EditorShape(v.s) then NotDate
    else
      var s := v.s;
      var d := if FullMatch(s, DateHourMinute) then ValidDate(DateHourMinuteFields(env, s))
        else if FullMatch(s, IsoDate) then ValidDate(IsoDateFields(env, s))
        else env.parseDate(v);
      EditorTimeShapes(s);
      if d.InvalidDate? then NotDate else IsDate(d.local, Contains(s, "T") || HasSpaceTime(s))
  }

  /** `detectDate` of the shared utilities. */
  function UtilsDetect(env: Env, v: J): (r: DateInfo)
    ensures r.IsDate? <==> v.JStr? && UtilsShape(v.s) && env.parseDate(v).ValidDate?
    ensures r.IsDate? ==> r.date == env.parseDate(v).local
    ensures r.IsDate? ==> (r.hasTime <==> PrefixMatch(v.s, IsoDateTime))
  {
    if !v.JStr? || !UtilsShape(v.s) then NotDate
    else
      UtilsTimeShapes(v.s);
      match env.parseDate(v)
      case InvalidDate => NotDate
      case ValidDate(t) => IsDate(t, Contains(v.s, "T") || HasDigitTime(v.s))
  }

  /** The two detectors disagree on every `YYYY-MM-DD HH:MM` string: the record
      editor always takes it for a date with a time, the utilities never for a date. */
  lemma DetectorsDisagreeOnDateHourMinute(env: Env, s: string)
    requires FullMatch(s, DateHourMinute)
    ensures EditorDetect(env, JStr(s)).IsDate? && EditorDetect(env, JStr(s)).hasTime
    ensures UtilsDetect(env, JStr(s)) == NotDate
  {
    assert SymMatches(DateHourMinute[10], s[10]);
    assert |s| < |IsoDateTime| < |IsoDateTimeMillisZ|;
  }
}
