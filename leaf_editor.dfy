/** The editable field that shows one scalar of the invoice record (text,
    number, boolean, date or nothing) and lets the user replace it. Editing
    goes through a text buffer; saving converts the buffer back to the kind of
    value the field held and hands the result to the parent. */
module LeafEditor {
  import opened Text
  import opened JsonValue
  import opened JsPlatform
  import opened DateDetect

  /** `${year}-${MM}-${DD}` from the local-time getters. */
  function DateText(t: LocalTime): string
  {
    IntToString(t.year) + "-" + Pad2(t.month0 + 1) + "-" + Pad2(t.day)
  }

  /** `${year}-${MM}-${DD} ${hh}:${mm}`: how a saved date with a time is written. */
  function DateTimeText(t: LocalTime): string
  {
    DateText(t) + " " + Pad2(t.hours) + ":" + Pad2(t.minutes)
  }

  /** `${year}-${MM}-${DD}T${hh}:${mm}`: the format of a date-time input control. */
  function InputDateTimeText(t: LocalTime): string
  {
    DateText(t) + "T" + Pad2(t.hours) + ":" + Pad2(t.minutes)
  }

  /** The text that the same templates produce from an invalid `Date`, whose getters all give NaN. */
  const InvalidDateText := "NaN-NaN-NaN"
  const InvalidInputDateTimeText := "NaN-NaN-NaNTNaN:NaN"

  /** `getValueType`: the badge shown next to the field. */
  function ValueType(env: Env, v: J): (t: string)
    ensures t in {"vacío", "lista", "objeto", "número", "booleano", "fecha", "texto"}
    ensures t == "fecha" <==> EditorDetect(env, v).IsDate?
    ensures t == "texto" <==> v.JStr? && !EditorDetect(env, v).IsDate?
  {
    match v
    case JNull => "vacío"
    case JArr(_) => "lista"
    case JObj(_) => "objeto"
    case JNum(_) => "número"
    case JBool(_) => "booleano"
    case JStr(_) => if EditorDetect(env, v).IsDate? then "fecha" else "texto"
  }

  /** `getValueStatus`: the one-line description under the value. */
  function ValueStatus(env: Env, v: J): (t: string)
    ensures t == "Fecha" <==> EditorDetect(env, v).IsDate? && !EditorDetect(env, v).hasTime
    ensures t == "Fecha con hora" <==> EditorDetect(env, v).IsDate? && EditorDetect(env, v).hasTime
    ensures t == "Valor negativo" <==> v.JNum? && (v.n.NegInf? || (v.n.Fin? && v.n.r < 0.0))
    ensures t == "Valor cero" <==> v == JNum(Fin(0.0))
    ensures t == "Valor positivo" <==> v.JNum? && (v.n.PosInf? || (v.n.Fin? && v.n.r > 0.0))
    ensures t == "Dato válido" <==> v == JNum(NaN) || (v.JStr? && v.s != "" && !EditorDetect(env, v).IsDate?)
  {
    match v
    case JNull => "No disponible"
    case JStr("") => "Texto vacío"
    case JArr(items) => if |items| == 0 then "Lista vacía" else "Lista con elementos"
    case JObj(_) => "Objeto con elementos"
    case JNum(NegInf) => "Valor negativo"
    case JNum(PosInf) => "Valor positivo"
    case JNum(Fin(r)) => if r < 0.0 then "Valor negativo" else if r == 0.0 then "Valor cero" else "Valor positivo"
    case JBool(b) => if b then "Verdadero" else "Falso"
    case JNum(NaN) => "Dato válido"
    case JStr(_) =>
      var info := EditorDetect(env, v);
      if info.IsDate? then (if info.hasTime then "Fecha con hora" else "Fecha") else "Dato válido"
  }

  /** The badge and the description always agree on whether the value is a date. */
  lemma TypeAndStatusAgreeOnDates(env: Env, v: J)
    ensures ValueType(env, v) == "fecha" <==> ValueStatus(env, v) in {"Fecha", "Fecha con hora"}
  {
  }

  /** `formatDateForInput`: the buffer that editing a date starts from. The
      date is read again with the generic parser, whatever the detector used. */
  function FormatForInput(env: Env, s: string): (r: string)
    ensures !EditorDetect(env, JStr(s)).IsDate? ==> r == ""
    ensures EditorDetect(env, JStr(s)).IsDate? && env.parseDate(JStr(s)).InvalidDate?
      ==> r == (if EditorDetect(env, JStr(s)).hasTime then InvalidInputDateTimeText else InvalidDateText)
    ensures EditorDetect(env, JStr(s)).IsDate? && env.parseDate(JStr(s)).ValidDate?
      ==> var t := env.parseDate(JStr(s)).local;
          r == (if EditorDetect(env, JStr(s)).hasTime then InputDateTimeText(t) else DateText(t))
  {
    var info := EditorDetect(env, JStr(s));
    if !info.IsDate? then ""
    else match env.parseDate(JStr(s))
      case InvalidDate => if info.hasTime then InvalidInputDateTimeText else InvalidDateText
      case ValidDate(t) => if info.hasTime then InputDateTimeText(t) else DateText(t)
  }

  /** `startEditing`: dates start from their input form, booleans from
      `"true"`/`"false"`, anything else from the value itself. */
  function InitialBuffer(env: Env, v: J): (b: J)
    ensures v.JStr? && EditorDetect(env, v).IsDate? ==> b == JStr(FormatForInput(env, v.s))
    ensures !EditorDetect(env, v).IsDate? && v.JBool? ==> b == JStr(if v.b then "true" else "false")
    ensures !EditorDetect(env, v).IsDate? && !v.JBool? ==> b == v
    ensures v.IsScalar() ==> b.IsScalar()
  {
    if EditorDetect(env, v).IsDate? then JStr(FormatForInput(env, v.s))
    else if v.JBool? then JStr(if v.b then "true" else "false")
    else v
  }

  /** `Number(x)` for the scalars that the buffer can hold. */
  function ToNumber(env: Env, x: J): Num
    requires x.IsScalar()
  {
    match x
    case JNull => Fin(0.0)
    case JBool(b) => Fin(if b then 1.0 else 0.0)
    case JNum(n) => n
    case JStr(s) => env.parseNumber(s)
  }

  /** `handleSave`: the value handed to the parent, chosen by the kind of the
      value being edited. A date is rewritten only when the buffer parses. */
  function Coerce(env: Env, value: J, buffer: J): (r: J)
    requires buffer.IsScalar()
    ensures EditorDetect(env, value).IsDate? && env.parseDate(buffer).InvalidDate? ==> r == buffer
    ensures !EditorDetect(env, value).IsDate? && value.JBool? ==> r == JBool(buffer == JStr("true"))
    ensures !EditorDetect(env, value).IsDate? && !value.JNum? && !value.JBool? ==> r == buffer
    ensures EditorDetect(env, value).IsDate? && env.parseDate(buffer).ValidDate?
      ==> var t := env.parseDate(buffer).local;
          r == JStr(if EditorDetect(env, value).hasTime then DateTimeText(t) else DateText(t))
    ensures !EditorDetect(env, value).IsDate? && value.JNum? ==> r == JNum(ToNumber(env, buffer))
  {
    var info := EditorDetect(env, value);
    if info.IsDate? then
      match env.parseDate(buffer)
      case InvalidDate => buffer
      case ValidDate(t) => JStr(if info.hasTime then DateTimeText(t) else DateText(t))
    else if value.JNum? then JNum(ToNumber(env, buffer))
    else if value.JBool? then JBool(buffer == JStr("true"))
    else buffer
  }

  /** Opening a field that is not a date and saving it untouched gives back the same value. */
  lemma UneditedSaveKeepsNonDate(env: Env, v: J)
    requires v.IsScalar() && !EditorDetect(env, v).IsDate?
    ensures Coerce(env, v, InitialBuffer(env, v)) == v
  {
  }

  lemma DateTextShape(t: LocalTime)
    requires 1000 <= t.year <= 9999
    ensures FullMatch(DateText(t), IsoDate)
  {
    FourDigitText(t.year);
    var s := DateText(t);
    assert |s| == 10;
    forall i | 0 <= i < 10
      ensures SymMatches(IsoDate[i], s[i])
    {
    }
  }

  lemma DateTimeTextShape(t: LocalTime)
    requires 1000 <= t.year <= 9999
    ensures FullMatch(DateTimeText(t), DateHourMinute)
  {
    DateTextShape(t);
    var s := DateTimeText(t);
    assert |s| == 16;
    forall i | 0 <= i < 16
      ensures SymMatches(DateHourMinute[i], s[i])
    {
      if i < 10 {
        assert s[i] == DateText(t)[i];
        assert SymMatches(IsoDate[i], DateText(t)[i]);
      }
    }
  }

  /** Saving a date whose buffer parses to a year of four digits writes a string
      that is again detected as a date, with a time exactly when the original had one. */
  lemma SavedDateKeepsKind(env: Env, value: J, buffer: J)
    requires buffer.IsScalar() && EditorDetect(env, value).IsDate?
    requires env.parseDate(buffer).ValidDate? && 1000 <= env.parseDate(buffer).local.year <= 9999
    ensures var r := Coerce(env, value, buffer);
      EditorDetect(env, r).IsDate? && EditorDetect(env, r).hasTime == EditorDetect(env, value).hasTime
  {
    var t := env.parseDate(buffer).local;
    if EditorDetect(env, value).hasTime {
      DateTimeTextShape(t);
    } else {
      DateTextShape(t);
      var s := DateText(t);
      assert !PrefixMatch(s, IsoDateTime);
      assert !FullMatch(s, DateHourMinuteSecond);
    }
  }

  /** The runtime reads the text of a date-time input control as that local time. */
  ghost predicate ReadsInputDateTime(env: Env)
  {
    forall t: LocalTime :: 1000 <= t.year <= 9999 ==> env.parseDate(JStr(InputDateTimeText(t))) == ValidDate(t)
  }

  /** A date with a time, written as the editor writes it, survives being opened
      and saved untouched, provided the runtime reads both text forms back. */
  lemma UneditedSaveKeepsDateTime(env: Env, t: LocalTime)
    requires 1000 <= t.year <= 9999
    requires ReadsInputDateTime(env)
    requires env.parseDate(JStr(DateTimeText(t))) == ValidDate(t)
    ensures Coerce(env, JStr(DateTimeText(t)), InitialBuffer(env, JStr(DateTimeText(t)))) == JStr(DateTimeText(t))
  {
    DateTimeTextShape(t);
    var v := JStr(DateTimeText(t));
    assert EditorDetect(env, v).IsDate? && EditorDetect(env, v).hasTime;
    assert InitialBuffer(env, v) == JStr(InputDateTimeText(t));
  }

  /** The editing state of one field; `emitted` records, oldest first, every
      value handed to the parent's `onChange`. */
  class EditableField {
    const env: Env
    const caption: string
    const value: J
    var isEditing: bool
    var tempEditValue: J
    var emitted: seq<J>

    /** The field is only given scalars, and its buffer only ever holds one. */
    predicate Valid()
      reads this
    {
      value.IsScalar() && tempEditValue.IsScalar()
    }

    constructor (env: Env, caption: string, value: J)
      requires value.IsScalar()
      ensures Valid()
      ensures this.env == env && this.caption == caption && this.value == value
      ensures !isEditing && tempEditValue == JStr("") && emitted == []
    {
      this.env := env;
      this.caption := caption;
      this.value := value;
      isEditing := false;
      tempEditValue := JStr("");
      emitted := [];
    }

    method StartEditing()
      requires Valid()
      modifies this
      ensures Valid()
      ensures isEditing && tempEditValue == InitialBuffer(env, value) && emitted == old(emitted)
    {
      tempEditValue := InitialBuffer(env, value);
      isEditing := true;
    }

    /** A keystroke in the input control: the buffer becomes the control's text. */
    method Type(text: string)
      requires Valid()
      modifies this
      ensures Valid()
      ensures tempEditValue == JStr(text) && isEditing == old(isEditing) && emitted == old(emitted)
    {
      tempEditValue := JStr(text);
    }

    /** `handleSave`: leaves edit mode and emits the converted buffer once; the buffer is kept. */
    method Save()
      requires Valid()
      modifies this
      ensures Valid()
      ensures !isEditing && tempEditValue == old(tempEditValue)
      ensures emitted == old(emitted) + [Coerce(env, value, old(tempEditValue))]
    {
      isEditing := false;
      var finalValue := Coerce(env, value, tempEditValue);
      emitted := emitted + [finalValue];
    }

    /** `handleCancel`: leaves edit mode, clears the buffer, emits nothing. */
    method Cancel()
      requires Valid()
      modifies this
      ensures Valid()
      ensures !isEditing && tempEditValue == JStr("") && emitted == old(emitted)
    {
      isEditing := false;
      tempEditValue := JStr("");
    }
  }
}
