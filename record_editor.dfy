/** The panel that edits one object of the invoice record: change the value
    of a key, add a key of a chosen type with its default value, remove a key.
    Every operation builds a new object and hands it to the parent. */
module RecordEditor {
  import opened Wrappers
  import opened Text
  import opened JsonValue
  import opened JsPlatform
  import opened DateDetect

  /** The types offered by the add-field form. */
  datatype FieldType = TextType | NumberType | BooleanType | DateType | DateTimeType | ListType | RecordType

  /** The `defaultValue` of each entry of `fieldTypeOptions`. */
  function DefaultFor(env: Env, ft: FieldType): (v: J)
    ensures Wf(v)
  {
    match ft
    case TextType => JStr("Nuevo valor")
    case NumberType => JNum(Fin(0.0))
    case BooleanType => JBool(false)
    case DateType => JStr(BeforeFirst(env.nowIso, 'T'))
    case DateTimeType => JStr(env.nowIso)
    case ListType => JArr([])
    case RecordType => JObj([])
  }

  /** When the clock's ISO text has its usual `YYYY-MM-DDTHH:MM:SS.sssZ` form
      and the runtime reads it, a new "date" field shows as a date without time
      and a new "datetime" field as a date with time. */
  lemma NewDateFieldsAreDates(env: Env)
    requires FullMatch(env.nowIso, IsoDateTimeMillisZ)
    requires env.parseDate(JStr(env.nowIso)).ValidDate?
    ensures EditorDetect(env, DefaultFor(env, DateType)).IsDate?
    ensures !EditorDetect(env, DefaultFor(env, DateType)).hasTime
    ensures EditorDetect(env, DefaultFor(env, DateTimeType)).IsDate?
    ensures EditorDetect(env, DefaultFor(env, DateTimeType)).hasTime
  {
    var d := BeforeFirst(env.nowIso, 'T');
    IsoTimestampDatePart(env.nowIso);
    assert !PrefixMatch(d, IsoDateTime);
    MillisImpliesSeconds(env.nowIso);
  }

  /** The callback is called with `x` when the parent supplied one, and nothing happens otherwise. */
  function Emit(wired: bool, x: J): (out: seq<J>)
    ensures |out| == (if wired then 1 else 0) && (wired ==> out[0] == x)
  {
    if wired then [x] else []
  }

  /** `handleAddField`: the new object, or `None` when the form's name is
      blank after trimming or is already an own key. The duplicate test uses
      the name as typed; the key inserted is the trimmed name. */
  function AddNamedField(env: Env, f: Fields, name: string, ft: FieldType): Option<Fields>
  {
    if JsTrim(name) != [] && !HasKey(f, name) then Some(SetField(f, JsTrim(name), DefaultFor(env, ft)))
    else None
  }

  /** An add succeeds exactly for a non-blank name that is not an own key; the
      trimmed name then holds the type's default, every other key keeps its
      value, and a name not yet present goes last. */
  lemma AddNamedFieldSpec(env: Env, f: Fields, name: string, ft: FieldType)
    ensures var r := AddNamedField(env, f, name, ft);
      && (r.Some? <==> JsTrim(name) != [] && !HasKey(f, name))
      && (r.Some? ==> Lookup(r.value, JsTrim(name)) == Some(DefaultFor(env, ft)))
      && (r.Some? ==> forall k :: k != JsTrim(name) ==> Lookup(r.value, k) == Lookup(f, k))
      && (r.Some? && !HasKey(f, JsTrim(name)) ==> Keys(r.value) == Keys(f) + [JsTrim(name)])
      && (r.Some? && UniqueKeys(f) ==> UniqueKeys(r.value))
  {
    var key := JsTrim(name);
    var v := DefaultFor(env, ft);
    SetFieldKeys(f, key, v);
    SetFieldLookup(f, key, v, key);
    forall k | k != key
      ensures Lookup(SetField(f, key, v), k) == Lookup(f, k)
    {
      SetFieldLookup(f, key, v, k);
    }
    if UniqueKeys(f) {
      SetFieldUnique(f, key, v);
    }
  }

  /** A name with surrounding blanks passes the duplicate test even when its
      trimmed form is already a key; the existing key then takes the default
      value in its original position, and no key is added. */
  lemma PaddedNameReplacesExistingKey(env: Env, f: Fields, name: string, ft: FieldType)
    requires !HasKey(f, name) && JsTrim(name) != [] && HasKey(f, JsTrim(name))
    ensures AddNamedField(env, f, name, ft).Some?
    ensures Keys(AddNamedField(env, f, name, ft).value) == Keys(f)
    ensures Lookup(AddNamedField(env, f, name, ft).value, JsTrim(name)) == Some(DefaultFor(env, ft))
  {
    SetFieldKeys(f, JsTrim(name), DefaultFor(env, ft));
    SetFieldLookup(f, JsTrim(name), DefaultFor(env, ft), JsTrim(name));
  }

  /** `handleFieldChange` replaces the value of one key: the key list is the
      same and every other key keeps its value. */
  lemma ChangeFieldKeepsOthers(f: Fields, k: string, v: J, k': string)
    requires HasKey(f, k)
    ensures Keys(SetField(f, k, v)) == Keys(f)
    ensures Lookup(SetField(f, k, v), k') == if k' == k then Some(v) else Lookup(f, k')
  {
    SetFieldKeys(f, k, v);
    SetFieldLookup(f, k, v, k');
  }

  /** `handleRemoveField` drops one key: no other key changes, the remaining
      fields keep their order (the entry at the key's position is cut out),
      and the input comes back unchanged when the key is absent. */
  lemma RemoveFieldSpec(f: Fields, k: string, k': string)
    requires UniqueKeys(f)
    ensures Lookup(RemoveKey(f, k), k') == if k' == k then None else Lookup(f, k')
    ensures UniqueKeys(RemoveKey(f, k))
    ensures |RemoveKey(f, k)| == if HasKey(f, k) then |f| - 1 else |f|
    ensures forall i :: 0 <= i < |f| && f[i].0 == k ==> RemoveKey(f, k) == f[..i] + f[i + 1..]
    ensures !HasKey(f, k) ==> RemoveKey(f, k) == f
  {
    RemoveKeyLookup(f, k, k');
    RemoveKeyUnique(f, k);
    forall i | 0 <= i < |f| && f[i].0 == k
      ensures RemoveKey(f, k) == f[..i] + f[i + 1..]
    {
      RemoveKeyAt(f, k, i);
    }
    if !HasKey(f, k) {
      RemoveKeyAbsent(f, k);
    }
  }

  /** Removing the key found at position `i` cuts out exactly that entry. */
  lemma {:induction false} RemoveKeyAt(f: Fields, k: string, i: int)
    requires UniqueKeys(f) && 0 <= i < |f| && f[i].0 == k
    ensures RemoveKey(f, k) == f[..i] + f[i + 1..]
  {
    var t := f[1..];
    if i == 0 {
      assert !HasKey(t, k) by {
        forall j | 0 <= j < |t|
          ensures Keys(t)[j] != k
        {
          assert t[j] == f[j + 1];
        }
      }
      RemoveKeyAbsent(t, k);
    } else {
      assert f[0].0 != k;
      assert UniqueKeys(t) by {
        forall a, b | 0 <= a < b < |t|
          ensures t[a].0 != t[b].0
        {
          assert t[a] == f[a + 1] && t[b] == f[b + 1];
        }
      }
      assert t[i - 1] == f[i];
      RemoveKeyAt(t, k, i - 1);
      assert f[..i] == [f[0]] + t[..i - 1];
      assert f[i + 1..] == t[i..];
    }
  }

  lemma {:induction false} RemoveKeyAbsent(f: Fields, k: string)
    requires !HasKey(f, k)
    ensures RemoveKey(f, k) == f
  {
    if f != [] {
      KeysCons(f[0], f[1..]);
      assert f == [f[0]] + f[1..];
      RemoveKeyAbsent(f[1..], k);
    }
  }

  /** The state of one object panel. `value` is the object the parent passes
      in; `emitted` records, oldest first, every object handed to `onValueChange`,
      and `wired` tells whether the parent supplied that callback. */
  class RecordPanel {
    const env: Env
    const depth: int
    const wired: bool
    var value: Fields
    var isExpanded: bool
    var newFieldName: string
    var selectedFieldType: FieldType
    var isAddingField: bool
    var emitted: seq<J>

    /** A panel starts collapsed below the root, with an empty, closed add form. */
    constructor (env: Env, value: Fields, depth: int, wired: bool)
      ensures this.env == env && this.value == value && this.depth == depth && this.wired == wired
      ensures isExpanded == (depth == 0)
      ensures newFieldName == "" && selectedFieldType == TextType && !isAddingField && emitted == []
    {
      this.env := env;
      this.value := value;
      this.depth := depth;
      this.wired := wired;
      isExpanded := depth == 0;
      newFieldName := "";
      selectedFieldType := TextType;
      isAddingField := false;
      emitted := [];
    }

    /** The parent re-renders the panel with a new object; the panel's own state survives. */
    method Receive(v: Fields)
      modifies this
      ensures value == v && emitted == old(emitted) && isExpanded == old(isExpanded)
      ensures newFieldName == old(newFieldName) && selectedFieldType == old(selectedFieldType)
      ensures isAddingField == old(isAddingField)
    {
      value := v;
    }

    method ToggleExpanded()
      modifies this
      ensures isExpanded == !old(isExpanded)
      ensures value == old(value) && emitted == old(emitted) && newFieldName == old(newFieldName)
      ensures selectedFieldType == old(selectedFieldType) && isAddingField == old(isAddingField)
    {
      isExpanded := !isExpanded;
    }

    method OpenAddForm()
      modifies this
      ensures isAddingField
      ensures value == old(value) && emitted == old(emitted) && newFieldName == old(newFieldName)
      ensures selectedFieldType == old(selectedFieldType) && isExpanded == old(isExpanded)
    {
      isAddingField := true;
    }

    method TypeName(name: string)
      modifies this
      ensures newFieldName == name
      ensures value == old(value) && emitted == old(emitted) && isAddingField == old(isAddingField)
      ensures selectedFieldType == old(selectedFieldType) && isExpanded == old(isExpanded)
    {
      newFieldName := name;
    }

    method SelectType(ft: FieldType)
      modifies this
      ensures selectedFieldType == ft
      ensures value == old(value) && emitted == old(emitted) && isAddingField == old(isAddingField)
      ensures newFieldName == old(newFieldName) && isExpanded == old(isExpanded)
    {
      selectedFieldType := ft;
    }

    /** `handleFieldChange`, called by the child that shows key `k`. */
    method ChangeField(k: string, v: J)
      modifies this
      ensures emitted == old(emitted) + Emit(wired, JObj(SetField(value, k, v)))
      ensures value == old(value) && isExpanded == old(isExpanded) && newFieldName == old(newFieldName)
      ensures selectedFieldType == old(selectedFieldType) && isAddingField == old(isAddingField)
    {
      var newObject := SetField(value, k, v);
      if wired {
        emitted := emitted + [JObj(newObject)];
      }
    }

    /** `handleAddField`: on success the new object is emitted and the form is
        reset and closed; otherwise nothing changes. */
    method AddField()
      modifies this
      ensures AddNamedField(env, value, old(newFieldName), old(selectedFieldType)).Some? ==>
        emitted == old(emitted) + Emit(wired, JObj(AddNamedField(env, value, old(newFieldName), old(selectedFieldType)).value))
        && newFieldName == "" && selectedFieldType == TextType && !isAddingField
      ensures AddNamedField(env, value, old(newFieldName), old(selectedFieldType)).None? ==>
        emitted == old(emitted) && newFieldName == old(newFieldName)
        && selectedFieldType == old(selectedFieldType) && isAddingField == old(isAddingField)
      ensures value == old(value) && isExpanded == old(isExpanded)
    {
      var r := AddNamedField(env, value, newFieldName, selectedFieldType);
      if r.Some? {
        if wired {
          emitted := emitted + [JObj(r.value)];
        }
        newFieldName := "";
        selectedFieldType := TextType;
        isAddingField := false;
      }
    }

    /** `handleRemoveField`. */
    method RemoveField(k: string)
      modifies this
      ensures emitted == old(emitted) + Emit(wired, JObj(RemoveKey(value, k)))
      ensures value == old(value) && isExpanded == old(isExpanded) && newFieldName == old(newFieldName)
      ensures selectedFieldType == old(selectedFieldType) && isAddingField == old(isAddingField)
    {
      var newObject := RemoveKey(value, k);
      if wired {
        emitted := emitted + [JObj(newObject)];
      }
    }

    /** The cancel button of the add form: closes it and resets name and type. */
    method CancelAdd()
      modifies this
      ensures !isAddingField && newFieldName == "" && selectedFieldType == TextType
      ensures value == old(value) && emitted == old(emitted) && isExpanded == old(isExpanded)
    {
      isAddingField := false;
      newFieldName := "";
      selectedFieldType := TextType;
    }
  }
}
