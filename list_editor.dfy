/** The panel that edits one array of the invoice record: replace an item,
    append an item (a deep copy of the last one, or a fixed template when the
    list is empty), remove an item. */
module ListEditor {
  import opened Wrappers
  import opened Text
  import opened JsonValue
  import opened JsPlatform
  import opened RecordEditor

  /** `handleItemChange`: copies the list into a fresh array and assigns the one slot. */
  method ReplaceItem(items: seq<J>, index: nat, v: J) returns (r: seq<J>)
    requires index < |items|
    ensures |r| == |items| && r[index] == v
    ensures forall i :: 0 <= i < |items| && i != index ==> r[i] == items[i]
  {
    var newArray := new J[|items|](i requires 0 <= i < |items| => items[i]);
    newArray[index] := v;
    r := newArray[..];
  }

  lemma {:induction false} SetFieldAppends(f: Fields, k: string, v: J)
    requires !HasKey(f, k)
    ensures SetField(f, k, v) == f + [(k, v)]
  {
    if f != [] {
      KeysCons(f[0], f[1..]);
      assert f == [f[0]] + f[1..];
      SetFieldAppends(f[1..], k, v);
    }
  }

  /** `deepCopy`: arrays are mapped item by item and objects rebuilt key by key
      in a for-in loop; scalars are returned as they are. The copy equals its source. */
  method DeepCopy(v: J) returns (c: J)
    requires Wf(v)
    ensures c == v
    decreases v
  {
    match v {
      case JArr(items) =>
        var copied: seq<J> := [];
        var i := 0;
        while i < |items|
          invariant 0 <= i <= |items| && copied == items[..i]
        {
          var x := DeepCopy(items[i]);
          copied := copied + [x];
          i := i + 1;
        }
        assert items[..|items|] == items;
        c := JArr(copied);
      case JObj(fields) =>
        var copiedObj: Fields := [];
        var i := 0;
        while i < |fields|
          invariant 0 <= i <= |fields| && copiedObj == fields[..i]
        {
          var x := DeepCopy(fields[i].1);
          assert !HasKey(copiedObj, fields[i].0) by {
            forall j | 0 <= j < i
              ensures Keys(copiedObj)[j] != fields[i].0
            {
              assert copiedObj[j] == fields[j];
            }
          }
          SetFieldAppends(copiedObj, fields[i].0, x);
          copiedObj := SetField(copiedObj, fields[i].0, x);
          assert fields[..i + 1] == fields[..i] + [(fields[i].0, fields[i].1)];
          i := i + 1;
        }
        assert fields[..|fields|] == fields;
        c := JObj(copiedObj);
      case _ =>
        c := v;
    }
  }

  /** The item appended to an empty list. */
  function Template(env: Env): J
  {
    JObj([("id", JNum(Fin(env.nowMillis as real))), ("nombre", JStr("Nuevo elemento")),
          ("activo", JBool(true)), ("fecha", JStr(BeforeFirst(env.nowIso, 'T')))])
  }

  /** The template's `fecha` is today's date, the same text as a new "date" field of a record. */
  lemma TemplateDateIsNewDate(env: Env)
    ensures Lookup(Template(env).fields, "fecha") == Some(DefaultFor(env, DateType))
  {
    var f := Template(env).fields;
    var g := f[1..][1..][1..];
    assert g == [("fecha", DefaultFor(env, DateType))];
    assert Lookup(f, "fecha") == Lookup(f[1..], "fecha") == Lookup(f[1..][1..], "fecha") == Lookup(g, "fecha");
  }

  /** The template has four distinct keys, in this order. */
  lemma TemplateKeys(env: Env)
    ensures Keys(Template(env).fields) == ["id", "nombre", "activo", "fecha"]
    ensures UniqueKeys(Template(env).fields)
  {
  }

  /** `handleAddItem`'s new element. */
  method NewItem(env: Env, items: seq<J>) returns (x: J)
    requires forall i :: 0 <= i < |items| ==> Wf(items[i])
    ensures x == if |items| > 0 then items[|items| - 1] else Template(env)
  {
    if |items| > 0 {
      x := DeepCopy(items[|items| - 1]);
    } else {
      x := Template(env);
    }
  }

  /** `value.filter((_, i) => i !== index)`. */
  function WithoutIndex(items: seq<J>, index: int): (r: seq<J>)
    ensures 0 <= index < |items| ==> r == items[..index] + items[index + 1..]
    ensures !(0 <= index < |items|) ==> r == items
  {
    if items == [] then []
    else
      var rest := WithoutIndex(items[1..], index - 1);
      assert index > 0 && index < |items| ==> items[..index] == [items[0]] + items[1..][..index - 1];
      (if index == 0 then [] else [items[0]]) + rest
  }

  /** Removing an index in range shortens the list by one and shifts the later items down. */
  lemma RemoveItemShifts(items: seq<J>, index: int, i: int)
    requires 0 <= index < |items| && 0 <= i < |items| - 1
    ensures |WithoutIndex(items, index)| == |items| - 1
    ensures WithoutIndex(items, index)[i] == if i < index then items[i] else items[i + 1]
  {
  }

  /** The label of item i. */
  function ItemLabel(i: nat): string
  {
    "Elemento " + NatToString(i)
  }

  /** The state of one array panel; `emitted` records every array handed to `onValueChange`. */
  class ListPanel {
    const env: Env
    const depth: int
    const wired: bool
    var value: seq<J>
    var isExpanded: bool
    var emitted: seq<J>

    predicate Valid()
      reads this
    {
      forall i :: 0 <= i < |value| ==> Wf(value[i])
    }

    /** A list starts collapsed below the root. */
    constructor (env: Env, value: seq<J>, depth: int, wired: bool)
      requires forall i :: 0 <= i < |value| ==> Wf(value[i])
      ensures Valid()
      ensures this.env == env && this.value == value && this.depth == depth && this.wired == wired
      ensures isExpanded == (depth == 0) && emitted == []
    {
      this.env := env;
      this.value := value;
      this.depth := depth;
      this.wired := wired;
      isExpanded := depth == 0;
      emitted := [];
    }

    method ToggleExpanded()
      modifies this
      ensures isExpanded == !old(isExpanded) && value == old(value) && emitted == old(emitted)
    {
      isExpanded := !isExpanded;
    }

    /** `handleItemChange`, called by the child that shows item `index`. */
    method ChangeItem(index: nat, v: J)
      requires index < |value|
      modifies this
      ensures value == old(value) && isExpanded == old(isExpanded)
      ensures emitted == old(emitted) + Emit(wired, JArr(value[index := v]))
    {
      var newArray := ReplaceItem(value, index, v);
      assert newArray == value[index := v];
      if wired {
        emitted := emitted + [JArr(newArray)];
      }
    }

    /** `handleAddItem`. */
    method AddItem()
      requires Valid()
      modifies this
      ensures emitted == old(emitted) + Emit(wired, JArr(value + [if |value| > 0 then value[|value| - 1] else Template(env)]))
      ensures value == old(value) && isExpanded == old(isExpanded)
    {
      var newItem := NewItem(env, value);
      var newArray := value + [newItem];
      if wired {
        emitted := emitted + [JArr(newArray)];
      }
    }

    /** `handleRemoveItem`. */
    method RemoveItem(index: int)
      modifies this
      ensures emitted == old(emitted) + Emit(wired, JArr(WithoutIndex(value, index)))
      ensures value == old(value) && isExpanded == old(isExpanded)
    {
      var newArray := WithoutIndex(value, index);
      if wired {
        emitted := emitted + [JArr(newArray)];
      }
    }
  }
}
