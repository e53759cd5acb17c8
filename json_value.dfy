/** JSON-like values as the browser holds them: the invoice record being edited
    is a tree of objects, arrays and scalars. Objects keep their keys in
    insertion order, as `Object.keys` lists them. */
module JsonValue {
  import opened Wrappers
  import opened Text

  /** An IEEE double seen through the only distinctions the editor makes. */
  datatype Num = NaN | NegInf | PosInf | Fin(r: real)

  datatype J =
    | JNull
    | JBool(b: bool)
    | JNum(n: Num)
    | JStr(s: string)
    | JArr(items: seq<J>)
    | JObj(fields: seq<(string, J)>)
  {
    /** Not an array and not an object: rendered by a single editable field. */
    predicate IsScalar() { !JArr? && !JObj? }
  }

  type Fields = seq<(string, J)>

  predicate HasKey(f: Fields, k: string) { k in Keys(f) }

  /** `obj[k]` for an own key `k`; `None` when `k` is not an own key. */
  function Lookup(f: Fields, k: string): (r: Option<J>)
    ensures r.Some? <==> HasKey(f, k)
    ensures r.Some? ==> (k, r.value) in f
  {
    if f == [] then None
    else if f[0].0 == k then Some(f[0].1)
    else
      assert Keys(f) == [f[0].0] + Keys(f[1..]);
      Lookup(f[1..], k)
  }

  /** `{...obj, [k]: v}`: an existing key keeps its position and takes the new
      value, a new key goes last. */
  function SetField(f: Fields, k: string, v: J): Fields
  {
    if f == [] then [(k, v)]
    else if f[0].0 == k then [(k, v)] + f[1..]
    else [f[0]] + SetField(f[1..], k, v)
  }

  lemma {:induction false} KeysCons(p: (string, J), f: Fields)
    ensures Keys([p] + f) == [p.0] + Keys(f)
  {
  }

  lemma {:induction false} SetFieldKeys(f: Fields, k: string, v: J)
    ensures HasKey(f, k) ==> Keys(SetField(f, k, v)) == Keys(f)
    ensures !HasKey(f, k) ==> Keys(SetField(f, k, v)) == Keys(f) + [k]
  {
    if f != [] {
      KeysCons(f[0], f[1..]);
      assert f == [f[0]] + f[1..];
      if f[0].0 == k {
        KeysCons((k, v), f[1..]);
      } else {
        SetFieldKeys(f[1..], k, v);
        KeysCons(f[0], SetField(f[1..], k, v));
      }
    }
  }

  lemma {:induction false} SetFieldLookup(f: Fields, k: string, v: J, k': string)
    ensures Lookup(SetField(f, k, v), k') == if k' == k then Some(v) else Lookup(f, k')
  {
    if f != [] && f[0].0 != k {
      SetFieldLookup(f[1..], k, v, k');
      assert SetField(f, k, v)[1..] == SetField(f[1..], k, v);
    } else if f != [] {
      assert SetField(f, k, v)[1..] == f[1..];
    }
  }

  lemma {:induction false} SetFieldUnique(f: Fields, k: string, v: J)
    requires UniqueKeys(f)
    ensures UniqueKeys(SetField(f, k, v))
  {
    var g := SetField(f, k, v);
    SetFieldKeys(f, k, v);
    if HasKey(f, k) {
      assert forall i :: 0 <= i < |g| ==> g[i].0 == Keys(g)[i] == Keys(f)[i] == f[i].0;
    } else {
      assert forall i :: 0 <= i < |g| ==> g[i].0 == Keys(g)[i];
      assert forall i :: 0 <= i < |f| ==> Keys(f)[i] != k;
    }
  }

  /** `const {[k]: _, ...rest} = obj`: every other key, in the same order. */
  function RemoveKey(f: Fields, k: string): Fields
  {
    if f == [] then []
    else if f[0].0 == k then RemoveKey(f[1..], k)
    else [f[0]] + RemoveKey(f[1..], k)
  }

  lemma {:induction false} RemoveKeyMembers(f: Fields, k: string)
    ensures forall p :: p in RemoveKey(f, k) <==> p in f && p.0 != k
  {
    if f != [] {
      RemoveKeyMembers(f[1..], k);
      assert f == [f[0]] + f[1..];
    }
  }

  lemma {:induction false} RemoveKeyLookup(f: Fields, k: string, k': string)
    ensures Lookup(RemoveKey(f, k), k') == if k' == k then None else Lookup(f, k')
  {
    if f != [] {
      RemoveKeyLookup(f[1..], k, k');
      if f[0].0 != k {
        assert RemoveKey(f, k)[1..] == RemoveKey(f[1..], k);
      }
    }
  }

  lemma {:induction false} RemoveKeyUnique(f: Fields, k: string)
    requires UniqueKeys(f)
    ensures UniqueKeys(RemoveKey(f, k))
    ensures |RemoveKey(f, k)| == if HasKey(f, k) then |f| - 1 else |f|
  {
    if f != [] {
      KeysCons(f[0], f[1..]);
      assert f == [f[0]] + f[1..];
      RemoveKeyUnique(f[1..], k);
      RemoveKeyMembers(f[1..], k);
      if f[0].0 == k {
        assert !HasKey(f[1..], k);
      } else {
        var g := RemoveKey(f, k);
        assert g == [f[0]] + RemoveKey(f[1..], k);
        forall i, j | 0 <= i < j < |g|
          ensures g[i].0 != g[j].0
        {
          if i == 0 {
            assert g[j] in RemoveKey(f[1..], k);
            assert g[j] in f[1..];
          }
        }
      }
    }
  }

  /** Every object in the tree has distinct keys. */
  predicate Wf(v: J)
  {
    match v
    case JArr(items) => forall i :: 0 <= i < |items| ==> Wf(items[i])
    case JObj(fields) => UniqueKeys(fields) && forall i :: 0 <= i < |fields| ==> Wf(fields[i].1)
    case _ => true
  }
}
