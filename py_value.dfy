/** Python values as the back end sees them: what `json.loads` produces, plus
    the `Decimal` and `datetime` values the field mappers put back, with the
    few language rules the mappers depend on (truthiness, `in`, `str`, dict
    lookup and assignment) and the library parsers as parameters. */
module PyValue {
  import opened Wrappers
  import opened Text
  import opened Calendar

  /** A Python value. Floats are taken as the real number their shortest
      representation denotes; `Decimal` values are finite. */
  datatype V =
    | VNone
    | VBool(b: bool)
    | VInt(i: int)
    | VFloat(x: real)
    | VDecimal(d: real)
    | VStr(s: string)
    | VList(items: seq<V>)
    | VDict(entries: Dict)
    | VDateTime(dt: DateTime)

  /** A dict with string keys, in insertion order. */
  type Dict = seq<(string, V)>

  /** A regular-expression match: the matched text and its numbered groups
      from group 1 on. */
  datatype Match = Match(whole: string, groups: seq<string>)

  /** `m.group(n)`; `None` where Python raises `IndexError` (no such group). */
  function Group(m: Match, n: nat): (r: Option<string>)
    ensures n == 0 ==> r == Some(m.whole)
    ensures n > 0 ==> (r.Some? <==> n <= |m.groups|)
  {
    if n == 0 then Some(m.whole)
    else if n <= |m.groups| then Some(m.groups[n - 1])
    else None
  }

  /** The library functions the mappers call, and the clock. */
  datatype PyEnv = PyEnv(
    /** `datetime.strptime(s, fmt)`; `None` where it raises `ValueError`. */
    strptime: (string, string) -> Option<DateTime>,
    /** `datetime.fromisoformat(s)`; `None` where it raises `ValueError`. */
    fromIsoFormat: string -> Option<DateTime>,
    /** `Decimal(s)` for a stripped, non-empty string; `None` where it raises. */
    parseDecimal: string -> Option<real>,
    /** `float(s)` for a stripped, non-empty string; `None` where it raises `ValueError`. */
    parseFloat: string -> Option<real>,
    /** `str(v)` for floats, decimals, lists, dicts and date-times. */
    repr: V -> string,
    /** `re.search(pattern, text)` for a pattern with metacharacters. */
    reSearch: (string, string) -> Option<Match>,
    /** `re.findall(pattern, text, re.IGNORECASE)` for a one-group pattern. */
    reFindAll: (string, string) -> seq<string>,
    /** `datetime.now()` at the moment of the call. */
    now: DateTime)

  /** A pattern made of digits only matches itself literally and has no groups. */
  predicate LiteralPattern(p: string) { p != [] && AllDigits(p) }

  /** `re.search(pattern, text)`: literal patterns are searched here, the
      others by the library. */
  function Search(env: PyEnv, pattern: string, text: string): (r: Option<Match>)
    ensures LiteralPattern(pattern) ==> (r.Some? <==> Contains(text, pattern))
    ensures LiteralPattern(pattern) && r.Some? ==> r.value == Match(pattern, [])
  {
    if LiteralPattern(pattern) then (if Contains(text, pattern) then Some(Match(pattern, [])) else None)
    else env.reSearch(pattern, text)
  }

  /** `bool(v)`. */
  predicate Truthy(v: V)
  {
    match v
    case VNone => false
    case VBool(b) => b
    case VInt(i) => i != 0
    case VFloat(x) => x != 0.0
    case VDecimal(d) => d != 0.0
    case VStr(s) => s != ""
    case VList(items) => items != []
    case VDict(entries) => entries != []
    case VDateTime(_) => true
  }

  /** `d.get(k)`: the value stored under `k`, if any. */
  function Get(d: Dict, k: string): (r: Option<V>)
    ensures r.Some? <==> k in Keys(d)
    ensures r.Some? ==> (k, r.value) in d
  {
    if d == [] then None
    else if d[0].0 == k then Some(d[0].1)
    else Get(d[1..], k)
  }

  /** `d.get(k, default)`. */
  function GetOr(d: Dict, k: string, default: V): (r: V)
    ensures k !in Keys(d) ==> r == default
    ensures k in Keys(d) ==> (k, r) in d
  {
    match Get(d, k)
    case Some(v) => v
    case None => default
  }

  /** `a` and `b` agree on every key but `k`. */
  ghost predicate SameExcept(a: Dict, b: Dict, k: string)
  {
    forall k' {:trigger Get(a, k')} :: k' != k ==> Get(a, k') == Get(b, k')
  }

  /** Agreement outside one key is transitive. */
  lemma SameExceptTrans(a: Dict, b: Dict, c: Dict, k: string)
    requires SameExcept(a, b, k) && SameExcept(b, c, k)
    ensures SameExcept(a, c, k)
  {
  }

  /** `d[k] = v`: an existing key keeps its place, a new key goes last. */
  function Set(d: Dict, k: string, v: V): (r: Dict)
    ensures k in Keys(d) ==> |r| == |d|
    ensures k !in Keys(d) ==> r == d + [(k, v)]
  {
    if d == [] then [(k, v)]
    else if d[0].0 == k then [(k, v)] + d[1..]
    else [d[0]] + Set(d[1..], k, v)
  }

  /** After `d[k] = v`, `k` holds `v` and every other key what it held. */
  lemma {:induction false} GetSet(d: Dict, k: string, v: V, k': string)
    ensures Get(Set(d, k, v), k') == if k' == k then Some(v) else Get(d, k')
  {
    if d != [] && d[0].0 != k {
      GetSet(d[1..], k, v, k');
    }
  }

  /** The same, for every key at once. */
  lemma SetFrame(d: Dict, k: string, v: V)
    ensures Get(Set(d, k, v), k) == Some(v) && SameExcept(Set(d, k, v), d, k)
  {
    forall k' {
      GetSet(d, k, v, k');
    }
  }

  /** `str(v)`. */
  function Display(env: PyEnv, v: V): string
  {
    match v
    case VStr(s) => s
    case VInt(i) => IntToString(i)
    case VBool(b) => if b then "True" else "False"
    case VNone => "None"
    case _ => env.repr(v)
  }

  /** `needle in container` for a string needle; `None` where Python raises
      `TypeError` (the container is not iterable). */
  function PyIn(needle: string, container: V): (r: Option<bool>)
    ensures container.VStr? ==> r == Some(Contains(container.s, needle))
    ensures container.VDict? ==> r == Some(needle in Keys(container.entries))
    ensures r.None? <==> !(container.VStr? || container.VList? || container.VDict?)
  {
    match container
    case VStr(s) => Some(Contains(s, needle))
    case VList(items) => Some(VStr(needle) in items)
    case VDict(entries) => Some(needle in Keys(entries))
    case _ => None
  }

  /** The numeric value of an int, bool, float or Decimal. */
  function NumberOf(v: V): Option<real>
  {
    match v
    case VBool(b) => Some(if b then 1.0 else 0.0)
    case VInt(i) => Some(i as real)
    case VFloat(x) => Some(x)
    case VDecimal(d) => Some(d)
    case _ => None
  }

  /** `a - b`; `None` where Python raises `TypeError` (a non-number, or a float
      mixed with a Decimal). */
  function Minus(a: V, b: V): (r: Option<V>)
    ensures r.Some? ==> (NumberOf(a).Some? && NumberOf(b).Some?
      && NumberOf(r.value) == Some(NumberOf(a).value - NumberOf(b).value))
    ensures NumberOf(a).Some? && NumberOf(b).Some? && !(a.VFloat? && b.VDecimal?) && !(a.VDecimal? && b.VFloat?)
      ==> r.Some?
  {
    if NumberOf(a).None? || NumberOf(b).None? || (a.VFloat? && b.VDecimal?) || (a.VDecimal? && b.VFloat?) then None
    else
      var x := NumberOf(a).value - NumberOf(b).value;
      if a.VDecimal? || b.VDecimal? then Some(VDecimal(x))
      else if a.VFloat? || b.VFloat? then Some(VFloat(x))
      else Some(VInt(IntOf(a) - IntOf(b)))
  }

  /** The value of an int or a bool. */
  function IntOf(v: V): (n: int)
    requires v.VInt? || v.VBool?
    ensures NumberOf(v) == Some(n as real)
  {
    if v.VInt? then v.i else if v.b then 1 else 0
  }

  /** Python `==` between two values as far as the mappers compare them:
      numbers by value, everything else structurally. */
  predicate PyEq(a: V, b: V)
  {
    if NumberOf(a).Some? && NumberOf(b).Some? then NumberOf(a) == NumberOf(b) else a == b
  }

  /** The values of the dicts in a list; `None` unless every item is a dict. */
  function DictsOf(items: seq<V>): (r: Option<seq<Dict>>)
    ensures r.Some? <==> forall i :: 0 <= i < |items| ==> items[i].VDict?
    ensures r.Some? ==> |r.value| == |items| && forall i :: 0 <= i < |items| ==> items[i] == VDict(r.value[i])
  {
    if items == [] then Some([])
    else if !items[0].VDict? then None
    else
      match DictsOf(items[1..])
      case None => None
      case Some(rest) => Some([items[0].entries] + rest)
  }

  /** `for x in v: x.get(...)`: the dicts iterated over, or `None` where the
      loop raises: `v` is not iterable, or it yields something that is not a
      dict (a character of a non-empty string, a key of a non-empty dict). */
  function IterateDicts(v: V): (r: Option<seq<Dict>>)
    ensures v.VList? ==> r == DictsOf(v.items)
    ensures (v.VStr? && v.s == "") || (v.VDict? && v.entries == []) ==> r == Some([])
    ensures !(v.VList? || v.VStr? || v.VDict?) ==> r.None?
  {
    match v
    case VList(items) => DictsOf(items)
    case VStr(s) => if s == "" then Some([]) else None
    case VDict(entries) => if entries == [] then Some([]) else None
    case _ => None
  }

  /** A list of dicts as a Python value. */
  function ListOfDicts(ds: seq<Dict>): (v: V)
    ensures v.VList? && DictsOf(v.items) == Some(ds)
  {
    var items := seq(|ds|, i requires 0 <= i < |ds| => VDict(ds[i]));
    DictsOfList(ds, items);
    VList(items)
  }

  lemma {:induction false} DictsOfList(ds: seq<Dict>, items: seq<V>)
    requires |items| == |ds| && forall i :: 0 <= i < |ds| ==> items[i] == VDict(ds[i])
    ensures DictsOf(items) == Some(ds)
  {
    if ds != [] {
      DictsOfList(ds[1..], items[1..]);
      assert items[0] == VDict(ds[0]);
      assert ds == [ds[0]] + ds[1..];
    }
  }
}
