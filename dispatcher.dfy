/** The dispatcher that picks the editor for a value (list panel, record panel
    or editable field) and stops below a fixed depth, and what one saved leaf
    edit does to the whole record once the panels' change callbacks have
    rebuilt every enclosing container. */
module Dispatcher {
  import opened Wrappers
  import opened JsonValue

  const MaxDepth := 5

  /** What the dispatcher renders for a value at a depth. */
  datatype Widget = DepthMarker | ListWidget | RecordWidget | LeafWidget

  function Route(v: J, depth: int): (w: Widget)
    ensures w == DepthMarker <==> depth > MaxDepth
    ensures w == ListWidget <==> depth <= MaxDepth && v.JArr?
    ensures w == RecordWidget <==> depth <= MaxDepth && v.JObj?
    ensures w == LeafWidget <==> depth <= MaxDepth && v.IsScalar()
  {
    if depth > MaxDepth then DepthMarker
    else if v.JArr? then ListWidget
    else if v.JObj? then RecordWidget
    else LeafWidget
  }

  /** One step into a container: an array index or an object key. */
  datatype Step = Index(i: int) | Key(k: string)

  type Path = seq<Step>

  function Child(v: J, s: Step): Option<J>
  {
    match (v, s)
    case (JArr(items), Index(i)) => if 0 <= i < |items| then Some(items[i]) else None
    case (JObj(f), Key(k)) => Lookup(f, k)
    case _ => None
  }

  /** The container with the child at `s` replaced: `[...value]` then
      `newArray[index] = c` for arrays, `{...value, [key]: c}` for objects. */
  function Replace(v: J, s: Step, c: J): J
    requires Child(v, s).Some?
  {
    match (v, s)
    case (JArr(items), Index(i)) => JArr(items[i := c])
    case (JObj(f), Key(k)) => JObj(SetField(f, k, c))
  }

  function Get(v: J, p: Path): Option<J>
    decreases |p|
  {
    if p == [] then Some(v)
    else match Child(v, p[0])
      case None => None
      case Some(c) => Get(c, p[1..])
  }

  /** The record with the value at `p` replaced by `x`; unchanged when `p` leads nowhere. */
  function UpdateAt(v: J, p: Path, x: J): J
    decreases |p|
  {
    if p == [] then x
    else match Child(v, p[0])
      case None => v
      case Some(c) => Replace(v, p[0], UpdateAt(c, p[1..], x))
  }

  /** The value that reaches the top callback when the editable field at path
      `p` below a dispatcher at `depth` saves `x`; `None` when no field is shown
      there or the save is dropped. `wired` tells whether the dispatcher was
      given a callback. */
  function Edit(v: J, depth: int, p: Path, x: J, wired: bool): Option<J>
    decreases |p|, 1
  {
    match Route(v, depth)
    case DepthMarker => None
    case LeafWidget => if p == [] && wired then Some(x) else None
    case _ => PanelEdit(v, depth, p, x, wired)
  }

  /** A list or record panel: the child's edit is rebuilt into this container
      and passed on when the panel has a callback. */
  function PanelEdit(v: J, depth: int, p: Path, x: J, wired: bool): Option<J>
    decreases |p|, 0
  {
    if p == [] then None
    else match Child(v, p[0])
      case None => None
      case Some(c) =>
        // containers go back to the dispatcher one level deeper, scalars
        // straight to an editable field whose callback is always this panel's
        var sub := if c.IsScalar() then (if p[1..] == [] then Some(x) else None)
          else Edit(c, depth + 1, p[1..], x, true);
        if sub.Some? && wired then Some(Replace(v, p[0], sub.value)) else None
  }

  /** The number of containers the path passes through, counting the start. */
  function ContainersOnPath(p: Path): nat
  {
    if p == [] then 0 else |p| - 1
  }

  /** One save at path `p` reaches the top exactly when the top has a callback,
      `p` leads to a scalar, and every container on the way is above the depth
      cut; the top then receives the record with only that scalar replaced. */
  lemma {:induction false} EditSpec(v: J, depth: int, p: Path, x: J, wired: bool)
    ensures Edit(v, depth, p, x, wired) ==
      if wired && Get(v, p).Some? && Get(v, p).value.IsScalar() && depth <= MaxDepth
         && depth + ContainersOnPath(p) <= MaxDepth
      then Some(UpdateAt(v, p, x)) else None
    decreases |p|, 1
  {
    if p != [] && depth <= MaxDepth && !v.IsScalar() {
      match Child(v, p[0])
      case None =>
      case Some(c) => PanelEditSpec(v, depth, p, x, wired, c);
    } else if p != [] && depth <= MaxDepth {
      assert Child(v, p[0]) == None;
    }
  }

  /** The same, for a save that goes through a container's child `c`. */
  lemma {:induction false} PanelEditSpec(v: J, depth: int, p: Path, x: J, wired: bool, c: J)
    requires p != [] && depth <= MaxDepth && !v.IsScalar() && Child(v, p[0]) == Some(c)
    ensures Edit(v, depth, p, x, wired) ==
      if wired && Get(c, p[1..]).Some? && Get(c, p[1..]).value.IsScalar()
         && depth + ContainersOnPath(p) <= MaxDepth
      then Some(Replace(v, p[0], UpdateAt(c, p[1..], x))) else None
    decreases |p|, 0
  {
    if c.IsScalar() {
      if p[1..] != [] {
        assert Get(c, p[1..]) == None;
      }
    } else {
      EditSpec(c, depth + 1, p[1..], x, true);
    }
  }

  /** A scalar six steps below the root sits in a container at depth 5, the
      deepest one shown, and is still editable: scalars bypass the depth cut. */
  lemma ScalarBelowDeepestContainerIsEditable(v: J, p: Path, x: J)
    requires |p| == MaxDepth + 1
    requires Get(v, p).Some? && Get(v, p).value.IsScalar()
    ensures Edit(v, 0, p, x, true) == Some(UpdateAt(v, p, x))
  {
    EditSpec(v, 0, p, x, true);
  }

  /** Neither path is a prefix of the other. */
  predicate Diverge(p: Path, q: Path)
    decreases |p|
  {
    p != [] && q != [] && (p[0] != q[0] || Diverge(p[1..], q[1..]))
  }

  /** After updating at `p`, the new value is found at `p`. */
  lemma {:induction false} UpdateAtGet(v: J, p: Path, x: J)
    requires Get(v, p).Some?
    ensures Get(UpdateAt(v, p, x), p) == Some(x)
    decreases |p|
  {
    if p != [] {
      var c := Child(v, p[0]).value;
      UpdateAtGet(c, p[1..], x);
      ChildOfReplace(v, p[0], UpdateAt(c, p[1..], x), p[0]);
    }
  }

  lemma ChildOfReplace(v: J, s: Step, c: J, t: Step)
    requires Child(v, s).Some?
    ensures Child(Replace(v, s, c), t) == if t == s then Some(c) else Child(v, t)
  {
    match (v, s)
    case (JArr(items), Index(i)) =>
    case (JObj(f), Key(k)) =>
      if t.Key? {
        SetFieldLookup(f, k, c, t.k);
      }
  }

  /** Updating at `p` leaves every path that diverges from `p` as it was. */
  lemma {:induction false} UpdateAtKeepsOthers(v: J, p: Path, x: J, q: Path)
    requires Diverge(p, q)
    ensures Get(UpdateAt(v, p, x), q) == Get(v, q)
    decreases |p|
  {
    match Child(v, p[0])
    case None =>
    case Some(c) =>
      var u := UpdateAt(c, p[1..], x);
      ChildOfReplace(v, p[0], u, q[0]);
      if p[0] == q[0] {
        UpdateAtKeepsOthers(c, p[1..], x, q[1..]);
      }
  }

  /** Updating at `p` keeps the shape above it: every array keeps its length and
      every object its key order, so the paths that existed still exist. */
  lemma {:induction false} UpdateAtKeepsPaths(v: J, p: Path, x: J, q: Path)
    requires Get(v, q).Some? && !Diverge(p, q) && |q| <= |p|
    ensures Get(UpdateAt(v, p, x), q).Some?
    decreases |q|
  {
    if q != [] {
      var c := Child(v, p[0]).value;
      ChildOfReplace(v, p[0], UpdateAt(c, p[1..], x), q[0]);
      UpdateAtKeepsPaths(c, p[1..], x, q[1..]);
    }
  }
}
