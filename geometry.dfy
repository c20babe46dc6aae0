/** Launch geometry normalisation: `_ensure_list`, `_ensure_size_or_append` and the
    size arithmetic behind `HSAKernelBase.configure` and `HSAKernelBase.__getitem__`. */
module Geometry {
  import opened Common

  /** A Python list of sizes; `_ensure_size_or_append` appends to one in place. */
  class PyList {
    var items: seq<int>

    constructor (items: seq<int>)
      ensures this.items == items
    {
      this.items := items;
    }

    method Append(x: int)
      modifies this
      ensures items == old(items) + [x]
    {
      items := items + [x];
    }
  }

  /** A size as a caller hands it over: a bare scalar, a tuple, or a list object. */
  datatype SizeArg = Scalar(n: int) | Tuple(elems: seq<int>) | List(list: PyList)

  /** The elements a size argument stands for, in order. */
  function Elements(v: SizeArg): seq<int>
    reads if v.List? then {v.list} else {}
  {
    match v
    case Scalar(n) => [n]
    case Tuple(elems) => elems
    case List(l) => l.items
  }

  function OptElements(v: Option<SizeArg>): Option<seq<int>>
    reads if v.Some? && v.value.List? then {v.value.list} else {}
  {
    match v
    case None => None
    case Some(a) => Some(Elements(a))
  }

  /** `_ensure_list`: a scalar becomes a one-element list; a tuple or list is copied into a
      new list object, so later in-place padding never reaches the caller's list. */
  method EnsureList(v: SizeArg) returns (l: PyList)
    ensures fresh(l)
    ensures v.Scalar? ==> l.items == [v.n]
    ensures !v.Scalar? ==> l.items == Elements(v)
  {
    match v
    case Scalar(n) => l := new PyList([n]);
    case Tuple(elems) => l := new PyList(elems);
    case List(other) => l := new PyList(other.items);
  }

  /** `k` ones. */
  function Ones(k: nat): seq<int> { seq(k, _ => 1) }

  /** `s` right-padded with 1s up to length `size`. It never truncates and never changes an
      element that was already there. */
  function Pad(s: seq<int>, size: int): (r: seq<int>)
    ensures |r| == Max(|s|, size)
    ensures r[..|s|] == s
    ensures forall i :: |s| <= i < |r| ==> r[i] == 1
  {
    if |s| >= size then s else s + Ones(size - |s|)
  }

  /** `_ensure_size_or_append`: appends 1 to the list, in place, until it holds `size`
      elements; a list that is already long enough is left alone. */
  method EnsureSizeOrAppend(val: PyList, size: int)
    modifies val
    ensures val.items == Pad(old(val.items), size)
  {
    var n := |val.items|;
    var i := n;
    while i < size
      invariant n <= i && (i == n || i <= size)
      invariant val.items == old(val.items) + Ones(i - n)
    {
      val.Append(1);
      assert Ones(i + 1 - n) == Ones(i - n) + [1];
      i := i + 1;
    }
    if n >= size {
      assert Ones(i - n) == [];
    }
  }

  /** The padding step shared by `configure` and `__getitem__`: both lists are padded in
      place to the larger of their two lengths. */
  method PadToCommonRank(a: PyList, b: PyList)
    requires a != b
    modifies a, b
    ensures a.items == Pad(old(a.items), |old(b.items)|)
    ensures b.items == Pad(old(b.items), |old(a.items)|)
  {
    var size := Max(|a.items|, |b.items|);
    EnsureSizeOrAppend(a, size);
    EnsureSizeOrAppend(b, size);
  }

  /** A canonical global size together with the optional local (workgroup) size. */
  datatype Geometry = Geometry(global: seq<int>, local: Option<seq<int>>)

  /** The sizes `configure` stores: without a local size the global size is kept as it is;
      with one, both are padded with 1s to the larger rank, and a local size that is still
      empty after padding is dropped to None. */
  function Resolve(g: seq<int>, l: Option<seq<int>>): (r: Geometry)
    ensures l.None? ==> r == Geometry(g, None)
    ensures l.Some? ==> r.global == Pad(g, |l.value|)
    ensures r.local.Some? <==> l.Some? && (g != [] || l.value != [])
    ensures r.local.Some? ==> r.local.value == Pad(l.value, |g|) && |r.local.value| == |r.global|
  {
    match l
    case None => Geometry(g, None)
    case Some(ls) =>
      var size := Max(|g|, |ls|);
      var lp := Pad(ls, size);
      Geometry(Pad(g, size), if lp != [] then Some(lp) else None)
  }

  /** Configuring again with the sizes a configuration already holds changes nothing. */
  lemma ResolveIdempotent(g: seq<int>, l: Option<seq<int>>)
    ensures Resolve(Resolve(g, l).global, Resolve(g, l).local) == Resolve(g, l)
  {
  }

  /** The element-wise product `[g * l for g, l in zip(a, b)]`; `zip` stops at the shorter. */
  function ZipMul(a: seq<int>, b: seq<int>): (r: seq<int>)
    ensures |r| == Min(|a|, |b|)
    ensures forall i :: 0 <= i < |r| ==> r[i] == a[i] * b[i]
  {
    if a == [] || b == [] then [] else [a[0] * b[0]] + ZipMul(a[1..], b[1..])
  }

  /** The geometry `kernel[grid, block]` configures: grid and block padded to a common rank,
      the global size their element-wise product, the padded block the local size. */
  function Bracket(grid: seq<int>, block: seq<int>): (r: Geometry)
    ensures |r.global| == Max(|grid|, |block|)
    ensures forall i :: 0 <= i < |r.global| ==>
      r.global[i] == Pad(grid, |block|)[i] * Pad(block, |grid|)[i]
    ensures r.local == if grid == [] && block == [] then None else Some(Pad(block, |grid|))
  {
    var bp := Pad(block, |grid|);
    Resolve(ZipMul(Pad(grid, |block|), bp), Some(bp))
  }

  /** `configure((4,), (2,))` and `configure((4, 2), (2,))`. */
  lemma ResolveExamples()
    ensures Resolve([4], Some([2])) == Geometry([4], Some([2]))
    ensures Resolve([4, 2], Some([2])) == Geometry([4, 2], Some([2, 1]))
    ensures Resolve([4, 2], None) == Geometry([4, 2], None)
  {
    assert Pad([2], 2) == [2, 1];
  }

  /** `k[(2, 3), (4, 5)]` and `k[(2,), (4, 5)]`. */
  lemma BracketExamples()
    ensures Bracket([2, 3], [4, 5]) == Geometry([8, 15], Some([4, 5]))
    ensures Bracket([2], [4, 5]) == Geometry([8, 5], Some([4, 5]))
  {
  }
}
