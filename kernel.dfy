/** The HSA kernel object: the configuration builder of `HSAKernelBase` and the
    bind/marshal/dispatch/free sequence of `HSAKernel.__call__`. */
module Kernel {
  import opened Common
  import opened Geometry
  import opened Marshal
  import opened Device

  /** `HSAKernel.INJECTED_NARG`: the implicit slots that precede the user arguments. */
  const InjectedArgCount: nat := 6

  /** Whatever object a caller passes as the stream; it is stored, never inspected. */
  datatype StreamHandle = StreamHandle(id: int)

  datatype LaunchError =
    | MarshalFailed(cause: MarshalError)   // raised by `_unbox`
    | NoKernargRegion                      // `[...][0]` on an empty list in `bind`
    | TooManyIndexArguments(count: nat)    // `configure(gs, blockdim, *args[2:])` with 2+ extras

  /** The entry symbol `bind` looks up: the kernel name behind an `&` marker. */
  function EntrySymbol(name: string): (s: string)
    ensures |s| == |name| + 1 && s[0] == '&' && s[1..] == name
  {
    "&" + name
  }

  /** Distinct kernel names never resolve to the same symbol. */
  lemma EntrySymbolInjective(a: string, b: string)
    requires EntrySymbol(a) == EntrySymbol(b)
    ensures a == b
  {
    assert a == EntrySymbol(a)[1..];
  }

  /** The cell values of the unboxed arguments, in order. */
  function Cells(us: seq<Unboxed>): (cs: seq<CVal>)
    ensures |cs| == |us| && forall i :: 0 <= i < |us| ==> cs[i] == us[i].cval
  {
    seq(|us|, i requires 0 <= i < |us| => us[i].cval)
  }

  /** The layout of a kernel-argument buffer for `nargs` declared parameters of which the
      first `|cells|` were marshalled: `InjectedArgCount + nargs` slots, the injected ones
      zero, then the marshalled cells in order. Slots past the marshalled cells keep
      whatever the allocation left there. */
  ghost predicate KernargLayout(image: seq<CVal>, cells: seq<CVal>, nargs: nat)
    ensures KernargLayout(image, cells, nargs) ==>
      |image| == InjectedArgCount + nargs >= InjectedArgCount + |cells| &&
      image[..InjectedArgCount] == seq(InjectedArgCount, _ => Null) &&
      image[InjectedArgCount..InjectedArgCount + |cells|] == cells
  {
    |image| == InjectedArgCount + nargs && |cells| <= nargs &&
    (forall i :: 0 <= i < InjectedArgCount ==> image[i] == Null) &&
    (forall i :: 0 <= i < |cells| ==> image[InjectedArgCount + i] == cells[i])
  }

  /** The two index loops of `__call__`: zero the injected slots, then write the i-th cell
      into slot `InjectedArgCount + i`. Nothing else in the buffer changes. */
  method FillKernargs(kernargs: array<CVal>, cells: seq<CVal>)
    requires InjectedArgCount + |cells| <= kernargs.Length
    modifies kernargs
    ensures forall i :: 0 <= i < InjectedArgCount ==> kernargs[i] == Null
    ensures forall i :: 0 <= i < |cells| ==> kernargs[InjectedArgCount + i] == cells[i]
    ensures forall i :: InjectedArgCount + |cells| <= i < kernargs.Length ==>
      kernargs[i] == old(kernargs[i])
  {
    for i := 0 to InjectedArgCount
      invariant forall j :: 0 <= j < i ==> kernargs[j] == Null
      invariant forall j :: InjectedArgCount <= j < kernargs.Length ==> kernargs[j] == old(kernargs[j])
    {
      kernargs[i] := Null;
    }
    for i := 0 to |cells|
      invariant forall j :: 0 <= j < InjectedArgCount ==> kernargs[j] == Null
      invariant forall j :: 0 <= j < i ==> kernargs[InjectedArgCount + j] == cells[j]
      invariant forall j :: InjectedArgCount + i <= j < kernargs.Length ==>
        kernargs[j] == old(kernargs[j])
    {
      kernargs[InjectedArgCount + i] := cells[i];
    }
  }

  /** What `bind` hands back: the context, the finalized code, the buffer and its region. */
  datatype Binding = Binding(ctx: Context, code: CodeDescriptor, kernargs: array<CVal>,
                             region: Region)

  /** An HSA kernel together with its launch configuration. `HSAKernelBase` and `HSAKernel`
      are one class here: the configuration fields come from the base class. */
  class HsaKernel {
    var globalSize: seq<int>
    var localSize: Option<seq<int>>
    var stream: Option<StreamHandle>
    const entryName: string
    const argumentTypes: seq<NumbaType>

    /** `HSAKernel.__init__`: the base class's defaults, global size `(1,)`, no local size
        and no stream, plus the kernel's name and declared parameter types. */
    constructor (name: string, argtypes: seq<NumbaType>)
      ensures globalSize == [1] && localSize == None && stream == None
      ensures entryName == name && argumentTypes == argtypes
    {
      globalSize, localSize, stream := [1], None, None;
      entryName, argumentTypes := name, argtypes;
    }

    constructor FromFields(globalSize: seq<int>, localSize: Option<seq<int>>,
                           stream: Option<StreamHandle>, entryName: string,
                           argumentTypes: seq<NumbaType>)
      ensures this.globalSize == globalSize && this.localSize == localSize
      ensures this.stream == stream
      ensures this.entryName == entryName && this.argumentTypes == argumentTypes
    {
      this.globalSize, this.localSize, this.stream := globalSize, localSize, stream;
      this.entryName, this.argumentTypes := entryName, argumentTypes;
    }

    /** `copy`: a new object with the same field values. */
    method Copy() returns (c: HsaKernel)
      ensures fresh(c)
      ensures c.globalSize == globalSize && c.localSize == localSize && c.stream == stream
      ensures c.entryName == entryName && c.argumentTypes == argumentTypes
    {
      c := new HsaKernel.FromFields(globalSize, localSize, stream, entryName, argumentTypes);
    }

    /** `configure`: a fresh clone whose sizes are those `Resolve` computes from the given
        sizes and whose stream is the one passed. The receiver and any list the caller
        passed are left as they were. */
    method Configure(globalArg: SizeArg, localArg: Option<SizeArg>, stream: Option<StreamHandle>)
      returns (clone: HsaKernel)
      ensures fresh(clone)
      ensures clone.globalSize == Resolve(Elements(globalArg), OptElements(localArg)).global
      ensures clone.localSize == Resolve(Elements(globalArg), OptElements(localArg)).local
      ensures clone.stream == stream
      ensures clone.entryName == entryName && clone.argumentTypes == argumentTypes
      ensures unchanged(this)
      ensures globalArg.List? ==> unchanged(globalArg.list)
      ensures localArg.Some? && localArg.value.List? ==> unchanged(localArg.value.list)
    {
      var g := EnsureList(globalArg);
      var l: PyList? := null;
      if localArg.Some? {
        l := EnsureList(localArg.value);
        PadToCommonRank(g, l);
      }
      clone := Copy();
      clone.globalSize := g.items;
      clone.localSize := if l != null && l.items != [] then Some(l.items) else None;
      clone.stream := stream;
    }

    /** `kernel[grid, block, *rest]`: configures the geometry `Bracket` computes and takes
        `rest[0]`, if given, as the stream; more than one trailing item is refused by
        `configure`'s signature. */
    method GetItem(grid: SizeArg, block: SizeArg, rest: seq<Option<StreamHandle>>)
      returns (r: Result<HsaKernel, LaunchError>)
      ensures r.Ok? <==> |rest| <= 1
      ensures r.Err? ==> r.error == TooManyIndexArguments(|rest|)
      ensures r.Ok? ==> fresh(r.value)
      ensures r.Ok? ==> r.value.globalSize == Bracket(Elements(grid), Elements(block)).global
      ensures r.Ok? ==> r.value.localSize == Bracket(Elements(grid), Elements(block)).local
      ensures r.Ok? ==> r.value.stream == if rest == [] then None else rest[0]
      ensures r.Ok? ==> r.value.entryName == entryName && r.value.argumentTypes == argumentTypes
      ensures unchanged(this)
    {
      ghost var eg, eb := Elements(grid), Elements(block);
      ghost var geometry := Bracket(eg, eb);
      var griddim := EnsureList(grid);
      var blockdim := EnsureList(block);
      PadToCommonRank(griddim, blockdim);
      assert griddim.items == Pad(eg, |eb|) && blockdim.items == Pad(eb, |eg|);
      var gs := new PyList(ZipMul(griddim.items, blockdim.items));
      assert geometry == Resolve(gs.items, Some(blockdim.items));
      if |rest| > 1 {
        return Err(TooManyIndexArguments(|rest|));
      }
      var clone := Configure(List(gs), Some(List(blockdim)), if rest == [] then None else rest[0]);
      assert clone.globalSize == geometry.global && clone.localSize == geometry.local;
      r := Ok(clone);
    }

    /** `bind`: finds the entry symbol's code and allocates, from the first region that
        supports kernel arguments, a buffer of `InjectedArgCount` plus one slot per declared
        parameter. With no such region it fails before allocating anything. */
    method Bind(ctx: Context) returns (r: Result<Binding, LaunchError>)
      modifies ctx.regions
      ensures FirstKernargRegion(ctx.regions).None? ==> r == Err(NoKernargRegion)
      ensures FirstKernargRegion(ctx.regions).Some? ==> r.Ok?
      ensures r.Ok? ==>
        var b := r.value;
        var reg := ctx.regions[FirstKernargRegion(ctx.regions).value];
        b.ctx == ctx && b.region == reg &&
        b.code == CodeDescriptor(EntrySymbol(entryName)) &&
        fresh(b.kernargs) && b.kernargs.Length == InjectedArgCount + |argumentTypes| &&
        reg.live == old(reg.live) + {b.kernargs} &&
        reg.allocations == old(reg.allocations) + 1 && reg.frees == old(reg.frees)
      ensures forall reg :: reg in ctx.regions && (r.Err? || reg != r.value.region) ==> unchanged(reg)
    {
      var code := CodeDescriptor(EntrySymbol(entryName));
      var k := FirstKernargRegion(ctx.regions);
      if k.None? {
        return Err(NoKernargRegion);
      }
      var region := ctx.regions[k.value];
      var kernargs := region.Allocate(InjectedArgCount + |argumentTypes|);
      r := Ok(Binding(ctx, code, kernargs, region));
    }

    /** `__call__` as written: bind, unbox the arguments, fill the buffer, dispatch on the
        context's default queue with this configuration's sizes, free the buffer. When
        unboxing raises, the buffer has been allocated and is never freed. */
    method Call(ctx: Context, args: seq<HostValue>) returns (r: Result<(), LaunchError>)
      modifies ctx.regions, ctx.defaultQueue
      ensures FirstKernargRegion(ctx.regions).None? ==>
        r == Err(NoKernargRegion) && unchanged(ctx.defaultQueue) &&
        forall reg :: reg in ctx.regions ==> unchanged(reg)
      ensures FirstKernargRegion(ctx.regions).Some? &&
              PrepareArguments(args, argumentTypes).Err? ==>
        var reg := ctx.regions[FirstKernargRegion(ctx.regions).value];
        r == Err(MarshalFailed(PrepareArguments(args, argumentTypes).error)) &&
        unchanged(ctx.defaultQueue) &&
        (exists b: array<CVal> :: fresh(b) && b.Length == InjectedArgCount + |argumentTypes| &&
                                  reg.live == old(reg.live) + {b}) &&
        reg.allocations == old(reg.allocations) + 1 && reg.frees == old(reg.frees)
      ensures FirstKernargRegion(ctx.regions).Some? &&
              PrepareArguments(args, argumentTypes).Ok? ==>
        var reg := ctx.regions[FirstKernargRegion(ctx.regions).value];
        var q := ctx.defaultQueue;
        r == Ok(()) &&
        |q.submitted| == |old(q.submitted)| + 1 && q.submitted[..|old(q.submitted)|] == old(q.submitted) &&
        q.submitted[|old(q.submitted)|].code == CodeDescriptor(EntrySymbol(entryName)) &&
        q.submitted[|old(q.submitted)|].workgroupSize == localSize &&
        q.submitted[|old(q.submitted)|].gridSize == globalSize &&
        KernargLayout(q.submitted[|old(q.submitted)|].kernargs,
                      Cells(PrepareArguments(args, argumentTypes).value), |argumentTypes|) &&
        reg.live == old(reg.live) &&
        reg.allocations == old(reg.allocations) + 1 && reg.frees == old(reg.frees) + 1
      ensures FirstKernargRegion(ctx.regions).Some? ==>
        forall reg :: reg in ctx.regions && reg != ctx.regions[FirstKernargRegion(ctx.regions).value] ==>
          unchanged(reg)
    {
      var bound := Bind(ctx);
      if bound.Err? {
        return Err(bound.error);
      }
      var b := bound.value;
      var unboxed := PrepareArguments(args, argumentTypes);
      if unboxed.Err? {
        return Err(MarshalFailed(unboxed.error));
      }
      var cells := Cells(unboxed.value);
      FillKernargs(b.kernargs, cells);
      b.ctx.defaultQueue.Dispatch(b.code, b.kernargs, localSize, globalSize);
      b.region.Free(b.kernargs);
      r := Ok(());
    }

    /** `__call__` with the buffer released on every path after allocation, as the free at
        the end of `__call__` evidently means: when unboxing raises, the buffer is freed
        before the error propagates. */
    method CallReleasing(ctx: Context, args: seq<HostValue>) returns (r: Result<(), LaunchError>)
      modifies ctx.regions, ctx.defaultQueue
      ensures FirstKernargRegion(ctx.regions).None? ==>
        r == Err(NoKernargRegion) && unchanged(ctx.defaultQueue) &&
        forall reg :: reg in ctx.regions ==> unchanged(reg)
      ensures FirstKernargRegion(ctx.regions).Some? ==>
        var reg := ctx.regions[FirstKernargRegion(ctx.regions).value];
        reg.live == old(reg.live) &&
        reg.allocations == old(reg.allocations) + 1 && reg.frees == old(reg.frees) + 1
      ensures FirstKernargRegion(ctx.regions).Some? &&
              PrepareArguments(args, argumentTypes).Err? ==>
        r == Err(MarshalFailed(PrepareArguments(args, argumentTypes).error)) &&
        unchanged(ctx.defaultQueue)
      ensures FirstKernargRegion(ctx.regions).Some? &&
              PrepareArguments(args, argumentTypes).Ok? ==>
        var q := ctx.defaultQueue;
        r == Ok(()) &&
        |q.submitted| == |old(q.submitted)| + 1 && q.submitted[..|old(q.submitted)|] == old(q.submitted) &&
        q.submitted[|old(q.submitted)|].code == CodeDescriptor(EntrySymbol(entryName)) &&
        q.submitted[|old(q.submitted)|].workgroupSize == localSize &&
        q.submitted[|old(q.submitted)|].gridSize == globalSize &&
        KernargLayout(q.submitted[|old(q.submitted)|].kernargs,
                      Cells(PrepareArguments(args, argumentTypes).value), |argumentTypes|)
      ensures FirstKernargRegion(ctx.regions).Some? ==>
        forall reg :: reg in ctx.regions && reg != ctx.regions[FirstKernargRegion(ctx.regions).value] ==>
          unchanged(reg)
    {
      var bound := Bind(ctx);
      if bound.Err? {
        return Err(bound.error);
      }
      var b := bound.value;
      var unboxed := PrepareArguments(args, argumentTypes);
      if unboxed.Err? {
        b.region.Free(b.kernargs);
        return Err(MarshalFailed(unboxed.error));
      }
      var cells := Cells(unboxed.value);
      FillKernargs(b.kernargs, cells);
      b.ctx.defaultQueue.Dispatch(b.code, b.kernargs, localSize, globalSize);
      b.region.Free(b.kernargs);
      r := Ok(());
    }
  }

  /** A kernel declaring one `int32` parameter, called with an argument, on a context with
      one kernel-argument region: `_unbox` raises and the buffer stays allocated. */
  method UnsupportedArgumentLeaksBuffer() returns (r: Result<(), LaunchError>, region: Region)
    ensures r == Err(MarshalFailed(NotImplemented(IntegerType(32, true))))
    ensures region.allocations == 1 && region.frees == 0 && |region.live| == 1
  {
    region := new Region(true);
    var queue := new Queue();
    var ctx := new Context([region], queue);
    var k := new HsaKernel("k", [IntegerType(32, true)]);
    r := k.Call(ctx, [OtherValue(7)]);
  }

  /** The same launch through `CallReleasing`: the error is the same and the buffer is gone. */
  method UnsupportedArgumentReleasesBuffer() returns (r: Result<(), LaunchError>, region: Region)
    ensures r == Err(MarshalFailed(NotImplemented(IntegerType(32, true))))
    ensures region.allocations == 1 && region.frees == 1 && region.live == {}
  {
    region := new Region(true);
    var queue := new Queue();
    var ctx := new Context([region], queue);
    var k := new HsaKernel("k", [IntegerType(32, true)]);
    r := k.CallReleasing(ctx, [OtherValue(7)]);
  }

  /** A two-dimensional launch `k[(2, 3), (4, 5)]` with one array argument: the
      dispatched grid is `(8, 15)`, the workgroup `(4, 5)`, and the buffer holds six zero
      slots and then the address of the array's descriptor. */
  method BracketLaunchExample(data: Address) returns (q: Queue, region: Region)
    ensures |q.submitted| == 1
    ensures q.submitted[0].gridSize == [8, 15] && q.submitted[0].workgroupSize == Some([4, 5])
    ensures q.submitted[0].code == CodeDescriptor("&k")
    ensures q.submitted[0].kernargs ==
      [Null, Null, Null, Null, Null, Null, AddressOf(ArrayDescriptor(None, data, [3], [8]))]
    ensures region.allocations == 1 && region.frees == 1 && region.live == {}
  {
    region := new Region(true);
    q := new Queue();
    var ctx := new Context([region], q);
    var k := new HsaKernel("k", [ArrayType(1)]);
    var c := k.GetItem(Tuple([2, 3]), Tuple([4, 5]), []);
    BracketExamples();
    var r := c.value.Call(ctx, [NdArray(1, data, [3], [8])]);
  }
}
