/** The device collaborators the launch path talks to, reduced to what it observes: a memory
    region that allocates and frees argument buffers, a queue that accepts dispatches, and
    the context that holds them. The real driver work is not modelled; ghost state records
    what the launch path asked for. */
module Device {
  import opened Common
  import opened Marshal

  /** A memory region of the device agent; ghost counters record buffer traffic. */
  class Region {
    const supportsKernargs: bool
    ghost var live: set<array<CVal>>
    ghost var allocations: nat
    ghost var frees: nat

    constructor (supportsKernargs: bool)
      ensures this.supportsKernargs == supportsKernargs
      ensures live == {} && allocations == 0 && frees == 0
    {
      this.supportsKernargs := supportsKernargs;
      live, allocations, frees := {}, 0, 0;
    }

    /** `region.allocate(c_void_p * slots)`: a new buffer of `slots` pointer cells, whose
        initial contents the caller may not rely on. */
    method Allocate(slots: nat) returns (buf: array<CVal>)
      modifies this
      ensures fresh(buf) && buf.Length == slots
      ensures live == old(live) + {buf}
      ensures allocations == old(allocations) + 1 && frees == old(frees)
    {
      buf := new CVal[slots];
      live := live + {buf};
      allocations := allocations + 1;
    }

    /** `region.free(buf)`. */
    method Free(buf: array<CVal>)
      requires buf in live
      modifies this
      ensures live == old(live) - {buf}
      ensures allocations == old(allocations) && frees == old(frees) + 1
    {
      live := live - {buf};
      frees := frees + 1;
    }
  }

  /** The code descriptor `program.finalize` returns for a kernel entry symbol. */
  datatype CodeDescriptor = CodeDescriptor(symbol: string)

  /** One `queue.dispatch` call: the buffer's contents at the time of the call. */
  datatype DispatchRecord = DispatchRecord(code: CodeDescriptor, kernargs: seq<CVal>,
                                           workgroupSize: Option<seq<int>>, gridSize: seq<int>)

  /** A device queue; `submitted` is the ghost log of dispatches in order. */
  class Queue {
    ghost var submitted: seq<DispatchRecord>

    constructor ()
      ensures submitted == []
    {
      submitted := [];
    }

    method Dispatch(code: CodeDescriptor, kernargs: array<CVal>,
                    workgroupSize: Option<seq<int>>, gridSize: seq<int>)
      modifies this
      ensures submitted == old(submitted) + [DispatchRecord(code, kernargs[..], workgroupSize, gridSize)]
    {
      submitted := submitted + [DispatchRecord(code, kernargs[..], workgroupSize, gridSize)];
    }
  }

  /** The device context: the agent's regions, in order, and the default queue. */
  class Context {
    const regions: seq<Region>
    const defaultQueue: Queue

    constructor (regions: seq<Region>, defaultQueue: Queue)
      ensures this.regions == regions && this.defaultQueue == defaultQueue
    {
      this.regions := regions;
      this.defaultQueue := defaultQueue;
    }
  }

  /** `[r for r in agent.regions if r.supports_kernargs][0]`: the index of the first region
      that supports kernel arguments, or None where the source's `[0]` raises. */
  function FirstKernargRegion(regions: seq<Region>): (k: Option<nat>)
    ensures k.None? <==> forall i :: 0 <= i < |regions| ==> !regions[i].supportsKernargs
    ensures k.Some? ==> k.value < |regions| && regions[k.value].supportsKernargs &&
                        forall j :: 0 <= j < k.value ==> !regions[j].supportsKernargs
  {
    if regions == [] then None
    else if regions[0].supportsKernargs then Some(0)
    else
      match FirstKernargRegion(regions[1..])
      case None => None
      case Some(k) => Some(k + 1)
  }
}
