# HSA kernel launch configuration and argument layout

A Dafny model of the launch path of numba's HSA kernel object (`numba/hsa/compiler.py`):

- **Geometry normalisation** (`geometry.dfy`, module `Geometry`): `_ensure_list` copies a
  size into a fresh list object, `_ensure_size_or_append` right-pads a list with `1`s in
  place, and `Resolve` is the pair of sizes `configure` stores. `Bracket` is the geometry
  that `kernel[grid, block]` configures: both padded to a common rank, the global size their
  element-wise product.
- **Argument marshalling** (`marshal.dfy`, module `Marshal`): `_unbox` turns an array
  argument into the address of a descriptor with no parent, the array's data pointer, shape
  and strides, and refuses every other declared type. `_prepare_arguments` zips values with
  declared types. The constructor of the `make_complex_ctypes` structures is here too.
- **Device collaborators** (`device.dfy`, module `Device`): a memory region with ghost
  allocation and free counters, a queue with a ghost log of dispatches, and the context
  that holds them.
- **The kernel object** (`kernel.dfy`, module `Kernel`): class `HsaKernel` holds the
  configuration fields (`global_size`, `local_size`, `stream`) and the kernel's name and
  declared parameter types. `Configure` and `GetItem` return fresh clones and leave the
  receiver alone. `Bind` allocates a buffer of `6 + nargs` pointer slots from the first
  region that supports kernel arguments. `Call` zeroes the six injected slots, writes the
  i-th marshalled cell into slot `6 + i`, dispatches on the default queue and frees the
  buffer.

`HSAKernelBase` and `HSAKernel` are one class here, because Dafny classes do not inherit.
Python's `None` is `Option.None`, and exceptions are `Result.Err` values. The device
context is a parameter in place of `devices.get_context()`.

Behaviour as the code has it, which the model follows:

- Empty sizes are not rejected. `configure((), ())` stores an empty global size and no
  local size.
- `_unbox` does not compare the declared array rank with the value's rank
  (`Marshal.UnboxIgnoresDeclaredRank`).
- The argument buffer is freed only on the normal path. When `_unbox` raises, the buffer
  stays allocated (see Findings).
- The stream is stored by `configure` but `__call__` always dispatches on the context's
  default queue.
- Only array arguments can be marshalled. The scalar branches of `_unbox` are commented out.
- A complex structure built from an int takes the int's `.real`/`.imag` and ignores the
  `imag` argument (`Marshal.IntRealPartDropsImag`).

## Model

| member | source | states |
|---|---|---|
| `Geometry.EnsureList` | numba/hsa/compiler.py:69-73 | a scalar becomes `[val]`; a tuple or list becomes a fresh list with the same elements in the same order, never the caller's list |
| `Geometry.Pad` | numba/hsa/compiler.py:76-79 | the padded sequence has length `max(len, size)`, starts with the original elements unchanged, and every added element is `1` |
| `Geometry.EnsureSizeOrAppend` | numba/hsa/compiler.py:76-79 | the list is padded in place to exactly `Pad(old contents, size)`; it never truncates |
| `Geometry.PadToCommonRank` | numba/hsa/compiler.py:122-125 | both lists are padded in place to the larger of their two lengths, each keeping its own elements in front |
| `Geometry.Resolve` | numba/hsa/compiler.py:98-108 | without a local size the global size is kept unpadded and the local size is None; with one, the global size is padded to the local size's rank and the local to the global's, so both have equal length; the local size is None exactly when it was None or both sizes were empty |
| `Geometry.ResolveIdempotent` | numba/hsa/compiler.py:98-108 | configuring again with a configuration's own sizes reproduces them |
| `Geometry.ResolveExamples` | numba/hsa/compiler.py:98-108 | `configure((4,), (2,))` gives `(4,)`/`(2,)`; `configure((4,2), (2,))` gives `(4,2)`/`(2,1)`; without a local size `(4,2)`/None |
| `Geometry.ZipMul` | numba/hsa/compiler.py:127 | the product list has the length of the shorter input and element i is `a[i] * b[i]` |
| `Geometry.Bracket` | numba/hsa/compiler.py:121-128 | the global size has rank `max(len grid, len block)` and element i is padded grid times padded block; the local size is the padded block, or None when both were empty |
| `Geometry.BracketExamples` | numba/hsa/compiler.py:121-128 | `k[(2,3),(4,5)]` gives `(8,15)`/`(4,5)`; `k[(2,),(4,5)]` gives `(8,5)`/`(4,5)` |
| `Marshal.Unbox` | numba/hsa/compiler.py:195-214 | an array argument yields the address of a descriptor with parent None and the value's data pointer, shape and strides, kept alive alongside; any non-array type yields NotImplementedError; a non-array value for an array type fails |
| `Marshal.UnboxIgnoresDeclaredRank` | numba/hsa/compiler.py:196-200 | the declared rank of the array type does not affect the result |
| `Marshal.PrepareArguments` | numba/hsa/compiler.py:190-192 | succeeds exactly when each of the first `min(len(args), len(types))` pairs unboxes; then it yields exactly those unboxed values in order; otherwise it yields the error of the first pair that fails |
| `Marshal.ComplexInit` | numba/hsa/compiler.py:224-230 | a float gives `(x, imag)`; any other value gives its own `.real` and `.imag` |
| `Marshal.ComplexInitCopies` | numba/hsa/compiler.py:228-230 | building from an existing complex-like value reproduces it whatever `imag` is passed |
| `Marshal.IntRealPartDropsImag` | numba/hsa/compiler.py:224-230 | an int first argument with `imag=2` gives imaginary part `0` |
| `Marshal.NativeCellsAsWritten` | numba/hsa/compiler.py:218-222 | as written, the structure's native image holds no cells |
| `Marshal.NativeCells` | numba/hsa/compiler.py:218-222 | with the fields declared, the native image is two cells, real then imaginary |
| `Marshal.DecodeComplex` | numba/hsa/compiler.py:218-222 | reading back succeeds exactly on a two-cell image and gives real then imaginary |
| `Marshal.NativeCellsRoundTrip` | numba/hsa/compiler.py:218-222 | decoding the native image of a complex value gives that value back |
| `Marshal.NativeCellsAsWrittenLosesValue` | numba/hsa/compiler.py:218-222 | as written, `Complex(1.0, 2.0)` has nothing to read back and distinct values share one image |
| `Device.FirstKernargRegion` | numba/hsa/compiler.py:162 | the index of the first region that supports kernel arguments, or None exactly when no region does |
| `Device.Region.Allocate` | numba/hsa/compiler.py:164-165 | a fresh buffer of the requested number of pointer slots, recorded as live; one more allocation |
| `Device.Region.Free` | numba/hsa/compiler.py:187 | the buffer is no longer live; one more free |
| `Device.Queue.Dispatch` | numba/hsa/compiler.py:183-184 | the dispatch log gains one record with the code, the buffer's contents, the workgroup size and the grid size |
| `Kernel.EntrySymbol` | numba/hsa/compiler.py:155 | the symbol is `&` followed by the kernel name |
| `Kernel.EntrySymbolInjective` | numba/hsa/compiler.py:155 | two names with the same symbol are equal |
| `Kernel.Cells` | numba/hsa/compiler.py:177 | the cell values of the unboxed pairs, in order, without their keep-alive halves |
| `Kernel.FillKernargs` | numba/hsa/compiler.py:173-178 | slots 0..5 are zero, slot `6 + i` holds the i-th cell, and every later slot is unchanged |
| `Kernel.InjectedArgCount` | numba/hsa/compiler.py:135 | six implicit slots precede the user arguments in every kernel-argument buffer |
| `Kernel.KernargLayout` | numba/hsa/compiler.py:163-178 | a buffer for `nargs` parameters has `6 + nargs` slots, slots 0..5 are zero, and the slots right after them hold exactly the marshalled cells in order |
| `Kernel.HsaKernel.constructor` | numba/hsa/compiler.py:137-142 | a new kernel has global size `(1,)`, no local size, no stream, and the given name and parameter types |
| `Kernel.HsaKernel.Copy` | numba/hsa/compiler.py:91-92 | a fresh object with the same field values |
| `Kernel.HsaKernel.Configure` | numba/hsa/compiler.py:94-111 | a fresh clone whose sizes are `Resolve` of the given sizes and whose stream is the argument; the receiver and the caller's lists are unchanged |
| `Kernel.HsaKernel.GetItem` | numba/hsa/compiler.py:113-128 | a fresh clone with the `Bracket` geometry and `rest[0]` (or None) as stream; more than one trailing item is an error; the receiver is unchanged |
| `Kernel.HsaKernel.Bind` | numba/hsa/compiler.py:150-166 | with no kernel-argument region it fails and nothing changes; otherwise a fresh buffer of `6 + len(argument_types)` slots from the first such region, and the code for symbol `&name` |
| `Kernel.HsaKernel.Call` | numba/hsa/compiler.py:168-187 | on success one dispatch with this configuration's sizes and a buffer laid out as six zero slots then the marshalled cells, and the buffer freed; when marshalling fails the error is returned, nothing is dispatched, and the region's live buffers are the earlier ones plus one fresh buffer of `6 + nargs` slots that is never freed |
| `Kernel.HsaKernel.CallReleasing` | numba/hsa/compiler.py:168-187 | the same launch with the buffer freed on the marshalling-error path as well, so the region's live buffers are unchanged whenever one was allocated |
| `Kernel.UnsupportedArgumentLeaksBuffer` | numba/hsa/compiler.py:168-187 | a call with an `int32` parameter raises NotImplementedError and leaves one buffer allocated and not freed |
| `Kernel.UnsupportedArgumentReleasesBuffer` | numba/hsa/compiler.py:168-187 | the same call through `CallReleasing` frees the buffer |
| `Kernel.BracketLaunchExample` | numba/hsa/compiler.py:121-128 | `k[(2,3),(4,5)](array)` dispatches grid `(8,15)`, workgroup `(4,5)` and a buffer of six zeros then the array descriptor's address, and frees it |

## Left out

- `compile_hsa`, `compile_kernel`, `compile_device` and `DeviceFunction`: they drive numba's compiler pipeline, which is not part of this model.
- `HSAKernel._finalize` and the `assembly`/`binary` attributes: the HLC finalizer is a foreign call.
- The driver calls in `bind` (`get_context`, `BrigModule.from_memory`, `find_symbol_offset`, `create_program`, `add_module`, `finalize`): the context is a parameter and the code descriptor is represented by the entry symbol. A symbol that cannot be found is not modelled.
- The device work of `dispatch`: the queue only records what was submitted.
- `Device.Queue.Dispatch`: modelled as never failing. In the source an exception from `qq.dispatch` also skips the free at line 187, which neither `Call` nor `CallReleasing` covers.
- `ctypes.addressof` and `make_array_ctype`: addresses are abstract, and the address of a descriptor is represented by the descriptor itself.
- The scalar type tables `INTEGER_TYPE_MAP`, `REAL_TYPE_MAP`, `COMPLEX_TYPE_MAP` and the `Complex`/`DoubleComplex` instances: `_unbox` never reaches them.
- `Marshal.ComplexInit`: the element type is a type parameter with no zero, so the defaults `real_or_cmpl=0, imag=0` are not represented; a one-argument float call such as `Complex(3.0)` is `ComplexInit(Float(x), zero)` with the caller supplying the zero. A first argument without `.real`/`.imag` (an AttributeError in the source) cannot be expressed.
- Floating-point semantics: the complex structure's element type is a type parameter.
- `Kernel.HsaKernel.GetItem`: takes grid, block and the trailing items as separate parameters, so an index with fewer than two items is not modelled: a one-item tuple raises IndexError at `args[1]` and a bare scalar index raises TypeError at `args[0]` in the source.
- Sizes are Python ints. Size elements of other types and the errors they would raise are not modelled.
- `Device.Region.Free` requires a live buffer. Freeing a foreign buffer is the driver's concern.
- Slots after the marshalled cells, when fewer values than parameters are passed, hold whatever the allocation left. The model states nothing about them, as the source writes nothing there.

## Findings

| source | as written | input that shows it | evidently intended | confidence | as-written member | corrected member |
|---|---|---|---|---|---|---|
| numba/hsa/compiler.py:219 | the complex structure declares its layout in `_fields`, which ctypes does not read (it reads `_fields_`), so the structure has no native fields | `Complex(1.0, 2.0)`: the native image is empty and the pair cannot be read back | two native fields, real then imaginary | high; not executed | `Marshal.NativeCellsAsWritten` | `Marshal.NativeCells` |
| numba/hsa/compiler.py:187 | the buffer is freed after dispatch, outside any `finally`, so an exception from `_unbox` leaves it allocated; an exception from `qq.dispatch` would skip the free the same way, a path the model does not cover because its dispatch never fails | a kernel with an `int32` parameter called with any value: NotImplementedError after `bind` allocated the buffer | the buffer is freed on every path after allocation | medium; not executed | `Kernel.UnsupportedArgumentLeaksBuffer` | `Kernel.HsaKernel.CallReleasing` |
