/** Argument marshalling: `_unbox`, `_prepare_arguments` and the constructor of the
    structures `make_complex_ctypes` builds. Pointers are abstract addresses. */
module Marshal {
  import opened Common

  type Address = nat

  /** The declared (numba) type of a kernel parameter. */
  datatype NumbaType =
    | ArrayType(ndim: nat)
    | IntegerType(bits: nat, signed: bool)
    | RealType(bits: nat)
    | ComplexType(bits: nat)
    | OtherType(name: string)

  /** A host value handed to the kernel call: a NumPy array (its `ndim` and what its
      `.ctypes` view exposes) or any other Python object. */
  datatype HostValue =
    | NdArray(ndim: nat, data: Address, shape: seq<int>, strides: seq<int>)
    | OtherValue(id: int)

  /** The structure `make_array_ctype` describes, filled by `_unbox`. */
  datatype ArrayDescriptor = ArrayDescriptor(parent: Option<Address>, data: Address,
                                             shape: seq<int>, strides: seq<int>)

  /** A `void*` cell of the kernel-argument buffer: null, or the address of a descriptor. */
  datatype CVal = Null | AddressOf(desc: ArrayDescriptor)

  /** What `_unbox` returns: the cell value and the object that must stay alive. */
  datatype Unboxed = Unboxed(cval: CVal, keepAlive: ArrayDescriptor)

  datatype MarshalError =
    | NotImplemented(ty: NumbaType)   // `raise NotImplementedError(ty)`
    | NoArrayAttributes(val: HostValue) // `val.ndim` / `val.ctypes` on a non-array

  /** `_unbox`: an array argument becomes the address of a fresh descriptor with no parent
      and the data pointer, shape and strides of the value; every other declared type is
      refused. The declared rank is not compared with the value's rank. */
  function Unbox(val: HostValue, ty: NumbaType): (r: Result<Unboxed, MarshalError>)
    ensures !ty.ArrayType? ==> r == Err(NotImplemented(ty))
    ensures ty.ArrayType? && !val.NdArray? ==> r == Err(NoArrayAttributes(val))
    ensures r.Ok? <==> ty.ArrayType? && val.NdArray?
    ensures r.Ok? ==>
      var d := r.value.keepAlive;
      r.value.cval == AddressOf(d) && d.parent == None &&
      d.data == val.data && d.shape == val.shape && d.strides == val.strides
  {
    match ty
    case ArrayType(_) =>
      (match val
       case NdArray(_, data, shape, strides) =>
         var cval := ArrayDescriptor(None, data, shape, strides);
         Ok(Unboxed(AddressOf(cval), cval))
       case OtherValue(_) => Err(NoArrayAttributes(val)))
    case _ => Err(NotImplemented(ty))
  }

  /** Unboxing an array does not depend on the rank the parameter declares. */
  lemma UnboxIgnoresDeclaredRank(val: HostValue, n: nat, m: nat)
    ensures Unbox(val, ArrayType(n)) == Unbox(val, ArrayType(m))
  {
  }

  /** `list(_prepare_arguments(args, argtys))`: the values are unboxed pairwise with the
      declared types, in order, stopping at the shorter of the two (`zip`); the first value
      that cannot be unboxed aborts with its error. */
  function PrepareArguments(args: seq<HostValue>, types: seq<NumbaType>)
    : (r: Result<seq<Unboxed>, MarshalError>)
    ensures r.Ok? <==> forall i :: 0 <= i < Min(|args|, |types|) ==> Unbox(args[i], types[i]).Ok?
    ensures r.Ok? ==> |r.value| == Min(|args|, |types|)
    ensures r.Ok? ==> forall i :: 0 <= i < |r.value| ==> r.value[i] == Unbox(args[i], types[i]).value
    ensures r.Err? ==>
      exists k :: 0 <= k < Min(|args|, |types|) &&
                  (forall j :: 0 <= j < k ==> Unbox(args[j], types[j]).Ok?) &&
                  Unbox(args[k], types[k]) == Err(r.error)
  {
    if args == [] || types == [] then Ok([])
    else
      match Unbox(args[0], types[0])
      case Err(e) => Err(e)
      case Ok(u) =>
        match PrepareArguments(args[1..], types[1..])
        case Err(e) =>
          ghost var k' :| 0 <= k' < Min(|args| - 1, |types| - 1) &&
            (forall j :: 0 <= j < k' ==> Unbox(args[1..][j], types[1..][j]).Ok?) &&
            Unbox(args[1..][k'], types[1..][k']) == Err(e);
          assert Unbox(args[k' + 1], types[k' + 1]) == Err(e);
          Err(e)
        case Ok(us) => Ok([u] + us)
  }

  /** The first positional argument of the complex structure's `__init__`: a Python float,
      or any object with `.real` and `.imag` (an int, a complex, another structure). */
  datatype ComplexArg<E> = Float(x: E) | RealImag(re: E, im: E)

  /** The `real` and `imag` attributes a complex structure ends up with. */
  datatype ComplexParts<E> = ComplexParts(realPart: E, imagPart: E)

  /** `BaseComplex.__init__(real_or_cmpl, imag)`: a float gives `(x, imag)`; anything else
      gives its own `.real` and `.imag`, and `imag` is not used. */
  function ComplexInit<E>(realOrCmpl: ComplexArg<E>, imag: E): (c: ComplexParts<E>)
    ensures realOrCmpl.Float? ==> c.realPart == realOrCmpl.x && c.imagPart == imag
    ensures realOrCmpl.RealImag? ==> c.realPart == realOrCmpl.re && c.imagPart == realOrCmpl.im
  {
    match realOrCmpl
    case Float(x) => ComplexParts(x, imag)
    case RealImag(re, im) => ComplexParts(re, im)
  }

  /** Building from an existing complex-like value reproduces it, whatever `imag` says. */
  lemma ComplexInitCopies<E>(c: ComplexParts<E>, imag: E)
    ensures ComplexInit(RealImag(c.realPart, c.imagPart), imag) == c
  {
  }

  /** An example of `ComplexInitCopies`: the int 1, whose `.real`/`.imag` are 1 and 0,
      reaches the second branch, so `BaseComplex(1, 2)` has `imag == 0`. */
  lemma IntRealPartDropsImag()
    ensures ComplexInit(RealImag(1, 0), 2) == ComplexParts(1, 0)
  {
  }

  /** The native fields of a complex structure AS WRITTEN: the class body assigns `_fields`,
      a name ctypes does not read (it reads `_fields_`), so the structure has no C fields
      and its native image is empty whatever `real` and `imag` hold. */
  function NativeCellsAsWritten<E>(c: ComplexParts<E>): (cells: seq<E>)
    ensures |cells| == 0
  {
    []
  }

  /** The native fields with the evident intent, `_fields_`: real first, then imaginary. */
  function NativeCells<E>(c: ComplexParts<E>): (cells: seq<E>)
    ensures |cells| == 2 && cells[0] == c.realPart && cells[1] == c.imagPart
  {
    [c.realPart, c.imagPart]
  }

  /** Reads a complex value back from native cells laid out real, imaginary. */
  function DecodeComplex<E>(cells: seq<E>): (r: Option<ComplexParts<E>>)
    ensures r.Some? <==> |cells| == 2
    ensures r.Some? ==> r.value.realPart == cells[0] && r.value.imagPart == cells[1]
  {
    if |cells| == 2 then Some(ComplexParts(cells[0], cells[1])) else None
  }

  /** With `_fields_`, the native image holds exactly the pair it was built from. */
  lemma NativeCellsRoundTrip<E>(c: ComplexParts<E>)
    ensures DecodeComplex(NativeCells(c)) == Some(c)
  {
  }

  /** As written, the native image of `Complex(1.0, 2.0)` holds nothing to read back, and
      two different values have the same image. */
  lemma NativeCellsAsWrittenLosesValue()
    ensures DecodeComplex(NativeCellsAsWritten(ComplexInit(Float(1), 2))) == None
    ensures NativeCellsAsWritten(ComplexParts(1, 2)) == NativeCellsAsWritten(ComplexParts(3, 4))
  {
  }
}
