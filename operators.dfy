/**
 * Vocabulary shared by every operator: status codes, the C integer widths the
 * descriptors use, opaque pointers and floats, device handles and tensor
 * descriptors (the `infiniopTensorDescriptor_t` record).
 */
module Operators {
  import opened Wrappers
  import opened DataType
  import opened Devices

  /** Outcome codes. `Other` stands for codes only a backend produces; this layer passes them on. */
  datatype Status =
    | Success
    | BadDevice
    | BadTensorShape
    | BadTensorDtype
    | BadTensorStrides
    | BadParam
    | Other(code: int)

  const TWO_31: int := 0x8000_0000
  const TWO_32: int := 0x1_0000_0000
  const TWO_63: int := 0x8000_0000_0000_0000
  const TWO_64: int := 0x1_0000_0000_0000_0000

  type U64 = x: int | 0 <= x < TWO_64
  type I64 = x: int | -TWO_63 <= x < TWO_63
  /** A C `int`. */
  type CInt = x: int | -TWO_31 <= x < TWO_31

  /** The value an integer takes when converted to a 32-bit `int` (two's complement wrap-around). */
  function ToInt32(v: int): (r: int)
    ensures -TWO_31 <= r < TWO_31
    ensures (r - v) % TWO_32 == 0
    ensures -TWO_31 <= v < TWO_31 ==> r == v
  {
    var m := v % TWO_32;
    if m < TWO_31 then m else m - TWO_32
  }

  /** The value an integer takes when converted to `int64_t`. */
  function ToInt64(v: int): (r: I64)
    ensures (r - v) % TWO_64 == 0
    ensures -TWO_63 <= v < TWO_63 ==> r == v
  {
    var m := v % TWO_64;
    if m < TWO_63 then m else m - TWO_64
  }

  /** The value an integer takes when converted to `uint64_t`. */
  function ToUint64(v: int): (r: U64)
    ensures (r - v) % TWO_64 == 0
    ensures 0 <= v < TWO_64 ==> r == v
  {
    v % TWO_64
  }

  /** A host or device address passed through untouched (`void *`, descriptor pointers). */
  type Ptr = nat

  /** A `float` argument, carried as its IEEE-754 single-precision bit pattern and never interpreted. */
  type Float32 = bv32

  const FLOAT_ONE: Float32 := 0x3F80_0000
  const FLOAT_ZERO: Float32 := 0

  /** Identity of the shared pool of vendor runtime handles a MUSA handle owns. */
  type PoolRef = nat

  /** `infiniopHandle_t`: the device kind tag and the device index. */
  datatype Handle = Handle(device: Device, deviceId: int)

  /** `MusaHandle_t`: the generic handle fields, the vendor handle pool and `prop.maxGridSize[0]`. */
  datatype MusaHandle = MusaHandle(device: Device, deviceId: int, pool: PoolRef, maxGridSize0: int)

  /** A backend descriptor seen through the generic descriptor type: its first field is the device tag. */
  datatype OpDescriptor = OpDescriptor(device: Device, addr: Ptr)

  /** `infiniopTensorDescriptor_t`: rank, extents, strides (in elements) and element type. */
  datatype TensorDesc = TensorDesc(ndim: U64, shape: seq<U64>, strides: seq<I64>, dt: DataLayout)
  {
    predicate WellFormed() {
      |shape| == ndim && |strides| == ndim
    }
  }

  /** Product of a sequence of extents; 1 for the empty sequence. */
  function Product(s: seq<int>): int
  {
    if |s| == 0 then 1 else s[0] * Product(s[1..])
  }

  /** The product of a concatenation is the product of the parts. */
  lemma {:induction false} ProductConcat(a: seq<int>, b: seq<int>)
    ensures Product(a + b) == Product(a) * Product(b)
  {
    if |a| == 0 {
      assert a + b == b;
    } else {
      ProductConcat(a[1..], b);
      assert (a + b)[1..] == a[1..] + b;
    }
  }

  /** A sequence of ones has product 1. */
  lemma {:induction false} AllOnesProduct(s: seq<int>)
    requires forall i :: 0 <= i < |s| ==> s[i] == 1
    ensures Product(s) == 1
  {
    if |s| > 0 {
      AllOnesProduct(s[1..]);
    }
  }

  /**
   * The strides of a dense row-major tensor of the given shape: the last axis
   * has stride 1 and each other axis steps over one whole row of the next.
   */
  function RowMajorStrides(shape: seq<int>): (r: seq<int>)
    ensures |r| == |shape|
    ensures |shape| > 0 ==> r[|shape| - 1] == 1
    ensures forall i :: 0 <= i < |shape| - 1 ==> r[i] == r[i + 1] * shape[i + 1]
  {
    if |shape| == 0 then []
    else
      var rest := RowMajorStrides(shape[1..]);
      [if |rest| == 0 then 1 else rest[0] * shape[1]] + rest
  }

  /** Each row-major stride is the number of elements in the axes after it. */
  lemma {:induction false} RowMajorStrideIsSuffixProduct(shape: seq<int>, i: nat)
    requires i < |shape|
    ensures RowMajorStrides(shape)[i] == Product(shape[i + 1..])
    decreases |shape| - i
  {
    if i == |shape| - 1 {
      assert shape[i + 1..] == [];
    } else {
      RowMajorStrideIsSuffixProduct(shape, i + 1);
      assert shape[i + 1..] == [shape[i + 1]] + shape[i + 2..];
    }
  }

  /** `is_contiguous`: the descriptor's strides are exactly the dense row-major ones. */
  predicate IsContiguous(t: TensorDesc)
  {
    t.strides == RowMajorStrides(t.shape)
  }

  /** The result of a Create entry point: the status and, on success only, the new descriptor. */
  datatype Created<D> = Created(status: Status, desc: Option<D>)

  /** The floating-point element types the MUSA operators accept. */
  predicate IsHalfOrSingle(dt: DataLayout)
  {
    Eq(dt, F16) || Eq(dt, F32)
  }
}
