/**
 * ReLU on MUSA devices (src/ops/relu/musa): Create checks equal shapes,
 * dense row-major strides and a floating element type, then records the
 * element count computed in 64-bit unsigned arithmetic.
 */
module ReluMusa {
  import opened Wrappers
  import opened DataType
  import opened Devices
  import opened Operators
  import opened Validation

  /** `ReluMusaDescriptor`. */
  datatype ReluMusaDescriptor = ReluMusaDescriptor(
    device: Device,
    dtype: DataLayout,
    deviceId: int,
    ndim: U64,
    dataSize: U64,
    maxGridSize: U64)

  /** The scan over the axes: every extent of y equals the same extent of x. */
  predicate SameExtents(y: TensorDesc, x: TensorDesc)
    requires y.WellFormed() && x.WellFormed() && x.ndim == y.ndim
  {
    forall i :: 0 <= i < y.ndim ==> y.shape[i] == x.shape[i]
  }

  /** The axis scan succeeds exactly when the two shapes are equal. */
  lemma SameExtentsIsShapeEquality(y: TensorDesc, x: TensorDesc)
    requires y.WellFormed() && x.WellFormed() && x.ndim == y.ndim
    ensures SameExtents(y, x) <==> y.shape == x.shape
  {
    if SameExtents(y, x) {
      assert forall i :: 0 <= i < |y.shape| ==> y.shape[i] == x.shape[i];
    }
  }

  /**
   * `std::accumulate` with `std::multiplies<uint64_t>` from `acc`: every
   * partial product wraps modulo 2^64.
   */
  function AccumulateProduct(acc: U64, s: seq<U64>): U64
    decreases |s|
  {
    if |s| == 0 then acc else AccumulateProduct((acc * s[0]) % TWO_64, s[1..])
  }

  /** Reducing a factor modulo 2^64 first does not change a product modulo 2^64. */
  lemma {:induction false} ModMulLeft(a: int, b: int)
    ensures ((a % TWO_64) * b) % TWO_64 == (a * b) % TWO_64
  {
    var q, r := a / TWO_64, a % TWO_64;
    assert a * b == r * b + (q * b) * TWO_64 by {
      assert a == r + q * TWO_64;
    }
    ModAddMultiple(r * b, q * b);
  }

  /** Adding a multiple of 2^64 does not change a value modulo 2^64. */
  lemma ModAddMultiple(x: int, k: int)
    ensures (x + k * TWO_64) % TWO_64 == x % TWO_64
  {
    var n := x + k * TWO_64;
    var t := x / TWO_64 + k - n / TWO_64;
    assert t * TWO_64 == n % TWO_64 - x % TWO_64;
  }

  /** The wrapped fold is the exact product, reduced once at the end. */
  lemma {:induction false} AccumulateIsProductMod(acc: U64, s: seq<U64>)
    ensures AccumulateProduct(acc, s) == (acc * Product(s)) % TWO_64
    decreases |s|
  {
    if |s| > 0 {
      AccumulateIsProductMod((acc * s[0]) % TWO_64, s[1..]);
      ModMulLeft(acc * s[0], Product(s[1..]));
      assert acc * Product(s) == (acc * s[0]) * Product(s[1..]);
    }
  }

  /** `data_size`: the element count of y, modulo 2^64; 1 for a rank-0 tensor. */
  function DataSize(y: TensorDesc): (r: U64)
    ensures r == Product(y.shape) % TWO_64
    ensures |y.shape| == 0 ==> r == 1
    ensures Product(y.shape) < TWO_64 ==> r == Product(y.shape)
  {
    AccumulateIsProductMod(1, y.shape);
    ProductOfExtentsIsNatural(y.shape);
    AccumulateProduct(1, y.shape)
  }

  lemma {:induction false} ProductOfExtentsIsNatural(s: seq<U64>)
    ensures Product(s) >= 0
  {
    if |s| > 0 {
      ProductOfExtentsIsNatural(s[1..]);
    }
  }

  /** The checks of `musaCreateReluDescriptor`, in order: rank, extents, strides, allowed type, matching type. */
  function ReluChecks(y: TensorDesc, x: TensorDesc): seq<Check>
    requires y.WellFormed() && x.WellFormed()
  {
    [ Check(x.ndim == y.ndim, BadTensorShape),
      Check(y.shape == x.shape, BadTensorShape),
      Check(IsContiguous(y) && IsContiguous(x), BadTensorStrides),
      Check(IsHalfOrSingle(y.dt), BadTensorDtype),
      Check(x.dt == y.dt, BadTensorDtype) ]
  }

  /**
   * `musaCreateReluDescriptor`. The descriptor carries DevMtGpu, y's element
   * type, the handle's device index, the rank, the element count and the
   * device's maximum grid size converted to `uint64_t`.
   */
  function CreateRelu(handle: MusaHandle, y: TensorDesc, x: TensorDesc): (c: Created<ReluMusaDescriptor>)
    requires y.WellFormed() && x.WellFormed()
    ensures c.status == Success <==>
      y.shape == x.shape && IsContiguous(y) && IsContiguous(x) && IsHalfOrSingle(y.dt) && x.dt == y.dt
    ensures c.status == BadTensorShape <==> y.shape != x.shape
    ensures c.status == BadTensorStrides <==> y.shape == x.shape && !(IsContiguous(y) && IsContiguous(x))
    ensures c.status == BadTensorDtype <==>
      y.shape == x.shape && IsContiguous(y) && IsContiguous(x) && !(IsHalfOrSingle(y.dt) && x.dt == y.dt)
    ensures c.desc.Some? <==> c.status == Success
    ensures c.status == Success ==>
      c.desc.value == ReluMusaDescriptor(DevMtGpu, y.dt, handle.deviceId, y.ndim, Product(y.shape) % TWO_64,
                                         ToUint64(handle.maxGridSize0))
  {
    var ndim := y.ndim;
    if ndim != x.ndim then Created(BadTensorShape, None)
    else if !SameExtents(y, x) then
      SameExtentsIsShapeEquality(y, x);
      Created(BadTensorShape, None)
    else if !IsContiguous(y) || !IsContiguous(x) then
      SameExtentsIsShapeEquality(y, x);
      Created(BadTensorStrides, None)
    else if Ne(y.dt, F16) && Ne(y.dt, F32) then
      SameExtentsIsShapeEquality(y, x);
      Created(BadTensorDtype, None)
    else if Ne(y.dt, x.dt) then
      SameExtentsIsShapeEquality(y, x);
      Created(BadTensorDtype, None)
    else
      SameExtentsIsShapeEquality(y, x);
      Created(Success, Some(ReluMusaDescriptor(DevMtGpu, y.dt, handle.deviceId, ndim, DataSize(y),
                                               ToUint64(handle.maxGridSize0))))
  }

  /** Create reports the first failing check of the list. */
  lemma CreateReluIsFirstFailure(handle: MusaHandle, y: TensorDesc, x: TensorDesc)
    requires y.WellFormed() && x.WellFormed()
    ensures CreateRelu(handle, y, x).status == FirstFailure(ReluChecks(y, x))
  {
    var cs := ReluChecks(y, x);
    if x.ndim != y.ndim {
      FirstFailureIsFirst(cs, 0);
    } else if y.shape != x.shape {
      FirstFailureIsFirst(cs, 1);
    } else if !(IsContiguous(y) && IsContiguous(x)) {
      FirstFailureIsFirst(cs, 2);
    } else if !IsHalfOrSingle(y.dt) {
      FirstFailureIsFirst(cs, 3);
    } else if x.dt != y.dt {
      FirstFailureIsFirst(cs, 4);
    } else {
      FirstFailureSucceeds(cs);
    }
  }

  /** `musaDestroyReluDescriptor` deletes the record and always succeeds. */
  function DestroyRelu(d: ReluMusaDescriptor): (s: Status)
    ensures s == Success
  {
    Success
  }
}
