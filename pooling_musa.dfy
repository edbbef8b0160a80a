/**
 * Pooling on MUSA devices (src/ops/pooling/musa): the mode selection, the
 * Create guard chain, how the caller's kernel, pad and stride arrays reach
 * the vendor pooling object, the objects Create allocates, and what Destroy
 * releases.
 */
module PoolingMusa {
  import opened Wrappers
  import opened DataType
  import opened Devices
  import opened Operators
  import opened Validation
  import opened HostHeap
  import opened Mudnn

  /** `PoolingMusaDescriptor`: no workspace size field; `pool` is cleared by Destroy. */
  datatype PoolingMusaDescriptor = PoolingMusaDescriptor(
    device: Device,
    dtype: DataLayout,
    deviceId: int,
    pool: Option<PoolRef>,
    xTensor: Addr,
    yTensor: Addr,
    indicesTensor: Addr,
    poolOperator: Addr,
    alpha: Float32,
    beta: Float32)

  type PoolHeap = Heap<Object<PoolingMusaDescriptor>>

  /** `getPoolingMode`: 1 selects average pooling counting the padding, every other value max pooling. */
  function PoolingModeOf(poolingType: CInt): (m: PoolingMode)
    ensures m == AvgPoolCountPad <==> poolingType == 1
    ensures m == MaxPool <==> poolingType != 1
  {
    if poolingType == 0 then MaxPool
    else if poolingType == 1 then AvgPoolCountPad
    else MaxPool
  }

  /**
   * Output and input have the same rank, at least 3, and it is two more than
   * the number of pooled axes. `n + 2` is computed in `uint64_t`.
   */
  predicate PoolingRanksAgree(y: TensorDesc, x: TensorDesc, n: U64)
  {
    y.ndim >= 3 && x.ndim == y.ndim && y.ndim == (n + 2) % TWO_64
  }

  /** The rank test and equal batch and channel extents. */
  predicate PoolingShapesAgree(y: TensorDesc, x: TensorDesc, n: U64)
    requires y.WellFormed() && x.WellFormed()
  {
    PoolingRanksAgree(y, x, n) && x.shape[0] == y.shape[0] && x.shape[1] == y.shape[1]
  }

  /** The 64-bit wrap-around in `n + 2` never lets a wrong n through: an accepted rank is exactly n + 2. */
  lemma PoolingRankCountsPooledAxes(y: TensorDesc, x: TensorDesc, n: U64)
    requires PoolingRanksAgree(y, x, n)
    ensures n == y.ndim - 2
  {
  }

  /** The guard chain of `musaCreatePoolingDescriptor`: shape, strides, mode, then element type. */
  function CheckPooling(y: TensorDesc, x: TensorDesc, n: U64, poolingType: CInt): (s: Status)
    requires y.WellFormed() && x.WellFormed()
    ensures s == Success <==>
      PoolingShapesAgree(y, x, n) && IsContiguous(y) && IsContiguous(x) && poolingType <= 1
      && IsHalfOrSingle(y.dt) && x.dt == y.dt
    ensures s == BadTensorShape <==> !PoolingShapesAgree(y, x, n)
    ensures s == BadTensorStrides <==> PoolingShapesAgree(y, x, n) && !(IsContiguous(y) && IsContiguous(x))
    ensures s == BadParam <==> PoolingShapesAgree(y, x, n) && IsContiguous(y) && IsContiguous(x) && poolingType > 1
    ensures s == BadTensorDtype <==>
      PoolingShapesAgree(y, x, n) && IsContiguous(y) && IsContiguous(x) && poolingType <= 1
      && !(IsHalfOrSingle(y.dt) && x.dt == y.dt)
  {
    var ndim := y.ndim;
    if ndim < 3 || ndim != x.ndim || ndim != (n + 2) % TWO_64 then BadTensorShape
    else if x.shape[0] != y.shape[0] || x.shape[1] != y.shape[1] then BadTensorShape
    else if !IsContiguous(y) || !IsContiguous(x) then BadTensorStrides
    else if poolingType > 1 then BadParam
    else if Ne(y.dt, F16) && Ne(y.dt, F32) then BadTensorDtype
    else if Ne(y.dt, x.dt) then BadTensorDtype
    else Success
  }

  /** The same checks as a list, in source order. */
  function PoolingChecks(y: TensorDesc, x: TensorDesc, n: U64, poolingType: CInt): seq<Check>
    requires y.WellFormed() && x.WellFormed()
  {
    [ Check(PoolingRanksAgree(y, x, n), BadTensorShape),
      Check(PoolingShapesAgree(y, x, n), BadTensorShape),
      Check(IsContiguous(y) && IsContiguous(x), BadTensorStrides),
      Check(poolingType <= 1, BadParam),
      Check(IsHalfOrSingle(y.dt), BadTensorDtype),
      Check(x.dt == y.dt, BadTensorDtype) ]
  }

  /** The guard chain reports the first failing check of the list. */
  lemma CheckPoolingIsFirstFailure(y: TensorDesc, x: TensorDesc, n: U64, poolingType: CInt)
    requires y.WellFormed() && x.WellFormed()
    ensures CheckPooling(y, x, n, poolingType) == FirstFailure(PoolingChecks(y, x, n, poolingType))
  {
    var cs := PoolingChecks(y, x, n, poolingType);
    if !PoolingRanksAgree(y, x, n) {
      FirstFailureIsFirst(cs, 0);
    } else if !PoolingShapesAgree(y, x, n) {
      FirstFailureIsFirst(cs, 1);
    } else if !(IsContiguous(y) && IsContiguous(x)) {
      FirstFailureIsFirst(cs, 2);
    } else if poolingType > 1 {
      FirstFailureIsFirst(cs, 3);
    } else if !IsHalfOrSingle(y.dt) {
      FirstFailureIsFirst(cs, 4);
    } else if x.dt != y.dt {
      FirstFailureIsFirst(cs, 5);
    } else {
      FirstFailureSucceeds(cs);
    }
  }

  /** The low 32 bits of a 64-bit value, read as an `int` (little-endian: the word at the lower address). */
  function LowWord(v: int): int
  {
    ToInt32(ToUint64(v) % TWO_32)
  }

  /** The high 32 bits of a 64-bit value, read as an `int`. */
  function HighWord(v: int): int
  {
    ToInt32(ToUint64(v) / TWO_32)
  }

  /**
   * What the vendor reads when an array of n 64-bit values is reinterpreted as
   * `int const *` and n entries are read: the first n 32-bit words of the
   * array, low word then high word of each value.
   */
  function ReinterpretedParams(vals: seq<int>): (r: seq<int>)
    ensures |r| == |vals|
  {
    seq(|vals|, j requires 0 <= j < |vals| => if j % 2 == 0 then LowWord(vals[j / 2]) else HighWord(vals[j / 2]))
  }

  /** Entry 2i of the reinterpreted array is the low word of value i. */
  lemma ReinterpretedEvenEntriesAreLowWords(vals: seq<int>)
    ensures forall i :: 0 <= i && 2 * i < |vals| ==> ReinterpretedParams(vals)[2 * i] == LowWord(vals[i])
  {
    forall i | 0 <= i && 2 * i < |vals|
      ensures ReinterpretedParams(vals)[2 * i] == LowWord(vals[i])
    {
      var j := 2 * i;
      assert j % 2 == 0 && j / 2 == i;
    }
  }

  /** Entry 2i + 1 of the reinterpreted array is the high word of value i. */
  lemma ReinterpretedOddEntriesAreHighWords(vals: seq<int>)
    ensures forall i :: 0 <= i && 2 * i + 1 < |vals| ==> ReinterpretedParams(vals)[2 * i + 1] == HighWord(vals[i])
  {
    forall i | 0 <= i && 2 * i + 1 < |vals|
      ensures ReinterpretedParams(vals)[2 * i + 1] == HighWord(vals[i])
    {
      var j := 2 * i + 1;
      assert j % 2 == 1 && j / 2 == i;
    }
  }

  /** Each of the n 64-bit values converted to `int`: what the pooling object is meant to receive. */
  function NarrowedParams(vals: seq<int>): (r: seq<int>)
    ensures |r| == |vals|
    ensures forall i :: 0 <= i < |r| ==> -TWO_31 <= r[i] < TWO_31 && (r[i] - vals[i]) % TWO_32 == 0
    ensures (forall i :: 0 <= i < |vals| ==> -TWO_31 <= vals[i] < TWO_31) ==> r == vals
  {
    seq(|vals|, i requires 0 <= i < |vals| => ToInt32(vals[i]))
  }

  /**
   * As written, every pooling over two or more axes with ordinary (positive,
   * `int`-sized) parameters hands the vendor the first value correctly and a
   * zero in place of the second.
   */
  lemma ReinterpretationZeroesSecondAxis(vals: seq<int>)
    requires |vals| >= 2
    requires forall i :: 0 <= i < |vals| ==> 0 < vals[i] < TWO_31
    ensures ReinterpretedParams(vals)[0] == vals[0]
    ensures ReinterpretedParams(vals)[1] == 0 != vals[1]
    ensures ReinterpretedParams(vals) != NarrowedParams(vals)
  {
    var r := ReinterpretedParams(vals);
    assert r[0] == LowWord(vals[0]);
    assert r[1] == HighWord(vals[0]);
    assert ToUint64(vals[0]) % TWO_32 == vals[0];
    assert ToUint64(vals[0]) / TWO_32 == 0;
    assert NarrowedParams(vals)[1] == vals[1];
  }

  /** The 2-D 3×3 kernel of the test suite reaches the vendor as 3×0. */
  lemma ReinterpretedKernelThreeByThree()
    ensures ReinterpretedParams([3, 3]) == [3, 0]
    ensures NarrowedParams([3, 3]) == [3, 3]
  {
    ReinterpretationZeroesSecondAxis([3, 3]);
  }

  /** A shape or stride array as `int64_t` values. */
  function Int64View(s: seq<int>): (r: seq<int>)
    ensures |r| == |s|
    ensures (forall i :: 0 <= i < |s| ==> -TWO_63 <= s[i] < TWO_63) ==> r == s
  {
    seq(|s|, i requires 0 <= i < |s| => ToInt64(s[i]))
  }

  /** A configured NCHW vendor tensor with the descriptor's extents and strides. */
  function PoolingTensor(dt: DataLayout, t: TensorDesc): Object<PoolingMusaDescriptor>
  {
    TensorObj(Tensor(Some(VendorType(dt)), Some(Nchw), Int64View(t.shape), Some(t.strides)))
  }

  /** `n` ones: the dilation Create passes. */
  function Ones(n: nat): (r: seq<int>)
    ensures |r| == n && forall i :: 0 <= i < n ==> r[i] == 1
  {
    seq(n, _ => 1)
  }

  /**
   * How the kernel, pad and stride arrays reach `SetNdInfo`: through an
   * `int const *` view of the 64-bit arrays, as the source does, or with each
   * value converted to `int`, as intended.
   */
  datatype ParamReading = ReadAsInt | NarrowEach

  function ReadParams(reading: ParamReading, vals: seq<int>): (r: seq<int>)
    ensures |r| == |vals|
  {
    match reading
    case ReadAsInt => ReinterpretedParams(vals)
    case NarrowEach => NarrowedParams(vals)
  }

  /** The pooling object after `SetMode` and `SetNdInfo`. */
  function PoolingOperatorFor(reading: ParamReading, n: U64, kernelShape: seq<U64>, pads: seq<U64>,
                              strides: seq<I64>, poolingType: CInt): Object<PoolingMusaDescriptor>
  {
    PoolingObj(PoolingModeOf(poolingType), ToInt32(n), ReadParams(reading, kernelShape), ReadParams(reading, pads),
               ReadParams(reading, strides), Ones(n))
  }

  /**
   * As written, the pooling object Create configures over two or more axes
   * with ordinary parameters holds a zero as its second kernel extent, pad
   * and stride, so it differs from the object the caller asked for.
   */
  lemma AsWrittenOperatorDiffers(n: U64, kernelShape: seq<U64>, pads: seq<U64>, strides: seq<I64>,
                                 poolingType: CInt)
    requires n >= 2 && |kernelShape| == n && |pads| == n && |strides| == n
    requires forall i :: 0 <= i < n ==> 0 < kernelShape[i] < TWO_31 && 0 < pads[i] < TWO_31
    requires forall i :: 0 <= i < n ==> 0 < strides[i] < TWO_31
    ensures var op := PoolingOperatorFor(ReadAsInt, n, kernelShape, pads, strides, poolingType);
            op.kernel[1] == 0 && op.pad[1] == 0 && op.stride[1] == 0
    ensures PoolingOperatorFor(ReadAsInt, n, kernelShape, pads, strides, poolingType)
            != PoolingOperatorFor(NarrowEach, n, kernelShape, pads, strides, poolingType)
  {
    ReinterpretationZeroesSecondAxis(kernelShape);
    ReinterpretationZeroesSecondAxis(pads);
    ReinterpretationZeroesSecondAxis(strides);
  }

  /** With each value narrowed, the pooling object receives the caller's kernel, pads and strides when they fit `int`. */
  lemma NarrowedOperatorSeesCallerParams(n: U64, kernelShape: seq<U64>, pads: seq<U64>, strides: seq<I64>,
                                         poolingType: CInt)
    requires n < TWO_31
    requires forall i :: 0 <= i < |kernelShape| ==> kernelShape[i] < TWO_31
    requires forall i :: 0 <= i < |pads| ==> pads[i] < TWO_31
    requires forall i :: 0 <= i < |strides| ==> -TWO_31 <= strides[i] < TWO_31
    ensures PoolingOperatorFor(NarrowEach, n, kernelShape, pads, strides, poolingType)
            == PoolingObj(PoolingModeOf(poolingType), n, kernelShape, pads, strides, Ones(n))
  {
  }

  /** The descriptor Create builds. */
  function PoolingDescriptorFor(handle: MusaHandle, dt: DataLayout, xa: Addr, ya: Addr, ia: Addr, op: Addr)
    : PoolingMusaDescriptor
  {
    PoolingMusaDescriptor(DevMtGpu, dt, handle.deviceId, Some(handle.pool), xa, ya, ia, op, FLOAT_ONE, FLOAT_ZERO)
  }

  /** `std::fill(a, a + count, 1)` on the freshly allocated dilation array. */
  method FillOnes(a: array<int>)
    modifies a
    ensures a[..] == Ones(a.Length)
  {
    for i := 0 to a.Length
      invariant forall k :: 0 <= k < i ==> a[k] == 1
    {
      a[i] := 1;
    }
  }

  /**
   * Allocates the x, y and indices tensors and configures x and y (type,
   * format, extents with strides); the indices tensor stays blank.
   */
  method NewPoolingTensors(heap: PoolHeap, y: TensorDesc, x: TensorDesc)
    returns (xa: Addr, ya: Addr, ia: Addr)
    requires heap.Valid()
    modifies heap
    ensures heap.Valid()
    ensures |{xa, ya, ia}| == 3 && {xa, ya, ia} !! old(heap.blocks).Keys
    ensures heap.blocks == old(heap.blocks)[xa := PoolingTensor(y.dt, x)][ya := PoolingTensor(y.dt, y)]
                                           [ia := TensorObj(BlankTensor)]
  {
    var blank := TensorObj(BlankTensor);
    xa := heap.New(blank);
    ya := heap.New(blank);
    ia := heap.New(blank);
    ConfigurePoolingTensors(heap, old(heap.blocks), xa, ya, ia, y, x);
  }

  /** The SetType, SetFormat and SetNdInfo calls on the x and y tensors. */
  method ConfigurePoolingTensors(heap: PoolHeap, ghost before: map<Addr, Object<PoolingMusaDescriptor>>,
                                 xa: Addr, ya: Addr, ia: Addr, y: TensorDesc, x: TensorDesc)
    requires heap.Valid() && xa != ya && xa != ia && ya != ia
    requires var b := TensorObj(BlankTensor); heap.blocks == before[xa := b][ya := b][ia := b]
    modifies heap
    ensures heap.Valid()
    ensures heap.blocks == before[xa := PoolingTensor(y.dt, x)][ya := PoolingTensor(y.dt, y)]
                                 [ia := TensorObj(BlankTensor)]
  {
    var ty := VendorType(y.dt);
    ghost var b := TensorObj(BlankTensor);
    ghost var typed := TensorObj(BlankTensor.(ty := Some(ty)));
    ghost var formatted := TensorObj(typed.tensor.(format := Some(Nchw)));
    SetType(heap, xa, ty);
    OverwriteFirst(before, xa, ya, ia, b, b, b, typed);
    SetType(heap, ya, ty);
    OverwriteSecond(before, xa, ya, ia, typed, b, b, typed);
    SetFormat(heap, xa, Nchw);
    OverwriteFirst(before, xa, ya, ia, typed, typed, b, formatted);
    SetFormat(heap, ya, Nchw);
    OverwriteSecond(before, xa, ya, ia, formatted, typed, b, formatted);
    SetNdInfo(heap, xa, Int64View(x.shape), Some(x.strides));
    OverwriteFirst(before, xa, ya, ia, formatted, formatted, b, PoolingTensor(y.dt, x));
    SetNdInfo(heap, ya, Int64View(y.shape), Some(y.strides));
    OverwriteSecond(before, xa, ya, ia, PoolingTensor(y.dt, x), formatted, b, PoolingTensor(y.dt, y));
  }

  /**
   * The `indice` scratch array, the pooling object and its `dilation_` array
   * of n ones, with the kernel, pads and strides read as `reading` says.
   */
  method NewPoolingOperator(heap: PoolHeap, reading: ParamReading, ndim: U64, n: U64, kernelShape: seq<U64>,
                            pads: seq<U64>, strides: seq<I64>, poolingType: CInt)
    returns (indice: Addr, op: Addr, dilation: Addr)
    requires heap.Valid()
    modifies heap
    ensures heap.Valid()
    ensures |{indice, op, dilation}| == 3 && {indice, op, dilation} !! old(heap.blocks).Keys
    ensures heap.blocks == old(heap.blocks)[indice := UninitArrayObj(ndim)]
                                           [op := PoolingOperatorFor(reading, n, kernelShape, pads, strides,
                                                                     poolingType)]
                                           [dilation := IntArrayObj(Ones(n))]
  {
    indice := heap.New(UninitArrayObj(ndim));
    var mode := PoolingModeOf(poolingType);
    op := heap.New(PoolingObj(mode, 0, [], [], [], []));
    var ones := new int[n];
    FillOnes(ones);
    dilation := heap.New(IntArrayObj(ones[..]));
    heap.Write(op, PoolingObj(mode, ToInt32(n), ReadParams(reading, kernelShape), ReadParams(reading, pads),
                              ReadParams(reading, strides), ones[..]));
  }

  /**
   * The heap after a successful Create: seven new live objects, five the
   * descriptor accounts for (three tensors, the pooling object and itself)
   * and two it does not (the `indice` and `dilation_` arrays).
   */
  ghost predicate PoolingCreated(reading: ParamReading, before: map<Addr, Object<PoolingMusaDescriptor>>,
                                 after: map<Addr, Object<PoolingMusaDescriptor>>,
                                 ptr: Addr, indice: Addr, dilation: Addr, handle: MusaHandle,
                                 y: TensorDesc, x: TensorDesc, kernelShape: seq<U64>, pads: seq<U64>,
                                 strides: seq<I64>, n: U64, poolingType: CInt)
  {
    && ptr in after && after[ptr].DescriptorObj?
    && var d := after[ptr].desc;
    && d == PoolingDescriptorFor(handle, y.dt, d.xTensor, d.yTensor, d.indicesTensor, d.poolOperator)
    && var referenced := {d.xTensor, d.yTensor, d.indicesTensor, d.poolOperator, ptr};
    && |referenced| == 5 && indice != dilation && {indice, dilation} !! referenced
    && (referenced + {indice, dilation}) !! before.Keys
    && after == before[d.xTensor := PoolingTensor(y.dt, x)][d.yTensor := PoolingTensor(y.dt, y)]
                      [d.indicesTensor := TensorObj(BlankTensor)]
                      [indice := UninitArrayObj(y.ndim)]
                      [d.poolOperator := PoolingOperatorFor(reading, n, kernelShape, pads, strides, poolingType)]
                      [dilation := IntArrayObj(Ones(n))]
                      [ptr := DescriptorObj(d)]
  }

  /**
   * The body of `musaCreatePoolingDescriptor`, with the parameter arrays read
   * as `reading` says. Every failing check returns before the first
   * allocation. The arrays are read only once the checks pass, and then n
   * entries of each. `indice` and `dilation` name the two allocations the
   * descriptor does not record.
   */
  method CreatePooling(heap: PoolHeap, reading: ParamReading, handle: MusaHandle, y: TensorDesc, x: TensorDesc,
                       kernelShape: seq<U64>, pads: seq<U64>, strides: seq<I64>, n: U64, poolingType: CInt)
    returns (s: Status, ptr: Option<Addr>, ghost indice: Addr, ghost dilation: Addr)
    requires heap.Valid() && y.WellFormed() && x.WellFormed()
    requires CheckPooling(y, x, n, poolingType) == Success ==> |kernelShape| == n && |pads| == n && |strides| == n
    modifies heap
    ensures heap.Valid()
    ensures s == CheckPooling(y, x, n, poolingType)
    ensures s != Success ==> ptr == None && heap.blocks == old(heap.blocks)
    ensures s == Success ==> ptr.Some? && PoolingCreated(reading, old(heap.blocks), heap.blocks, ptr.value, indice,
                                                         dilation, handle, y, x, kernelShape, pads, strides, n,
                                                         poolingType)
  {
    s := CheckPooling(y, x, n, poolingType);
    if s != Success {
      return s, None, 0, 0;
    }
    var xa, ya, ia := NewPoolingTensors(heap, y, x);
    var op;
    indice, op, dilation := NewPoolingOperator(heap, reading, y.ndim, n, kernelShape, pads, strides, poolingType);
    var d := PoolingDescriptorFor(handle, y.dt, xa, ya, ia, op);
    var p := heap.New(DescriptorObj(d));
    ptr := Some(p);
  }

  /**
   * `musaCreatePoolingDescriptor` as written: the pooling object receives the
   * 32-bit words of the caller's 64-bit kernel, pad and stride arrays.
   */
  method CreatePoolingDescriptor(heap: PoolHeap, handle: MusaHandle, y: TensorDesc, x: TensorDesc,
                                 kernelShape: seq<U64>, pads: seq<U64>, strides: seq<I64>, n: U64,
                                 poolingType: CInt)
    returns (s: Status, ptr: Option<Addr>, ghost indice: Addr, ghost dilation: Addr)
    requires heap.Valid() && y.WellFormed() && x.WellFormed()
    requires CheckPooling(y, x, n, poolingType) == Success ==> |kernelShape| == n && |pads| == n && |strides| == n
    modifies heap
    ensures heap.Valid()
    ensures s == CheckPooling(y, x, n, poolingType)
    ensures s != Success ==> ptr == None && heap.blocks == old(heap.blocks)
    ensures s == Success ==> ptr.Some? && PoolingCreated(ReadAsInt, old(heap.blocks), heap.blocks, ptr.value, indice,
                                                         dilation, handle, y, x, kernelShape, pads, strides, n,
                                                         poolingType)
  {
    s, ptr, indice, dilation := CreatePooling(heap, ReadAsInt, handle, y, x, kernelShape, pads, strides, n,
                                              poolingType);
  }

  /**
   * `musaCreatePoolingDescriptor` with each kernel, pad and stride value
   * converted to `int`: the pooling object receives the caller's parameters
   * (see NarrowedOperatorSeesCallerParams).
   */
  method CreatePoolingDescriptorNarrowing(heap: PoolHeap, handle: MusaHandle, y: TensorDesc, x: TensorDesc,
                                          kernelShape: seq<U64>, pads: seq<U64>, strides: seq<I64>, n: U64,
                                          poolingType: CInt)
    returns (s: Status, ptr: Option<Addr>, ghost indice: Addr, ghost dilation: Addr)
    requires heap.Valid() && y.WellFormed() && x.WellFormed()
    requires CheckPooling(y, x, n, poolingType) == Success ==> |kernelShape| == n && |pads| == n && |strides| == n
    modifies heap
    ensures heap.Valid()
    ensures s == CheckPooling(y, x, n, poolingType)
    ensures s != Success ==> ptr == None && heap.blocks == old(heap.blocks)
    ensures s == Success ==> ptr.Some? && PoolingCreated(NarrowEach, old(heap.blocks), heap.blocks, ptr.value, indice,
                                                         dilation, handle, y, x, kernelShape, pads, strides, n,
                                                         poolingType)
  {
    s, ptr, indice, dilation := CreatePooling(heap, NarrowEach, handle, y, x, kernelShape, pads, strides, n,
                                              poolingType);
  }

  /** `musaGetPoolingWorkspaceSize`: pooling never needs a workspace. */
  function GetPoolingWorkspaceSize(d: PoolingMusaDescriptor): (r: (Status, U64))
    ensures r == (Success, 0)
  {
    (Success, 0)
  }

  /**
   * `musaDestroyPoolingDescriptor`: deletes the x, y and indices tensors and
   * the pooling object, clears the pool reference and deletes the descriptor.
   */
  method DestroyPoolingDescriptor(heap: PoolHeap, ptr: Addr) returns (s: Status)
    requires heap.Valid() && ptr in heap.blocks && heap.blocks[ptr].DescriptorObj?
    requires var d := heap.blocks[ptr].desc;
             var owned := {d.xTensor, d.yTensor, d.indicesTensor, d.poolOperator, ptr};
             |owned| == 5 && owned <= heap.blocks.Keys
    modifies heap
    ensures heap.Valid() && s == Success
    ensures var d := old(heap.blocks)[ptr].desc;
            heap.blocks == old(heap.blocks) - {d.xTensor, d.yTensor, d.indicesTensor, d.poolOperator, ptr}
  {
    var d := heap.blocks[ptr].desc;
    heap.Delete(d.xTensor);
    heap.Delete(d.yTensor);
    heap.Delete(d.indicesTensor);
    heap.Delete(d.poolOperator);
    heap.Write(ptr, DescriptorObj(d.(pool := None)));
    heap.Delete(ptr);
    s := Success;
  }

  /** Create followed by Destroy leaves exactly the `indice` and `dilation_` arrays live. */
  method CreateThenDestroyPoolingLeaks(heap: PoolHeap, handle: MusaHandle, y: TensorDesc, x: TensorDesc,
                                       kernelShape: seq<U64>, pads: seq<U64>, strides: seq<I64>, n: U64,
                                       poolingType: CInt)
    returns (ghost leaked: set<Addr>)
    requires heap.Valid() && y.WellFormed() && x.WellFormed()
    requires |kernelShape| == n && |pads| == n && |strides| == n
    requires CheckPooling(y, x, n, poolingType) == Success
    modifies heap
    ensures heap.Valid()
    ensures heap.blocks.Keys == old(heap.blocks).Keys + leaked
    ensures |leaked| == 2 && leaked !! old(heap.blocks).Keys
  {
    var s, ptr, indice, dilation := CreatePoolingDescriptor(heap, handle, y, x, kernelShape, pads, strides, n,
                                                            poolingType);
    PoolingCreatedKeys(old(heap.blocks), heap.blocks, ptr.value, indice, dilation, handle, y, x, kernelShape, pads,
                       strides, n, poolingType);
    leaked := {indice, dilation};
    ghost var created := heap.blocks;
    ghost var d := created[ptr.value].desc;
    ghost var owned := {d.xTensor, d.yTensor, d.indicesTensor, d.poolOperator, ptr.value};
    s := DestroyPoolingDescriptor(heap, ptr.value);
    KeysAfterRelease(old(heap.blocks).Keys, owned, leaked);
  }

  /** Releasing what was added, except the leaked part, leaves the old keys plus the leaked ones. */
  lemma KeysAfterRelease(before: set<Addr>, owned: set<Addr>, leaked: set<Addr>)
    requires owned !! before && leaked !! owned
    ensures (before + owned + leaked) - owned == before + leaked
  {
  }

  /** A successful Create adds exactly the five objects the descriptor records and the two it does not. */
  lemma PoolingCreatedKeys(before: map<Addr, Object<PoolingMusaDescriptor>>,
                           after: map<Addr, Object<PoolingMusaDescriptor>>,
                           ptr: Addr, indice: Addr, dilation: Addr, handle: MusaHandle,
                           y: TensorDesc, x: TensorDesc, kernelShape: seq<U64>, pads: seq<U64>,
                           strides: seq<I64>, n: U64, poolingType: CInt)
    requires PoolingCreated(ReadAsInt, before, after, ptr, indice, dilation, handle, y, x, kernelShape, pads,
                            strides, n, poolingType)
    ensures var d := after[ptr].desc;
            var owned := {d.xTensor, d.yTensor, d.indicesTensor, d.poolOperator, ptr};
            && after.Keys == before.Keys + owned + {indice, dilation}
            && |owned| == 5 && {indice, dilation} !! owned && indice != dilation
            && owned !! before.Keys && {indice, dilation} !! before.Keys
  {
  }

  /** Scenario: a valid 2-D average pooling request with pooling_type 2 is refused as a bad parameter. */
  lemma ScenarioPoolingTypeTwoRejected(x: TensorDesc, y: TensorDesc)
    requires x == TensorDesc(4, [1, 1, 4, 4], [16, 16, 4, 1], F32)
    requires y == TensorDesc(4, [1, 1, 2, 2], [4, 4, 2, 1], F32)
    ensures CheckPooling(y, x, 2, 2) == BadParam
  {
    assert RowMajorStrides(x.shape) == x.strides;
    assert RowMajorStrides(y.shape) == y.strides;
  }

  /** Scenario: a negative pooling_type is not refused; it selects max pooling. */
  lemma ScenarioNegativePoolingTypeIsMaxPool(x: TensorDesc, y: TensorDesc)
    requires x == TensorDesc(4, [1, 1, 4, 4], [16, 16, 4, 1], F16)
    requires y == TensorDesc(4, [1, 1, 2, 2], [4, 4, 2, 1], F16)
    ensures CheckPooling(y, x, 2, -1) == Success
    ensures PoolingModeOf(-1) == MaxPool
  {
    assert RowMajorStrides(x.shape) == x.strides;
    assert RowMajorStrides(y.shape) == y.strides;
  }
}
