/**
 * Convolution on MUSA devices (src/ops/conv/musa): the Create guard chain,
 * the loop that widens the parameters to at least four axes, the vendor
 * objects Create allocates, and what Destroy releases.
 */
module ConvMusa {
  import opened Wrappers
  import opened DataType
  import opened Devices
  import opened Operators
  import opened Validation
  import opened HostHeap
  import opened Mudnn

  /** `ConvMusaDescriptor`; `pool` is the shared vendor-handle pool reference, cleared by Destroy. */
  datatype ConvMusaDescriptor = ConvMusaDescriptor(
    device: Device,
    dtype: DataLayout,
    deviceId: int,
    pool: Option<PoolRef>,
    xTensor: Addr,
    wTensor: Addr,
    yTensor: Addr,
    convOperator: Addr,
    algo: Algorithm,
    alpha: Float32,
    beta: Float32,
    workspaceSize: U64)

  type ConvHeap = Heap<Object<ConvMusaDescriptor>>

  predicate WellFormedInputs(y: TensorDesc, x: TensorDesc, w: TensorDesc)
  {
    y.WellFormed() && x.WellFormed() && w.WellFormed()
  }

  /** Output, input and weight all have the output's rank, which is at least 3. */
  predicate RanksAgree(y: TensorDesc, x: TensorDesc, w: TensorDesc)
  {
    y.ndim >= 3 && x.ndim == y.ndim && w.ndim == y.ndim
  }

  /** Batch of x and y agree, output channels are the filter count, input channels agree. */
  predicate ChannelsAgree(y: TensorDesc, x: TensorDesc, w: TensorDesc)
    requires WellFormedInputs(y, x, w) && RanksAgree(y, x, w)
  {
    x.shape[0] == y.shape[0] && w.shape[0] == y.shape[1] && x.shape[1] == w.shape[1]
  }

  predicate ShapesAgree(y: TensorDesc, x: TensorDesc, w: TensorDesc)
    requires WellFormedInputs(y, x, w)
  {
    RanksAgree(y, x, w) && ChannelsAgree(y, x, w)
  }

  /** The guard chain of `musaCreateConvDescriptor`, in the order the source tests it. */
  function CheckConv(y: TensorDesc, x: TensorDesc, w: TensorDesc): (s: Status)
    requires WellFormedInputs(y, x, w)
    ensures s == Success <==> ShapesAgree(y, x, w) && IsHalfOrSingle(y.dt) && x.dt == y.dt && w.dt == y.dt
    ensures s == BadTensorShape <==> !ShapesAgree(y, x, w)
    ensures s == BadTensorDtype <==> ShapesAgree(y, x, w) && (!IsHalfOrSingle(y.dt) || x.dt != y.dt || w.dt != y.dt)
  {
    var ndim := y.ndim;
    if ndim < 3 || ndim != x.ndim || ndim != w.ndim then BadTensorShape
    else if x.shape[0] != y.shape[0] || w.shape[0] != y.shape[1] || x.shape[1] != w.shape[1] then BadTensorShape
    else if Ne(y.dt, F16) && Ne(y.dt, F32) then BadTensorDtype
    else if Ne(y.dt, x.dt) || Ne(y.dt, w.dt) then BadTensorDtype
    else Success
  }

  /** The same checks as a list, in source order: rank, extents, allowed type, matching types. */
  function ConvChecks(y: TensorDesc, x: TensorDesc, w: TensorDesc): seq<Check>
    requires WellFormedInputs(y, x, w)
  {
    [ Check(RanksAgree(y, x, w), BadTensorShape),
      Check(ShapesAgree(y, x, w), BadTensorShape),
      Check(IsHalfOrSingle(y.dt), BadTensorDtype),
      Check(x.dt == y.dt && w.dt == y.dt, BadTensorDtype) ]
  }

  /** The guard chain reports the first failing check of the list: shape before dtype. */
  lemma CheckConvIsFirstFailure(y: TensorDesc, x: TensorDesc, w: TensorDesc)
    requires WellFormedInputs(y, x, w)
    ensures CheckConv(y, x, w) == FirstFailure(ConvChecks(y, x, w))
  {
    var cs := ConvChecks(y, x, w);
    if !RanksAgree(y, x, w) {
      FirstFailureIsFirst(cs, 0);
    } else if !ShapesAgree(y, x, w) {
      FirstFailureIsFirst(cs, 1);
    } else if !IsHalfOrSingle(y.dt) {
      FirstFailureIsFirst(cs, 2);
    } else if !(x.dt == y.dt && w.dt == y.dt) {
      FirstFailureIsFirst(cs, 3);
    } else {
      FirstFailureSucceeds(cs);
    }
  }

  /** The padded rank: at least 4, so 1-D convolutions are widened to 2-D. */
  function PaddedRank(ndim: nat): nat
  {
    if ndim < 4 then 4 else ndim
  }

  /** Entry i of a widened pad, stride or dilation array. */
  function SpatialParamAt(vals: seq<int>, ndim: nat, default: int, i: nat): int
    requires ndim >= 2 && |vals| + 2 >= ndim
  {
    if i < ndim - 2 then ToInt32(vals[i]) else default
  }

  /** Entry i of a widened shape array. */
  function ShapeAt(shape: seq<int>, ndim: nat, i: nat): int
    requires |shape| == ndim
  {
    if i < ndim then ToInt64(shape[i]) else 1
  }

  /**
   * One of pad, stride or dilation after widening: the caller's 64-bit values
   * for the ndim - 2 spatial axes, each narrowed to `int`, then the default.
   */
  function SpatialParams(vals: seq<int>, ndim: nat, default: int): (r: seq<int>)
    requires ndim >= 2 && |vals| + 2 >= ndim
    ensures |r| == PaddedRank(ndim)
  {
    seq(PaddedRank(ndim), i requires 0 <= i < PaddedRank(ndim) => SpatialParamAt(vals, ndim, default, i))
  }

  /** A shape after widening: the caller's extents as `int64_t`, then 1 for each added axis. */
  function PaddedShape(shape: seq<int>, ndim: nat): (r: seq<int>)
    requires |shape| == ndim
    ensures |r| == PaddedRank(ndim)
  {
    seq(PaddedRank(ndim), i requires 0 <= i < PaddedRank(ndim) => ShapeAt(shape, ndim, i))
  }

  /**
   * The convolution object is configured with the first PaddedRank(ndim) - 2
   * entries: the caller's ndim - 2 values, plus one default entry when a 1-D
   * convolution is widened to 2-D.
   */
  lemma {:induction false} ConvolutionSeesCallerParams(vals: seq<int>, ndim: nat, default: int)
    requires ndim >= 3 && |vals| + 2 >= ndim
    ensures SpatialParams(vals, ndim, default)[..PaddedRank(ndim) - 2]
         == seq(ndim - 2, i requires 0 <= i < ndim - 2 => ToInt32(vals[i])) + (if ndim == 3 then [default] else [])
  {
    var r := SpatialParams(vals, ndim, default);
    var want := seq(ndim - 2, i requires 0 <= i < ndim - 2 => ToInt32(vals[i])) + (if ndim == 3 then [default] else []);
    assert |r[..PaddedRank(ndim) - 2]| == |want|;
    forall i | 0 <= i < |want|
      ensures r[..PaddedRank(ndim) - 2][i] == want[i]
    {
    }
  }

  /** Widening adds only unit axes, so the element count is unchanged when every extent fits `int64_t`. */
  lemma {:induction false} PaddedShapeKeepsElementCount(shape: seq<int>, ndim: nat)
    requires |shape| == ndim
    requires forall i :: 0 <= i < ndim ==> 0 <= shape[i] < TWO_63
    ensures PaddedShape(shape, ndim)[..ndim] == shape
    ensures Product(PaddedShape(shape, ndim)) == Product(shape)
  {
    var r := PaddedShape(shape, ndim);
    assert r[..ndim] == shape;
    var ones := r[ndim..];
    assert r == shape + ones;
    ProductConcat(shape, ones);
    AllOnesProduct(ones);
  }

  /**
   * The loop of `musaCreateConvDescriptor` that fills the six scratch arrays:
   * pad, stride, dilation and the three shapes, all of the padded rank.
   */
  method ConvertConvParams(ndim: nat, pads: seq<U64>, strides: seq<I64>, dilations: seq<U64>,
                           xs: seq<U64>, ws: seq<U64>, ys: seq<U64>)
    returns (pad: array<int>, stride: array<int>, dilation: array<int>,
             xShape: array<int>, wShape: array<int>, yShape: array<int>)
    requires ndim >= 3
    requires |pads| + 2 >= ndim && |strides| + 2 >= ndim && |dilations| + 2 >= ndim
    requires |xs| == ndim && |ws| == ndim && |ys| == ndim
    ensures fresh(pad) && fresh(stride) && fresh(dilation) && fresh(xShape) && fresh(wShape) && fresh(yShape)
    ensures pad[..] == SpatialParams(pads, ndim, 0)
    ensures stride[..] == SpatialParams(strides, ndim, 1)
    ensures dilation[..] == SpatialParams(dilations, ndim, 1)
    ensures xShape[..] == PaddedShape(xs, ndim)
    ensures wShape[..] == PaddedShape(ws, ndim)
    ensures yShape[..] == PaddedShape(ys, ndim)
  {
    var newNdim := PaddedRank(ndim);
    pad := new int[newNdim];
    stride := new int[newNdim];
    dilation := new int[newNdim];
    xShape := new int[newNdim];
    wShape := new int[newNdim];
    yShape := new int[newNdim];
    for i := 0 to newNdim
      invariant forall k :: 0 <= k < i ==>
                  && pad[k] == SpatialParamAt(pads, ndim, 0, k)
                  && stride[k] == SpatialParamAt(strides, ndim, 1, k)
                  && dilation[k] == SpatialParamAt(dilations, ndim, 1, k)
                  && xShape[k] == ShapeAt(xs, ndim, k)
                  && wShape[k] == ShapeAt(ws, ndim, k)
                  && yShape[k] == ShapeAt(ys, ndim, k)
    {
      pad[i] := if i < ndim - 2 then ToInt32(pads[i]) else 0;
      stride[i] := if i < ndim - 2 then ToInt32(strides[i]) else 1;
      dilation[i] := if i < ndim - 2 then ToInt32(dilations[i]) else 1;
      xShape[i] := if i < ndim then ToInt64(xs[i]) else 1;
      wShape[i] := if i < ndim then ToInt64(ws[i]) else 1;
      yShape[i] := if i < ndim then ToInt64(ys[i]) else 1;
    }
  }

  /** The descriptor Create builds around the objects it allocated. */
  function ConvDescriptorFor(handle: MusaHandle, dt: DataLayout, xa: Addr, wa: Addr, ya: Addr, op: Addr,
                             algo: Algorithm): ConvMusaDescriptor
  {
    ConvMusaDescriptor(DevMtGpu, dt, handle.deviceId, Some(handle.pool), xa, wa, ya, op, algo,
                       FLOAT_ONE, FLOAT_ZERO, 0)
  }

  /** A configured NCHW vendor tensor with the given extents and no strides. */
  function ConvTensor(dt: DataLayout, dims: seq<int>): Object<ConvMusaDescriptor>
  {
    TensorObj(Tensor(Some(VendorType(dt)), Some(Nchw), dims, None))
  }

  /**
   * Allocates the x, y and w vendor tensors and configures them in the
   * source's order: all types, then all formats, then all extents.
   */
  method NewConvTensors(heap: ConvHeap, dt: DataLayout, xDims: seq<int>, yDims: seq<int>, wDims: seq<int>)
    returns (xa: Addr, ya: Addr, wa: Addr)
    requires heap.Valid()
    modifies heap
    ensures heap.Valid()
    ensures |{xa, ya, wa}| == 3 && {xa, ya, wa} !! old(heap.blocks).Keys
    ensures heap.blocks == old(heap.blocks)[xa := ConvTensor(dt, xDims)][ya := ConvTensor(dt, yDims)]
                                           [wa := ConvTensor(dt, wDims)]
  {
    var blank := TensorObj(BlankTensor);
    xa := heap.New(blank);
    ya := heap.New(blank);
    wa := heap.New(blank);
    ConfigureConvTensors(heap, old(heap.blocks), xa, ya, wa, dt, xDims, yDims, wDims);
  }

  /** The SetType, SetFormat and SetNdInfo calls on three freshly allocated blank tensors. */
  method ConfigureConvTensors(heap: ConvHeap, ghost before: map<Addr, Object<ConvMusaDescriptor>>, xa: Addr, ya: Addr, wa: Addr,
                              dt: DataLayout, xDims: seq<int>, yDims: seq<int>, wDims: seq<int>)
    requires heap.Valid() && xa != ya && xa != wa && ya != wa
    requires heap.blocks == before[xa := TensorObj(BlankTensor)][ya := TensorObj(BlankTensor)][wa := TensorObj(BlankTensor)]
    modifies heap
    ensures heap.Valid()
    ensures heap.blocks == before[xa := ConvTensor(dt, xDims)][ya := ConvTensor(dt, yDims)][wa := ConvTensor(dt, wDims)]
  {
    var ty := VendorType(dt);
    SetTypes(heap, before, xa, ya, wa, ty);
    SetFormats(heap, before, xa, ya, wa, ty);
    SetExtents(heap, before, xa, ya, wa, ty, xDims, yDims, wDims);
  }

  /** The three SetType calls. */
  method SetTypes(heap: ConvHeap, ghost before: map<Addr, Object<ConvMusaDescriptor>>, xa: Addr, ya: Addr, wa: Addr,
                  ty: TensorType)
    requires heap.Valid() && xa != ya && xa != wa && ya != wa
    requires heap.blocks == before[xa := TensorObj(BlankTensor)][ya := TensorObj(BlankTensor)][wa := TensorObj(BlankTensor)]
    modifies heap
    ensures heap.Valid()
    ensures var t := TensorObj(BlankTensor.(ty := Some(ty)));
            heap.blocks == before[xa := t][ya := t][wa := t]
  {
    ghost var blank := TensorObj(BlankTensor);
    ghost var typed := TensorObj(BlankTensor.(ty := Some(ty)));
    SetType(heap, xa, ty);
    OverwriteFirst(before, xa, ya, wa, blank, blank, blank, typed);
    SetType(heap, ya, ty);
    OverwriteSecond(before, xa, ya, wa, typed, blank, blank, typed);
    SetType(heap, wa, ty);
  }

  /** The three SetFormat calls. */
  method SetFormats(heap: ConvHeap, ghost before: map<Addr, Object<ConvMusaDescriptor>>, xa: Addr, ya: Addr, wa: Addr,
                    ghost ty: TensorType)
    requires heap.Valid() && xa != ya && xa != wa && ya != wa
    requires var t := TensorObj(BlankTensor.(ty := Some(ty)));
             heap.blocks == before[xa := t][ya := t][wa := t]
    modifies heap
    ensures heap.Valid()
    ensures var f := TensorObj(BlankTensor.(ty := Some(ty), format := Some(Nchw)));
            heap.blocks == before[xa := f][ya := f][wa := f]
  {
    ghost var typed := TensorObj(BlankTensor.(ty := Some(ty)));
    ghost var formatted := TensorObj(BlankTensor.(ty := Some(ty), format := Some(Nchw)));
    SetFormat(heap, xa, Nchw);
    OverwriteFirst(before, xa, ya, wa, typed, typed, typed, formatted);
    SetFormat(heap, ya, Nchw);
    OverwriteSecond(before, xa, ya, wa, formatted, typed, typed, formatted);
    SetFormat(heap, wa, Nchw);
  }

  /** The three SetNdInfo calls, with extents and no strides. */
  method SetExtents(heap: ConvHeap, ghost before: map<Addr, Object<ConvMusaDescriptor>>, xa: Addr, ya: Addr, wa: Addr,
                    ghost ty: TensorType, xDims: seq<int>, yDims: seq<int>, wDims: seq<int>)
    requires heap.Valid() && xa != ya && xa != wa && ya != wa
    requires var f := TensorObj(BlankTensor.(ty := Some(ty), format := Some(Nchw)));
             heap.blocks == before[xa := f][ya := f][wa := f]
    modifies heap
    ensures heap.Valid()
    ensures var tensor := (dims: seq<int>) => TensorObj(Tensor(Some(ty), Some(Nchw), dims, None));
            heap.blocks == before[xa := tensor(xDims)][ya := tensor(yDims)][wa := tensor(wDims)]
  {
    ghost var formatted := TensorObj(BlankTensor.(ty := Some(ty), format := Some(Nchw)));
    ghost var cx := TensorObj(Tensor(Some(ty), Some(Nchw), xDims, None));
    ghost var cy := TensorObj(Tensor(Some(ty), Some(Nchw), yDims, None));
    SetNdInfo(heap, xa, xDims, None);
    OverwriteFirst(before, xa, ya, wa, formatted, formatted, formatted, cx);
    SetNdInfo(heap, ya, yDims, None);
    OverwriteSecond(before, xa, ya, wa, cx, formatted, formatted, cy);
    SetNdInfo(heap, wa, wDims, None);
  }

  /**
   * The heap after a successful Create: exactly five new live objects (three
   * tensors, the convolution and the descriptor), configured as Create
   * configures them, and every earlier object untouched.
   */
  ghost predicate ConvCreated(before: map<Addr, Object<ConvMusaDescriptor>>, after: map<Addr, Object<ConvMusaDescriptor>>,
                              ptr: Addr, handle: MusaHandle, y: TensorDesc, x: TensorDesc, w: TensorDesc,
                              pads: seq<U64>, strides: seq<I64>, dilations: seq<U64>, algo: Algorithm)
    requires WellFormedInputs(y, x, w) && RanksAgree(y, x, w)
    requires |pads| + 2 >= y.ndim && |strides| + 2 >= y.ndim && |dilations| + 2 >= y.ndim
  {
    && ptr in after && after[ptr].DescriptorObj?
    && var d := after[ptr].desc;
    && d == ConvDescriptorFor(handle, y.dt, d.xTensor, d.wTensor, d.yTensor, d.convOperator, algo)
    && var owned := {d.xTensor, d.wTensor, d.yTensor, d.convOperator, ptr};
    && |owned| == 5 && owned !! before.Keys
    && after == before[d.xTensor := ConvTensor(y.dt, PaddedShape(x.shape, y.ndim))]
                      [d.yTensor := ConvTensor(y.dt, PaddedShape(y.shape, y.ndim))]
                      [d.wTensor := ConvTensor(y.dt, PaddedShape(w.shape, y.ndim))]
                      [d.convOperator := ConvolutionObj(PaddedRank(y.ndim) - 2,
                                                        SpatialParams(pads, y.ndim, 0),
                                                        SpatialParams(strides, y.ndim, 1),
                                                        SpatialParams(dilations, y.ndim, 1))]
                      [ptr := DescriptorObj(d)]
  }

  /**
   * `musaCreateConvDescriptor`. Every failing check returns before the first
   * allocation, so a failure leaves the heap as it was, and the parameter
   * arrays are read only once the checks pass. `n` is never read: the
   * number of spatial axes comes from the rank. `algo` is the algorithm the
   * vendor's recommendation call leaves behind.
   */
  method CreateConvDescriptor(heap: ConvHeap, handle: MusaHandle, y: TensorDesc, x: TensorDesc, w: TensorDesc,
                              pads: seq<U64>, strides: seq<I64>, dilations: seq<U64>, n: U64, algo: Algorithm)
    returns (s: Status, ptr: Option<Addr>)
    requires heap.Valid() && WellFormedInputs(y, x, w)
    requires CheckConv(y, x, w) == Success ==>
               |pads| + 2 >= y.ndim && |strides| + 2 >= y.ndim && |dilations| + 2 >= y.ndim
    modifies heap
    ensures heap.Valid()
    ensures s == CheckConv(y, x, w)
    ensures s != Success ==> ptr == None && heap.blocks == old(heap.blocks)
    ensures s == Success ==> ptr.Some? && ConvCreated(old(heap.blocks), heap.blocks, ptr.value, handle, y, x, w,
                                                      pads, strides, dilations, algo)
  {
    s := CheckConv(y, x, w);
    if s != Success {
      return s, None;
    }
    var ndim := y.ndim;
    var pad, stride, dilation, xShape, wShape, yShape :=
      ConvertConvParams(ndim, pads, strides, dilations, x.shape, w.shape, y.shape);

    ghost var before := heap.blocks;
    var xa, ya, wa := NewConvTensors(heap, y.dt, xShape[..], yShape[..], wShape[..]);
    var op := heap.New(ConvolutionObj(PaddedRank(ndim) - 2, pad[..], stride[..], dilation[..]));
    var d := ConvDescriptorFor(handle, y.dt, xa, wa, ya, op, algo);
    var p := heap.New(DescriptorObj(d));
    ptr := Some(p);
  }

  /** `musaGetConvWorkspaceSize`: the stored size, with success. */
  function GetConvWorkspaceSize(d: ConvMusaDescriptor): (r: (Status, U64))
    ensures r.0 == Success && r.1 == d.workspaceSize
  {
    (Success, d.workspaceSize)
  }

  /** A descriptor Create builds asks for no workspace. */
  lemma CreatedConvNeedsNoWorkspace(handle: MusaHandle, dt: DataLayout, xa: Addr, wa: Addr, ya: Addr, op: Addr, algo: Algorithm)
    ensures GetConvWorkspaceSize(ConvDescriptorFor(handle, dt, xa, wa, ya, op, algo)) == (Success, 0)
  {
  }

  /**
   * `musaDestroyConvDescriptor` as written: clears the pool reference and
   * deletes the descriptor record only; the tensors and the convolution
   * object stay live.
   */
  method DestroyConvDescriptor(heap: ConvHeap, ptr: Addr) returns (s: Status)
    requires heap.Valid() && ptr in heap.blocks && heap.blocks[ptr].DescriptorObj?
    modifies heap
    ensures heap.Valid() && s == Success
    ensures heap.blocks == old(heap.blocks) - {ptr}
  {
    var d := heap.blocks[ptr].desc;
    heap.Write(ptr, DescriptorObj(d.(pool := None)));
    heap.Delete(ptr);
    s := Success;
  }

  /** Create followed by the source's Destroy leaves four vendor objects live that nothing refers to. */
  method CreateThenDestroyLeaks(heap: ConvHeap, handle: MusaHandle, y: TensorDesc, x: TensorDesc, w: TensorDesc,
                                pads: seq<U64>, strides: seq<I64>, dilations: seq<U64>, n: U64, algo: Algorithm)
    returns (leaked: set<Addr>)
    requires heap.Valid() && WellFormedInputs(y, x, w)
    requires |pads| + 2 >= y.ndim && |strides| + 2 >= y.ndim && |dilations| + 2 >= y.ndim
    requires CheckConv(y, x, w) == Success
    modifies heap
    ensures heap.Valid()
    ensures heap.blocks.Keys == old(heap.blocks).Keys + leaked
    ensures |leaked| == 4 && leaked !! old(heap.blocks).Keys
  {
    var s, ptr := CreateConvDescriptor(heap, handle, y, x, w, pads, strides, dilations, n, algo);
    var d := heap.blocks[ptr.value].desc;
    ConvCreatedKeys(old(heap.blocks), heap.blocks, ptr.value, handle, y, x, w, pads, strides, dilations, algo);
    leaked := {d.xTensor, d.wTensor, d.yTensor, d.convOperator};
    DropOneOfFive(d.xTensor, d.wTensor, d.yTensor, d.convOperator, ptr.value);
    s := DestroyConvDescriptor(heap, ptr.value);
  }

  /** The addresses Create adds to the heap are the five objects it allocated. */
  lemma ConvCreatedKeys(before: map<Addr, Object<ConvMusaDescriptor>>, after: map<Addr, Object<ConvMusaDescriptor>>,
                        ptr: Addr, handle: MusaHandle, y: TensorDesc, x: TensorDesc, w: TensorDesc,
                        pads: seq<U64>, strides: seq<I64>, dilations: seq<U64>, algo: Algorithm)
    requires WellFormedInputs(y, x, w) && RanksAgree(y, x, w)
    requires |pads| + 2 >= y.ndim && |strides| + 2 >= y.ndim && |dilations| + 2 >= y.ndim
    requires ConvCreated(before, after, ptr, handle, y, x, w, pads, strides, dilations, algo)
    ensures var d := after[ptr].desc;
            var owned := {d.xTensor, d.wTensor, d.yTensor, d.convOperator, ptr};
            after.Keys == before.Keys + owned && |owned| == 5 && owned !! before.Keys
  {
  }

  /** Of five distinct addresses, the first four are four distinct addresses other than the fifth. */
  lemma DropOneOfFive(a: Addr, b: Addr, c: Addr, e: Addr, p: Addr)
    requires |{a, b, c, e, p}| == 5
    ensures p !in {a, b, c, e} && |{a, b, c, e}| == 4
  {
    assert {a, b, c, e, p} == {a, b, c, e} + {p};
  }

  /**
   * Destroy as the pooling operator does it: delete the three tensors and the
   * convolution, clear the pool reference, delete the descriptor.
   */
  method DestroyConvDescriptorReleasingAll(heap: ConvHeap, ptr: Addr) returns (s: Status)
    requires heap.Valid() && ptr in heap.blocks && heap.blocks[ptr].DescriptorObj?
    requires var d := heap.blocks[ptr].desc;
             var owned := {d.xTensor, d.wTensor, d.yTensor, d.convOperator, ptr};
             |owned| == 5 && owned <= heap.blocks.Keys
    modifies heap
    ensures heap.Valid() && s == Success
    ensures var d := old(heap.blocks)[ptr].desc;
            heap.blocks == old(heap.blocks) - {d.xTensor, d.wTensor, d.yTensor, d.convOperator, ptr}
  {
    var d := heap.blocks[ptr].desc;
    heap.Delete(d.xTensor);
    heap.Delete(d.wTensor);
    heap.Delete(d.yTensor);
    heap.Delete(d.convOperator);
    heap.Write(ptr, DescriptorObj(d.(pool := None)));
    heap.Delete(ptr);
    s := Success;
  }

  /** With the releasing Destroy, Create followed by Destroy leaves the heap exactly as it was. */
  method CreateThenDestroyRestoresHeap(heap: ConvHeap, handle: MusaHandle, y: TensorDesc, x: TensorDesc, w: TensorDesc,
                                       pads: seq<U64>, strides: seq<I64>, dilations: seq<U64>, n: U64, algo: Algorithm)
    requires heap.Valid() && WellFormedInputs(y, x, w)
    requires CheckConv(y, x, w) == Success ==>
               |pads| + 2 >= y.ndim && |strides| + 2 >= y.ndim && |dilations| + 2 >= y.ndim
    modifies heap
    ensures heap.Valid() && heap.blocks == old(heap.blocks)
  {
    var s, ptr := CreateConvDescriptor(heap, handle, y, x, w, pads, strides, dilations, n, algo);
    if s == Success {
      s := DestroyConvDescriptorReleasingAll(heap, ptr.value);
    }
  }

  /**
   * Scenario: a rank-5 y against rank-4 x and w is refused with
   * BAD_TENSOR_SHAPE before the two-entry parameter arrays are read.
   */
  method ScenarioRankMismatchReadsNoParams(heap: ConvHeap, handle: MusaHandle, algo: Algorithm)
    returns (s: Status, ptr: Option<Addr>)
    requires heap.Valid()
    modifies heap
    ensures s == BadTensorShape && ptr == None && heap.blocks == old(heap.blocks)
  {
    var x := TensorDesc(4, [1, 3, 8, 8], [192, 64, 8, 1], F32);
    var w := TensorDesc(4, [4, 3, 3, 3], [27, 9, 3, 1], F32);
    var y := TensorDesc(5, [1, 4, 6, 6, 1], [144, 36, 6, 1, 1], F32);
    s, ptr := CreateConvDescriptor(heap, handle, y, x, w, [0, 0], [1, 1], [1, 1], 2, algo);
  }

  /** Scenario: NCHW x = [1,3,8,8], w = [4,3,3,3], y = [1,4,6,6] in F32 pass every check. */
  lemma ScenarioMatchingShapesSucceed(x: TensorDesc, w: TensorDesc, y: TensorDesc)
    requires x == TensorDesc(4, [1, 3, 8, 8], [192, 64, 8, 1], F32)
    requires w == TensorDesc(4, [4, 3, 3, 3], [27, 9, 3, 1], F32)
    requires y == TensorDesc(4, [1, 4, 6, 6], [144, 36, 6, 1], F32)
    ensures CheckConv(y, x, w) == Success
  {
  }

  /** Scenario: the same shapes with y declared I32 are rejected for their element type. */
  lemma ScenarioIntegerOutputRejected(x: TensorDesc, w: TensorDesc, y: TensorDesc)
    requires x == TensorDesc(4, [1, 3, 8, 8], [192, 64, 8, 1], F32)
    requires w == TensorDesc(4, [4, 3, 3, 3], [27, 9, 3, 1], F32)
    requires y == TensorDesc(4, [1, 4, 6, 6], [144, 36, 6, 1], I32)
    ensures CheckConv(y, x, w) == BadTensorDtype
  {
  }
}
