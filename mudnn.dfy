/**
 * The vendor (muDNN) objects a MUSA descriptor owns, recorded by the
 * configuration this layer hands them: the set-up calls themselves are
 * opaque, so an object is modelled as what was passed to it.
 */
module Mudnn {
  import opened Wrappers
  import opened HostHeap
  import opened DataType

  datatype TensorType = Half | Float

  /** The vendor tensor type Create selects: HALF for F16, FLOAT otherwise (the callers have already admitted only F16 and F32). */
  function VendorType(dt: DataLayout): (ty: TensorType)
    ensures ty == Half <==> Eq(dt, F16)
  {
    if Eq(dt, F16) then Half else Float
  }

  datatype Format = Nchw

  /** A `musa::dnn::Tensor`: element type, layout and the `SetNdInfo` extents (and strides, when given). */
  datatype Tensor = Tensor(ty: Option<TensorType>, format: Option<Format>, dims: seq<int>, strides: Option<seq<int>>)

  const BlankTensor: Tensor := Tensor(None, None, [], None)

  datatype PoolingMode = MaxPool | AvgPoolCountPad

  /** `musa::dnn::Convolution::Algorithm`: DIRECT, or whatever the vendor recommends. */
  datatype Algorithm = Direct | Recommended(code: int)

  /** Everything Create allocates on the heap; D is the operator's own descriptor record. */
  datatype Object<D> =
    | TensorObj(tensor: Tensor)
    | ConvolutionObj(nd: int, pad: seq<int>, stride: seq<int>, dilation: seq<int>)
    | PoolingObj(mode: PoolingMode, nd: int, kernel: seq<int>, pad: seq<int>, stride: seq<int>, dilation: seq<int>)
    | IntArrayObj(cells: seq<int>)
    | UninitArrayObj(length: int)
    | DescriptorObj(desc: D)

  /** `Tensor::SetType` on a live tensor object. */
  method SetType<D>(heap: Heap<Object<D>>, a: Addr, ty: TensorType)
    requires heap.Valid() && a in heap.blocks && heap.blocks[a].TensorObj?
    modifies heap
    ensures heap.Valid()
    ensures heap.blocks == old(heap.blocks)[a := TensorObj(old(heap.blocks)[a].tensor.(ty := Some(ty)))]
  {
    heap.Write(a, TensorObj(heap.blocks[a].tensor.(ty := Some(ty))));
  }

  /** `Tensor::SetFormat` on a live tensor object. */
  method SetFormat<D>(heap: Heap<Object<D>>, a: Addr, format: Format)
    requires heap.Valid() && a in heap.blocks && heap.blocks[a].TensorObj?
    modifies heap
    ensures heap.Valid()
    ensures heap.blocks == old(heap.blocks)[a := TensorObj(old(heap.blocks)[a].tensor.(format := Some(format)))]
  {
    heap.Write(a, TensorObj(heap.blocks[a].tensor.(format := Some(format))));
  }

  /** `Tensor::SetNdInfo` on a live tensor object: extents, and strides when the call passes them. */
  method SetNdInfo<D>(heap: Heap<Object<D>>, a: Addr, dims: seq<int>, strides: Option<seq<int>>)
    requires heap.Valid() && a in heap.blocks && heap.blocks[a].TensorObj?
    modifies heap
    ensures heap.Valid()
    ensures heap.blocks == old(heap.blocks)[a := TensorObj(old(heap.blocks)[a].tensor.(dims := dims, strides := strides))]
  {
    heap.Write(a, TensorObj(heap.blocks[a].tensor.(dims := dims, strides := strides)));
  }
}
