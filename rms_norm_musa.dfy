/**
 * RMS normalisation on MUSA devices (src/ops/rms_norm/musa): Create checks
 * only ranks and extents, and records the row count, the row length and the
 * row strides of y and x.
 */
module RmsNormMusa {
  import opened Wrappers
  import opened DataType
  import opened Devices
  import opened Operators
  import opened Validation

  /** `RMSNormMusaDescriptor`; the strides are held as `unsigned long`. */
  datatype RmsNormMusaDescriptor = RmsNormMusaDescriptor(
    device: Device,
    deviceId: int,
    dtype: DataLayout,
    n: U64,
    d: U64,
    strideY: U64,
    strideX: U64,
    wDtype: DataLayout,
    epsilon: Float32)

  /** y and x are matrices and w a vector. */
  predicate RmsNormRanksAgree(y: TensorDesc, x: TensorDesc, w: TensorDesc)
  {
    y.ndim == 2 && x.ndim == 2 && w.ndim == 1
  }

  /** With n rows of length d in y: x is n by d and w has d entries. */
  predicate RmsNormShapesAgree(y: TensorDesc, x: TensorDesc, w: TensorDesc)
    requires y.WellFormed() && x.WellFormed() && w.WellFormed()
  {
    RmsNormRanksAgree(y, x, w) && x.shape == y.shape && w.shape == [y.shape[1]]
  }

  /** The two rank and extent checks of `musaCreateRMSNormDescriptor`, in order. */
  function RmsNormChecks(y: TensorDesc, x: TensorDesc, w: TensorDesc): seq<Check>
    requires y.WellFormed() && x.WellFormed() && w.WellFormed()
  {
    [ Check(RmsNormRanksAgree(y, x, w), BadTensorShape),
      Check(RmsNormShapesAgree(y, x, w), BadTensorShape) ]
  }

  /**
   * `musaCreateRMSNormDescriptor`. Only shapes are checked: no element type
   * and no stride is ever refused. On success the descriptor carries the
   * handle's own device tag, y's element type, the row count and length, the
   * row strides of y and x converted to `unsigned long`, w's element type and
   * epsilon.
   */
  function CreateRmsNorm(handle: MusaHandle, y: TensorDesc, x: TensorDesc, w: TensorDesc, epsilon: Float32)
    : (c: Created<RmsNormMusaDescriptor>)
    requires y.WellFormed() && x.WellFormed() && w.WellFormed()
    ensures c.status == Success <==> RmsNormShapesAgree(y, x, w)
    ensures c.status != Success ==> c.status == BadTensorShape && c.desc == None
    ensures c.status == Success ==>
      && c.desc.Some?
      && var dsc := c.desc.value;
      && dsc.device == handle.device && dsc.deviceId == handle.deviceId
      && dsc.dtype == y.dt && dsc.wDtype == w.dt && dsc.epsilon == epsilon
      && [dsc.n, dsc.d] == y.shape == x.shape && [dsc.d] == w.shape
      && (dsc.strideY - y.strides[0]) % TWO_64 == 0 && (dsc.strideX - x.strides[0]) % TWO_64 == 0
      && (y.strides[0] >= 0 ==> dsc.strideY == y.strides[0])
      && (x.strides[0] >= 0 ==> dsc.strideX == x.strides[0])
  {
    if y.ndim != 2 || x.ndim != 2 || w.ndim != 1 then Created(BadTensorShape, None)
    else
      var n, d := y.shape[0], y.shape[1];
      if x.shape[0] != n || x.shape[1] != d || w.shape[0] != d then Created(BadTensorShape, None)
      else
        Created(Success, Some(RmsNormMusaDescriptor(handle.device, handle.deviceId, y.dt, n, d,
                                                    ToUint64(y.strides[0]), ToUint64(x.strides[0]),
                                                    w.dt, epsilon)))
  }

  /** Create reports the first failing check of the list. */
  lemma CreateRmsNormIsFirstFailure(handle: MusaHandle, y: TensorDesc, x: TensorDesc, w: TensorDesc, epsilon: Float32)
    requires y.WellFormed() && x.WellFormed() && w.WellFormed()
    ensures CreateRmsNorm(handle, y, x, w, epsilon).status == FirstFailure(RmsNormChecks(y, x, w))
  {
    var cs := RmsNormChecks(y, x, w);
    if !RmsNormRanksAgree(y, x, w) {
      FirstFailureIsFirst(cs, 0);
    } else if !RmsNormShapesAgree(y, x, w) {
      FirstFailureIsFirst(cs, 1);
    } else {
      FirstFailureSucceeds(cs);
    }
  }

  /** The outcome does not depend on element types or strides: any change of them leaves the status as it was. */
  lemma CreateRmsNormIgnoresTypesAndStrides(handle: MusaHandle, y: TensorDesc, x: TensorDesc, w: TensorDesc,
                                            y2: TensorDesc, x2: TensorDesc, w2: TensorDesc, epsilon: Float32)
    requires y.WellFormed() && x.WellFormed() && w.WellFormed()
    requires y2.WellFormed() && x2.WellFormed() && w2.WellFormed()
    requires y2.shape == y.shape && x2.shape == x.shape && w2.shape == w.shape
    ensures CreateRmsNorm(handle, y2, x2, w2, epsilon).status == CreateRmsNorm(handle, y, x, w, epsilon).status
  {
  }

  /** `musaGetRMSNormWorkspaceSize`: no workspace. */
  function GetRmsNormWorkspaceSize(d: RmsNormMusaDescriptor): (r: (Status, U64))
    ensures r == (Success, 0)
  {
    (Success, 0)
  }

  /** `musaDestroyRMSNormDescriptor` deletes the record and always succeeds. */
  function DestroyRmsNorm(d: RmsNormMusaDescriptor): (s: Status)
    ensures s == Success
  {
    Success
  }

  /** Scenario: x = [4, 16] against y = [4, 8] is refused, since the row length of y is 8. */
  lemma ScenarioRowLengthMismatch(handle: MusaHandle, y: TensorDesc, x: TensorDesc, w: TensorDesc, epsilon: Float32)
    requires y == TensorDesc(2, [4, 8], [8, 1], F16)
    requires x == TensorDesc(2, [4, 16], [16, 1], F16)
    requires w == TensorDesc(1, [16], [1], F16)
    ensures CreateRmsNorm(handle, y, x, w, epsilon) == Created(BadTensorShape, None)
  {
  }
}
