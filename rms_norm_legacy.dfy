/**
 * The legacy RMS normalisation API (src/ops/rms_norm/operator.cc): Create
 * allocates a record holding only the device kind, for the CPU, NVIDIA GPU
 * and Cambricon arms; any other device makes the process panic, which the
 * model reports as an error outcome. `rmsNorm` runs an f16 kernel.
 */
module RmsNormLegacy {
  import opened Wrappers
  import opened DataType
  import opened Devices
  import opened Operators
  import opened Dispatch
  import opened HostHeap

  /** `RMSNormDescriptor`: the device is its only field. */
  datatype RmsNormDescriptor = RmsNormDescriptor(device: Device)

  /** `PANIC(UnsupportedDevice)`: the process stops instead of returning a status. */
  datatype Panic = UnsupportedDevice

  const LegacyRmsNormArms: set<Device> := {DevCpu, DevNvGpu, DevCambriconMlu}

  /** A call of one of the `rms_norm_*_f16` kernels; `stream` is None for the CPU kernel, which takes none. */
  datatype KernelCall = KernelCall(backend: Backend, precision: DataLayout, y: Ptr, x: Ptr, w: Ptr,
                                   epsilon: Float32, stream: Option<Ptr>)

  /** What `createRMSNormDescriptor` produces for a device: a record of that device, or a panic. */
  function CreateOutcome(device: Device, enabled: set<Device>): (r: Result<RmsNormDescriptor, Panic>)
    ensures r.Ok? <==> device in LegacyRmsNormArms && device in enabled
    ensures r.Ok? ==> r.value == RmsNormDescriptor(device)
    ensures r.Err? ==> r.error == UnsupportedDevice
  {
    if device in LegacyRmsNormArms && device in enabled then Ok(RmsNormDescriptor(device)) else Err(UnsupportedDevice)
  }

  /** Ascend and MUSA devices panic even in a build that enables them. */
  lemma AscendAndMusaPanic(device: Device)
    requires device == DevAscendNpu || device == DevMtGpu
    ensures CreateOutcome(device, EveryDevice) == Err(UnsupportedDevice)
  {
  }

  /** `createRMSNormDescriptor`: allocates the record, or panics without allocating. `config` is never read. */
  method CreateRmsNormDescriptor(heap: Heap<RmsNormDescriptor>, device: Device, config: Ptr, enabled: set<Device>)
    returns (r: Result<Addr, Panic>)
    requires heap.Valid()
    modifies heap
    ensures heap.Valid()
    ensures r.Err? <==> CreateOutcome(device, enabled).Err?
    ensures r.Err? ==> r.error == UnsupportedDevice && heap.blocks == old(heap.blocks)
    ensures r.Ok? ==> r.value !in old(heap.blocks) && heap.blocks == old(heap.blocks)[r.value := RmsNormDescriptor(device)]
  {
    var outcome := CreateOutcome(device, enabled);
    if outcome.Err? {
      return Err(outcome.error);
    }
    var a := heap.New(outcome.value);
    r := Ok(a);
  }

  /** `destroyRMSNormDescriptor`: deletes the record, whatever its device. */
  method DestroyRmsNormDescriptor(heap: Heap<RmsNormDescriptor>, a: Addr)
    requires heap.Valid() && a in heap.blocks
    modifies heap
    ensures heap.Valid() && heap.blocks == old(heap.blocks) - {a}
  {
    heap.Delete(a);
  }

  /** Destroy undoes a successful Create. */
  method CreateThenDestroyRestoresHeap(heap: Heap<RmsNormDescriptor>, device: Device, config: Ptr,
                                       enabled: set<Device>)
    requires heap.Valid()
    modifies heap
    ensures heap.Valid() && heap.blocks == old(heap.blocks)
  {
    var r := CreateRmsNormDescriptor(heap, device, config, enabled);
    if r.Ok? {
      DestroyRmsNormDescriptor(heap, r.value);
    }
  }

  /** `rmsNorm`: the f16 kernel of the descriptor's device, or a panic. */
  function RmsNorm(desc: RmsNormDescriptor, y: Ptr, x: Ptr, w: Ptr, epsilon: Float32, stream: Ptr, enabled: set<Device>)
    : (r: Result<KernelCall, Panic>)
    ensures r.Ok? <==> desc.device in LegacyRmsNormArms && desc.device in enabled
    ensures r.Err? ==> r.error == UnsupportedDevice
    ensures r.Ok? ==>
      && r.value.backend == BackendFor(desc.device) && Eq(r.value.precision, F16)
      && r.value.y == y && r.value.x == x && r.value.w == w && r.value.epsilon == epsilon
      && (r.value.stream == None <==> desc.device == DevCpu)
      && (r.value.stream.Some? ==> r.value.stream.value == stream)
  {
    if desc.device in LegacyRmsNormArms && desc.device in enabled then
      var s := if desc.device == DevCpu then None else Some(stream);
      Ok(KernelCall(BackendFor(desc.device), F16, y, x, w, epsilon, s))
    else
      Err(UnsupportedDevice)
  }

  /** A descriptor that Create returned can always be run: rmsNorm has an arm wherever Create had one. */
  lemma CreatedDescriptorRuns(device: Device, enabled: set<Device>, y: Ptr, x: Ptr, w: Ptr, epsilon: Float32,
                              stream: Ptr)
    requires CreateOutcome(device, enabled).Ok?
    ensures RmsNorm(CreateOutcome(device, enabled).value, y, x, w, epsilon, stream, enabled).Ok?
  {
  }
}
