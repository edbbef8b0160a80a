/**
 * The matmul entry points (src/ops/matmul/operator.cc): four stages, an arm
 * for every device kind in each, the Ascend Create arm with one extra
 * trailing argument, the CPU Execute arm without the stream.
 */
module MatmulDispatch {
  import opened Wrappers
  import opened Devices
  import opened Operators
  import opened Dispatch

  /** Arguments of a backend Create; `extra` is the trailing constant only the Ascend arm passes. */
  datatype CreateCall = CreateCall(handle: Handle, descPtr: Ptr, c: TensorDesc, alpha: Float32, a: TensorDesc,
                                   b: TensorDesc, beta: Float32, extra: Option<int>)

  datatype WorkspaceCall = WorkspaceCall(desc: OpDescriptor, sizePtr: Ptr)

  /** Arguments of a backend matmul; `stream` is None where the arm does not pass it. */
  datatype ExecuteCall = ExecuteCall(desc: OpDescriptor, workspace: Ptr, workspaceSize: U64, c: Ptr, a: Ptr, b: Ptr,
                                     stream: Option<Ptr>)

  datatype DestroyCall = DestroyCall(desc: OpDescriptor)

  /** `infiniopCreateMatmulDescriptor`: routes on the handle's device. */
  function CreateMatmul(handle: Handle, descPtr: Ptr, c: TensorDesc, alpha: Float32, a: TensorDesc, b: TensorDesc,
                        beta: Float32, enabled: set<Device>): (o: Outcome<CreateCall>)
    ensures o.Forwarded? <==> handle.device in enabled
    ensures o.Returned? ==> o.status == BadDevice
    ensures o.Forwarded? ==>
      && o.backend == BackendFor(handle.device)
      && o.call.handle == handle && o.call.descPtr == descPtr
      && o.call.c == c && o.call.alpha == alpha && o.call.a == a && o.call.b == b && o.call.beta == beta
      && (o.call.extra.Some? <==> handle.device == DevAscendNpu)
      && (o.call.extra.Some? ==> o.call.extra.value == 1)
  {
    EveryDeviceHasArm(handle.device);
    var extra := if handle.device == DevAscendNpu then Some(1) else None;
    Route(handle.device, EveryDevice, enabled, CreateCall(handle, descPtr, c, alpha, a, b, beta, extra))
  }

  /** `infiniopGetMatmulWorkspaceSize`: routes on the descriptor's device. */
  function GetMatmulWorkspaceSize(desc: OpDescriptor, sizePtr: Ptr, enabled: set<Device>): (o: Outcome<WorkspaceCall>)
    ensures o.Forwarded? <==> desc.device in enabled
    ensures o.Returned? ==> o.status == BadDevice
    ensures o.Forwarded? ==> o.backend == BackendFor(desc.device) && o.call == WorkspaceCall(desc, sizePtr)
  {
    EveryDeviceHasArm(desc.device);
    Route(desc.device, EveryDevice, enabled, WorkspaceCall(desc, sizePtr))
  }

  /** `infiniopMatmul`: routes on the descriptor's device; the CPU arm drops the stream. */
  function Matmul(desc: OpDescriptor, workspace: Ptr, workspaceSize: U64, c: Ptr, a: Ptr, b: Ptr, stream: Ptr,
                  enabled: set<Device>): (o: Outcome<ExecuteCall>)
    ensures o.Forwarded? <==> desc.device in enabled
    ensures o.Returned? ==> o.status == BadDevice
    ensures o.Forwarded? ==>
      && o.backend == BackendFor(desc.device)
      && o.call.desc == desc && o.call.workspace == workspace && o.call.workspaceSize == workspaceSize
      && o.call.c == c && o.call.a == a && o.call.b == b
      && (desc.device == DevCpu ==> o.call.stream == None)
      && (desc.device != DevCpu ==> o.call.stream == Some(stream))
  {
    EveryDeviceHasArm(desc.device);
    var s := if desc.device == DevCpu then None else Some(stream);
    Route(desc.device, EveryDevice, enabled, ExecuteCall(desc, workspace, workspaceSize, c, a, b, s))
  }

  /** `infiniopDestroyMatmulDescriptor`: routes on the descriptor's device. */
  function DestroyMatmul(desc: OpDescriptor, enabled: set<Device>): (o: Outcome<DestroyCall>)
    ensures o.Forwarded? <==> desc.device in enabled
    ensures o.Returned? ==> o.status == BadDevice
    ensures o.Forwarded? ==> o.backend == BackendFor(desc.device) && o.call == DestroyCall(desc)
  {
    EveryDeviceHasArm(desc.device);
    Route(desc.device, EveryDevice, enabled, DestroyCall(desc))
  }

  /**
   * A descriptor carries the device of the handle it was created with, so all
   * four stages of its life reach one backend, or the first already failed.
   */
  lemma MatmulStagesAgree(handle: Handle, descPtr: Ptr, c: TensorDesc, alpha: Float32, a: TensorDesc, b: TensorDesc,
                          beta: Float32, desc: OpDescriptor, workspace: Ptr, workspaceSize: U64, cp: Ptr, ap: Ptr,
                          bp: Ptr, stream: Ptr, sizePtr: Ptr, enabled: set<Device>)
    requires desc.device == handle.device
    ensures var created := CreateMatmul(handle, descPtr, c, alpha, a, b, beta, enabled);
            && GetMatmulWorkspaceSize(desc, sizePtr, enabled).Forwarded? == created.Forwarded?
            && Matmul(desc, workspace, workspaceSize, cp, ap, bp, stream, enabled).Forwarded? == created.Forwarded?
            && DestroyMatmul(desc, enabled).Forwarded? == created.Forwarded?
            && (created.Forwarded? ==>
                  && GetMatmulWorkspaceSize(desc, sizePtr, enabled).backend == created.backend
                  && Matmul(desc, workspace, workspaceSize, cp, ap, bp, stream, enabled).backend == created.backend
                  && DestroyMatmul(desc, enabled).backend == created.backend)
  {
  }
}
