/**
 * The pooling entry points (src/ops/pooling/operator.cc): four stages with
 * arms for the CPU, NVIDIA GPU and MUSA GPU only. The Cambricon arms are a
 * TODO and there is no Ascend arm, so both fall through to BAD_DEVICE.
 */
module PoolingDispatch {
  import opened Devices
  import opened Operators
  import opened Dispatch

  const PoolingArms: set<Device> := {DevCpu, DevNvGpu, DevMtGpu}

  /** The caller's kernel, pad and stride arrays are passed as the same pointers. */
  datatype CreateCall = CreateCall(handle: Handle, descPtr: Ptr, y: TensorDesc, x: TensorDesc, kernelShape: Ptr,
                                   pads: Ptr, strides: Ptr, n: U64, poolingType: CInt)

  datatype WorkspaceCall = WorkspaceCall(desc: OpDescriptor, sizePtr: Ptr)

  datatype PoolingCall = PoolingCall(desc: OpDescriptor, workspace: Ptr, workspaceSize: U64, y: Ptr, x: Ptr,
                                     stream: Ptr)

  datatype DestroyCall = DestroyCall(desc: OpDescriptor)

  /** `infiniopCreatePoolingDescriptor`: routes on the handle's device. */
  function CreatePooling(handle: Handle, descPtr: Ptr, y: TensorDesc, x: TensorDesc, kernelShape: Ptr, pads: Ptr,
                         strides: Ptr, n: U64, poolingType: CInt, enabled: set<Device>): (o: Outcome<CreateCall>)
    ensures o.Forwarded? <==> handle.device in PoolingArms && handle.device in enabled
    ensures o.Returned? ==> o.status == BadDevice
    ensures o.Forwarded? ==>
      && o.backend == BackendFor(handle.device)
      && o.call == CreateCall(handle, descPtr, y, x, kernelShape, pads, strides, n, poolingType)
  {
    Route(handle.device, PoolingArms, enabled, CreateCall(handle, descPtr, y, x, kernelShape, pads, strides, n,
                                                             poolingType))
  }

  /** `infiniopGetPoolingWorkspaceSize`: routes on the descriptor's device. */
  function GetPoolingWorkspaceSize(desc: OpDescriptor, sizePtr: Ptr, enabled: set<Device>)
    : (o: Outcome<WorkspaceCall>)
    ensures o.Forwarded? <==> desc.device in PoolingArms && desc.device in enabled
    ensures o.Returned? ==> o.status == BadDevice
    ensures o.Forwarded? ==> o.backend == BackendFor(desc.device) && o.call == WorkspaceCall(desc, sizePtr)
  {
    Route(desc.device, PoolingArms, enabled, WorkspaceCall(desc, sizePtr))
  }

  /** `infiniopPooling`: routes on the descriptor's device. */
  function Pooling(desc: OpDescriptor, workspace: Ptr, workspaceSize: U64, y: Ptr, x: Ptr, stream: Ptr,
                   enabled: set<Device>): (o: Outcome<PoolingCall>)
    ensures o.Forwarded? <==> desc.device in PoolingArms && desc.device in enabled
    ensures o.Returned? ==> o.status == BadDevice
    ensures o.Forwarded? ==>
      o.backend == BackendFor(desc.device) && o.call == PoolingCall(desc, workspace, workspaceSize, y, x, stream)
  {
    Route(desc.device, PoolingArms, enabled, PoolingCall(desc, workspace, workspaceSize, y, x, stream))
  }

  /** `infiniopDestroyPoolingDescriptor`: routes on the descriptor's device. */
  function DestroyPooling(desc: OpDescriptor, enabled: set<Device>): (o: Outcome<DestroyCall>)
    ensures o.Forwarded? <==> desc.device in PoolingArms && desc.device in enabled
    ensures o.Returned? ==> o.status == BadDevice
    ensures o.Forwarded? ==> o.backend == BackendFor(desc.device) && o.call == DestroyCall(desc)
  {
    Route(desc.device, PoolingArms, enabled, DestroyCall(desc))
  }

  /** Cambricon and Ascend devices are refused at Create even in a build that enables every device. */
  lemma PoolingRefusesCambriconAndAscend(handle: Handle, descPtr: Ptr, y: TensorDesc, x: TensorDesc,
                                         kernelShape: Ptr, pads: Ptr, strides: Ptr, n: U64, poolingType: CInt)
    requires handle.device == DevCambriconMlu || handle.device == DevAscendNpu
    ensures CreatePooling(handle, descPtr, y, x, kernelShape, pads, strides, n, poolingType, EveryDevice)
         == Returned(BadDevice)
  {
    NoArmIsBadDevice(handle.device, PoolingArms, EveryDevice,
                     CreateCall(handle, descPtr, y, x, kernelShape, pads, strides, n, poolingType));
  }

  /** A descriptor's later stages reach the backend its Create reached, or all return BAD_DEVICE. */
  lemma PoolingStagesAgree(handle: Handle, descPtr: Ptr, y: TensorDesc, x: TensorDesc, kernelShape: Ptr, pads: Ptr,
                           strides: Ptr, n: U64, poolingType: CInt, desc: OpDescriptor, sizePtr: Ptr, workspace: Ptr,
                           workspaceSize: U64, yp: Ptr, xp: Ptr, stream: Ptr, enabled: set<Device>)
    requires desc.device == handle.device
    ensures var created := CreatePooling(handle, descPtr, y, x, kernelShape, pads, strides, n, poolingType, enabled);
            && GetPoolingWorkspaceSize(desc, sizePtr, enabled).Forwarded? == created.Forwarded?
            && Pooling(desc, workspace, workspaceSize, yp, xp, stream, enabled).Forwarded? == created.Forwarded?
            && DestroyPooling(desc, enabled).Forwarded? == created.Forwarded?
            && (created.Forwarded? ==>
                  && GetPoolingWorkspaceSize(desc, sizePtr, enabled).backend == created.backend
                  && Pooling(desc, workspace, workspaceSize, yp, xp, stream, enabled).backend == created.backend
                  && DestroyPooling(desc, enabled).backend == created.backend)
  {
    var createCall := CreateCall(handle, descPtr, y, x, kernelShape, pads, strides, n, poolingType);
    SameTagSameRoute(desc.device, PoolingArms, enabled, createCall, WorkspaceCall(desc, sizePtr));
    SameTagSameRoute(desc.device, PoolingArms, enabled, createCall,
                     PoolingCall(desc, workspace, workspaceSize, yp, xp, stream));
    SameTagSameRoute(desc.device, PoolingArms, enabled, createCall, DestroyCall(desc));
  }
}
