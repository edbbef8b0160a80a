/**
 * The rearrange entry points (src/ops/rearrange/operator.cc): only Create,
 * Execute and Destroy, an arm for every device kind, and no workspace.
 */
module RearrangeDispatch {
  import opened Devices
  import opened Operators
  import opened Dispatch

  datatype CreateCall = CreateCall(handle: Handle, descPtr: Ptr, dst: TensorDesc, src: TensorDesc)

  /** A backend rearrange takes no workspace: destination, source and stream only. */
  datatype RearrangeCall = RearrangeCall(desc: OpDescriptor, dst: Ptr, src: Ptr, stream: Ptr)

  datatype DestroyCall = DestroyCall(desc: OpDescriptor)

  /** `infiniopCreateRearrangeDescriptor`: routes on the handle's device. */
  function CreateRearrange(handle: Handle, descPtr: Ptr, dst: TensorDesc, src: TensorDesc, enabled: set<Device>)
    : (o: Outcome<CreateCall>)
    ensures o.Forwarded? <==> handle.device in enabled
    ensures o.Returned? ==> o.status == BadDevice
    ensures o.Forwarded? ==> o.backend == BackendFor(handle.device) && o.call == CreateCall(handle, descPtr, dst, src)
  {
    EveryDeviceHasArm(handle.device);
    Route(handle.device, EveryDevice, enabled, CreateCall(handle, descPtr, dst, src))
  }

  /** `infiniopRearrange`: routes on the descriptor's device. */
  function Rearrange(desc: OpDescriptor, dst: Ptr, src: Ptr, stream: Ptr, enabled: set<Device>)
    : (o: Outcome<RearrangeCall>)
    ensures o.Forwarded? <==> desc.device in enabled
    ensures o.Returned? ==> o.status == BadDevice
    ensures o.Forwarded? ==> o.backend == BackendFor(desc.device) && o.call == RearrangeCall(desc, dst, src, stream)
  {
    EveryDeviceHasArm(desc.device);
    Route(desc.device, EveryDevice, enabled, RearrangeCall(desc, dst, src, stream))
  }

  /** `infiniopDestroyRearrangeDescriptor`: routes on the descriptor's device. */
  function DestroyRearrange(desc: OpDescriptor, enabled: set<Device>): (o: Outcome<DestroyCall>)
    ensures o.Forwarded? <==> desc.device in enabled
    ensures o.Returned? ==> o.status == BadDevice
    ensures o.Forwarded? ==> o.backend == BackendFor(desc.device) && o.call == DestroyCall(desc)
  {
    EveryDeviceHasArm(desc.device);
    Route(desc.device, EveryDevice, enabled, DestroyCall(desc))
  }

  /** A descriptor's Execute and Destroy reach the backend its Create reached, or all return BAD_DEVICE. */
  lemma RearrangeStagesAgree(handle: Handle, descPtr: Ptr, dst: TensorDesc, src: TensorDesc, desc: OpDescriptor,
                             dstPtr: Ptr, srcPtr: Ptr, stream: Ptr, enabled: set<Device>)
    requires desc.device == handle.device
    ensures var created := CreateRearrange(handle, descPtr, dst, src, enabled);
            && Rearrange(desc, dstPtr, srcPtr, stream, enabled).Forwarded? == created.Forwarded?
            && DestroyRearrange(desc, enabled).Forwarded? == created.Forwarded?
            && (created.Forwarded? ==>
                  && Rearrange(desc, dstPtr, srcPtr, stream, enabled).backend == created.backend
                  && DestroyRearrange(desc, enabled).backend == created.backend)
  {
  }
}
