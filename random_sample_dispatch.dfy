/**
 * The random-sampling entry points (src/ops/random_sample/operator.cc): four
 * stages with an arm for every device kind. The sampling parameters are
 * passed on without any range check at this layer.
 */
module RandomSampleDispatch {
  import opened Devices
  import opened Operators
  import opened Dispatch

  datatype CreateCall = CreateCall(handle: Handle, descPtr: Ptr, result: TensorDesc, probs: TensorDesc)

  datatype WorkspaceCall = WorkspaceCall(desc: OpDescriptor, sizePtr: Ptr)

  /** The sampling parameters are floats (carried as bits) and `topk` a C `int`. */
  datatype SampleCall = SampleCall(desc: OpDescriptor, workspace: Ptr, workspaceSize: U64, result: Ptr, probs: Ptr,
                                   randomVal: Float32, topp: Float32, topk: CInt, temperature: Float32, stream: Ptr)

  datatype DestroyCall = DestroyCall(desc: OpDescriptor)

  /** `infiniopCreateRandomSampleDescriptor`: routes on the handle's device; every arm gets the handle itself. */
  function CreateRandomSample(handle: Handle, descPtr: Ptr, result: TensorDesc, probs: TensorDesc,
                              enabled: set<Device>): (o: Outcome<CreateCall>)
    ensures o.Forwarded? <==> handle.device in enabled
    ensures o.Returned? ==> o.status == BadDevice
    ensures o.Forwarded? ==> o.backend == BackendFor(handle.device) && o.call == CreateCall(handle, descPtr, result, probs)
  {
    EveryDeviceHasArm(handle.device);
    Route(handle.device, EveryDevice, enabled, CreateCall(handle, descPtr, result, probs))
  }

  /** `infiniopGetRandomSampleWorkspaceSize`: routes on the descriptor's device. */
  function GetRandomSampleWorkspaceSize(desc: OpDescriptor, sizePtr: Ptr, enabled: set<Device>)
    : (o: Outcome<WorkspaceCall>)
    ensures o.Forwarded? <==> desc.device in enabled
    ensures o.Returned? ==> o.status == BadDevice
    ensures o.Forwarded? ==> o.backend == BackendFor(desc.device) && o.call == WorkspaceCall(desc, sizePtr)
  {
    EveryDeviceHasArm(desc.device);
    Route(desc.device, EveryDevice, enabled, WorkspaceCall(desc, sizePtr))
  }

  /** `infiniopRandomSample`: every parameter, including any topk, reaches the backend as given. */
  function RandomSample(desc: OpDescriptor, workspace: Ptr, workspaceSize: U64, result: Ptr, probs: Ptr,
                        randomVal: Float32, topp: Float32, topk: CInt, temperature: Float32, stream: Ptr,
                        enabled: set<Device>): (o: Outcome<SampleCall>)
    ensures o.Forwarded? <==> desc.device in enabled
    ensures o.Returned? ==> o.status == BadDevice
    ensures o.Forwarded? ==>
      && o.backend == BackendFor(desc.device)
      && o.call == SampleCall(desc, workspace, workspaceSize, result, probs, randomVal, topp, topk, temperature, stream)
  {
    EveryDeviceHasArm(desc.device);
    Route(desc.device, EveryDevice, enabled,
             SampleCall(desc, workspace, workspaceSize, result, probs, randomVal, topp, topk, temperature, stream))
  }

  /** `infiniopDestroyRandomSampleDescriptor`: routes on the descriptor's device. */
  function DestroyRandomSample(desc: OpDescriptor, enabled: set<Device>): (o: Outcome<DestroyCall>)
    ensures o.Forwarded? <==> desc.device in enabled
    ensures o.Returned? ==> o.status == BadDevice
    ensures o.Forwarded? ==> o.backend == BackendFor(desc.device) && o.call == DestroyCall(desc)
  {
    EveryDeviceHasArm(desc.device);
    Route(desc.device, EveryDevice, enabled, DestroyCall(desc))
  }

  /** A descriptor's later stages reach the backend its Create reached, or all return BAD_DEVICE. */
  lemma RandomSampleStagesAgree(handle: Handle, descPtr: Ptr, result: TensorDesc, probs: TensorDesc,
                                desc: OpDescriptor, sizePtr: Ptr, workspace: Ptr, workspaceSize: U64, resultPtr: Ptr,
                                probsPtr: Ptr, randomVal: Float32, topp: Float32, topk: CInt, temperature: Float32,
                                stream: Ptr, enabled: set<Device>)
    requires desc.device == handle.device
    ensures var created := CreateRandomSample(handle, descPtr, result, probs, enabled);
            var sampled := RandomSample(desc, workspace, workspaceSize, resultPtr, probsPtr, randomVal, topp, topk,
                                        temperature, stream, enabled);
            && GetRandomSampleWorkspaceSize(desc, sizePtr, enabled).Forwarded? == created.Forwarded?
            && sampled.Forwarded? == created.Forwarded?
            && DestroyRandomSample(desc, enabled).Forwarded? == created.Forwarded?
            && (created.Forwarded? ==>
                  && GetRandomSampleWorkspaceSize(desc, sizePtr, enabled).backend == created.backend
                  && sampled.backend == created.backend
                  && DestroyRandomSample(desc, enabled).backend == created.backend)
  {
  }
}
