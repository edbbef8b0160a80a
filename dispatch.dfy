/**
 * The switch every generic entry point performs: read a device tag (from the
 * handle at Create, from the descriptor afterwards), call the backend of that
 * device's arm with the arguments it was given, or fall through to
 * BAD_DEVICE. Which arms exist depends on the operator and on which devices
 * the build enabled; the build configuration is the `enabled` set.
 */
module Dispatch {
  import opened Devices
  import opened Operators

  /** The backend family an arm calls: the cpu*, cuda*, bang*, aclnn* and musa* functions. */
  datatype Backend = CpuBackend | CudaBackend | BangBackend | AclnnBackend | MusaBackend

  /** Each device kind's arm calls its own backend family. */
  function BackendFor(d: Device): Backend
  {
    match d
    case DevCpu => CpuBackend
    case DevNvGpu => CudaBackend
    case DevCambriconMlu => BangBackend
    case DevAscendNpu => AclnnBackend
    case DevMtGpu => MusaBackend
  }

  /** No two device kinds share a backend, so the backend called identifies the tag that was read. */
  lemma BackendForIsInjective(d1: Device, d2: Device)
    ensures BackendFor(d1) == BackendFor(d2) <==> d1 == d2
  {
  }

  /** The arms of an operator that handles every device kind. */
  const EveryDevice: set<Device> := {DevCpu, DevNvGpu, DevCambriconMlu, DevAscendNpu, DevMtGpu}

  lemma EveryDeviceHasArm(d: Device)
    ensures d in EveryDevice
  {
    match d
    case DevCpu =>
    case DevNvGpu =>
    case DevCambriconMlu =>
    case DevAscendNpu =>
    case DevMtGpu =>
  }

  /**
   * What an entry point does: forward `call` to a backend and return that
   * backend's status unchanged, or return a status of its own.
   */
  datatype Outcome<A> = Forwarded(backend: Backend, call: A) | Returned(status: Status)

  /** A stage's switch over `tag`, where `arms` are the cases the operator writes. */
  function Route<A>(tag: Device, arms: set<Device>, enabled: set<Device>, call: A): (o: Outcome<A>)
    ensures o.Forwarded? <==> tag in arms && tag in enabled
    ensures o.Forwarded? ==> o.backend == BackendFor(tag) && o.call == call
    ensures o.Returned? ==> o.status == BadDevice
  {
    if tag in arms && tag in enabled then Forwarded(BackendFor(tag), call) else Returned(BadDevice)
  }

  /**
   * Two stages of one operator that read the same tag and have the same arms
   * agree: both reach the same backend, or both return BAD_DEVICE.
   */
  lemma SameTagSameRoute<A, B>(tag: Device, arms: set<Device>, enabled: set<Device>, a: A, b: B)
    ensures Route(tag, arms, enabled, a).Forwarded? == Route(tag, arms, enabled, b).Forwarded?
    ensures Route(tag, arms, enabled, a).Forwarded? ==>
              Route(tag, arms, enabled, a).backend == Route(tag, arms, enabled, b).backend
  {
  }

  /** A device without an arm is refused whatever the build enables. */
  lemma NoArmIsBadDevice<A>(tag: Device, arms: set<Device>, enabled: set<Device>, call: A)
    requires tag !in arms
    ensures Route(tag, arms, enabled, call) == Returned(BadDevice)
  {
  }
}
