/** The closed device enumeration of include/device.h (`Device` is `enum DeviceEnum`). */
module Devices {
  import opened Wrappers

  datatype Device = DevCpu | DevNvGpu | DevCambriconMlu | DevAscendNpu | DevMtGpu

  /** The enumerators in declaration order. */
  const AllDevices: seq<Device> := [DevCpu, DevNvGpu, DevCambriconMlu, DevAscendNpu, DevMtGpu]

  /** The integer value C gives each enumerator: its position in the declaration. */
  function Ordinal(d: Device): (r: nat)
    ensures r < |AllDevices| && AllDevices[r] == d
  {
    match d
    case DevCpu => 0
    case DevNvGpu => 1
    case DevCambriconMlu => 2
    case DevAscendNpu => 3
    case DevMtGpu => 4
  }

  /** The enumerator with a given integer value, if there is one. */
  function FromOrdinal(i: int): (r: Option<Device>)
    ensures r.Some? <==> 0 <= i < |AllDevices|
    ensures r.Some? ==> r.value == AllDevices[i]
  {
    if 0 <= i < |AllDevices| then Some(AllDevices[i]) else None
  }

  lemma {:induction false} OrdinalRoundTrip(d: Device)
    ensures FromOrdinal(Ordinal(d)) == Some(d)
  {
  }

  lemma {:induction false} FromOrdinalRoundTrip(i: int)
    requires 0 <= i < |AllDevices|
    ensures FromOrdinal(i).Some? && Ordinal(FromOrdinal(i).value) == i
  {
    var d := AllDevices[i];
    assert Ordinal(d) < 5 && AllDevices[Ordinal(d)] == d;
    DistinctEnumerators();
  }

  /** The five enumerators are pairwise distinct and there are no others. */
  lemma DistinctEnumerators()
    ensures forall i, j :: 0 <= i < j < |AllDevices| ==> AllDevices[i] != AllDevices[j]
    ensures forall d: Device :: d in AllDevices
    ensures |set d: Device | d in AllDevices| == 5
  {
    forall d: Device
      ensures d in AllDevices
    {
      assert AllDevices[Ordinal(d)] == d;
    }
    var s := set d: Device | d in AllDevices;
    assert s == {DevCpu, DevNvGpu, DevCambriconMlu, DevAscendNpu, DevMtGpu};
  }

  lemma FirstAndLastOrdinals()
    ensures Ordinal(DevCpu) == 0 && Ordinal(DevMtGpu) == 4
  {
  }
}
