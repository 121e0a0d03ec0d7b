/** Whole runs of the core on concrete devices: names interned into a cache,
    their ids inserted into a set, and the picker asked about the set. */
module Scenarios {
  import opened Status
  import opened DeviceSets
  import opened DeviceInfoCaches
  import opened PickDevices

  const Cpu0: string := "/device:CPU:0"
  const Cpu1: string := "/device:CPU:1"
  const Gpu0: string := "/device:GPU:0"
  const Tpu0: string := "/device:TPU:0"

  /** A parser that knows two CPUs, a GPU and a TPU by their full names. */
  function KnownDevices(name: string): Option<string>
  {
    if name == Cpu0 || name == Cpu1 then Some(DeviceCpu)
    else if name == Gpu0 then Some(DeviceGpu)
    else if name == Tpu0 then Some("TPU")
    else None
  }

  /** A cache that has interned `first` and then `second`, two new names that
      both parse: they get ids 0 and 1 and are classified by their types. */
  method CacheOf(first: string, second: string) returns (cache: DeviceInfoCache)
    requires first != [] && second != [] && first != second
    requires KnownDevices(first).Some? && KnownDevices(second).Some?
    ensures cache.names == [first, second]
    ensures cache.nameToId == map[first := 0, second := 1]
    ensures cache.isCpu == [KnownDevices(first).value == DeviceCpu, KnownDevices(second).value == DeviceCpu]
    ensures cache.isGpu == [KnownDevices(first).value == DeviceGpu, KnownDevices(second).value == DeviceGpu]
  {
    cache := new DeviceInfoCache();
    var a := cache.GetIdFor(first, KnownDevices, NoRegistrations);
    assert a == Success(0) && cache.nameToId == map[first := 0];
    var b := cache.GetIdFor(second, KnownDevices, NoRegistrations);
    assert b == Success(1);
  }

  /** The set holding ids 0 and 1. */
  method FirstTwo() returns (devices: DeviceSet)
    ensures devices.Contents() == {0, 1}
    ensures forall id: nat :: InStorage(devices.storage, id) ==> id < 2
  {
    devices := new DeviceSet();
    devices.Insert(0);
    devices.Insert(1);
    forall id: nat | InStorage(devices.storage, id) ensures id < 2 {
      assert id in devices.Contents();
    }
  }

  /** The cache of `first` and `second` and the set of both ids. */
  method TwoDevices(first: string, second: string) returns (cache: DeviceInfoCache, devices: DeviceSet)
    requires first != [] && second != [] && first != second
    requires KnownDevices(first).Some? && KnownDevices(second).Some?
    ensures cache.names == [first, second]
    ensures cache.isCpu == [KnownDevices(first).value == DeviceCpu, KnownDevices(second).value == DeviceCpu]
    ensures cache.isGpu == [KnownDevices(first).value == DeviceGpu, KnownDevices(second).value == DeviceGpu]
    ensures devices.Contents() == {0, 1}
    ensures Classifiable(cache.isCpu, cache.isGpu, devices.storage)
    ensures Named(cache.names, devices.storage)
  {
    cache := CacheOf(first, second);
    devices := FirstTwo();
  }

  /** The GPU is preferred to the CPU. */
  method PickFromCpuAndGpu() returns (r: Result<nat>)
    ensures r == Success(1)
  {
    var cache, devices := TwoDevices(Cpu0, Gpu0);
    r := PickDeviceForXla(cache, devices, false);
    assert KindOf(cache.isCpu, cache.isGpu, 1) == Gpu;
    assert KindOf(cache.isCpu, cache.isGpu, 0) == Cpu;
    assert Feasible(cache.isCpu, cache.isGpu, {0, 1}, false);
  }

  /** Two CPUs cannot be picked from: CanPickDeviceForXla answers false, and
      PickDeviceForXla reports the repeated CPU. */
  method PickFromTwoCpus() returns (can: Result<bool>, r: Result<nat>)
    ensures can == Success(false)
    ensures r == Failure(FailedToPickDevice(MultipleCpuDevices))
  {
    var cache, devices := TwoDevices(Cpu0, Cpu1);
    assert Several(cache.isCpu, cache.isGpu, {0, 1}, Cpu) by {
      assert KindOf(cache.isCpu, cache.isGpu, 0) == Cpu && KindOf(cache.isCpu, cache.isGpu, 1) == Cpu;
    }
    can := CanPickDeviceForXla(cache, devices, false);
    r := PickDeviceForXla(cache, devices, false);
    assert !Several(cache.isCpu, cache.isGpu, {0, 1}, Gpu);
    assert !Several(cache.isCpu, cache.isGpu, {0, 1}, Unknown);
  }

  /** An unknown device and a CPU: the unknown device is picked when mixing is
      allowed, and the pair is refused otherwise. */
  method PickFromCpuAndUnknown() returns (mixed: Result<nat>, unmixed: Result<nat>)
    ensures mixed == Success(1)
    ensures unmixed == Failure(FailedToPickDevice(UnknownAndCpuDevices))
  {
    var cache, devices := TwoDevices(Cpu0, Tpu0);
    assert KindOf(cache.isCpu, cache.isGpu, 0) == Cpu;
    assert KindOf(cache.isCpu, cache.isGpu, 1) == Unknown;
    assert !Has(cache.isCpu, cache.isGpu, {0, 1}, Gpu);
    assert !Several(cache.isCpu, cache.isGpu, {0, 1}, Cpu);
    assert !Several(cache.isCpu, cache.isGpu, {0, 1}, Unknown);
    mixed := PickDeviceForXla(cache, devices, true);
    unmixed := PickDeviceForXla(cache, devices, false);
  }

  /** An empty set is an error for both entry points, not a "cannot pick". */
  method PickFromNothing() returns (can: Result<bool>, r: Result<nat>)
    ensures can == Failure(NoDevicesToChooseFrom)
    ensures r == Failure(NoDevicesToChooseFrom)
  {
    var cache := new DeviceInfoCache();
    var devices := new DeviceSet();
    can := CanPickDeviceForXla(cache, devices, true);
    r := PickDeviceForXla(cache, devices, true);
  }

  /** DebugString of a CPU and a GPU names only the CPU. */
  method RenderCpuAndGpu() returns (r: string)
    ensures r == "[" + Cpu0 + "]"
  {
    var cache, devices := TwoDevices(Cpu0, Gpu0);
    AscendingUnique(Members(devices.storage), [0, 1]);
    r := cache.DebugString(devices);
    assert NamesOf(cache.names, [0]) == [Cpu0];
  }

  /** Listing every member of the same set gives both names, the CPU first. */
  method RenderAllCpuAndGpu() returns (r: string)
    ensures r == "[" + (Cpu0 + "," + Gpu0) + "]"
  {
    var cache, devices := TwoDevices(Cpu0, Gpu0);
    AscendingUnique(Members(devices.storage), [0, 1]);
    r := cache.DebugStringAll(devices);
    assert NamesOf(cache.names, [0, 1]) == [Cpu0, Gpu0];
    assert Join([Cpu0, Gpu0], ",") == Cpu0 + "," + Gpu0 by {
      assert [Cpu0, Gpu0][1..] == [Gpu0];
    }
  }
}
