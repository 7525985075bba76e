/** Worker count clamp and GPU assignment (src/embedder/pool.rs). */
module Devices {
  import opened Numbers

  function AtLeastOne(n: nat): nat { if n == 0 then 1 else n }

  /** GPU providers get at most one worker per device. */
  function WorkerCount(requested: nat, gpuCount: nat, gpu: bool): nat {
    if gpu && requested > AtLeastOne(gpuCount) then AtLeastOne(gpuCount) else requested
  }

  /** `u32::try_from` with a default for what does not fit. */
  function ToU32(n: nat, default: nat): nat { if n <= U32_MAX then n else default }

  function DeviceId(id: nat, gpuCount: nat): nat {
    ToU32(id, 0) % AtLeastOne(ToU32(AtLeastOne(gpuCount), 1))
  }

  ghost predicate DistinctDevices(workers: nat, gpuCount: nat) {
    forall i, j :: 0 <= i < j < workers ==> DeviceId(i, gpuCount) != DeviceId(j, gpuCount)
  }

  /** After the clamp every GPU worker has a device of its own, exactly unless the configured
      device count does not fit a u32, when all of several workers share device 0. */
  lemma DistinctDevicesIff(requested: nat, gpuCount: nat)
    ensures var workers := WorkerCount(requested, gpuCount, true);
      DistinctDevices(workers, gpuCount) <==> workers <= 1 || AtLeastOne(gpuCount) <= U32_MAX
  {
    var workers := WorkerCount(requested, gpuCount, true);
    if AtLeastOne(gpuCount) <= U32_MAX {
      forall i | 0 <= i < workers ensures DeviceId(i, gpuCount) == i {
        SmallRemainder(i, AtLeastOne(gpuCount));
      }
    } else if workers > 1 {
      assert DeviceId(0, gpuCount) == DeviceId(1, gpuCount);
    }
  }

  lemma SmallRemainder(i: nat, g: nat)
    requires i < g
    ensures i % g == i
  {}

  /** The clamp takes no more workers away than it must: a GPU pool is never larger than asked for, has
      a worker if one was asked for, and any more workers would share a device; other providers keep
      the requested count. */
  lemma ClampIsLeast(requested: nat, gpuCount: nat, n: nat)
    ensures WorkerCount(requested, gpuCount, false) == requested
    ensures var workers := WorkerCount(requested, gpuCount, true);
      && workers <= requested && (requested > 0 ==> workers > 0)
      && (workers < n <= requested ==> !DistinctDevices(n, gpuCount))
  {
    var workers, g := WorkerCount(requested, gpuCount, true), AtLeastOne(gpuCount);
    if workers < n <= requested {
      if g <= U32_MAX {
        assert DeviceId(0, gpuCount) == 0 && DeviceId(g, gpuCount) == 0 by {
          DivideUnique(g, g, 1, 0);
        }
      } else {
        assert DeviceId(0, gpuCount) == DeviceId(1, gpuCount);
      }
    }
  }
}
