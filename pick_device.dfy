/** The device-selection policy of the XLA JIT (PickDeviceForXlaImpl and its two
    entry points): one pass over a device set that puts each device into the GPU,
    CPU or unknown bucket, then a verdict on the buckets. */
module PickDevices {
  import opened Status
  import opened DeviceSets
  import opened DeviceInfoCaches

  /** How the cache classifies a device: IsGpu is asked first, then IsCpu. */
  datatype Kind = Gpu | Cpu | Unknown

  /** The kind of `id` according to is_gpu_ and is_cpu_. An id past the end of
      those vectors never gets here: the picker requires every member to have
      flags. */
  function KindOf(isCpu: seq<bool>, isGpu: seq<bool>, id: nat): Kind
  {
    if id < |isGpu| && isGpu[id] then Gpu
    else if id < |isCpu| && isCpu[id] then Cpu
    else Unknown
  }

  /** Every member of the set stored in `s` has both flags (IsCpu and IsGpu index
      the vectors directly). */
  ghost predicate Classifiable(isCpu: seq<bool>, isGpu: seq<bool>, s: seq<Word>)
  {
    forall id: nat :: InStorage(s, id) ==> id < |isCpu| && id < |isGpu|
  }

  // ---------------------------------------------------------------------------
  // The policy on sets of devices

  /** Some device of `ids` has kind `k`. */
  ghost predicate Has(isCpu: seq<bool>, isGpu: seq<bool>, ids: set<nat>, k: Kind)
  {
    exists id :: id in ids && KindOf(isCpu, isGpu, id) == k
  }

  /** Two different devices of `ids` have kind `k`. */
  ghost predicate Several(isCpu: seq<bool>, isGpu: seq<bool>, ids: set<nat>, k: Kind)
  {
    exists a, b :: a in ids && b in ids && a != b && KindOf(isCpu, isGpu, a) == k && KindOf(isCpu, isGpu, b) == k
  }

  /** A single device can be picked from `ids`: at most one device of each kind,
      never an unknown device together with a GPU, and an unknown device together
      with a CPU only when mixing them is allowed. */
  ghost predicate Feasible(isCpu: seq<bool>, isGpu: seq<bool>, ids: set<nat>, allowMix: bool)
  {
    && !Several(isCpu, isGpu, ids, Gpu)
    && !Several(isCpu, isGpu, ids, Cpu)
    && !Several(isCpu, isGpu, ids, Unknown)
    && !(Has(isCpu, isGpu, ids, Unknown) && Has(isCpu, isGpu, ids, Gpu))
    && (allowMix || !(Has(isCpu, isGpu, ids, Unknown) && Has(isCpu, isGpu, ids, Cpu)))
  }

  /** The kind the picked device has: a GPU if there is one, else an unknown
      device if there is one, else a CPU. */
  ghost function Preferred(isCpu: seq<bool>, isGpu: seq<bool>, ids: set<nat>): Kind
  {
    if Has(isCpu, isGpu, ids, Gpu) then Gpu
    else if Has(isCpu, isGpu, ids, Unknown) then Unknown
    else Cpu
  }

  /** The conflict `c` is a reason why `ids` is not feasible. A repeated kind
      can only be reported when that kind is repeated. Each mixed-kind conflict
      is reported only when no kind is repeated and no earlier check fires. */
  ghost predicate Explains(isCpu: seq<bool>, isGpu: seq<bool>, ids: set<nat>, allowMix: bool, c: Conflict)
  {
    var noneRepeated := !Several(isCpu, isGpu, ids, Gpu) && !Several(isCpu, isGpu, ids, Cpu)
      && !Several(isCpu, isGpu, ids, Unknown);
    match c
    case MultipleCpuDevices => Several(isCpu, isGpu, ids, Cpu)
    case MultipleGpuDevices => Several(isCpu, isGpu, ids, Gpu)
    case MultipleUnknownDevices => Several(isCpu, isGpu, ids, Unknown)
    case UnknownAndGpuDevices =>
      noneRepeated && Has(isCpu, isGpu, ids, Unknown) && Has(isCpu, isGpu, ids, Gpu)
    case UnknownAndCpuDevices =>
      && noneRepeated && !allowMix && !Has(isCpu, isGpu, ids, Gpu)
      && Has(isCpu, isGpu, ids, Unknown) && Has(isCpu, isGpu, ids, Cpu)
  }

  /** Every conflict the policy may report for `ids` is a genuine reason why no
      device can be picked from it. */
  lemma ExplainedIsInfeasible(isCpu: seq<bool>, isGpu: seq<bool>, ids: set<nat>, allowMix: bool, c: Conflict)
    requires Explains(isCpu, isGpu, ids, allowMix, c)
    ensures !Feasible(isCpu, isGpu, ids, allowMix)
  {
  }

  // ---------------------------------------------------------------------------
  // The pass over the set

  /** The locals the ForEach callback updates: maybe_gpu_device, maybe_cpu_device,
      maybe_unknown_device and the three multiple_* flags. */
  datatype Buckets = Buckets(
    gpu: Option<nat>, cpu: Option<nat>, unknown: Option<nat>,
    multipleGpu: bool, multipleCpu: bool, multipleUnknown: bool)

  const NoBuckets := Buckets(None, None, None, false, false, false)

  /** The callback has returned false, ending the pass. */
  predicate Stopped(b: Buckets)
  {
    b.multipleGpu || b.multipleCpu || b.multipleUnknown
  }

  /** One call of the callback: a second device of a kind raises that kind's
      flag (and returns false); otherwise the device fills its kind's bucket. */
  function Visit(b: Buckets, k: Kind, id: nat): Buckets
  {
    match k
    case Gpu => if b.gpu.Some? then b.(multipleGpu := true) else b.(gpu := Some(id))
    case Cpu => if b.cpu.Some? then b.(multipleCpu := true) else b.(cpu := Some(id))
    case Unknown => if b.unknown.Some? then b.(multipleUnknown := true) else b.(unknown := Some(id))
  }

  /** The buckets after ForEach has offered the callback every member below `k`,
      in ascending order, stopping at the first call that returns false. */
  function PassBelow(isCpu: seq<bool>, isGpu: seq<bool>, s: seq<Word>, k: nat): Buckets
  {
    if k == 0 then NoBuckets
    else
      var b := PassBelow(isCpu, isGpu, s, k - 1);
      if InStorage(s, k - 1) && !Stopped(b) then Visit(b, KindOf(isCpu, isGpu, k - 1), k - 1) else b
  }

  /** The members below `k`. */
  ghost function ElementsBelow(s: seq<Word>, k: nat): set<nat>
  {
    set id: nat | id < k && InStorage(s, id)
  }

  /** A bucket describes the devices of kind `k` in `ids`: empty when there is
      none, else the only one. */
  ghost predicate Holds(isCpu: seq<bool>, isGpu: seq<bool>, bucket: Option<nat>, ids: set<nat>, k: Kind)
  {
    match bucket
    case None => !Has(isCpu, isGpu, ids, k)
    case Some(id) => id in ids && KindOf(isCpu, isGpu, id) == k && !Several(isCpu, isGpu, ids, k)
  }

  /** What the buckets say about the devices offered so far: a raised flag means
      its kind is repeated; until a flag is raised, each bucket describes its kind. */
  ghost predicate Summarizes(isCpu: seq<bool>, isGpu: seq<bool>, b: Buckets, ids: set<nat>)
  {
    && (b.multipleGpu ==> Several(isCpu, isGpu, ids, Gpu))
    && (b.multipleCpu ==> Several(isCpu, isGpu, ids, Cpu))
    && (b.multipleUnknown ==> Several(isCpu, isGpu, ids, Unknown))
    && (!Stopped(b) ==>
          && Holds(isCpu, isGpu, b.gpu, ids, Gpu)
          && Holds(isCpu, isGpu, b.cpu, ids, Cpu)
          && Holds(isCpu, isGpu, b.unknown, ids, Unknown))
  }

  /** A repeated kind stays repeated when more devices are offered. */
  lemma SeveralGrows(isCpu: seq<bool>, isGpu: seq<bool>, ids: set<nat>, more: set<nat>, k: Kind)
    requires ids <= more && Several(isCpu, isGpu, ids, k)
    ensures Several(isCpu, isGpu, more, k)
  {
    var a, b :| a in ids && b in ids && a != b && KindOf(isCpu, isGpu, a) == k && KindOf(isCpu, isGpu, b) == k;
    assert a in more && b in more;
  }

  /** A device of another kind does not add a device of kind `k`. */
  lemma HasShrinks(isCpu: seq<bool>, isGpu: seq<bool>, ids: set<nat>, id: nat, k: Kind)
    requires KindOf(isCpu, isGpu, id) != k
    ensures Has(isCpu, isGpu, ids + {id}, k) == Has(isCpu, isGpu, ids, k)
  {
    if Has(isCpu, isGpu, ids + {id}, k) {
      var a :| a in ids + {id} && KindOf(isCpu, isGpu, a) == k;
      assert a in ids && KindOf(isCpu, isGpu, a) == k;
    }
  }

  /** A device of another kind does not repeat kind `k`. */
  lemma SeveralShrinks(isCpu: seq<bool>, isGpu: seq<bool>, ids: set<nat>, id: nat, k: Kind)
    requires KindOf(isCpu, isGpu, id) != k && Several(isCpu, isGpu, ids + {id}, k)
    ensures Several(isCpu, isGpu, ids, k)
  {
    var a, c :| a in ids + {id} && c in ids + {id} && a != c && KindOf(isCpu, isGpu, a) == k && KindOf(isCpu, isGpu, c) == k;
    assert a in ids && c in ids;
  }

  /** Offering one more, new device keeps the summary true. */
  lemma VisitSummarizes(isCpu: seq<bool>, isGpu: seq<bool>, b: Buckets, ids: set<nat>, id: nat)
    requires Summarizes(isCpu, isGpu, b, ids) && !Stopped(b) && id !in ids
    ensures Summarizes(isCpu, isGpu, Visit(b, KindOf(isCpu, isGpu, id), id), ids + {id})
  {
    var more := ids + {id};
    var k := KindOf(isCpu, isGpu, id);
    var after := Visit(b, k, id);
    forall j: Kind | j != k
      ensures Has(isCpu, isGpu, more, j) == Has(isCpu, isGpu, ids, j)
      ensures Several(isCpu, isGpu, more, j) == Several(isCpu, isGpu, ids, j)
    {
      HasShrinks(isCpu, isGpu, ids, id, j);
      if Several(isCpu, isGpu, more, j) {
        SeveralShrinks(isCpu, isGpu, ids, id, j);
      }
      if Several(isCpu, isGpu, ids, j) {
        SeveralGrows(isCpu, isGpu, ids, more, j);
      }
    }
    assert Has(isCpu, isGpu, more, k) by {
      assert id in more;
    }
    var bucket := match k case Gpu => b.gpu case Cpu => b.cpu case Unknown => b.unknown;
    if bucket.Some? {
      assert bucket.value in more && bucket.value != id;
      assert Several(isCpu, isGpu, more, k);
    } else {
      forall a, c | a in more && c in more && KindOf(isCpu, isGpu, a) == k && KindOf(isCpu, isGpu, c) == k
        ensures a == c
      {
        assert a !in ids && c !in ids;
      }
    }
  }

  /** The pass leaves buckets that summarize the members it was offered. */
  lemma {:induction false} PassSummarizes(isCpu: seq<bool>, isGpu: seq<bool>, s: seq<Word>, k: nat)
    ensures Summarizes(isCpu, isGpu, PassBelow(isCpu, isGpu, s, k), ElementsBelow(s, k))
  {
    if k > 0 {
      var before, id := ElementsBelow(s, k - 1), k - 1;
      PassSummarizes(isCpu, isGpu, s, k - 1);
      var b := PassBelow(isCpu, isGpu, s, k - 1);
      if InStorage(s, id) {
        assert ElementsBelow(s, k) == before + {id};
        if Stopped(b) {
          if b.multipleGpu { SeveralGrows(isCpu, isGpu, before, before + {id}, Gpu); }
          if b.multipleCpu { SeveralGrows(isCpu, isGpu, before, before + {id}, Cpu); }
          if b.multipleUnknown { SeveralGrows(isCpu, isGpu, before, before + {id}, Unknown); }
        } else {
          VisitSummarizes(isCpu, isGpu, b, before, id);
        }
      } else {
        assert ElementsBelow(s, k) == before;
      }
    }
  }

  /** Once the pass has stopped, offering more ids changes nothing. */
  lemma {:induction false} PassStays(isCpu: seq<bool>, isGpu: seq<bool>, s: seq<Word>, k: nat, n: nat)
    requires k <= n && Stopped(PassBelow(isCpu, isGpu, s, k))
    ensures PassBelow(isCpu, isGpu, s, n) == PassBelow(isCpu, isGpu, s, k)
    decreases n - k
  {
    if k < n {
      PassStays(isCpu, isGpu, s, k + 1, n);
    }
  }

  /** The pass over the whole storage is offered every member. */
  lemma ElementsBelowAll(s: seq<Word>)
    ensures ElementsBelow(s, |s| * WordSize) == Elements(s)
  {
    forall id: nat | InStorage(s, id) ensures id < |s| * WordSize {
      MembersInRange(s, id);
    }
  }

  /** The pass over a set with a member fills a bucket or stops. */
  lemma PassNonEmpty(isCpu: seq<bool>, isGpu: seq<bool>, s: seq<Word>)
    requires Elements(s) != {}
    ensures var b := PassBelow(isCpu, isGpu, s, |s| * WordSize);
      Stopped(b) || b.gpu.Some? || b.cpu.Some? || b.unknown.Some?
  {
    var ids := Elements(s);
    PassSummarizes(isCpu, isGpu, s, |s| * WordSize);
    ElementsBelowAll(s);
    var id :| id in ids;
    assert Has(isCpu, isGpu, ids, KindOf(isCpu, isGpu, id));
  }

  // ---------------------------------------------------------------------------
  // The verdict

  /** What the policy decides: a device, or the conflict that makes it infeasible. */
  datatype Selection = Picked(id: nat) | Infeasible(conflict: Conflict)

  /** The checks after the pass, in the source's order: repeated CPU, repeated
      GPU, repeated unknown, unknown with GPU, unknown with CPU (unless allowed);
      then the pick, GPU before unknown before CPU. */
  function Decide(b: Buckets, allowMix: bool): (r: Selection)
    requires Stopped(b) || b.gpu.Some? || b.cpu.Some? || b.unknown.Some?
    ensures r.Infeasible? && r.conflict.MultipleCpuDevices? ==> b.multipleCpu
    ensures r.Infeasible? && r.conflict.MultipleGpuDevices? ==> b.multipleGpu
    ensures r.Infeasible? && r.conflict.MultipleUnknownDevices? ==> b.multipleUnknown
    ensures r.Picked? ==> !Stopped(b) && Some(r.id) in {b.gpu, b.cpu, b.unknown}
  {
    if b.multipleCpu then Infeasible(MultipleCpuDevices)
    else if b.multipleGpu then Infeasible(MultipleGpuDevices)
    else if b.multipleUnknown then Infeasible(MultipleUnknownDevices)
    else if b.unknown.Some? && b.gpu.Some? then Infeasible(UnknownAndGpuDevices)
    else if !allowMix && b.unknown.Some? && b.cpu.Some? then Infeasible(UnknownAndCpuDevices)
    else if b.gpu.Some? then Picked(b.gpu.value)
    else if b.unknown.Some? then Picked(b.unknown.value)
    else Picked(b.cpu.value)
  }

  /** The verdict on a non-empty set: the pass over its members, then Decide. */
  ghost function Verdict(isCpu: seq<bool>, isGpu: seq<bool>, s: seq<Word>, allowMix: bool): Selection
    requires Elements(s) != {}
  {
    PassNonEmpty(isCpu, isGpu, s);
    Decide(PassBelow(isCpu, isGpu, s, |s| * WordSize), allowMix)
  }

  /** The verdict follows the policy: a device is picked exactly when the set is
      feasible; the picked device is a member of the preferred kind and the only
      one of that kind; an infeasible set is reported with a conflict that
      explains it. */
  lemma VerdictMeaning(isCpu: seq<bool>, isGpu: seq<bool>, s: seq<Word>, allowMix: bool)
    requires Elements(s) != {}
    ensures var v := Verdict(isCpu, isGpu, s, allowMix);
      var ids := Elements(s);
      && (v.Picked? <==> Feasible(isCpu, isGpu, ids, allowMix))
      && (v.Picked? ==>
            && v.id in ids
            && KindOf(isCpu, isGpu, v.id) == Preferred(isCpu, isGpu, ids)
            && !Several(isCpu, isGpu, ids, KindOf(isCpu, isGpu, v.id)))
      && (v.Infeasible? ==> Explains(isCpu, isGpu, ids, allowMix, v.conflict))
  {
    PassSummarizes(isCpu, isGpu, s, |s| * WordSize);
    ElementsBelowAll(s);
    var b := PassBelow(isCpu, isGpu, s, |s| * WordSize);
    var ids := Elements(s);
    if !Stopped(b) {
      assert Holds(isCpu, isGpu, b.gpu, ids, Gpu);
      assert Holds(isCpu, isGpu, b.cpu, ids, Cpu);
      assert Holds(isCpu, isGpu, b.unknown, ids, Unknown);
    }
  }

  // ---------------------------------------------------------------------------
  // The picker

  /** The pass of PickDeviceForXlaImpl: devices.ForEach with the callback that
      fills maybe_gpu_device, maybe_cpu_device and maybe_unknown_device and
      raises a multiple_* flag, returning false, at the second device of a kind. */
  method BucketDevices(isCpu: seq<bool>, isGpu: seq<bool>, storage: seq<Word>) returns (buckets: Buckets)
    requires Classifiable(isCpu, isGpu, storage)
    ensures buckets == PassBelow(isCpu, isGpu, storage, |storage| * WordSize)
  {
    var limit := |storage| * WordSize;
    var maybeGpu: Option<nat>, maybeCpu: Option<nat>, maybeUnknown: Option<nat> := None, None, None;
    var multipleCpu, multipleGpu, multipleUnknown := false, false, false;
    var id := 0;
    // ForEach offers the members in ascending order until the callback returns false.
    while id < limit && !multipleGpu && !multipleCpu && !multipleUnknown
      invariant id <= limit
      invariant Buckets(maybeGpu, maybeCpu, maybeUnknown, multipleGpu, multipleCpu, multipleUnknown)
        == PassBelow(isCpu, isGpu, storage, id)
    {
      if InStorage(storage, id) {
        if isGpu[id] {
          if maybeGpu.Some? {
            multipleGpu := true;
          } else {
            maybeGpu := Some(id);
          }
        } else if isCpu[id] {
          if maybeCpu.Some? {
            multipleCpu := true;
          } else {
            maybeCpu := Some(id);
          }
        } else {
          if maybeUnknown.Some? {
            multipleUnknown := true;
          } else {
            maybeUnknown := Some(id);
          }
        }
      }
      id := id + 1;
    }
    buckets := Buckets(maybeGpu, maybeCpu, maybeUnknown, multipleGpu, multipleCpu, multipleUnknown);
    if Stopped(buckets) {
      PassStays(isCpu, isGpu, storage, id, limit);
    }
  }

  /** PickDeviceForXlaImpl. `wantCanPick` says whether the caller passed
      out_can_pick_device; the DCHECK demands that exactly one of the two
      out-parameters is passed, so otherwise out_device_picked is. The outputs
      are the status, *out_can_pick_device (None when not passed) and
      *out_device_picked (None when not passed or not written). */
  method PickDeviceForXlaImpl(cache: DeviceInfoCache, devices: DeviceSet, allowMix: bool, wantCanPick: bool)
    returns (status: Outcome, canPick: Option<bool>, picked: Option<nat>)
    requires Classifiable(cache.isCpu, cache.isGpu, devices.storage)
    ensures devices.Contents() == {} ==>
      && status == Fail(NoDevicesToChooseFrom)
      && canPick == (if wantCanPick then Some(true) else None)
      && picked == None
    ensures devices.Contents() != {} ==>
      var v := Verdict(cache.isCpu, cache.isGpu, devices.storage, allowMix);
      && (wantCanPick ==> status == Pass && canPick == Some(v.Picked?) && picked == None)
      && (!wantCanPick ==> canPick == None)
      && (!wantCanPick && v.Picked? ==> status == Pass && picked == Some(v.id))
      && (!wantCanPick && v.Infeasible? ==> status == Fail(FailedToPickDevice(v.conflict)) && picked == None)
  {
    canPick := if wantCanPick then Some(true) else None;
    picked := None;
    if devices.IsEmpty() {
      return Fail(NoDevicesToChooseFrom), canPick, picked;
    }

    var storage, isCpu, isGpu := devices.storage, cache.isCpu, cache.isGpu;
    var buckets := BucketDevices(isCpu, isGpu, storage);
    PassNonEmpty(isCpu, isGpu, storage);
    var selection := Decide(buckets, allowMix);
    assert selection == Verdict(isCpu, isGpu, storage, allowMix);
    match selection
    case Infeasible(conflict) =>
      if wantCanPick {
        canPick := Some(false);
        status := Pass;
      } else {
        status := Fail(FailedToPickDevice(conflict));
      }
    case Picked(device) =>
      if !wantCanPick {
        picked := Some(device);
      }
      status := Pass;
  }

  /** PickDeviceForXla: the device the policy picks, or why there is none. */
  method PickDeviceForXla(cache: DeviceInfoCache, devices: DeviceSet, allowMix: bool) returns (r: Result<nat>)
    requires Classifiable(cache.isCpu, cache.isGpu, devices.storage)
    ensures devices.Contents() == {} ==> r == Failure(NoDevicesToChooseFrom)
    ensures devices.Contents() != {} ==>
      (r.Success? <==> Feasible(cache.isCpu, cache.isGpu, devices.Contents(), allowMix))
    ensures r.Success? ==>
      && r.value in devices.Contents()
      && KindOf(cache.isCpu, cache.isGpu, r.value) == Preferred(cache.isCpu, cache.isGpu, devices.Contents())
    ensures r.Failure? && devices.Contents() != {} ==>
      && r.error.FailedToPickDevice?
      && Explains(cache.isCpu, cache.isGpu, devices.Contents(), allowMix, r.error.conflict)
  {
    var status, _, device := PickDeviceForXlaImpl(cache, devices, allowMix, false);
    if devices.Contents() != {} {
      VerdictMeaning(cache.isCpu, cache.isGpu, devices.storage, allowMix);
    }
    if status.Fail? {
      return Failure(status.error);
    }
    return Success(device.value);
  }

  /** CanPickDeviceForXla: whether the policy can pick a device. An infeasible set
      is a successful false; only an empty set is an error. */
  method CanPickDeviceForXla(cache: DeviceInfoCache, devices: DeviceSet, allowMix: bool) returns (r: Result<bool>)
    requires Classifiable(cache.isCpu, cache.isGpu, devices.storage)
    ensures devices.Contents() == {} ==> r == Failure(NoDevicesToChooseFrom)
    ensures devices.Contents() != {} ==>
      r == Success(Feasible(cache.isCpu, cache.isGpu, devices.Contents(), allowMix))
  {
    var status, canPick, _ := PickDeviceForXlaImpl(cache, devices, allowMix, true);
    if devices.Contents() != {} {
      VerdictMeaning(cache.isCpu, cache.isGpu, devices.storage, allowMix);
    }
    if status.Fail? {
      return Failure(status.error);
    }
    return Success(canPick.value);
  }
}
