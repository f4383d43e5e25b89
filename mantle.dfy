/** Device, queue and command-buffer translation (src/mantle/mantle.c).
    Every target-API call that answers with a value is a parameter that receives
    exactly the arguments the shim passes; instance destruction is recorded in a
    ghost log, and the two enumeration queries are given as the lists they report.
    The process-wide state (allocator pair and instance) is the class
    `Runtime`; grCreateDevice is a method over the arrays it allocates, with a ghost
    ledger of the buffers it allocates and frees. */
module Mantle {
  import opened MantleTypes

  // ---------------------------------------------------------------------------
  // Queue type to family index (getVkQueueFamilyIndex)
  // ---------------------------------------------------------------------------

  /** The family index the shim derives from a legacy queue type by subtraction,
      converted to `uint32_t` as C does. It is not consulted against the family scan
      of `CreateDevice` (see `SubtractionCanDisagreeWithScan`). */
  function QueueFamilyIndex(queueType: int): (index: nat)
    ensures index < Uint32Modulus
    ensures (index - (queueType - QueueUniversal)) % Uint32Modulus == 0
    ensures QueueUniversal <= queueType < QueueUniversal + Uint32Modulus ==> index == queueType - QueueUniversal
  {
    (queueType - QueueUniversal) % Uint32Modulus
  }

  // ---------------------------------------------------------------------------
  // Queue-family scan (grCreateDevice, first loop)
  // ---------------------------------------------------------------------------

  /** VkQueueFamilyProperties, reduced to what the scan reads. */
  datatype QueueFamilyProperties = QueueFamilyProperties(queueFlags: bv32, queueCount: nat)

  /** The two kinds of family the scan looks for. */
  datatype FamilyKind = UniversalFamily | ComputeFamily

  /** A family is universal when its flags hold both the graphics and the compute bit,
      and compute when they hold the compute bit but not both. */
  predicate IsKind(family: QueueFamilyProperties, kind: FamilyKind)
  {
    var both := VkQueueGraphicsBit | VkQueueComputeBit;
    match kind
    case UniversalFamily => family.queueFlags & both == both
    case ComputeFamily => family.queueFlags & both != both && family.queueFlags & VkQueueComputeBit == VkQueueComputeBit
  }

  /** The index of the last family of the given kind, if any. */
  function LastOfKind(families: seq<QueueFamilyProperties>, kind: FamilyKind): (r: Option<nat>)
    ensures r.Some? ==>
      r.value < |families| && IsKind(families[r.value], kind) &&
      forall j :: r.value < j < |families| ==> !IsKind(families[j], kind)
    ensures r.None? ==> forall j :: 0 <= j < |families| ==> !IsKind(families[j], kind)
  {
    if families == [] then None
    else if IsKind(families[|families| - 1], kind) then Some(|families| - 1)
    else LastOfKind(families[..|families| - 1], kind)
  }

  /** `(uint32_t)-1`: the index of a kind of family that was never found. */
  const NoFamily: nat := 0xFFFF_FFFF

  /** What the scan learns: the index and queue count of the universal and of the
      compute family. */
  datatype FamilyScan = FamilyScan(universalIndex: nat, universalCount: nat, computeIndex: nat, computeCount: nat)

  /** `index` and `count` are those of the last family of `kind`, or NoFamily and 0
      when no family is of that kind. */
  ghost predicate RecordsLastOfKind(families: seq<QueueFamilyProperties>, kind: FamilyKind, index: nat, count: nat)
  {
    (index == NoFamily <==> forall j :: 0 <= j < |families| ==> !IsKind(families[j], kind)) &&
    (index == NoFamily ==> count == 0) &&
    (index != NoFamily ==>
       index < |families| && IsKind(families[index], kind) && count == families[index].queueCount &&
       forall j :: index < j < |families| ==> !IsKind(families[j], kind))
  }

  /** The outcome of the scan over a device's families: the last match of each kind
      wins. `families` has at most `uint32_t`'s range of entries, as its count is one. */
  function ScanFamilies(families: seq<QueueFamilyProperties>): (scan: FamilyScan)
    requires |families| < Uint32Modulus
    ensures RecordsLastOfKind(families, UniversalFamily, scan.universalIndex, scan.universalCount)
    ensures RecordsLastOfKind(families, ComputeFamily, scan.computeIndex, scan.computeCount)
  {
    var universal := LastOfKind(families, UniversalFamily);
    var compute := LastOfKind(families, ComputeFamily);
    FamilyScan(
      if universal.Some? then universal.value else NoFamily,
      if universal.Some? then families[universal.value].queueCount else 0,
      if compute.Some? then compute.value else NoFamily,
      if compute.Some? then families[compute.value].queueCount else 0)
  }

  /** The scan loop of grCreateDevice over the family-property buffer. */
  method ScanQueueFamilies(familyProperties: array<QueueFamilyProperties>) returns (scan: FamilyScan)
    requires familyProperties.Length < Uint32Modulus
    ensures scan == ScanFamilies(familyProperties[..])
  {
    var both := VkQueueGraphicsBit | VkQueueComputeBit;
    var universalIndex: nat, universalCount: nat := NoFamily, 0;
    var computeIndex: nat, computeCount: nat := NoFamily, 0;
    var i: nat := 0;
    while i < familyProperties.Length
      invariant 0 <= i <= familyProperties.Length
      invariant FamilyScan(universalIndex, universalCount, computeIndex, computeCount) == ScanFamilies(familyProperties[..i])
    {
      var family := familyProperties[i];
      if family.queueFlags & both == both {
        universalIndex, universalCount := i, family.queueCount;
      } else if family.queueFlags & VkQueueComputeBit == VkQueueComputeBit {
        computeIndex, computeCount := i, family.queueCount;
      }
      assert familyProperties[..i + 1][..i] == familyProperties[..i];
      i := i + 1;
    }
    assert familyProperties[..i] == familyProperties[..];
    scan := FamilyScan(universalIndex, universalCount, computeIndex, computeCount);
  }

  /** The family index given by subtraction and the one found by the scan are two
      different things: with a compute family listed before the universal one, the
      universal queue type is sent to family 0 while the scan finds it at 1. */
  lemma SubtractionCanDisagreeWithScan()
    ensures var families := [QueueFamilyProperties(VkQueueComputeBit, 1),
                             QueueFamilyProperties(VkQueueGraphicsBit | VkQueueComputeBit, 1)];
            ScanFamilies(families).universalIndex == 1 && QueueFamilyIndex(QueueUniversal) == 0
  {
  }

  // ---------------------------------------------------------------------------
  // Queue requests (grCreateDevice, second loop, device creation and cleanup)
  // ---------------------------------------------------------------------------

  /** GR_DEVICE_QUEUE_CREATE_INFO: a queue type and the number of queues wanted. */
  datatype QueueRequest = QueueRequest(queueType: int, queueCount: nat)

  /** A request of the universal or compute type that asks for a different number of
      queues than the scanned family has. Requests of any other type are not checked. */
  predicate Mismatch(request: QueueRequest, scan: FamilyScan)
  {
    (request.queueType == QueueUniversal && request.queueCount != scan.universalCount) ||
    (request.queueType == QueueCompute && request.queueCount != scan.computeCount)
  }

  predicate AnyMismatch(requests: seq<QueueRequest>, scan: FamilyScan)
  {
    exists i :: 0 <= i < |requests| && Mismatch(requests[i], scan)
  }

  /** The family a request's entry names: the universal family for the universal
      type, the compute family for every other type. */
  function FamilyIndexFor(queueType: int, scan: FamilyScan): nat
  {
    if queueType == QueueUniversal then scan.universalIndex else scan.computeIndex
  }

  /** Every queue gets the maximum priority, 1.0. */
  const MaxPriority: real := 1.0

  /** VkDeviceQueueCreateInfo: family index, queue count and the priority array. */
  datatype QueueCreateInfo = QueueCreateInfo(queueFamilyIndex: nat, queueCount: nat, queuePriorities: array?<real>)

  /** `info` is the entry built for `request`: its family, its count, and a priority
      array of exactly `queueCount` maximum priorities. */
  ghost predicate EntryFor(info: QueueCreateInfo, request: QueueRequest, scan: FamilyScan)
    reads info.queuePriorities
  {
    info.queueFamilyIndex == FamilyIndexFor(request.queueType, scan) &&
    info.queueCount == request.queueCount &&
    info.queuePriorities != null &&
    info.queuePriorities.Length == request.queueCount &&
    forall j :: 0 <= j < info.queuePriorities.Length ==> info.queuePriorities[j] == MaxPriority
  }

  /** The second loop of grCreateDevice: one entry and one priority array per request,
      built for every request, with a pending InvalidValue for any count mismatch. */
  method BuildQueueCreateInfos(requests: seq<QueueRequest>, scan: FamilyScan)
    returns (pending: GrResult, queueCreateInfos: array<QueueCreateInfo>, ghost priorityArrays: seq<array<real>>)
    ensures fresh(queueCreateInfos) && queueCreateInfos.Length == |requests| && |priorityArrays| == |requests|
    ensures forall i :: 0 <= i < |requests| ==> fresh(priorityArrays[i])
    ensures forall i, j :: 0 <= i < j < |requests| ==> priorityArrays[i] != priorityArrays[j]
    ensures forall i :: 0 <= i < |requests| ==> priorityArrays[i] as object != queueCreateInfos
    ensures forall i :: 0 <= i < |requests| ==>
      queueCreateInfos[i].queuePriorities == priorityArrays[i] && EntryFor(queueCreateInfos[i], requests[i], scan)
    ensures pending in {Success, ErrorInvalidValue}
    ensures pending == ErrorInvalidValue <==> AnyMismatch(requests, scan)
  {
    pending := Success;
    queueCreateInfos := new QueueCreateInfo[|requests|];
    priorityArrays := [];
    var i := 0;
    while i < |requests|
      modifies queueCreateInfos
      invariant 0 <= i <= |requests| && |priorityArrays| == i
      invariant forall k :: 0 <= k < i ==> fresh(priorityArrays[k])
      invariant forall k, l :: 0 <= k < l < i ==> priorityArrays[k] != priorityArrays[l]
      invariant forall k :: 0 <= k < i ==>
        queueCreateInfos[k].queuePriorities == priorityArrays[k] && EntryFor(queueCreateInfos[k], requests[k], scan)
      invariant pending in {Success, ErrorInvalidValue}
      invariant pending == ErrorInvalidValue <==> exists k :: 0 <= k < i && Mismatch(requests[k], scan)
    {
      var request := requests[i];
      var queuePriorities := new real[request.queueCount];
      var j := 0;
      while j < request.queueCount
        modifies queuePriorities
        invariant 0 <= j <= request.queueCount
        invariant forall m :: 0 <= m < j ==> queuePriorities[m] == MaxPriority
      {
        queuePriorities[j] := MaxPriority;
        j := j + 1;
      }
      if Mismatch(request, scan) {
        // the error is only recorded: every entry is still built so that all can be freed
        pending := ErrorInvalidValue;
      }
      queueCreateInfos[i] := QueueCreateInfo(FamilyIndexFor(request.queueType, scan), request.queueCount, queuePriorities);
      priorityArrays := priorityArrays + [queuePriorities];
      i := i + 1;
    }
  }

  /** The `bail:` loop of grCreateDevice: free every entry's priority array, then the
      entry array. `freed` lists the buffers released, in order. */
  method ReleaseQueueCreateInfos(queueCreateInfos: array<QueueCreateInfo>, ghost priorityArrays: seq<array<real>>)
    returns (ghost freed: seq<object>)
    requires |priorityArrays| == queueCreateInfos.Length
    requires forall i :: 0 <= i < |priorityArrays| ==> queueCreateInfos[i].queuePriorities == priorityArrays[i]
    ensures freed == priorityArrays + [queueCreateInfos]
  {
    freed := [];
    var i := 0;
    while i < queueCreateInfos.Length
      invariant 0 <= i <= queueCreateInfos.Length
      invariant freed == priorityArrays[..i]
    {
      var queuePriorities := queueCreateInfos[i].queuePriorities;
      freed := freed + [queuePriorities];
      i := i + 1;
    }
    freed := freed + [queueCreateInfos];
  }

  /** `entries` are the create infos built for `requests`, one per request, in order. */
  ghost predicate EntriesFor(entries: seq<QueueCreateInfo>, requests: seq<QueueRequest>, scan: FamilyScan)
    reads set i | 0 <= i < |entries| :: entries[i].queuePriorities
  {
    |entries| == |requests| &&
    forall i :: 0 <= i < |requests| ==> EntryFor(entries[i], requests[i], scan)
  }

  /** No buffer appears twice in the ledger. */
  ghost predicate Distinct(buffers: seq<object>)
  {
    forall i, j :: 0 <= i < j < |buffers| ==> buffers[i] != buffers[j]
  }

  /** The ledger of grCreateDevice: with the family-property buffer allocated first,
      the entry array second and the priority arrays after them, releasing the priority
      arrays and then the entry array frees every buffer but the first, each once. */
  lemma {:induction false} ReleaseLeavesOnlyFamilyBuffer(familyBuffer: object, entryArray: object, priorityArrays: seq<object>)
    requires Distinct([familyBuffer, entryArray] + priorityArrays)
    ensures multiset(priorityArrays + [entryArray]) + multiset{familyBuffer} == multiset([familyBuffer, entryArray] + priorityArrays)
    ensures familyBuffer !in priorityArrays + [entryArray]
  {
    var allocations := [familyBuffer, entryArray] + priorityArrays;
    assert allocations == [familyBuffer] + ([entryArray] + priorityArrays);
    var freed := priorityArrays + [entryArray];
    forall k | 0 <= k < |freed| ensures freed[k] != familyBuffer {
      var at := if k < |priorityArrays| then k + 2 else 1;
      assert freed[k] == allocations[at];
      assert familyBuffer == allocations[0];
    }
  }

  /** The ledger lists the buffers grCreateDevice allocates, in order: the
      family-property buffer, the entry array, then each entry's priority array. */
  ghost predicate LedgerOf(allocations: seq<object>, familyBuffer: object, entryArray: object, entries: seq<QueueCreateInfo>)
  {
    |allocations| == |entries| + 2 &&
    allocations[0] == familyBuffer && allocations[1] == entryArray &&
    forall i :: 0 <= i < |entries| ==> allocations[i + 2] == entries[i].queuePriorities
  }

  /** grCreateDevice, as written. `vkFamilies` is what the family-property query reports
      for `gpu`; `vkCreateDevice` answers the device creation call. The ghost outputs
      are the built create-info entries, whether device creation was called, and the
      ledger of buffers allocated and freed. As written, the family-property buffer is
      allocated and never freed. */
  method CreateDevice(
    gpu: VkPhysicalDevice,
    vkFamilies: seq<QueueFamilyProperties>,
    requests: seq<QueueRequest>,
    vkCreateDevice: (VkPhysicalDevice, seq<QueueCreateInfo>) -> Option<VkDevice>)
    returns (res: GrResult, device: Option<VkDevice>,
             ghost entries: seq<QueueCreateInfo>, ghost deviceCreateCalled: bool,
             ghost allocations: seq<object>, ghost freed: seq<object>,
             ghost familyBuffer: array<QueueFamilyProperties>, ghost entryArray: array<QueueCreateInfo>)
    requires |vkFamilies| < Uint32Modulus
    ensures EntriesFor(entries, requests, ScanFamilies(vkFamilies))
    // the buffers: the family properties as queried, the entries passed to device creation
    ensures familyBuffer[..] == vkFamilies && entryArray[..] == entries
    ensures LedgerOf(allocations, familyBuffer, entryArray, entries)
    ensures forall o :: o in allocations ==> fresh(o)
    ensures res in {Success, ErrorInvalidValue, ErrorInitializationFailed}
    ensures res == ErrorInvalidValue <==> AnyMismatch(requests, ScanFamilies(vkFamilies))
    ensures deviceCreateCalled <==> !AnyMismatch(requests, ScanFamilies(vkFamilies))
    ensures !deviceCreateCalled ==> device.None?
    ensures deviceCreateCalled && vkCreateDevice(gpu, entries).None? ==>
      res == ErrorInitializationFailed && device.None?
    ensures deviceCreateCalled && vkCreateDevice(gpu, entries).Some? ==>
      res == Success && device == vkCreateDevice(gpu, entries)
    // one family-property buffer, one entry array, one priority array per request
    ensures |allocations| == |requests| + 2 && Distinct(allocations) && familyBuffer in allocations
    // every buffer but the family-property one is freed exactly once: the priority
    // arrays in order, then the entry array
    ensures freed == allocations[2..] + [entryArray]
    ensures multiset(freed) + multiset{familyBuffer} == multiset(allocations)
    ensures familyBuffer !in freed
  {
    var familyProperties := new QueueFamilyProperties[|vkFamilies|](i requires 0 <= i < |vkFamilies| => vkFamilies[i]);
    assert familyProperties[..] == vkFamilies;
    familyBuffer := familyProperties;
    var scan := ScanQueueFamilies(familyProperties);

    var queueCreateInfos;
    ghost var priorityArrays;
    res, queueCreateInfos, priorityArrays := BuildQueueCreateInfos(requests, scan);
    allocations := [familyProperties as object, queueCreateInfos] + priorityArrays;
    assert Distinct(allocations) by {
      forall i, j | 0 <= i < j < |allocations| ensures allocations[i] != allocations[j] {
        if i == 0 {
          assert fresh(allocations[j]);
        } else if i == 1 {
          assert allocations[j] == priorityArrays[j - 2];
        } else {
          assert allocations[i] == priorityArrays[i - 2] && allocations[j] == priorityArrays[j - 2];
        }
      }
    }
    entries := queueCreateInfos[..];
    entryArray := queueCreateInfos;
    assert allocations[2..] == priorityArrays;

    device := None;
    deviceCreateCalled := false;
    if res == Success {
      deviceCreateCalled := true;
      var created := vkCreateDevice(gpu, queueCreateInfos[..]);
      if created.None? {
        res := ErrorInitializationFailed;
      } else {
        device := created;
      }
    }

    freed := ReleaseQueueCreateInfos(queueCreateInfos, priorityArrays);
    ReleaseLeavesOnlyFamilyBuffer(familyBuffer, queueCreateInfos, priorityArrays);
  }

  /** grCreateDevice with the family-property buffer released as well: every buffer the
      call allocates is freed exactly once, whatever the exit path. */
  method CreateDeviceReleasingScan(
    gpu: VkPhysicalDevice,
    vkFamilies: seq<QueueFamilyProperties>,
    requests: seq<QueueRequest>,
    vkCreateDevice: (VkPhysicalDevice, seq<QueueCreateInfo>) -> Option<VkDevice>)
    returns (res: GrResult, device: Option<VkDevice>,
             ghost entries: seq<QueueCreateInfo>, ghost deviceCreateCalled: bool,
             ghost allocations: seq<object>, ghost freed: seq<object>,
             ghost familyBuffer: array<QueueFamilyProperties>, ghost entryArray: array<QueueCreateInfo>)
    requires |vkFamilies| < Uint32Modulus
    ensures EntriesFor(entries, requests, ScanFamilies(vkFamilies))
    ensures familyBuffer[..] == vkFamilies && entryArray[..] == entries
    ensures LedgerOf(allocations, familyBuffer, entryArray, entries)
    ensures forall o :: o in allocations ==> fresh(o)
    ensures res in {Success, ErrorInvalidValue, ErrorInitializationFailed}
    ensures res == ErrorInvalidValue <==> AnyMismatch(requests, ScanFamilies(vkFamilies))
    ensures deviceCreateCalled <==> !AnyMismatch(requests, ScanFamilies(vkFamilies))
    ensures !deviceCreateCalled ==> device.None?
    ensures deviceCreateCalled && vkCreateDevice(gpu, entries).None? ==>
      res == ErrorInitializationFailed && device.None?
    ensures deviceCreateCalled && vkCreateDevice(gpu, entries).Some? ==>
      res == Success && device == vkCreateDevice(gpu, entries)
    ensures |allocations| == |requests| + 2 && Distinct(allocations)
    ensures freed == allocations[2..] + [entryArray, familyBuffer]
    ensures multiset(freed) == multiset(allocations)
  {
    res, device, entries, deviceCreateCalled, allocations, freed, familyBuffer, entryArray :=
      CreateDevice(gpu, vkFamilies, requests, vkCreateDevice);
    freed := freed + [familyBuffer];
  }

  // ---------------------------------------------------------------------------
  // Instance and GPU enumeration (grInitAndEnumerateGpus)
  // ---------------------------------------------------------------------------

  /** GR_APPLICATION_INFO. */
  datatype AppInfo = AppInfo(appName: string, appVersion: nat, engineName: string, engineVersion: nat, apiVersion: nat)

  /** VkApplicationInfo as the shim fills it in. */
  datatype VkApplicationInfo = VkApplicationInfo(
    applicationName: string, applicationVersion: nat, engineName: string, engineVersion: nat, apiVersion: nat)

  /** GR_ALLOC_CALLBACKS: the caller's allocation and free functions. */
  datatype AllocCallbacks = AllocCallbacks(pfnAlloc: FnPointer, pfnFree: FnPointer)

  /** The function pair the shim allocates with: its own (grvkAlloc / grvkFree) or the caller's. */
  datatype AllocFunction = GrvkAlloc | CallerAlloc(fn: FnPointer)
  datatype FreeFunction = GrvkFree | CallerFree(fn: FnPointer)

  /** What vkCreateInstance does: it creates an instance, or it fails, leaving some
      value in the instance variable it was given. */
  datatype InstanceCreation = InstanceCreated(instance: VkInstance) | InstanceCreationFailed(left: VkInstance)

  /** The instance-lifecycle calls the shim makes, in order. */
  datatype InstanceCall = DestroyInstance(instance: VkInstance) | CreateInstance(info: VkApplicationInfo)

  /** The application info handed to vkCreateInstance: the caller's names and versions,
      with the API version fixed at 1.1 (the caller's own is not passed on). */
  function TargetAppInfo(appInfo: AppInfo): VkApplicationInfo
  {
    VkApplicationInfo(appInfo.appName, appInfo.appVersion, appInfo.engineName, appInfo.engineVersion, VkApiVersion11)
  }

  function Min(a: nat, b: nat): nat
  {
    if a <= b then a else b
  }

  /** The file-level state of mantle.c: mAllocFun, mFreeFun and mVkInstance, with a
      ghost log of the instance calls. */
  class Runtime {
    var allocFun: Option<AllocFunction>
    var freeFun: Option<FreeFunction>
    var instance: VkInstance
    ghost var calls: seq<InstanceCall>

    constructor ()
      ensures allocFun.None? && freeFun.None? && instance == NullHandle && calls == []
    {
      allocFun, freeFun, instance := None, None, NullHandle;
      calls := [];
    }

    /** grInitAndEnumerateGpus. `gpus` is the caller's array of at least
        GR_MAX_PHYSICAL_GPUS elements; `gpuCount` is what is written to *pGpuCount (None: not written). */
    method InitAndEnumerateGpus(
      appInfo: AppInfo,
      allocCb: Option<AllocCallbacks>,
      vkCreateInstance: VkApplicationInfo -> InstanceCreation,
      vkEnumeratePhysicalDevices: VkInstance -> seq<VkPhysicalDevice>,
      gpus: array<VkPhysicalDevice>)
      returns (res: GrResult, gpuCount: Option<nat>)
      requires gpus.Length >= MaxPhysicalGpus
      modifies this, gpus
      // allocator selection
      ensures allocCb.None? ==> allocFun == Some(GrvkAlloc) && freeFun == Some(GrvkFree)
      ensures allocCb.Some? ==>
        allocFun == Some(CallerAlloc(allocCb.value.pfnAlloc)) && freeFun == Some(CallerFree(allocCb.value.pfnFree))
      // a held instance is destroyed before the new one is created
      ensures calls == old(calls) +
        (if old(instance) != NullHandle then [DestroyInstance(old(instance))] else []) +
        [CreateInstance(TargetAppInfo(appInfo))]
      // instance creation failure: nothing written
      ensures vkCreateInstance(TargetAppInfo(appInfo)).InstanceCreationFailed? ==>
        res == ErrorInitializationFailed && gpuCount.None? && gpus[..] == old(gpus[..]) &&
        instance == vkCreateInstance(TargetAppInfo(appInfo)).left
      // success: the count is clamped, the first `count` devices are copied, the rest untouched
      ensures vkCreateInstance(TargetAppInfo(appInfo)).InstanceCreated? ==>
        var devices := vkEnumeratePhysicalDevices(instance);
        var count := Min(|devices|, MaxPhysicalGpus);
        instance == vkCreateInstance(TargetAppInfo(appInfo)).instance &&
        res == Success && gpuCount == Some(count) &&
        gpus[..count] == devices[..count] && gpus[count..] == old(gpus[count..])
    {
      if allocCb.None? {
        allocFun, freeFun := Some(GrvkAlloc), Some(GrvkFree);
      } else {
        allocFun, freeFun := Some(CallerAlloc(allocCb.value.pfnAlloc)), Some(CallerFree(allocCb.value.pfnFree));
      }

      if instance != NullHandle {
        calls := calls + [DestroyInstance(instance)];
      }

      var createInfo := TargetAppInfo(appInfo);
      calls := calls + [CreateInstance(createInfo)];
      var creation := vkCreateInstance(createInfo);
      if creation.InstanceCreationFailed? {
        instance := creation.left;
        return ErrorInitializationFailed, None;
      }
      instance := creation.instance;

      // first enumeration call: the count; second: at most GR_MAX_PHYSICAL_GPUS handles
      var devices := vkEnumeratePhysicalDevices(instance);
      var physicalDeviceCount := |devices|;
      if physicalDeviceCount > MaxPhysicalGpus {
        physicalDeviceCount := MaxPhysicalGpus;
      }
      var physicalDevices := new VkPhysicalDevice[MaxPhysicalGpus];
      forall k | 0 <= k < physicalDeviceCount {
        physicalDevices[k] := devices[k];
      }

      var i := 0;
      while i < physicalDeviceCount
        modifies gpus
        invariant 0 <= i <= physicalDeviceCount
        invariant gpus[..i] == devices[..i]
        invariant gpus[i..] == old(gpus[i..])
      {
        gpus[i] := physicalDevices[i];
        i := i + 1;
      }
      res, gpuCount := Success, Some(physicalDeviceCount);
    }
  }

  // ---------------------------------------------------------------------------
  // Queues and command buffers
  // ---------------------------------------------------------------------------

  /** The result code of grGetDeviceQueue and the queue written to *pQueue. */
  datatype QueueRetrieval = QueueRetrieval(result: GrResult, queue: VkQueue)

  /** grGetDeviceQueue: the queue the target API returns for the subtraction-derived
      family and the caller's queue index, which is not checked against anything. */
  function GetDeviceQueue(device: VkDevice, queueType: int, queueId: nat,
                          vkGetDeviceQueue: (VkDevice, nat, nat) -> VkQueue): (r: QueueRetrieval)
    ensures r.result == Success
    ensures r.queue == vkGetDeviceQueue(device, QueueFamilyIndex(queueType), queueId)
  {
    QueueRetrieval(Success, vkGetDeviceQueue(device, QueueFamilyIndex(queueType), queueId))
  }

  /** VkCommandPoolCreateInfo (no flags). */
  datatype CommandPoolCreateInfo = CommandPoolCreateInfo(queueFamilyIndex: nat)

  datatype CommandBufferLevel = PrimaryLevel | SecondaryLevel

  /** VkCommandBufferAllocateInfo. */
  datatype CommandBufferAllocateInfo = CommandBufferAllocateInfo(
    commandPool: VkCommandPool, level: CommandBufferLevel, commandBufferCount: nat)

  /** The result code of grCreateCommandBuffer and the buffer written to *pCmdBuffer. */
  datatype CmdBufferCreation = CmdBufferCreation(result: GrResult, cmdBuffer: Option<VkCommandBuffer>)

  /** grCreateCommandBuffer: a dedicated pool for the queue type's family, then one
      primary buffer from it. Either failure is reported as out of memory. */
  function CreateCommandBuffer(
    device: VkDevice,
    queueType: int,
    vkCreateCommandPool: (VkDevice, CommandPoolCreateInfo) -> Option<VkCommandPool>,
    vkAllocateCommandBuffers: (VkDevice, CommandBufferAllocateInfo) -> Option<VkCommandBuffer>): (r: CmdBufferCreation)
    ensures var pool := vkCreateCommandPool(device, CommandPoolCreateInfo(QueueFamilyIndex(queueType)));
      (pool.None? ==> r == CmdBufferCreation(ErrorOutOfMemory, None)) &&
      (pool.Some? ==>
         var buffer := vkAllocateCommandBuffers(device, CommandBufferAllocateInfo(pool.value, PrimaryLevel, 1));
         (buffer.None? ==> r == CmdBufferCreation(ErrorOutOfMemory, None)) &&
         (buffer.Some? ==> r == CmdBufferCreation(Success, buffer)))
    ensures r.result in {Success, ErrorOutOfMemory}
    ensures r.cmdBuffer.Some? <==> r.result == Success
  {
    var pool := vkCreateCommandPool(device, CommandPoolCreateInfo(QueueFamilyIndex(queueType)));
    if pool.None? then
      CmdBufferCreation(ErrorOutOfMemory, None)
    else
      var buffer := vkAllocateCommandBuffers(device, CommandBufferAllocateInfo(pool.value, PrimaryLevel, 1));
      if buffer.None? then CmdBufferCreation(ErrorOutOfMemory, None) else CmdBufferCreation(Success, buffer)
  }

  /** The target usage flags for the legacy build flags: the one-time-submit bit
      exactly when the legacy one-time-submit optimisation is asked for, and nothing else. */
  function UsageFlags(flags: bv32): (usage: bv32)
    ensures usage & VkCommandBufferUsageOneTimeSubmitBit != 0 <==> flags & GrCmdBufferOptimizeOneTimeSubmit != 0
    ensures usage & !VkCommandBufferUsageOneTimeSubmitBit == 0
  {
    if flags & GrCmdBufferOptimizeOneTimeSubmit != 0 then VkCommandBufferUsageOneTimeSubmitBit else 0
  }

  /** VkCommandBufferBeginInfo (no inheritance info). */
  datatype CommandBufferBeginInfo = CommandBufferBeginInfo(flags: bv32)

  /** grBeginCommandBuffer: begins recording with the translated usage flags; a
      failure is reported as out of memory. */
  function BeginCommandBuffer(
    cmdBuffer: VkCommandBuffer,
    flags: bv32,
    vkBeginCommandBuffer: (VkCommandBuffer, CommandBufferBeginInfo) -> VkResult): (r: GrResult)
    ensures r == Success <==> vkBeginCommandBuffer(cmdBuffer, CommandBufferBeginInfo(UsageFlags(flags))) == VkSuccess
    ensures r != Success ==> r == ErrorOutOfMemory
  {
    var beginInfo := CommandBufferBeginInfo(UsageFlags(flags));
    if vkBeginCommandBuffer(cmdBuffer, beginInfo) != VkSuccess then ErrorOutOfMemory else Success
  }

  /** grEndCommandBuffer: a failure to end recording is reported as out of memory. */
  function EndCommandBuffer(cmdBuffer: VkCommandBuffer, vkEndCommandBuffer: VkCommandBuffer -> VkResult): (r: GrResult)
    ensures r == Success <==> vkEndCommandBuffer(cmdBuffer) == VkSuccess
    ensures r != Success ==> r == ErrorOutOfMemory
  {
    if vkEndCommandBuffer(cmdBuffer) != VkSuccess then ErrorOutOfMemory else Success
  }
}
