# Mantle-on-Vulkan translation core, in Dafny

This project models the decision logic of a shim that implements the legacy Mantle
GPU API on top of Vulkan: the part of `src/mantle/mantle.c` that enumerates GPUs,
creates a device from queue requests, fetches queues and records command buffers,
and the generic object dispatch of `src/mantle/mantle_object_man.c` (memory
requirements query and memory bind).

Every Vulkan call that answers with a value (instance, device, pool and buffer
creation, begin and end recording, queue retrieval, the image memory query and the
image bind) is a function-typed parameter. It receives exactly the arguments the
shim would pass, such as a create info or a bind request, and answers with the
result the driver gives. So the contracts can say what is forwarded as well as what
comes back. The header helpers `getGrResult` and `getGrMemoryRequirements` are
parameters in the same way. Two kinds of call are modelled differently:
- `vkDestroyInstance` returns nothing; it is an entry in the ghost log of instance calls.
- The two enumeration queries, physical devices and queue-family properties, are
  given as the lists they report. The size-then-fill call pair becomes a read of
  that list.

- `types.dfy` (module `MantleTypes`): legacy result codes, opaque handles, and the
  header constants the core uses. These are `GR_MAX_PHYSICAL_GPUS` = 4,
  `GR_QUEUE_UNIVERSAL` = 0x1000, `GR_QUEUE_COMPUTE` = 0x1001, the queue flag bits,
  the one-time-submit bits and `VK_API_VERSION_1_1`.
- `mantle.dfy` (module `Mantle`): the queue-type subtraction, the queue-family scan,
  `grCreateDevice`, `grInitAndEnumerateGpus`, `grGetDeviceQueue` and the
  command-buffer functions.
  - The scan is a loop method proved equal to a declarative specification: the last
    family of each kind wins.
  - `grCreateDevice` is a method over the arrays it allocates, with a ghost ledger of
    the buffers it allocates and frees.
  - The file-level globals `mAllocFun`, `mFreeFun` and `mVkInstance` are the fields of
    class `Runtime`, whose ghost `calls` log records instance destruction and creation
    in order.
- `object_man.dfy` (module `ObjectMan`): objects are a closed datatype (image,
  descriptor set, pipeline, other). Writes through `pDataSize` and `pData` are returned
  as `Option`s, where `None` means "not written".

Three behaviours of the code depart from what its callers would expect, and the model keeps them as written:
- The family scan keeps the LAST matching family of each kind, not the first.
- `grGetDeviceQueue` and `grCreateCommandBuffer` use the subtraction
  `queueType - GR_QUEUE_UNIVERSAL`, not the scanned family. `SubtractionCanDisagreeWithScan`
  shows a family list on which the two differ.
- No command-buffer state (allocated, recording, recorded) is tracked, because the
  code keeps none.

## Model

| member | source | states |
|---|---|---|
| `Mantle.QueueFamilyIndex` | src/mantle/mantle.c:26-31 | the index is `queueType - GR_QUEUE_UNIVERSAL` converted to `uint32_t`: below 2^32, congruent to the difference, and equal to it when the type is at or above `GR_QUEUE_UNIVERSAL` |
| `Mantle.LastOfKind` | src/mantle/mantle.c:116-128 | the result is a family of the kind with no family of that kind after it, or None exactly when no family has that kind |
| `Mantle.ScanFamilies` | src/mantle/mantle.c:103-128 | universal index and count belong to the last family with both GRAPHICS and COMPUTE bits. Compute index and count belong to the last family with COMPUTE but not both. A kind never seen keeps `(uint32_t)-1` and count 0, and `-1` occurs only then |
| `Mantle.ScanQueueFamilies` | src/mantle/mantle.c:116-128 | the scan loop over the family-property buffer computes exactly `ScanFamilies` of its contents |
| `Mantle.SubtractionCanDisagreeWithScan` | src/mantle/mantle.c:29-30 | with a compute-only family listed before a universal one, the scan finds the universal family at 1 while the subtraction sends the universal type to family 0 |
| `Mantle.BuildQueueCreateInfos` | src/mantle/mantle.c:130-158 | one entry per request, with the request's count, the universal family for the universal type and the compute family otherwise, and a fresh priority array of exactly `queueCount` maximum priorities. The pending result is InvalidValue exactly when some universal or compute request's count differs from the scanned count; every entry is built even then |
| `Mantle.ReleaseQueueCreateInfos` | src/mantle/mantle.c:185-189 | frees each entry's priority array in order, then the entry array |
| `Mantle.ReleaseLeavesOnlyFamilyBuffer` | src/mantle/mantle.c:111-189 | given distinct buffers allocated in the order family buffer, entry array, priority arrays, the release frees every buffer except the family buffer, each exactly once |
| `Mantle.CreateDevice` | src/mantle/mantle.c:96-192 | as written: InvalidValue exactly on a count mismatch. In that case no device-creation call is made and no device is written. Otherwise a failed creation gives InitializationFailed and no device, and a successful one gives Success and the created device. The entries passed are those built for the requests. The ledger lists the fresh buffers in allocation order: the family-property buffer holding the queried families, the entry array holding the entries, then each entry's priority array. The freed list is exactly those priority arrays in order, then the entry array, so each is freed once; the family-property buffer is never freed |
| `Mantle.CreateDeviceReleasingScan` | src/mantle/mantle.c:96-192 | the same results and the same ledger of fresh buffers tied to the entries, with the family-property buffer freed after the priority arrays and the entry array, so every buffer the call allocates is freed exactly once |
| `Mantle.Runtime.constructor` | src/mantle/mantle.c:6-8 | the globals start with no allocator pair and a null instance |
| `Mantle.Runtime.InitAndEnumerateGpus` | src/mantle/mantle.c:35-94 | a null callback struct installs `grvkAlloc`/`grvkFree`, otherwise exactly the caller's pair. A held instance is destroyed before the new one is created, with API version 1.1. Failed creation gives InitializationFailed and writes neither count nor GPUs. On success the count is min(enumerated, 4) with no error (the array may be longer than 4), `gpus[i]` is the i-th enumerated device below it, and the rest of `gpus` is untouched |
| `Mantle.GetDeviceQueue` | src/mantle/mantle.c:196-209 | always Success; the queue is the one Vulkan gives for the subtraction-derived family and the caller's unchecked queue index |
| `Mantle.CreateCommandBuffer` | src/mantle/mantle.c:213-249 | the pool is created for family `queueType - GR_QUEUE_UNIVERSAL`, then one primary buffer is allocated from that pool. Failure of either gives OutOfMemory and no buffer; otherwise Success and the allocated buffer |
| `Mantle.UsageFlags` | src/mantle/mantle.c:256-260 | the usage flags hold the one-time-submit bit if and only if `GR_CMD_BUFFER_OPTIMIZE_ONE_TIME_SUBMIT` is set, and no other bit |
| `Mantle.BeginCommandBuffer` | src/mantle/mantle.c:251-274 | Success exactly when Vulkan accepts the begin call with the translated usage flags, OutOfMemory otherwise |
| `Mantle.EndCommandBuffer` | src/mantle/mantle.c:276-286 | Success exactly when Vulkan ends recording, OutOfMemory otherwise |
| `ObjectMan.GetObjectInfo` | src/mantle/mantle_object_man.c:5-60 | checks run in the order null object (InvalidHandle), null size pointer (InvalidPointer), info type (InvalidValue), buffer size (InvalidMemorySize), then object type (InvalidValue for other objects). Nothing is written on any error. A null buffer gets the requirements size written, for every object type. A buffer is filled exactly on success: images with the mapped image requirements of their device, descriptor sets and pipelines with the `{4, 4, 0}` placeholder |
| `ObjectMan.SizeQueryThenFill` | src/mantle/mantle_object_man.c:27-53 | the size query succeeds whatever the size variable held. The size it writes is accepted by the fill call, which succeeds, and writes, exactly for non-other objects |
| `ObjectMan.PlaceholderIsNonTrivial` | src/mantle/mantle_object_man.c:41-48 | the placeholder has non-zero size and alignment and zero heap count |
| `ObjectMan.BindObjectMemory` | src/mantle/mantle_object_man.c:62-96 | a null object gives InvalidHandle. Only an image reaches the bind call, with its device and image, the memory's `deviceMemory` and the caller's offset, and returns the mapped result of that call. Descriptor sets and pipelines make no call and return the mapped success code; other objects give Unavailable |
| `ObjectMan.PlaceholderBindIgnoresArguments` | src/mantle/mantle_object_man.c:84-95 | a descriptor-set or pipeline bind gives the same outcome whatever the memory, offset and bind function |

## Left out

- Logging (`printf`, `LOGT`, `LOGW`) is output only and never affects control flow.
- Vulkan itself: every call is a parameter. The enumeration and family-property queries are given as the lists they report; results the source ignores are not modelled.
- The default allocator's body (`_aligned_malloc` on Windows only, no return value elsewhere) is not modelled; only which function pair is installed.
- Queue priorities are C floats; the model uses the real number 1.0 and states the array length and contents.
- `malloc` failure is not modelled, because the source never checks for it.
- `getGrResult`, `getGrMemoryRequirements`, `GET_OBJ_TYPE` and `GET_OBJ_DEVICE` are defined in headers that are not part of this model. The first two are parameters, and the object tag and owning device are datatype fields.
- Null output pointers (`pGpuCount`, `pDevice`, `pQueue`, `pCmdBuffer`) and a null `pAppInfo` are not modelled; the source dereferences them unchecked.
- Mantle.Runtime.InitAndEnumerateGpus: when instance creation fails, the instance variable holds whatever the creation call left in it; that value is an input of the model.
- Mantle.CreateCommandBuffer: does not track the pool created before a failed buffer allocation, which the source never destroys.
- Mantle.CreateDevice: the signed `int` loop counters are unbounded integers, so more than 2^31 families or requests is not modelled.
- ObjectMan.BindObjectMemory: requires a memory object for an image bind, because the source dereferences the memory handle there.
- Concurrency: the globals are unprotected in the source, and the model is sequential.

## Findings

| source | as written | input that shows it | evidently intended | confidence | as-written member | corrected member |
|---|---|---|---|---|---|---|
| src/mantle/mantle.c:111-114 | the queue-family property buffer is allocated with `malloc` and never freed on any exit path | any call, e.g. one family and no queue requests | released with the other transient buffers before returning | high, not executed | `Mantle.CreateDevice` | `Mantle.CreateDeviceReleasingScan` |
