/** Generic object dispatch (src/mantle/mantle_object_man.c): the memory-requirements
    query and the memory bind, both branching on the tag every legacy object carries.
    The target-API calls and the two helpers whose definitions live in headers
    (getGrResult, getGrMemoryRequirements) are parameters. Writes through the caller's
    pointers are returned as `Option`s: `None` means "not written". */
module ObjectMan {
  import opened MantleTypes

  /** A created legacy object: its type tag and its owning device (the header behind
      GET_OBJ_TYPE and GET_OBJ_DEVICE), as a closed sum. An image also carries its
      target-API image. */
  datatype GrObject =
    | Image(device: VkDevice, image: VkImage)
    | DescriptorSet(device: VkDevice)
    | Pipeline(device: VkDevice)
    | OtherObject(device: VkDevice, kind: int)

  /** The info-type enum: the one value the core handles, and every other value. */
  datatype InfoType = MemoryRequirementsInfo | OtherInfo(code: int)

  /** VkMemoryRequirements, as the target API reports it for an image. */
  datatype VkMemoryRequirements = VkMemoryRequirements(size: nat, alignment: nat, memoryTypeBits: bv32)

  /** GR_MEMORY_REQUIREMENTS, as the legacy caller receives it. */
  datatype MemoryRequirements = MemoryRequirements(size: nat, alignment: nat, heapCount: nat, heaps: seq<nat>)

  /** GR_MAX_MEMORY_HEAPS, the length of the heaps array. */
  const MaxMemoryHeaps: nat := 8

  /** sizeof(GR_MEMORY_REQUIREMENTS) on a 64-bit target: two 8-byte sizes, a 4-byte
      heap count and eight 4-byte heap ids, padded to 8 bytes. */
  const MemoryRequirementsSize: nat := 56

  /** What descriptor sets and pipelines report: size 4, alignment 4, no heaps (the
      remaining members of the compound literal are zero). */
  const PlaceholderRequirements: MemoryRequirements :=
    MemoryRequirements(4, 4, 0, seq(MaxMemoryHeaps, _ => 0))

  /** A legacy GPU memory object; only its target-API memory is used here. */
  datatype GpuMemory = GpuMemory(deviceMemory: VkDeviceMemory)

  /** The result code of grGetObjectInfo and what it wrote: to *pDataSize and to *pData. */
  datatype InfoOutcome = InfoOutcome(result: GrResult, dataSizeWritten: Option<nat>, dataWritten: Option<MemoryRequirements>)

  predicate HasPlaceholderRequirements(obj: GrObject)
  {
    obj.DescriptorSet? || obj.Pipeline?
  }

  /** grGetObjectInfo. `obj` is None for a null handle; `dataSize` is None for a
      null pDataSize and otherwise the value it points to; `dataBuffer` says whether
      pData is non-null. */
  function GetObjectInfo(
    obj: Option<GrObject>,
    infoType: InfoType,
    dataSize: Option<nat>,
    dataBuffer: bool,
    vkGetImageMemoryRequirements: (VkDevice, VkImage) -> VkMemoryRequirements,
    getGrMemoryRequirements: VkMemoryRequirements -> MemoryRequirements): (r: InfoOutcome)
    // error precedence: handle, then size pointer, then info type, then buffer size, then object type
    ensures r.result == ErrorInvalidHandle <==> obj.None?
    ensures r.result == ErrorInvalidPointer <==> obj.Some? && dataSize.None?
    ensures r.result == ErrorInvalidMemorySize <==>
      obj.Some? && dataSize.Some? && infoType.MemoryRequirementsInfo? && dataBuffer &&
      dataSize.value != MemoryRequirementsSize
    ensures r.result == ErrorInvalidValue <==>
      obj.Some? && dataSize.Some? &&
      (infoType.OtherInfo? ||
       (dataBuffer && dataSize.value == MemoryRequirementsSize && obj.value.OtherObject?))
    ensures r.result in {Success, ErrorInvalidHandle, ErrorInvalidPointer, ErrorInvalidValue, ErrorInvalidMemorySize}
    // nothing is written on an error
    ensures r.result != Success ==> r.dataSizeWritten.None? && r.dataWritten.None?
    // size query: a null buffer only learns the size, for every object type
    ensures r.dataSizeWritten.Some? <==>
      obj.Some? && dataSize.Some? && infoType.MemoryRequirementsInfo? && !dataBuffer
    ensures r.dataSizeWritten.Some? ==> r.dataSizeWritten.value == MemoryRequirementsSize && r.dataWritten.None?
    // fill: a buffer is written exactly when the call succeeds with one
    ensures r.dataWritten.Some? <==> r.result == Success && dataBuffer
    ensures r.dataWritten.Some? && obj.value.Image? ==>
      r.dataWritten.value == getGrMemoryRequirements(vkGetImageMemoryRequirements(obj.value.device, obj.value.image))
    ensures r.dataWritten.Some? && !obj.value.Image? ==>
      HasPlaceholderRequirements(obj.value) && r.dataWritten.value == PlaceholderRequirements
  {
    if obj.None? then
      InfoOutcome(ErrorInvalidHandle, None, None)
    else if dataSize.None? then
      InfoOutcome(ErrorInvalidPointer, None, None)
    else
      match infoType
      case MemoryRequirementsInfo =>
        if !dataBuffer then
          InfoOutcome(Success, Some(MemoryRequirementsSize), None)
        else if dataSize.value != MemoryRequirementsSize then
          InfoOutcome(ErrorInvalidMemorySize, None, None)
        else
          (match obj.value
           case Image(device, image) =>
             var memReqs := vkGetImageMemoryRequirements(device, image);
             InfoOutcome(Success, None, Some(getGrMemoryRequirements(memReqs)))
           case DescriptorSet(_) =>
             InfoOutcome(Success, None, Some(PlaceholderRequirements))
           case Pipeline(_) =>
             InfoOutcome(Success, None, Some(PlaceholderRequirements))
           case OtherObject(_, _) =>
             InfoOutcome(ErrorInvalidValue, None, None))
      case OtherInfo(_) =>
        InfoOutcome(ErrorInvalidValue, None, None)
  }

  /** The size-then-fill protocol: whatever the caller's size variable held, the size
      query succeeds and writes a size that the fill call then accepts; the fill then
      succeeds for exactly the object types that have requirements. */
  lemma SizeQueryThenFill(
    obj: GrObject,
    initialSize: nat,
    vkGetImageMemoryRequirements: (VkDevice, VkImage) -> VkMemoryRequirements,
    getGrMemoryRequirements: VkMemoryRequirements -> MemoryRequirements)
    ensures var query := GetObjectInfo(Some(obj), MemoryRequirementsInfo, Some(initialSize), false,
                                       vkGetImageMemoryRequirements, getGrMemoryRequirements);
            query.result == Success && query.dataSizeWritten.Some? &&
            var fill := GetObjectInfo(Some(obj), MemoryRequirementsInfo, query.dataSizeWritten, true,
                                      vkGetImageMemoryRequirements, getGrMemoryRequirements);
            fill.result != ErrorInvalidMemorySize &&
            (fill.result == Success <==> !obj.OtherObject?) &&
            (fill.result == Success <==> fill.dataWritten.Some?)
  {
  }

  /** Descriptor sets and pipelines report a non-zero size and alignment and no heaps. */
  lemma PlaceholderIsNonTrivial()
    ensures PlaceholderRequirements.size > 0 && PlaceholderRequirements.alignment > 0
    ensures PlaceholderRequirements.heapCount == 0
    ensures |PlaceholderRequirements.heaps| == MaxMemoryHeaps
  {
  }

  /** The one call grBindObjectMemory makes for an image: the owning device, the image,
      the memory's target-API memory and the caller's offset. */
  datatype ImageBind = ImageBind(device: VkDevice, image: VkImage, memory: VkDeviceMemory, offset: nat)

  /** The result code of grBindObjectMemory and the bind call it made, if any. */
  datatype BindOutcome = BindOutcome(result: GrResult, bindCall: Option<ImageBind>)

  /** grBindObjectMemory. `mem` is None for a null memory handle, which only an image
      bind would dereference. */
  function BindObjectMemory(
    obj: Option<GrObject>,
    mem: Option<GpuMemory>,
    offset: nat,
    vkBindImageMemory: ImageBind -> VkResult,
    getGrResult: VkResult -> GrResult): (r: BindOutcome)
    requires obj.Some? && obj.value.Image? ==> mem.Some?
    ensures obj.None? ==> r.result == ErrorInvalidHandle
    // exactly images reach the target API, with the caller's offset and the memory's handle
    ensures r.bindCall.Some? <==> obj.Some? && obj.value.Image?
    ensures r.bindCall.Some? ==>
      r.bindCall.value == ImageBind(obj.value.device, obj.value.image, mem.value.deviceMemory, offset) &&
      r.result == getGrResult(vkBindImageMemory(r.bindCall.value))
    // descriptor sets and pipelines: no call, the mapped success code
    ensures obj.Some? && HasPlaceholderRequirements(obj.value) ==> r.result == getGrResult(VkSuccess)
    ensures obj.Some? && obj.value.OtherObject? ==> r.result == ErrorUnavailable
  {
    if obj.None? then
      BindOutcome(ErrorInvalidHandle, None)
    else
      match obj.value
      case Image(device, image) =>
        var call := ImageBind(device, image, mem.value.deviceMemory, offset);
        BindOutcome(getGrResult(vkBindImageMemory(call)), Some(call))
      case DescriptorSet(_) =>
        BindOutcome(getGrResult(VkSuccess), None)
      case Pipeline(_) =>
        BindOutcome(getGrResult(VkSuccess), None)
      case OtherObject(_, _) =>
        BindOutcome(ErrorUnavailable, None)
  }

  /** A bind on a descriptor set or pipeline does not depend on the memory, the offset
      or the target API: it never reaches the bind call. */
  lemma PlaceholderBindIgnoresArguments(
    obj: GrObject,
    mem1: Option<GpuMemory>, offset1: nat, bind1: ImageBind -> VkResult,
    mem2: Option<GpuMemory>, offset2: nat, bind2: ImageBind -> VkResult,
    getGrResult: VkResult -> GrResult)
    requires HasPlaceholderRequirements(obj)
    ensures BindObjectMemory(Some(obj), mem1, offset1, bind1, getGrResult) ==
            BindObjectMemory(Some(obj), mem2, offset2, bind2, getGrResult)
  {
  }
}
