/** Values shared by the Mantle-on-Vulkan translation core: the legacy result codes,
    the opaque handles of both APIs, and the constants of the two headers the core
    relies on (mantle.h and vulkan.h, which are not part of this model; the values
    below are the published ones). */
module MantleTypes {

  datatype Option<+T> = None | Some(value: T)

  /** The legacy API's result codes. Only the ones this core raises itself are named;
      any other code that the result mapper may produce is `OtherResult`. */
  datatype GrResult =
    | Success
    | ErrorInvalidHandle
    | ErrorInvalidPointer
    | ErrorInvalidValue
    | ErrorInvalidMemorySize
    | ErrorInitializationFailed
    | ErrorOutOfMemory
    | ErrorUnavailable
    | OtherResult(code: int)

  /** A target-API status code; VK_SUCCESS is 0. */
  type VkResult = int
  const VkSuccess: VkResult := 0

  /** Opaque handles. 0 is the null handle (NULL / VK_NULL_HANDLE). */
  type Handle = nat
  const NullHandle: Handle := 0

  type VkInstance = Handle
  type VkPhysicalDevice = Handle
  type VkDevice = Handle
  type VkQueue = Handle
  type VkCommandPool = Handle
  type VkCommandBuffer = Handle
  type VkImage = Handle
  type VkDeviceMemory = Handle

  /** An address of a caller-supplied function. */
  type FnPointer = nat

  /** C's `uint32_t`: the range of family indices, queue counts and flag words. */
  const Uint32Modulus: int := 0x1_0000_0000

  /** GR_MAX_PHYSICAL_GPUS: the capacity of the caller's GPU array. */
  const MaxPhysicalGpus: nat := 4

  /** GR_QUEUE_UNIVERSAL and GR_QUEUE_COMPUTE, values of the legacy queue-type enum. */
  const QueueUniversal: int := 0x1000
  const QueueCompute: int := 0x1001

  /** VK_QUEUE_GRAPHICS_BIT and VK_QUEUE_COMPUTE_BIT of a family's queueFlags. */
  const VkQueueGraphicsBit: bv32 := 0x1
  const VkQueueComputeBit: bv32 := 0x2

  /** GR_CMD_BUFFER_OPTIMIZE_ONE_TIME_SUBMIT of the legacy build flags and
      VK_COMMAND_BUFFER_USAGE_ONE_TIME_SUBMIT_BIT of the target usage flags. */
  const GrCmdBufferOptimizeOneTimeSubmit: bv32 := 0x4
  const VkCommandBufferUsageOneTimeSubmitBit: bv32 := 0x1

  /** VK_API_VERSION_1_1, i.e. VK_MAKE_VERSION(1, 1, 0). */
  const VkApiVersion11: nat := 0x0040_1000
}
