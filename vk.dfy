/** The part of the Vulkan API the core talks to, as plain values.
    Driver calls themselves are not modelled here: handles are opaque numbers
    and every create call's outcome is a `VkResult` supplied by the caller. */
module Vk {

  /** An opaque Vulkan object or buffer handle. */
  type Handle = nat

  /** VK_NULL_HANDLE. */
  const NullHandle: Handle := 0

  /** A VkResult code; VK_SUCCESS is 0, every other code is a failure. */
  type VkResult = int

  const Success: VkResult := 0

  const U32Modulus: nat := 0x1_0000_0000

  /** `static_cast<uint32_t>` of an unsigned count: wraps modulo 2^32. */
  function U32(x: nat): (r: nat)
    ensures r < U32Modulus
    ensures x < U32Modulus ==> r == x
    ensures x >= U32Modulus ==> r != x
  {
    x % U32Modulus
  }

  /** VkShaderStageFlagBits for the six graphics and compute stages. */
  datatype ShaderStage =
    | VertexBit
    | TessellationControlBit
    | TessellationEvaluationBit
    | GeometryBit
    | FragmentBit
    | ComputeBit

  /** The numeric flag value Vulkan assigns to each stage. */
  function StageBit(s: ShaderStage): nat
  {
    match s
    case VertexBit => 0x01
    case TessellationControlBit => 0x02
    case TessellationEvaluationBit => 0x04
    case GeometryBit => 0x08
    case FragmentBit => 0x10
    case ComputeBit => 0x20
  }

  datatype VertexInputRate = PerVertex | PerInstance

  datatype Format = R32G32Sfloat | R32G32B32Sfloat

  /** Bytes occupied by one element of the format. */
  function FormatSize(f: Format): nat
  {
    match f
    case R32G32Sfloat => 8
    case R32G32B32Sfloat => 12
  }

  datatype DescriptorType = UniformBuffer

  /** VkVertexInputBindingDescription. */
  datatype VertexBinding = VertexBinding(binding: nat, stride: nat, inputRate: VertexInputRate)

  /** VkVertexInputAttributeDescription. */
  datatype VertexAttribute = VertexAttribute(location: nat, binding: nat, format: Format, offset: nat)

  /** VkDescriptorSetLayoutBinding; `stageFlags` is the set of stage bits of the mask and
      `immutableSamplers` says whether pImmutableSamplers is non-null. */
  datatype DescriptorSetLayoutBinding = DescriptorSetLayoutBinding(
    binding: nat,
    descriptorType: DescriptorType,
    descriptorCount: nat,
    stageFlags: set<ShaderStage>,
    immutableSamplers: bool)

  /** VkDescriptorPoolSize. */
  datatype DescriptorPoolSize = DescriptorPoolSize(descriptorType: DescriptorType, descriptorCount: nat)

  datatype BufferUsage = VertexBufferUsage | IndexBufferUsage

  datatype IndexType = Uint32

  datatype DynamicState = Viewport | Scissor

  datatype PrimitiveTopology = TriangleList

  datatype PolygonMode = Fill

  datatype CullMode = Back

  datatype FrontFace = Clockwise

  datatype BlendFactor = One | Zero

  datatype BlendOp = Add

  datatype LogicOp = Copy

  datatype ColorComponent = R | G | B | A
}
