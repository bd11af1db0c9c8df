/** Enumerations of the render hardware interface (Source/Graphics/RHI/Context.hpp).
    Declaration order matters: the Vulkan back end indexes tables by it. */
module Rhi {

  datatype ShaderType =
    | Vertex
    | TessellationControl
    | TessellationEvaluation
    | Geometry
    | Fragment
    | Compute

  /** The underlying value of `static_cast<size_t>(type)`: the declaration index. */
  function Ordinal(t: ShaderType): (n: nat)
    ensures n < 6
  {
    match t
    case Vertex => 0
    case TessellationControl => 1
    case TessellationEvaluation => 2
    case Geometry => 3
    case Fragment => 4
    case Compute => 5
  }

  /** Distinct shader types have distinct ordinals, so a table indexed by them is a bijection. */
  lemma OrdinalInjective(t1: ShaderType, t2: ShaderType)
    ensures Ordinal(t1) == Ordinal(t2) <==> t1 == t2
  {
  }

  datatype PolygonMode = Fill | Line | Point

  datatype FrontFace = CW | CCW

  datatype CullingMode = None | FrontFace | BackFace | FrontAndBack

  datatype BlendOperation = Add | Subtract | ReversedSubtract | Min | Max

  datatype BlendFactor =
    | Zero
    | One
    | SrcColor
    | OneMinusSrcColor
    | DstColor
    | OneMinusDstColor
    | SrcAlpha
    | OneMinusSrcAlpha
    | DstAlpha
    | OneMinusDstAlpha
    | ConstantColor
    | OneMinusConstantColor
    | ConstantAlpha
    | OneMinusConstantAlpha
    | SrcAlphaSaturate
    | Src1Color
    | OneMinusSrc1Color
    | Src1Alpha
    | OneMinusSrc1Alpha
}
