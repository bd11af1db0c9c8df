/** The static-mesh vertex and descriptor tables (`ShaderAPIBuilder<StaticMesh>` in
    Source/Rendering/VulkanImpl/Pipelines/MeshPipeline.cpp) and the element sizes the
    upload path uses. */
module MeshShaderApi {
  import Vk

  /** sizeof(glVec2): two 32-bit floats. */
  const Vec2Size: nat := 8
  /** sizeof(glVec3): three 32-bit floats. */
  const Vec3Size: nat := 12
  /** sizeof(uint32_t): one index. */
  const IndexSize: nat := 4
  /** sizeof(float): the uploaded uniform value. */
  const FloatSize: nat := 4

  /** BuildBindings: one per-vertex stream of positions, one of colours. */
  function Bindings(): seq<Vk.VertexBinding>
  {
    [ Vk.VertexBinding(0, Vec2Size, Vk.PerVertex),
      Vk.VertexBinding(1, Vec3Size, Vk.PerVertex) ]
  }

  /** BuildAttributes: location 0 reads positions, location 1 reads colours. */
  function Attributes(): seq<Vk.VertexAttribute>
  {
    [ Vk.VertexAttribute(0, 0, Vk.R32G32Sfloat, 0),
      Vk.VertexAttribute(1, 1, Vk.R32G32B32Sfloat, 0) ]
  }

  /** BuildDescriptorsLayout: one uniform buffer at binding 0 read by the fragment stage. */
  function DescriptorsLayout(): seq<Vk.DescriptorSetLayoutBinding>
  {
    [ Vk.DescriptorSetLayoutBinding(0, Vk.UniformBuffer, 1, {Vk.FragmentBit}, false) ]
  }

  /** BuildPoolAllocationInfo: room for one uniform buffer. */
  function PoolSizes(): seq<Vk.DescriptorPoolSize>
  {
    [ Vk.DescriptorPoolSize(Vk.UniformBuffer, 1) ]
  }

  /** Bytes of one vertex across all streams. */
  function VertexStride(): nat
  {
    Vec2Size + Vec3Size
  }

  /** Binding `i` sits at position `i` of the table, advances per vertex, and the strides add
      up to the per-vertex size the upload path allocates. */
  lemma BindingsWellFormed()
    ensures |Bindings()| == 2
    ensures forall i :: 0 <= i < |Bindings()| ==>
              Bindings()[i].binding == i && Bindings()[i].inputRate == Vk.PerVertex
    ensures Bindings()[0].stride == 8 && Bindings()[1].stride == 12
    ensures Bindings()[0].stride + Bindings()[1].stride == VertexStride()
  {
  }

  /** Every attribute reads a binding of the table, fits inside one element of that binding,
      and no two attributes share a location. Location 0 takes 2 x f32 from binding 0 and
      location 1 takes 3 x f32 from binding 1, both at offset 0. */
  lemma AttributesMatchBindings()
    ensures |Attributes()| == 2
    ensures forall a :: a in Attributes() ==>
              a.binding < |Bindings()| &&
              a.offset + Vk.FormatSize(a.format) <= Bindings()[a.binding].stride
    ensures forall i, j :: 0 <= i < j < |Attributes()| ==>
              Attributes()[i].location != Attributes()[j].location
    ensures Attributes()[0] == Vk.VertexAttribute(0, 0, Vk.R32G32Sfloat, 0)
    ensures Attributes()[1] == Vk.VertexAttribute(1, 1, Vk.R32G32B32Sfloat, 0)
    ensures Vk.FormatSize(Attributes()[0].format) == Vec2Size
    ensures Vk.FormatSize(Attributes()[1].format) == Vec3Size
  {
  }

  /** Total descriptors of a type the layout declares. */
  function Declared(layout: seq<Vk.DescriptorSetLayoutBinding>, t: Vk.DescriptorType): nat
  {
    if layout == [] then 0
    else (if layout[0].descriptorType == t then layout[0].descriptorCount else 0) + Declared(layout[1..], t)
  }

  /** Total descriptors of a type the pool reserves. */
  function Reserved(pool: seq<Vk.DescriptorPoolSize>, t: Vk.DescriptorType): nat
  {
    if pool == [] then 0
    else (if pool[0].descriptorType == t then pool[0].descriptorCount else 0) + Reserved(pool[1..], t)
  }

  /** One uniform-buffer descriptor at binding 0, fragment stage only, and the pool reserves
      exactly as many descriptors of each type as the layout declares. */
  lemma PoolCoversLayout()
    ensures |DescriptorsLayout()| == 1
    ensures DescriptorsLayout()[0].binding == 0
    ensures DescriptorsLayout()[0].stageFlags == {Vk.FragmentBit}
    ensures forall t: Vk.DescriptorType :: Reserved(PoolSizes(), t) == Declared(DescriptorsLayout(), t) == 1
  {
    forall t: Vk.DescriptorType
      ensures Reserved(PoolSizes(), t) == Declared(DescriptorsLayout(), t) == 1
    {
      assert DescriptorsLayout()[1..] == [];
      assert PoolSizes()[1..] == [];
    }
  }
}
