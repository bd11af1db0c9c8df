/** What the pipeline-description builders produce
    (Source/Graphics/RHI/Vulkan/Utils/PipelineBuilder.cpp), as values: the shader-type
    table, the create-info records handed to the driver, and the device events of a build.
    The classes in Builders compute these step by step and are proved equal to them. */
module PipelineSpec {
  import Rhi
  import Vk

  // ---------------------------------------------------------------- shader stages

  /** The six-entry table `ShaderType2ShaderStageFlag` indexes by the shader type's value. */
  const StageTable: seq<Vk.ShaderStage> :=
    [ Vk.VertexBit, Vk.TessellationControlBit, Vk.TessellationEvaluationBit,
      Vk.GeometryBit, Vk.FragmentBit, Vk.ComputeBit ]

  /** `ShaderType2ShaderStageFlag`: `mapping[static_cast<size_t>(type)]`. */
  function StageFlag(t: Rhi.ShaderType): Vk.ShaderStage
  {
    StageTable[Rhi.Ordinal(t)]
  }

  function Pow2(n: nat): nat
  {
    if n == 0 then 1 else 2 * Pow2(n - 1)
  }

  /** The table maps the shader types, in declaration order, to the vertex, tessellation
      control, tessellation evaluation, geometry, fragment and compute stages; the k-th type
      gets flag bit 2^k. */
  lemma StageFlagInDeclarationOrder(t: Rhi.ShaderType)
    ensures |StageTable| == 6
    ensures Vk.StageBit(StageFlag(t)) == Pow2(Rhi.Ordinal(t))
    ensures StageFlag(Rhi.Vertex) == Vk.VertexBit
    ensures StageFlag(Rhi.TessellationControl) == Vk.TessellationControlBit
    ensures StageFlag(Rhi.TessellationEvaluation) == Vk.TessellationEvaluationBit
    ensures StageFlag(Rhi.Geometry) == Vk.GeometryBit
    ensures StageFlag(Rhi.Fragment) == Vk.FragmentBit
    ensures StageFlag(Rhi.Compute) == Vk.ComputeBit
  {
  }

  /** No two shader types share a stage. */
  lemma StageFlagInjective(t1: Rhi.ShaderType, t2: Rhi.ShaderType)
    ensures StageFlag(t1) == StageFlag(t2) <==> t1 == t2
  {
  }

  // ---------------------------------------------------------------- create-info records

  /** An attached shader: its type and the path of its compiled binary. */
  datatype AttachedShader = AttachedShader(shaderType: Rhi.ShaderType, path: string)

  /** VkPipelineShaderStageCreateInfo. */
  datatype ShaderStageInfo = ShaderStageInfo(stage: Vk.ShaderStage, shaderModule: Vk.Handle, entryPoint: string)

  /** VkPipelineColorBlendAttachmentState. */
  datatype ColorBlendAttachment = ColorBlendAttachment(
    blendEnable: bool,
    colorWriteMask: set<Vk.ColorComponent>,
    srcColorBlendFactor: Vk.BlendFactor,
    dstColorBlendFactor: Vk.BlendFactor,
    colorBlendOp: Vk.BlendOp,
    srcAlphaBlendFactor: Vk.BlendFactor,
    dstAlphaBlendFactor: Vk.BlendFactor,
    alphaBlendOp: Vk.BlendOp)

  /** The attachment the builder's constructor installs: no blending, all four channels
      written, factors One/Zero and op Add for colour and alpha. */
  function DefaultBlendAttachment(): ColorBlendAttachment
  {
    ColorBlendAttachment(false, {Vk.R, Vk.G, Vk.B, Vk.A},
                         Vk.One, Vk.Zero, Vk.Add, Vk.One, Vk.Zero, Vk.Add)
  }

  datatype DynamicStateInfo = DynamicStateInfo(dynamicStateCount: nat, dynamicStates: seq<Vk.DynamicState>)

  datatype VertexInputInfo = VertexInputInfo(
    vertexBindingDescriptionCount: nat,
    vertexBindingDescriptions: seq<Vk.VertexBinding>,
    vertexAttributeDescriptionCount: nat,
    vertexAttributeDescriptions: seq<Vk.VertexAttribute>)

  datatype InputAssemblyInfo = InputAssemblyInfo(topology: Vk.PrimitiveTopology, primitiveRestartEnable: bool)

  datatype ViewportInfo = ViewportInfo(viewportCount: nat, scissorCount: nat)

  datatype RasterizationInfo = RasterizationInfo(
    depthClampEnable: bool,
    polygonMode: Vk.PolygonMode,
    rasterizerDiscardEnable: bool,
    lineWidth: real,
    cullMode: Vk.CullMode,
    frontFace: Vk.FrontFace,
    depthBiasEnable: bool,
    depthBiasConstantFactor: real,
    depthBiasClamp: real,
    depthBiasSlopeFactor: real)

  /** `rasterizationSamples` is the sample count (VK_SAMPLE_COUNT_1_BIT is 1);
      `sampleMask` says whether pSampleMask is non-null. */
  datatype MultisampleInfo = MultisampleInfo(
    sampleShadingEnable: bool,
    rasterizationSamples: nat,
    minSampleShading: real,
    sampleMask: bool,
    alphaToCoverageEnable: bool,
    alphaToOneEnable: bool)

  datatype ColorBlendInfo = ColorBlendInfo(
    logicOpEnable: bool,
    logicOp: Vk.LogicOp,
    blendConstants: seq<real>,
    attachmentCount: nat,
    attachments: seq<ColorBlendAttachment>)

  /** VkGraphicsPipelineCreateInfo; `depthStencil` says whether pDepthStencilState is set. */
  datatype GraphicsPipelineCreateInfo = GraphicsPipelineCreateInfo(
    layout: Vk.Handle,
    renderPass: Vk.Handle,
    subpass: nat,
    stageCount: nat,
    stages: seq<ShaderStageInfo>,
    dynamicState: DynamicStateInfo,
    inputAssembly: InputAssemblyInfo,
    vertexInput: VertexInputInfo,
    viewport: ViewportInfo,
    rasterization: RasterizationInfo,
    multisample: MultisampleInfo,
    colorBlend: ColorBlendInfo,
    depthStencil: bool,
    basePipelineHandle: Vk.Handle,
    basePipelineIndex: int)

  /** VkDescriptorSetLayoutCreateInfo. */
  datatype DescriptorSetLayoutCreateInfo = DescriptorSetLayoutCreateInfo(
    bindingCount: nat,
    bindings: seq<Vk.DescriptorSetLayoutBinding>)

  /** VkPipelineLayoutCreateInfo; push-constant ranges are only ever counted. */
  datatype PipelineLayoutCreateInfo = PipelineLayoutCreateInfo(
    setLayoutCount: nat,
    setLayouts: seq<Vk.Handle>,
    pushConstantRangeCount: nat)

  /** The exception a failed create call throws: the message prefix and the result code. */
  datatype BuildError = BuildError(message: string, code: Vk.VkResult)

  const DescriptorSetLayoutFailure: string := "Failed to create descriptor set layout - "
  const PipelineLayoutFailure: string := "Failed to create pipeline layout - "
  const GraphicsPipelineFailure: string := "Failed to create graphics pipeline - "

  /** Either the value built or the exception thrown. */
  datatype Result<T> = Ok(value: T) | Err(error: BuildError)

  // ---------------------------------------------------------------- what Make assembles

  /** The builder fields `Make` reads. */
  datatype BuilderConfig = BuilderConfig(
    dynamicStates: seq<Vk.DynamicState>,
    colorBlendAttachments: seq<ColorBlendAttachment>,
    bindings: seq<Vk.VertexBinding>,
    attributes: seq<Vk.VertexAttribute>,
    shaders: seq<AttachedShader>,
    lineWidth: real)

  /** The stage infos for `shaders`, whose modules were created with consecutive handles
      starting at `first`. */
  function StageInfos(shaders: seq<AttachedShader>, first: Vk.Handle): seq<ShaderStageInfo>
    decreases |shaders|
  {
    if shaders == [] then []
    else
      var n := |shaders| - 1;
      StageInfos(shaders[..n], first) + [ShaderStageInfo(StageFlag(shaders[n].shaderType), first + n, "main")]
  }

  /** The create-info `Make` hands to `vkCreateGraphicsPipelines`. */
  function CreateInfo(c: BuilderConfig, first: Vk.Handle, renderPass: Vk.Handle, subpass: nat, layout: Vk.Handle)
    : GraphicsPipelineCreateInfo
  {
    var stages := StageInfos(c.shaders, first);
    GraphicsPipelineCreateInfo(
      layout, renderPass, subpass,
      |stages|, stages,
      DynamicStateInfo(|c.dynamicStates|, c.dynamicStates),
      InputAssemblyInfo(Vk.TriangleList, false),
      VertexInputInfo(|c.bindings|, c.bindings, |c.attributes|, c.attributes),
      ViewportInfo(1, 1),
      RasterizationInfo(false, Vk.Fill, false, c.lineWidth, Vk.Back, Vk.Clockwise, false, 0.0, 0.0, 0.0),
      MultisampleInfo(false, 1, 1.0, false, false, false),
      ColorBlendInfo(false, Vk.Copy, [0.0, 0.0, 0.0, 0.0], |c.colorBlendAttachments|, c.colorBlendAttachments),
      false,
      Vk.NullHandle,
      -1)
  }

  /** One stage per attached shader, in attachment order, each with the stage its type maps
      to, its own module and entry point "main". */
  lemma {:induction false} StageInfosInOrder(shaders: seq<AttachedShader>, first: Vk.Handle)
    ensures |StageInfos(shaders, first)| == |shaders|
    ensures forall k :: 0 <= k < |shaders| ==>
      StageInfos(shaders, first)[k] == ShaderStageInfo(StageFlag(shaders[k].shaderType), first + k, "main")
    decreases |shaders|
  {
    if shaders != [] {
      var n := |shaders| - 1;
      StageInfosInOrder(shaders[..n], first);
      forall k | 0 <= k < n
        ensures StageInfos(shaders, first)[k] == ShaderStageInfo(StageFlag(shaders[k].shaderType), first + k, "main")
      {
        assert shaders[..n][k] == shaders[k];
      }
    }
  }

  /** Whatever the builder holds, `Make` fixes triangle lists without restart, one viewport
      and one scissor, filled back-face-culled clockwise polygons, one sample, no
      depth-stencil state; the line width is the builder's, and every count equals the
      length of the list it describes. */
  lemma MakeFixesState(c: BuilderConfig, first: Vk.Handle, renderPass: Vk.Handle, subpass: nat, layout: Vk.Handle)
    ensures var info := CreateInfo(c, first, renderPass, subpass, layout);
      && info.stageCount == |info.stages| == |c.shaders|
      && info.inputAssembly == InputAssemblyInfo(Vk.TriangleList, false)
      && info.viewport.viewportCount == 1 && info.viewport.scissorCount == 1
      && info.rasterization.polygonMode == Vk.Fill
      && info.rasterization.cullMode == Vk.Back
      && info.rasterization.frontFace == Vk.Clockwise
      && info.rasterization.lineWidth == c.lineWidth
      && !info.rasterization.depthClampEnable && !info.rasterization.rasterizerDiscardEnable
      && info.multisample.rasterizationSamples == 1 && !info.multisample.sampleShadingEnable
      && !info.depthStencil
      && info.colorBlend.attachmentCount == |info.colorBlend.attachments| == |c.colorBlendAttachments|
      && info.dynamicState.dynamicStateCount == |info.dynamicState.dynamicStates|
      && info.dynamicState.dynamicStates == c.dynamicStates
      && info.vertexInput.vertexBindingDescriptionCount == |c.bindings|
      && info.vertexInput.vertexAttributeDescriptionCount == |c.attributes|
      && info.layout == layout && info.renderPass == renderPass && info.subpass == subpass
  {
    StageInfosInOrder(c.shaders, first);
  }

  // ---------------------------------------------------------------- device events

  /** What the driver is asked to do. */
  datatype DeviceEvent =
    | ModuleCreated(created: Vk.Handle, path: string)
    | ModuleDestroyed(destroyed: Vk.Handle)
    | DescriptorSetLayoutRequested(dsInfo: DescriptorSetLayoutCreateInfo, dsResult: Vk.VkResult)
    | PipelineLayoutRequested(plInfo: PipelineLayoutCreateInfo, plResult: Vk.VkResult)
    | GraphicsPipelineRequested(gpInfo: GraphicsPipelineCreateInfo, gpResult: Vk.VkResult)

  /** Compiling the attached shaders into modules with handles `first`, `first + 1`, .... */
  function ModuleCreations(shaders: seq<AttachedShader>, first: Vk.Handle): seq<DeviceEvent>
    decreases |shaders|
  {
    if shaders == [] then []
    else
      var n := |shaders| - 1;
      ModuleCreations(shaders[..n], first) + [ModuleCreated(first + n, shaders[n].path)]
  }

  /** Destroying the `n` modules created from `first` on, in creation order. */
  function ModuleDestructions(first: Vk.Handle, n: nat): seq<DeviceEvent>
  {
    if n == 0 then [] else ModuleDestructions(first, n - 1) + [ModuleDestroyed(first + n - 1)]
  }

  /** The consecutive handles `first`, ..., `first + n - 1`. */
  function Range(first: Vk.Handle, n: nat): seq<Vk.Handle>
  {
    seq(n, k => first + k)
  }

  /** All device events of `Make`: compile every shader, request the pipeline, and only when
      that succeeds destroy the modules; a failure throws before any cleanup. */
  function MakeEvents(shaders: seq<AttachedShader>, first: Vk.Handle, info: GraphicsPipelineCreateInfo,
                      result: Vk.VkResult): seq<DeviceEvent>
  {
    ModuleCreations(shaders, first) + [GraphicsPipelineRequested(info, result)]
    + if result == Vk.Success then ModuleDestructions(first, |shaders|) else []
  }

  /** The modules created, in order. */
  function Created(events: seq<DeviceEvent>): seq<Vk.Handle>
    decreases |events|
  {
    if events == [] then []
    else (if events[0].ModuleCreated? then [events[0].created] else []) + Created(events[1..])
  }

  /** The modules destroyed, in order. */
  function Destroyed(events: seq<DeviceEvent>): seq<Vk.Handle>
    decreases |events|
  {
    if events == [] then []
    else (if events[0].ModuleDestroyed? then [events[0].destroyed] else []) + Destroyed(events[1..])
  }

  lemma {:induction false} CreatedAppend(a: seq<DeviceEvent>, b: seq<DeviceEvent>)
    ensures Created(a + b) == Created(a) + Created(b)
    decreases |a|
  {
    if a == [] {
      assert a + b == b;
    } else {
      assert (a + b)[0] == a[0] && (a + b)[1..] == a[1..] + b;
      CreatedAppend(a[1..], b);
    }
  }

  lemma {:induction false} DestroyedAppend(a: seq<DeviceEvent>, b: seq<DeviceEvent>)
    ensures Destroyed(a + b) == Destroyed(a) + Destroyed(b)
    decreases |a|
  {
    if a == [] {
      assert a + b == b;
    } else {
      assert (a + b)[0] == a[0] && (a + b)[1..] == a[1..] + b;
      DestroyedAppend(a[1..], b);
    }
  }

  lemma FiltersAppend(a: seq<DeviceEvent>, b: seq<DeviceEvent>)
    ensures Created(a + b) == Created(a) + Created(b)
    ensures Destroyed(a + b) == Destroyed(a) + Destroyed(b)
  {
    CreatedAppend(a, b);
    DestroyedAppend(a, b);
  }

  lemma RangeSnoc(first: Vk.Handle, n: nat)
    ensures Range(first, n) + [first + n] == Range(first, n + 1)
  {
  }

  lemma {:induction false} CreatedOfCreations(shaders: seq<AttachedShader>, first: Vk.Handle)
    ensures Created(ModuleCreations(shaders, first)) == Range(first, |shaders|)
    decreases |shaders|
  {
    if shaders != [] {
      var n := |shaders| - 1;
      var e := ModuleCreated(first + n, shaders[n].path);
      CreatedOfCreations(shaders[..n], first);
      CreatedAppend(ModuleCreations(shaders[..n], first), [e]);
      assert Created([e]) == [first + n] by {
        assert [e][1..] == [];
      }
      RangeSnoc(first, n);
    }
  }

  lemma {:induction false} DestroyedOfCreations(shaders: seq<AttachedShader>, first: Vk.Handle)
    ensures Destroyed(ModuleCreations(shaders, first)) == []
    decreases |shaders|
  {
    if shaders != [] {
      var n := |shaders| - 1;
      var e := ModuleCreated(first + n, shaders[n].path);
      DestroyedOfCreations(shaders[..n], first);
      DestroyedAppend(ModuleCreations(shaders[..n], first), [e]);
      assert Destroyed([e]) == [] by {
        assert [e][1..] == [];
      }
    }
  }

  lemma {:induction false} CreatedOfDestructions(first: Vk.Handle, n: nat)
    ensures Created(ModuleDestructions(first, n)) == []
    decreases n
  {
    if n > 0 {
      var e := ModuleDestroyed(first + n - 1);
      CreatedOfDestructions(first, n - 1);
      CreatedAppend(ModuleDestructions(first, n - 1), [e]);
      assert Created([e]) == [] by {
        assert [e][1..] == [];
      }
    }
  }

  lemma {:induction false} DestroyedOfDestructions(first: Vk.Handle, n: nat)
    ensures Destroyed(ModuleDestructions(first, n)) == Range(first, n)
    decreases n
  {
    if n > 0 {
      var e := ModuleDestroyed(first + n - 1);
      DestroyedOfDestructions(first, n - 1);
      DestroyedAppend(ModuleDestructions(first, n - 1), [e]);
      assert Destroyed([e]) == [first + n - 1] by {
        assert [e][1..] == [];
      }
      RangeSnoc(first, n - 1);
    }
  }

  /** Which modules a build creates and destroys. */
  lemma MakeEventsFilters(shaders: seq<AttachedShader>, first: Vk.Handle, info: GraphicsPipelineCreateInfo,
                          result: Vk.VkResult)
    ensures Created(MakeEvents(shaders, first, info, result)) == Range(first, |shaders|)
    ensures Destroyed(MakeEvents(shaders, first, info, result))
         == if result == Vk.Success then Range(first, |shaders|) else []
  {
    var created := ModuleCreations(shaders, first);
    var req := [GraphicsPipelineRequested(info, result)];
    var cleanup := if result == Vk.Success then ModuleDestructions(first, |shaders|) else [];
    CreatedOfCreations(shaders, first);
    DestroyedOfCreations(shaders, first);
    CreatedOfDestructions(first, |shaders|);
    DestroyedOfDestructions(first, |shaders|);
    assert Created(req) == [] && Destroyed(req) == [] by {
      assert req[1..] == [];
    }
    FiltersAppend(created, req);
    FiltersAppend(created + req, cleanup);
  }

  /** In which order a build's events come. */
  lemma MakeEventsOrder(shaders: seq<AttachedShader>, first: Vk.Handle, info: GraphicsPipelineCreateInfo,
                        result: Vk.VkResult)
    ensures var ev := MakeEvents(shaders, first, info, result);
      && |ev| == |shaders| + 1 + (if result == Vk.Success then |shaders| else 0)
      && ev[|shaders|] == GraphicsPipelineRequested(info, result)
      && (forall i :: 0 <= i < |shaders| ==> ev[i].ModuleCreated?)
      && (forall i :: |shaders| < i < |ev| ==> ev[i].ModuleDestroyed?)
  {
    var created := ModuleCreations(shaders, first);
    var cleanup := if result == Vk.Success then ModuleDestructions(first, |shaders|) else [];
    CreationsOnly(shaders, first);
    DestructionsOnly(first, |shaders|);
    var ev := MakeEvents(shaders, first, info, result);
    assert forall i :: 0 <= i < |shaders| ==> ev[i] == created[i];
    assert forall i :: |shaders| < i < |ev| ==> ev[i] == cleanup[i - |shaders| - 1];
  }

  /** Resource balance: `Make` creates one fresh module per attached shader. On success it
      destroys exactly those modules, in the same order, after the pipeline request; on
      failure the request is the last event and nothing is destroyed. */
  lemma ModulesBalanced(shaders: seq<AttachedShader>, first: Vk.Handle, info: GraphicsPipelineCreateInfo,
                        result: Vk.VkResult)
    ensures var ev := MakeEvents(shaders, first, info, result);
      && Created(ev) == Range(first, |shaders|)
      && (result == Vk.Success ==> Destroyed(ev) == Created(ev) && |ev| == 2 * |shaders| + 1)
      && (result != Vk.Success ==> Destroyed(ev) == [] && |ev| == |shaders| + 1)
      && ev[|shaders|] == GraphicsPipelineRequested(info, result)
      && (forall i :: 0 <= i < |shaders| ==> ev[i].ModuleCreated?)
      && (forall i :: |shaders| < i < |ev| ==> ev[i].ModuleDestroyed?)
  {
    MakeEventsFilters(shaders, first, info, result);
    MakeEventsOrder(shaders, first, info, result);
  }

  /** Compiling `n` shaders yields `n` creation events and nothing else. */
  lemma {:induction false} CreationsOnly(shaders: seq<AttachedShader>, first: Vk.Handle)
    ensures |ModuleCreations(shaders, first)| == |shaders|
    ensures forall i :: 0 <= i < |shaders| ==> ModuleCreations(shaders, first)[i].ModuleCreated?
    decreases |shaders|
  {
    if shaders != [] {
      CreationsOnly(shaders[..|shaders| - 1], first);
    }
  }

  /** Cleaning up `n` modules yields `n` destruction events and nothing else. */
  lemma {:induction false} DestructionsOnly(first: Vk.Handle, n: nat)
    ensures |ModuleDestructions(first, n)| == n
    ensures forall i :: 0 <= i < n ==> ModuleDestructions(first, n)[i].ModuleDestroyed?
    decreases n
  {
    if n > 0 {
      DestructionsOnly(first, n - 1);
    }
  }
}
