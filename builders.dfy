/** The builders of Source/Graphics/RHI/Vulkan/Utils/PipelineBuilder.cpp as classes whose
    fields the C++ members are. The driver is a `Device` object that records what it is asked
    to do; the result code of each create call is a parameter, since it comes from the driver. */
module Builders {
  import Rhi
  import Vk
  import opened PipelineSpec

  /** The logical device: hands out handles from a counter (never VK_NULL_HANDLE) and logs
      every request. */
  class Device {
    var next: Vk.Handle
    var events: seq<DeviceEvent>

    ghost predicate Valid()
      reads this
    {
      next > 0
    }

    constructor ()
      ensures Valid() && next == 1 && events == []
    {
      next := 1;
      events := [];
    }

    /** `BuildShaderModule`: compiles the binary at `path` into a new module. */
    method BuildShaderModule(path: string) returns (h: Vk.Handle)
      requires Valid()
      modifies this
      ensures Valid()
      ensures h == old(next) && h != Vk.NullHandle && next == old(next) + 1
      ensures events == old(events) + [ModuleCreated(h, path)]
    {
      h := next;
      next := next + 1;
      events := events + [ModuleCreated(h, path)];
    }

    /** `vkDestroyShaderModule`. */
    method DestroyShaderModule(h: Vk.Handle)
      modifies this
      ensures next == old(next)
      ensures events == old(events) + [ModuleDestroyed(h)]
    {
      events := events + [ModuleDestroyed(h)];
    }

    /** `vkCreateDescriptorSetLayout`, reporting `result`; a handle only on success. */
    method CreateDescriptorSetLayout(info: DescriptorSetLayoutCreateInfo, result: Vk.VkResult) returns (h: Vk.Handle)
      requires Valid()
      modifies this
      ensures Valid()
      ensures events == old(events) + [DescriptorSetLayoutRequested(info, result)]
      ensures result == Vk.Success ==> h == old(next) && next == old(next) + 1
      ensures result != Vk.Success ==> h == Vk.NullHandle && next == old(next)
    {
      events := events + [DescriptorSetLayoutRequested(info, result)];
      h := Vk.NullHandle;
      if result == Vk.Success {
        h := next;
        next := next + 1;
      }
    }

    /** `vkCreatePipelineLayout`, reporting `result`; a handle only on success. */
    method CreatePipelineLayout(info: PipelineLayoutCreateInfo, result: Vk.VkResult) returns (h: Vk.Handle)
      requires Valid()
      modifies this
      ensures Valid()
      ensures events == old(events) + [PipelineLayoutRequested(info, result)]
      ensures result == Vk.Success ==> h == old(next) && next == old(next) + 1
      ensures result != Vk.Success ==> h == Vk.NullHandle && next == old(next)
    {
      events := events + [PipelineLayoutRequested(info, result)];
      h := Vk.NullHandle;
      if result == Vk.Success {
        h := next;
        next := next + 1;
      }
    }

    /** `vkCreateGraphicsPipelines` for one create-info, reporting `result`. */
    method CreateGraphicsPipeline(info: GraphicsPipelineCreateInfo, result: Vk.VkResult) returns (h: Vk.Handle)
      requires Valid()
      modifies this
      ensures Valid()
      ensures events == old(events) + [GraphicsPipelineRequested(info, result)]
      ensures result == Vk.Success ==> h == old(next) && next == old(next) + 1
      ensures result != Vk.Success ==> h == Vk.NullHandle && next == old(next)
    {
      events := events + [GraphicsPipelineRequested(info, result)];
      h := Vk.NullHandle;
      if result == Vk.Success {
        h := next;
        next := next + 1;
      }
    }
  }

  class DescriptorSetLayoutBuilder {
    var descriptorsLayout: seq<Vk.DescriptorSetLayoutBinding>

    constructor ()
      ensures descriptorsLayout == []
    {
      descriptorsLayout := [];
    }

    /** Asks for a layout describing every binding held; a failure code becomes the
        descriptor-set-layout error carrying that code. */
    method Make(device: Device, result: Vk.VkResult) returns (r: Result<Vk.Handle>)
      requires device.Valid()
      modifies device
      ensures device.Valid()
      ensures device.events == old(device.events)
        + [DescriptorSetLayoutRequested(DescriptorSetLayoutCreateInfo(|descriptorsLayout|, descriptorsLayout), result)]
      ensures result == Vk.Success ==> r == Ok(old(device.next)) && r.value != Vk.NullHandle
      ensures result != Vk.Success ==> r == Err(BuildError(DescriptorSetLayoutFailure, result))
    {
      var info := DescriptorSetLayoutCreateInfo(|descriptorsLayout|, descriptorsLayout);
      var h := device.CreateDescriptorSetLayout(info, result);
      if result != Vk.Success {
        return Err(BuildError(DescriptorSetLayoutFailure, result));
      }
      return Ok(h);
    }

    method Reset()
      modifies this
      ensures descriptorsLayout == []
    {
      descriptorsLayout := [];
    }
  }

  class PipelineLayoutBuilder {
    var layouts: seq<Vk.Handle>

    constructor ()
      ensures layouts == []
    {
      layouts := [];
    }

    /** Asks for a pipeline layout over every set layout held and no push constants; a
        failure code becomes the pipeline-layout error carrying that code. */
    method Make(device: Device, result: Vk.VkResult) returns (r: Result<Vk.Handle>)
      requires device.Valid()
      modifies device
      ensures device.Valid()
      ensures device.events == old(device.events)
        + [PipelineLayoutRequested(PipelineLayoutCreateInfo(|layouts|, layouts, 0), result)]
      ensures result == Vk.Success ==> r == Ok(old(device.next)) && r.value != Vk.NullHandle
      ensures result != Vk.Success ==> r == Err(BuildError(PipelineLayoutFailure, result))
    {
      var info := PipelineLayoutCreateInfo(|layouts|, layouts, 0);
      var h := device.CreatePipelineLayout(info, result);
      if result != Vk.Success {
        return Err(BuildError(PipelineLayoutFailure, result));
      }
      return Ok(h);
    }
  }

  /** The cleanup loop of `Make`: destroys the modules it compiled, handles `first` on, in
      creation order. */
  method DestroyModules(device: Device, compiledShaders: seq<Vk.Handle>, ghost first: Vk.Handle)
    requires compiledShaders == Range(first, |compiledShaders|)
    modifies device
    ensures device.next == old(device.next)
    ensures device.events == old(device.events) + ModuleDestructions(first, |compiledShaders|)
  {
    var events1 := device.events;
    var j := 0;
    while j < |compiledShaders|
      invariant 0 <= j <= |compiledShaders|
      invariant device.next == old(device.next)
      invariant device.events == events1 + ModuleDestructions(first, j)
    {
      device.DestroyShaderModule(compiledShaders[j]);
      j := j + 1;
    }
  }

  /** The rasterisation and blending settings `Reset` restores; `Make` reads none of them. */
  datatype RasterSettings = RasterSettings(
    polygonMode: Rhi.PolygonMode,
    cullingMode: Rhi.CullingMode,
    frontFace: Rhi.FrontFace,
    blendEnabled: bool,
    blendColorOp: Rhi.BlendOperation,
    blendAlphaOp: Rhi.BlendOperation,
    blendSrcColorFactor: Rhi.BlendFactor,
    blendDstColorFactor: Rhi.BlendFactor,
    blendSrcAlphaFactor: Rhi.BlendFactor,
    blendDstAlphaFactor: Rhi.BlendFactor)

  /** What `Reset` restores: filled, unculled, counter-clockwise polygons, blending off with
      Add for colour and alpha, source factors One and destination factors Zero. */
  const ResetSettings: RasterSettings :=
    RasterSettings(Rhi.Fill, Rhi.None, Rhi.CCW, false, Rhi.Add, Rhi.Add,
                   Rhi.One, Rhi.Zero, Rhi.One, Rhi.Zero)

  class PipelineBuilder {
    var dynamicStates: seq<Vk.DynamicState>
    var colorBlendAttachments: seq<ColorBlendAttachment>
    var bindings: seq<Vk.VertexBinding>
    var attributes: seq<Vk.VertexAttribute>
    var attachedShaders: seq<AttachedShader>
    var lineWidth: real
    var polygonMode: Rhi.PolygonMode
    var cullingMode: Rhi.CullingMode
    var frontFace: Rhi.FrontFace
    var blendEnabled: bool
    var blendColorOp: Rhi.BlendOperation
    var blendAlphaOp: Rhi.BlendOperation
    var blendSrcColorFactor: Rhi.BlendFactor
    var blendDstColorFactor: Rhi.BlendFactor
    var blendSrcAlphaFactor: Rhi.BlendFactor
    var blendDstAlphaFactor: Rhi.BlendFactor

    /** The fields `Make` reads. */
    function Config(): BuilderConfig
      reads this
    {
      BuilderConfig(dynamicStates, colorBlendAttachments, bindings, attributes, attachedShaders, lineWidth)
    }

    /** The fields only `Reset` touches. */
    function Settings(): RasterSettings
      reads this
    {
      RasterSettings(polygonMode, cullingMode, frontFace, blendEnabled, blendColorOp, blendAlphaOp,
                     blendSrcColorFactor, blendDstColorFactor, blendSrcAlphaFactor, blendDstAlphaFactor)
    }

    /** Viewport and scissor are dynamic, and there is one colour attachment with the default
        blend state; the lists start empty. */
    constructor ()
      ensures dynamicStates == [Vk.Viewport, Vk.Scissor]
      ensures colorBlendAttachments == [DefaultBlendAttachment()]
      ensures bindings == [] && attributes == [] && attachedShaders == []
    {
      dynamicStates := [Vk.Viewport, Vk.Scissor];
      colorBlendAttachments := [DefaultBlendAttachment()];
      bindings := [];
      attributes := [];
      attachedShaders := [];
    }

    /** Builds one shader module per attached shader, then asks for the pipeline. On success
        the modules are destroyed again and the create-info is the result; on failure the
        graphics-pipeline error carrying the code is, and the modules are left alive. */
    method Make(device: Device, renderPass: Vk.Handle, subpass: nat, layout: Vk.Handle, result: Vk.VkResult)
      returns (r: Result<GraphicsPipelineCreateInfo>)
      requires device.Valid()
      modifies device
      ensures device.Valid()
      ensures device.next == old(device.next) + |attachedShaders| + (if result == Vk.Success then 1 else 0)
      ensures device.events == old(device.events)
        + MakeEvents(attachedShaders, old(device.next),
                     CreateInfo(Config(), old(device.next), renderPass, subpass, layout), result)
      ensures result == Vk.Success ==> r == Ok(CreateInfo(Config(), old(device.next), renderPass, subpass, layout))
      ensures result != Vk.Success ==> r == Err(BuildError(GraphicsPipelineFailure, result))
    {
      var dynamicStatesInfo := DynamicStateInfo(|dynamicStates|, dynamicStates);
      var vertexInputInfo := VertexInputInfo(|bindings|, bindings, |attributes|, attributes);
      var assemblyInfo := InputAssemblyInfo(Vk.TriangleList, false);
      var viewportInfo := ViewportInfo(1, 1);
      var rasterizationInfo :=
        RasterizationInfo(false, Vk.Fill, false, lineWidth, Vk.Back, Vk.Clockwise, false, 0.0, 0.0, 0.0);
      var multisamplingInfo := MultisampleInfo(false, 1, 1.0, false, false, false);
      var colorBlendInfo :=
        ColorBlendInfo(false, Vk.Copy, [0.0, 0.0, 0.0, 0.0], |colorBlendAttachments|, colorBlendAttachments);

      // build shaders
      var first := device.next;
      var events0 := device.events;
      var shaderStages, compiledShaders := BuildStages(device);
      // create pipeline
      var pipelineInfo := GraphicsPipelineCreateInfo(
        layout, renderPass, subpass, |shaderStages|, shaderStages,
        dynamicStatesInfo, assemblyInfo, vertexInputInfo, viewportInfo,
        rasterizationInfo, multisamplingInfo, colorBlendInfo,
        false, Vk.NullHandle, -1);
      assert pipelineInfo == CreateInfo(Config(), first, renderPass, subpass, layout);
      var pipeline := device.CreateGraphicsPipeline(pipelineInfo, result);
      if result != Vk.Success {
        assert device.events == events0 + MakeEvents(attachedShaders, first, pipelineInfo, result);
        return Err(BuildError(GraphicsPipelineFailure, result));
      }
      // cleanup shader modules
      DestroyModules(device, compiledShaders, first);
      return Ok(pipelineInfo);
    }

    /** The shader loop of `Make`: one module and one stage info per attached shader. */
    method BuildStages(device: Device) returns (shaderStages: seq<ShaderStageInfo>, compiledShaders: seq<Vk.Handle>)
      requires device.Valid()
      modifies device
      ensures device.Valid() && device.next == old(device.next) + |attachedShaders|
      ensures device.events == old(device.events) + ModuleCreations(attachedShaders, old(device.next))
      ensures shaderStages == StageInfos(attachedShaders, old(device.next))
      ensures compiledShaders == Range(old(device.next), |attachedShaders|)
    {
      var first := device.next;
      var events0 := device.events;
      shaderStages := [];
      compiledShaders := [];
      var i := 0;
      while i < |attachedShaders|
        invariant 0 <= i <= |attachedShaders|
        invariant device.Valid() && device.next == first + i
        invariant device.events == events0 + ModuleCreations(attachedShaders[..i], first)
        invariant shaderStages == StageInfos(attachedShaders[..i], first)
        invariant compiledShaders == Range(first, i)
      {
        var shader := attachedShaders[i];
        var shaderModule := device.BuildShaderModule(shader.path);
        compiledShaders := compiledShaders + [shaderModule];
        shaderStages := shaderStages + [ShaderStageInfo(StageFlag(shader.shaderType), shaderModule, "main")];
        assert attachedShaders[..i + 1][..i] == attachedShaders[..i];
        i := i + 1;
      }
      assert attachedShaders[..i] == attachedShaders;
    }

    /** Restores the rasterisation and blending defaults and the line width 1.0; the lists
        `Make` reads are left alone. */
    method Reset()
      modifies this
      ensures Settings() == ResetSettings
      ensures lineWidth == 1.0
      ensures dynamicStates == old(dynamicStates) && colorBlendAttachments == old(colorBlendAttachments)
      ensures bindings == old(bindings) && attributes == old(attributes)
      ensures attachedShaders == old(attachedShaders)
    {
      lineWidth := 1.0;
      polygonMode := Rhi.Fill;
      cullingMode := Rhi.None;
      frontFace := Rhi.CCW;

      blendEnabled := false;
      blendColorOp := Rhi.Add;
      blendAlphaOp := Rhi.Add;
      blendSrcColorFactor := Rhi.One;
      blendDstColorFactor := Rhi.Zero;
      blendSrcAlphaFactor := Rhi.One;
      blendDstAlphaFactor := Rhi.Zero;
    }

    /** Appends one shader; every other field is kept. */
    method AttachShader(shaderType: Rhi.ShaderType, path: string)
      modifies this
      ensures attachedShaders == old(attachedShaders) + [AttachedShader(shaderType, path)]
      ensures Config() == old(Config()).(shaders := attachedShaders)
      ensures Settings() == old(Settings())
    {
      attachedShaders := attachedShaders + [AttachedShader(shaderType, path)];
    }
  }
}
