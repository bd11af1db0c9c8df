# Static-mesh pipeline and pipeline builders, modelled in Dafny

This project models two pieces of a small Vulkan renderer.

**The static-mesh draw path** (`MeshPipeline::ProcessObject`). It keeps a cache from mesh
descriptors to a pair of GPU buffers.
- A mesh seen for the first time gets a vertex buffer: positions first, then colours.
- It also gets an index buffer, but only when it has indices.
- Every call then binds the two vertex streams and the frame's uniform slot.
- The call ends with one draw: indexed when the cached index buffer exists, plain otherwise.

**The pipeline-description builders** (`DescriptorSetLayoutBuilder`, `PipelineLayoutBuilder`,
`PipelineBuilder`). They assemble Vulkan create-info records from their fields and hand them to
the driver. `PipelineBuilder::Make` first compiles one shader module per attached shader. It then
asks for the pipeline, and destroys the modules only when the pipeline was created.

Vulkan and the memory manager are not executed. They are replaced by objects that
record what they are asked to do:
- host events: buffer allocation, copy into a mapped buffer, flush;
- a command log;
- device events: module creation and destruction, and the create requests with their
  result codes.

Handles are natural numbers handed out by a counter, and 0 is `VK_NULL_HANDLE`. The result
code of every create call is a parameter of the model, because the driver decides it.

Modules:
- `Rhi`: the enumerations of `Context.hpp`.
- `Vk`: the Vulkan values used and the `uint32_t` cast.
- `MeshIdentity`: `StaticMesh`, its byte-wise equality and hash.
- `MeshShaderApi`: the vertex bindings, attributes and descriptor tables of the mesh
  shaders.
- `MeshCache`: the pure specification of the cache and of one draw call, and lemmas over
  sequences of calls.
- `StaticMeshPipeline`: the imperative classes, proved equal to `MeshCache`.
- `PipelineSpec`: the create-info records, the shader-stage table and the device events
  of a build, as functions.
- `Builders`: the builder classes, proved equal to `PipelineSpec`.

Properties worth reading first:
- `MeshCache.OneUploadPerDistinctMesh`: over any sequence of calls, the number of vertex
  buffers allocated is the number of distinct meshes that were not already cached.
- `MeshCache.ReplayReusesPairs`: every draw of one mesh uses the same buffers.
- Identity is by address, not by content: a caller that rewrites a mesh's arrays in place,
  at the same addresses, hits the cache and keeps drawing the first upload. The hit case
  of `MeshCache.LookupSpec` states this, since a hit uploads nothing whatever the arrays
  now hold.
- `PipelineSpec.ModulesBalanced`: a successful `Make` destroys exactly the modules it
  created. A failed `Make` throws with all of them still alive; the shader modules leak
  on the error path.

## Model

| member | source | states |
|---|---|---|
| Rhi.Ordinal | Source/Graphics/RHI/Context.hpp:18-26 | the value `static_cast<size_t>` gives a shader type is below 6, the size of the stage table |
| Rhi.OrdinalInjective | Source/Graphics/RHI/Context.hpp:18-26 | distinct shader types have distinct underlying values |
| Vk.U32 | Source/Rendering/VulkanImpl/Pipelines/MeshPipeline.cpp:168-171 | `static_cast<uint32_t>` yields a 32-bit value, is the identity below 2^32 and changes every larger count |
| MeshIdentity.SameBytesIsEquality | Source/Rendering/VulkanImpl/Pipelines/MeshPipeline.cpp:29-32 | the `memcmp` equality of two meshes holds exactly when every field (counts and data addresses) is equal |
| MeshIdentity.HashReadsCountAndVertices | Source/Rendering/VulkanImpl/Pipelines/MeshPipeline.cpp:19-25 | the hash depends only on the vertex count and the vertex address, whatever the two `hash_combine` instantiations are |
| MeshIdentity.EqualMeshesEqualHashes | Source/Rendering/VulkanImpl/Pipelines/MeshPipeline.cpp:19-32 | meshes equal under `operator==` have equal hashes, so the hash is consistent with the equality |
| MeshIdentity.ColorsDoNotReachTheHash | Source/Rendering/VulkanImpl/Pipelines/MeshPipeline.cpp:19-32 | two meshes differing only in their colour pointer collide in the hash yet are different keys |
| MeshShaderApi.BindingsWellFormed | Source/Rendering/VulkanImpl/Pipelines/MeshPipeline.cpp:207-226 | two per-vertex bindings numbered 0 and 1 with strides 8 (vec2) and 12 (vec3), together the per-vertex size of the vertex buffer |
| MeshShaderApi.AttributesMatchBindings | Source/Rendering/VulkanImpl/Pipelines/MeshPipeline.cpp:228-251 | position at location 0 reads binding 0 as R32G32, colour at location 1 reads binding 1 as R32G32B32, each at offset 0 and with the size of its binding's stride; locations are distinct and every binding read exists |
| MeshShaderApi.PoolCoversLayout | Source/Rendering/VulkanImpl/Pipelines/MeshPipeline.cpp:253-277 | one uniform-buffer binding at 0 for the fragment stage, and the pool reserves exactly as many descriptors of each type as the layout declares |
| MeshCache.UploadFillsBuffers | Source/Rendering/VulkanImpl/Pipelines/MeshPipeline.cpp:117-148 | a miss allocates one vertex buffer of 20 bytes per vertex and copies positions to [0, 8n) and colours to [8n, 20n); the copies tile the buffer without overlap and stay inside it. It allocates an index buffer of 4 bytes per index exactly when there are indices and fills it completely; with no indices there is no index allocation or copy |
| MeshCache.OneDrawPerCall | Source/Rendering/VulkanImpl/Pipelines/MeshPipeline.cpp:157-171 | one call records exactly one draw, as its last command, after binding both vertex streams and then the uniform for the frame; the draw is indexed exactly when the index buffer is not null, draws the 32-bit index or vertex count once, and an index buffer is bound only then |
| MeshCache.EmptyWellFormed | Source/Rendering/VulkanImpl/Pipelines/MeshPipeline.cpp:69 | the empty cache satisfies the invariant (fresh handles above every cached one, no two entries sharing a buffer) |
| MeshCache.LookupSpec | Source/Rendering/VulkanImpl/Pipelines/MeshPipeline.cpp:117-148 | a hit leaves the cache unchanged and uploads nothing; a miss adds exactly that mesh, keeps every other entry, and uploads its buffers; either way the pair drawn with is the one now cached for the mesh |
| MeshCache.LookupPreservesWellFormed | Source/Rendering/VulkanImpl/Pipelines/MeshPipeline.cpp:117-148 | every lookup keeps the invariant: the new entry's buffers are fresh and shared with no other entry |
| MeshCache.LookupAllocs | Source/Rendering/VulkanImpl/Pipelines/MeshPipeline.cpp:117-148 | a lookup allocates one vertex buffer when the mesh is new and none when it is cached |
| MeshCache.IndexedDrawIffIndices | Source/Rendering/VulkanImpl/Pipelines/MeshPipeline.cpp:134-171 | with the invariant, a call draws indexed exactly when the mesh has a positive index count |
| MeshCache.VertexStreamsMatchUpload | Source/Rendering/VulkanImpl/Pipelines/MeshPipeline.cpp:120-161 | both vertex streams are bound from the buffer the miss filled, at the offsets where positions and colours were copied |
| MeshCache.ReplayKeepsEntries | Source/Rendering/VulkanImpl/Pipelines/MeshPipeline.cpp:114-172 | over any sequence of calls no cached entry ever changes, and the cache ends with the old keys plus the meshes drawn |
| MeshCache.ReplayReusesPairs | Source/Rendering/VulkanImpl/Pipelines/MeshPipeline.cpp:114-172 | every call draws with the pair finally cached for its mesh, so repeated draws of one mesh use the same buffers |
| MeshCache.OneUploadPerDistinctMesh | Source/Rendering/VulkanImpl/Pipelines/MeshPipeline.cpp:114-172 | vertex-buffer allocations over a sequence of calls number exactly the distinct meshes not already cached |
| MeshCache.LookupIndexAllocs | Source/Rendering/VulkanImpl/Pipelines/MeshPipeline.cpp:134-147 | a lookup allocates an index buffer exactly when the mesh is not cached and has a positive index count |
| MeshCache.OneIndexUploadPerDistinctIndexedMesh | Source/Rendering/VulkanImpl/Pipelines/MeshPipeline.cpp:114-172 | index-buffer allocations over a sequence of calls number exactly the distinct meshes with indices that were not already cached |
| MeshCache.ReplayDrawsOncePerCall | Source/Rendering/VulkanImpl/Pipelines/MeshPipeline.cpp:114-172 | a sequence of calls records exactly one draw per call |
| MeshCache.TwoFramesOneUpload | Source/Rendering/VulkanImpl/Pipelines/MeshPipeline.cpp:114-172 | a 4-vertex mesh without indices drawn in frames 0 and 1 is uploaded once and drawn twice, non-indexed, with 4 vertices and the same buffers |
| MeshCache.OtherColorsOtherEntry | Source/Rendering/VulkanImpl/Pipelines/MeshPipeline.cpp:19-32 | a mesh differing only in its colour pointer misses the cache and gets its own buffers |
| StaticMeshPipeline.MeshPipeline.constructor | Source/Rendering/VulkanImpl/Pipelines/MeshPipeline.cpp:92 | the pipeline starts with an empty cache, and uniform binding 0 is allocated with 4 slots, buffered per frame |
| StaticMeshPipeline.MeshPipeline.UploadMesh | Source/Rendering/VulkanImpl/Pipelines/MeshPipeline.cpp:120-144 | the miss path issues exactly the allocations, copies and flushes of the specification and returns the fresh pair |
| StaticMeshPipeline.MeshPipeline.RecordDraw | Source/Rendering/VulkanImpl/Pipelines/MeshPipeline.cpp:157-171 | the commands recorded are exactly the specified binds and draw |
| StaticMeshPipeline.MeshPipeline.ProcessObject | Source/Rendering/VulkanImpl/Pipelines/MeshPipeline.cpp:114-172 | one call keeps the cache invariant. The new cache, the uploads and the recorded commands are those of the specification's lookup and draw. The uniform is uploaded once, as one float, only in frame 0, and its slot configuration is untouched |
| PipelineSpec.StageFlagInDeclarationOrder | Source/Graphics/RHI/Vulkan/Utils/PipelineBuilder.cpp:10-19 | the six shader types map in declaration order to the vertex, tessellation control, tessellation evaluation, geometry, fragment and compute stages; the k-th type gets flag bit 2^k |
| PipelineSpec.StageFlagInjective | Source/Graphics/RHI/Vulkan/Utils/PipelineBuilder.cpp:10-19 | no two shader types map to the same stage |
| PipelineSpec.StageInfosInOrder | Source/Graphics/RHI/Vulkan/Utils/PipelineBuilder.cpp:154-166 | there is one stage info per attached shader, in attachment order, with the stage its type maps to, its own freshly built module and entry point "main" |
| PipelineSpec.MakeFixesState | Source/Graphics/RHI/Vulkan/Utils/PipelineBuilder.cpp:92-186 | whatever the builder holds: triangle lists without restart, one viewport and scissor, filled back-face-culled clockwise polygons, one sample, no depth-stencil state, the builder's line width; every count is the length of its list; layout, render pass and subpass are the caller's |
| PipelineSpec.ModulesBalanced | Source/Graphics/RHI/Vulkan/Utils/PipelineBuilder.cpp:154-196 | one fresh module per shader is created before the pipeline request. On success exactly those modules are destroyed, in order, after the request. On failure the request is the last event and no module is destroyed |
| Builders.DescriptorSetLayoutBuilder.Make | Source/Graphics/RHI/Vulkan/Utils/PipelineBuilder.cpp:25-38 | requests a layout over all bindings held with the matching count; success returns the new non-null handle, failure the descriptor-set-layout error carrying the result code |
| Builders.DescriptorSetLayoutBuilder.Reset | Source/Graphics/RHI/Vulkan/Utils/PipelineBuilder.cpp:40-43 | the binding list becomes empty |
| Builders.PipelineLayoutBuilder.Make | Source/Graphics/RHI/Vulkan/Utils/PipelineBuilder.cpp:50-65 | requests a pipeline layout over all set layouts held and no push-constant ranges; success returns the new non-null handle, failure the pipeline-layout error carrying the result code |
| Builders.PipelineBuilder.constructor | Source/Graphics/RHI/Vulkan/Utils/PipelineBuilder.cpp:72-86 | viewport and scissor are dynamic states. There is one colour attachment: blending off, RGBA written, One/Zero factors and Add for colour and alpha |
| Builders.PipelineBuilder.Make | Source/Graphics/RHI/Vulkan/Utils/PipelineBuilder.cpp:89-202 | the device sees exactly the module creations, the pipeline request and, on success only, the module destructions of the specification. Success yields the specified create-info; failure yields the graphics-pipeline error carrying the result code |
| Builders.PipelineBuilder.BuildStages | Source/Graphics/RHI/Vulkan/Utils/PipelineBuilder.cpp:154-166 | the shader loop builds one fresh module per attached shader, in order, and the stage infos of the specification for them |
| Builders.DestroyModules | Source/Graphics/RHI/Vulkan/Utils/PipelineBuilder.cpp:194-196 | the cleanup loop destroys every compiled module once, in creation order, and nothing else |
| Builders.PipelineBuilder.Reset | Source/Graphics/RHI/Vulkan/Utils/PipelineBuilder.cpp:204-218 | line width 1.0, fill, no culling, counter-clockwise, blending off with Add/Add and One/Zero/One/Zero; the lists `Make` reads are kept |
| Builders.PipelineBuilder.AttachShader | Source/Graphics/RHI/Vulkan/Utils/PipelineBuilder.cpp:220-223 | appends the (type, path) pair and leaves every other field alone |

## Left out

- Vulkan, the memory manager and shader compilation are not executed. The model records the
  requests made to them. A create call's result code is a parameter, and handles come from a
  counter.
- `BuildShaderModule`: its body is not part of this model. The model assumes it always
  returns a fresh module.
- StaticMeshPipeline.MeshPipeline.UploadMesh: the memory manager's `AllocBuffer`, `Map` and
  `Flush` always succeed in the model, because the memory manager's source is not part of this
  model. A miss that fails part-way, and so never reaches the insert, is not modelled. The
  one-upload-per-mesh lemmas rely on this.
- The `sin` oscillator (`timer`) is not modelled, as floating point. The model records that a
  float-sized upload happens in frame 0, not its value.
- `BeginProcessing` is not modelled: it binds the pipeline and sets the viewport and scissor from
  floating-point conversions of the rectangle. `EndProcessing` is empty.
- The `MeshPipeline` constructor's `SetShaderAPI`, `AttachShader` and `Build` chain is not
  modelled, because it goes through a builder whose source is not part of this model.
  `ResolveShaderPath`, `CreateMeshPipeline` and the `typeid` dispatcher `ProcessWithPipeline`
  are not modelled either.
- `SubpassDescriptionBuilder<StaticMesh>::Get` is not modelled: it only fills one static
  colour-attachment reference.
- Mapping and unmapping a buffer are folded into the copy events.
- `hash_combine` is two function parameters, one per instantiation (count and pointer), because its body is not part of this model.
- `memcmp` equality is modelled as field-by-field equality. Struct padding bytes are not modelled.
- Byte sizes and offsets (`size_t`, `VkDeviceSize`) are unbounded. Their 64-bit wrap-around
  is not modelled. The `uint32_t` draw counts are cast explicitly.
- Builders.PipelineBuilder.Make: the `uint32_t` casts of list sizes in the create-infos are
  not modelled. Counts are the exact lengths.
- Builders.DescriptorSetLayoutBuilder.Make: the `uint32_t` cast of the binding count is not
  modelled. The count is the exact length of the binding list.
- Builders.PipelineLayoutBuilder.Make: the `uint32_t` cast of the set-layout count is not
  modelled. The count is the exact length of the layout list.
- The builder's line width is a C++ `float`, modelled as a `real`. It is only copied into
  the rasterisation state, never computed with, so float rounding cannot arise.
- Builders.PipelineBuilder.Make: the source function is declared to return a `vk::Pipeline`
  but has no `return` statement. The model returns the create-info it submitted, and the
  created pipeline handle is discarded.
- Builders.PipelineBuilder.constructor: the defaults from the class's declaration are not
  constrained. The header is not part of this model, so line width, polygon mode, culling and
  blend settings start unspecified; only the lists are known to start empty.
- Setters of the builders declared in the header (adding bindings, layouts, blend settings)
  are not part of this model. Their fields are public in the model.
- The command-buffer state machine, the render interfaces of `Context.hpp`, `VulkanContext`
  and `main.cpp` are outside the modelled core.

`Reset` writes the polygon mode, culling, front face and blend factors, but `Make` reads
none of them: it hard-codes fill, back-face culling and clockwise front faces. So after
`Reset` only the line width reaches the pipeline.
