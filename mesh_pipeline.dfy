/** The static-mesh pipeline's draw path (`MeshPipeline` in
    Source/Rendering/VulkanImpl/Pipelines/MeshPipeline.cpp) over a modelled memory manager,
    uniform binding and command buffer. Each call is proved to do exactly what
    `MeshCache.Lookup` and `MeshCache.DrawCommands` describe. */
module StaticMeshPipeline {
  import Vk
  import opened MeshIdentity
  import opened MeshShaderApi
  import opened MeshCache

  /** The context's memory manager: hands out fresh buffer handles and logs what is done to
      memory through mapped pointers. */
  class MemoryManager {
    var next: Vk.Handle
    var events: seq<HostEvent>

    ghost predicate Valid()
      reads this
    {
      next > Vk.NullHandle
    }

    constructor ()
      ensures Valid() && next == 1 && events == []
    {
      next := 1;
      events := [];
    }

    /** `AllocBuffer(size, usage)`: a new buffer with a handle never issued before. */
    method AllocBuffer(size: nat, usage: Vk.BufferUsage) returns (h: Vk.Handle)
      requires Valid()
      modifies this
      ensures Valid()
      ensures h == old(next) && next == old(next) + 1
      ensures events == old(events) + [Alloc(h, size, usage)]
    {
      h := next;
      next := next + 1;
      events := events + [Alloc(h, size, usage)];
    }

    /** `memcpy` of `length` bytes from `source` into the mapped buffer at `offset`. */
    method Copy(h: Vk.Handle, offset: nat, source: Address, length: nat)
      modifies this
      ensures next == old(next)
      ensures events == old(events) + [HostEvent.Copy(h, offset, source, length)]
    {
      events := events + [HostEvent.Copy(h, offset, source, length)];
    }

    /** `Flush()`: make the host writes visible to the device. */
    method Flush(h: Vk.Handle)
      modifies this
      ensures next == old(next)
      ensures events == old(events) + [HostEvent.Flush(h)]
    {
      events := events + [HostEvent.Flush(h)];
    }
  }

  /** A command buffer being recorded: the commands so far. */
  class CommandBuffer {
    var commands: seq<Command>

    constructor ()
      ensures commands == []
    {
      commands := [];
    }

    method Record(c: Command)
      modifies this
      ensures commands == old(commands) + [c]
    {
      commands := commands + [c];
    }
  }

  /** One uniform binding of the pipeline: its allocation and the sizes of the values uploaded
      into it. The uploaded bytes themselves are not modelled. */
  class UniformBinding {
    const slot: nat
    var slots: nat
    var perFrame: bool
    var uploads: seq<nat>

    constructor (slot: nat)
      ensures this.slot == slot && slots == 0 && uploads == []
    {
      this.slot := slot;
      slots := 0;
      perFrame := false;
      uploads := [];
    }

    /** `Alloc(slot_count, per_frame)`. */
    method Alloc(slotCount: nat, perFrameBuffered: bool)
      modifies this
      ensures slots == slotCount && perFrame == perFrameBuffered && uploads == old(uploads)
    {
      slots := slotCount;
      perFrame := perFrameBuffered;
    }

    /** `Upload(data, size)`. */
    method Upload(size: nat)
      modifies this
      ensures slots == old(slots) && perFrame == old(perFrame)
      ensures uploads == old(uploads) + [size]
    {
      uploads := uploads + [size];
    }

    /** `Bind(buffer, layout, frame_index)`: records the descriptor bind for one frame slot. */
    method Bind(buffer: CommandBuffer, frameIndex: nat)
      modifies buffer
      ensures buffer.commands == old(buffer.commands) + [BindUniform(slot, frameIndex)]
    {
      buffer.Record(BindUniform(slot, frameIndex));
    }
  }

  class MeshPipeline {
    const memory: MemoryManager
    const uniform: UniformBinding
    /** The geometry cache: at most one buffer pair per distinct descriptor, never evicted. */
    var cache: map<StaticMesh, BuffersPair>

    ghost function State(): CacheState
      reads this, memory
    {
      CacheState(cache, memory.next)
    }

    ghost predicate Valid()
      reads this, memory, uniform
    {
      && memory.Valid()
      && uniform.slot == 0
      && WellFormed(State())
    }

    /** Starts with an empty cache and four per-frame uniform slots at binding 0. */
    constructor (memory: MemoryManager, uniform: UniformBinding)
      requires memory.Valid() && uniform.slot == 0
      modifies uniform
      ensures Valid()
      ensures this.memory == memory && this.uniform == uniform
      ensures cache == map[] && uniform.slots == 4 && uniform.perFrame
      ensures uniform.uploads == old(uniform.uploads)
    {
      this.memory := memory;
      this.uniform := uniform;
      cache := map[];
      new;
      uniform.Alloc(4, true);
    }

    /** The miss path: allocate and fill the vertex buffer (positions, then colours at the
        running offset), and an index buffer only when the mesh has indices. */
    method UploadMesh(mesh: StaticMesh) returns (pair: BuffersPair)
      requires memory.Valid()
      modifies memory
      ensures memory.Valid()
      ensures pair == NewPair(mesh, old(memory.next))
      ensures memory.next == old(memory.next) + HandlesUsed(mesh)
      ensures memory.events == old(memory.events) + UploadEvents(mesh, old(memory.next))
    {
      ghost var next0, events0 := memory.next, memory.events;
      var size := mesh.verticesCount * (Vec2Size + Vec3Size);
      var vertBuffer := memory.AllocBuffer(size, Vk.VertexBufferUsage);
      var offset := 0;
      memory.Copy(vertBuffer, offset, mesh.vertices, mesh.verticesCount * Vec2Size);
      offset := offset + mesh.verticesCount * Vec2Size;
      memory.Copy(vertBuffer, offset, mesh.colors, mesh.verticesCount * Vec3Size);
      memory.Flush(vertBuffer);
      assert memory.events == events0 + VertexUpload(mesh, next0);
      var indBuffer := Vk.NullHandle;
      if mesh.indicesCount > 0 {
        indBuffer := memory.AllocBuffer(mesh.indicesCount * IndexSize, Vk.IndexBufferUsage);
        memory.Copy(indBuffer, 0, mesh.indices, mesh.indicesCount * IndexSize);
        memory.Flush(indBuffer);
      }
      assert memory.events == events0 + VertexUpload(mesh, next0) + IndexUpload(mesh, next0 + 1);
      pair := BuffersPair(vertBuffer, indBuffer);
    }

    /** Record the binds and the one draw for a mesh whose buffers are `pair`. */
    method RecordDraw(buffer: CommandBuffer, frameIndex: nat, mesh: StaticMesh, pair: BuffersPair)
      requires uniform.slot == 0
      modifies buffer
      ensures buffer.commands == old(buffer.commands) + DrawCommands(pair, mesh, frameIndex)
    {
      var hasIndices := pair.indexBuffer != Vk.NullHandle;
      buffer.Record(BindVertexBuffers(0, [pair.vertexBuffer, pair.vertexBuffer],
                                      [0, mesh.verticesCount * Vec2Size]));
      uniform.Bind(buffer, frameIndex);
      if hasIndices {
        buffer.Record(BindIndexBuffer(pair.indexBuffer, 0, Vk.Uint32));
        buffer.Record(DrawIndexed(Vk.U32(mesh.indicesCount), 1, 0, 0, 0));
      } else {
        buffer.Record(Draw(Vk.U32(mesh.verticesCount), 1, 0, 0));
      }
    }

    /** Draw one mesh: find or create its buffers, upload the uniform on frame slot 0 only,
        bind both vertex streams and the uniform, then issue exactly one draw. */
    method ProcessObject(buffer: CommandBuffer, frameIndex: nat, mesh: StaticMesh)
      requires Valid()
      modifies this, memory, uniform, buffer
      ensures Valid()
      ensures State() == Lookup(old(State()), mesh).state
      ensures memory.events == old(memory.events) + Lookup(old(State()), mesh).uploads
      ensures uniform.slots == old(uniform.slots) && uniform.perFrame == old(uniform.perFrame)
      ensures uniform.uploads == old(uniform.uploads) + (if frameIndex == 0 then [FloatSize] else [])
      ensures buffer.commands
              == old(buffer.commands) + DrawCommands(Lookup(old(State()), mesh).pair, mesh, frameIndex)
    {
      ghost var s0 := State();
      var pair: BuffersPair;
      if mesh in cache {
        pair := cache[mesh];
      } else {
        pair := UploadMesh(mesh);
        cache := cache[mesh := pair];
      }
      assert State() == Lookup(s0, mesh).state && pair == Lookup(s0, mesh).pair;
      LookupPreservesWellFormed(s0, mesh);

      if frameIndex == 0 {
        uniform.Upload(FloatSize);
      }
      RecordDraw(buffer, frameIndex, mesh, pair);
    }
  }
}
