/** What one `MeshPipeline::ProcessObject` call does, as values
    (Source/Rendering/VulkanImpl/Pipelines/MeshPipeline.cpp): the cache lookup, the buffer
    uploads of a miss, and the commands recorded on every call. The class in
    StaticMeshPipeline performs these steps one at a time and is proved equal to them. */
module MeshCache {
  import Vk
  import opened MeshIdentity
  import opened MeshShaderApi

  /** The cached GPU buffers of one mesh; `indexBuffer` is `NullHandle` when there is none. */
  datatype BuffersPair = BuffersPair(vertexBuffer: Vk.Handle, indexBuffer: Vk.Handle)

  /** A host-side effect on GPU memory: allocation, a `memcpy` into a mapped buffer at a byte
      offset, and the flush that makes it visible to the device. */
  datatype HostEvent =
    | Alloc(buffer: Vk.Handle, size: nat, usage: Vk.BufferUsage)
    | Copy(buffer: Vk.Handle, offset: nat, source: Address, length: nat)
    | Flush(buffer: Vk.Handle)

  /** A command recorded into the command buffer. */
  datatype Command =
    | BindVertexBuffers(firstBinding: nat, buffers: seq<Vk.Handle>, offsets: seq<nat>)
    | BindUniform(slot: nat, frameIndex: nat)
    | BindIndexBuffer(buffer: Vk.Handle, offset: nat, indexType: Vk.IndexType)
    | DrawIndexed(indexCount: nat, instanceCount: nat, firstIndex: nat, vertexOffset: int, firstInstance: nat)
    | Draw(vertexCount: nat, instanceCount: nat, firstVertex: nat, firstInstance: nat)

  // ---------------------------------------------------------------- byte layout of a miss

  /** Bytes of the vertex buffer: every vertex's position and colour. */
  function VertexBufferSize(m: StaticMesh): nat
  {
    m.verticesCount * (Vec2Size + Vec3Size)
  }

  /** Where the colour stream starts: right after all positions. */
  function ColorsOffset(m: StaticMesh): nat
  {
    m.verticesCount * Vec2Size
  }

  function IndexBufferSize(m: StaticMesh): nat
  {
    m.indicesCount * IndexSize
  }

  /** Allocate the vertex buffer, copy positions then colours, flush. */
  function VertexUpload(m: StaticMesh, vb: Vk.Handle): seq<HostEvent>
  {
    [ Alloc(vb, VertexBufferSize(m), Vk.VertexBufferUsage),
      Copy(vb, 0, m.vertices, m.verticesCount * Vec2Size),
      Copy(vb, ColorsOffset(m), m.colors, m.verticesCount * Vec3Size),
      Flush(vb) ]
  }

  /** Allocate, fill and flush an index buffer only when the mesh has indices. */
  function IndexUpload(m: StaticMesh, ib: Vk.Handle): seq<HostEvent>
  {
    if m.indicesCount > 0 then
      [ Alloc(ib, IndexBufferSize(m), Vk.IndexBufferUsage),
        Copy(ib, 0, m.indices, IndexBufferSize(m)),
        Flush(ib) ]
    else []
  }

  /** Everything a miss does to memory, the allocator's next handle being `next`. */
  function UploadEvents(m: StaticMesh, next: Vk.Handle): seq<HostEvent>
  {
    VertexUpload(m, next) + IndexUpload(m, next + 1)
  }

  /** A byte range written into one buffer, and where it was copied from. */
  datatype Region = Region(offset: nat, length: nat, source: Address)

  /** The copies into buffer `h`, in order. */
  function CopiesTo(events: seq<HostEvent>, h: Vk.Handle): seq<Region>
    decreases |events|
  {
    if events == [] then []
    else
      (if events[0].Copy? && events[0].buffer == h
       then [Region(events[0].offset, events[0].length, events[0].source)] else [])
      + CopiesTo(events[1..], h)
  }

  /** The regions follow one another without gap or overlap and cover exactly [from, to). */
  predicate Tiles(rs: seq<Region>, from: nat, to: nat)
    decreases |rs|
  {
    if rs == [] then from == to
    else rs[0].offset == from && Tiles(rs[1..], from + rs[0].length, to)
  }

  /** Every copy and flush targets a buffer allocated earlier, and every copy stays inside
      that buffer; `sizes` holds the sizes of the buffers allocated so far. */
  predicate CopiesInBounds(events: seq<HostEvent>, sizes: map<Vk.Handle, nat>)
    decreases |events|
  {
    if events == [] then true
    else match events[0]
      case Alloc(h, size, _) => CopiesInBounds(events[1..], sizes[h := size])
      case Copy(h, offset, _, length) =>
        h in sizes && offset + length <= sizes[h] && CopiesInBounds(events[1..], sizes)
      case Flush(h) => h in sizes && CopiesInBounds(events[1..], sizes)
  }

  /** Number of allocations with the given usage. */
  function CountAllocs(events: seq<HostEvent>, usage: Vk.BufferUsage): nat
    decreases |events|
  {
    if events == [] then 0
    else (if events[0].Alloc? && events[0].usage == usage then 1 else 0) + CountAllocs(events[1..], usage)
  }

  lemma {:induction false} CopiesToAppend(a: seq<HostEvent>, b: seq<HostEvent>, h: Vk.Handle)
    ensures CopiesTo(a + b, h) == CopiesTo(a, h) + CopiesTo(b, h)
    decreases |a|
  {
    if a == [] {
      assert a + b == b;
    } else {
      assert (a + b)[0] == a[0] && (a + b)[1..] == a[1..] + b;
      CopiesToAppend(a[1..], b, h);
    }
  }

  lemma {:induction false} CountAllocsAppend(a: seq<HostEvent>, b: seq<HostEvent>, usage: Vk.BufferUsage)
    ensures CountAllocs(a + b, usage) == CountAllocs(a, usage) + CountAllocs(b, usage)
    decreases |a|
  {
    if a == [] {
      assert a + b == b;
    } else {
      assert (a + b)[0] == a[0] && (a + b)[1..] == a[1..] + b;
      CountAllocsAppend(a[1..], b, usage);
    }
  }

  /** Unfolding the event filters once. */
  lemma ConsEvent(e: HostEvent, rest: seq<HostEvent>, h: Vk.Handle)
    ensures CopiesTo([e] + rest, h)
      == (if e.Copy? && e.buffer == h then [Region(e.offset, e.length, e.source)] else []) + CopiesTo(rest, h)
    ensures forall u: Vk.BufferUsage ::
      CountAllocs([e] + rest, u) == (if e.Alloc? && e.usage == u then 1 else 0) + CountAllocs(rest, u)
  {
    assert ([e] + rest)[0] == e && ([e] + rest)[1..] == rest;
  }

  /** The vertex part of a miss: two adjacent copies into `vb`, and it stays in bounds
      whenever what follows does, given the buffer it allocated. */
  lemma {:induction false} VertexUploadFacts(m: StaticMesh, vb: Vk.Handle, other: Vk.Handle, rest: seq<HostEvent>)
    requires other != vb
    ensures var v := VertexUpload(m, vb);
      && CopiesTo(v, vb) == [ Region(0, 8 * m.verticesCount, m.vertices),
                              Region(8 * m.verticesCount, 12 * m.verticesCount, m.colors) ]
      && CopiesTo(v, other) == []
      && CountAllocs(v, Vk.VertexBufferUsage) == 1
      && CountAllocs(v, Vk.IndexBufferUsage) == 0
      && (CopiesInBounds(rest, map[vb := VertexBufferSize(m)]) ==> CopiesInBounds(v + rest, map[]))
  {
    var v := VertexUpload(m, vb);
    assert [v[3]] + [] == [v[3]];
    assert v == [v[0]] + ([v[1]] + ([v[2]] + [v[3]]));
    ConsEvent(v[3], [], vb); ConsEvent(v[3], [], other);
    ConsEvent(v[2], [v[3]], vb); ConsEvent(v[2], [v[3]], other);
    ConsEvent(v[1], [v[2]] + [v[3]], vb); ConsEvent(v[1], [v[2]] + [v[3]], other);
    ConsEvent(v[0], [v[1]] + ([v[2]] + [v[3]]), vb); ConsEvent(v[0], [v[1]] + ([v[2]] + [v[3]]), other);
    var r := v + rest;
    var sizes := map[vb := VertexBufferSize(m)];
    if CopiesInBounds(rest, sizes) {
      assert r[1..][1..][1..] == [Flush(vb)] + rest;
      assert r[1..][1..][1..][1..] == rest;
      assert CopiesInBounds(r[1..][1..][1..], sizes);
      assert r[1..][1..] == [v[2]] + ([Flush(vb)] + rest);
      assert CopiesInBounds(r[1..][1..], sizes);
      assert r[1..] == [v[1]] + ([v[2]] + ([Flush(vb)] + rest));
      assert CopiesInBounds(r[1..], sizes);
      assert map[][vb := VertexBufferSize(m)] == sizes;
    }
  }

  /** The index part of a miss: nothing without indices; otherwise one copy filling `ib`,
      in bounds under any earlier allocations. */
  lemma {:induction false} IndexUploadFacts(m: StaticMesh, ib: Vk.Handle, other: Vk.Handle, sizes: map<Vk.Handle, nat>)
    requires other != ib
    ensures var i := IndexUpload(m, ib);
      && CopiesTo(i, other) == []
      && CountAllocs(i, Vk.VertexBufferUsage) == 0
      && CountAllocs(i, Vk.IndexBufferUsage) == (if m.indicesCount > 0 then 1 else 0)
      && CopiesTo(i, ib) == (if m.indicesCount > 0 then [ Region(0, 4 * m.indicesCount, m.indices) ] else [])
      && CopiesInBounds(i, sizes)
      && (m.indicesCount > 0 ==> |i| == 3 && i[0] == Alloc(ib, 4 * m.indicesCount, Vk.IndexBufferUsage))
      && (m.indicesCount == 0 ==> i == [])
  {
    var i := IndexUpload(m, ib);
    if m.indicesCount > 0 {
      assert [i[2]] + [] == [i[2]];
      assert i == [i[0]] + ([i[1]] + [i[2]]);
      ConsEvent(i[2], [], ib); ConsEvent(i[2], [], other);
      ConsEvent(i[1], [i[2]], ib); ConsEvent(i[1], [i[2]], other);
      ConsEvent(i[0], [i[1]] + [i[2]], ib); ConsEvent(i[0], [i[1]] + [i[2]], other);
      var n := IndexBufferSize(m);
      assert i[1..][1..] == [Flush(ib)] && [Flush(ib)][1..] == [];
      assert CopiesInBounds(i[1..][1..], sizes[ib := n]);
      assert CopiesInBounds(i[1..], sizes[ib := n]);
    }
  }

  /** A miss fills the vertex buffer exactly: positions from `vertices` at [0, 8n), colours
      from `colors` at [8n, 20n), nothing outside the 20n bytes allocated. An index buffer of
      4 bytes per index is allocated and filled exactly when the mesh has indices. */
  lemma {:induction false} UploadFillsBuffers(m: StaticMesh, next: Vk.Handle)
    ensures var r := UploadEvents(m, next);
      && r[0] == Alloc(next, VertexBufferSize(m), Vk.VertexBufferUsage)
      && VertexBufferSize(m) == 20 * m.verticesCount
      && CopiesTo(r, next) == [ Region(0, 8 * m.verticesCount, m.vertices),
                                Region(8 * m.verticesCount, 12 * m.verticesCount, m.colors) ]
      && Tiles(CopiesTo(r, next), 0, VertexBufferSize(m))
      && CopiesInBounds(r, map[])
      && CountAllocs(r, Vk.VertexBufferUsage) == 1
      && CountAllocs(r, Vk.IndexBufferUsage) == (if m.indicesCount > 0 then 1 else 0)
      && (m.indicesCount > 0 ==>
            && r[4] == Alloc(next + 1, 4 * m.indicesCount, Vk.IndexBufferUsage)
            && CopiesTo(r, next + 1) == [ Region(0, 4 * m.indicesCount, m.indices) ]
            && Tiles(CopiesTo(r, next + 1), 0, IndexBufferSize(m)))
      && (m.indicesCount == 0 ==> CopiesTo(r, next + 1) == [] && |r| == 4)
  {
    var v, i := VertexUpload(m, next), IndexUpload(m, next + 1);
    var sizes := map[next := VertexBufferSize(m)];
    IndexUploadFacts(m, next + 1, next, sizes);
    VertexUploadFacts(m, next, next + 1, i);
    CopiesToAppend(v, i, next);
    CopiesToAppend(v, i, next + 1);
    CountAllocsAppend(v, i, Vk.VertexBufferUsage);
    CountAllocsAppend(v, i, Vk.IndexBufferUsage);
    var vc := m.verticesCount;
    var rs := CopiesTo(v + i, next);
    assert rs[1..] == [Region(8 * vc, 12 * vc, m.colors)] && rs[1..][1..] == [];
    assert Tiles(rs[1..][1..], 20 * vc, 20 * vc);
    assert Tiles(rs[1..], 8 * vc, 20 * vc);
    if m.indicesCount > 0 {
      var ir := CopiesTo(v + i, next + 1);
      assert ir[1..] == [];
    }
  }

  // ---------------------------------------------------------------- commands of every call

  /** Bind both vertex streams from the one vertex buffer, bind the uniform for this frame,
      then draw: indexed when there is an index buffer, otherwise by vertex count. Counts are
      narrowed to 32 bits as the draw calls take them. */
  function DrawCommands(p: BuffersPair, m: StaticMesh, frameIndex: nat): seq<Command>
  {
    [ BindVertexBuffers(0, [p.vertexBuffer, p.vertexBuffer], [0, ColorsOffset(m)]),
      BindUniform(0, frameIndex) ]
    + if p.indexBuffer != Vk.NullHandle then
        [ BindIndexBuffer(p.indexBuffer, 0, Vk.Uint32),
          DrawIndexed(Vk.U32(m.indicesCount), 1, 0, 0, 0) ]
      else
        [ Draw(Vk.U32(m.verticesCount), 1, 0, 0) ]
  }

  predicate IsDraw(c: Command)
  {
    c.Draw? || c.DrawIndexed?
  }

  function CountDraws(cs: seq<Command>): nat
    decreases |cs|
  {
    if cs == [] then 0 else (if IsDraw(cs[0]) then 1 else 0) + CountDraws(cs[1..])
  }

  lemma {:induction false} CountDrawsAppend(a: seq<Command>, b: seq<Command>)
    ensures CountDraws(a + b) == CountDraws(a) + CountDraws(b)
    decreases |a|
  {
    if a == [] {
      assert a + b == b;
    } else {
      assert (a + b)[0] == a[0] && (a + b)[1..] == a[1..] + b;
      CountDrawsAppend(a[1..], b);
    }
  }

  /** Exactly one draw, and it is the last command, so both binds precede it. It is indexed,
      after an index-buffer bind, with the index count exactly when an index buffer exists;
      otherwise it draws the vertex count and no index buffer is bound. */
  lemma {:induction false} OneDrawPerCall(p: BuffersPair, m: StaticMesh, frameIndex: nat)
    ensures var r := DrawCommands(p, m, frameIndex);
      && CountDraws(r) == 1
      && IsDraw(r[|r| - 1])
      && (forall i :: 0 <= i < |r| - 1 ==> !IsDraw(r[i]))
      && r[0] == BindVertexBuffers(0, [p.vertexBuffer, p.vertexBuffer], [0, m.verticesCount * 8])
      && r[1] == BindUniform(0, frameIndex)
      && (r[|r| - 1].DrawIndexed? <==> p.indexBuffer != Vk.NullHandle)
      && (p.indexBuffer != Vk.NullHandle ==>
            && r[|r| - 2] == BindIndexBuffer(p.indexBuffer, 0, Vk.Uint32)
            && r[|r| - 1] == DrawIndexed(Vk.U32(m.indicesCount), 1, 0, 0, 0))
      && (p.indexBuffer == Vk.NullHandle ==>
            && r[|r| - 1] == Draw(Vk.U32(m.verticesCount), 1, 0, 0)
            && forall c :: c in r ==> !c.BindIndexBuffer?)
  {
    var r := DrawCommands(p, m, frameIndex);
    var head := [ BindVertexBuffers(0, [p.vertexBuffer, p.vertexBuffer], [0, ColorsOffset(m)]),
                  BindUniform(0, frameIndex) ];
    var tail := r[2..];
    assert r == head + tail;
    CountDrawsAppend(head, tail);
    assert head[1..][1..] == [];
    assert CountDraws(head) == 0;
    if p.indexBuffer != Vk.NullHandle {
      assert tail[1..][1..] == [];
    } else {
      assert tail[1..] == [];
    }
  }

  // ---------------------------------------------------------------- the cache

  /** The cache and the memory manager's next fresh handle. */
  datatype CacheState = CacheState(entries: map<StaticMesh, BuffersPair>, next: Vk.Handle)

  /** The cache a pipeline starts with. */
  const Empty: CacheState := CacheState(map[], 1)

  /** The result of one lookup: new state, the pair to draw with, and the uploads done. */
  datatype Outcome = Outcome(state: CacheState, pair: BuffersPair, uploads: seq<HostEvent>)

  /** The pair a miss creates: a fresh vertex buffer, and a fresh index buffer when the mesh
      has indices. */
  function NewPair(m: StaticMesh, next: Vk.Handle): BuffersPair
  {
    BuffersPair(next, if m.indicesCount > 0 then next + 1 else Vk.NullHandle)
  }

  function HandlesUsed(m: StaticMesh): nat
  {
    if m.indicesCount > 0 then 2 else 1
  }

  /** `cache.find(mesh)`; on a miss, upload and insert. */
  function Lookup(s: CacheState, m: StaticMesh): Outcome
  {
    if m in s.entries then Outcome(s, s.entries[m], [])
    else
      var p := NewPair(m, s.next);
      Outcome(CacheState(s.entries[m := p], s.next + HandlesUsed(m)), p, UploadEvents(m, s.next))
  }

  function Handles(p: BuffersPair): set<Vk.Handle>
  {
    {p.vertexBuffer} + if p.indexBuffer != Vk.NullHandle then {p.indexBuffer} else {}
  }

  /** An entry as the miss path builds it: real handles issued before `next`, and an index
      buffer exactly when the key has indices. */
  predicate EntryFits(k: StaticMesh, p: BuffersPair, next: Vk.Handle)
  {
    && Vk.NullHandle < p.vertexBuffer < next
    && p.indexBuffer < next
    && p.indexBuffer != p.vertexBuffer
    && (p.indexBuffer != Vk.NullHandle <==> k.indicesCount > 0)
  }

  /** The cache invariant: every entry fits, and no two entries share a buffer. */
  predicate WellFormed(s: CacheState)
  {
    && s.next > Vk.NullHandle
    && (forall k :: k in s.entries ==> EntryFits(k, s.entries[k], s.next))
    && (forall k1, k2 :: k1 in s.entries && k2 in s.entries && k1 != k2 ==>
          Handles(s.entries[k1]) !! Handles(s.entries[k2]))
  }

  lemma EmptyWellFormed()
    ensures WellFormed(Empty)
  {
  }

  /** A hit changes nothing and uploads nothing; a miss adds exactly the one key, leaves every
      existing entry as it was and allocates one vertex buffer. Either way the pair drawn with
      is the one the cache now holds for the mesh. */
  lemma LookupSpec(s: CacheState, m: StaticMesh)
    ensures var o := Lookup(s, m);
      && m in o.state.entries && o.state.entries[m] == o.pair
      && (m in s.entries ==> o.state == s && o.uploads == [])
      && (m !in s.entries ==>
            && o.state.entries.Keys == s.entries.Keys + {m}
            && (forall k :: k in s.entries ==> o.state.entries[k] == s.entries[k])
            && CountAllocs(o.uploads, Vk.VertexBufferUsage) == 1)
  {
    if m !in s.entries {
      UploadFillsBuffers(m, s.next);
    }
  }

  /** Every lookup keeps the cache invariant; in particular a miss's buffers are fresh, never
      one an existing entry already owns. */
  lemma LookupPreservesWellFormed(s: CacheState, m: StaticMesh)
    requires WellFormed(s)
    ensures WellFormed(Lookup(s, m).state)
  {
    if m !in s.entries {
      var t := Lookup(s, m).state;
      var p := NewPair(m, s.next);
      forall k | k in s.entries
        ensures Handles(s.entries[k]) !! Handles(p)
      {
        assert EntryFits(k, s.entries[k], s.next);
      }
      forall k1, k2 | k1 in t.entries && k2 in t.entries && k1 != k2
        ensures Handles(t.entries[k1]) !! Handles(t.entries[k2])
      {
        if k1 != m && k2 != m {
          assert t.entries[k1] == s.entries[k1] && t.entries[k2] == s.entries[k2];
        }
      }
    }
  }

  /** With the invariant, the draw is indexed exactly when the mesh has indices. */
  lemma IndexedDrawIffIndices(s: CacheState, m: StaticMesh, frameIndex: nat)
    requires WellFormed(s)
    ensures var r := DrawCommands(Lookup(s, m).pair, m, frameIndex);
      r[|r| - 1].DrawIndexed? <==> m.indicesCount > 0
  {
    LookupSpec(s, m);
    LookupPreservesWellFormed(s, m);
    var t := Lookup(s, m).state;
    assert EntryFits(m, t.entries[m], t.next);
    OneDrawPerCall(Lookup(s, m).pair, m, frameIndex);
  }

  /** Both vertex streams are bound from the buffer the miss filled, each at the offset where
      its data was copied, and each region is the vertex count times that binding's stride. */
  lemma {:induction false} VertexStreamsMatchUpload(m: StaticMesh, next: Vk.Handle, frameIndex: nat)
    ensures var bind := DrawCommands(NewPair(m, next), m, frameIndex)[0];
            var regions := CopiesTo(UploadEvents(m, next), next);
      && |bind.buffers| == |bind.offsets| == |regions| == |Bindings()|
      && forall i :: 0 <= i < |Bindings()| ==>
           && bind.buffers[i] == next
           && bind.offsets[i] == regions[i].offset
           && regions[i].length == m.verticesCount * Bindings()[i].stride
  {
    UploadFillsBuffers(m, next);
    OneDrawPerCall(NewPair(m, next), m, frameIndex);
    BindingsWellFormed();
  }

  // ---------------------------------------------------------------- many calls

  datatype Call = Call(frameIndex: nat, mesh: StaticMesh)

  /** What a sequence of calls produces: final state, the pair each call drew with, all
      uploads and all recorded commands. */
  datatype Trace = Trace(
    state: CacheState,
    pairs: seq<BuffersPair>,
    uploads: seq<HostEvent>,
    commands: seq<Command>)

  function Replay(s: CacheState, calls: seq<Call>): Trace
    decreases |calls|
  {
    if calls == [] then Trace(s, [], [], [])
    else
      var o := Lookup(s, calls[0].mesh);
      var t := Replay(o.state, calls[1..]);
      Trace(t.state,
            [o.pair] + t.pairs,
            o.uploads + t.uploads,
            DrawCommands(o.pair, calls[0].mesh, calls[0].frameIndex) + t.commands)
  }

  /** The distinct meshes of the calls. */
  function Meshes(calls: seq<Call>): set<StaticMesh>
  {
    set i | 0 <= i < |calls| :: calls[i].mesh
  }

  lemma MeshesCons(calls: seq<Call>)
    requires calls != []
    ensures Meshes(calls) == {calls[0].mesh} + Meshes(calls[1..])
  {
    forall x | x in Meshes(calls) ensures x in {calls[0].mesh} + Meshes(calls[1..]) {
      var i :| 0 <= i < |calls| && calls[i].mesh == x;
      if i > 0 { assert calls[1..][i - 1].mesh == x; }
    }
    forall x | x in Meshes(calls[1..]) ensures x in Meshes(calls) {
      var i :| 0 <= i < |calls[1..]| && calls[1..][i].mesh == x;
      assert calls[i + 1].mesh == x;
    }
  }

  /** Nothing already cached ever changes, and the cache ends up holding exactly the old keys
      and the meshes drawn. */
  lemma {:induction false} ReplayKeepsEntries(s: CacheState, calls: seq<Call>)
    ensures var e := Replay(s, calls).state.entries;
      && e.Keys == s.entries.Keys + Meshes(calls)
      && forall k :: k in s.entries ==> e[k] == s.entries[k]
    decreases |calls|
  {
    if calls != [] {
      var o := Lookup(s, calls[0].mesh);
      LookupSpec(s, calls[0].mesh);
      ReplayKeepsEntries(o.state, calls[1..]);
      MeshesCons(calls);
    }
  }

  /** Every call draws with the pair the cache finally holds for its mesh: repeated draws of
      one mesh use identical buffer handles. */
  lemma {:induction false} ReplayReusesPairs(s: CacheState, calls: seq<Call>)
    ensures var t := Replay(s, calls);
      && |t.pairs| == |calls|
      && forall i :: 0 <= i < |calls| ==>
           calls[i].mesh in t.state.entries && t.pairs[i] == t.state.entries[calls[i].mesh]
    decreases |calls|
  {
    if calls != [] {
      var o := Lookup(s, calls[0].mesh);
      var t := Replay(s, calls);
      LookupSpec(s, calls[0].mesh);
      ReplayReusesPairs(o.state, calls[1..]);
      ReplayKeepsEntries(o.state, calls[1..]);
      forall i | 0 <= i < |calls|
        ensures calls[i].mesh in t.state.entries && t.pairs[i] == t.state.entries[calls[i].mesh]
      {
        if i > 0 {
          assert calls[1..][i - 1] == calls[i];
        }
      }
    }
  }

  /** A lookup allocates a vertex buffer exactly when the mesh is new, and the cache then
      holds the old keys and the mesh. */
  lemma LookupAllocs(s: CacheState, m: StaticMesh)
    ensures CountAllocs(Lookup(s, m).uploads, Vk.VertexBufferUsage) == (if m in s.entries then 0 else 1)
    ensures Lookup(s, m).state.entries.Keys == s.entries.Keys + {m}
  {
    if m !in s.entries {
      UploadFillsBuffers(m, s.next);
    }
  }

  lemma NewKeysSplit(keys: set<StaticMesh>, m: StaticMesh, later: set<StaticMesh>)
    ensures |({m} + later) - keys| == (if m in keys then 0 else 1) + |later - (keys + {m})|
  {
    if m in keys {
      assert ({m} + later) - keys == later - (keys + {m});
    } else {
      assert ({m} + later) - keys == {m} + (later - (keys + {m}));
    }
  }

  /** The cache's purpose: one vertex-buffer allocation per distinct mesh not yet cached, no
      matter how often or in which order meshes are drawn. */
  lemma {:induction false} OneUploadPerDistinctMesh(s: CacheState, calls: seq<Call>)
    ensures CountAllocs(Replay(s, calls).uploads, Vk.VertexBufferUsage)
            == |Meshes(calls) - s.entries.Keys|
    decreases |calls|
  {
    if calls == [] {
      assert Meshes(calls) == {};
    } else {
      var m := calls[0].mesh;
      var o := Lookup(s, m);
      var rest := calls[1..];
      var later := Replay(o.state, rest);
      assert Replay(s, calls).uploads == o.uploads + later.uploads;
      LookupAllocs(s, m);
      OneUploadPerDistinctMesh(o.state, rest);
      CountAllocsAppend(o.uploads, later.uploads, Vk.VertexBufferUsage);
      MeshesCons(calls);
      NewKeysSplit(s.entries.Keys, m, Meshes(rest));
    }
  }

  /** A lookup allocates an index buffer exactly when the mesh is new and has indices. */
  lemma LookupIndexAllocs(s: CacheState, m: StaticMesh)
    ensures CountAllocs(Lookup(s, m).uploads, Vk.IndexBufferUsage)
            == (if m !in s.entries && m.indicesCount > 0 then 1 else 0)
  {
    if m !in s.entries {
      UploadFillsBuffers(m, s.next);
    }
  }

  /** The meshes among `ms` that have indices. */
  function Indexed(ms: set<StaticMesh>): set<StaticMesh>
  {
    set m | m in ms && m.indicesCount > 0
  }

  lemma IndexedKeysSplit(keys: set<StaticMesh>, m: StaticMesh, later: set<StaticMesh>)
    ensures |Indexed(({m} + later) - keys)|
            == (if m !in keys && m.indicesCount > 0 then 1 else 0) + |Indexed(later - (keys + {m}))|
  {
    if m !in keys && m.indicesCount > 0 {
      assert Indexed(({m} + later) - keys) == {m} + Indexed(later - (keys + {m}));
    } else {
      assert Indexed(({m} + later) - keys) == Indexed(later - (keys + {m}));
    }
  }

  /** The same for index buffers: one allocation per distinct mesh with indices not yet
      cached, and none for meshes without indices. */
  lemma {:induction false} OneIndexUploadPerDistinctIndexedMesh(s: CacheState, calls: seq<Call>)
    ensures CountAllocs(Replay(s, calls).uploads, Vk.IndexBufferUsage)
            == |Indexed(Meshes(calls) - s.entries.Keys)|
    decreases |calls|
  {
    if calls == [] {
      assert Meshes(calls) == {};
      assert Indexed(Meshes(calls) - s.entries.Keys) == {};
    } else {
      var m := calls[0].mesh;
      var o := Lookup(s, m);
      var rest := calls[1..];
      var later := Replay(o.state, rest);
      assert Replay(s, calls).uploads == o.uploads + later.uploads;
      LookupIndexAllocs(s, m);
      LookupAllocs(s, m);
      OneIndexUploadPerDistinctIndexedMesh(o.state, rest);
      CountAllocsAppend(o.uploads, later.uploads, Vk.IndexBufferUsage);
      MeshesCons(calls);
      IndexedKeysSplit(s.entries.Keys, m, Meshes(rest));
    }
  }

  /** Every call records exactly one draw. */
  lemma {:induction false} ReplayDrawsOncePerCall(s: CacheState, calls: seq<Call>)
    ensures CountDraws(Replay(s, calls).commands) == |calls|
    decreases |calls|
  {
    if calls != [] {
      var o := Lookup(s, calls[0].mesh);
      ReplayDrawsOncePerCall(o.state, calls[1..]);
      OneDrawPerCall(o.pair, calls[0].mesh, calls[0].frameIndex);
      CountDrawsAppend(DrawCommands(o.pair, calls[0].mesh, calls[0].frameIndex), Replay(o.state, calls[1..]).commands);
    }
  }

  /** Drawing a 4-vertex, index-free mesh in two consecutive frames allocates one buffer and
      records two non-indexed draws of 4 vertices with the same buffers. */
  lemma TwoFramesOneUpload()
    ensures var a := StaticMesh(4, 1000, 2000, 0, 0);
            var t := Replay(Empty, [Call(0, a), Call(1, a)]);
      && CountAllocs(t.uploads, Vk.VertexBufferUsage) == 1
      && CountAllocs(t.uploads, Vk.IndexBufferUsage) == 0
      && t.pairs[0] == t.pairs[1]
      && CountDraws(t.commands) == 2
      && t.commands[2] == Draw(4, 1, 0, 0) && t.commands[5] == Draw(4, 1, 0, 0)
  {
    var a := StaticMesh(4, 1000, 2000, 0, 0);
    var p := BuffersPair(1, Vk.NullHandle);
    var s1 := CacheState(map[a := p], 2);
    var c0, c1 := Call(0, a), Call(1, a);
    assert Lookup(Empty, a) == Outcome(s1, p, UploadEvents(a, 1));
    assert Lookup(s1, a) == Outcome(s1, p, []);
    assert [c0, c1][1..] == [c1] && [c1][1..] == [];
    var d0, d1 := DrawCommands(p, a, 0), DrawCommands(p, a, 1);
    assert Replay(s1, [c1]) == Trace(s1, [p], [], d1 + []);
    assert Replay(Empty, [c0, c1]) == Trace(s1, [p, p], UploadEvents(a, 1) + [], d0 + (d1 + []));
    UploadFillsBuffers(a, 1);
    assert UploadEvents(a, 1) + [] == UploadEvents(a, 1);
    OneDrawPerCall(p, a, 0);
    OneDrawPerCall(p, a, 1);
    CountDrawsAppend(d0, d1);
    assert d0 + (d1 + []) == d0 + d1;
  }

  /** A mesh with the same counts and vertex pointer but another colour pointer is a distinct
      key: it gets its own upload and its own buffers. */
  lemma OtherColorsOtherEntry()
    ensures var a := StaticMesh(4, 1000, 2000, 0, 0);
            var b := StaticMesh(4, 1000, 3000, 0, 0);
            var s1 := Lookup(Empty, a).state;
            var o := Lookup(s1, b);
      && CountAllocs(o.uploads, Vk.VertexBufferUsage) == 1
      && o.state.entries[b] != o.state.entries[a]
  {
    var a := StaticMesh(4, 1000, 2000, 0, 0);
    var b := StaticMesh(4, 1000, 3000, 0, 0);
    LookupAllocs(Lookup(Empty, a).state, b);
  }
}
