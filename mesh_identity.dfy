/** The static-mesh descriptor used as the geometry cache's key, its equality and its hash
    (Source/Rendering/VulkanImpl/Pipelines/MeshPipeline.cpp, the `std::hash<StaticMesh>`
    specialisation and `operator==`). */
module MeshIdentity {

  /** A host address: the raw pointers the descriptor carries. */
  type Address = nat

  /** The descriptor itself: counts plus pointers to the caller's arrays.
      Its identity is its own fields, never the bytes the pointers lead to. */
  datatype StaticMesh = StaticMesh(
    verticesCount: nat,
    vertices: Address,
    colors: Address,
    indicesCount: nat,
    indices: Address)

  /** `operator==`: a `memcmp` over the whole descriptor, i.e. every field compared. */
  predicate SameBytes(m1: StaticMesh, m2: StaticMesh)
  {
    && m1.verticesCount == m2.verticesCount
    && m1.vertices == m2.vertices
    && m1.colors == m2.colors
    && m1.indicesCount == m2.indicesCount
    && m1.indices == m2.indices
  }

  /** The byte comparison is exactly value equality of the descriptor, which is what lets a
      Dafny `map` keyed by `StaticMesh` stand for the source's `unordered_map`. */
  lemma SameBytesIsEquality(m1: StaticMesh, m2: StaticMesh)
    ensures SameBytes(m1, m2) <==> m1 == m2
  {
  }

  /** The hash: seed 0, combined with the vertex count, then with the vertex pointer.
      `hash_combine` is instantiated twice, for `size_t` and for a pointer, and its definition
      is not part of this model: `combineCount` and `combinePointer` stand for the two
      instantiations, each (seed, value) -> new seed. */
  function Hash(combineCount: (nat, nat) -> nat, combinePointer: (nat, nat) -> nat, m: StaticMesh): nat
  {
    combinePointer(combineCount(0, m.verticesCount), m.vertices)
  }

  /** The hash reads only the vertex count and the vertex pointer. */
  lemma HashReadsCountAndVertices(combineCount: (nat, nat) -> nat, combinePointer: (nat, nat) -> nat,
                                  m1: StaticMesh, m2: StaticMesh)
    requires m1.verticesCount == m2.verticesCount && m1.vertices == m2.vertices
    ensures Hash(combineCount, combinePointer, m1) == Hash(combineCount, combinePointer, m2)
  {
  }

  /** Equal meshes have equal hashes, whatever `hash_combine` is: the unordered map's
      requirement on its hash and equality holds. */
  lemma EqualMeshesEqualHashes(combineCount: (nat, nat) -> nat, combinePointer: (nat, nat) -> nat,
                               m1: StaticMesh, m2: StaticMesh)
    requires SameBytes(m1, m2)
    ensures Hash(combineCount, combinePointer, m1) == Hash(combineCount, combinePointer, m2)
  {
    HashReadsCountAndVertices(combineCount, combinePointer, m1, m2);
  }

  /** The converse fails: two descriptors that differ only in their colour pointer collide in
      the hash yet are different keys. */
  lemma ColorsDoNotReachTheHash(combineCount: (nat, nat) -> nat, combinePointer: (nat, nat) -> nat)
    ensures var a := StaticMesh(4, 100, 200, 0, 0);
            var b := StaticMesh(4, 100, 300, 0, 0);
            Hash(combineCount, combinePointer, a) == Hash(combineCount, combinePointer, b) && !SameBytes(a, b)
  {
  }
}
