/** SkeletonTwoColorBatch and TwoColorTrianglesCommand.

    A frame's commands come from a pool that only grows. Their geometry lives
    in a per-frame arena (a vertex vector and an index array) that grows on
    demand; a command refers to its geometry by offset into the arena's
    current backing storage, and growth re-points the live commands to the
    new storage. `Batch` copies a command's geometry into fixed-size staging
    buffers and issues a draw (recorded in the ghost log `draws`) whenever the
    buffers would overflow, the material changes, or the command asks for a
    force flush. `Batch` and `Flush` are proved against the state machine of
    module BatchSpec. */
module TwoColorBatch {
  import opened CocosTypes
  import opened BatchSpec

  const INITIAL_SIZE: nat := 10000
  /** The capacity the index array is created with. */
  const INITIAL_INDEX_CAPACITY: nat := 8
  /** A null GLProgramState* or GLProgram*. */
  const NULL: nat := 0

  /** A value-initialised V3F_C4B_C4B_T2F, as std::vector::resize adds them. */
  const ZeroVertex := TwoColorVertex(Vec3(0.0, 0.0, 0.0), Color4B(0, 0, 0, 0), Color4B(0, 0, 0, 0), Vec2(0.0, 0.0))

  /** A pointer into the geometry arena: the backing storage it was taken
      from, and the offset in it. */
  datatype Ref = Ref(store: nat, offset: nat)

  /** TwoColorTriangles. */
  datatype Triangles = Triangles(verts: Ref, vertCount: nat, indices: Ref, indexCount: nat)

  /** The triangles of a freshly constructed command: no geometry. */
  const NoTriangles := Triangles(Ref(0, 0), 0, Ref(0, 0), 0)

  /** The fields generateMaterialID hashes. The GL program is not among them. */
  datatype MaterialKey = MaterialKey(textureId: nat, blendSrc: BlendFactor, blendDst: BlendFactor, programState: nat)

  /** Everything of a command except its geometry and its force-flush flag. */
  datatype RenderState = RenderState(
    materialID: uint32, textureID: nat, blendType: BlendFunc, programState: nat, program: nat,
    globalOrder: real, mv: Mat4)

  /** The render state of a freshly constructed command. */
  const DefaultRender := RenderState(0, 0, Disable, NULL, NULL, 0.0, [])

  /** The index count `init` keeps: the largest multiple of 3 not above it. */
  function TruncateToTriangles(indexCount: nat): (r: nat)
    ensures r % 3 == 0 && r <= indexCount && indexCount - r < 3
    ensures indexCount % 3 == 0 ==> r == indexCount
  {
    indexCount / 3 * 3
  }

  /** Truncation is stable under repetition. */
  lemma TruncationIsIdempotent(n: nat)
    ensures TruncateToTriangles(TruncateToTriangles(n)) == TruncateToTriangles(n)
  {
  }

  /** generateMaterialID: `hash` (XXH32) of the texture, the two blend
      factors and the program state. This is the reference definition the
      contracts of `Command.Init` and `MaterialIDIgnoresProgram` are stated
      against. */
  function GenerateMaterialID(hash: MaterialKey -> uint32, textureID: nat, blendType: BlendFunc, programState: nat): uint32 {
    hash(MaterialKey(textureID, blendType.src, blendType.dst, programState))
  }

  /** Two initialised commands with the same texture, blend and program
      state share a material ID, whatever their GL programs. */
  lemma MaterialIDIgnoresProgram(hash: MaterialKey -> uint32, a: Command, b: Command)
    requires a.Valid(hash) && b.Valid(hash)
    requires a.programState != NULL && b.programState != NULL
    requires a.textureID == b.textureID && a.blendType == b.blendType && a.programState == b.programState
    ensures a.materialID == b.materialID
  {
  }

  /** `count` elements at `r` lie in the storage `store` of size `size`
      (nothing is read when `count` is 0). */
  predicate Addresses(r: Ref, count: nat, store: nat, size: nat) {
    count == 0 || (r.store == store && r.offset + count <= size)
  }

  /** The `count` elements at `r`. */
  function Slice<T>(a: seq<T>, r: Ref, count: nat): (s: seq<T>)
    requires count == 0 || r.offset + count <= |a|
    ensures |s| == count && forall k :: 0 <= k < count ==> s[k] == a[r.offset + k]
  {
    if count == 0 then [] else a[r.offset..r.offset + count]
  }

  function Zeros(n: nat): seq<TwoColorVertex> {
    seq(n, _ => ZeroVertex)
  }

  /** A TwoColorTrianglesCommand. */
  class Command {
    var materialID: uint32
    var textureID: nat
    var blendType: BlendFunc
    var programState: nat
    var program: nat
    var globalOrder: real
    var mv: Mat4
    var triangles: Triangles
    var forceFlush: bool

    /** Once the command has been initialised (its program state is not
        null), its material ID is the hash of its current key. */
    ghost predicate Valid(hash: MaterialKey -> uint32)
      reads `materialID, `textureID, `blendType, `programState
    {
      programState != NULL ==> materialID == GenerateMaterialID(hash, textureID, blendType, programState)
    }

    ghost function Render(): RenderState
      reads this
    {
      RenderState(materialID, textureID, blendType, programState, program, globalOrder, mv)
    }

    constructor ()
      ensures Render() == DefaultRender && triangles == NoTriangles
      ensures !forceFlush
    {
      materialID, textureID, blendType, programState, program := 0, 0, Disable, NULL, NULL;
      globalOrder, mv := 0.0, [];
      triangles := NoTriangles;
      forceFlush := false;
    }

    /** init: store the geometry with its index count cut to whole triangles,
        and recompute the material ID only when the key or the program
        changed. Either way the ID afterwards is the hash of the new key. */
    method Init(hash: MaterialKey -> uint32, globalOrder: real, textureID: nat, programState: nat, program: nat,
                blendType: BlendFunc, triangles: Triangles, mv: Mat4)
      requires Valid(hash)
      requires programState != NULL
      modifies this
      ensures Valid(hash)
      ensures this.triangles == triangles.(indexCount := TruncateToTriangles(triangles.indexCount))
      ensures this.textureID == textureID && this.blendType == blendType
      ensures this.programState == programState && this.program == program
      ensures this.globalOrder == globalOrder && this.mv == mv
      ensures materialID == GenerateMaterialID(hash, textureID, blendType, programState)
      ensures old(this.textureID) == textureID && old(this.blendType) == blendType &&
              old(this.programState) == programState && old(this.program) == program
              ==> materialID == old(materialID)
      ensures forceFlush == old(forceFlush)
    {
      this.globalOrder := globalOrder;
      var tris := triangles;
      if tris.indexCount % 3 != 0 {
        var count := tris.indexCount;
        tris := tris.(indexCount := count / 3 * 3);
      }
      this.triangles := tris;
      this.mv := mv;
      if this.textureID != textureID || this.blendType.src != blendType.src || this.blendType.dst != blendType.dst
         || this.programState != programState || this.program != program
      {
        this.textureID := textureID;
        this.blendType := blendType;
        this.programState := programState;
        this.program := program;
        materialID := GenerateMaterialID(hash, textureID, blendType, programState);
      }
    }
  }

  class SkeletonTwoColorBatch {
    /** XXH32, as generateMaterialID uses it. */
    const hash: MaterialKey -> uint32
    /** Mat4::transformPoint. */
    const transformPoint: (Mat4, Vec3) -> Vec3

    var commandsPool: seq<Command>
    var nextFreeCommand: nat

    // The geometry arena. `vertices` is the vertex vector (|vertices| is its
    // size); `indices` is the index array up to its capacity.
    var vertices: seq<TwoColorVertex>
    var verticesStore: nat
    var numVertices: nat
    var indices: seq<uint16>
    var indicesStore: nat
    var indicesSize: nat

    // The staging buffers handed to the GPU.
    const vertexBuffer: array<TwoColorVertex>
    var numVerticesBuffer: nat
    const indexBuffer: array<uint16>
    var numIndicesBuffer: nat

    var lastCommand: Command?
    /** Where `lastCommand` sits in the pool. */
    ghost var lastIndex: nat
    var numBatches: nat
    /** Every draw call issued so far. */
    ghost var draws: seq<Draw<Command>>

    /** The pool holds distinct commands, each with a material ID that
        matches its key. */
    ghost predicate PoolValid()
      reads `commandsPool, commandsPool
    {
      && (forall i, j :: 0 <= i < j < |commandsPool| ==> commandsPool[i] != commandsPool[j])
      && (forall i :: 0 <= i < |commandsPool| ==> commandsPool[i].Valid(hash))
    }

    /** The commands handed out this frame are a prefix of the pool, and the
        last batched command is one of them. */
    ghost predicate LastValid()
      reads `commandsPool, `nextFreeCommand, `lastCommand, `lastIndex
    {
      && nextFreeCommand <= |commandsPool|
      && (lastCommand != null ==> lastIndex < nextFreeCommand && commandsPool[lastIndex] == lastCommand)
    }

    /** The used part of the arena lies within its storage. */
    ghost predicate ArenaValid()
      reads `vertices, `numVertices, `indices, `indicesSize
    {
      numVertices <= |vertices| && indicesSize <= |indices|
    }

    /** The staging buffers have their fixed sizes and the staged counts
        stay below them. */
    ghost predicate BuffersValid()
      reads `numVerticesBuffer, `numIndicesBuffer
    {
      && vertexBuffer.Length == MAX_VERTICES && indexBuffer.Length == MAX_INDICES
      && numVerticesBuffer < MAX_VERTICES && numIndicesBuffer < MAX_INDICES
    }

    /** Everything but the link between staged geometry and the last command. */
    ghost predicate Consistent()
      reads this, commandsPool
    {
      PoolValid() && LastValid() && ArenaValid() && BuffersValid()
    }

    /** Nothing is staged while there is no last command. */
    ghost predicate Valid()
      reads this, commandsPool
    {
      Consistent() && (lastCommand == null ==> numVerticesBuffer == 0 && numIndicesBuffer == 0)
    }

    /** The accumulator's state as the specification sees it. */
    ghost function Staged(): Staging<Command>
      reads `draws, `numVerticesBuffer, `numIndicesBuffer, `lastCommand, vertexBuffer, indexBuffer, lastCommand
      requires numVerticesBuffer <= vertexBuffer.Length && numIndicesBuffer <= indexBuffer.Length
    {
      Staging(draws, vertexBuffer[..numVerticesBuffer], indexBuffer[..numIndicesBuffer],
        if lastCommand == null then None else Some(Last(lastCommand, lastCommand.materialID)))
    }

    /** The vertices with each position moved by `mv`, everything else kept. */
    function Transformed(mv: Mat4, vs: seq<TwoColorVertex>): (r: seq<TwoColorVertex>)
      ensures |r| == |vs|
      ensures forall k :: 0 <= k < |vs| ==>
        r[k] == vs[k].(position := transformPoint(mv, vs[k].position))
    {
      seq(|vs|, k requires 0 <= k < |vs| => vs[k].(position := transformPoint(mv, vs[k].position)))
    }

    /** A command whose counts fit the staging buffers and whose geometry
        lies in the arena's current storage. */
    ghost predicate Batchable(command: Command)
      reads `vertices, `verticesStore, `indices, `indicesStore, command
    {
      && command.triangles.vertCount < MAX_VERTICES && command.triangles.indexCount < MAX_INDICES
      && Addresses(command.triangles.verts, command.triangles.vertCount, verticesStore, |vertices|)
      && Addresses(command.triangles.indices, command.triangles.indexCount, indicesStore, |indices|)
    }

    /** What `batch(command)` reads: the command's material, its vertices
        moved by its model-view transform, its indices, its flag. */
    ghost function IncomingOf(command: Command): Incoming<Command>
      reads `vertices, `verticesStore, `indices, `indicesStore, command
      requires Batchable(command)
    {
      var t := command.triangles;
      Incoming(command, command.materialID,
        Transformed(command.mv, Slice(vertices, t.verts, t.vertCount)),
        Slice(indices, t.indices, t.indexCount),
        command.forceFlush)
    }

    /** Nothing of the pool and the arena changed. */
    twostate predicate ArenaUnchanged()
      reads this
    {
      && commandsPool == old(commandsPool) && nextFreeCommand == old(nextFreeCommand)
      && vertices == old(vertices) && verticesStore == old(verticesStore) && numVertices == old(numVertices)
      && indices == old(indices) && indicesStore == old(indicesStore) && indicesSize == old(indicesSize)
    }

    /** Every pooled command kept its render state and its flag. */
    twostate predicate CommandsKept()
      reads `commandsPool, commandsPool
    {
      && commandsPool == old(commandsPool)
      && forall i :: 0 <= i < |commandsPool| ==>
        commandsPool[i].Render() == old(commandsPool[i].Render()) && commandsPool[i].forceFlush == old(commandsPool[i].forceFlush)
    }

    /** Every pooled command kept its geometry. */
    twostate predicate GeometryKept()
      reads `commandsPool, commandsPool
    {
      && commandsPool == old(commandsPool)
      && forall i :: 0 <= i < |commandsPool| ==> commandsPool[i].triangles == old(commandsPool[i].triangles)
    }

    /** The vertex reference of every command handed out this frame now
        points to the same offset in the storage `store`; nothing else of the
        commands' geometry changed. */
    twostate predicate VerticesMovedTo(store: nat)
      reads `commandsPool, `nextFreeCommand, commandsPool
    {
      && commandsPool == old(commandsPool)
      && forall i :: 0 <= i < |commandsPool| ==>
        var t := old(commandsPool[i].triangles);
        commandsPool[i].triangles == if i < nextFreeCommand then t.(verts := Ref(store, t.verts.offset)) else t
    }

    /** The index reference of every command handed out this frame that lay
        in the first `oldSize` entries of the storage `oldStore` now points to
        the same offset in the storage `store`; nothing else of the commands'
        geometry changed. */
    twostate predicate IndicesMovedTo(oldStore: nat, oldSize: nat, store: nat)
      reads `commandsPool, `nextFreeCommand, commandsPool
    {
      && commandsPool == old(commandsPool)
      && forall i :: 0 <= i < |commandsPool| ==>
        var t := old(commandsPool[i].triangles);
        commandsPool[i].triangles ==
          if i < nextFreeCommand && t.indices.store == oldStore && t.indices.offset < oldSize
          then t.(indices := Ref(store, t.indices.offset)) else t
    }

    /** The constructor with init(): a pool of INITIAL_SIZE commands, an
        empty vertex vector, an index array of capacity 8, and staging
        buffers of MAX_VERTICES and MAX_INDICES entries. */
    constructor (hash: MaterialKey -> uint32, transformPoint: (Mat4, Vec3) -> Vec3)
      ensures Valid()
      ensures this.hash == hash && this.transformPoint == transformPoint
      ensures |commandsPool| == INITIAL_SIZE && nextFreeCommand == 0
      ensures forall i :: 0 <= i < |commandsPool| ==>
        fresh(commandsPool[i]) && commandsPool[i].Render() == DefaultRender &&
        commandsPool[i].triangles == NoTriangles && !commandsPool[i].forceFlush
      ensures vertices == [] && numVertices == 0
      ensures |indices| == INITIAL_INDEX_CAPACITY && indicesSize == 0
      ensures Staged() == Start([]) && numBatches == 0
      ensures fresh(vertexBuffer) && fresh(indexBuffer)
    {
      this.hash := hash;
      this.transformPoint := transformPoint;
      var pool: seq<Command> := [];
      while |pool| < INITIAL_SIZE
        invariant |pool| <= INITIAL_SIZE
        invariant forall i, j :: 0 <= i < j < |pool| ==> pool[i] != pool[j]
        invariant forall i :: 0 <= i < |pool| ==>
          fresh(pool[i]) && pool[i].Render() == DefaultRender && pool[i].triangles == NoTriangles && !pool[i].forceFlush
      {
        var c := new Command();
        pool := pool + [c];
      }
      commandsPool := pool;
      nextFreeCommand := 0;
      vertices := [];
      verticesStore, numVertices := 0, 0;
      indices := seq(INITIAL_INDEX_CAPACITY, _ => 0);
      indicesStore, indicesSize := 0, 0;
      vertexBuffer := new TwoColorVertex[MAX_VERTICES];
      indexBuffer := new uint16[MAX_INDICES];
      numVerticesBuffer, numIndicesBuffer := 0, 0;
      lastCommand := null;
      lastIndex := 0;
      numBatches := 0;
      draws := [];
    }

    /** flush: with no material command nothing happens; otherwise the staged
        geometry is drawn with that command's material (even when nothing is
        staged) and the staging buffers are emptied. */
    method Flush(materialCommand: Command?)
      requires Consistent()
      modifies this
      ensures Consistent()
      ensures old(Valid()) || materialCommand != null ==> Valid()
      ensures Staged() == BatchSpec.Flush(old(Staged()),
        if materialCommand == null then None else Some(Last(materialCommand, materialCommand.materialID)))
      ensures numBatches == old(numBatches) + (if materialCommand == null then 0 else 1)
      ensures ArenaUnchanged() && lastCommand == old(lastCommand)
    {
      if materialCommand == null {
        return;
      }
      draws := draws + [Draw(materialCommand, materialCommand.materialID,
                             vertexBuffer[..numVerticesBuffer], indexBuffer[..numIndicesBuffer])];
      numVerticesBuffer := 0;
      numIndicesBuffer := 0;
      numBatches := numBatches + 1;
    }

    /** reset: start a new frame. Pool, arena and staging counters return to
        zero and the last command is forgotten; nothing is flushed, so any
        staged geometry is dropped without a draw. */
    method Reset()
      requires Valid()
      modifies `nextFreeCommand, `numVertices, `indicesSize, `numVerticesBuffer, `numIndicesBuffer, `lastCommand, `numBatches
      ensures Valid()
      ensures nextFreeCommand == 0 && numVertices == 0 && indicesSize == 0 && commandsPool == old(commandsPool)
      ensures Staged() == Start(old(draws)) && numBatches == 0
    {
      nextFreeCommand := 0;
      numVertices := 0;
      indicesSize := 0;
      numVerticesBuffer := 0;
      numIndicesBuffer := 0;
      lastCommand := null;
      numBatches := 0;
    }

    /** The re-pointing loop of allocateVertices. */
    method RelocateVertices(store: nat)
      requires PoolValid() && nextFreeCommand <= |commandsPool|
      modifies commandsPool
      ensures PoolValid() && CommandsKept() && VerticesMovedTo(store)
    {
      for i := 0 to nextFreeCommand
        invariant forall k :: 0 <= k < i ==>
          commandsPool[k].triangles == old(commandsPool[k].triangles).(verts := Ref(store, old(commandsPool[k].triangles).verts.offset))
        invariant forall k :: i <= k < |commandsPool| ==> commandsPool[k].triangles == old(commandsPool[k].triangles)
        invariant CommandsKept()
      {
        var command := commandsPool[i];
        command.triangles := command.triangles.(verts := Ref(store, command.triangles.verts.offset));
      }
    }

    /** The re-pointing loop of allocateIndices. */
    method RelocateIndices(oldStore: nat, oldSize: nat, store: nat)
      requires PoolValid() && nextFreeCommand <= |commandsPool|
      modifies commandsPool
      ensures PoolValid() && CommandsKept() && IndicesMovedTo(oldStore, oldSize, store)
    {
      for i := 0 to nextFreeCommand
        invariant forall k :: 0 <= k < i ==>
          var t := old(commandsPool[k].triangles);
          commandsPool[k].triangles ==
            if t.indices.store == oldStore && t.indices.offset < oldSize
            then t.(indices := Ref(store, t.indices.offset)) else t
        invariant forall k :: i <= k < |commandsPool| ==> commandsPool[k].triangles == old(commandsPool[k].triangles)
        invariant CommandsKept()
      {
        var command := commandsPool[i];
        var t := command.triangles;
        if t.indices.store == oldStore && t.indices.offset < oldSize {
          command.triangles := t.(indices := Ref(store, t.indices.offset));
        }
      }
    }

    /** The growth step of allocateVertices: the vector is resized to
        (size + count) * 2 + 1 entries in new storage, keeping its contents,
        and every live command is re-pointed to the new storage. */
    method GrowVertices(count: nat)
      requires Valid()
      modifies this, commandsPool
      ensures Valid() && CommandsKept() && VerticesMovedTo(verticesStore)
      ensures vertices == old(vertices) + Zeros(old(|vertices|) + 2 * count + 1)
      ensures verticesStore == old(verticesStore) + 1 && numVertices == old(numVertices)
      ensures nextFreeCommand == old(nextFreeCommand)
      ensures indices == old(indices) && indicesStore == old(indicesStore) && indicesSize == old(indicesSize)
      ensures Staged() == old(Staged()) && numBatches == old(numBatches)
    {
      vertices := vertices + Zeros(|vertices| + 2 * count + 1);
      verticesStore := verticesStore + 1;
      RelocateVertices(verticesStore);
    }

    /** allocateVertices: hand out `count` vertices at the end of the used
        part of the arena. When the free room is too small, the vector is
        resized to (size + count) * 2 + 1 entries in new storage, keeping its
        contents, and every live command is re-pointed to the new storage. */
    method AllocateVertices(count: nat) returns (r: Ref)
      requires Valid()
      modifies this, commandsPool
      ensures Valid() && CommandsKept()
      ensures commandsPool == old(commandsPool) && nextFreeCommand == old(nextFreeCommand)
      ensures r == Ref(verticesStore, old(numVertices)) && numVertices == old(numVertices) + count
      ensures old(|vertices|) - old(numVertices) >= count ==>
        vertices == old(vertices) && verticesStore == old(verticesStore) && GeometryKept()
      ensures old(|vertices|) - old(numVertices) < count ==>
        && vertices == old(vertices) + Zeros(old(|vertices|) + 2 * count + 1)
        && |vertices| == (old(|vertices|) + count) * 2 + 1
        && verticesStore == old(verticesStore) + 1 && VerticesMovedTo(verticesStore)
      ensures indices == old(indices) && indicesStore == old(indicesStore) && indicesSize == old(indicesSize)
      ensures Staged() == old(Staged()) && numBatches == old(numBatches)
    {
      if |vertices| - numVertices < count {
        GrowVertices(count);
      }
      r := Ref(verticesStore, numVertices);
      numVertices := numVertices + count;
    }

    /** deallocateVertices: give back the last `count` vertices handed out. */
    method DeallocateVertices(count: nat)
      requires Valid()
      requires count <= numVertices
      modifies this
      ensures Valid()
      ensures numVertices == old(numVertices) - count
      ensures vertices == old(vertices) && verticesStore == old(verticesStore)
      ensures commandsPool == old(commandsPool) && nextFreeCommand == old(nextFreeCommand)
      ensures indices == old(indices) && indicesStore == old(indicesStore) && indicesSize == old(indicesSize)
      ensures Staged() == old(Staged()) && numBatches == old(numBatches)
    {
      numVertices := numVertices - count;
    }

    /** The growth step of allocateIndices: the capacity becomes size +
        count in new storage, keeping the used entries, and the live commands
        whose indices lay in the used part of the old storage are re-pointed. */
    method GrowIndices(count: nat)
      requires Valid()
      modifies this, commandsPool
      ensures Valid() && CommandsKept()
      ensures IndicesMovedTo(old(indicesStore), old(indicesSize), indicesStore)
      ensures |indices| == old(indicesSize) + count && indices[..old(indicesSize)] == old(indices[..indicesSize])
      ensures indicesStore == old(indicesStore) + 1 && indicesSize == old(indicesSize)
      ensures nextFreeCommand == old(nextFreeCommand)
      ensures vertices == old(vertices) && verticesStore == old(verticesStore) && numVertices == old(numVertices)
      ensures Staged() == old(Staged()) && numBatches == old(numBatches)
    {
      var oldStore := indicesStore;
      indices := indices[..indicesSize] + seq(count, _ => 0);
      indicesStore := indicesStore + 1;
      RelocateIndices(oldStore, indicesSize, indicesStore);
    }

    /** allocateIndices: hand out `count` indices at the end of the used part
        of the index array. When the free room is too small, the capacity
        grows to size + count in new storage, keeping the used entries, and
        only the live commands whose indices lay in the used part of the old
        storage are re-pointed. */
    method AllocateIndices(count: nat) returns (r: Ref)
      requires Valid()
      modifies this, commandsPool
      ensures Valid() && CommandsKept()
      ensures commandsPool == old(commandsPool) && nextFreeCommand == old(nextFreeCommand)
      ensures r == Ref(indicesStore, old(indicesSize)) && indicesSize == old(indicesSize) + count
      ensures old(|indices|) - old(indicesSize) >= count ==>
        indices == old(indices) && indicesStore == old(indicesStore) && GeometryKept()
      ensures old(|indices|) - old(indicesSize) < count ==>
        && |indices| == old(indicesSize) + count && indices[..old(indicesSize)] == old(indices[..indicesSize])
        && indicesStore == old(indicesStore) + 1
        && IndicesMovedTo(old(indicesStore), old(indicesSize), indicesStore)
      ensures vertices == old(vertices) && verticesStore == old(verticesStore) && numVertices == old(numVertices)
      ensures Staged() == old(Staged()) && numBatches == old(numBatches)
    {
      if |indices| - indicesSize < count {
        GrowIndices(count);
      }
      r := Ref(indicesStore, indicesSize);
      indicesSize := indicesSize + count;
    }

    /** deallocateIndices: give back the last `count` indices handed out. */
    method DeallocateIndices(count: nat)
      requires Valid()
      requires count <= indicesSize
      modifies this
      ensures Valid()
      ensures indicesSize == old(indicesSize) - count
      ensures indices == old(indices) && indicesStore == old(indicesStore)
      ensures commandsPool == old(commandsPool) && nextFreeCommand == old(nextFreeCommand)
      ensures vertices == old(vertices) && verticesStore == old(verticesStore) && numVertices == old(numVertices)
      ensures Staged() == old(Staged()) && numBatches == old(numBatches)
    {
      indicesSize := indicesSize - count;
    }

    /** The caller's write of `vs` through the pointer `allocateVertices`
        returned: reading the same place back yields `vs`, and every other
        vertex of the arena is kept. */
    method StoreVertices(at: Ref, vs: seq<TwoColorVertex>)
      requires Valid()
      requires at.store == verticesStore && at.offset + |vs| <= numVertices
      modifies `vertices
      ensures Valid()
      ensures |vertices| == old(|vertices|) && Slice(vertices, at, |vs|) == vs
      ensures forall k :: 0 <= k < |vertices| && !(at.offset <= k < at.offset + |vs|) ==> vertices[k] == old(vertices[k])
      ensures Staged() == old(Staged())
    {
      vertices := vertices[..at.offset] + vs + vertices[at.offset + |vs|..];
    }

    /** The caller's write of `ixs` through the pointer `allocateIndices`
        returned: reading the same place back yields `ixs`, and every other
        entry of the index array is kept. */
    method StoreIndices(at: Ref, ixs: seq<uint16>)
      requires Valid()
      requires at.store == indicesStore && at.offset + |ixs| <= indicesSize
      modifies `indices
      ensures Valid()
      ensures |indices| == old(|indices|) && Slice(indices, at, |ixs|) == ixs
      ensures forall k :: 0 <= k < |indices| && !(at.offset <= k < at.offset + |ixs|) ==> indices[k] == old(indices[k])
      ensures Staged() == old(Staged())
    {
      indices := indices[..at.offset] + ixs + indices[at.offset + |ixs|..];
    }

    /** The two flushes at the head of batch(command): with the last
        command's material when the command would not fit beside the staged
        geometry, then with it again when its material ID differs from the
        command's. */
    method FlushBefore(command: Command)
      requires Valid() && Batchable(command)
      modifies this
      ensures Valid()
      ensures Staged() == Prepare(old(Staged()), old(IncomingOf(command)))
      ensures numVerticesBuffer + command.triangles.vertCount < MAX_VERTICES
      ensures numIndicesBuffer + command.triangles.indexCount < MAX_INDICES
      ensures numBatches == old(numBatches) + (|draws| - old(|draws|))
      ensures ArenaUnchanged() && lastCommand == old(lastCommand)
    {
      PrepareMakesRoom(Staged(), IncomingOf(command));
      var t := command.triangles;
      if numVerticesBuffer + t.vertCount >= MAX_VERTICES || numIndicesBuffer + t.indexCount >= MAX_INDICES {
        Flush(lastCommand);
      }
      var materialID := command.materialID;
      if lastCommand != null && lastCommand.materialID != materialID {
        Flush(lastCommand);
      }
    }

    /** The memcpy of the command's vertices behind the staged ones, then
        the model-view transform of each copied position. */
    method CopyVertices(command: Command)
      requires BuffersValid() && Batchable(command)
      requires numVerticesBuffer + command.triangles.vertCount < MAX_VERTICES
      modifies vertexBuffer
      ensures vertexBuffer[..numVerticesBuffer + command.triangles.vertCount] ==
        old(vertexBuffer[..numVerticesBuffer]) + IncomingOf(command).vertices
    {
      var t := command.triangles;
      var base := numVerticesBuffer;
      ghost var staged := vertexBuffer[..base];
      ghost var source := Slice(vertices, t.verts, t.vertCount);
      ghost var incoming := IncomingOf(command).vertices;
      for i := 0 to t.vertCount
        modifies vertexBuffer
        invariant vertexBuffer[..base] == staged
        invariant forall k :: 0 <= k < i ==> vertexBuffer[base + k] == source[k]
      {
        vertexBuffer[base + i] := vertices[t.verts.offset + i];
      }
      for i := 0 to t.vertCount
        modifies vertexBuffer
        invariant vertexBuffer[..base] == staged
        invariant forall k :: 0 <= k < i ==> vertexBuffer[base + k] == incoming[k]
        invariant forall k :: i <= k < t.vertCount ==> vertexBuffer[base + k] == source[k]
      {
        vertexBuffer[base + i] := vertexBuffer[base + i].(position := transformPoint(command.mv, vertexBuffer[base + i].position));
      }
      assert vertexBuffer[..base + t.vertCount] == staged + incoming;
    }

    /** The command's indices re-based onto the staged vertices: each is
        added to the staged vertex count and stored as an unsigned short. */
    method CopyIndices(command: Command)
      requires BuffersValid() && Batchable(command)
      requires numIndicesBuffer + command.triangles.indexCount < MAX_INDICES
      modifies indexBuffer
      ensures indexBuffer[..numIndicesBuffer + command.triangles.indexCount] ==
        old(indexBuffer[..numIndicesBuffer]) + Remap(IncomingOf(command).indices, numVerticesBuffer)
    {
      var t := command.triangles;
      ghost var staged := indexBuffer[..numIndicesBuffer];
      ghost var remapped := Remap(IncomingOf(command).indices, numVerticesBuffer);
      var vertexOffset := (numVerticesBuffer % 0x1_0000) as uint16;
      var j := numIndicesBuffer;
      for i := 0 to t.indexCount
        modifies indexBuffer
        invariant j == numIndicesBuffer + i
        invariant indexBuffer[..numIndicesBuffer] == staged
        invariant forall k :: 0 <= k < i ==> indexBuffer[numIndicesBuffer + k] == remapped[k]
      {
        indexBuffer[j] := ((indices[t.indices.offset + i] as int + vertexOffset as int) % 0x1_0000) as uint16;
        j := j + 1;
      }
      assert indexBuffer[..numIndicesBuffer + t.indexCount] == staged + remapped;
    }

    /** The copy of the command's geometry behind the staged geometry. */
    method Stage(command: Command)
      requires Consistent() && Batchable(command)
      requires numVerticesBuffer + command.triangles.vertCount < MAX_VERTICES
      requires numIndicesBuffer + command.triangles.indexCount < MAX_INDICES
      modifies `numVerticesBuffer, `numIndicesBuffer, vertexBuffer, indexBuffer
      ensures Consistent()
      ensures Staged() == Append(old(Staged()), IncomingOf(command))
    {
      CopyVertices(command);
      CopyIndices(command);
      numVerticesBuffer := numVerticesBuffer + command.triangles.vertCount;
      numIndicesBuffer := numIndicesBuffer + command.triangles.indexCount;
    }

    /** The tail of batch(command): a flush with the command's own material
        when the command forces one, then the command becomes the last
        command. */
    method FlushAfter(command: Command)
      requires Consistent() && Batchable(command) && command in commandsPool[..nextFreeCommand]
      modifies this
      ensures Valid()
      ensures Staged() == Finish(old(Staged()), old(IncomingOf(command)))
      ensures numBatches == old(numBatches) + (|draws| - old(|draws|))
      ensures ArenaUnchanged()
    {
      if command.forceFlush {
        Flush(command);
      }
      lastCommand := command;
      ghost var at :| 0 <= at < nextFreeCommand && commandsPool[at] == command;
      lastIndex := at;
    }

    /** batch(command): flush when the command would overflow the staging
        buffers or changes material, append its transformed vertices and
        re-based indices, flush again with its own material when it forces a
        flush, and remember it as the last command. */
    method Batch(command: Command)
      requires Valid() && Batchable(command) && command in commandsPool[..nextFreeCommand]
      modifies this, vertexBuffer, indexBuffer
      ensures Valid()
      ensures Staged() == Step(old(Staged()), old(IncomingOf(command)))
      ensures numBatches == old(numBatches) + (|draws| - old(|draws|))
      ensures ArenaUnchanged()
    {
      FlushBefore(command);
      Stage(command);
      FlushAfter(command);
    }

    /** The growth step of nextFreeCommand: size * 2 + 1 commands in all,
        the new ones fresh from the TwoColorTrianglesCommand constructor. */
    method GrowPool()
      requires Valid()
      modifies `commandsPool
      ensures Valid()
      ensures |commandsPool| == old(|commandsPool|) * 2 + 1 && commandsPool[..old(|commandsPool|)] == old(commandsPool)
      ensures forall i :: old(|commandsPool|) <= i < |commandsPool| ==>
        fresh(commandsPool[i]) && commandsPool[i].Render() == DefaultRender && commandsPool[i].triangles == NoTriangles && !commandsPool[i].forceFlush
      ensures Staged() == old(Staged())
    {
      var pool := commandsPool;
      var newSize := |pool| * 2 + 1;
      while |pool| < newSize
        modifies {}
        invariant |commandsPool| <= |pool| <= newSize && pool[..|commandsPool|] == commandsPool
        invariant forall i, j :: 0 <= i < j < |pool| ==> pool[i] != pool[j]
        invariant forall i :: |commandsPool| <= i < |pool| ==>
          fresh(pool[i]) && pool[i].Render() == DefaultRender && pool[i].triangles == NoTriangles && !pool[i].forceFlush
      {
        var c := new Command();
        pool := pool + [c];
      }
      commandsPool := pool;
    }

    /** nextFreeCommand: hand out the next pooled command, growing the pool
        when it is used up, with its force-flush flag cleared. */
    method NextFreeCommand() returns (command: Command)
      requires Valid()
      modifies this, commandsPool
      ensures Valid()
      ensures old(nextFreeCommand) < old(|commandsPool|) ==> commandsPool == old(commandsPool)
      ensures old(nextFreeCommand) == old(|commandsPool|) ==>
        && |commandsPool| == old(|commandsPool|) * 2 + 1 && commandsPool[..old(|commandsPool|)] == old(commandsPool)
        && (forall i :: old(|commandsPool|) <= i < |commandsPool| ==> fresh(commandsPool[i]))
        && (forall i :: old(|commandsPool|) <= i < |commandsPool| && i != old(nextFreeCommand) ==>
              commandsPool[i].Render() == DefaultRender && commandsPool[i].triangles == NoTriangles && !commandsPool[i].forceFlush)
      ensures nextFreeCommand == old(nextFreeCommand) + 1 && command == commandsPool[old(nextFreeCommand)]
      ensures !command.forceFlush
      ensures old(nextFreeCommand) < old(|commandsPool|) ==>
        command.Render() == old(commandsPool[nextFreeCommand].Render()) &&
        command.triangles == old(commandsPool[nextFreeCommand].triangles)
      ensures old(nextFreeCommand) == old(|commandsPool|) ==>
        fresh(command) && command.Render() == DefaultRender && command.triangles == NoTriangles
      ensures forall i :: 0 <= i < old(|commandsPool|) && i != old(nextFreeCommand) ==> unchanged(commandsPool[i])
      ensures vertices == old(vertices) && verticesStore == old(verticesStore) && numVertices == old(numVertices)
      ensures indices == old(indices) && indicesStore == old(indicesStore) && indicesSize == old(indicesSize)
      ensures Staged() == old(Staged()) && numBatches == old(numBatches)
    {
      if |commandsPool| <= nextFreeCommand {
        GrowPool();
      }
      command := commandsPool[nextFreeCommand];
      nextFreeCommand := nextFreeCommand + 1;
      command.forceFlush := false;
    }

    /** addCommand: take the next free command and init it with the render
        state and geometry given. Queueing it on the renderer is not part of
        this model. */
    method AddCommand(globalOrder: real, textureID: nat, programState: nat, program: nat,
                      blendType: BlendFunc, triangles: Triangles, mv: Mat4) returns (command: Command)
      requires Valid()
      requires programState != NULL
      modifies this, commandsPool
      ensures Valid()
      ensures old(nextFreeCommand) < old(|commandsPool|) ==> commandsPool == old(commandsPool)
      ensures old(nextFreeCommand) == old(|commandsPool|) ==>
        && |commandsPool| == old(|commandsPool|) * 2 + 1 && commandsPool[..old(|commandsPool|)] == old(commandsPool)
        && (forall i :: old(|commandsPool|) <= i < |commandsPool| ==> fresh(commandsPool[i]))
        && (forall i :: old(|commandsPool|) <= i < |commandsPool| && i != old(nextFreeCommand) ==>
              commandsPool[i].Render() == DefaultRender && commandsPool[i].triangles == NoTriangles && !commandsPool[i].forceFlush)
      ensures forall i :: 0 <= i < old(|commandsPool|) && i != old(nextFreeCommand) ==> unchanged(commandsPool[i])
      ensures nextFreeCommand == old(nextFreeCommand) + 1 && command == commandsPool[old(nextFreeCommand)]
      ensures command.Render() == RenderState(GenerateMaterialID(hash, textureID, blendType, programState),
        textureID, blendType, programState, program, globalOrder, mv)
      ensures command.triangles == triangles.(indexCount := TruncateToTriangles(triangles.indexCount))
      ensures !command.forceFlush
      ensures vertices == old(vertices) && verticesStore == old(verticesStore) && numVertices == old(numVertices)
      ensures indices == old(indices) && indicesStore == old(indicesStore) && indicesSize == old(indicesSize)
      ensures Staged() == old(Staged()) && numBatches == old(numBatches)
    {
      command := NextFreeCommand();
      command.Init(hash, globalOrder, textureID, programState, program, blendType, triangles, mv);
    }
  }
}
