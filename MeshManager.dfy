/**
  The mesh registry (MeshManager.cpp): two parallel lists, the mesh
  descriptors read from asset files and the GPU mesh resources made from
  them. `CreateMesh` adds one of each; `Create` (re)builds the GPU buffers of
  every registered mesh from its descriptor; `Destroy` releases them;
  `Finish` deletes the objects at shutdown.

  The buffer manager is not part of this model: its calls are recorded in
  `log`, and the buffers it creates are a parameter.
 */
module MeshManager {
  import opened Vk
  import opened VertexDedup

  const COUNT_MISMATCH := "Number of mesh descs is different than number of meshes!"

  /** `sizeof(uint32_t)`, the size of one index. */
  const INDEX_SIZE: nat := 4

  /** The vertex and index buffers the buffer manager hands back for one mesh. */
  datatype MeshBuffers = MeshBuffers(vertexBuffer: BufferResource, indexBuffer: BufferResource)

  /** The buffer-manager calls the model records. */
  datatype BufferCall =
    | CreateVertexBuffer(vertexBytes: nat)
    | CreateIndexBuffer(indexBytes: nat)
    | DestroyBuffer(resource: BufferResource)

  /** The GPU side of a mesh. */
  class MeshResource {
    var indexCount: nat
    var vertexBuffer: BufferResource
    var indexBuffer: BufferResource

    constructor ()
      ensures indexCount == 0 && vertexBuffer == NO_BUFFER && indexBuffer == NO_BUFFER
    {
      indexCount := 0;
      vertexBuffer := NO_BUFFER;
      indexBuffer := NO_BUFFER;
    }
  }

  /** The two buffer creations `SetupMesh` asks for: all vertices, then all
      indices, each sized in bytes. */
  function SetupCalls<V>(desc: Buffers<V>, vertexStride: nat): (r: seq<BufferCall>)
    ensures |r| == 2
    ensures r[0].CreateVertexBuffer? && r[0].vertexBytes == vertexStride * |desc.vertices|
    ensures r[1].CreateIndexBuffer? && r[1].indexBytes == INDEX_SIZE * |desc.indices|
  {
    [CreateVertexBuffer(vertexStride * |desc.vertices|), CreateIndexBuffer(INDEX_SIZE * |desc.indices|)]
  }

  /** The calls of setting up the first `n` descriptors, in list order: a
      vertex buffer and an index buffer for each, sized from that descriptor. */
  function SetupCallsUpTo<V>(descs: seq<Buffers<V>>, vertexStride: nat, n: nat): (r: seq<BufferCall>)
    requires n <= |descs|
    ensures |r| == 2 * n
    ensures forall i :: 0 <= i < n ==>
      r[2 * i] == CreateVertexBuffer(vertexStride * |descs[i].vertices|) &&
      r[2 * i + 1] == CreateIndexBuffer(INDEX_SIZE * |descs[i].indices|)
  {
    if n == 0 then []
    else
      var front := SetupCallsUpTo(descs, vertexStride, n - 1);
      var r := front + SetupCalls(descs[n - 1], vertexStride);
      assert forall i :: 0 <= i < n - 1 ==> r[2 * i] == front[2 * i] && r[2 * i + 1] == front[2 * i + 1];
      r
  }

  /** The buffers of each mesh, in list order. */
  function BuffersOf(meshes: seq<MeshResource>): (r: seq<MeshBuffers>)
    reads set m | m in meshes
    ensures |r| == |meshes|
    ensures forall i :: 0 <= i < |meshes| ==> r[i] == MeshBuffers(meshes[i].vertexBuffer, meshes[i].indexBuffer)
  {
    seq(|meshes|, i requires 0 <= i < |meshes| reads set m | m in meshes => MeshBuffers(meshes[i].vertexBuffer, meshes[i].indexBuffer))
  }

  /** The calls of `Destroy` for meshes holding `buffers`: each mesh's vertex
      buffer, then its index buffer, mesh after mesh. */
  function DestroyCalls(buffers: seq<MeshBuffers>): (r: seq<BufferCall>)
    ensures |r| == 2 * |buffers|
    ensures forall i :: 0 <= i < |buffers| ==>
      r[2 * i] == DestroyBuffer(buffers[i].vertexBuffer) && r[2 * i + 1] == DestroyBuffer(buffers[i].indexBuffer)
  {
    if buffers == [] then []
    else
      var n := |buffers| - 1;
      var front := DestroyCalls(buffers[..n]);
      var r := front + [DestroyBuffer(buffers[n].vertexBuffer), DestroyBuffer(buffers[n].indexBuffer)];
      assert forall i :: 0 <= i < n ==> r[2 * i] == front[2 * i] && r[2 * i + 1] == front[2 * i + 1];
      r
  }

  /** Every buffer `Destroy` releases belongs to some mesh, and every buffer of
      every mesh is released. */
  lemma DestroyReleasesExactly(buffers: seq<MeshBuffers>)
    ensures forall c :: c in DestroyCalls(buffers) ==> c.DestroyBuffer?
    ensures forall r :: DestroyBuffer(r) in DestroyCalls(buffers) <==>
      exists i :: 0 <= i < |buffers| && (r == buffers[i].vertexBuffer || r == buffers[i].indexBuffer)
  {
    var calls := DestroyCalls(buffers);
    forall c | c in calls
      ensures c.DestroyBuffer? && exists i :: 0 <= i < |buffers| && (c.resource == buffers[i].vertexBuffer || c.resource == buffers[i].indexBuffer)
    {
      var k :| 0 <= k < |calls| && calls[k] == c;
      DestroyCallAt(buffers, k);
    }
    forall r, i | 0 <= i < |buffers| && (r == buffers[i].vertexBuffer || r == buffers[i].indexBuffer)
      ensures DestroyBuffer(r) in calls
    {
      assert calls[2 * i] == DestroyBuffer(buffers[i].vertexBuffer);
      assert calls[2 * i + 1] == DestroyBuffer(buffers[i].indexBuffer);
    }
  }

  /** Call k releases one buffer of mesh k / 2: the vertex buffer for even k,
      the index buffer for odd k. */
  lemma DestroyCallAt(buffers: seq<MeshBuffers>, k: nat)
    requires k < 2 * |buffers|
    ensures k / 2 < |buffers|
    ensures DestroyCalls(buffers)[k] ==
      DestroyBuffer(if k % 2 == 0 then buffers[k / 2].vertexBuffer else buffers[k / 2].indexBuffer)
  {
    var i := k / 2;
    assert k == 2 * i || k == 2 * i + 1;
  }

  /** The check `Create` makes before touching any mesh. */
  function CreateCheck(meshCount: nat, descCount: nat): (o: Outcome)
    ensures o == Pass <==> meshCount == descCount
    ensures o != Pass ==> o == Fail(COUNT_MISMATCH)
  {
    if meshCount != descCount then Fail(COUNT_MISMATCH) else Pass
  }

  /** The static members of the source class `MeshManager`. */
  class MeshManager<V> {
    var meshes: seq<MeshResource>
    var descs: seq<Buffers<V>>
    /** Buffer-manager calls made so far. */
    var log: seq<BufferCall>
    /** `sizeof(MeshVertex)`. */
    const vertexStride: nat

    /** Every registered mesh is a distinct object. */
    ghost predicate Valid()
      reads this`meshes
    {
      forall i, j :: 0 <= i < j < |meshes| ==> meshes[i] != meshes[j]
    }

    /** Mesh `i` belongs to descriptor `i`. */
    predicate Paired()
      reads this`meshes, this`descs
    {
      |meshes| == |descs|
    }

    constructor (vertexStride: nat)
      ensures Valid() && Paired()
      ensures meshes == [] && descs == [] && log == [] && this.vertexStride == vertexStride
    {
      meshes := [];
      descs := [];
      log := [];
      this.vertexStride := vertexStride;
    }

    /** `SetupMesh`: the index count, then the vertex and index buffers made
        from the descriptor. */
    method SetupMesh(desc: Buffers<V>, resource: MeshResource, made: MeshBuffers)
      modifies resource, this`log
      ensures resource.indexCount == |desc.indices|
      ensures resource.vertexBuffer == made.vertexBuffer && resource.indexBuffer == made.indexBuffer
      ensures log == old(log) + SetupCalls(desc, vertexStride)
    {
      resource.indexCount := |desc.indices|;
      log := log + [CreateVertexBuffer(vertexStride * |desc.vertices|)];
      resource.vertexBuffer := made.vertexBuffer;
      log := log + [CreateIndexBuffer(INDEX_SIZE * |desc.indices|)];
      resource.indexBuffer := made.indexBuffer;
    }

    /** `CreateMesh`: a new mesh set up from `desc`, registered with it. */
    method CreateMesh(desc: Buffers<V>, made: MeshBuffers) returns (mesh: MeshResource)
      requires Valid()
      modifies this`meshes, this`descs, this`log
      ensures fresh(mesh) && Valid()
      ensures meshes == old(meshes) + [mesh] && descs == old(descs) + [desc]
      ensures old(Paired()) ==> Paired()
      ensures mesh.indexCount == |desc.indices|
      ensures mesh.vertexBuffer == made.vertexBuffer && mesh.indexBuffer == made.indexBuffer
      ensures log == old(log) + SetupCalls(desc, vertexStride)
    {
      mesh := new MeshResource();
      SetupMesh(desc, mesh, made);
      meshes := meshes + [mesh];
      descs := descs + [desc];
    }

    /** `Create`: throws when the lists differ in length; otherwise sets up
        every mesh from its own descriptor, in list order, with the buffers
        `made[i]`. */
    method Create(made: seq<MeshBuffers>) returns (o: Outcome)
      requires Valid() && |made| == |meshes|
      modifies this`log, set m | m in meshes
      ensures o == CreateCheck(|meshes|, |descs|)
      ensures o.Fail? ==> log == old(log)
      ensures o == Pass ==>
        && log == old(log) + SetupCallsUpTo(descs, vertexStride, |meshes|)
        && (forall i :: 0 <= i < |meshes| ==> meshes[i].indexCount == |descs[i].indices|)
        && BuffersOf(meshes) == made
    {
      if |meshes| != |descs| {
        return Fail(COUNT_MISMATCH);
      }
      SetupAll(made);
      o := Pass;
    }

    /** The loop of `Create`, once the lists are known to pair up. */
    method SetupAll(made: seq<MeshBuffers>)
      requires Valid() && |made| == |meshes| == |descs|
      modifies this`log, set m | m in meshes
      ensures log == old(log) + SetupCallsUpTo(descs, vertexStride, |meshes|)
      ensures forall i :: 0 <= i < |meshes| ==> meshes[i].indexCount == |descs[i].indices|
      ensures BuffersOf(meshes) == made
    {
      for i := 0 to |meshes|
        invariant log == old(log) + SetupCallsUpTo(descs, vertexStride, i)
        invariant forall k :: 0 <= k < i ==> meshes[k].indexCount == |descs[k].indices|
        invariant forall k :: 0 <= k < i ==>
          meshes[k].vertexBuffer == made[k].vertexBuffer && meshes[k].indexBuffer == made[k].indexBuffer
      {
        SetupMesh(descs[i], meshes[i], made[i]);
      }
    }

    /** `Destroy`: releases both buffers of every mesh; the lists stay. */
    method Destroy()
      modifies this`log
      ensures log == old(log) + DestroyCalls(BuffersOf(meshes))
    {
      var calls := [];
      for i := 0 to |meshes|
        invariant calls == DestroyCalls(BuffersOf(meshes)[..i])
      {
        var mesh := meshes[i];
        calls := calls + [DestroyBuffer(mesh.vertexBuffer), DestroyBuffer(mesh.indexBuffer)];
        assert BuffersOf(meshes)[..i + 1][..i] == BuffersOf(meshes)[..i];
      }
      assert BuffersOf(meshes)[..|meshes|] == BuffersOf(meshes);
      log := log + calls;
    }

    /** `Finish` as written: the mesh list is emptied, the descriptor list is
        left holding the deleted descriptors. */
    method Finish()
      modifies this`meshes
      ensures meshes == [] && descs == old(descs)
      ensures Valid()
      ensures Paired() <==> old(descs) == []
    {
      meshes := [];
    }

    /** `Finish` as evidently intended: both lists emptied, so the registry is
        paired again and ready for reuse. */
    method FinishAll()
      modifies this`meshes, this`descs
      ensures meshes == [] && descs == []
      ensures Valid() && Paired()
    {
      meshes := [];
      descs := [];
    }
  }

  /** A registry used for one mesh, finished, and reused for another: with
      `Finish` as written the next `Create` throws. */
  method ReuseAfterFinish(desc: Buffers<int>, first: MeshBuffers, second: MeshBuffers) returns (o: Outcome)
    ensures o == Fail(COUNT_MISMATCH)
  {
    var manager := new MeshManager<int>(8);
    var m1 := manager.CreateMesh(desc, first);
    manager.Finish();
    var m2 := manager.CreateMesh(desc, second);
    o := manager.Create([second]);
  }

  /** The same reuse with both lists cleared: `Create` sets the new mesh up. */
  method ReuseAfterFinishAll(desc: Buffers<int>, first: MeshBuffers, second: MeshBuffers) returns (o: Outcome)
    ensures o == Pass
  {
    var manager := new MeshManager<int>(8);
    var m1 := manager.CreateMesh(desc, first);
    manager.FinishAll();
    var m2 := manager.CreateMesh(desc, second);
    o := manager.Create([second]);
  }
}
