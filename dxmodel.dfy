/**
 * The Direct3D model asset: after a scene import it copies the first mesh's vertices and
 * triangle indices into its own vertex and index lists and records the mesh bounds; at
 * draw time it batches per-instance world transforms into a fixed array and flushes them
 * in one instanced draw.
 */
module DXModels {
  import opened Options

  datatype Vector3 = Vector3(x: real, y: real, z: real)

  const Zero3 := Vector3(0.0, 0.0, 0.0)

  function Add(a: Vector3, b: Vector3): Vector3
  {
    Vector3(a.x + b.x, a.y + b.y, a.z + b.z)
  }

  /** Componentwise difference: the offset that carries `b` to `a`. */
  function Sub(a: Vector3, b: Vector3): (d: Vector3)
    ensures Add(b, d) == a
  {
    Vector3(a.x - b.x, a.y - b.y, a.z - b.z)
  }

  /** One GPU vertex: position, normal, tangent frame and first texture coordinate. */
  datatype Vertex = Vertex(
    pos: Vector3, normal: Vector3, tangent: Vector3, bitangent: Vector3, u: real, v: real)

  /** One face of the imported mesh; after triangulation its first three indices are read. */
  datatype Face = Face(indices: seq<nat>)

  /** The first mesh of an imported scene: per-vertex arrays, the optional ones absent when
      the importer produced none, and the faces. */
  datatype Mesh = Mesh(
    vertices: seq<Vector3>,
    normals: Option<seq<Vector3>>,
    tangents: Option<seq<Vector3>>,
    bitangents: Option<seq<Vector3>>,
    uvs: Option<seq<Vector3>>,
    faces: seq<Face>)

  datatype Scene = Scene(meshes: seq<Mesh>)

  /** What the mesh-centre routine reports: bounding minimum, maximum and centre. */
  datatype Bounds = Bounds(min: Vector3, max: Vector3, center: Vector3)

  predicate HasTangentsAndBitangents(mesh: Mesh)
  {
    mesh.tangents.Some? && mesh.bitangents.Some?
  }

  /** The reads the import loops make are in bounds: every array present holds one entry
      per vertex, and every face has at least three indices. */
  predicate WellFormed(mesh: Mesh)
  {
    && (mesh.normals.Some? ==> |mesh.normals.value| == |mesh.vertices|)
    && (mesh.tangents.Some? ==> |mesh.tangents.value| == |mesh.vertices|)
    && (mesh.bitangents.Some? ==> |mesh.bitangents.value| == |mesh.vertices|)
    && (mesh.uvs.Some? ==> |mesh.uvs.value| == |mesh.vertices|)
    && forall f :: 0 <= f < |mesh.faces| ==> |mesh.faces[f].indices| >= 3
  }

  /** Vertex `i` as the import loop builds it. */
  function VertexOf(mesh: Mesh, i: nat): Vertex
    requires WellFormed(mesh) && i < |mesh.vertices|
  {
    var tb := HasTangentsAndBitangents(mesh);
    Vertex(
      mesh.vertices[i],
      if mesh.normals.Some? then mesh.normals.value[i] else Zero3,
      if tb then mesh.tangents.value[i] else Zero3,
      if tb then mesh.bitangents.value[i] else Zero3,
      if mesh.uvs.Some? then mesh.uvs.value[i].x else 0.0,
      if mesh.uvs.Some? then mesh.uvs.value[i].y else 0.0)
  }

  /** The vertices the import appends: one per mesh vertex, in order, with each optional
      component copied when the mesh has it and left at zero otherwise. */
  function MeshVertices(mesh: Mesh): (vs: seq<Vertex>)
    requires WellFormed(mesh)
    ensures |vs| == |mesh.vertices|
    ensures forall i :: 0 <= i < |vs| ==>
      && vs[i].pos == mesh.vertices[i]
      && vs[i].normal == (if mesh.normals.Some? then mesh.normals.value[i] else Zero3)
      && vs[i].tangent == (if HasTangentsAndBitangents(mesh) then mesh.tangents.value[i] else Zero3)
      && vs[i].bitangent == (if HasTangentsAndBitangents(mesh) then mesh.bitangents.value[i] else Zero3)
      && (vs[i].u, vs[i].v) == (if mesh.uvs.Some? then (mesh.uvs.value[i].x, mesh.uvs.value[i].y) else (0.0, 0.0))
  {
    seq(|mesh.vertices|, i requires 0 <= i < |mesh.vertices| => VertexOf(mesh, i))
  }

  /** The first three indices of each face, face after face. */
  function FaceIndices(faces: seq<Face>): seq<nat>
    requires forall f :: 0 <= f < |faces| ==> |faces[f].indices| >= 3
  {
    if |faces| == 0 then []
    else
      var last := faces[|faces| - 1].indices;
      FaceIndices(faces[..|faces| - 1]) + [last[0], last[1], last[2]]
  }

  /** The index list has three entries per face, entry 3f+k being index k of face f. */
  lemma {:induction false} FaceIndicesAt(faces: seq<Face>)
    requires forall f :: 0 <= f < |faces| ==> |faces[f].indices| >= 3
    ensures |FaceIndices(faces)| == 3 * |faces|
    ensures forall f, k :: 0 <= f < |faces| && 0 <= k < 3 ==>
      FaceIndices(faces)[3 * f + k] == faces[f].indices[k]
  {
    if |faces| > 0 {
      var init := faces[..|faces| - 1];
      FaceIndicesAt(init);
      forall f, k | 0 <= f < |faces| && 0 <= k < 3
        ensures FaceIndices(faces)[3 * f + k] == faces[f].indices[k]
      {
        if f < |init| {
          assert init[f] == faces[f];
        }
      }
    }
  }

  /** When every face refers to existing vertices, so does every entry of the index list. */
  lemma {:induction false} FaceIndicesInRange(faces: seq<Face>, n: nat)
    requires forall f :: 0 <= f < |faces| ==> |faces[f].indices| >= 3
    requires forall f, k :: 0 <= f < |faces| && 0 <= k < 3 ==> faces[f].indices[k] < n
    ensures forall i :: 0 <= i < |FaceIndices(faces)| ==> FaceIndices(faces)[i] < n
  {
    if |faces| > 0 {
      var init := faces[..|faces| - 1];
      assert forall f, k :: 0 <= f < |init| && 0 <= k < 3 ==> init[f].indices[k] < n by {
        forall f, k | 0 <= f < |init| && 0 <= k < 3 ensures init[f].indices[k] < n {
          assert init[f] == faces[f];
        }
      }
      FaceIndicesInRange(init, n);
    }
  }

  // ---------------------------------------------------------------------------
  // Instance transforms

  datatype Float4 = Float4(x: real, y: real, z: real, w: real)

  /** A 4x4 matrix stored row by row. */
  datatype Float4x4 = Float4x4(r0: Float4, r1: Float4, r2: Float4, r3: Float4)

  function Component(v: Float4, j: nat): real
    requires j < 4
  {
    if j == 0 then v.x else if j == 1 then v.y else if j == 2 then v.z else v.w
  }

  function Entry(m: Float4x4, i: nat, j: nat): real
    requires i < 4 && j < 4
  {
    Component(if i == 0 then m.r0 else if i == 1 then m.r1 else if i == 2 then m.r2 else m.r3, j)
  }

  /** The transpose: row i of the result is column i of `m`. */
  function Transpose(m: Float4x4): (t: Float4x4)
    ensures forall i: nat, j: nat :: i < 4 && j < 4 ==> Entry(t, i, j) == Entry(m, j, i)
  {
    Float4x4(
      Float4(m.r0.x, m.r1.x, m.r2.x, m.r3.x),
      Float4(m.r0.y, m.r1.y, m.r2.y, m.r3.y),
      Float4(m.r0.z, m.r1.z, m.r2.z, m.r3.z),
      Float4(m.r0.w, m.r1.w, m.r2.w, m.r3.w))
  }

  /** Transposing twice gives back the world matrix, so the stored transform loses nothing. */
  lemma TransposeInvolutive(m: Float4x4)
    ensures Transpose(Transpose(m)) == m
  {
  }

  /** One batch call as written (lines 185-189): the slot written, and the instance and
      render-call counts afterwards.  Nothing bounds the slot by the array's capacity. */
  datatype BatchStep = BatchStep(slot: nat, numInstances: nat, numRenderCalls: nat)

  function BatchCallAsWritten(numInstances: nat, numRenderCalls: nat, capacity: nat): BatchStep
  {
    var count := numInstances + 1;
    BatchStep(numInstances, count, if count > capacity then numRenderCalls + 1 else numRenderCalls)
  }

  /** The record of `k` batch calls as written on an empty batch: the slots written, in call
      order, and the counters after the last call. */
  datatype BatchRun = BatchRun(slots: seq<nat>, numInstances: nat, numRenderCalls: nat)

  function BatchRunAsWritten(k: nat, capacity: nat): BatchRun
  {
    if k == 0 then BatchRun([], 0, 0)
    else
      var run := BatchRunAsWritten(k - 1, capacity);
      var step := BatchCallAsWritten(run.numInstances, run.numRenderCalls, capacity);
      BatchRun(run.slots + [step.slot], step.numInstances, step.numRenderCalls)
  }

  /** As written, call i + 1 on an empty batch writes slot i, so the first write outside an
      array of `capacity` transforms is call `capacity + 1`; and the render-call counter is
      non-zero exactly when such a write has happened, counting one per overflowing call. */
  lemma {:induction false} BatchRunAsWrittenOverflows(k: nat, capacity: nat)
    ensures var run := BatchRunAsWritten(k, capacity);
      && |run.slots| == k
      && (forall i :: 0 <= i < k ==> run.slots[i] == i)
      && run.numInstances == k
      && run.numRenderCalls == (if k > capacity then k - capacity else 0)
      && (run.numRenderCalls > 0 <==> exists i :: 0 <= i < k && run.slots[i] >= capacity)
  {
    if k > 0 {
      BatchRunAsWrittenOverflows(k - 1, capacity);
      var run := BatchRunAsWritten(k, capacity);
      if k > capacity {
        assert run.slots[capacity] >= capacity;
      }
    }
  }

  /** What a flush hands the backend: nothing when no instance is queued, otherwise one
      instanced draw of `queued` instances over the whole transform array. */
  function Flush(indexCount: nat, queued: nat, transforms: seq<Float4x4>, material: Material?): Option<DrawCall>
    requires queued > 0 ==> material != null
  {
    if queued == 0 then None else Some(DrawCall(indexCount, queued, transforms, material))
  }

  /** A material the model draws with; owned elsewhere, only referred to here. */
  class Material {
    constructor () {}
  }

  /** What one flush hands the graphics backend: index count, instance count, the whole
      transform array and the material bound. */
  datatype DrawCall = DrawCall(
    indexCount: nat, instanceCount: nat, transforms: seq<Float4x4>, material: Material)

  class DXModel {
    /** The capacity of the transform batch, fixed per draw. */
    const maxInstances: nat
    const instanceData: array<Float4x4>
    var numInstances: nat
    var numRenderCalls: nat

    var vertices: seq<Vertex>
    var indices: seq<nat>
    var min: Vector3
    var max: Vector3
    var center: Vector3
    var size: Vector3
    var material: Material?
    /** The single world transform, stored transposed. */
    var world: Float4x4
    /** Whether the vertex and index buffers have been created. */
    var hasBuffers: bool

    ghost predicate Valid()
      reads this
    {
      && instanceData.Length == maxInstances
      && numInstances <= maxInstances
      && size == Sub(max, min)
    }

    constructor (maxInstancesPerDraw: nat)
      ensures Valid() && fresh(instanceData)
      ensures maxInstances == maxInstancesPerDraw
      ensures numInstances == 0 && numRenderCalls == 0
      ensures vertices == [] && indices == []
      ensures material == null && !hasBuffers
    {
      maxInstances := maxInstancesPerDraw;
      instanceData := new Float4x4[maxInstancesPerDraw];
      numInstances := 0;
      numRenderCalls := 0;
      vertices := [];
      indices := [];
      min, max, center, size := Zero3, Zero3, Zero3, Zero3;
      material := null;
      world := Float4x4(Float4(0.0, 0.0, 0.0, 0.0), Float4(0.0, 0.0, 0.0, 0.0),
                        Float4(0.0, 0.0, 0.0, 0.0), Float4(0.0, 0.0, 0.0, 0.0));
      hasBuffers := false;
    }

    /** Imports the first mesh of `scene` (`None` when the import failed).  `findMeshCenter`
        is the routine that measures the mesh. */
    method InitFromFile(scene: Option<Scene>, findMeshCenter: Mesh -> Bounds) returns (ok: bool)
      requires Valid()
      requires scene.Some? ==> |scene.value.meshes| > 0 && WellFormed(scene.value.meshes[0])
      modifies this`vertices, this`indices, this`min, this`max, this`center, this`size
      modifies this`hasBuffers
      ensures Valid()
      ensures ok <==> scene.Some?
      ensures !ok ==> vertices == old(vertices) && indices == old(indices)
      ensures !ok ==> min == old(min) && max == old(max) && center == old(center)
      ensures !ok ==> hasBuffers == old(hasBuffers)
      ensures ok ==> var mesh := scene.value.meshes[0]; var b := findMeshCenter(mesh);
        && min == b.min && max == b.max && center == b.center && size == Sub(b.max, b.min)
        && vertices == old(vertices) + MeshVertices(mesh)
        && indices == old(indices) + FaceIndices(mesh.faces)
        && hasBuffers
    {
      if scene.None? {
        return false;
      }
      var mesh := scene.value.meshes[0];
      var b := findMeshCenter(mesh);
      min, max := b.min, b.max;
      size := Sub(max, min);
      center := b.center;

      var numVertices := |mesh.vertices|;
      var i := 0;
      while i < numVertices
        invariant i <= numVertices
        invariant Valid() && min == b.min && max == b.max && center == b.center
        invariant indices == old(indices)
        invariant vertices == old(vertices) + MeshVertices(mesh)[..i]
      {
        vertices := vertices + [VertexOf(mesh, i)];
        assert MeshVertices(mesh)[..i + 1] == MeshVertices(mesh)[..i] + [VertexOf(mesh, i)];
        i := i + 1;
      }

      var numFaces := |mesh.faces|;
      var f := 0;
      while f < numFaces
        invariant f <= numFaces
        invariant Valid() && min == b.min && max == b.max && center == b.center
        invariant vertices == old(vertices) + MeshVertices(mesh)
        invariant indices == old(indices) + FaceIndices(mesh.faces[..f])
      {
        var face := mesh.faces[f];
        indices := indices + [face.indices[0]];
        indices := indices + [face.indices[1]];
        indices := indices + [face.indices[2]];
        assert mesh.faces[..f + 1][..f] == mesh.faces[..f];
        f := f + 1;
      }
      assert mesh.faces[..f] == mesh.faces;
      hasBuffers := true;
      ok := true;
    }

    /** Sets the material the model draws with; the model does not own it. */
    method SetMaterial(m: Material?)
      modifies this`material
      ensures material == m
    {
      material := m;
    }

    /** Stores the transposed world transform; the instance batch is untouched. */
    method SetWorld(w: Float4x4)
      modifies this`world
      ensures world == Transpose(w)
    {
      world := Transpose(w);
    }

    /** Queues one instance: stores the transposed world transform in the next free slot.
        The slot must exist: the write comes before any test of the count. */
    method BatchRender(world: Float4x4)
      requires Valid()
      requires numInstances < maxInstances
      modifies this`numInstances, this`numRenderCalls, instanceData
      ensures Valid()
      ensures instanceData[old(numInstances)] == Transpose(world)
      ensures forall k :: 0 <= k < instanceData.Length && k != old(numInstances) ==>
        instanceData[k] == old(instanceData[k])
      ensures numInstances == old(numInstances) + 1
      ensures numRenderCalls ==
        if numInstances > maxInstances then old(numRenderCalls) + 1 else old(numRenderCalls)
      // with the write in bounds the count never passes the capacity, so the rule above
      // never adds a render call
      ensures numRenderCalls == old(numRenderCalls)
    {
      instanceData[numInstances] := Transpose(world);
      numInstances := numInstances + 1;
      numRenderCalls := numRenderCalls + if numInstances > maxInstances then 1 else 0;
    }

    /** Flushes the batch: with no instance queued nothing happens; otherwise one instanced
        draw of the whole index list is issued and both counters return to zero.  The
        transform array itself is not cleared. */
    method Render() returns (draw: Option<DrawCall>)
      requires Valid()
      requires numInstances > 0 ==> material != null && hasBuffers
      modifies this`numInstances, this`numRenderCalls
      ensures Valid()
      ensures draw == Flush(|indices|, old(numInstances), instanceData[..], material)
      ensures old(numInstances) == 0 ==>
        numInstances == 0 && numRenderCalls == old(numRenderCalls)
      ensures old(numInstances) > 0 ==> numInstances == 0 && numRenderCalls == 0
      ensures instanceData[..] == old(instanceData[..])
    {
      if numInstances <= 0 {
        return None;
      }
      draw := Some(DrawCall(|indices|, numInstances, instanceData[..], material));
      numInstances := 0;
      numRenderCalls := 0;
    }

    function Min(): (r: Vector3)
      reads this
      ensures r == min
    {
      min
    }

    function Max(): (r: Vector3)
      reads this
      ensures r == max
    {
      max
    }

    function Center(): (r: Vector3)
      reads this
      ensures r == center
    {
      center
    }

    /** The extent of the bounding box: it carries the minimum corner to the maximum. */
    function Size(): (r: Vector3)
      reads this
      requires Valid()
      ensures Add(min, r) == max
    {
      size
    }
  }

  /** A client of the batch protocol: two instances queued on an empty batch are flushed
      in one draw carrying both transforms, and the counters start over. */
  method BatchTwoAndFlush(model: DXModel, w1: Float4x4, w2: Float4x4) returns (draw: Option<DrawCall>)
    requires model.Valid() && model.numInstances == 0 && model.maxInstances >= 2
    requires model.material != null && model.hasBuffers
    modifies model, model.instanceData
    ensures model.Valid() && model.numInstances == 0 && model.numRenderCalls == 0
    ensures draw.Some? && draw.value.instanceCount == 2 && |draw.value.transforms| >= 2
    ensures draw.value.transforms[0] == Transpose(w1) && draw.value.transforms[1] == Transpose(w2)
  {
    model.BatchRender(w1);
    model.BatchRender(w2);
    draw := model.Render();
  }

  /** As written, queuing more transforms than the array holds and then flushing issues a
      single draw whose instance count exceeds the transforms the array can supply: the extra
      instances get no draw of their own. */
  lemma OverflowFlushExceedsArray(model: DXModel, k: nat)
    requires model.Valid() && model.material != null
    requires k > model.maxInstances
    ensures var run := BatchRunAsWritten(k, model.maxInstances);
      var draw := Flush(|model.indices|, run.numInstances, model.instanceData[..], model.material);
      && draw.Some?
      && draw.value.instanceCount == k
      && draw.value.instanceCount > |draw.value.transforms|
  {
    BatchRunAsWrittenOverflows(k, model.maxInstances);
  }
}
