/** `CreateTextureQuadGeometry`: the plane mesh. Its one submesh stores
    position, normal and texture coordinate tightly packed, and its VAO
    cache is seeded with an object built for the textured-mesh program, so
    the geometry pass never reconciles the plane for that program. The
    seeded object's stride is the one written, the size of the
    `std::vector` object holding the vertices.

    The GL buffer and vertex array objects are names passed in. */
module PlaneGeometry {
  import opened Common
  import opened BufferObjects
  import opened EngineTypes
  import opened VertexBinding
  import opened AppState

  /** `sizeof(float)`. */
  const FloatSize: nat := 4

  /** Two triangles over the four corners. */
  const PlaneIndices: seq<u32> := [0, 1, 2, 0, 2, 3]

  /** Four vertices of eight floats: position, normal, texture coordinate. */
  const PlaneVertices: seq<real> := [
    -0.5, -0.5, 0.0, 0.0, 0.0, 1.0, 0.0, 0.0,
     0.5, -0.5, 0.0, 0.0, 0.0, 1.0, 1.0, 0.0,
     0.5,  0.5, 0.0, 0.0, 0.0, 1.0, 1.0, 1.0,
    -0.5,  0.5, 0.0, 0.0, 0.0, 1.0, 0.0, 1.0]

  /** Bytes taken by float attributes laid end to end. */
  function AttributeBytes(attrs: seq<VertexBufferAttribute>): nat
    decreases |attrs|
  {
    if |attrs| == 0 then 0
    else AttributeBytes(attrs[..|attrs| - 1]) + FloatSize * attrs[|attrs| - 1].componentCount
  }

  /** Each attribute starts where the previous ones end and the stride is
      the whole vertex: interleaved data with no gaps. */
  predicate TightlyPacked(l: VertexBufferLayout) {
    && (forall k :: 0 <= k < |l.attributes| ==> l.attributes[k].offset == AttributeBytes(l.attributes[..k]))
    && l.stride == AttributeBytes(l.attributes)
  }

  /** The vertex format built at the end of `CreateTextureQuadGeometry`:
      the stride is grown after each attribute and the next attribute's
      offset is read from it. */
  function PlaneLayout(): (l: VertexBufferLayout)
    ensures TightlyPacked(l)
    ensures |l.attributes| == 3
    ensures l.attributes[0] == VertexBufferAttribute(0, 3, 0)
    ensures l.attributes[1] == VertexBufferAttribute(1, 3, 12)
    ensures l.attributes[2] == VertexBufferAttribute(2, 2, 24)
    ensures l.stride == 32
  {
    var l := VertexBufferLayout([VertexBufferAttribute(0, 3, 0)], 0);
    var l := l.(stride := 3 * FloatSize);
    var l := l.(attributes := l.attributes + [VertexBufferAttribute(1, 3, l.stride)]);
    var l := l.(stride := l.stride + 3 * FloatSize);
    var l := l.(attributes := l.attributes + [VertexBufferAttribute(2, 2, l.stride)]);
    var l := l.(stride := l.stride + 2 * FloatSize);
    assert l.attributes[..0] == [];
    assert l.attributes[..1][..0] == [];
    assert l.attributes[..2][..1] == l.attributes[..1];
    assert l.attributes[..3] == l.attributes;
    assert l.attributes[..3][..2] == l.attributes[..2];
    l
  }

  lemma {:induction false} AttributeBytesPrefix(attrs: seq<VertexBufferAttribute>, k: nat)
    requires k <= |attrs|
    ensures AttributeBytes(attrs[..k]) <= AttributeBytes(attrs)
    decreases |attrs| - k
  {
    if k < |attrs| {
      AttributeBytesPrefix(attrs, k + 1);
      assert attrs[..k + 1][..k] == attrs[..k];
    } else {
      assert attrs[..k] == attrs;
    }
  }

  /** In a tightly packed layout every attribute lies inside one vertex. */
  lemma TightlyPackedFits(l: VertexBufferLayout)
    requires TightlyPacked(l)
    ensures forall k :: 0 <= k < |l.attributes| ==>
      l.attributes[k].offset + FloatSize * l.attributes[k].componentCount <= l.stride
  {
    forall k | 0 <= k < |l.attributes|
      ensures l.attributes[k].offset + FloatSize * l.attributes[k].componentCount <= l.stride
    {
      assert l.attributes[..k + 1][..k] == l.attributes[..k];
      AttributeBytesPrefix(l.attributes, k + 1);
    }
  }

  /** The three vertex inputs of a program reading position, normal and
      texture coordinate at locations 0, 1 and 2. */
  const PlaneInputs: seq<VertexShaderAttribute> :=
    [VertexShaderAttribute(0, 3), VertexShaderAttribute(1, 3), VertexShaderAttribute(2, 2)]

  /** The attribute bindings the seeded object receives AS WRITTEN: the
      stride passed is `sizeof(submesh.vertices)`, the size of the
      `std::vector` object, not of one vertex. */
  function PlaneSeedBindingsAsWritten(vectorObjectSize: u32): (bs: seq<Binding>)
    ensures |bs| == |PlaneSeedBindings()|
    ensures forall i :: 0 <= i < |bs| ==>
      bs[i].stride == vectorObjectSize && bs[i] == PlaneSeedBindings()[i].(stride := vectorObjectSize)
  {
    [Binding(0, 3, vectorObjectSize, 0),
     Binding(1, 3, vectorObjectSize, 3 * FloatSize),
     Binding(2, 2, vectorObjectSize, 6 * FloatSize)]
  }

  /** The seeded bindings as intended: exactly what `FindVAO` would bind for
      the plane's layout and a program reading locations 0, 1 and 2. */
  function PlaneSeedBindings(): (bs: seq<Binding>)
    ensures forall h :: Reconcile(PlaneInputs, PlaneLayout(), 0, h) == Ok(bs)
    ensures forall i :: 0 <= i < |bs| ==> bs[i].stride == PlaneLayout().stride
  {
    PlaneReconciles();
    var l := PlaneLayout();
    [BindingFor(l.attributes[0], l.stride, 0),
     BindingFor(l.attributes[1], l.stride, 0),
     BindingFor(l.attributes[2], l.stride, 0)]
  }

  lemma PlaneReconciles()
    ensures var l := PlaneLayout();
      forall h :: Reconcile(PlaneInputs, l, 0, h) ==
        Ok([BindingFor(l.attributes[0], l.stride, 0),
            BindingFor(l.attributes[1], l.stride, 0),
            BindingFor(l.attributes[2], l.stride, 0)])
  {
    var l := PlaneLayout();
    var b0 := BindingFor(l.attributes[0], l.stride, 0);
    var b1 := BindingFor(l.attributes[1], l.stride, 0);
    var b2 := BindingFor(l.attributes[2], l.stride, 0);
    FindAttributeAt(l, 0);
    FindAttributeAt(l, 1);
    FindAttributeAt(l, 2);
    var in1 := PlaneInputs[1..];
    var in2 := in1[1..];
    assert in2[1..] == [];
    forall h: Name
      ensures Reconcile(PlaneInputs, l, 0, h) == Ok([b0, b1, b2])
    {
      assert Reconcile(in2[1..], l, 0, h) == Ok([]);
      ReconcileStep(in2, l, 0, h, 2, []);
      assert [b2] + [] == [b2];
      ReconcileStep(in1, l, 0, h, 1, [b2]);
      assert [b1] + [b2] == [b1, b2];
      ReconcileStep(PlaneInputs, l, 0, h, 0, [b1, b2]);
      assert [b0] + [b1, b2] == [b0, b1, b2];
    }
  }

  /** The written stride agrees with the vertex size only when the vector
      object happens to be 32 bytes; on the common 24-byte `std::vector`
      every vertex after the first is read from the wrong place. */
  lemma SeedStrideMismatch(vectorObjectSize: u32)
    ensures PlaneSeedBindingsAsWritten(vectorObjectSize) == PlaneSeedBindings() <==> vectorObjectSize == 32
    ensures PlaneSeedBindingsAsWritten(24) != PlaneSeedBindings()
  {
    assert PlaneSeedBindings()[0].stride == 32;
    if vectorObjectSize == 32 {
      assert PlaneSeedBindingsAsWritten(vectorObjectSize) == PlaneSeedBindings();
    }
  }

  datatype PlaneCreation = PlaneCreation(app: App, seeded: VaoCreation)

  /** The plane's one submesh. The CPU-side vertex copy takes the first 20
      floats only, as the copy loop is written; the GPU buffer receives all
      32 (the copy is never read again). */
  function PlaneSubmesh(seedVao: Name, programHandle: Name): (sub: Submesh)
    ensures sub.vertexBufferLayout == PlaneLayout() && sub.vertexOffset == 0 && sub.indexOffset == 0
    ensures sub.indices == PlaneIndices && sub.vertices == PlaneVertices[..20]
    ensures Cached(sub, programHandle) && CachedHandle(sub, programHandle) == seedVao
  {
    assert FindCached([Vao(seedVao, programHandle)], programHandle) == Some(0);
    Submesh(PlaneLayout(), PlaneVertices[..20], PlaneIndices, 0, 0, [Vao(seedVao, programHandle)])
  }

  /** `CreateTextureQuadGeometry`: appends the material, a one-submesh mesh
      and a model tying them together, and records the model index. The
      indices it stores are `size() - 1` in `u32` arithmetic, which are the
      new entries while the tables fit in a `u32`. The seeded object gets
      the bindings as written, with `vectorObjectSize`, the byte size of a
      `std::vector` object on the target, as stride. */
  function CreateTextureQuadGeometry(app: App, material: Material, vertexBuffer: Name, indexBuffer: Name,
                                     seedVao: Name, vectorObjectSize: u32): (r: PlaneCreation)
    requires app.texturedMeshProgramIdx < |app.programs|
    ensures r.app == app.(materials := r.app.materials, meshes := r.app.meshes,
                          models := r.app.models, planeModelIdx := r.app.planeModelIdx)
    ensures r.app.materials == app.materials + [material]
    ensures r.app.meshes == app.meshes
      + [Mesh([PlaneSubmesh(seedVao, app.programs[app.texturedMeshProgramIdx].handle)], vertexBuffer, indexBuffer)]
    ensures |r.app.models| == |app.models| + 1 && r.app.models[..|app.models|] == app.models
    ensures |app.materials| < U32_MAX && |app.meshes| < U32_MAX && |app.models| < U32_MAX ==>
      && r.app.planeModelIdx == |app.models|
      && r.app.models[r.app.planeModelIdx].meshIdx == |app.meshes|
      && r.app.models[r.app.planeModelIdx].materialIdx == [|app.materials|]
    ensures r.seeded.vertexBuffer == vertexBuffer && r.seeded.indexBuffer == indexBuffer
    ensures r.seeded.bindings == PlaneSeedBindingsAsWritten(vectorObjectSize)
    ensures r.seeded.bindings == PlaneSeedBindings() <==> vectorObjectSize == 32
  {
    SeedStrideMismatch(vectorObjectSize);
    var submesh := PlaneSubmesh(seedVao, app.programs[app.texturedMeshProgramIdx].handle);
    var materials := app.materials + [material];
    var meshes := app.meshes + [Mesh([submesh], vertexBuffer, indexBuffer)];
    var model := Model(WrapU32(WrapU32(|meshes|) - 1), [WrapU32(|materials| - 1)]);
    var models := app.models + [model];
    PlaneCreation(
      app.(materials := materials, meshes := meshes, models := models,
           planeModelIdx := WrapU32(WrapU32(|models|) - 1)),
      VaoCreation(vertexBuffer, indexBuffer, PlaneSeedBindingsAsWritten(vectorObjectSize)))
  }

  /** The point of the seeding: looking the plane up for the textured-mesh
      program hits the seeded object, creating and reconciling nothing. */
  lemma PlaneHitsSeededVao(app: App, material: Material, vertexBuffer: Name, indexBuffer: Name, seedVao: Name,
                            vectorObjectSize: u32, newName: Name)
    requires app.texturedMeshProgramIdx < |app.programs|
    ensures var r := CreateTextureQuadGeometry(app, material, vertexBuffer, indexBuffer, seedVao, vectorObjectSize);
      var mesh := r.app.meshes[|app.meshes|];
      FindVao(mesh, 0, app.programs[app.texturedMeshProgramIdx], newName) == Ok(VaoLookup(seedVao, mesh, None))
  {
    var r := CreateTextureQuadGeometry(app, material, vertexBuffer, indexBuffer, seedVao, vectorObjectSize);
    var mesh := r.app.meshes[|app.meshes|];
    assert FindCached(mesh.submeshes[0].vaos, app.programs[app.texturedMeshProgramIdx].handle) == Some(0);
  }
}
