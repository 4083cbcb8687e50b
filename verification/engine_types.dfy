/** The scene and resource records of the engine with their constructor
    defaults. Matrices and colours are opaque values; GL object names are
    plain `Name`s. */
module EngineTypes {
  import opened Common
  import opened BufferObjects

  /** A loaded 2D texture: its GL name and the path it was loaded from. */
  datatype Texture = Texture(handle: Name, filepath: string)

  const DefaultTexture: Texture := Texture(0, "")

  /** A linked shader program with its reflected vertex inputs. */
  datatype Program = Program(
    handle: Name,
    filepath: string,
    programName: string,
    lastWriteTimestamp: nat,
    vertexInputLayout: VertexShaderLayout)

  /** A drawable region of a mesh: its vertex format, CPU-side copies of
      its data, its offsets into the mesh's shared buffers, and the cache
      of vertex array objects keyed by program. */
  datatype Submesh = Submesh(
    vertexBufferLayout: VertexBufferLayout,
    vertices: seq<real>,
    indices: seq<u32>,
    vertexOffset: u32,
    indexOffset: u32,
    vaos: seq<Vao>)

  /** `Submesh(_vertexOffset, _indexOffset)`: empty layout, data and cache. */
  function NewSubmesh(vertexOffset: u32, indexOffset: u32): (s: Submesh)
    ensures s.vertexOffset == vertexOffset && s.indexOffset == indexOffset
    ensures s.vertexBufferLayout.attributes == [] && s.vertexBufferLayout.stride == 0
    ensures s.vertices == [] && s.indices == [] && s.vaos == []
  {
    Submesh(EmptyLayout, [], [], vertexOffset, indexOffset, [])
  }

  /** The default-constructed submesh. */
  const DefaultSubmesh: Submesh := NewSubmesh(0, 0)

  /** A mesh: its submeshes and the one vertex buffer and one index buffer
      they all live in. */
  datatype Mesh = Mesh(submeshes: seq<Submesh>, vertexBufferHandle: Name, indexBufferHandle: Name)

  const DefaultMesh: Mesh := Mesh([], 0, 0)

  /** A model: one mesh and one material index per submesh. */
  datatype Model = Model(meshIdx: u32, materialIdx: seq<u32>)

  function NewModel(meshIdx: u32): Model {
    Model(meshIdx, [])
  }

  datatype Material = Material(
    name: string,
    albedo: Vec3,
    emissive: Vec3,
    specular: Vec3,
    smoothness: real,
    albedoTextureIdx: u32,
    emissiveTextureIdx: u32,
    specularTextureIdx: u32,
    normalsTextureIdx: u32,
    bumpTextureIdx: u32)

  /** The default-constructed material: empty name, zero colours and
      scalars, every texture index 0. */
  const DefaultMaterial: Material := Material("", Zero3, Zero3, Zero3, 0.0, 0, 0, 0, 0, 0)

  /** The ten-argument `Material` constructor AS WRITTEN: its initializer
      list names every member except `emissive`, so `emissive` keeps its
      default zero whatever `_emissive` is passed. */
  function MaterialAsWritten(
    name: string, albedo: Vec3, emissive: Vec3, specular: Vec3, smoothness: real,
    albedoTextureIdx: u32, emissiveTextureIdx: u32, specularTextureIdx: u32,
    normalsTextureIdx: u32, bumpTextureIdx: u32): (m: Material)
    ensures m.emissive == Zero3
    ensures m == NewMaterial(name, albedo, Zero3, specular, smoothness, albedoTextureIdx,
                             emissiveTextureIdx, specularTextureIdx, normalsTextureIdx, bumpTextureIdx)
  {
    DefaultMaterial.(
      name := name, albedo := albedo, specular := specular, smoothness := smoothness,
      albedoTextureIdx := albedoTextureIdx, emissiveTextureIdx := emissiveTextureIdx,
      specularTextureIdx := specularTextureIdx, normalsTextureIdx := normalsTextureIdx,
      bumpTextureIdx := bumpTextureIdx)
  }

  /** The ten-argument constructor as intended: every argument, `_emissive`
      included, becomes the member of the same name. */
  function NewMaterial(
    name: string, albedo: Vec3, emissive: Vec3, specular: Vec3, smoothness: real,
    albedoTextureIdx: u32, emissiveTextureIdx: u32, specularTextureIdx: u32,
    normalsTextureIdx: u32, bumpTextureIdx: u32): (m: Material)
    ensures m.name == name && m.albedo == albedo && m.emissive == emissive
    ensures m.specular == specular && m.smoothness == smoothness
    ensures m.albedoTextureIdx == albedoTextureIdx && m.emissiveTextureIdx == emissiveTextureIdx
    ensures m.specularTextureIdx == specularTextureIdx && m.normalsTextureIdx == normalsTextureIdx
    ensures m.bumpTextureIdx == bumpTextureIdx
  {
    Material(name, albedo, emissive, specular, smoothness, albedoTextureIdx,
             emissiveTextureIdx, specularTextureIdx, normalsTextureIdx, bumpTextureIdx)
  }

  /** Passing a non-zero `_emissive` to the constructor as written loses it,
      where the intended constructor keeps it. */
  lemma EmissiveArgumentDropped()
    ensures var e := Vec3(1.0, 1.0, 1.0);
            MaterialAsWritten("m", Zero3, e, Zero3, 0.0, 0, 0, 0, 0, 0).emissive != e
            && NewMaterial("m", Zero3, e, Zero3, 0.0, 0, 0, 0, 0, 0).emissive == e
  {
  }

  /** An entity: world transform, model, and the byte range of its
      per-frame parameters inside the uniform buffer. The range is
      rewritten every frame by the uniform packer. */
  datatype Entity = Entity(worldMatrix: Mat4, modelIdx: u32, localParamsOffset: nat, localParamsSize: nat)

  /** `Entity(worldMat, modelIndex)` with the defaulted range arguments. */
  function NewEntity(worldMatrix: Mat4, modelIdx: u32): (e: Entity)
    ensures e.worldMatrix == worldMatrix && e.modelIdx == modelIdx
    ensures e.localParamsOffset == 0 && e.localParamsSize == 0
  {
    Entity(worldMatrix, modelIdx, 0, 0)
  }

  datatype LightType = DirectionalLight | PointLight

  datatype Light = Light(
    kind: LightType,
    position: Vec3,
    direction: Vec3,
    ambient: Vec3,
    diffuse: Vec3,
    specular: Vec3,
    constant: real)

  /** The mapped uniform buffer: capacity and write cursor. */
  datatype Buffer = Buffer(handle: Name, size: nat, head: nat)

  /** A `Buffer` before `Init` queries its size: size and head are 0. */
  function FreshBuffer(handle: Name): Buffer {
    Buffer(handle, 0, 0)
  }
}
