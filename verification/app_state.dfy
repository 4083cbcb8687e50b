/** The application aggregate the engine threads through `Init`, `Update`
    and `Render`, restricted to the fields the resource-binding logic reads
    or writes. Entities are held by value, as the engine's code uses them. */
module AppState {
  import opened Common
  import opened EngineTypes
  import opened Framebuffers
  import opened CameraControl

  datatype App = App(
    camera: Camera,
    textures: seq<Texture>,
    materials: seq<Material>,
    meshes: seq<Mesh>,
    models: seq<Model>,
    programs: seq<Program>,
    lights: seq<Light>,
    entities: seq<Entity>,
    /** The full-screen quad's vertex array object (`vaoIdx`). */
    vaoIdx: Name,
    planeModelIdx: u32,
    texturedMeshProgramIdx: u32,
    texturedQuadProgramIdx: u32,
    postProcessingProgramIdx: u32,
    globalParamsOffset: nat,
    globalParamsSize: nat,
    cbuffer: Buffer,
    uniformBufferAlignment: nat,
    targets: Targets,
    currentRenderTarget: int)
}
