/** `Render` as a trace: the geometry, lighting and post-processing passes,
    each recorded as the framebuffer it draws into, the program it uses, and
    its draw calls with the textures bound to each texture unit and the
    uniform ranges bound for them.

    The geometry pass goes through `FindVAO` for every submesh of every
    entity, so it also returns the application with its VAO caches grown;
    vertex array names for cache misses are drawn from a counter. */
module PassSequencer {
  import opened Common
  import opened BufferObjects
  import opened EngineTypes
  import opened VertexBinding
  import opened Framebuffers
  import opened AppState
  import UniformPacking

  datatype PassKind = GeometryPass | LightingPass | PostProcessingPass

  /** A `glBindBufferRange` range. */
  datatype Range = Range(offset: nat, size: nat)

  /** A texture bound to texture unit `unit` for a draw. */
  datatype UnitBinding = UnitBinding(unit: nat, texture: Name)

  /** One `glDrawElements`, with the vertex array, textures and per-entity
      uniform range bound for it. */
  datatype DrawCall = DrawCall(
    vao: Name,
    textures: seq<UnitBinding>,
    localRange: Option<Range>,
    indexCount: nat,
    indexOffset: nat)

  /** One pass. `depthTest` is the depth-test state in effect for its
      draws, whichever pass set it. `globalRange` and each draw's
      `localRange` are only what the pass binds itself: uniform binding
      points left by an earlier pass are not tracked. */
  datatype PassRecord = PassRecord(
    kind: PassKind,
    target: Name,
    program: Name,
    depthTest: bool,
    globalRange: Option<Range>,
    draws: seq<DrawCall>)

  /** The full-screen quad: two triangles. */
  const QuadIndexCount: nat := 6

  /** Every texture the pass binds to a texture unit itself. A draw also
      sees whatever earlier passes left on units it does not rebind; see
      `TraceUnits`. */
  function Bound(p: PassRecord): set<Name> {
    set i, j | 0 <= i < |p.draws| && 0 <= j < |p.draws[i].textures| :: p.draws[i].textures[j].texture
  }

  /** What the geometry pass indexes without checking, for one entity: its
      model, the model's mesh, one material per submesh, and each such
      material's albedo texture. An index out of range, such as the
      `UINT32_MAX` a failed texture load returns, is undefined behaviour in
      the engine; the model does not draw such an application at all. */
  predicate EntityDrawable(app: App, e: Entity) {
    && e.modelIdx < |app.models|
    && var model := app.models[e.modelIdx];
    && model.meshIdx < |app.meshes|
    && |model.materialIdx| >= |app.meshes[model.meshIdx].submeshes|
    && forall i :: 0 <= i < |app.meshes[model.meshIdx].submeshes| ==>
         && model.materialIdx[i] < |app.materials|
         && app.materials[model.materialIdx[i]].albedoTextureIdx < |app.textures|
  }

  predicate GeometryReady(app: App) {
    && app.texturedMeshProgramIdx < |app.programs|
    && forall k :: 0 <= k < |app.entities| ==> EntityDrawable(app, app.entities[k])
  }

  predicate RenderReady(app: App) {
    && GeometryReady(app)
    && app.texturedQuadProgramIdx < |app.programs|
  }

  function MeshIdxOf(app: App, e: Entity): nat
    requires EntityDrawable(app, e)
  {
    app.models[e.modelIdx].meshIdx
  }

  function SubmeshCount(app: App, e: Entity): nat
    requires EntityDrawable(app, e)
  {
    |app.meshes[MeshIdxOf(app, e)].submeshes|
  }

  /** An application whose drawn material still carries the sentinel of a
      failed `LoadTexture2D` as its albedo index is not ready to draw. */
  lemma SentinelAlbedoNotReady(app: App, k: nat, i: nat)
    requires k < |app.entities| && |app.textures| <= U32_MAX
    requires var e := app.entities[k];
      && e.modelIdx < |app.models|
      && var model := app.models[e.modelIdx];
      && model.meshIdx < |app.meshes|
      && i < |app.meshes[model.meshIdx].submeshes| && i < |model.materialIdx|
      && model.materialIdx[i] < |app.materials|
      && app.materials[model.materialIdx[i]].albedoTextureIdx == U32_MAX
    ensures !GeometryReady(app)
  {
    assert !EntityDrawable(app, app.entities[k]);
  }

  /** The program the geometry pass draws every entity with. */
  function MeshProgram(app: App): Program
    requires app.texturedMeshProgramIdx < |app.programs|
  {
    app.programs[app.texturedMeshProgramIdx]
  }

  /** Only VAO caches differ: every mesh of `b` extends the mesh of `a`. */
  predicate AppExtends(a: App, b: App) {
    && b == a.(meshes := b.meshes)
    && |a.meshes| == |b.meshes|
    && forall m :: 0 <= m < |a.meshes| ==> MeshExtends(a.meshes[m], b.meshes[m])
  }

  lemma AppExtendsTransitive(a: App, b: App, c: App)
    requires AppExtends(a, b) && AppExtends(b, c)
    ensures AppExtends(a, c)
  {
    forall m | 0 <= m < |a.meshes|
      ensures MeshExtends(a.meshes[m], c.meshes[m])
    {
      MeshExtendsTransitive(a.meshes[m], b.meshes[m], c.meshes[m]);
    }
  }

  /** Growing caches changes nothing the passes index. */
  lemma AppExtendsKeepsReady(a: App, b: App, e: Entity)
    requires AppExtends(a, b)
    ensures EntityDrawable(a, e) ==> EntityDrawable(b, e) && SubmeshCount(b, e) == SubmeshCount(a, e)
    ensures GeometryReady(a) ==> GeometryReady(b)
  {
    AppExtendsKeepsGeometryReady(a, b);
    if EntityDrawable(a, e) {
      assert MeshExtends(a.meshes[MeshIdxOf(a, e)], b.meshes[MeshIdxOf(a, e)]);
    }
  }

  lemma AppExtendsKeepsGeometryReady(a: App, b: App)
    requires AppExtends(a, b)
    ensures GeometryReady(a) ==> GeometryReady(b)
  {
    if GeometryReady(a) {
      forall k | 0 <= k < |b.entities|
        ensures EntityDrawable(b, b.entities[k])
      {
        assert EntityDrawable(a, a.entities[k]);
        assert MeshExtends(a.meshes[MeshIdxOf(a, a.entities[k])], b.meshes[MeshIdxOf(a, a.entities[k])]);
      }
    }
  }

  /** The draw for submesh `i` of entity `e` through vertex array `vao`:
      the material's albedo texture on unit 0, the entity's range, and the
      submesh's index count and offset. */
  function SubmeshDraw(app: App, e: Entity, i: nat, vao: Name): DrawCall
    requires EntityDrawable(app, e) && i < SubmeshCount(app, e)
  {
    var model := app.models[e.modelIdx];
    var submesh := app.meshes[model.meshIdx].submeshes[i];
    var material := app.materials[model.materialIdx[i]];
    DrawCall(vao, [UnitBinding(0, app.textures[material.albedoTextureIdx].handle)],
             Some(Range(e.localParamsOffset, e.localParamsSize)),
             |submesh.indices|, submesh.indexOffset)
  }

  lemma SubmeshDrawStable(a: App, b: App, e: Entity, i: nat, vao: Name)
    requires AppExtends(a, b) && EntityDrawable(a, e) && i < SubmeshCount(a, e)
    ensures EntityDrawable(b, e) && i < SubmeshCount(b, e)
    ensures SubmeshDraw(b, e, i, vao) == SubmeshDraw(a, e, i, vao)
  {
    AppExtendsKeepsReady(a, b, e);
    var m := MeshIdxOf(a, e);
    assert MeshExtends(a.meshes[m], b.meshes[m]);
    assert SubmeshExtends(a.meshes[m].submeshes[i], b.meshes[m].submeshes[i]);
  }

  datatype GeoStep = GeoStep(app: App, draws: seq<DrawCall>, nextVao: Name)

  /** The per-submesh loop of `GeometryPass` for one entity, from submesh
      `i` on. A cache miss takes the name `nextVao` and advances it. */
  function DrawSubmeshes(app: App, e: Entity, i: nat, nextVao: Name): (r: Result<GeoStep, MissingAttribute>)
    requires GeometryReady(app) && EntityDrawable(app, e) && i <= SubmeshCount(app, e)
    ensures r.Ok? ==> AppExtends(app, r.value.app) && nextVao <= r.value.nextVao
    decreases SubmeshCount(app, e) - i
  {
    if i == SubmeshCount(app, e) then Ok(GeoStep(app, [], nextVao))
    else
      var lookup :- Lookup(app, e, i, nextVao);
      var app1 := WithMesh(app, e, lookup.mesh);
      AppStepExtends(app, MeshIdxOf(app, e), i, nextVao);
      AppExtendsKeepsReady(app, app1, e);
      var rest :- DrawSubmeshes(app1, e, i + 1, NextName(lookup, nextVao));
      AppExtendsTransitive(app, app1, rest.app);
      Ok(GeoStep(rest.app, [SubmeshDraw(app1, e, i, lookup.handle)] + rest.draws, rest.nextVao))
  }

  /** `FindVAO` for submesh `i` of the entity's mesh and the geometry
      program. */
  function Lookup(app: App, e: Entity, i: nat, nextVao: Name): Result<VaoLookup, MissingAttribute>
    requires EntityDrawable(app, e) && i < SubmeshCount(app, e)
    requires app.texturedMeshProgramIdx < |app.programs|
  {
    FindVao(app.meshes[MeshIdxOf(app, e)], i, MeshProgram(app), nextVao)
  }

  /** The application with the entity's mesh replaced. */
  function WithMesh(app: App, e: Entity, mesh: Mesh): App
    requires EntityDrawable(app, e)
  {
    app.(meshes := app.meshes[MeshIdxOf(app, e) := mesh])
  }

  /** The name counter after a lookup: a created vertex array used it up. */
  function NextName(lookup: VaoLookup, nextVao: Name): Name {
    if lookup.created.Some? then nextVao + 1 else nextVao
  }

  /** One `FindVAO` step extends the application. */
  lemma AppStepExtends(app: App, m: nat, i: nat, nextVao: Name)
    requires m < |app.meshes| && i < |app.meshes[m].submeshes|
    requires app.texturedMeshProgramIdx < |app.programs|
    requires FindVao(app.meshes[m], i, MeshProgram(app), nextVao).Ok?
    ensures var l := FindVao(app.meshes[m], i, MeshProgram(app), nextVao).value;
      AppExtends(app, app.(meshes := app.meshes[m := l.mesh]))
      && Cached(l.mesh.submeshes[i], MeshProgram(app).handle)
      && CachedHandle(l.mesh.submeshes[i], MeshProgram(app).handle) == l.handle
      && (l.created.None? ==> l.mesh == app.meshes[m])
  {
    FindVaoExtends(app.meshes[m], i, MeshProgram(app), nextVao);
    var app1 := app.(meshes := app.meshes[m := FindVao(app.meshes[m], i, MeshProgram(app), nextVao).value.mesh]);
    forall m' | 0 <= m' < |app.meshes|
      ensures MeshExtends(app.meshes[m'], app1.meshes[m'])
    {
      if m' != m {
        assert forall j :: 0 <= j < |app.meshes[m'].submeshes| ==>
          SubmeshExtends(app.meshes[m'].submeshes[j], app1.meshes[m'].submeshes[j]);
      }
    }
  }

  /** The per-entity loop of `GeometryPass`, from entity `k` on. */
  function DrawEntities(app: App, k: nat, nextVao: Name): (r: Result<GeoStep, MissingAttribute>)
    requires GeometryReady(app) && k <= |app.entities|
    ensures r.Ok? ==> AppExtends(app, r.value.app) && nextVao <= r.value.nextVao
    decreases |app.entities| - k
  {
    if k == |app.entities| then Ok(GeoStep(app, [], nextVao))
    else
      var s1 :- DrawSubmeshes(app, app.entities[k], 0, nextVao);
      AppExtendsKeepsReady(app, s1.app, app.entities[k]);
      var s2 :- DrawEntities(s1.app, k + 1, s1.nextVao);
      AppExtendsTransitive(app, s1.app, s2.app);
      Ok(GeoStep(s2.app, s1.draws + s2.draws, s2.nextVao))
  }

  datatype Frame = Frame(app: App, trace: seq<PassRecord>, nextVao: Name)

  /** `GeometryPass`: draws every entity into the geometry framebuffer with
      depth testing and the global range bound. Each draw belongs to one
      entity: one registry texture on unit 0 and that entity's own range. */
  function Geometry(app: App, nextVao: Name): (r: Result<(App, PassRecord, Name), MissingAttribute>)
    requires GeometryReady(app)
    ensures r.Ok? ==>
      && AppExtends(app, r.value.0) && nextVao <= r.value.2
      && r.value.1.kind == GeometryPass
      && r.value.1.target == app.targets.framebufferHandle
      && r.value.1.program == app.programs[app.texturedMeshProgramIdx].handle
      && r.value.1.depthTest
      && r.value.1.globalRange == Some(Range(app.globalParamsOffset, app.globalParamsSize))
      && forall j :: 0 <= j < |r.value.1.draws| ==> DrawOfEntityFrom(app, 0, r.value.1.draws[j])
  {
    var s :- DrawEntities(app, 0, nextVao);
    DrawEntitiesShape(app, 0, nextVao);
    Ok((s.app,
        PassRecord(GeometryPass, app.targets.framebufferHandle, MeshProgram(app).handle, true,
                   Some(Range(app.globalParamsOffset, app.globalParamsSize)), s.draws),
        s.nextVao))
  }

  /** `LightingPass`: one full-screen quad into the post-processing
      framebuffer, without depth testing, drawn with the lighting program;
      the geometry framebuffer's colour attachment `u` is bound on texture
      unit `u`. */
  function Lighting(app: App): (p: PassRecord)
    requires app.texturedQuadProgramIdx < |app.programs|
    ensures p.kind == LightingPass && !p.depthTest && p.globalRange.None?
    ensures p.target == app.targets.framebufferPostProcessingHandle
    ensures p.program == app.programs[app.texturedQuadProgramIdx].handle
    ensures |p.draws| == 1 && p.draws[0].vao == app.vaoIdx && p.draws[0].indexCount == QuadIndexCount
    ensures var colors := ColorAttachments(app.targets, app.targets.framebufferHandle);
      |p.draws[0].textures| == |colors|
      && forall u :: 0 <= u < |colors| ==> p.draws[0].textures[u] == UnitBinding(u, colors[u])
  {
    var t := app.targets;
    PassRecord(LightingPass, t.framebufferPostProcessingHandle,
               app.programs[app.texturedQuadProgramIdx].handle, false, None,
               [DrawCall(app.vaoIdx,
                         [UnitBinding(0, t.positionAttachmentHandle), UnitBinding(1, t.normalAttachmentHandle),
                          UnitBinding(2, t.albedoAttachmentHandle), UnitBinding(3, t.specularAttachmentHandle)],
                         None, QuadIndexCount, 0)])
  }

  /** `PostProcessingPass` as written: one quad onto the window with the
      post-processing framebuffer's colour attachment on unit 0, drawn with
      the lighting program (`texturedQuadProgramIdx`). Depth testing stays
      off from the lighting pass. */
  function PostProcessingAsWritten(app: App): (p: PassRecord)
    requires app.texturedQuadProgramIdx < |app.programs|
    ensures p.kind == PostProcessingPass && !p.depthTest && p.globalRange.None?
    ensures p.target == DefaultFramebuffer
    ensures p.program == Lighting(app).program
    ensures |p.draws| == 1 && p.draws[0].vao == app.vaoIdx && p.draws[0].indexCount == QuadIndexCount
    ensures app.targets.framebufferHandle != app.targets.framebufferPostProcessingHandle ==>
      p.draws[0].textures == [UnitBinding(0, ColorAttachments(app.targets, app.targets.framebufferPostProcessingHandle)[0])]
  {
    PassRecord(PostProcessingPass, DefaultFramebuffer,
               app.programs[app.texturedQuadProgramIdx].handle, false, None,
               [DrawCall(app.vaoIdx, [UnitBinding(0, app.targets.finalColorAttachmentHandle)],
                         None, QuadIndexCount, 0)])
  }

  /** `PostProcessingPass` with the program `Init` loads for it
      (`postProcessingProgramIdx`, whose `finalImage` sampler is the uniform
      the pass sets); everything else as written. */
  function PostProcessing(app: App): (p: PassRecord)
    requires app.postProcessingProgramIdx < |app.programs|
    ensures p.program == app.programs[app.postProcessingProgramIdx].handle
    ensures app.texturedQuadProgramIdx < |app.programs| ==>
      p == PostProcessingAsWritten(app).(program := p.program)
  {
    PassRecord(PostProcessingPass, DefaultFramebuffer,
               app.programs[app.postProcessingProgramIdx].handle, false, None,
               [DrawCall(app.vaoIdx, [UnitBinding(0, app.targets.finalColorAttachmentHandle)],
                         None, QuadIndexCount, 0)])
  }

  /** As written, the post-processing pass never runs the post-processing
      program: whenever the two programs are different objects, the pass
      draws with the lighting program instead. */
  lemma PostProcessingUsesLightingProgram(app: App)
    requires app.texturedQuadProgramIdx < |app.programs| && app.postProcessingProgramIdx < |app.programs|
    requires app.programs[app.texturedQuadProgramIdx].handle != app.programs[app.postProcessingProgramIdx].handle
    ensures PostProcessingAsWritten(app).program != app.programs[app.postProcessingProgramIdx].handle
    ensures PostProcessingAsWritten(app) != PostProcessing(app)
  {
  }

  /** `Render` as written: the three passes in their fixed order, the last
      one drawn with the lighting program. A failed reconciliation in the
      geometry pass is the failed assertion, and the frame stops there. */
  function Render(app: App, nextVao: Name): (r: Result<Frame, MissingAttribute>)
    requires RenderReady(app)
    ensures r.Ok? ==>
      && AppExtends(app, r.value.app)
      && |r.value.trace| == 3
      && r.value.trace[0].kind == GeometryPass
      && r.value.trace[1].kind == LightingPass
      && r.value.trace[2].kind == PostProcessingPass
      && r.value.trace[0].target == app.targets.framebufferHandle
      && r.value.trace[1].target == app.targets.framebufferPostProcessingHandle
      && r.value.trace[2].target == DefaultFramebuffer
      && r.value.trace[0].program == app.programs[app.texturedMeshProgramIdx].handle
      && r.value.trace[1].program == app.programs[app.texturedQuadProgramIdx].handle
      && r.value.trace[2].program == app.programs[app.texturedQuadProgramIdx].handle
  {
    var (app1, geometry, next) :- Geometry(app, nextVao);
    Ok(Frame(app1, [geometry, Lighting(app1), PostProcessingAsWritten(app1)], next))
  }

  /** The frame as intended: the post-processing pass draws with the
      post-processing program. It succeeds exactly when the frame as
      written does and differs from it in that one program only. */
  function RenderIntended(app: App, nextVao: Name): (r: Result<Frame, MissingAttribute>)
    requires RenderReady(app) && app.postProcessingProgramIdx < |app.programs|
    ensures r.Ok? <==> Render(app, nextVao).Ok?
    ensures r.Ok? ==>
      var f := Render(app, nextVao).value;
      && |r.value.trace| == 3
      && r.value.trace[2].program == app.programs[app.postProcessingProgramIdx].handle
      && r.value == f.(trace := f.trace[2 := f.trace[2].(program := r.value.trace[2].program)])
  {
    var (app1, geometry, next) :- Geometry(app, nextVao);
    Ok(Frame(app1, [geometry, Lighting(app1), PostProcessing(app1)], next))
  }

  // Draws of the geometry pass

  /** Every texture handle in the registry. */
  function TextureHandles(app: App): set<Name> {
    set t | t in app.textures :: t.handle
  }

  /** A geometry draw for entity `e`: one registry texture on unit 0, and
      the entity's own uniform range. */
  predicate EntityDraw(app: App, e: Entity, d: DrawCall) {
    && |d.textures| == 1
    && d.textures[0].unit == 0
    && d.textures[0].texture in TextureHandles(app)
    && d.localRange == Some(Range(e.localParamsOffset, e.localParamsSize))
  }

  /** A successful iteration of the submesh loop looked up, and recursed
      on an application still ready to draw. */
  lemma StepReady(app: App, e: Entity, i: nat, nextVao: Name)
    requires GeometryReady(app) && EntityDrawable(app, e) && i < SubmeshCount(app, e)
    requires DrawSubmeshes(app, e, i, nextVao).Ok?
    ensures Lookup(app, e, i, nextVao).Ok?
    ensures var lookup := Lookup(app, e, i, nextVao).value;
      var app1 := WithMesh(app, e, lookup.mesh);
      && GeometryReady(app1) && EntityDrawable(app1, e) && i + 1 <= SubmeshCount(app1, e)
      && DrawSubmeshes(app1, e, i + 1, NextName(lookup, nextVao)).Ok?
  {
    DrawSubmeshesStep(app, e, i, nextVao);
  }

  /** One iteration of the submesh loop, unfolded. */
  lemma DrawSubmeshesStep(app: App, e: Entity, i: nat, nextVao: Name)
    requires GeometryReady(app) && EntityDrawable(app, e) && i < SubmeshCount(app, e)
    requires DrawSubmeshes(app, e, i, nextVao).Ok?
    ensures Lookup(app, e, i, nextVao).Ok?
    ensures var lookup := Lookup(app, e, i, nextVao).value;
      var app1 := WithMesh(app, e, lookup.mesh);
      && AppExtends(app, app1)
      && GeometryReady(app1) && EntityDrawable(app1, e) && SubmeshCount(app1, e) == SubmeshCount(app, e)
      && Cached(app1.meshes[MeshIdxOf(app, e)].submeshes[i], MeshProgram(app).handle)
      && CachedHandle(app1.meshes[MeshIdxOf(app, e)].submeshes[i], MeshProgram(app).handle) == lookup.handle
      && DrawSubmeshes(app1, e, i + 1, NextName(lookup, nextVao)).Ok?
      && var rest := DrawSubmeshes(app1, e, i + 1, NextName(lookup, nextVao)).value;
      && DrawSubmeshes(app, e, i, nextVao).value
         == GeoStep(rest.app, [SubmeshDraw(app1, e, i, lookup.handle)] + rest.draws, rest.nextVao)
  {
    var lookup := Lookup(app, e, i, nextVao).value;
    AppStepExtends(app, MeshIdxOf(app, e), i, nextVao);
    AppExtendsKeepsReady(app, WithMesh(app, e, lookup.mesh), e);
  }

  /** One iteration of the entity loop, unfolded. */
  lemma DrawEntitiesStep(app: App, k: nat, nextVao: Name)
    requires GeometryReady(app) && k < |app.entities|
    requires DrawEntities(app, k, nextVao).Ok?
    ensures
      && DrawSubmeshes(app, app.entities[k], 0, nextVao).Ok?
      && var s1 := DrawSubmeshes(app, app.entities[k], 0, nextVao).value;
      && GeometryReady(s1.app) && AppExtends(app, s1.app) && s1.app.entities == app.entities
      && DrawEntities(s1.app, k + 1, s1.nextVao).Ok?
      && var s2 := DrawEntities(s1.app, k + 1, s1.nextVao).value;
      && DrawEntities(app, k, nextVao).value == GeoStep(s2.app, s1.draws + s2.draws, s2.nextVao)
  {
    var s1 := DrawSubmeshes(app, app.entities[k], 0, nextVao).value;
    AppExtendsKeepsReady(app, s1.app, app.entities[k]);
  }

  /** A draw made for one of the entities from `k` on. */
  predicate DrawOfEntityFrom(app: App, k: nat, d: DrawCall) {
    exists l :: k <= l < |app.entities| && EntityDraw(app, app.entities[l], d)
  }

  /** The submesh loop's draws are `CachedDraws` of its result, so they
      have the shape of a geometry draw for the entity. */
  lemma DrawSubmeshesShape(app: App, e: Entity, i: nat, nextVao: Name)
    requires GeometryReady(app) && EntityDrawable(app, e) && i <= SubmeshCount(app, e)
    requires DrawSubmeshes(app, e, i, nextVao).Ok?
    ensures EntityDraws(app, e, SubmeshCount(app, e) - i, DrawSubmeshes(app, e, i, nextVao).value.draws)
  {
    var r := DrawSubmeshes(app, e, i, nextVao).value;
    DrawSubmeshesCaches(app, e, i, nextVao);
    AppExtendsKeepsReady(app, r.app, e);
    CachedDrawsShape(r.app, e, i);
    assert TextureHandles(r.app) == TextureHandles(app);
  }

  /** `n` draws, each a geometry draw for entity `e`. */
  predicate EntityDraws(app: App, e: Entity, n: nat, draws: seq<DrawCall>) {
    |draws| == n && forall j :: 0 <= j < |draws| ==> EntityDraw(app, e, draws[j])
  }

  lemma {:induction false} CachedDrawsShape(app: App, e: Entity, i: nat)
    requires EntityDrawable(app, e) && app.texturedMeshProgramIdx < |app.programs|
    requires i <= SubmeshCount(app, e) && AllCached(app, e, i)
    ensures EntityDraws(app, e, SubmeshCount(app, e) - i, CachedDraws(app, e, i))
    decreases SubmeshCount(app, e) - i
  {
    if i < SubmeshCount(app, e) {
      CachedDrawsShape(app, e, i + 1);
      var sub := app.meshes[MeshIdxOf(app, e)].submeshes[i];
      ShapeCons(app, app, e, i, CachedHandle(sub, MeshProgram(app).handle), CachedDraws(app, e, i + 1));
    }
  }

  lemma ShapeCons(app: App, app1: App, e: Entity, i: nat, handle: Name, rest: seq<DrawCall>)
    requires AppExtends(app, app1) && EntityDrawable(app1, e) && i < SubmeshCount(app1, e)
    requires EntityDraws(app1, e, SubmeshCount(app1, e) - (i + 1), rest)
    ensures EntityDraws(app, e, SubmeshCount(app1, e) - i, [SubmeshDraw(app1, e, i, handle)] + rest)
  {
    var draw := SubmeshDraw(app1, e, i, handle);
    var material := app1.materials[app1.models[e.modelIdx].materialIdx[i]];
    assert app1.textures == app.textures;
    assert app1.textures[material.albedoTextureIdx] in app.textures;
    assert EntityDraw(app, e, draw);
    assert TextureHandles(app1) == TextureHandles(app);
    forall j | 0 <= j < |rest|
      ensures EntityDraw(app, e, rest[j])
    {
      assert EntityDraw(app1, e, rest[j]);
    }
  }

  lemma {:induction false} DrawEntitiesShape(app: App, k: nat, nextVao: Name)
    requires GeometryReady(app) && k <= |app.entities|
    requires DrawEntities(app, k, nextVao).Ok?
    ensures var draws := DrawEntities(app, k, nextVao).value.draws;
      forall j :: 0 <= j < |draws| ==> DrawOfEntityFrom(app, k, draws[j])
    decreases |app.entities| - k
  {
    if k < |app.entities| {
      DrawEntitiesStep(app, k, nextVao);
      var s1 := DrawSubmeshes(app, app.entities[k], 0, nextVao).value;
      DrawSubmeshesShape(app, app.entities[k], 0, nextVao);
      DrawEntitiesShape(s1.app, k + 1, s1.nextVao);
      var s2 := DrawEntities(s1.app, k + 1, s1.nextVao).value;
      ShapeConcat(app, s1.app, k, s1.draws, s2.draws);
    }
  }

  /** The entity loop's draws: the current entity's, then the rest's. */
  lemma ShapeConcat(app: App, app1: App, k: nat, first: seq<DrawCall>, rest: seq<DrawCall>)
    requires k < |app.entities| && AppExtends(app, app1)
    requires forall j :: 0 <= j < |first| ==> EntityDraw(app, app.entities[k], first[j])
    requires forall j :: 0 <= j < |rest| ==> DrawOfEntityFrom(app1, k + 1, rest[j])
    ensures forall j :: 0 <= j < |first + rest| ==> DrawOfEntityFrom(app, k, (first + rest)[j])
  {
    forall j | 0 <= j < |first + rest|
      ensures DrawOfEntityFrom(app, k, (first + rest)[j])
    {
      if j < |first| {
        assert EntityDraw(app, app.entities[k], (first + rest)[j]);
      } else {
        assert (first + rest)[j] == rest[j - |first|];
        var l :| k + 1 <= l < |app1.entities| && EntityDraw(app1, app1.entities[l], rest[j - |first|]);
        assert app1.textures == app.textures && app1.entities == app.entities;
        assert TextureHandles(app1) == TextureHandles(app);
        assert EntityDraw(app, app.entities[l], (first + rest)[j]);
      }
    }
  }

  /** Every texture bound by draws of the geometry pass's shape. */
  lemma EntityDrawsBindRegistry(app: App, p: PassRecord)
    requires forall j :: 0 <= j < |p.draws| ==> DrawOfEntityFrom(app, 0, p.draws[j])
    ensures Bound(p) <= TextureHandles(app)
  {
    forall x | x in Bound(p)
      ensures x in TextureHandles(app)
    {
      var i, j :| 0 <= i < |p.draws| && 0 <= j < |p.draws[i].textures| && x == p.draws[i].textures[j].texture;
      var l :| 0 <= l < |app.entities| && EntityDraw(app, app.entities[l], p.draws[i]);
    }
  }

  /** The geometry pass binds only textures from the registry. */
  lemma GeometryBindsRegistry(app: App, nextVao: Name)
    requires GeometryReady(app) && Geometry(app, nextVao).Ok?
    ensures Bound(Geometry(app, nextVao).value.1) <= TextureHandles(app)
  {
    DrawEntitiesShape(app, 0, nextVao);
    EntityDrawsBindRegistry(app, Geometry(app, nextVao).value.1);
  }

  /** The lighting pass binds exactly the geometry framebuffer's four
      colour attachments, attachment point `u` on texture unit `u`. */
  lemma LightingBindsGeometryColors(app: App)
    requires app.texturedQuadProgramIdx < |app.programs|
    ensures var p := Lighting(app);
      var colors := ColorAttachments(app.targets, app.targets.framebufferHandle);
      && |p.draws| == 1 && |p.draws[0].textures| == |colors|
      && (forall u :: 0 <= u < |colors| ==> p.draws[0].textures[u] == UnitBinding(u, colors[u]))
      && Bound(p) == set u | 0 <= u < |colors| :: colors[u]
  {
    var p := Lighting(app);
    var t := app.targets;
    assert Bound(p) == {t.positionAttachmentHandle, t.normalAttachmentHandle, t.albedoAttachmentHandle, t.specularAttachmentHandle} by {
      forall x | x in Bound(p)
        ensures x in {t.positionAttachmentHandle, t.normalAttachmentHandle, t.albedoAttachmentHandle, t.specularAttachmentHandle}
      {
        var i, j :| 0 <= i < |p.draws| && 0 <= j < |p.draws[i].textures| && x == p.draws[i].textures[j].texture;
      }
      assert p.draws[0].textures[0].texture in Bound(p);
      assert p.draws[0].textures[1].texture in Bound(p);
      assert p.draws[0].textures[2].texture in Bound(p);
      assert p.draws[0].textures[3].texture in Bound(p);
    }
    var colors := ColorAttachments(t, t.framebufferHandle);
    assert (set u | 0 <= u < |colors| :: colors[u]) == {colors[0], colors[1], colors[2], colors[3]};
  }

  /** The post-processing pass binds exactly the post-processing
      framebuffer's colour attachment, on unit 0. Units 1 to 3 keep what
      the lighting pass bound there; see `PostProcessingInheritsUnits`. */
  lemma PostProcessingBindsFinalColor(app: App)
    requires app.texturedQuadProgramIdx < |app.programs|
    requires app.targets.framebufferHandle != app.targets.framebufferPostProcessingHandle
    ensures var p := PostProcessingAsWritten(app);
      var colors := ColorAttachments(app.targets, app.targets.framebufferPostProcessingHandle);
      && |p.draws| == 1 && |p.draws[0].textures| == |colors| == 1
      && p.draws[0].textures[0] == UnitBinding(0, colors[0])
      && Bound(p) == {colors[0]}
  {
    var p := PostProcessingAsWritten(app);
    assert p.draws[0].textures[0].texture in Bound(p);
  }

  /** No pass binds a texture attached to the framebuffer it draws into,
      provided the generated names are separated and no registry texture
      is a geometry attachment (all are names from the same generator). */
  lemma NoSelfBinding(app: App, nextVao: Name)
    requires RenderReady(app) && Render(app, nextVao).Ok?
    requires Separated(app.targets)
    requires TextureHandles(app) !! Attachments(app.targets, app.targets.framebufferHandle)
    ensures var trace := Render(app, nextVao).value.trace;
      forall k :: 0 <= k < |trace| ==> Bound(trace[k]) !! Attachments(app.targets, trace[k].target)
  {
    var f := Render(app, nextVao).value;
    var t := app.targets;
    SeparatedAttachmentsDisjoint(t);
    GeometryBindsRegistry(app, nextVao);
    LightingBindsGeometryColors(f.app);
    PostProcessingBindsFinalColor(f.app);
    assert Bound(f.trace[0]) <= TextureHandles(app);
    assert Bound(f.trace[1]) == Bound(Lighting(f.app));
    assert Bound(f.trace[2]) == Bound(PostProcessingAsWritten(f.app));
  }

  /** Each pass after the first binds only what the pass before it wrote,
      and no later pass writes what an earlier one binds. What a pass can
      read through units it does not rebind is `PostProcessingInheritsUnits`. */
  lemma BindsFollowWrites(app: App, nextVao: Name)
    requires RenderReady(app) && Render(app, nextVao).Ok?
    requires Separated(app.targets)
    ensures var trace := Render(app, nextVao).value.trace;
      && Bound(trace[1]) <= Attachments(app.targets, trace[0].target)
      && Bound(trace[2]) <= Attachments(app.targets, trace[1].target)
      && Bound(trace[1]) !! Attachments(app.targets, trace[2].target)
  {
    var f := Render(app, nextVao).value;
    var t := app.targets;
    SeparatedAttachmentsDisjoint(t);
    LightingBindsGeometryColors(f.app);
    PostProcessingBindsFinalColor(f.app);
    assert Bound(f.trace[1]) == Bound(Lighting(f.app));
    assert Bound(f.trace[2]) == Bound(PostProcessingAsWritten(f.app));
  }

  // Texture units across passes

  /** The units `bs` binds. */
  function BoundUnits(bs: seq<UnitBinding>): set<nat> {
    set j | 0 <= j < |bs| :: bs[j].unit
  }

  /** `bs[j]` is the last binding of its unit in `bs`. */
  predicate LastBindingOf(bs: seq<UnitBinding>, j: nat)
    requires j < |bs|
  {
    forall k :: j < k < |bs| ==> bs[k].unit != bs[j].unit
  }

  /** The texture units after the `glActiveTexture`/`glBindTexture` pairs
      `bs`, in order, starting from `units`: a unit `bs` binds holds the
      texture of its last binding there, and every other unit keeps what
      it held. GL keeps a binding until it is replaced, across draws and
      across passes. */
  function BindUnits(units: map<nat, Name>, bs: seq<UnitBinding>): (r: map<nat, Name>)
    ensures r.Keys == units.Keys + BoundUnits(bs)
    ensures forall j :: 0 <= j < |bs| && LastBindingOf(bs, j) ==> r[bs[j].unit] == bs[j].texture
    ensures forall u :: u in units && u !in BoundUnits(bs) ==> r[u] == units[u]
    decreases |bs|
  {
    if |bs| == 0 then units
    else
      var last := bs[|bs| - 1];
      var prev := BindUnits(units, bs[..|bs| - 1]);
      BindOneMore(units, bs, prev);
      prev[last.unit := last.texture]
  }

  /** The last binding of `bs`, applied after `prev`, the units after the
      ones before it. */
  lemma BindOneMore(units: map<nat, Name>, bs: seq<UnitBinding>, prev: map<nat, Name>)
    requires |bs| > 0
    requires var init := bs[..|bs| - 1];
      && prev.Keys == units.Keys + BoundUnits(init)
      && (forall j :: 0 <= j < |init| && LastBindingOf(init, j) ==> prev[init[j].unit] == init[j].texture)
      && (forall u :: u in units && u !in BoundUnits(init) ==> prev[u] == units[u])
    ensures var r := prev[bs[|bs| - 1].unit := bs[|bs| - 1].texture];
      && r.Keys == units.Keys + BoundUnits(bs)
      && (forall j :: 0 <= j < |bs| && LastBindingOf(bs, j) ==> r[bs[j].unit] == bs[j].texture)
      && (forall u :: u in units && u !in BoundUnits(bs) ==> r[u] == units[u])
  {
    var init, last := bs[..|bs| - 1], bs[|bs| - 1];
    var r := prev[last.unit := last.texture];
    BoundUnitsSnoc(bs);
    forall j | 0 <= j < |bs| && LastBindingOf(bs, j)
      ensures r[bs[j].unit] == bs[j].texture
    {
      if j < |init| {
        LastBindingOfPrefix(bs, j);
      }
    }
  }

  /** The units of `bs` are those of all but its last binding, and the
      last binding's. */
  lemma BoundUnitsSnoc(bs: seq<UnitBinding>)
    requires |bs| > 0
    ensures BoundUnits(bs) == BoundUnits(bs[..|bs| - 1]) + {bs[|bs| - 1].unit}
  {
    var init := bs[..|bs| - 1];
    forall x | x in BoundUnits(bs)
      ensures x in BoundUnits(init) + {bs[|bs| - 1].unit}
    {
      var j :| 0 <= j < |bs| && x == bs[j].unit;
      if j < |init| {
        assert bs[j] == init[j];
      }
    }
    forall x | x in BoundUnits(init)
      ensures x in BoundUnits(bs)
    {
      var j :| 0 <= j < |init| && x == init[j].unit;
      assert bs[j] == init[j];
    }
  }

  /** A last binding before the end of `bs` is a last binding of the
      prefix, on a unit other than the final binding's. */
  lemma LastBindingOfPrefix(bs: seq<UnitBinding>, j: nat)
    requires j < |bs| - 1 && LastBindingOf(bs, j)
    ensures LastBindingOf(bs[..|bs| - 1], j) && bs[j].unit != bs[|bs| - 1].unit
  {
    var init := bs[..|bs| - 1];
    forall k | j < k < |init|
      ensures init[k].unit != init[j].unit
    {
      assert init[k] == bs[k] && init[j] == bs[j];
    }
  }

  /** The texture units after every draw of `draws`, in order. */
  function DrawUnits(units: map<nat, Name>, draws: seq<DrawCall>): map<nat, Name>
    decreases |draws|
  {
    if |draws| == 0 then units else DrawUnits(BindUnits(units, draws[0].textures), draws[1..])
  }

  /** The texture units after every pass of `trace`, starting from what
      the previous frame left in `units`. */
  function TraceUnits(units: map<nat, Name>, trace: seq<PassRecord>): map<nat, Name>
    decreases |trace|
  {
    if |trace| == 0 then units else TraceUnits(DrawUnits(units, trace[0].draws), trace[1..])
  }

  /** Texture-unit bindings outlive the pass that made them. As written,
      the post-processing pass rebinds only unit 0, so at its draw units 1
      to 3 still hold the geometry framebuffer's normal, albedo and
      specular attachments; and it draws with the lighting program, whose
      `gNormal`, `gAlbedo` and `gSpec` samplers the lighting pass pointed
      at units 1 to 3. With separated names those three textures are the
      geometry pass's output, not the lighting pass's. */
  lemma PostProcessingInheritsUnits(app: App, nextVao: Name, previous: map<nat, Name>)
    requires RenderReady(app) && Render(app, nextVao).Ok?
    ensures var f := Render(app, nextVao).value;
      var units := TraceUnits(previous, f.trace);
      var t := app.targets;
      && f.trace[2].program == f.trace[1].program
      && {0, 1, 2, 3} <= units.Keys
      && units[0] == t.finalColorAttachmentHandle
      && units[1] == t.normalAttachmentHandle
      && units[2] == t.albedoAttachmentHandle
      && units[3] == t.specularAttachmentHandle
      && (Separated(t) ==> forall x :: x in [units[1], units[2], units[3]] ==>
            x in Attachments(t, f.trace[0].target) && x !in Attachments(t, f.trace[1].target))
  {
    var f := Render(app, nextVao).value;
    var t := app.targets;
    RenderQuadPasses(app, nextVao);
    TraceUnitsOfThree(previous, f.trace);
    QuadPassesUnits(f.app, DrawUnits(previous, f.trace[0].draws));
    if Separated(t) {
      GBufferIsGeometryOutput(t);
    }
  }

  /** With separated names, the normal, albedo and specular attachments
      are written by draws into the geometry framebuffer and not by draws
      into the post-processing framebuffer. */
  lemma GBufferIsGeometryOutput(t: Targets)
    requires Separated(t)
    ensures forall x :: x in [t.normalAttachmentHandle, t.albedoAttachmentHandle, t.specularAttachmentHandle] ==>
      x in Attachments(t, t.framebufferHandle) && x !in Attachments(t, t.framebufferPostProcessingHandle)
  {
    SeparatedAttachmentsDisjoint(t);
    var colors := ColorAttachments(t, t.framebufferHandle);
    assert colors[1] == t.normalAttachmentHandle && colors[2] == t.albedoAttachmentHandle && colors[3] == t.specularAttachmentHandle;
  }

  /** The last two passes of a frame are the quad passes on the frame's
      application, whose targets are the ones it started with. */
  lemma RenderQuadPasses(app: App, nextVao: Name)
    requires RenderReady(app) && Render(app, nextVao).Ok?
    ensures var f := Render(app, nextVao).value;
      && f.app.targets == app.targets
      && f.app.texturedQuadProgramIdx < |f.app.programs|
      && f.trace[1] == Lighting(f.app) && f.trace[2] == PostProcessingAsWritten(f.app)
  {
  }

  /** The units after a three-pass trace. */
  lemma TraceUnitsOfThree(units: map<nat, Name>, trace: seq<PassRecord>)
    requires |trace| == 3
    ensures TraceUnits(units, trace) == DrawUnits(DrawUnits(DrawUnits(units, trace[0].draws), trace[1].draws), trace[2].draws)
  {
    var a := DrawUnits(units, trace[0].draws);
    var b := DrawUnits(a, trace[1].draws);
    assert TraceUnits(units, trace) == TraceUnits(a, trace[1..]);
    assert trace[1..][0] == trace[1] && trace[1..][1..] == trace[2..];
    assert TraceUnits(a, trace[1..]) == TraceUnits(b, trace[2..]);
    assert trace[2..][0] == trace[2] && trace[2..][1..] == [];
    var c := DrawUnits(b, trace[2].draws);
    assert TraceUnits(b, trace[2..]) == TraceUnits(c, []);
  }

  /** Whatever the units held before, after the lighting pass and the
      post-processing pass as written they hold the final colour on unit 0
      and the normal, albedo and specular attachments on units 1 to 3. */
  lemma QuadPassesUnits(app: App, before: map<nat, Name>)
    requires app.texturedQuadProgramIdx < |app.programs|
    ensures var units := DrawUnits(DrawUnits(before, Lighting(app).draws), PostProcessingAsWritten(app).draws);
      var t := app.targets;
      && {0, 1, 2, 3} <= units.Keys
      && units[0] == t.finalColorAttachmentHandle
      && units[1] == t.normalAttachmentHandle
      && units[2] == t.albedoAttachmentHandle
      && units[3] == t.specularAttachmentHandle
  {
    var lighting, post := Lighting(app).draws[0].textures, PostProcessingAsWritten(app).draws[0].textures;
    var u1 := BindUnits(before, lighting);
    var u2 := BindUnits(u1, post);
    assert DrawUnits(before, Lighting(app).draws) == u1;
    assert DrawUnits(u1, PostProcessingAsWritten(app).draws) == u2;
    assert LastBindingOf(lighting, 1) && LastBindingOf(lighting, 2) && LastBindingOf(lighting, 3);
    assert LastBindingOf(post, 0);
    assert 1 !in BoundUnits(post) && 2 !in BoundUnits(post) && 3 !in BoundUnits(post);
    assert lighting[1].unit == 1 && lighting[2].unit == 2 && lighting[3].unit == 3;
  }

  // The second frame

  /** A submesh whose lookup hits leaves the application and the counter
      as they were, and its draw leads the rest. */
  lemma DrawSubmeshesHitStep(app: App, e: Entity, i: nat, handle: Name, nextVao: Name)
    requires GeometryReady(app) && EntityDrawable(app, e) && i < SubmeshCount(app, e)
    requires var m := MeshIdxOf(app, e);
      FindVao(app.meshes[m], i, MeshProgram(app), nextVao) == Ok(VaoLookup(handle, app.meshes[m], None))
    ensures DrawSubmeshes(app, e, i, nextVao) ==
      match DrawSubmeshes(app, e, i + 1, nextVao)
      case Ok(rest) => Ok(GeoStep(rest.app, [SubmeshDraw(app, e, i, handle)] + rest.draws, rest.nextVao))
      case Err(err) => Err(err)
  {
    var m := MeshIdxOf(app, e);
    assert app.(meshes := app.meshes[m := app.meshes[m]]) == app;
  }

  /** Every submesh of entity `e` from `i` on holds a vertex array for the
      geometry program. */
  predicate AllCached(app: App, e: Entity, i: nat)
    requires EntityDrawable(app, e) && app.texturedMeshProgramIdx < |app.programs|
  {
    forall j :: i <= j < SubmeshCount(app, e) ==>
      Cached(app.meshes[MeshIdxOf(app, e)].submeshes[j], MeshProgram(app).handle)
  }

  /** The draws the submesh loop makes when every lookup hits: an
      independent statement of the loop's output, one draw per submesh
      through the cached vertex array. */
  function CachedDraws(app: App, e: Entity, i: nat): seq<DrawCall>
    requires EntityDrawable(app, e) && app.texturedMeshProgramIdx < |app.programs|
    requires i <= SubmeshCount(app, e) && AllCached(app, e, i)
    decreases SubmeshCount(app, e) - i
  {
    if i == SubmeshCount(app, e) then []
    else
      var sub := app.meshes[MeshIdxOf(app, e)].submeshes[i];
      [SubmeshDraw(app, e, i, CachedHandle(sub, MeshProgram(app).handle))] + CachedDraws(app, e, i + 1)
  }

  /** With every lookup a hit, the loop changes nothing, takes no name,
      and draws `CachedDraws`. */
  predicate HitsFrom(app: App, e: Entity, i: nat, nextVao: Name)
    requires GeometryReady(app) && EntityDrawable(app, e) && i <= SubmeshCount(app, e)
    requires AllCached(app, e, i)
  {
    DrawSubmeshes(app, e, i, nextVao) == Ok(GeoStep(app, CachedDraws(app, e, i), nextVao))
  }

  lemma {:induction false} HitsWhenCached(app: App, e: Entity, i: nat, nextVao: Name)
    requires GeometryReady(app) && EntityDrawable(app, e) && i <= SubmeshCount(app, e)
    requires AllCached(app, e, i)
    ensures HitsFrom(app, e, i, nextVao)
    decreases SubmeshCount(app, e) - i
  {
    if i < SubmeshCount(app, e) {
      HitsWhenCached(app, e, i + 1, nextVao);
      HitFromStep(app, e, i, nextVao);
    } else {
      HitsAtEnd(app, e, i, nextVao);
    }
  }

  lemma HitsAtEnd(app: App, e: Entity, i: nat, nextVao: Name)
    requires GeometryReady(app) && EntityDrawable(app, e) && i == SubmeshCount(app, e)
    ensures HitsFrom(app, e, i, nextVao)
  {
  }

  /** The inductive step of `HitsWhenCached`. */
  lemma HitFromStep(app: App, e: Entity, i: nat, nextVao: Name)
    requires GeometryReady(app) && EntityDrawable(app, e) && i < SubmeshCount(app, e)
    requires AllCached(app, e, i)
    requires HitsFrom(app, e, i + 1, nextVao)
    ensures HitsFrom(app, e, i, nextVao)
  {
    var sub := app.meshes[MeshIdxOf(app, e)].submeshes[i];
    FindCachedIsSomeIffCached(sub, MeshProgram(app).handle);
    DrawSubmeshesHitStep(app, e, i, CachedHandle(sub, MeshProgram(app).handle), nextVao);
  }

  /** The loop's result has every submesh from `i` on cached, and drew
      what the cache answers. */
  predicate DrawnFromCache(e: Entity, i: nat, r: GeoStep) {
    && EntityDrawable(r.app, e) && r.app.texturedMeshProgramIdx < |r.app.programs|
    && i <= SubmeshCount(r.app, e)
    && AllCached(r.app, e, i)
    && r.draws == CachedDraws(r.app, e, i)
  }

  /** The loop leaves every submesh it visited cached, and what it drew is
      what the cache now answers. */
  lemma {:induction false} DrawSubmeshesCaches(app: App, e: Entity, i: nat, nextVao: Name)
    requires GeometryReady(app) && EntityDrawable(app, e) && i <= SubmeshCount(app, e)
    requires DrawSubmeshes(app, e, i, nextVao).Ok?
    ensures DrawnFromCache(e, i, DrawSubmeshes(app, e, i, nextVao).value)
    decreases SubmeshCount(app, e) - i
  {
    if i < SubmeshCount(app, e) {
      StepReady(app, e, i, nextVao);
      var lookup := Lookup(app, e, i, nextVao).value;
      DrawSubmeshesCaches(WithMesh(app, e, lookup.mesh), e, i + 1, NextName(lookup, nextVao));
      CachesFromStep(app, e, i, nextVao);
    } else {
      CachesAtEnd(app, e, i, nextVao);
    }
  }

  /** Past the last submesh the loop draws nothing, which is what an empty
      run of cached draws is. */
  lemma CachesAtEnd(app: App, e: Entity, i: nat, nextVao: Name)
    requires GeometryReady(app) && EntityDrawable(app, e) && i == SubmeshCount(app, e)
    ensures DrawSubmeshes(app, e, i, nextVao).Ok?
    ensures DrawnFromCache(e, i, DrawSubmeshes(app, e, i, nextVao).value)
  {
  }

  /** The inductive step of `DrawSubmeshesCaches`. */
  lemma CachesFromStep(app: App, e: Entity, i: nat, nextVao: Name)
    requires GeometryReady(app) && EntityDrawable(app, e) && i < SubmeshCount(app, e)
    requires DrawSubmeshes(app, e, i, nextVao).Ok?
    requires Lookup(app, e, i, nextVao).Ok?
    requires var lookup := Lookup(app, e, i, nextVao).value;
      var app1 := WithMesh(app, e, lookup.mesh);
      && GeometryReady(app1) && EntityDrawable(app1, e) && i + 1 <= SubmeshCount(app1, e)
      && DrawSubmeshes(app1, e, i + 1, NextName(lookup, nextVao)).Ok?
      && DrawnFromCache(e, i + 1, DrawSubmeshes(app1, e, i + 1, NextName(lookup, nextVao)).value)
    ensures DrawnFromCache(e, i, DrawSubmeshes(app, e, i, nextVao).value)
  {
    DrawSubmeshesStep(app, e, i, nextVao);
    var lookup := Lookup(app, e, i, nextVao).value;
    var app1 := WithMesh(app, e, lookup.mesh);
    var rest := DrawSubmeshes(app1, e, i + 1, NextName(lookup, nextVao)).value;
    CachesStep(app1, rest.app, e, i, lookup.handle, rest.draws);
  }

  lemma CachesStep(app1: App, fin: App, e: Entity, i: nat, handle: Name, restDraws: seq<DrawCall>)
    requires AppExtends(app1, fin) && GeometryReady(app1) && EntityDrawable(app1, e) && i < SubmeshCount(app1, e)
    requires Cached(app1.meshes[MeshIdxOf(app1, e)].submeshes[i], MeshProgram(app1).handle)
    requires CachedHandle(app1.meshes[MeshIdxOf(app1, e)].submeshes[i], MeshProgram(app1).handle) == handle
    requires DrawnFromCache(e, i + 1, GeoStep(fin, restDraws, 0))
    ensures DrawnFromCache(e, i, GeoStep(fin, [SubmeshDraw(app1, e, i, handle)] + restDraws, 0))
  {
    AppExtendsKeepsReady(app1, fin, e);
    var m := MeshIdxOf(app1, e);
    var ph := MeshProgram(app1).handle;
    assert MeshExtends(app1.meshes[m], fin.meshes[m]);
    CachedHandleStable(app1.meshes[m].submeshes[i], fin.meshes[m].submeshes[i], ph);
    SubmeshDrawStable(app1, fin, e, i, handle);
  }

  /** Growing caches further keeps them answering the same way. */
  lemma {:induction false} CachedDrawsStable(a: App, b: App, e: Entity, i: nat)
    requires AppExtends(a, b) && EntityDrawable(a, e) && a.texturedMeshProgramIdx < |a.programs|
    requires i <= SubmeshCount(a, e) && AllCached(a, e, i)
    ensures EntityDrawable(b, e) && SubmeshCount(b, e) == SubmeshCount(a, e)
    ensures AllCached(b, e, i) && CachedDraws(b, e, i) == CachedDraws(a, e, i)
    decreases SubmeshCount(a, e) - i
  {
    AllCachedStable(a, b, e, i);
    if i < SubmeshCount(a, e) {
      CachedDrawsStable(a, b, e, i + 1);
      CachedDrawStable(a, b, e, i);
    }
  }

  lemma AllCachedStable(a: App, b: App, e: Entity, i: nat)
    requires AppExtends(a, b) && EntityDrawable(a, e) && a.texturedMeshProgramIdx < |a.programs|
    requires AllCached(a, e, i)
    ensures EntityDrawable(b, e) && SubmeshCount(b, e) == SubmeshCount(a, e)
    ensures AllCached(b, e, i)
  {
    AppExtendsKeepsReady(a, b, e);
    var m := MeshIdxOf(a, e);
    assert MeshExtends(a.meshes[m], b.meshes[m]);
    forall j | i <= j < SubmeshCount(b, e)
      ensures Cached(b.meshes[m].submeshes[j], MeshProgram(b).handle)
    {
      CachedHandleStable(a.meshes[m].submeshes[j], b.meshes[m].submeshes[j], MeshProgram(a).handle);
    }
  }

  /** The inductive step of `CachedDrawsStable`. */
  lemma CachedDrawStable(a: App, b: App, e: Entity, i: nat)
    requires AppExtends(a, b) && EntityDrawable(a, e) && a.texturedMeshProgramIdx < |a.programs|
    requires i < SubmeshCount(a, e) && AllCached(a, e, i)
    requires EntityDrawable(b, e) && SubmeshCount(b, e) == SubmeshCount(a, e) && AllCached(b, e, i)
    requires CachedDraws(b, e, i + 1) == CachedDraws(a, e, i + 1)
    ensures CachedDraws(b, e, i) == CachedDraws(a, e, i)
  {
    var m := MeshIdxOf(a, e);
    assert MeshExtends(a.meshes[m], b.meshes[m]);
    CachedHandleStable(a.meshes[m].submeshes[i], b.meshes[m].submeshes[i], MeshProgram(a).handle);
    SubmeshDrawStable(a, b, e, i, CachedHandle(a.meshes[m].submeshes[i], MeshProgram(a).handle));
  }

  /** Replaying the submesh loop against any application that extends its
      result hits the cache for every submesh: the application and the name
      counter are unchanged and the draws are the same. */
  lemma DrawSubmeshesReplay(app: App, e: Entity, i: nat, nextVao: Name, fin: App, otherVao: Name)
    requires GeometryReady(app) && EntityDrawable(app, e) && i <= SubmeshCount(app, e)
    requires DrawSubmeshes(app, e, i, nextVao).Ok?
    requires AppExtends(DrawSubmeshes(app, e, i, nextVao).value.app, fin)
    ensures GeometryReady(fin) && EntityDrawable(fin, e) && i <= SubmeshCount(fin, e)
    ensures DrawSubmeshes(fin, e, i, otherVao) == Ok(GeoStep(fin, DrawSubmeshes(app, e, i, nextVao).value.draws, otherVao))
  {
    var r := DrawSubmeshes(app, e, i, nextVao).value;
    AppExtendsTransitive(app, r.app, fin);
    AppExtendsKeepsReady(app, fin, e);
    DrawSubmeshesCaches(app, e, i, nextVao);
    CachedDrawsStable(r.app, fin, e, i);
    HitsWhenCached(fin, e, i, otherVao);
  }

  lemma {:induction false} DrawEntitiesReplay(app: App, k: nat, nextVao: Name, fin: App, otherVao: Name)
    requires GeometryReady(app) && k <= |app.entities|
    requires DrawEntities(app, k, nextVao).Ok?
    requires AppExtends(DrawEntities(app, k, nextVao).value.app, fin)
    ensures GeometryReady(fin) && k <= |fin.entities|
    ensures DrawEntities(fin, k, otherVao) == Ok(GeoStep(fin, DrawEntities(app, k, nextVao).value.draws, otherVao))
    decreases |app.entities| - k
  {
    var r := DrawEntities(app, k, nextVao).value;
    AppExtendsTransitive(app, r.app, fin);
    AppExtendsKeepsGeometryReady(app, fin);
    if k < |app.entities| {
      DrawEntitiesStep(app, k, nextVao);
      var s1 := DrawSubmeshes(app, app.entities[k], 0, nextVao).value;
      var s2 := DrawEntities(s1.app, k + 1, s1.nextVao).value;
      DrawEntitiesReplay(s1.app, k + 1, s1.nextVao, fin, otherVao);
      AppExtendsTransitive(s1.app, s2.app, fin);
      DrawSubmeshesReplay(app, app.entities[k], 0, nextVao, fin, otherVao);
    }
  }

  /** Once a frame renders, the next frame reconciles nothing: every
      submesh finds its vertex array in the cache, so no name is taken, the
      meshes are unchanged, and the trace is the same. */
  lemma SecondFrameHitsCache(app: App, nextVao: Name, otherVao: Name)
    requires RenderReady(app) && Render(app, nextVao).Ok?
    ensures var f := Render(app, nextVao).value;
      RenderReady(f.app) && Render(f.app, otherVao) == Ok(Frame(f.app, f.trace, otherVao))
  {
    var f := Render(app, nextVao).value;
    var s := DrawEntities(app, 0, nextVao).value;
    DrawEntitiesReplay(app, 0, nextVao, f.app, otherVao);
  }

  // After Update

  /** After `Update`, every geometry draw binds a range that starts on the
      device's uniform-buffer alignment, lies past the global block, and
      ends within the bytes written this frame. */
  lemma UpdatedDrawRangesAligned(app: App, s: UniformPacking.PushSizes, nextVao: Name)
    requires app.uniformBufferAlignment > 0
    requires var u := UniformPacking.Update(app, s); RenderReady(u) && Render(u, nextVao).Ok?
    ensures var u := UniformPacking.Update(app, s);
      var geometry := Render(u, nextVao).value.trace[0];
      forall j :: 0 <= j < |geometry.draws| ==>
        && geometry.draws[j].localRange.Some?
        && geometry.draws[j].localRange.value.offset % app.uniformBufferAlignment == 0
        && u.globalParamsOffset + u.globalParamsSize <= geometry.draws[j].localRange.value.offset
        && geometry.draws[j].localRange.value.offset + geometry.draws[j].localRange.value.size <= u.cbuffer.head
  {
    var u := UniformPacking.Update(app, s);
    DrawEntitiesShape(u, 0, nextVao);
    var geometry := Render(u, nextVao).value.trace[0];
    assert geometry.draws == DrawEntities(u, 0, nextVao).value.draws;
    forall j | 0 <= j < |geometry.draws|
      ensures geometry.draws[j].localRange.Some?
      ensures geometry.draws[j].localRange.value.offset % app.uniformBufferAlignment == 0
      ensures u.globalParamsOffset + u.globalParamsSize <= geometry.draws[j].localRange.value.offset
      ensures geometry.draws[j].localRange.value.offset + geometry.draws[j].localRange.value.size <= u.cbuffer.head
    {
      var l :| 0 <= l < |u.entities| && EntityDraw(u, u.entities[l], geometry.draws[j]);
    }
  }
}
