/** `FindVAO`: look a vertex array object up in a submesh's cache by program
    name; on a miss, reconcile the program's vertex inputs against the
    submesh's stored layout, emit one attribute binding per input, and append
    the new object to the cache.

    The GL calls become data: `glGenVertexArrays` is the `newName` passed
    in, the buffers bound into the object and every `glVertexAttribPointer`
    call are returned as a `VaoCreation`. The assertion that every input was
    linked becomes an `Err` naming the first unlinked location. */
module VertexBinding {
  import opened Common
  import opened BufferObjects
  import opened EngineTypes
  import ProgramReflection

  /** One `glVertexAttribPointer(index, ncomp, GL_FLOAT, GL_FALSE, stride,
      offset)` call, with the `u32` values the engine passes. */
  datatype Binding = Binding(index: u32, ncomp: u32, stride: u32, offset: u32)

  /** The state a newly generated vertex array object receives. */
  datatype VaoCreation = VaoCreation(vertexBuffer: Name, indexBuffer: Name, bindings: seq<Binding>)

  /** The reconciliation failure: a program input with no stored attribute. */
  datatype MissingAttribute = MissingAttribute(location: u8, programHandle: Name)

  /** What `FindVAO` returns: the object's name, the mesh with its
      (possibly extended) cache, and the creation record on a miss. */
  datatype VaoLookup = VaoLookup(handle: Name, mesh: Mesh, created: Option<VaoCreation>)

  /** First attribute of the stored layout at `location`. */
  function FindAttribute(layout: VertexBufferLayout, location: u8): Option<nat> {
    FirstWhere(layout.attributes, (a: VertexBufferAttribute) => a.location == location)
  }

  /** First cache entry built for the program named `programHandle`. */
  function FindCached(vaos: seq<Vao>, programHandle: Name): Option<nat> {
    FirstWhere(vaos, (v: Vao) => v.programHandle == programHandle)
  }

  /** True when the cache holds an object for the program. */
  predicate Cached(sub: Submesh, programHandle: Name) {
    exists k :: 0 <= k < |sub.vaos| && sub.vaos[k].programHandle == programHandle
  }

  /** The object the cache returns for a program it holds. */
  function CachedHandle(sub: Submesh, programHandle: Name): Name
    requires Cached(sub, programHandle)
  {
    FindCachedIsSomeIffCached(sub, programHandle);
    sub.vaos[FindCached(sub.vaos, programHandle).value].handle
  }

  lemma FindCachedIsSomeIffCached(sub: Submesh, programHandle: Name)
    ensures FindCached(sub.vaos, programHandle).Some? <==> Cached(sub, programHandle)
  {
  }

  /** The first program input no stored attribute provides. */
  function FirstMissing(inputs: seq<VertexShaderAttribute>, layout: VertexBufferLayout): Option<nat> {
    FirstWhere(inputs, (a: VertexShaderAttribute) => !Provides(layout, a.location))
  }

  /** The binding a stored attribute yields: its location and component
      count, the layout stride, and its offset shifted by the submesh's
      base vertex offset in 32-bit unsigned arithmetic. */
  function BindingFor(attr: VertexBufferAttribute, stride: u8, vertexOffset: u32): Binding {
    Binding(attr.location, attr.componentCount, stride, WrapU32(attr.offset + vertexOffset))
  }

  /** The inner loop over `program.vertexInputLayout.attributes`: one
      binding per program input, in input order, each built from the FIRST
      stored attribute at the input's location; or the first input that no
      stored attribute provides. */
  function Reconcile(inputs: seq<VertexShaderAttribute>, layout: VertexBufferLayout,
                     vertexOffset: u32, programHandle: Name): (r: Result<seq<Binding>, MissingAttribute>)
    ensures r.Ok? <==> forall i :: 0 <= i < |inputs| ==> Provides(layout, inputs[i].location)
    ensures r.Ok? ==> |r.value| == |inputs|
    ensures r.Ok? ==> forall i :: 0 <= i < |inputs| ==>
      FindAttribute(layout, inputs[i].location).Some?
      && r.value[i] == BindingFor(layout.attributes[FindAttribute(layout, inputs[i].location).value],
                                  layout.stride, vertexOffset)
    ensures r.Err? ==>
      && FirstMissing(inputs, layout).Some?
      && r.error == MissingAttribute(inputs[FirstMissing(inputs, layout).value].location, programHandle)
  {
    if |inputs| == 0 then Ok([])
    else
      match FindAttribute(layout, inputs[0].location)
      case None => Err(MissingAttribute(inputs[0].location, programHandle))
      case Some(j) =>
        var rest :- Reconcile(inputs[1..], layout, vertexOffset, programHandle);
        Ok([BindingFor(layout.attributes[j], layout.stride, vertexOffset)] + rest)
  }

  /** The first stored attribute at a location is found by the scan. */
  lemma FindAttributeAt(layout: VertexBufferLayout, j: nat)
    requires j < |layout.attributes|
    requires forall k :: 0 <= k < j ==> layout.attributes[k].location != layout.attributes[j].location
    ensures FindAttribute(layout, layout.attributes[j].location) == Some(j)
  {
    var r := FindAttribute(layout, layout.attributes[j].location);
    assert r.Some?;
    if r.value < j {
      assert false;
    }
  }

  /** One step of reconciliation: a provided first input is bound in front
      of the bindings for the rest. */
  lemma ReconcileStep(inputs: seq<VertexShaderAttribute>, layout: VertexBufferLayout,
                      vertexOffset: u32, programHandle: Name, j: nat, rest: seq<Binding>)
    requires |inputs| > 0
    requires FindAttribute(layout, inputs[0].location) == Some(j)
    requires Reconcile(inputs[1..], layout, vertexOffset, programHandle) == Ok(rest)
    ensures j < |layout.attributes|
    ensures Reconcile(inputs, layout, vertexOffset, programHandle)
      == Ok([BindingFor(layout.attributes[j], layout.stride, vertexOffset)] + rest)
  {
  }

  /** Reflection meets reconciliation: a program whose inputs are the
      reflected active attributes, as `LoadProgram` stores them, reconciles
      against a layout exactly when the layout provides every reflected
      location, and then gets one binding per active attribute, in driver
      order, at that attribute's byte-sized location. */
  lemma ReflectedInputsReconcile(program: Program, active: seq<ProgramReflection.ActiveAttribute>,
                                 layout: VertexBufferLayout, vertexOffset: u32)
    requires |program.vertexInputLayout.attributes| == |active|
    requires forall i :: 0 <= i < |active| ==>
      program.vertexInputLayout.attributes[i] == ProgramReflection.Reflected(active[i])
    ensures var r := Reconcile(program.vertexInputLayout.attributes, layout, vertexOffset, program.handle);
      && (r.Ok? <==> forall i :: 0 <= i < |active| ==> Provides(layout, ProgramReflection.Reflected(active[i]).location))
      && (r.Ok? ==> |r.value| == |active|)
      && (r.Ok? ==> forall i :: 0 <= i < |active| ==> r.value[i].index == ProgramReflection.Reflected(active[i]).location)
  {
    var inputs := program.vertexInputLayout.attributes;
    var r := Reconcile(inputs, layout, vertexOffset, program.handle);
    if r.Ok? {
      ReconcileUsesLayout(inputs, layout, vertexOffset, program.handle);
    }
  }

  /** Every binding emitted for a submesh takes the layout's stride, a
      component count the layout declares at that location, and an offset
      equal to a stored offset plus the base vertex offset. */
  lemma ReconcileUsesLayout(inputs: seq<VertexShaderAttribute>, layout: VertexBufferLayout,
                             vertexOffset: u32, programHandle: Name)
    requires Reconcile(inputs, layout, vertexOffset, programHandle).Ok?
    ensures var bs := Reconcile(inputs, layout, vertexOffset, programHandle).value;
      forall i :: 0 <= i < |bs| ==>
        bs[i].index == inputs[i].location && bs[i].stride == layout.stride
        && (exists j :: (0 <= j < |layout.attributes|
              && (forall k :: 0 <= k < j ==> layout.attributes[k].location != inputs[i].location)
              && bs[i].ncomp == layout.attributes[j].componentCount
              && bs[i].offset == WrapU32(layout.attributes[j].offset + vertexOffset)))
  {
    var bs := Reconcile(inputs, layout, vertexOffset, programHandle).value;
    forall i | 0 <= i < |bs|
      ensures exists j :: (0 <= j < |layout.attributes|
              && (forall k :: 0 <= k < j ==> layout.attributes[k].location != inputs[i].location)
              && bs[i].ncomp == layout.attributes[j].componentCount
              && bs[i].offset == WrapU32(layout.attributes[j].offset + vertexOffset))
    {
      var j := FindAttribute(layout, inputs[i].location).value;
      assert layout.attributes[j].location == inputs[i].location;
    }
  }

  /** `FindVAO(mesh, submeshIndex, program)`. A hit returns the first cached
      object for the program and leaves the mesh alone. A miss that
      reconciles returns `newName`, appends exactly `{newName, program.handle}`
      to that submesh's cache and nothing else, and records the buffers and
      bindings the new object receives. A miss that does not reconcile is
      the failed assertion. */
  function FindVao(mesh: Mesh, submeshIndex: nat, program: Program, newName: Name): (r: Result<VaoLookup, MissingAttribute>)
    requires submeshIndex < |mesh.submeshes|
    ensures var sub := mesh.submeshes[submeshIndex];
      match FindCached(sub.vaos, program.handle)
      case Some(k) => r == Ok(VaoLookup(sub.vaos[k].handle, mesh, None))
      case None =>
        var rec := Reconcile(program.vertexInputLayout.attributes, sub.vertexBufferLayout,
                             sub.vertexOffset, program.handle);
        && (r.Ok? <==> rec.Ok?)
        && (r.Err? ==> r.error == rec.error)
        && (r.Ok? ==>
              && r.value.handle == newName
              && r.value.mesh == mesh.(submeshes := mesh.submeshes[submeshIndex :=
                   sub.(vaos := sub.vaos + [Vao(newName, program.handle)])])
              && r.value.created == Some(VaoCreation(mesh.vertexBufferHandle, mesh.indexBufferHandle, rec.value)))
  {
    var sub := mesh.submeshes[submeshIndex];
    match FindCached(sub.vaos, program.handle)
    case Some(k) => Ok(VaoLookup(sub.vaos[k].handle, mesh, None))
    case None =>
      var bindings :- Reconcile(program.vertexInputLayout.attributes, sub.vertexBufferLayout,
                                sub.vertexOffset, program.handle);
      var sub' := sub.(vaos := sub.vaos + [Vao(newName, program.handle)]);
      Ok(VaoLookup(newName, mesh.(submeshes := mesh.submeshes[submeshIndex := sub']), Some(VaoCreation(mesh.vertexBufferHandle, mesh.indexBufferHandle, bindings))))
  }

  /** Only the cache of the looked-up submesh can change, and it only grows:
      its old entries stay where they were. */
  predicate SubmeshExtends(a: Submesh, b: Submesh) {
    b == a.(vaos := b.vaos) && a.vaos <= b.vaos
  }

  predicate MeshExtends(a: Mesh, b: Mesh) {
    && b == a.(submeshes := b.submeshes)
    && |a.submeshes| == |b.submeshes|
    && forall i :: 0 <= i < |a.submeshes| ==> SubmeshExtends(a.submeshes[i], b.submeshes[i])
  }

  lemma MeshExtendsTransitive(a: Mesh, b: Mesh, c: Mesh)
    requires MeshExtends(a, b) && MeshExtends(b, c)
    ensures MeshExtends(a, c)
  {
    forall i | 0 <= i < |a.submeshes|
      ensures SubmeshExtends(a.submeshes[i], c.submeshes[i])
    {
      assert SubmeshExtends(b.submeshes[i], c.submeshes[i]);
    }
  }

  /** A growing cache keeps every hit it had. */
  lemma ExtendsKeepsCached(a: Submesh, b: Submesh, programHandle: Name)
    requires SubmeshExtends(a, b) && Cached(a, programHandle)
    ensures Cached(b, programHandle)
  {
    var k :| 0 <= k < |a.vaos| && a.vaos[k].programHandle == programHandle;
    assert b.vaos[k] == a.vaos[k];
  }

  /** Whatever the outcome, the mesh afterwards extends the mesh before,
      and the looked-up submesh now holds an object for the program. */
  lemma FindVaoExtends(mesh: Mesh, submeshIndex: nat, program: Program, newName: Name)
    requires submeshIndex < |mesh.submeshes|
    requires FindVao(mesh, submeshIndex, program, newName).Ok?
    ensures var l := FindVao(mesh, submeshIndex, program, newName).value;
      MeshExtends(mesh, l.mesh) && Cached(l.mesh.submeshes[submeshIndex], program.handle)
      && CachedHandle(l.mesh.submeshes[submeshIndex], program.handle) == l.handle
      && (Cached(mesh.submeshes[submeshIndex], program.handle) <==> l.mesh == mesh)
      && (l.created.None? <==> l.mesh == mesh)
  {
    var l := FindVao(mesh, submeshIndex, program, newName).value;
    var sub := mesh.submeshes[submeshIndex];
    FindCachedIsSomeIffCached(sub, program.handle);
    if !Cached(sub, program.handle) {
      var sub' := l.mesh.submeshes[submeshIndex];
      assert sub'.vaos[|sub.vaos|] == Vao(newName, program.handle);
      assert |l.mesh.submeshes[submeshIndex].vaos| != |sub.vaos|;
      assert forall k :: 0 <= k < |sub.vaos| ==> sub'.vaos[k] == sub.vaos[k];
      assert FindCached(sub'.vaos, program.handle) == Some(|sub.vaos|);
    }
  }

  /** The cache works: right after a successful lookup, a second lookup for
      the same submesh and program hits, returns the same object, creates
      nothing and changes nothing, whatever name it is offered. */
  lemma SecondLookupHits(mesh: Mesh, submeshIndex: nat, program: Program, newName: Name, otherName: Name)
    requires submeshIndex < |mesh.submeshes|
    requires FindVao(mesh, submeshIndex, program, newName).Ok?
    ensures var l := FindVao(mesh, submeshIndex, program, newName).value;
      FindVao(l.mesh, submeshIndex, program, otherName) == Ok(VaoLookup(l.handle, l.mesh, None))
  {
    var sub := mesh.submeshes[submeshIndex];
    var l := FindVao(mesh, submeshIndex, program, newName).value;
    var sub' := l.mesh.submeshes[submeshIndex];
    match FindCached(sub.vaos, program.handle)
    case Some(k) =>
      assert FindCached(sub'.vaos, program.handle) == Some(k);
    case None =>
      var n := |sub.vaos|;
      assert sub'.vaos == sub.vaos + [Vao(newName, program.handle)];
      assert sub'.vaos[n].programHandle == program.handle;
      assert forall k :: 0 <= k < n ==> sub'.vaos[k] == sub.vaos[k];
      assert FindCached(sub'.vaos, program.handle) == Some(n);
  }

  /** A submesh straight from its constructor has an empty cache and an
      empty layout: the first lookup always misses, and it succeeds exactly
      for a program that reads no vertex input, building an object with no
      bindings. */
  lemma NewSubmeshMisses(vertexOffset: u32, indexOffset: u32, vb: Name, ib: Name, program: Program, newName: Name)
    ensures var m := Mesh([NewSubmesh(vertexOffset, indexOffset)], vb, ib);
      var r := FindVao(m, 0, program, newName);
      && (r.Ok? <==> program.vertexInputLayout.attributes == [])
      && (r.Ok? ==> r.value.created == Some(VaoCreation(vb, ib, [])) && r.value.handle == newName)
      && (r.Err? ==> r.error.location == program.vertexInputLayout.attributes[0].location)
  {
    var m := Mesh([NewSubmesh(vertexOffset, indexOffset)], vb, ib);
    var inputs := program.vertexInputLayout.attributes;
    if |inputs| > 0 {
      assert !Provides(EmptyLayout, inputs[0].location);
      assert FirstMissing(inputs, EmptyLayout) == Some(0);
    }
  }

  /** Growing a cache that already answers for a program does not change
      the answer. */
  lemma CachedHandleStable(a: Submesh, b: Submesh, programHandle: Name)
    requires SubmeshExtends(a, b) && Cached(a, programHandle)
    ensures Cached(b, programHandle)
    ensures CachedHandle(b, programHandle) == CachedHandle(a, programHandle)
  {
    ExtendsKeepsCached(a, b, programHandle);
    FindCachedIsSomeIffCached(a, programHandle);
    FindCachedIsSomeIffCached(b, programHandle);
    var k := FindCached(a.vaos, programHandle).value;
    var k' := FindCached(b.vaos, programHandle).value;
    assert b.vaos[k] == a.vaos[k];
    assert forall j :: 0 <= j < k ==> b.vaos[j] == a.vaos[j];
  }
}
