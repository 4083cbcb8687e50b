/** The reflection half of `LoadProgram`: every active vertex attribute of a
    linked program becomes one `{location, componentCount}` entry of the
    program's vertex input layout, and the program is appended to the
    program table.

    Compiling and linking are an oracle: `handle` is the program name
    `CreateProgramFromSource` returned, and `active` lists what
    `glGetActiveAttrib` and `glGetAttribLocation` report for it. */
module ProgramReflection {
  import opened Common
  import opened BufferObjects
  import opened EngineTypes

  /** The GLenum values of the four float attribute types. */
  const GL_FLOAT: nat := 0x1406
  const GL_FLOAT_VEC2: nat := 0x8B50
  const GL_FLOAT_VEC3: nat := 0x8B51
  const GL_FLOAT_VEC4: nat := 0x8B52

  /** One active attribute: its GL type and the `GLint` location reported
      for its name (-1 for built-in inputs). */
  datatype ActiveAttribute = ActiveAttribute(glType: nat, location: int)

  /** Components of an attribute type: 1 to 4 for the float scalar and
      vectors, and 1, the initial value, for any other type. */
  function ComponentCount(glType: nat): (n: u8)
    ensures 1 <= n <= 4
    ensures n == 2 <==> glType == GL_FLOAT_VEC2
    ensures n == 3 <==> glType == GL_FLOAT_VEC3
    ensures n == 4 <==> glType == GL_FLOAT_VEC4
  {
    if glType == GL_FLOAT then 1
    else if glType == GL_FLOAT_VEC2 then 2
    else if glType == GL_FLOAT_VEC3 then 3
    else if glType == GL_FLOAT_VEC4 then 4
    else 1
  }

  /** The entry reflected for one active attribute. The location is stored
      into a `u8`, so it is taken modulo 256. */
  function Reflected(a: ActiveAttribute): VertexShaderAttribute {
    VertexShaderAttribute(ToU8(a.location), ComponentCount(a.glType))
  }

  /** The `for (i < attributeCount)` loop: one entry per active attribute,
      in the order the driver lists them. */
  method ReflectAttributes(active: seq<ActiveAttribute>) returns (layout: VertexShaderLayout)
    ensures |layout.attributes| == |active|
    ensures forall i :: 0 <= i < |active| ==>
      layout.attributes[i].componentCount == ComponentCount(active[i].glType)
      && (0 <= active[i].location < 0x100 ==> layout.attributes[i].location == active[i].location)
      && (active[i].location == -1 ==> layout.attributes[i].location == 0xFF)
    ensures forall i :: 0 <= i < |active| ==> layout.attributes[i] == Reflected(active[i])
  {
    var attributes: seq<VertexShaderAttribute> := [];
    var i := 0;
    while i < |active|
      invariant 0 <= i <= |active|
      invariant |attributes| == i
      invariant forall k :: 0 <= k < i ==> attributes[k] == Reflected(active[k])
    {
      attributes := attributes + [Reflected(active[i])];
      i := i + 1;
    }
    layout := VertexShaderLayout(attributes);
  }

  /** `LoadProgram`: appends exactly one program carrying the given name,
      path, timestamp and reflected layout, and returns
      `programs.size() - 1` as a `u32`, which is the new program's index
      while the table fits in a `u32`. */
  method LoadProgram(programs: seq<Program>, filepath: string, programName: string,
                     handle: Name, lastWriteTimestamp: nat, active: seq<ActiveAttribute>)
    returns (programs': seq<Program>, index: u32)
    ensures |programs'| == |programs| + 1
    ensures programs'[..|programs|] == programs
    ensures var p := programs'[|programs|];
      p.handle == handle && p.filepath == filepath && p.programName == programName
      && p.lastWriteTimestamp == lastWriteTimestamp
      && |p.vertexInputLayout.attributes| == |active|
      && forall i :: 0 <= i < |active| ==> p.vertexInputLayout.attributes[i] == Reflected(active[i])
    ensures (index - |programs|) % 0x1_0000_0000 == 0
    ensures |programs| < 0x1_0000_0000 ==> index == |programs| && programs'[index].handle == handle
  {
    var layout := ReflectAttributes(active);
    var program := Program(handle, filepath, programName, lastWriteTimestamp, layout);
    programs' := programs + [program];
    index := WrapU32(|programs'| - 1);
  }
}
