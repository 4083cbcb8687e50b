/** The vertex-format records of the engine: how a mesh stores its vertex
    attributes, what a shader program expects, and the per-submesh cache
    entry tying a vertex array object to the program it was built for. */
module BufferObjects {
  import opened Common

  /** One attribute of stored vertex data. All three fields are `u8`. */
  datatype VertexBufferAttribute = VertexBufferAttribute(location: u8, componentCount: u8, offset: u8)

  /** The stored vertex format: attributes in declaration order and the
      byte stride between consecutive vertices (a `u8` as well). */
  datatype VertexBufferLayout = VertexBufferLayout(attributes: seq<VertexBufferAttribute>, stride: u8)

  /** A vertex input reflected from a linked program: no byte offset. */
  datatype VertexShaderAttribute = VertexShaderAttribute(location: u8, componentCount: u8)

  datatype VertexShaderLayout = VertexShaderLayout(attributes: seq<VertexShaderAttribute>)

  /** A cache entry: the vertex array object `handle` was built for the
      program whose name is `programHandle`, the lookup key. */
  datatype Vao = Vao(handle: Name, programHandle: Name)

  /** `VertexBufferLayout()`: stride 0, no attributes. */
  const EmptyLayout: VertexBufferLayout := VertexBufferLayout([], 0)

  /** `VAO{}`: both names 0. */
  const DefaultVao: Vao := Vao(0, 0)

  /** True when some attribute of the stored layout sits at `location`. */
  predicate Provides(layout: VertexBufferLayout, location: u8) {
    exists j :: 0 <= j < |layout.attributes| && layout.attributes[j].location == location
  }
}
