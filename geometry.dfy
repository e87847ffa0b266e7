/** Value types shared by the renderer and the particle system
    (src/core/renderer/mesh.hpp), plus the Option/Result wrappers the
    model uses for the source's "not found" and thrown-error cases.
    Floating-point components are modelled as reals. */
module Geometry {

  datatype Option<T> = None | Some(value: T)

  /** The one error the core throws: a batch state without a program or a texture. */
  datatype Error = MissingCriticalData

  datatype Result<T> = Ok(value: T) | Err(error: Error)

  datatype Vec2 = Vec2(x: real, y: real) {
    function Plus(v: Vec2): Vec2 { Vec2(x + v.x, y + v.y) }
    function Times(k: real): Vec2 { Vec2(x * k, y * k) }
  }

  datatype Vec3 = Vec3(x: real, y: real, z: real)

  datatype Vec4 = Vec4(x: real, y: real, z: real, w: real)

  /** A vertex: position, texture coordinate, colour. */
  datatype Vertex = Vertex(position: Vec3, uv: Vec2, color: Vec4)

  /** A 4x4 matrix, column by column as glm stores it. */
  datatype Mat4 = Mat4(c0: Vec4, c1: Vec4, c2: Vec4, c3: Vec4)

  const Identity: Mat4 :=
    Mat4(Vec4(1.0, 0.0, 0.0, 0.0), Vec4(0.0, 1.0, 0.0, 0.0),
         Vec4(0.0, 0.0, 1.0, 0.0), Vec4(0.0, 0.0, 0.0, 1.0))

  /** The enumeration `Primitive`; its enumerators convert to the ints 0, 1, 2. */
  datatype Primitive = Point | Line | Triangle

  /** The integer a `Primitive` takes when it is stored in a render-state map. */
  function PrimitiveCode(p: Primitive): (c: int)
    ensures 0 <= c <= 2
    ensures (c == 0 <==> p == Point) && (c == 1 <==> p == Line) && (c == 2 <==> p == Triangle)
  {
    match p
    case Point => 0
    case Line => 1
    case Triangle => 2
  }

  /** The keys of a render-state map, in the enumeration's declaration order. */
  datatype RenderState = Program | Texture | PointSize | BlendMode | PrimitiveType

  type StateMap = map<RenderState, int>

  /** A mesh. The offset fields that only the batch implementation writes
      are not part of the model. */
  datatype Mesh = Mesh(scale: Vec3, translate: Vec3, primitive: Primitive,
                       vertexSize: int, vertices: seq<Vertex>)
}
