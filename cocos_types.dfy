/** Value types shared by the skeleton renderer and the two-colour batch: the
    fixed-width integers the C++ code stores, the GL blend factors, and the
    vertex records that travel through the staging buffers. Floating-point
    fields are modelled as `real`. */
module CocosTypes {

  newtype byte = x: int | 0 <= x < 0x100
  newtype uint16 = x: int | 0 <= x < 0x1_0000
  newtype uint32 = x: int | 0 <= x < 0x1_0000_0000

  datatype Option<T> = None | Some(value: T)

  /** The GL blend factors that appear in the renderer (GL_ZERO, GL_ONE, ...). */
  datatype BlendFactor =
    | Zero
    | One
    | SrcColor
    | OneMinusSrcColor
    | SrcAlpha
    | OneMinusSrcAlpha
    | DstColor
    | OneMinusDstColor
    | DstAlpha
    | OneMinusDstAlpha

  /** cocos2d::BlendFunc: a source and a destination factor. */
  datatype BlendFunc = BlendFunc(src: BlendFactor, dst: BlendFactor)

  /** BlendFunc::DISABLE, the initial blend of a fresh command. */
  const Disable := BlendFunc(One, Zero)

  datatype Vec2 = Vec2(x: real, y: real)
  datatype Vec3 = Vec3(x: real, y: real, z: real)
  datatype Color4B = Color4B(r: byte, g: byte, b: byte, a: byte)

  /** A 4x4 model-view matrix; only ever handed to the transform function. */
  type Mat4 = seq<real>

  /** V3F_C4B_C4B_T2F: position, light colour, dark colour, texture coordinates. */
  datatype TwoColorVertex = TwoColorVertex(position: Vec3, color: Color4B, color2: Color4B, texCoords: Vec2)

  /** V3F_C4B_T2F: the one-colour vertex of an attachment's triangle list. */
  datatype Vertex = Vertex(position: Vec3, colors: Color4B, texCoords: Vec2)
}
