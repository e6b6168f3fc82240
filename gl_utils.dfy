/**
 * The enum-to-GL mapping tables of molten-core/src/gfx/gl_utils.h, over the
 * enums of molten-core/include/renderer.h. Each table is one `switch`; an
 * enumerator the switch does not list falls through to `GL_NONE` (or 0).
 * GL enumerants carry their values from the OpenGL headers.
 */
module GlUtils {
  import opened GfxTypes

  const GL_NONE: nat := 0
  const GL_LINES: nat := 0x0001
  const GL_TRIANGLES: nat := 0x0004
  const GL_TRIANGLE_STRIP: nat := 0x0005
  const GL_TRIANGLE_FAN: nat := 0x0006
  const GL_DEPTH_TEST: nat := 0x0B71
  const GL_TEXTURE_1D: nat := 0x0DE0
  const GL_TEXTURE_2D: nat := 0x0DE1
  const GL_UNSIGNED_BYTE: nat := 0x1401
  const GL_UNSIGNED_SHORT: nat := 0x1403
  const GL_UNSIGNED_INT: nat := 0x1405
  const GL_FLOAT: nat := 0x1406
  const GL_RGB: nat := 0x1907
  const GL_RGBA: nat := 0x1908
  const GL_VERTEX_ARRAY: nat := 0x8074
  const GL_TEXTURE0: nat := 0x84C0
  const GL_ARRAY_BUFFER: nat := 0x8892
  const GL_ELEMENT_ARRAY_BUFFER: nat := 0x8893
  const GL_FRAMEBUFFER: nat := 0x8D40

  const GL_DEPTH_BUFFER_BIT: bv32 := 0x0000_0100
  const GL_STENCIL_BUFFER_BIT: bv32 := 0x0000_0400
  const GL_COLOR_BUFFER_BIT: bv32 := 0x0000_4000

  /** `get_gl_texture_target`; `TEXTURE_3D` is not listed. */
  function TextureTarget(t: TextureType): (target: nat)
    ensures target == GL_TEXTURE_1D <==> t == TEXTURE_1D
    ensures target == GL_TEXTURE_2D <==> t == TEXTURE_2D
    ensures target == GL_NONE <==> t == TEXTURE_3D
  {
    match t
    case TEXTURE_1D => GL_TEXTURE_1D
    case TEXTURE_2D => GL_TEXTURE_2D
    case TEXTURE_3D => GL_NONE
  }

  /** `get_gl_texture_format`; its cases are the older names RGB and RGBA, here RGB8 and RGBA8. */
  function TextureFormatGl(f: TextureFormat): (format: nat)
    ensures format == GL_RGB <==> f == RGB8
    ensures format == GL_RGBA <==> f == RGBA8
    ensures format == GL_NONE <==> f == DEPTH
  {
    match f
    case RGB8 => GL_RGB
    case RGBA8 => GL_RGBA
    case DEPTH => GL_NONE
  }

  /** `get_gl_primitive_type`: a different GL primitive for each of the four topologies. */
  function PrimitiveTypeGl(p: PrimitiveType): (mode: nat)
    ensures mode in {GL_LINES, GL_TRIANGLES, GL_TRIANGLE_STRIP, GL_TRIANGLE_FAN}
  {
    match p
    case LINES => GL_LINES
    case TRIANGLES => GL_TRIANGLES
    case TRIANGLE_STRIP => GL_TRIANGLE_STRIP
    case TRIANGLE_FAN => GL_TRIANGLE_FAN
  }

  lemma PrimitiveTypeInjective(p: PrimitiveType, q: PrimitiveType)
    ensures PrimitiveTypeGl(p) == PrimitiveTypeGl(q) <==> p == q
  {
  }

  /** `get_gl_attribute_type`: the component type; `FLOAT4` is not listed and gives `GL_NONE`. */
  function AttributeType(f: AttributeFormat): (glType: nat)
    ensures glType == GL_FLOAT <==> f != AttributeFormat.FLOAT4
    ensures glType == GL_NONE <==> f == AttributeFormat.FLOAT4
  {
    match f
    case FLOAT2 => GL_FLOAT
    case FLOAT3 => GL_FLOAT
    case FLOAT4 => GL_NONE
  }

  /** `get_gl_attribute_size`: the component count; `FLOAT4` is not listed and gives 0. */
  function AttributeSize(f: AttributeFormat): (components: nat)
    ensures f == AttributeFormat.FLOAT2 ==> components == 2
    ensures f == AttributeFormat.FLOAT3 ==> components == 3
    ensures f == AttributeFormat.FLOAT4 ==> components == 0
  {
    match f
    case FLOAT2 => 2
    case FLOAT3 => 3
    case FLOAT4 => 0
  }

  /** `get_gl_type_size`: 32 for `GL_FLOAT` (the width in bits, as written), 0 for every other type. */
  function TypeSize(glType: nat): (size: nat)
    ensures glType == GL_FLOAT ==> size == 32
    ensures glType != GL_FLOAT ==> size == 0
  {
    if glType == GL_FLOAT then 32 else 0
  }

  /** The two gaps agree: an attribute has a GL type exactly when it has components. */
  lemma AttributeGapsAgree(f: AttributeFormat)
    ensures AttributeType(f) != GL_NONE <==> AttributeSize(f) > 0
    ensures TypeSize(AttributeType(f)) * AttributeSize(f) == 32 * AttributeSize(f)
  {
  }

  /** `get_gl_buffer_type` */
  function BufferTypeGl(t: BufferType): (target: nat)
    ensures t == VERTEX_BUFFER ==> target == GL_ARRAY_BUFFER
    ensures t == INDEX_BUFFER ==> target == GL_ELEMENT_ARRAY_BUFFER
  {
    match t
    case VERTEX_BUFFER => GL_ARRAY_BUFFER
    case INDEX_BUFFER => GL_ELEMENT_ARRAY_BUFFER
  }

  /**
   * `get_gl_index_type` is called by the backend but its definition is not
   * part of this model; the standard correspondence is taken here. Only
   * `NONE` maps to `GL_NONE`, which is what selects the non-indexed draw.
   */
  function IndexTypeGl(t: IndexType): (glType: nat)
    ensures glType == GL_NONE <==> t == NONE
  {
    match t
    case NONE => GL_NONE
    case UINT16 => GL_UNSIGNED_SHORT
    case UINT32 => GL_UNSIGNED_INT
  }

  /** The number of 32-bit floats a uniform of type `u` holds. */
  function Components(u: UniformType): (n: nat)
    ensures 1 <= n <= 16
  {
    match u
    case FLOAT => 1
    case FLOAT2 => 2
    case FLOAT3 => 3
    case FLOAT4 => 4
    case MAT2 => 4
    case MAT3 => 9
    case MAT4 => 16
  }

  /** `gl_size_of_type`: the byte size of a uniform, four bytes per float component. */
  function SizeOfType(u: UniformType): (bytes: nat)
    ensures bytes == 4 * Components(u)
    ensures 4 <= bytes <= 64
  {
    match u
    case FLOAT => 4
    case FLOAT2 => 8
    case FLOAT3 => 12
    case FLOAT4 => 16
    case MAT2 => 16
    case MAT3 => 36
    case MAT4 => 64
  }

  /** The default texture descriptor creates a 2D texture with RGB pixels. */
  lemma DefaultTextureMapsTo2DRgb()
    ensures TextureTarget(DEFAULT_TEXTURE_DESC.textureType) == GL_TEXTURE_2D
    ensures TextureFormatGl(DEFAULT_TEXTURE_DESC.format) == GL_RGB
  {
  }
}
