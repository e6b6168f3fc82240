/**
 * The older copy of the GL mapping tables, molten-gfx/src/gl_utils.h, over the
 * smaller enums of molten-core/src/gfx/renderer.h. It has no uniform-size table.
 * Each table agrees with the molten-core copy (GlUtils) once the older
 * enumerators are read as their newer counterparts.
 */
module LegacyGlUtils {
  import GfxTypes
  import FacadeTypes
  import GlUtils

  function TextureTarget(t: FacadeTypes.TextureType): (target: nat)
    ensures target == GlUtils.GL_TEXTURE_1D <==> t == FacadeTypes.TEXTURE_1D
    ensures target == GlUtils.GL_TEXTURE_2D <==> t == FacadeTypes.TEXTURE_2D
  {
    match t
    case TEXTURE_1D => GlUtils.GL_TEXTURE_1D
    case TEXTURE_2D => GlUtils.GL_TEXTURE_2D
  }

  function TextureFormatGl(f: FacadeTypes.TextureFormat): (format: nat)
    ensures format == GlUtils.GL_RGB <==> f == FacadeTypes.RGB
    ensures format == GlUtils.GL_RGBA <==> f == FacadeTypes.RGBA
  {
    match f
    case RGB => GlUtils.GL_RGB
    case RGBA => GlUtils.GL_RGBA
  }

  function PrimitiveTypeGl(p: GfxTypes.PrimitiveType): (mode: nat)
    ensures mode in {GlUtils.GL_LINES, GlUtils.GL_TRIANGLES, GlUtils.GL_TRIANGLE_STRIP, GlUtils.GL_TRIANGLE_FAN}
  {
    match p
    case LINES => GlUtils.GL_LINES
    case TRIANGLES => GlUtils.GL_TRIANGLES
    case TRIANGLE_STRIP => GlUtils.GL_TRIANGLE_STRIP
    case TRIANGLE_FAN => GlUtils.GL_TRIANGLE_FAN
  }

  lemma PrimitiveTypeInjective(p: GfxTypes.PrimitiveType, q: GfxTypes.PrimitiveType)
    ensures PrimitiveTypeGl(p) == PrimitiveTypeGl(q) <==> p == q
  {
  }

  function AttributeType(f: FacadeTypes.AttributeFormat): (glType: nat)
    ensures glType == GlUtils.GL_FLOAT
  {
    match f
    case FLOAT2 => GlUtils.GL_FLOAT
    case FLOAT3 => GlUtils.GL_FLOAT
  }

  function AttributeSize(f: FacadeTypes.AttributeFormat): (components: nat)
    ensures f == FacadeTypes.FLOAT2 ==> components == 2
    ensures f == FacadeTypes.FLOAT3 ==> components == 3
  {
    match f
    case FLOAT2 => 2
    case FLOAT3 => 3
  }

  function TypeSize(glType: nat): (size: nat)
    ensures glType == GlUtils.GL_FLOAT ==> size == 32
    ensures glType != GlUtils.GL_FLOAT ==> size == 0
  {
    if glType == GlUtils.GL_FLOAT then 32 else 0
  }

  function BufferTypeGl(t: GfxTypes.BufferType): (target: nat)
    ensures t == GfxTypes.VERTEX_BUFFER ==> target == GlUtils.GL_ARRAY_BUFFER
    ensures t == GfxTypes.INDEX_BUFFER ==> target == GlUtils.GL_ELEMENT_ARRAY_BUFFER
  {
    match t
    case VERTEX_BUFFER => GlUtils.GL_ARRAY_BUFFER
    case INDEX_BUFFER => GlUtils.GL_ELEMENT_ARRAY_BUFFER
  }

  /** Reading the older enumerators as the newer ones. */
  function NewTextureType(t: FacadeTypes.TextureType): GfxTypes.TextureType
  {
    match t
    case TEXTURE_1D => GfxTypes.TEXTURE_1D
    case TEXTURE_2D => GfxTypes.TEXTURE_2D
  }

  function NewTextureFormat(f: FacadeTypes.TextureFormat): GfxTypes.TextureFormat
  {
    match f
    case RGB => GfxTypes.RGB8
    case RGBA => GfxTypes.RGBA8
  }

  function NewAttributeFormat(f: FacadeTypes.AttributeFormat): GfxTypes.AttributeFormat
  {
    match f
    case FLOAT2 => GfxTypes.AttributeFormat.FLOAT2
    case FLOAT3 => GfxTypes.AttributeFormat.FLOAT3
  }

  /** Every table of this copy gives the same GL value as the molten-core copy. */
  lemma CopiesAgree(t: FacadeTypes.TextureType, f: FacadeTypes.TextureFormat, p: GfxTypes.PrimitiveType,
                    a: FacadeTypes.AttributeFormat, glType: nat, b: GfxTypes.BufferType)
    ensures TextureTarget(t) == GlUtils.TextureTarget(NewTextureType(t))
    ensures TextureFormatGl(f) == GlUtils.TextureFormatGl(NewTextureFormat(f))
    ensures PrimitiveTypeGl(p) == GlUtils.PrimitiveTypeGl(p)
    ensures AttributeType(a) == GlUtils.AttributeType(NewAttributeFormat(a))
    ensures AttributeSize(a) == GlUtils.AttributeSize(NewAttributeFormat(a))
    ensures TypeSize(glType) == GlUtils.TypeSize(glType)
    ensures BufferTypeGl(b) == GlUtils.BufferTypeGl(b)
  {
  }

  /** The facade's default attribute is three floats in this table. */
  lemma DefaultAttributeIsThreeFloats()
    ensures AttributeType(FacadeTypes.DEFAULT_VERTEX_ATTRIBUTE.format) == GlUtils.GL_FLOAT
    ensures AttributeSize(FacadeTypes.DEFAULT_VERTEX_ATTRIBUTE.format) == 3
  {
  }

  /** The facade's default texture descriptor maps to a 2D texture with RGB pixels. */
  lemma DefaultTextureIs2DRgb()
    ensures TextureTarget(FacadeTypes.DEFAULT_TEXTURE_DESC.textureType) == GlUtils.GL_TEXTURE_2D
    ensures TextureFormatGl(FacadeTypes.DEFAULT_TEXTURE_DESC.format) == GlUtils.GL_RGB
  {
  }
}
