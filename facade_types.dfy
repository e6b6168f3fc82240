/**
 * The older descriptor types of molten-core/src/gfx/renderer.h, which the
 * front-end facade and the molten-gfx copy of the GL mapping tables are
 * written against. Enums that are the same in both headers (primitive,
 * buffer and index types, shader stages, actions) and the pass action are
 * taken from GfxTypes; the three enums listed here have fewer members.
 */
module FacadeTypes {
  import opened Uint
  import GfxTypes

  datatype TextureType = TEXTURE_1D | TEXTURE_2D
  datatype TextureFormat = RGB | RGBA
  datatype AttributeFormat = FLOAT2 | FLOAT3

  /** A render-pass record owned by the facade; it has no fields. */
  datatype PassData = PassData

  datatype BufferDesc = BufferDesc(mem: GfxTypes.Memory, bufferType: GfxTypes.BufferType)

  /** `Buffer vertex_buffers[MAX_VERTEX_BUFFERS]`: exactly eight handles. */
  type VertexBufferArray = s: seq<u32> | |s| == GfxTypes.MAX_VERTEX_BUFFERS
    witness seq(GfxTypes.MAX_VERTEX_BUFFERS, _ => 0)

  datatype Bindings = Bindings(vertexBuffers: VertexBufferArray, indexBuffer: u32)

  datatype TextureDesc = TextureDesc(
    mem: GfxTypes.Memory,
    textureType: TextureType,
    format: TextureFormat,
    width: u32,
    height: u32)

  const DEFAULT_TEXTURE_DESC := TextureDesc(GfxTypes.EMPTY_MEMORY, TEXTURE_2D, RGB, 0, 0)

  datatype ShaderDesc = ShaderDesc(vertexSrc: string, fragmentSrc: string)

  datatype VertexAttribute = VertexAttribute(index: int, stride: nat, format: AttributeFormat)

  /** A default-initialised `VertexAttribute`. */
  const DEFAULT_VERTEX_ATTRIBUTE := VertexAttribute(0, 0, FLOAT3)

  lemma DefaultVertexAttribute()
    ensures DEFAULT_VERTEX_ATTRIBUTE.index == 0 && DEFAULT_VERTEX_ATTRIBUTE.stride == 0
    ensures DEFAULT_VERTEX_ATTRIBUTE.format == FLOAT3
  {
  }

  type AttributeArray = s: seq<VertexAttribute> | |s| == GfxTypes.MAX_ATTRIBUTES
    witness seq(GfxTypes.MAX_ATTRIBUTES, _ => VertexAttribute(0, 0, FLOAT3))

  datatype VertexLayout = VertexLayout(attributes: AttributeArray)

  datatype PipelineDesc = PipelineDesc(shader: u32, layout: VertexLayout, indexType: GfxTypes.IndexType)
}
