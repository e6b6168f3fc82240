/**
 * The backend-agnostic descriptor types of molten-core/include/renderer.h:
 * enums, descriptor records with their default values, and the constants.
 * Floating-point fields (clear colours and clear values) are not modelled.
 */
module GfxTypes {
  import opened Uint

  const MAX_VERTEX_BUFFERS: nat := 8
  const MAX_ATTRIBUTES: nat := 16
  const MAX_PASSES: nat := 4096

  datatype ShaderStage = VERTEX | FRAGMENT
  datatype TextureType = TEXTURE_1D | TEXTURE_2D | TEXTURE_3D
  datatype TextureFormat = RGB8 | RGBA8 | DEPTH
  datatype PrimitiveType = LINES | TRIANGLES | TRIANGLE_FAN | TRIANGLE_STRIP
  datatype AttributeFormat = FLOAT2 | FLOAT3 | FLOAT4
  datatype BufferType = VERTEX_BUFFER | INDEX_BUFFER
  datatype IndexType = NONE | UINT16 | UINT32
  datatype UniformType = FLOAT | FLOAT2 | FLOAT3 | FLOAT4 | MAT2 | MAT3 | MAT4
  datatype Action = NOTHING | CLEAR

  /** A non-owning view of caller memory: an opaque address and a byte length. */
  datatype Memory = Memory(data: nat, size: nat)

  const EMPTY_MEMORY := Memory(0, 0)

  /** Per-attachment actions; the clear colour and clear values are floats and are left out. */
  datatype ColorAction = ColorAction(action: Action)
  datatype DepthAction = DepthAction(action: Action)
  datatype StencilAction = StencilAction(action: Action)
  datatype PassAction = PassAction(colorAction: ColorAction, depthAction: DepthAction, stencilAction: StencilAction)

  /** A default-constructed `PassAction`: every member initialiser says `Action::CLEAR`. */
  const DEFAULT_PASS_ACTION := PassAction(ColorAction(CLEAR), DepthAction(CLEAR), StencilAction(CLEAR))

  lemma DefaultActionsClear()
    ensures DEFAULT_PASS_ACTION.colorAction.action == CLEAR
    ensures DEFAULT_PASS_ACTION.depthAction.action == CLEAR
    ensures DEFAULT_PASS_ACTION.stencilAction.action == CLEAR
  {
  }

  datatype Bindings = Bindings(vertexBuffer: u32, indexBuffer: u32, textures: seq<u32>)

  datatype VertexAttribute = VertexAttribute(index: int, stride: nat, format: AttributeFormat)

  /** `VertexAttribute attributes[MAX_ATTRIBUTES]`: always exactly sixteen entries. */
  type AttributeArray = s: seq<VertexAttribute> | |s| == MAX_ATTRIBUTES
    witness seq(MAX_ATTRIBUTES, _ => VertexAttribute(0, 0, AttributeFormat.FLOAT2))

  datatype VertexLayout = VertexLayout(attributes: AttributeArray)

  datatype UniformDesc = UniformDesc(name: string, uniformType: UniformType)

  /** The declared uniforms, in declaration order; this order fixes the byte layout. */
  datatype UniformBlockLayout = UniformBlockLayout(uniforms: seq<UniformDesc>)

  datatype BufferDesc = BufferDesc(mem: Memory, bufferType: BufferType)

  datatype TextureDesc = TextureDesc(
    mem: Memory,
    textureType: TextureType,
    format: TextureFormat,
    generateMipMaps: bool,
    width: u32,
    height: u32,
    depth: u32)

  /** A default-initialised `TextureDesc`. */
  const DEFAULT_TEXTURE_DESC := TextureDesc(EMPTY_MEMORY, TEXTURE_2D, RGB8, true, 0, 0, 0)

  lemma DefaultTextureDesc()
    ensures DEFAULT_TEXTURE_DESC.textureType == TEXTURE_2D && DEFAULT_TEXTURE_DESC.format == RGB8
    ensures DEFAULT_TEXTURE_DESC.generateMipMaps
    ensures DEFAULT_TEXTURE_DESC.width == 0 && DEFAULT_TEXTURE_DESC.height == 0 && DEFAULT_TEXTURE_DESC.depth == 0
  {
  }

  /** Shader sources are kept as text; the texture names are the sampler names in binding order. */
  datatype ShaderDesc = ShaderDesc(
    vertexSrc: string,
    fragmentSrc: string,
    uniformsLayout: UniformBlockLayout,
    textureNames: seq<string>)

  datatype PipelineDesc = PipelineDesc(shader: u32, layout: VertexLayout, indexType: IndexType)

  datatype RenderPassDesc = RenderPassDesc(colors: seq<u32>, depth: u32)

  datatype Rect = Rect(x: u32, y: u32, width: u32, height: u32)
}
