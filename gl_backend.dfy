/**
 * The immediate-mode backend `gfx::GLRenderer` (molten-core/src/gfx/gl_renderer.h,
 * gl_renderer.cpp). The GL context is replaced by the sequence of GL calls the
 * backend makes (`trace`); names the driver generates (`glGen*`), the default
 * framebuffer it reports, the outcome of compiling and linking a shader and the
 * uniform locations it reflects are inputs. The fixed resource tables are
 * arrays indexed by handle; a pointer into a table is the index it points at.
 */
module GlBackend {
  import opened Uint
  import opened Wrappers
  import opened GfxTypes
  import opened GlUtils

  const MAX_BUFFERS: nat := 4096
  const MAX_TEXTURES: nat := 4096
  const MAX_SHADERS: nat := 4096
  const MAX_RENDER_PASSES: nat := 32
  const MAX_PIPELINES: nat := 4096
  const MAX_UNIFORMS: nat := 16
  const MAX_SHADER_TEXTURES: nat := 16

  /** An index into the shader table: what `GLShader*` points at. */
  type ShaderSlot = i: nat | i < MAX_SHADERS
  /** An index into the pipeline table: what `GLPipeline*` points at. */
  type PipelineSlot = i: nat | i < MAX_PIPELINES

  datatype GLBuffer = GLBuffer(id: nat)

  datatype GLTexture = GLTexture(target: nat, id: nat)

  /** One entry of a shader's uniform layout; the offset is a `uint16_t`. */
  datatype GLUniform = GLUniform(loc: int, uniformType: UniformType, offset: u16)

  const ZERO_UNIFORM := GLUniform(0, UniformType.FLOAT, 0)

  /** `std::array<GLUniform, MAX_UNIFORMS>`: always sixteen entries. */
  type UniformArray = s: seq<GLUniform> | |s| == MAX_UNIFORMS
    witness seq(MAX_UNIFORMS, _ => ZERO_UNIFORM)

  datatype GLShaderTexture = GLShaderTexture(uniformLoc: int)

  datatype GLShader = GLShader(uniforms: UniformArray, shaderTextures: seq<GLShaderTexture>, id: nat)

  datatype GLVertexAttribute = GLVertexAttribute(index: nat, size: nat, glType: nat, stride: nat, offset: nat)

  const ZERO_ATTRIBUTE := GLVertexAttribute(0, 0, 0, 0, 0)

  type GLAttributeArray = s: seq<GLVertexAttribute> | |s| == MAX_ATTRIBUTES
    witness seq(MAX_ATTRIBUTES, _ => ZERO_ATTRIBUTE)

  datatype GLRenderPass = GLRenderPass(colorTextureIds: seq<nat>, colorAtts: seq<nat>, depthAtt: Option<nat>, fbId: nat)

  /**
   * `GLPipeline`. The header declares no `pipeline_common` member, yet `draw`
   * reads its topology from one; `pipelineCommon` is that assumed member,
   * with the `PipelineCommon` default TRIANGLES. Neither it nor the declared
   * `primitive_type` is written by `new_pipeline`, and `draw` never reads
   * `primitive_type`.
   */
  datatype GLPipeline = GLPipeline(
    shaderId: u32,
    shader: Option<ShaderSlot>,
    attributes: GLAttributeArray,
    indexType: nat,
    primitiveType: nat,
    cullMode: nat,
    pipelineCommon: PrimitiveType)

  /**
   * `GLState`: the backend's single record of current GL state. The cull
   * mode is kept as a number, since its enumeration is not part of this model.
   */
  datatype GLState = GLState(
    currentPip: Option<PipelineSlot>,
    textures: seq<Option<nat>>,
    vertexBuffer: nat,
    indexBuffer: nat,
    globalVao: nat,
    defaultFramebuffer: nat,
    cullMode: nat)

  /** The zero-initialised table entries and state of the static backend object. */
  const ZERO_BUFFER := GLBuffer(0)
  const ZERO_TEXTURE := GLTexture(0, 0)
  const ZERO_SHADER := GLShader(seq(MAX_UNIFORMS, _ => ZERO_UNIFORM), [], 0)
  const ZERO_RENDER_PASS := GLRenderPass([], [], None, 0)
  const ZERO_PIPELINE := GLPipeline(0, None, seq(MAX_ATTRIBUTES, _ => ZERO_ATTRIBUTE), GL_NONE, 0, 0, TRIANGLES)
  const INITIAL_STATE := GLState(None, seq(MAX_SHADER_TEXTURES, _ => None), 0, 0, 0, 0, 0)

  /** The GL calls the backend makes, with their arguments; float data is not modelled. */
  datatype GLCommand =
    | BindVertexArray(vao: nat)
    | DeleteVertexArrays(vao: nat)
    | BindFramebuffer(fbTarget: nat, framebuffer: nat)
    | Clear(mask: bv32)
    | UseProgram(program: nat)
    | BindBuffer(bufferTarget: nat, buffer: nat)
    | BufferData(bufferTarget: nat, byteSize: nat)
    | Enable(capability: nat)
    | VertexAttribPointer(attribIndex: nat, components: nat, componentType: nat, stride: nat, byteOffset: nat)
    | EnableVertexAttribArray(attribIndex: nat)
    | ActiveTexture(textureUnit: nat)
    | BindTexture(textureTarget: nat, texture: nat)
    | TexImage2D(textureTarget: nat, internalFormat: nat, width: nat, height: nat, pixelFormat: nat)
    | GenerateMipmap(textureTarget: nat)
    | Uniform1i(location: int, value: int)
    | UploadUniform(uniformType: UniformType, location: int, readOffset: nat)
    | DrawArrays(mode: nat, first: nat, count: nat)
    | DrawElements(mode: nat, count: nat, elementType: nat, indexOffset: nat)
    | Viewport(x: nat, y: nat, width: nat, height: nat)
    | Scissor(x: nat, y: nat, width: nat, height: nat)

  // ---------------------------------------------------------------------------
  // Uniform layout (GLShader::create)

  /** The byte size of the given uniforms packed back to back in declaration order. */
  function BlockSize(decls: seq<UniformDesc>): (size: nat)
    ensures size <= 64 * |decls|
  {
    if decls == [] then 0
    else BlockSize(decls[..|decls| - 1]) + SizeOfType(decls[|decls| - 1].uniformType)
  }

  /** The offset of the k-th declared uniform: the sizes of the uniforms declared before it. */
  function UniformOffset(decls: seq<UniformDesc>, k: nat): (offset: u16)
    requires k <= |decls| <= MAX_UNIFORMS
    ensures offset <= 64 * k
  {
    BlockSize(decls[..k])
  }

  /** Each uniform starts where the one declared before it ends. */
  lemma UniformOffsetsAdvance(decls: seq<UniformDesc>, k: nat)
    requires k < |decls| <= MAX_UNIFORMS
    ensures UniformOffset(decls, k + 1) == UniformOffset(decls, k) + SizeOfType(decls[k].uniformType)
  {
    assert decls[..k + 1][..k] == decls[..k];
  }

  /**
   * The layout a linked shader ends up with: entry k holds the k-th declared
   * uniform, its reflected location and its offset; the entries after the
   * declared ones keep what the slot held before.
   */
  function UniformLayout(prev: UniformArray, decls: seq<UniformDesc>, location: string -> int): UniformArray
    requires |decls| <= MAX_UNIFORMS
  {
    var layout := seq(MAX_UNIFORMS, k requires 0 <= k < MAX_UNIFORMS =>
      if k < |decls| then GLUniform(location(decls[k].name), decls[k].uniformType, UniformOffset(decls, k))
      else prev[k]);
    assert |layout| == MAX_UNIFORMS;
    layout
  }

  /**
   * The uniform loop of `GLShader::create`: `uniform_idx` and a `uint16_t`
   * running offset. The wrap-around of the offset never happens, because
   * sixteen uniforms take at most 1024 bytes.
   */
  method BuildUniformLayout(prev: UniformArray, decls: seq<UniformDesc>, location: string -> int)
      returns (layout: UniformArray)
    requires |decls| <= MAX_UNIFORMS
    ensures layout == UniformLayout(prev, decls, location)
  {
    layout := prev;
    var uniformIdx := 0;
    var offset: u16 := 0;
    while uniformIdx < |decls|
      invariant 0 <= uniformIdx <= |decls|
      invariant offset == BlockSize(decls[..uniformIdx])
      invariant forall k :: 0 <= k < MAX_UNIFORMS ==>
        layout[k] == if k < uniformIdx then GLUniform(location(decls[k].name), decls[k].uniformType, UniformOffset(decls, k))
                     else prev[k]
    {
      var uniformDesc := decls[uniformIdx];
      layout := layout[uniformIdx := GLUniform(location(uniformDesc.name), uniformDesc.uniformType, offset)];
      assert decls[..uniformIdx + 1][..uniformIdx] == decls[..uniformIdx];
      offset := Add16(offset, SizeOfType(uniformDesc.uniformType));
      uniformIdx := uniformIdx + 1;
    }
  }

  /** One sampler entry per texture name, in declaration order, at the location reflected for that name. */
  function SamplerEntries(names: seq<string>, location: string -> int): seq<GLShaderTexture>
  {
    seq(|names|, i requires 0 <= i < |names| => GLShaderTexture(location(names[i])))
  }

  /** What the driver reports while a shader is built: the failing step, or the program it linked. */
  datatype ShaderBuild = VertexFailed | FragmentFailed | LinkFailed(program: nat) | Linked(program: nat)

  /**
   * The shader slot after `GLShader::create`: a failed compile returns before
   * anything is written; a failed link has already stored the program name;
   * only a linked program gets its layout and its sampler entries, which are
   * appended to those the slot already had.
   */
  function CreatedShader(prev: GLShader, desc: ShaderDesc, build: ShaderBuild, location: string -> int): GLShader
    requires build.Linked? ==> |desc.uniformsLayout.uniforms| <= MAX_UNIFORMS
  {
    match build
    case VertexFailed => prev
    case FragmentFailed => prev
    case LinkFailed(program) => prev.(id := program)
    case Linked(program) =>
      GLShader(UniformLayout(prev.uniforms, desc.uniformsLayout.uniforms, location),
               prev.shaderTextures + SamplerEntries(desc.textureNames, location),
               program)
  }

  /** `GLShader::create` on the current contents of a slot. */
  method CreateShader(prev: GLShader, desc: ShaderDesc, build: ShaderBuild, location: string -> int)
      returns (shader: GLShader)
    requires build.Linked? ==> |desc.uniformsLayout.uniforms| <= MAX_UNIFORMS
    ensures shader == CreatedShader(prev, desc, build, location)
  {
    shader := prev;
    match build {
      case VertexFailed =>
        return;
      case FragmentFailed =>
        return;
      case LinkFailed(program) =>
        shader := shader.(id := program);
        return;
      case Linked(program) =>
        shader := shader.(id := program);
        var layout := BuildUniformLayout(prev.uniforms, desc.uniformsLayout.uniforms, location);
        var samplers := prev.shaderTextures;
        for i := 0 to |desc.textureNames|
          invariant samplers == prev.shaderTextures + SamplerEntries(desc.textureNames[..i], location)
        {
          samplers := samplers + [GLShaderTexture(location(desc.textureNames[i]))];
        }
        assert desc.textureNames[..|desc.textureNames|] == desc.textureNames;
        shader := shader.(uniforms := layout, shaderTextures := samplers);
    }
  }

  /** A failed compile or link leaves the slot's layout and sampler entries as they were. */
  lemma FailedShaderKeepsLayout(prev: GLShader, desc: ShaderDesc, build: ShaderBuild, location: string -> int)
    requires !build.Linked?
    ensures CreatedShader(prev, desc, build, location).uniforms == prev.uniforms
    ensures CreatedShader(prev, desc, build, location).shaderTextures == prev.shaderTextures
    ensures build.LinkFailed? ==> CreatedShader(prev, desc, build, location).id == build.program
    ensures !build.LinkFailed? ==> CreatedShader(prev, desc, build, location) == prev
  {
  }

  /**
   * A linked shader: the k-th declared uniform sits at the sum of the sizes
   * declared before it, and there is one new sampler entry per texture name,
   * in order.
   */
  lemma LinkedShaderLayout(prev: GLShader, desc: ShaderDesc, program: nat, location: string -> int, k: nat)
    requires |desc.uniformsLayout.uniforms| <= MAX_UNIFORMS && k < |desc.uniformsLayout.uniforms|
    ensures CreatedShader(prev, desc, Linked(program), location).uniforms[k].offset == BlockSize(desc.uniformsLayout.uniforms[..k])
    ensures CreatedShader(prev, desc, Linked(program), location).uniforms[k].uniformType == desc.uniformsLayout.uniforms[k].uniformType
    ensures |CreatedShader(prev, desc, Linked(program), location).shaderTextures| == |prev.shaderTextures| + |desc.textureNames|
    ensures forall i :: 0 <= i < |desc.textureNames| ==>
      CreatedShader(prev, desc, Linked(program), location).shaderTextures[|prev.shaderTextures| + i]
        == GLShaderTexture(location(desc.textureNames[i]))
  {
    var decls := desc.uniformsLayout.uniforms;
    assert CreatedShader(prev, desc, Linked(program), location).uniforms[k]
      == GLUniform(location(decls[k].name), decls[k].uniformType, UniformOffset(decls, k));
  }

  /** The layout `[MAT4, FLOAT3]` puts the FLOAT3 at byte 64. */
  lemma Mat4ThenFloat3(a: string, b: string)
    ensures UniformOffset([UniformDesc(a, MAT4), UniformDesc(b, UniformType.FLOAT3)], 1) == 64
  {
    assert [UniformDesc(a, MAT4), UniformDesc(b, UniformType.FLOAT3)][..1] == [UniformDesc(a, MAT4)];
    assert [UniformDesc(a, MAT4)][..0] == [];
  }

  // ---------------------------------------------------------------------------
  // Uniform upload (GLRenderer::set_uniforms)

  /** The calls of `set_uniforms` for the given layout entries, appended entry by entry. */
  function UploadCommands(layout: seq<GLUniform>): (cmds: seq<GLCommand>)
    ensures |cmds| == |layout|
  {
    if layout == [] then []
    else
      var last := layout[|layout| - 1];
      UploadCommands(layout[..|layout| - 1]) + [UploadUniform(last.uniformType, last.loc, last.offset)]
  }

  /** One upload per layout entry, in layout order, reading at that entry's offset. */
  lemma {:induction false} UploadCommandsInOrder(layout: seq<GLUniform>)
    ensures forall k :: 0 <= k < |layout| ==>
      UploadCommands(layout)[k] == UploadUniform(layout[k].uniformType, layout[k].loc, layout[k].offset)
  {
    if layout != [] {
      UploadCommandsInOrder(layout[..|layout| - 1]);
    }
  }

  /**
   * After a shader is linked, `set_uniforms` reads the k-th declared uniform
   * at the sum of the sizes declared before it, whatever the uniforms' names.
   */
  lemma UploadReadsDeclaredOffset(prev: GLShader, desc: ShaderDesc, program: nat, location: string -> int, k: nat)
    requires |desc.uniformsLayout.uniforms| <= MAX_UNIFORMS && k < |desc.uniformsLayout.uniforms|
    ensures var decl := desc.uniformsLayout.uniforms[k];
      UploadCommands(CreatedShader(prev, desc, Linked(program), location).uniforms)[k]
        == UploadUniform(decl.uniformType, location(decl.name), BlockSize(desc.uniformsLayout.uniforms[..k]))
  {
    UploadCommandsInOrder(CreatedShader(prev, desc, Linked(program), location).uniforms);
    LinkedShaderLayout(prev, desc, program, location, k);
  }

  // ---------------------------------------------------------------------------
  // Vertex layout (GLRenderer::new_pipeline)

  /** `get_gl_type_size(type) * size` for one attribute. */
  function AttributeBytes(f: AttributeFormat): nat
  {
    TypeSize(AttributeType(f)) * AttributeSize(f)
  }

  /** The summed attribute sizes of the given attributes, in the units `get_gl_type_size` gives. */
  function VertexSize(attrs: seq<VertexAttribute>): (size: nat)
    ensures size <= 96 * |attrs|
  {
    if attrs == [] then 0
    else VertexSize(attrs[..|attrs| - 1]) + AttributeBytes(attrs[|attrs| - 1].format)
  }

  /**
   * What the first attribute loop of `new_pipeline` leaves: attribute i gets
   * its format's GL type and component count and an offset equal to the sizes
   * of the attributes before it. The `index` member is never written.
   */
  function OffsetLayout(prev: GLAttributeArray, layout: VertexLayout): GLAttributeArray
  {
    var attrs := seq(MAX_ATTRIBUTES, i requires 0 <= i < MAX_ATTRIBUTES => OffsetEntry(prev[i], layout, i));
    assert |attrs| == MAX_ATTRIBUTES;
    attrs
  }

  /** Entry i of the offset layout, from the record it overwrites. */
  function OffsetEntry(prev: GLVertexAttribute, layout: VertexLayout, i: nat): GLVertexAttribute
    requires i < MAX_ATTRIBUTES
  {
    var f := layout.attributes[i].format;
    prev.(glType := AttributeType(f), size := AttributeSize(f), offset := VertexSize(layout.attributes[..i]))
  }

  /** The attribute records of a new pipeline: the offset layout, every entry with the same stride, the sum over all sixteen. */
  function AttributeLayout(prev: GLAttributeArray, layout: VertexLayout): GLAttributeArray
  {
    var offsets := OffsetLayout(prev, layout);
    var attrs := seq(MAX_ATTRIBUTES, i requires 0 <= i < MAX_ATTRIBUTES => offsets[i].(stride := VertexSize(layout.attributes)));
    assert |attrs| == MAX_ATTRIBUTES;
    attrs
  }

  /** The first loop of `new_pipeline`: type, size and running offset, per attribute. */
  method BuildOffsets(prev: GLAttributeArray, layout: VertexLayout) returns (attrs: GLAttributeArray, offset: nat)
    ensures attrs == OffsetLayout(prev, layout)
    ensures offset == VertexSize(layout.attributes)
  {
    attrs := prev;
    offset := 0;
    for i := 0 to MAX_ATTRIBUTES
      invariant offset == VertexSize(layout.attributes[..i])
      invariant forall j :: 0 <= j < i ==> attrs[j] == OffsetEntry(prev[j], layout, j)
      invariant forall j :: i <= j < MAX_ATTRIBUTES ==> attrs[j] == prev[j]
    {
      var f := layout.attributes[i].format;
      var glType := AttributeType(f);
      var size := AttributeSize(f);
      attrs := attrs[i := attrs[i].(glType := glType, size := size, offset := offset)];
      assert layout.attributes[..i + 1][..i] == layout.attributes[..i];
      offset := offset + TypeSize(glType) * size;
    }
    assert layout.attributes[..MAX_ATTRIBUTES] == layout.attributes;
    assert forall j :: 0 <= j < MAX_ATTRIBUTES ==> attrs[j] == OffsetLayout(prev, layout)[j];
  }

  /** The two attribute loops of `new_pipeline`: offsets first, then the total as every stride. */
  method BuildAttributes(prev: GLAttributeArray, layout: VertexLayout) returns (attrs: GLAttributeArray)
    ensures attrs == AttributeLayout(prev, layout)
  {
    var offset;
    attrs, offset := BuildOffsets(prev, layout);
    ghost var unstrided := attrs;
    for i := 0 to MAX_ATTRIBUTES
      invariant forall j :: 0 <= j < MAX_ATTRIBUTES ==>
        attrs[j] == if j < i then unstrided[j].(stride := offset) else unstrided[j]
    {
      attrs := attrs[i := attrs[i].(stride := offset)];
    }
  }

  /** Each attribute starts where the one before it ends, and the stride is where the last one ends. */
  lemma AttributeOffsetsAdvance(prev: GLAttributeArray, layout: VertexLayout, i: nat)
    requires i < MAX_ATTRIBUTES
    ensures AttributeLayout(prev, layout)[0].offset == 0
    ensures i + 1 < MAX_ATTRIBUTES ==>
      AttributeLayout(prev, layout)[i + 1].offset == AttributeLayout(prev, layout)[i].offset + AttributeBytes(layout.attributes[i].format)
    ensures AttributeLayout(prev, layout)[i].stride
      == AttributeLayout(prev, layout)[MAX_ATTRIBUTES - 1].offset + AttributeBytes(layout.attributes[MAX_ATTRIBUTES - 1].format)
  {
    assert layout.attributes[..0] == [];
    assert layout.attributes[..i + 1][..i] == layout.attributes[..i];
    assert layout.attributes[..MAX_ATTRIBUTES][..MAX_ATTRIBUTES - 1] == layout.attributes[..MAX_ATTRIBUTES - 1];
    assert layout.attributes[..MAX_ATTRIBUTES] == layout.attributes;
  }

  /**
   * A layout of FLOAT3 then FLOAT2 with every other entry FLOAT4: offsets 0
   * and 96 (32 per float component, as `get_gl_type_size` is written), and
   * since FLOAT4 has no table entry it adds nothing, so the stride is 160.
   */
  lemma Float3ThenFloat2Layout(prev: GLAttributeArray, layout: VertexLayout)
    requires layout.attributes[0].format == AttributeFormat.FLOAT3
    requires layout.attributes[1].format == AttributeFormat.FLOAT2
    requires forall i :: 2 <= i < MAX_ATTRIBUTES ==> layout.attributes[i].format == AttributeFormat.FLOAT4
    ensures AttributeLayout(prev, layout)[1].offset == 96
    ensures AttributeLayout(prev, layout)[0].stride == 160
  {
    AttributeOffsetsAdvance(prev, layout, 0);
    var k := 2;
    while k < MAX_ATTRIBUTES
      invariant 2 <= k <= MAX_ATTRIBUTES
      invariant VertexSize(layout.attributes[..k]) == 160
    {
      assert layout.attributes[..k + 1][..k] == layout.attributes[..k];
      k := k + 1;
    }
    assert layout.attributes[..2][..1] == layout.attributes[..1];
    assert layout.attributes[..1][..0] == [];
    assert layout.attributes[..MAX_ATTRIBUTES] == layout.attributes;
  }

  /** The attribute calls of `set_bindings` for the given slots, appended slot by slot. */
  function AttribPointerCommands(attrs: seq<GLVertexAttribute>): (cmds: seq<GLCommand>)
    ensures |cmds| == 2 * |attrs|
  {
    if attrs == [] then []
    else
      var n := |attrs| - 1;
      var a := attrs[n];
      AttribPointerCommands(attrs[..n]) + [VertexAttribPointer(n, a.size, a.glType, a.stride, a.offset), EnableVertexAttribArray(n)]
  }

  /** For each slot in order, the pointer with the slot's record, then the enable. */
  lemma {:induction false} AttribPointerCommandsInOrder(attrs: seq<GLVertexAttribute>)
    ensures forall i :: 0 <= i < |attrs| ==>
      && AttribPointerCommands(attrs)[2 * i] == VertexAttribPointer(i, attrs[i].size, attrs[i].glType, attrs[i].stride, attrs[i].offset)
      && AttribPointerCommands(attrs)[2 * i + 1] == EnableVertexAttribArray(i)
  {
    if attrs != [] {
      AttribPointerCommandsInOrder(attrs[..|attrs| - 1]);
    }
  }

  // ---------------------------------------------------------------------------
  // Texture bindings (GLRenderer::set_bindings)

  /** More textures bound than the shader has sampler names: `set_bindings` gives up on textures. */
  predicate TooManyTextures(bound: seq<u32>, samplers: seq<GLShaderTexture>)
  {
    |bound| > |samplers|
  }

  /** The texture calls of `set_bindings` for the given bound textures, appended texture by texture. */
  function TextureBindCommands(bound: seq<u32>, table: seq<GLTexture>, samplers: seq<GLShaderTexture>): (cmds: seq<GLCommand>)
    requires |bound| <= |samplers|
    requires forall k :: 0 <= k < |bound| ==> bound[k] < |table|
    ensures |cmds| == 3 * |bound|
  {
    if bound == [] then []
    else
      var n := |bound| - 1;
      TextureBindCommands(bound[..n], table, samplers)
        + [ActiveTexture(GL_TEXTURE0 + n), BindTexture(GL_TEXTURE_2D, table[bound[n]].id), Uniform1i(samplers[n].uniformLoc, n)]
  }

  /** Texture i goes to texture unit i, and sampler i is told to read unit i. */
  lemma {:induction false} TextureBindCommandsByUnit(bound: seq<u32>, table: seq<GLTexture>, samplers: seq<GLShaderTexture>)
    requires |bound| <= |samplers|
    requires forall k :: 0 <= k < |bound| ==> bound[k] < |table|
    ensures forall i :: 0 <= i < |bound| ==>
      && TextureBindCommands(bound, table, samplers)[3 * i] == ActiveTexture(GL_TEXTURE0 + i)
      && TextureBindCommands(bound, table, samplers)[3 * i + 1] == BindTexture(GL_TEXTURE_2D, table[bound[i]].id)
      && TextureBindCommands(bound, table, samplers)[3 * i + 2] == Uniform1i(samplers[i].uniformLoc, i)
  {
    if bound != [] {
      TextureBindCommandsByUnit(bound[..|bound| - 1], table, samplers);
    }
  }

  /** The buffer and attribute part of `set_bindings` binds no texture unit and sets no sampler. */
  lemma AttribCommandsTouchNoTexture(attrs: seq<GLVertexAttribute>, c: GLCommand)
    requires c in AttribPointerCommands(attrs)
    ensures !c.ActiveTexture? && !c.BindTexture? && !c.Uniform1i?
  {
    var k :| 0 <= k < |AttribPointerCommands(attrs)| && AttribPointerCommands(attrs)[k] == c;
    AttribPointerCommandsInOrder(attrs);
    assert AttribPointerCommands(attrs)[2 * (k / 2)] == VertexAttribPointer(k / 2, attrs[k / 2].size, attrs[k / 2].glType, attrs[k / 2].stride, attrs[k / 2].offset);
  }

  // ---------------------------------------------------------------------------
  // begin_pass and draw

  /** The `glClear` mask of a pass action: one bit per attachment whose action is CLEAR. */
  function ClearMask(action: PassAction): (mask: bv32)
    ensures (mask & GL_COLOR_BUFFER_BIT != 0) <==> action.colorAction.action == CLEAR
    ensures (mask & GL_DEPTH_BUFFER_BIT != 0) <==> action.depthAction.action == CLEAR
    ensures (mask & GL_STENCIL_BUFFER_BIT != 0) <==> action.stencilAction.action == CLEAR
    ensures mask & !(GL_COLOR_BUFFER_BIT | GL_DEPTH_BUFFER_BIT | GL_STENCIL_BUFFER_BIT) == 0
  {
    (if action.colorAction.action == CLEAR then GL_COLOR_BUFFER_BIT else 0)
    | (if action.depthAction.action == CLEAR then GL_DEPTH_BUFFER_BIT else 0)
    | (if action.stencilAction.action == CLEAR then GL_STENCIL_BUFFER_BIT else 0)
  }

  /** The default pass action clears colour, depth and stencil. */
  lemma DefaultPassActionClearsAll()
    ensures ClearMask(DEFAULT_PASS_ACTION) == GL_COLOR_BUFFER_BIT | GL_DEPTH_BUFFER_BIT | GL_STENCIL_BUFFER_BIT
  {
  }

  /**
   * The draw call `draw` makes: none for zero instances; otherwise a
   * non-indexed draw from `first` when the pipeline has no index type, and
   * an indexed draw of `count` indices from offset 0 (ignoring `first`)
   * when it has one. Any positive instance count draws once.
   */
  function DrawCommands(mode: nat, indexType: nat, first: u32, count: u32, instances: u32): (cmds: seq<GLCommand>)
    ensures cmds == [] <==> instances == 0
    ensures |cmds| <= 1
    ensures forall c :: c in cmds ==> (c.DrawArrays? || c.DrawElements?) && (c.DrawArrays? <==> indexType == GL_NONE) && c.mode == mode
    ensures forall c :: c in cmds && c.DrawArrays? ==> c.first == first && c.count == count
    ensures forall c :: c in cmds && c.DrawElements? ==> c.count == count && c.elementType == indexType && c.indexOffset == 0
  {
    if instances > 0 then
      if indexType == GL_NONE then [DrawArrays(mode, first, count)]
      else [DrawElements(mode, count, indexType, 0)]
    else []
  }

  /** `draw(0, n, 1)` on a pipeline built with index type NONE draws n vertices; with UINT16, n indices. */
  lemma DrawSelectsByIndexType(mode: nat, n: u32)
    ensures DrawCommands(mode, IndexTypeGl(IndexType.NONE), 0, n, 1) == [DrawArrays(mode, 0, n)]
    ensures DrawCommands(mode, IndexTypeGl(UINT16), 0, n, 1) == [DrawElements(mode, n, GL_UNSIGNED_SHORT, 0)]
  {
  }

  // ---------------------------------------------------------------------------
  // The backend object

  /** A pipeline slot after `new_pipeline`: shader pointer, mapped index type and attribute layout. */
  function CreatedPipeline(prev: GLPipeline, desc: PipelineDesc): GLPipeline
    requires desc.shader < MAX_SHADERS
  {
    prev.(shader := Some(desc.shader), indexType := IndexTypeGl(desc.indexType),
          attributes := AttributeLayout(prev.attributes, desc.layout))
  }

  class GLRenderer {
    const buffers: array<GLBuffer>
    const textures: array<GLTexture>
    const shaders: array<GLShader>
    const renderPasses: array<GLRenderPass>
    const pipelines: array<GLPipeline>
    var state: GLState
    /** Every GL call made so far, oldest first. */
    var trace: seq<GLCommand>

    /**
     * The table sizes and the sixteen texture-binding slots; every pipeline keeps the default topology, since no
     * operation writes `pipeline_common`; and the current pipeline (if any)
     * points at a shader.
     */
    ghost predicate Valid()
      reads this, pipelines
    {
      && buffers.Length == MAX_BUFFERS
      && textures.Length == MAX_TEXTURES
      && shaders.Length == MAX_SHADERS
      && renderPasses.Length == MAX_RENDER_PASSES
      && pipelines.Length == MAX_PIPELINES
      && (forall h :: 0 <= h < MAX_PIPELINES ==> pipelines[h].pipelineCommon == TRIANGLES)
      && |state.textures| == MAX_SHADER_TEXTURES
      && (state.currentPip.Some? ==> pipelines[state.currentPip.value].shader.Some?)
    }

    /** The static backend object: zero-initialised tables and state, no GL call made yet. */
    constructor ()
      ensures Valid() && trace == [] && state == INITIAL_STATE
      ensures fresh(buffers) && fresh(textures) && fresh(shaders) && fresh(renderPasses) && fresh(pipelines)
      ensures forall h :: 0 <= h < MAX_BUFFERS ==> buffers[h] == ZERO_BUFFER
      ensures forall h :: 0 <= h < MAX_TEXTURES ==> textures[h] == ZERO_TEXTURE
      ensures forall h :: 0 <= h < MAX_SHADERS ==> shaders[h] == ZERO_SHADER
      ensures forall h :: 0 <= h < MAX_RENDER_PASSES ==> renderPasses[h] == ZERO_RENDER_PASS
      ensures forall h :: 0 <= h < MAX_PIPELINES ==> pipelines[h] == ZERO_PIPELINE
    {
      buffers := new GLBuffer[MAX_BUFFERS](_ => ZERO_BUFFER);
      textures := new GLTexture[MAX_TEXTURES](_ => ZERO_TEXTURE);
      shaders := new GLShader[MAX_SHADERS](_ => ZERO_SHADER);
      renderPasses := new GLRenderPass[MAX_RENDER_PASSES](_ => ZERO_RENDER_PASS);
      pipelines := new GLPipeline[MAX_PIPELINES](_ => ZERO_PIPELINE);
      state := INITIAL_STATE;
      trace := [];
    }

    /**
     * `init`: when the GL loader fails nothing else happens; otherwise the
     * generated vertex array is bound and kept, and the framebuffer binding
     * the driver reports is kept as the default framebuffer.
     */
    method Init(loaderOk: bool, vao: nat, defaultFramebuffer: nat)
      requires Valid()
      modifies this`state, this`trace
      ensures Valid()
      ensures !loaderOk ==> state == old(state) && trace == old(trace)
      ensures loaderOk ==> state == old(state).(globalVao := vao, defaultFramebuffer := defaultFramebuffer)
      ensures loaderOk ==> trace == old(trace) + [BindVertexArray(vao)]
    {
      if !loaderOk {
        return;
      }
      state := state.(globalVao := vao);
      trace := trace + [BindVertexArray(vao)];
      state := state.(defaultFramebuffer := defaultFramebuffer);
    }

    /** `shutdown`: deletes the global vertex array. */
    method Shutdown()
      requires Valid()
      modifies this`trace
      ensures trace == old(trace) + [DeleteVertexArrays(state.globalVao)]
    {
      trace := trace + [DeleteVertexArrays(state.globalVao)];
    }

    /**
     * `begin_pass`: a null pass binds the default framebuffer; then exactly
     * one clear with the mask of the pass action, possibly empty.
     */
    method BeginPass(pass: Option<nat>, action: PassAction)
      requires Valid()
      modifies this`trace
      ensures trace == old(trace)
        + (if pass.None? then [BindFramebuffer(GL_FRAMEBUFFER, state.defaultFramebuffer)] else [])
        + [Clear(ClearMask(action))]
    {
      if pass.None? {
        trace := trace + [BindFramebuffer(GL_FRAMEBUFFER, state.defaultFramebuffer)];
      }
      var bufferBit: bv32 := 0;
      if action.colorAction.action == CLEAR {
        bufferBit := bufferBit | GL_COLOR_BUFFER_BIT;
      }
      if action.depthAction.action == CLEAR {
        bufferBit := bufferBit | GL_DEPTH_BUFFER_BIT;
      }
      if action.stencilAction.action == CLEAR {
        bufferBit := bufferBit | GL_STENCIL_BUFFER_BIT;
      }
      trace := trace + [Clear(bufferBit)];
    }

    /** `set_pipeline`: points `current_pip` at the table entry and uses its shader's program. */
    method SetPipeline(pipe: nat)
      requires Valid()
      requires pipe < MAX_PIPELINES && pipelines[pipe].shader.Some?
      modifies this`state, this`trace
      ensures Valid()
      ensures state == old(state).(currentPip := Some(pipe))
      ensures trace == old(trace) + [UseProgram(shaders[pipelines[pipe].shader.value].id)]
    {
      state := state.(currentPip := Some(pipe));
      trace := trace + [UseProgram(shaders[pipelines[pipe].shader.value].id)];
    }

    /**
     * `set_bindings`: binds the index buffer and (to `GL_VERTEX_ARRAY`, as
     * written) the vertex buffer, sets up all sixteen attributes of the
     * current pipeline, and then, unless more textures are bound than the
     * shader has sampler names, binds texture i to unit i for sampler i.
     */
    method SetBindings(bind: Bindings)
      requires Valid() && state.currentPip.Some?
      requires bind.vertexBuffer < MAX_BUFFERS && bind.indexBuffer < MAX_BUFFERS
      requires var samplers := shaders[pipelines[state.currentPip.value].shader.value].shaderTextures;
        !TooManyTextures(bind.textures, samplers) ==> forall k :: 0 <= k < |bind.textures| ==> bind.textures[k] < MAX_TEXTURES
      modifies this`trace
      ensures var pip := pipelines[state.currentPip.value];
        var samplers := shaders[pip.shader.value].shaderTextures;
        trace == old(trace)
          + [BindBuffer(GL_ELEMENT_ARRAY_BUFFER, buffers[bind.indexBuffer].id),
             BindBuffer(GL_VERTEX_ARRAY, buffers[bind.vertexBuffer].id)]
          + AttribPointerCommands(pip.attributes)
          + (if TooManyTextures(bind.textures, samplers) then []
             else TextureBindCommands(bind.textures, textures[..], samplers))
    {
      var pip := pipelines[state.currentPip.value];
      var samplers := shaders[pip.shader.value].shaderTextures;
      ghost var table := textures[..];
      var buffersBound := [BindBuffer(GL_ELEMENT_ARRAY_BUFFER, buffers[bind.indexBuffer].id),
                           BindBuffer(GL_VERTEX_ARRAY, buffers[bind.vertexBuffer].id)];
      trace := trace + buffersBound;
      PointAttributes(pip.attributes);
      assert trace == old(trace) + buffersBound + AttribPointerCommands(pip.attributes);
      if |bind.textures| > |samplers| {
        return;
      }
      BindTextures(bind.textures, samplers);
      assert textures[..] == table;
    }

    /** The attribute loop of `set_bindings`. */
    method PointAttributes(attrs: GLAttributeArray)
      modifies this`trace
      ensures trace == old(trace) + AttribPointerCommands(attrs)
    {
      for i := 0 to MAX_ATTRIBUTES
        invariant trace == old(trace) + AttribPointerCommands(attrs[..i])
      {
        var attr := attrs[i];
        assert attrs[..i + 1][..i] == attrs[..i];
        trace := trace + [VertexAttribPointer(i, attr.size, attr.glType, attr.stride, attr.offset),
                          EnableVertexAttribArray(i)];
      }
      assert attrs[..MAX_ATTRIBUTES] == attrs;
    }

    /** The texture loop of `set_bindings`, once the count has passed the guard. */
    method BindTextures(bound: seq<u32>, samplers: seq<GLShaderTexture>)
      requires Valid() && |bound| <= |samplers|
      requires forall k :: 0 <= k < |bound| ==> bound[k] < MAX_TEXTURES
      modifies this`trace
      ensures trace == old(trace) + TextureBindCommands(bound, textures[..], samplers)
    {
      var textureIdx := 0;
      while textureIdx < |bound|
        invariant 0 <= textureIdx <= |bound|
        invariant trace == old(trace) + TextureBindCommands(bound[..textureIdx], textures[..], samplers)
      {
        var glTexture := textures[bound[textureIdx]];
        assert bound[..textureIdx + 1][..textureIdx] == bound[..textureIdx];
        trace := trace + [ActiveTexture(GL_TEXTURE0 + textureIdx),
                          BindTexture(GL_TEXTURE_2D, glTexture.id),
                          Uniform1i(samplers[textureIdx].uniformLoc, textureIdx)];
        textureIdx := textureIdx + 1;
      }
      assert bound[..|bound|] == bound;
    }

    /** `set_uniforms`: one upload per entry of the current shader's sixteen-entry layout, in order. */
    method SetUniforms(mem: Memory)
      requires Valid() && state.currentPip.Some?
      modifies this`trace
      ensures trace == old(trace) + UploadCommands(shaders[pipelines[state.currentPip.value].shader.value].uniforms)
    {
      var layout := shaders[pipelines[state.currentPip.value].shader.value].uniforms;
      ghost var before := trace;
      for k := 0 to MAX_UNIFORMS
        invariant trace == before + UploadCommands(layout[..k])
      {
        var glUniform := layout[k];
        assert layout[..k + 1][..k] == layout[..k];
        trace := trace + [UploadUniform(glUniform.uniformType, glUniform.loc, glUniform.offset)];
      }
      assert layout[..MAX_UNIFORMS] == layout;
    }

    /** `draw` with the current pipeline's topology and index type. */
    method Draw(firstElement: u32, numElements: u32, numInstances: u32)
      requires Valid() && state.currentPip.Some?
      modifies this`trace
      ensures trace == old(trace) + DrawCommands(
        PrimitiveTypeGl(pipelines[state.currentPip.value].pipelineCommon),
        pipelines[state.currentPip.value].indexType, firstElement, numElements, numInstances)
      ensures trace == old(trace) + DrawCommands(
        GL_TRIANGLES, pipelines[state.currentPip.value].indexType, firstElement, numElements, numInstances)
    {
      var primitive := PrimitiveTypeGl(pipelines[state.currentPip.value].pipelineCommon);
      var iType := pipelines[state.currentPip.value].indexType;
      if numInstances > 0 {
        if iType == GL_NONE {
          trace := trace + [DrawArrays(primitive, firstElement, numElements)];
        } else {
          trace := trace + [DrawElements(primitive, numElements, iType, 0)];
        }
      }
    }

    method SetViewport(rect: Rect)
      requires Valid()
      modifies this`trace
      ensures trace == old(trace) + [Viewport(rect.x, rect.y, rect.width, rect.height)]
    {
      trace := trace + [Viewport(rect.x, rect.y, rect.width, rect.height)];
    }

    method SetScissor(rect: Rect)
      requires Valid()
      modifies this`trace
      ensures trace == old(trace) + [Scissor(rect.x, rect.y, rect.width, rect.height)]
    {
      trace := trace + [Scissor(rect.x, rect.y, rect.width, rect.height)];
    }

    /** `new_buffer`: stores the generated name in slot h, uploads the data, enables depth testing. */
    method NewBuffer(h: nat, desc: BufferDesc, name: nat) returns (ok: bool)
      requires Valid() && h < MAX_BUFFERS
      modifies buffers, this`trace
      ensures Valid() && ok
      ensures buffers[..] == old(buffers[..])[h := GLBuffer(name)]
      ensures trace == old(trace) + [BindBuffer(BufferTypeGl(desc.bufferType), name),
                                     BufferData(BufferTypeGl(desc.bufferType), desc.mem.size),
                                     Enable(GL_DEPTH_TEST)]
    {
      var glBufferType := BufferTypeGl(desc.bufferType);
      buffers[h] := buffers[h].(id := name);
      trace := trace + [BindBuffer(glBufferType, name), BufferData(glBufferType, desc.mem.size), Enable(GL_DEPTH_TEST)];
      ok := true;
    }

    /**
     * `new_texture`: stores the generated name in slot h and uploads the
     * pixels. `GLTexture::create` assigns the target to a local variable, so
     * the slot's `target` member keeps its old value; mipmaps are generated
     * whatever `generate_mip_maps` says.
     */
    method NewTexture(h: nat, desc: TextureDesc, name: nat) returns (ok: bool)
      requires Valid() && h < MAX_TEXTURES
      modifies textures, this`trace
      ensures Valid() && ok
      ensures textures[..] == old(textures[..])[h := old(textures[h]).(id := name)]
      ensures var target := TextureTarget(desc.textureType);
        trace == old(trace) + [BindTexture(target, name),
                               TexImage2D(target, GL_RGB, desc.width, desc.height, TextureFormatGl(desc.format)),
                               GenerateMipmap(target)]
    {
      var target := TextureTarget(desc.textureType);
      var format := TextureFormatGl(desc.format);
      textures[h] := textures[h].(id := name);
      trace := trace + [BindTexture(target, name), TexImage2D(target, GL_RGB, desc.width, desc.height, format), GenerateMipmap(target)];
      ok := true;
    }

    /** `new_shader`: runs `GLShader::create` on slot h and reports success whatever the build did. */
    method NewShader(h: nat, desc: ShaderDesc, build: ShaderBuild, location: string -> int) returns (ok: bool)
      requires Valid() && h < MAX_SHADERS
      requires build.Linked? ==> |desc.uniformsLayout.uniforms| <= MAX_UNIFORMS
      modifies shaders
      ensures Valid() && ok
      ensures shaders[..] == old(shaders[..])[h := CreatedShader(old(shaders[h]), desc, build, location)]
    {
      var shader := CreateShader(shaders[h], desc, build, location);
      shaders[h] := shader;
      ok := true;
    }

    /** `new_pass` is not implemented by this backend: it reports failure and changes nothing. */
    method NewPass(h: nat, desc: RenderPassDesc) returns (ok: bool)
      requires Valid()
      ensures !ok
    {
      ok := false;
    }

    /** `new_pipeline`: fills slot h from the descriptor and reports success. */
    method NewPipeline(h: nat, desc: PipelineDesc) returns (ok: bool)
      requires Valid() && h < MAX_PIPELINES && desc.shader < MAX_SHADERS
      modifies pipelines
      ensures Valid() && ok
      ensures pipelines[..] == old(pipelines[..])[h := CreatedPipeline(old(pipelines[h]), desc)]
    {
      var pipe := pipelines[h];
      var attrs := BuildAttributes(pipe.attributes, desc.layout);
      pipelines[h] := pipe.(shader := Some(desc.shader), indexType := IndexTypeGl(desc.indexType), attributes := attrs);
      ok := true;
    }
  }
}
