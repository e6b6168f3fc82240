/**
 * The front-end facade `gfx::Renderer` (molten-core/src/gfx/renderer.h,
 * renderer.cpp). It owns one `uint32_t` handle counter per resource kind
 * and the table of pass records; every call is forwarded to the backend
 * selected at build time. The backend is abstract here: the facade keeps
 * the sequence of calls it has forwarded. The boolean a backend returns
 * from `new_*` is discarded by the source and never reaches the facade.
 */
module Facade {
  import opened Uint
  import opened Wrappers
  import GfxTypes
  import FacadeTypes

  /** A call forwarded to the backend; a pass is forwarded as the index of its record in `_passes`, None for null. */
  datatype BackendCall =
    | Init(info: nat)
    | Shutdown
    | Draw(firstElement: u32, numElements: u32, numInstances: u32)
    | SetViewport(rect: GfxTypes.Rect)
    | SetScissor(rect: GfxTypes.Rect)
    | BeginPass(pass: Option<nat>, action: GfxTypes.PassAction)
    | SetPipeline(pipe: u32)
    | SetBindings(bind: FacadeTypes.Bindings)
    | SetUniforms(stage: GfxTypes.ShaderStage, mem: GfxTypes.Memory)
    | NewBuffer(h: u32, bufferDesc: FacadeTypes.BufferDesc)
    | NewTexture(h: u32, textureDesc: FacadeTypes.TextureDesc)
    | NewShader(h: u32, shaderDesc: FacadeTypes.ShaderDesc)
    | NewPass(h: u32)
    | NewPipeline(h: u32, pipelineDesc: FacadeTypes.PipelineDesc)

  /** The handle returned by the (k+1)-th `new_X` of one kind, for a counter that started at `start`. */
  function NthHandle(start: u32, k: nat): u32
  {
    if k == 0 then start else Inc32(NthHandle(start, k - 1))
  }

  /** The k-th handle is the start plus k, modulo 2^32. */
  lemma {:induction false} NthHandleValue(start: u32, k: nat)
    ensures NthHandle(start, k) == (start + k) % U32_MODULUS
  {
    if k > 0 {
      NthHandleValue(start, k - 1);
    }
  }

  /** Two calls of one kind return the same handle exactly when 2^32 calls separate them. */
  lemma HandlesRepeatIff(start: u32, i: nat, j: nat)
    requires i < j
    ensures NthHandle(start, i) == NthHandle(start, j) <==> (j - i) % U32_MODULUS == 0
  {
    NthHandleValue(start, i);
    NthHandleValue(start, j);
  }

  /** No handle is reused within the first 2^32 calls of one kind. */
  lemma HandlesDistinctBeforeWrap(start: u32, i: nat, j: nat)
    requires i < j < U32_MODULUS
    ensures NthHandle(start, i) != NthHandle(start, j)
  {
    HandlesRepeatIff(start, i, j);
  }

  /** `gfx::Renderer` */
  class Renderer {
    var bufferId: u32
    var textureId: u32
    var shaderId: u32
    var passId: u32
    var pipelineId: u32
    /** `PassData _passes[MAX_PASSES]` */
    const passes: array<FacadeTypes.PassData>
    /** The calls forwarded to the backend so far, oldest first. */
    var calls: seq<BackendCall>
    /** How many `new_X` calls of each kind have been made; used by the proofs only. */
    ghost var buffersMade: nat
    ghost var texturesMade: nat
    ghost var shadersMade: nat
    ghost var passesMade: nat
    ghost var pipelinesMade: nat

    /** Each counter is the handle the next `new_X` of its kind returns: its count of calls, from 0, modulo 2^32. */
    ghost predicate Valid()
      reads this
    {
      && passes.Length == GfxTypes.MAX_PASSES
      && bufferId == NthHandle(0, buffersMade)
      && textureId == NthHandle(0, texturesMade)
      && shaderId == NthHandle(0, shadersMade)
      && passId == NthHandle(0, passesMade)
      && pipelineId == NthHandle(0, pipelinesMade)
    }

    /** All five counters start at 0, and the facade owns MAX_PASSES pass records. */
    constructor ()
      ensures Valid() && fresh(passes) && calls == []
      ensures bufferId == 0 && textureId == 0 && shaderId == 0 && passId == 0 && pipelineId == 0
      ensures buffersMade == 0 && texturesMade == 0 && shadersMade == 0 && passesMade == 0 && pipelinesMade == 0
    {
      bufferId, textureId, shaderId, passId, pipelineId := 0, 0, 0, 0, 0;
      passes := new FacadeTypes.PassData[GfxTypes.MAX_PASSES](_ => FacadeTypes.PassData);
      calls := [];
      buffersMade, texturesMade, shadersMade, passesMade, pipelinesMade := 0, 0, 0, 0, 0;
    }

    method Init(info: nat)
      requires Valid()
      modifies this`calls
      ensures calls == old(calls) + [BackendCall.Init(info)]
    {
      calls := calls + [BackendCall.Init(info)];
    }

    method Shutdown()
      requires Valid()
      modifies this`calls
      ensures calls == old(calls) + [BackendCall.Shutdown]
    {
      calls := calls + [BackendCall.Shutdown];
    }

    method Draw(firstElement: u32, numElements: u32, numInstances: u32)
      requires Valid()
      modifies this`calls
      ensures calls == old(calls) + [BackendCall.Draw(firstElement, numElements, numInstances)]
    {
      calls := calls + [BackendCall.Draw(firstElement, numElements, numInstances)];
    }

    method SetViewport(rect: GfxTypes.Rect)
      requires Valid()
      modifies this`calls
      ensures calls == old(calls) + [BackendCall.SetViewport(rect)]
    {
      calls := calls + [BackendCall.SetViewport(rect)];
    }

    method SetScissor(rect: GfxTypes.Rect)
      requires Valid()
      modifies this`calls
      ensures calls == old(calls) + [BackendCall.SetScissor(rect)]
    {
      calls := calls + [BackendCall.SetScissor(rect)];
    }

    /** `begin_pass(p)` forwards the address of `_passes[p]`, so p must index the table. */
    method BeginPass(pass: u32, action: GfxTypes.PassAction)
      requires Valid() && pass < passes.Length
      modifies this`calls
      ensures calls == old(calls) + [BackendCall.BeginPass(Some(pass), action)]
    {
      calls := calls + [BackendCall.BeginPass(Some(pass), action)];
    }

    /** `begin_default_pass` forwards a null pass. */
    method BeginDefaultPass(action: GfxTypes.PassAction)
      requires Valid()
      modifies this`calls
      ensures calls == old(calls) + [BackendCall.BeginPass(None, action)]
    {
      calls := calls + [BackendCall.BeginPass(None, action)];
    }

    method SetPipeline(pipe: u32)
      requires Valid()
      modifies this`calls
      ensures calls == old(calls) + [BackendCall.SetPipeline(pipe)]
    {
      calls := calls + [BackendCall.SetPipeline(pipe)];
    }

    method SetBindings(bind: FacadeTypes.Bindings)
      requires Valid()
      modifies this`calls
      ensures calls == old(calls) + [BackendCall.SetBindings(bind)]
    {
      calls := calls + [BackendCall.SetBindings(bind)];
    }

    method SetUniforms(stage: GfxTypes.ShaderStage, mem: GfxTypes.Memory)
      requires Valid()
      modifies this`calls
      ensures calls == old(calls) + [BackendCall.SetUniforms(stage, mem)]
    {
      calls := calls + [BackendCall.SetUniforms(stage, mem)];
    }

    /** `new_buffer`: hands the current counter to the backend, returns it, and leaves the counter one further on. */
    method NewBuffer(desc: FacadeTypes.BufferDesc) returns (h: u32)
      requires Valid()
      modifies this`bufferId, this`buffersMade, this`calls
      ensures Valid()
      ensures h == old(bufferId) && h == NthHandle(0, old(buffersMade))
      ensures bufferId == Inc32(h) && buffersMade == old(buffersMade) + 1
      ensures calls == old(calls) + [BackendCall.NewBuffer(h, desc)]
    {
      calls := calls + [BackendCall.NewBuffer(bufferId, desc)];
      h := bufferId;
      bufferId := Inc32(bufferId);
      buffersMade := buffersMade + 1;
    }

    method NewTexture(desc: FacadeTypes.TextureDesc) returns (h: u32)
      requires Valid()
      modifies this`textureId, this`texturesMade, this`calls
      ensures Valid()
      ensures h == old(textureId) && h == NthHandle(0, old(texturesMade))
      ensures textureId == Inc32(h) && texturesMade == old(texturesMade) + 1
      ensures calls == old(calls) + [BackendCall.NewTexture(h, desc)]
    {
      calls := calls + [BackendCall.NewTexture(textureId, desc)];
      h := textureId;
      textureId := Inc32(textureId);
      texturesMade := texturesMade + 1;
    }

    method NewShader(desc: FacadeTypes.ShaderDesc) returns (h: u32)
      requires Valid()
      modifies this`shaderId, this`shadersMade, this`calls
      ensures Valid()
      ensures h == old(shaderId) && h == NthHandle(0, old(shadersMade))
      ensures shaderId == Inc32(h) && shadersMade == old(shadersMade) + 1
      ensures calls == old(calls) + [BackendCall.NewShader(h, desc)]
    {
      calls := calls + [BackendCall.NewShader(shaderId, desc)];
      h := shaderId;
      shaderId := Inc32(shaderId);
      shadersMade := shadersMade + 1;
    }

    method NewPass() returns (h: u32)
      requires Valid()
      modifies this`passId, this`passesMade, this`calls
      ensures Valid()
      ensures h == old(passId) && h == NthHandle(0, old(passesMade))
      ensures passId == Inc32(h) && passesMade == old(passesMade) + 1
      ensures calls == old(calls) + [BackendCall.NewPass(h)]
    {
      calls := calls + [BackendCall.NewPass(passId)];
      h := passId;
      passId := Inc32(passId);
      passesMade := passesMade + 1;
    }

    method NewPipeline(desc: FacadeTypes.PipelineDesc) returns (h: u32)
      requires Valid()
      modifies this`pipelineId, this`pipelinesMade, this`calls
      ensures Valid()
      ensures h == old(pipelineId) && h == NthHandle(0, old(pipelinesMade))
      ensures pipelineId == Inc32(h) && pipelinesMade == old(pipelinesMade) + 1
      ensures calls == old(calls) + [BackendCall.NewPipeline(h, desc)]
    {
      calls := calls + [BackendCall.NewPipeline(pipelineId, desc)];
      h := pipelineId;
      pipelineId := Inc32(pipelineId);
      pipelinesMade := pipelinesMade + 1;
    }
  }

  /**
   * What a caller can conclude from the contracts alone: two buffers in a row
   * get consecutive handles, a texture in between changes neither the buffer
   * counter nor the buffer handles, and the two buffer handles differ.
   */
  method ConsecutiveBuffers(r: Renderer, b1: FacadeTypes.BufferDesc, t: FacadeTypes.TextureDesc, b2: FacadeTypes.BufferDesc)
      returns (first: u32, second: u32)
    requires r.Valid()
    modifies r
    ensures r.Valid()
    ensures first == old(r.bufferId) && second == Inc32(first) && first != second
    ensures r.textureId == Inc32(old(r.textureId)) && r.shaderId == old(r.shaderId)
    ensures r.passId == old(r.passId) && r.pipelineId == old(r.pipelineId)
  {
    first := r.NewBuffer(b1);
    var _ := r.NewTexture(t);
    second := r.NewBuffer(b2);
  }
}
