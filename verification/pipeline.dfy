/** What a draw needs from the pipeline side: which shader pair, which blend
    state, which textures are bound, and the abstract log of encoded GPU work. */
module Pipeline {
  import opened Base
  import opened Resources
  import opened VertexLayouts

  /** The engine's shader tag. Only `Fill` is compared against; every other
      raw value behaves like `FillPath`. */
  datatype ShaderType = Fill | FillPath

  /** The two compiled shader programs: `FillShaders` is the second vertex and
      fragment module pair (vert_fill / frag_fill), `FillPathShaders` the first
      (vertex_fill_path / fragment_fill_path). */
  datatype ShaderPair = FillShaders | FillPathShaders

  datatype BlendFactor = One | OneMinusSrcAlpha | OneMinusDstAlpha

  /** A blend component with the `Add` operation. */
  datatype BlendComponent = BlendComponent(srcFactor: BlendFactor, dstFactor: BlendFactor)

  datatype BlendState = BlendState(color: BlendComponent, alpha: BlendComponent)

  /** color = src + dst * (1 - srcAlpha); alpha = src * (1 - dstAlpha) + dst. */
  const PremultipliedBlend: BlendState :=
    BlendState(BlendComponent(One, OneMinusSrcAlpha), BlendComponent(OneMinusDstAlpha, One))

  /** A texture bound for sampling: a table entry, or the 1x1 placeholder. */
  datatype Binding = Bound(textureId: U32) | Fallback

  /** A pipeline and bind group built for one draw. */
  datatype PipelineEntry = PipelineEntry(
    shaders: ShaderPair,
    layout: VertexBufferLayout,
    blend: Option<BlendState>,
    targetFormat: TextureFormat,
    texture1: Binding,
    texture2: Binding)

  /** One unit of encoded GPU work. `Clear` clears a whole texture; `Draw` is a
      load-preserving render pass over `target` drawing indices
      `[firstIndex, endIndex)` of `geometry`. */
  datatype EncodedOp =
    | Clear(target: U32)
    | Draw(
        target: U32,
        geometry: U32,
        firstIndex: U32,
        endIndex: U32,
        texture1: Binding,
        texture2: Binding,
        blend: bool,
        shaders: ShaderPair,
        layout: VertexBufferLayout,
        targetFormat: TextureFormat,
        viewportWidth: U32,
        viewportHeight: U32)

  /** The work encoded for one command list, finished into one command buffer. */
  type CommandBuffer = seq<EncodedOp>

  /** Only the `Fill` tag selects the fill pair; every other tag draws paths. */
  function ShadersFor(s: ShaderType): (pair: ShaderPair)
    ensures pair == FillShaders <==> s == Fill
  {
    if s == Fill then FillShaders else FillPathShaders
  }

  /** Blending is either off or the premultiplied-alpha blend. */
  function BlendFor(enableBlend: bool): (blend: Option<BlendState>)
    ensures blend.Some? <==> enableBlend
    ensures blend.Some? ==> blend.value == PremultipliedBlend
  {
    if enableBlend then Some(PremultipliedBlend) else None
  }

  /** A blend factor's weight, given the source and destination alpha. */
  function FactorWeight(f: BlendFactor, srcAlpha: real, dstAlpha: real): real {
    match f
    case One => 1.0
    case OneMinusSrcAlpha => 1.0 - srcAlpha
    case OneMinusDstAlpha => 1.0 - dstAlpha
  }

  /** One channel through a blend component with the `Add` operation. */
  function BlendChannel(c: BlendComponent, src: real, dst: real, srcAlpha: real, dstAlpha: real): real {
    src * FactorWeight(c.srcFactor, srcAlpha, dstAlpha) + dst * FactorWeight(c.dstFactor, srcAlpha, dstAlpha)
  }

  /** The blend is premultiplied-alpha "source over destination": although its
      alpha factors are written the other way round, the resulting alpha is the
      usual one. An opaque source replaces the destination and a fully
      transparent one leaves it as it was. */
  lemma PremultipliedBlendIsOver(srcColor: real, srcAlpha: real, dstColor: real, dstAlpha: real)
    ensures BlendChannel(PremultipliedBlend.color, srcColor, dstColor, srcAlpha, dstAlpha)
            == srcColor + dstColor * (1.0 - srcAlpha)
    ensures BlendChannel(PremultipliedBlend.alpha, srcAlpha, dstAlpha, srcAlpha, dstAlpha)
            == srcAlpha + dstAlpha * (1.0 - srcAlpha)
    ensures srcAlpha == 1.0 ==>
      && BlendChannel(PremultipliedBlend.color, srcColor, dstColor, srcAlpha, dstAlpha) == srcColor
      && BlendChannel(PremultipliedBlend.alpha, srcAlpha, dstAlpha, srcAlpha, dstAlpha) == 1.0
    ensures srcColor == 0.0 && srcAlpha == 0.0 ==>
      && BlendChannel(PremultipliedBlend.color, srcColor, dstColor, srcAlpha, dstAlpha) == dstColor
      && BlendChannel(PremultipliedBlend.alpha, srcAlpha, dstAlpha, srcAlpha, dstAlpha) == dstAlpha
  {
  }

  /** The pipeline a draw was encoded with. */
  function PipelineOf(op: EncodedOp): PipelineEntry
    requires op.Draw?
  {
    PipelineEntry(op.shaders, op.layout, BlendFor(op.blend), op.targetFormat, op.texture1, op.texture2)
  }

  /** The pipelines built for the draws of a log, in order. */
  function DrawPipelines(ops: seq<EncodedOp>): seq<PipelineEntry> {
    if ops == [] then []
    else if ops[0].Draw? then [PipelineOf(ops[0])] + DrawPipelines(ops[1..])
    else DrawPipelines(ops[1..])
  }

  function CountDraws(ops: seq<EncodedOp>): nat {
    if ops == [] then 0 else (if ops[0].Draw? then 1 else 0) + CountDraws(ops[1..])
  }

  /** One pipeline is built per draw and none per clear. */
  lemma {:induction false} DrawPipelinesCount(ops: seq<EncodedOp>)
    ensures |DrawPipelines(ops)| == CountDraws(ops)
    ensures CountDraws(ops) <= |ops|
  {
    if ops != [] {
      DrawPipelinesCount(ops[1..]);
    }
  }

  /** The draws on `target` whose effect survives to the end of the log: those
      after the last clear of `target`. */
  function SurvivingDraws(ops: seq<EncodedOp>, target: U32): seq<EncodedOp> {
    if ops == [] then []
    else
      var last := ops[|ops| - 1];
      if last == Clear(target) then []
      else if last.Draw? && last.target == target then SurvivingDraws(ops[..|ops| - 1], target) + [last]
      else SurvivingDraws(ops[..|ops| - 1], target)
  }

  /** A clear of `target` erases everything drawn on it before: only what
      follows the clear decides the texture's final content. */
  lemma {:induction false} ClearErasesEarlierDraws(before: seq<EncodedOp>, target: U32, after: seq<EncodedOp>)
    ensures SurvivingDraws(before + [Clear(target)] + after, target) == SurvivingDraws(after, target)
    decreases |after|
  {
    var ops := before + [Clear(target)] + after;
    if after == [] {
      assert ops[|ops| - 1] == Clear(target);
    } else {
      var n := |after|;
      assert ops[|ops| - 1] == after[n - 1];
      assert ops[..|ops| - 1] == before + [Clear(target)] + after[..n - 1];
      ClearErasesEarlierDraws(before, target, after[..n - 1]);
    }
  }
}
