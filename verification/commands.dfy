/** Translation of the engine's command list into encoded GPU work: one pass
    over the commands, in order, producing one encoded operation per command
    and one finished command buffer per list. */
module Commands {
  import opened Base
  import opened Resources
  import opened VertexLayouts
  import opened Pipeline
  import opened Driver

  datatype CommandType = ClearRenderBuffer | DrawGeometry | OtherCommand(tag: nat)

  /** The integer and flag part of the engine's per-command GPU state. The
      transform, uniform scalars and vectors, and clip matrices are floating
      point and are not modelled. */
  datatype GpuState = GpuState(
    viewportWidth: U32,
    viewportHeight: U32,
    texture1Id: U32,
    texture2Id: U32,
    texture3Id: U32,
    enableBlend: bool,
    shaderType: ShaderType,
    renderBufferId: U32,
    enableScissor: bool)

  datatype Command = Command(
    commandType: CommandType,
    gpuState: GpuState,
    geometryId: U32,
    indicesCount: U32,
    indicesOffset: U32)

  /** A sampled texture: the table entry when the id is live, else the placeholder. */
  function BindingFor(d: Driver, id: U32): (b: Binding)
    ensures b.Fallback? <==> id !in d.textures
    ensures b.Bound? ==> b.textureId == id
  {
    if id in d.textures then Bound(id) else Fallback
  }

  /** The texture a binding samples. */
  function BoundTexture(d: Driver, b: Binding): Texture
    requires b.Bound? ==> b.textureId in d.textures
  {
    match b
    case Bound(id) => d.textures[id]
    case Fallback => FallbackTexture
  }

  /** A draw samples the named texture when it is live and the 1x1 placeholder
      otherwise; the placeholder is never a texture the engine created. */
  lemma SampledTexture(d: Driver, id: U32)
    ensures BoundTexture(d, BindingFor(d, id)) == (if id in d.textures then d.textures[id] else FallbackTexture)
    ensures BindingFor(d, id).Fallback? ==> BoundTexture(d, BindingFor(d, id)).format == R8Unorm
    // follows from TextureFormatFor's contract: a created texture is never `R8Unorm`
    ensures forall b: Bitmap :: TextureFormatFor(b.format).Ok? ==> TextureFormatFor(b.format).value != FallbackTexture.format
  {
  }

  /** When a command encodes without aborting: its render buffer and that
      buffer's texture are live, the target is not also sampled, the command
      type is known, and a draw names a live geometry of a known vertex format
      whose index range fits in `u32`. */
  predicate Encodable(d: Driver, cmd: Command) {
    var s := cmd.gpuState;
    && s.renderBufferId in d.renderBuffers
    && d.renderBuffers[s.renderBufferId].textureId in d.textures
    && d.renderBuffers[s.renderBufferId].textureId != s.texture1Id
    && d.renderBuffers[s.renderBufferId].textureId != s.texture2Id
    && d.renderBuffers[s.renderBufferId].textureId != s.texture3Id
    && !cmd.commandType.OtherCommand?
    && (cmd.commandType == DrawGeometry ==>
          && cmd.geometryId in d.geometries
          && !d.geometries[cmd.geometryId].format.OtherVertexFormat?
          && cmd.indicesOffset + cmd.indicesCount <= U32_MAX)
  }

  /** Encodes one command against the driver's tables. */
  function EncodeCommand(d: Driver, cmd: Command): (r: Result<EncodedOp>)
    ensures r.Ok? <==> Encodable(d, cmd)
    ensures cmd.gpuState.renderBufferId !in d.renderBuffers ==>
      r == Fatal(MissingRenderBuffer(cmd.gpuState.renderBufferId))
    ensures cmd.gpuState.renderBufferId in d.renderBuffers
            && d.renderBuffers[cmd.gpuState.renderBufferId].textureId !in d.textures ==>
      r == Fatal(MissingTexture(d.renderBuffers[cmd.gpuState.renderBufferId].textureId))
    ensures cmd.gpuState.renderBufferId in d.renderBuffers
            && d.renderBuffers[cmd.gpuState.renderBufferId].textureId in d.textures
            && d.renderBuffers[cmd.gpuState.renderBufferId].textureId
               in {cmd.gpuState.texture1Id, cmd.gpuState.texture2Id, cmd.gpuState.texture3Id} ==>
      r == Fatal(TargetAlsoSampled(d.renderBuffers[cmd.gpuState.renderBufferId].textureId))
    ensures r.Ok? ==> r.value.target == d.renderBuffers[cmd.gpuState.renderBufferId].textureId
    ensures r.Ok? ==> (r.value.Clear? <==> cmd.commandType == ClearRenderBuffer)
    ensures r.Ok? && r.value.Draw? ==>
      && r.value.geometry == cmd.geometryId
      && r.value.firstIndex == cmd.indicesOffset
      && r.value.endIndex == cmd.indicesOffset + cmd.indicesCount
      && (r.value.texture1 == Fallback <==> cmd.gpuState.texture1Id !in d.textures)
      && (r.value.texture1.Bound? ==> r.value.texture1.textureId == cmd.gpuState.texture1Id)
      && (r.value.texture2 == Fallback <==> cmd.gpuState.texture2Id !in d.textures)
      && (r.value.texture2.Bound? ==> r.value.texture2.textureId == cmd.gpuState.texture2Id)
      && r.value.blend == cmd.gpuState.enableBlend
      && (r.value.shaders == FillShaders <==> cmd.gpuState.shaderType == Fill)
      && r.value.layout == LayoutFor(d.geometries[cmd.geometryId].format).value
      && Packed(r.value.layout)
      && r.value.targetFormat == d.textures[r.value.target].format
      && r.value.viewportWidth == cmd.gpuState.viewportWidth
      && r.value.viewportHeight == cmd.gpuState.viewportHeight
  {
    var s := cmd.gpuState;
    if s.renderBufferId !in d.renderBuffers then Fatal(MissingRenderBuffer(s.renderBufferId))
    else
      var target := d.renderBuffers[s.renderBufferId].textureId;
      if target !in d.textures then Fatal(MissingTexture(target))
      else if target == s.texture1Id || target == s.texture2Id || target == s.texture3Id then
        Fatal(TargetAlsoSampled(target))
      else
        match cmd.commandType
        case ClearRenderBuffer => Ok(Clear(target))
        case DrawGeometry =>
          if cmd.geometryId !in d.geometries then Fatal(MissingGeometry(cmd.geometryId))
          else
            var layout :- LayoutFor(d.geometries[cmd.geometryId].format);
            var endIndex :- CheckedAdd(cmd.indicesOffset, cmd.indicesCount);
            Ok(Draw(
              target, cmd.geometryId, cmd.indicesOffset, endIndex,
              BindingFor(d, s.texture1Id), BindingFor(d, s.texture2Id),
              s.enableBlend, ShadersFor(s.shaderType), layout,
              d.textures[target].format, s.viewportWidth, s.viewportHeight))
        case OtherCommand(tag) => Fatal(UnknownCommandType(tag))
  }

  /** The translation fold: encodes the commands in order and aborts at the
      first one that cannot be encoded. */
  function EncodeCommands(d: Driver, cmds: seq<Command>): (r: Result<CommandBuffer>)
    ensures r.Ok? <==> forall i :: 0 <= i < |cmds| ==> Encodable(d, cmds[i])
    ensures r.Ok? ==> |r.value| == |cmds|
    ensures r.Ok? ==> forall i :: 0 <= i < |cmds| ==> EncodeCommand(d, cmds[i]) == Ok(r.value[i])
    ensures r.Fatal? ==>
      exists k :: 0 <= k < |cmds|
        && (forall j :: 0 <= j < k ==> Encodable(d, cmds[j]))
        && EncodeCommand(d, cmds[k]) == Fatal(r.panic)
  {
    if cmds == [] then Ok([])
    else
      var op :- EncodeCommand(d, cmds[0]);
      var rest := EncodeCommands(d, cmds[1..]);
      if rest.Fatal? then
        assert forall j :: 1 <= j < |cmds| ==> cmds[j] == cmds[1..][j - 1];
        Fatal(rest.panic)
      else
        assert forall j :: 1 <= j < |cmds| ==> cmds[j] == cmds[1..][j - 1];
        Ok([op] + rest.value)
  }

  /** `update_command_list`: encodes the whole list into one command buffer,
      appends it to the pending pool, and records one pipeline per draw. */
  function UpdateCommandList(d: Driver, cmds: seq<Command>): (r: Result<Driver>)
    ensures r.Ok? <==> forall i :: 0 <= i < |cmds| ==> Encodable(d, cmds[i])
    ensures r.Fatal? ==>
      exists k :: 0 <= k < |cmds|
        && (forall j :: 0 <= j < k ==> Encodable(d, cmds[j]))
        && EncodeCommand(d, cmds[k]) == Fatal(r.panic)
    ensures r.Ok? ==>
      && |r.value.pool| == |d.pool| + 1
      && r.value.pool[..|d.pool|] == d.pool
      && |r.value.pool[|d.pool|]| == |cmds|
      && (forall i :: 0 <= i < |cmds| ==> EncodeCommand(d, cmds[i]) == Ok(r.value.pool[|d.pool|][i]))
      && r.value.pipelineCache == d.pipelineCache + DrawPipelines(r.value.pool[|d.pool|])
      && |r.value.pipelineCache| == |d.pipelineCache| + CountDraws(r.value.pool[|d.pool|])
      && r.value == d.(pipelineCache := r.value.pipelineCache, pool := r.value.pool)
  {
    var log :- EncodeCommands(d, cmds);
    DrawPipelinesCount(log);
    Ok(d.(pipelineCache := d.pipelineCache + DrawPipelines(log), pool := d.pool + [log]))
  }

  /** Translation distributes over concatenation: splitting a command list
      never reorders or merges work across the split. */
  lemma EncodeCommandsAppend(d: Driver, front: seq<Command>, back: seq<Command>)
    ensures EncodeCommands(d, front + back).Ok?
            <==> EncodeCommands(d, front).Ok? && EncodeCommands(d, back).Ok?
    ensures EncodeCommands(d, front + back).Ok? ==>
      EncodeCommands(d, front + back).value == EncodeCommands(d, front).value + EncodeCommands(d, back).value
  {
    var all := front + back;
    assert forall i :: 0 <= i < |front| ==> all[i] == front[i];
    assert forall i :: 0 <= i < |back| ==> all[|front| + i] == back[i];
    if EncodeCommands(d, all).Ok? {
      var whole := EncodeCommands(d, all).value;
      var joined := EncodeCommands(d, front).value + EncodeCommands(d, back).value;
      forall i | 0 <= i < |all|
        ensures whole[i] == joined[i]
      {
        if i >= |front| {
          assert all[i] == back[i - |front|];
        }
      }
    }
  }

  /** Commands are never reordered across a clear: once a list has been
      translated, the draws that survive on the cleared texture are exactly
      those encoded from the commands after the clear. */
  lemma ClearDecidesFinalContent(d: Driver, before: seq<Command>, clear: Command, after: seq<Command>)
    requires clear.commandType == ClearRenderBuffer
    requires EncodeCommands(d, before + [clear] + after).Ok?
    ensures EncodeCommands(d, after).Ok?
    ensures clear.gpuState.renderBufferId in d.renderBuffers
    ensures
      var target := d.renderBuffers[clear.gpuState.renderBufferId].textureId;
      SurvivingDraws(EncodeCommands(d, before + [clear] + after).value, target)
      == SurvivingDraws(EncodeCommands(d, after).value, target)
  {
    assert (before + [clear] + after)[|before|] == clear;
    EncodeCommandsAppend(d, before + [clear], after);
    EncodeCommandsAppend(d, before, [clear]);
    var target := d.renderBuffers[clear.gpuState.renderBufferId].textureId;
    var middle := EncodeCommands(d, [clear]).value;
    assert middle == [Clear(target)];
    ClearErasesEarlierDraws(EncodeCommands(d, before).value, target, EncodeCommands(d, after).value);
  }
}
