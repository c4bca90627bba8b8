/** Concrete end-to-end runs of the driver, from construction to one
    submitted command list. */
module Scenarios {
  import opened Base
  import opened Resources
  import opened VertexLayouts
  import opened Pipeline
  import opened Driver
  import opened Commands
  import opened Facade

  /** A 64x64 BGRA render target (an empty bitmap: no pixels uploaded). */
  const TargetBitmap: Bitmap := Bitmap(64, 64, 4, 256, BitmapFormat.Bgra8UnormSrgb, true, [])

  /** Per-command state: a 64x64 viewport, no sampled textures (id 0 is never
      issued), blending off, the path shaders, render buffer 0. */
  const PlainState: GpuState := GpuState(64, 64, 0, 0, 0, false, FillPath, 0, false)

  /** Simple-format vertex and index buffers with no bytes: the driver stores
      and forwards geometry bytes without reading them, so a draw's index
      range is not checked against them. */
  const NoVertices: VertexBuffer := VertexBuffer(Vertex2f4ub2f, [])

  const NoIndices: IndexBuffer := IndexBuffer([])

  const SubmittedCommands: seq<Command> :=
    [Command(ClearRenderBuffer, PlainState, 0, 0, 0),
     Command(DrawGeometry, PlainState, 1, 6, 0)]

  function ScenarioCalls(): seq<Call> {
    [ NextTextureIdCall,
      CreateTextureCall(1, TargetBitmap),
      NextRenderBufferIdCall,
      CreateRenderBufferCall(0, RenderBuffer(1, 64, 64, false, false)),
      NextGeometryIdCall,
      CreateGeometryCall(1, NoVertices, NoIndices),
      UpdateCommandListCall(SubmittedCommands)
    ]
  }

  /** The encoded clear and draw the submitted list should produce. */
  const ClearOp: EncodedOp := Clear(1)

  const DrawOp: EncodedOp :=
    Draw(1, 1, 0, 6, Fallback, Fallback, false, FillPathShaders, SimpleLayout,
         TextureFormat.Bgra8UnormSrgb, 64, 64)

  /** The driver once the texture, render buffer and geometry exist. */
  function SetUp(): Driver {
    Driver(2, map[1 := Texture(64, 64, TextureFormat.Bgra8UnormSrgb,
                               {RenderAttachment, TextureBinding, CopyDst}, None)],
           1, [], map[0 := RenderBuffer(1, 64, 64, false, false)],
           2, map[1 := Geometry([], Vertex2f4ub2f, [])], [], [])
  }

  /** The set-up driver after the list is submitted. */
  function Submitted(): Driver {
    SetUp().(pipelineCache := [PipelineOf(DrawOp)], pool := [[ClearOp, DrawOp]])
  }

  lemma SubmittedListEncodes()
    ensures EncodeCommands(SetUp(), SubmittedCommands) == Ok([ClearOp, DrawOp])
  {
    var d := SetUp();
    var cmds := SubmittedCommands;
    var clear, draw := cmds[0], cmds[1];
    assert EncodeCommand(d, clear) == Ok(ClearOp);
    assert EncodeCommand(d, draw) == Ok(DrawOp);
    assert Encodable(d, clear) && Encodable(d, draw);
    assert EncodeCommands(d, cmds).Ok?;
    var log := EncodeCommands(d, cmds).value;
    assert EncodeCommand(d, cmds[0]) == Ok(log[0]);
    assert EncodeCommand(d, cmds[1]) == Ok(log[1]);
    assert log == [ClearOp, DrawOp];
  }

  lemma SubmitStep()
    ensures Dispatch(SetUp(), UpdateCommandListCall(SubmittedCommands)) == Ok(Step(Submitted(), Done))
  {
    SubmittedListEncodes();
    var log := [ClearOp, DrawOp];
    assert log[1..] == [DrawOp] && log[1..][1..] == [];
    assert DrawPipelines(log[1..]) == [PipelineOf(DrawOp)];
    assert DrawPipelines(log) == [PipelineOf(DrawOp)];
    var d := SetUp();
    assert d.pipelineCache + DrawPipelines(log) == [PipelineOf(DrawOp)];
    assert d.pool + [log] == [log];
    assert UpdateCommandList(d, SubmittedCommands) == Ok(Submitted());
  }

  /** What the engine hears back from each call of the scenario. */
  const ScenarioReplies: seq<Reply> :=
    [IdIssued(TextureKind, 1), Done, IdIssued(RenderBufferKind, 0), Done,
     IdIssued(GeometryKind, 1), Done, Done]

  /** The driver before each call of the scenario, and after the last. */
  function Stages(): seq<Driver> {
    var d1 := New().(nextTextureId := 2);
    var d2 := d1.(textures := SetUp().textures);
    var d3 := d2.(nextRenderBufferId := 1);
    var d4 := d3.(renderBuffers := SetUp().renderBuffers);
    var d5 := d4.(nextGeometryId := 2);
    [New(), d1, d2, d3, d4, d5, SetUp(), Submitted()]
  }

  lemma ScenarioWellFormed()
    ensures forall i :: 0 <= i < |ScenarioCalls()| ==> WellFormedCall(ScenarioCalls()[i])
  {
  }

  /** Each call takes the scenario one stage further. */
  lemma StageStep(k: nat)
    requires k < 7
    ensures WellFormedCall(ScenarioCalls()[k])
    ensures Dispatch(Stages()[k], ScenarioCalls()[k]) == Ok(Step(Stages()[k + 1], ScenarioReplies[k]))
  {
    ScenarioWellFormed();
    if k == 6 {
      SubmitStep();
    }
  }

  /** Allocate and create a texture, a render buffer over it and a simple-layout
      geometry, then submit a clear and a draw: the allocators issue 1, 0 and 1;
      one command buffer holding one clear and one indexed draw of indices
      [0, 6) into texture 1 is pooled; the draw has blending off, samples the
      placeholder for both textures and builds exactly one pipeline. */
  lemma ClearThenDrawScenario()
    ensures forall i :: 0 <= i < |ScenarioCalls()| ==> WellFormedCall(ScenarioCalls()[i])
    ensures Run(New(), ScenarioCalls()).Ok?
    ensures Run(New(), ScenarioCalls()).value.replies ==
      [IdIssued(TextureKind, 1), Done, IdIssued(RenderBufferKind, 0), Done,
       IdIssued(GeometryKind, 1), Done, Done]
    ensures Run(New(), ScenarioCalls()).value.driver.pool ==
      [[Clear(1),
        Draw(1, 1, 0, 6, Fallback, Fallback, false, FillPathShaders, SimpleLayout,
             TextureFormat.Bgra8UnormSrgb, 64, 64)]]
    ensures |Run(New(), ScenarioCalls()).value.driver.pipelineCache| == 1
  {
    ScenarioWellFormed();
    var calls, stages := ScenarioCalls(), Stages();
    forall i | 0 <= i < |calls|
      ensures Dispatch(stages[i], calls[i]) == Ok(Step(stages[i + 1], ScenarioReplies[i]))
    {
      StageStep(i);
    }
    RunFollowsSteps(stages, calls, ScenarioReplies, 0);
    assert calls[0..] == calls;
    assert ScenarioReplies[0..] == ScenarioReplies;
  }

  /** A lone draw survives on its own target. */
  lemma LoneDrawSurvives(d: Driver, draw: Command)
    requires draw.commandType == DrawGeometry
    requires EncodeCommands(d, [draw]).Ok?
    ensures draw.gpuState.renderBufferId in d.renderBuffers
    ensures
      var target := d.renderBuffers[draw.gpuState.renderBufferId].textureId;
      var log := EncodeCommands(d, [draw]).value;
      && |log| == 1
      && SurvivingDraws(log, target) == log
  {
    var log := EncodeCommands(d, [draw]).value;
    assert EncodeCommand(d, [draw][0]) == Ok(log[0]);
    assert log[..0] == [];
  }

  /** Clear, draw, clear, draw on one render buffer: only the second draw
      survives on the target texture; the first clear and draw are erased. */
  lemma SecondClearErasesFirstDraw(d: Driver, first: Command, second: Command)
    requires first.commandType == DrawGeometry && second.commandType == DrawGeometry
    requires first.gpuState.renderBufferId == second.gpuState.renderBufferId
    requires
      var clear := Command(ClearRenderBuffer, first.gpuState, 0, 0, 0);
      EncodeCommands(d, [clear, first, clear, second]).Ok?
    ensures
      var clear := Command(ClearRenderBuffer, first.gpuState, 0, 0, 0);
      var log := EncodeCommands(d, [clear, first, clear, second]).value;
      && |log| == 4
      && SurvivingDraws(log, log[0].target) == [log[3]]
  {
    var clear := Command(ClearRenderBuffer, first.gpuState, 0, 0, 0);
    var all := [clear, first, clear, second];
    assert all == [clear, first] + [clear] + [second];
    ClearDecidesFinalContent(d, [clear, first], clear, [second]);
    var log := EncodeCommands(d, all).value;
    assert EncodeCommand(d, all[0]) == Ok(log[0]);
    EncodeCommandsAppend(d, [clear, first] + [clear], [second]);
    LoneDrawSurvives(d, second);
  }

}
