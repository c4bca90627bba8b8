/** The callback surface the engine drives: one call per `GpuDriver` trait
    method, dispatched to the driver, and runs of calls in the order the
    engine makes them. */
module Facade {
  import opened Base
  import opened Resources
  import opened Driver
  import opened Commands

  datatype Call =
    | NextTextureIdCall
    | CreateTextureCall(id: U32, bitmap: Bitmap)
    | UpdateTextureCall(id: U32, bitmap: Bitmap)
    | DestroyTextureCall(id: U32)
    | NextRenderBufferIdCall
    | CreateRenderBufferCall(id: U32, renderBuffer: RenderBuffer)
    | DestroyRenderBufferCall(id: U32)
    | NextGeometryIdCall
    | CreateGeometryCall(id: U32, vertices: VertexBuffer, indices: IndexBuffer)
    | UpdateGeometryCall(id: U32, vertices: VertexBuffer, indices: IndexBuffer)
    | DestroyGeometryCall(id: U32)
    | UpdateCommandListCall(commands: seq<Command>)

  datatype IdKind = TextureKind | RenderBufferKind | GeometryKind

  datatype Reply = Done | IdIssued(kind: IdKind, id: U32)

  datatype Step = Step(driver: Driver, reply: Reply)

  datatype Trace = Trace(driver: Driver, replies: seq<Reply>)

  /** The engine's obligations on a single call: the bitmap memory the driver
      reads is readable. */
  predicate WellFormedCall(call: Call) {
    match call
    case CreateTextureCall(_, b) => !b.isEmpty ==> Readable(b)
    case UpdateTextureCall(_, b) => Readable(b)
    case _ => true
  }

  /** Which allocator, if any, a call draws from. */
  predicate Allocates(call: Call, kind: IdKind) {
    match kind
    case TextureKind => call.NextTextureIdCall?
    case RenderBufferKind => call.NextRenderBufferIdCall?
    case GeometryKind => call.NextGeometryIdCall?
  }

  function Counter(d: Driver, kind: IdKind): U32 {
    match kind
    case TextureKind => d.nextTextureId
    case RenderBufferKind => d.nextRenderBufferId
    case GeometryKind => d.nextGeometryId
  }

  /** Forwards one engine call to the driver. */
  function Dispatch(d: Driver, call: Call): (r: Result<Step>)
    requires WellFormedCall(call)
    ensures r.Ok? ==>
      r.value.driver.nextTextureId == d.nextTextureId + (if call.NextTextureIdCall? then 1 else 0)
    ensures r.Ok? ==>
      r.value.driver.nextGeometryId == d.nextGeometryId + (if call.NextGeometryIdCall? then 1 else 0)
    ensures r.Ok? ==> Counter(d, RenderBufferKind) <= Counter(r.value.driver, RenderBufferKind)
    ensures r.Ok? ==> (r.value.reply.IdIssued? <==> call.NextTextureIdCall? || call.NextRenderBufferIdCall? || call.NextGeometryIdCall?)
    ensures r.Ok? && r.value.reply.IdIssued? ==> Allocates(call, r.value.reply.kind)
    ensures r.Ok? && r.value.reply.IdIssued? && r.value.reply.kind != RenderBufferKind ==>
      r.value.reply.id == Counter(d, r.value.reply.kind)
    ensures r.Ok? && !call.NextRenderBufferIdCall? && !call.CreateRenderBufferCall?
            && !call.DestroyRenderBufferCall? ==>
      && r.value.driver.renderBuffers == d.renderBuffers
      && r.value.driver.freeRenderBufferIds == d.freeRenderBufferIds
      && r.value.driver.nextRenderBufferId == d.nextRenderBufferId
    ensures r.Ok? ==>
      && |r.value.driver.pool| == |d.pool| + (if call.UpdateCommandListCall? then 1 else 0)
      && r.value.driver.pool[..|d.pool|] == d.pool
  {
    match call
    case NextTextureIdCall =>
      var issued :- NextTextureId(d);
      Ok(Step(issued.driver, IdIssued(TextureKind, issued.id)))
    case CreateTextureCall(id, b) =>
      var d' :- CreateTexture(d, id, b);
      Ok(Step(d', Done))
    case UpdateTextureCall(id, b) =>
      var d' :- UpdateTexture(d, id, b);
      Ok(Step(d', Done))
    case DestroyTextureCall(id) => Ok(Step(DestroyTexture(d, id), Done))
    case NextRenderBufferIdCall =>
      var issued :- NextRenderBufferId(d);
      Ok(Step(issued.driver, IdIssued(RenderBufferKind, issued.id)))
    case CreateRenderBufferCall(id, rb) => Ok(Step(CreateRenderBuffer(d, id, rb), Done))
    case DestroyRenderBufferCall(id) => Ok(Step(DestroyRenderBuffer(d, id), Done))
    case NextGeometryIdCall =>
      var issued :- NextGeometryId(d);
      Ok(Step(issued.driver, IdIssued(GeometryKind, issued.id)))
    case CreateGeometryCall(id, vb, ib) => Ok(Step(CreateGeometry(d, id, vb, ib), Done))
    case UpdateGeometryCall(id, vb, ib) =>
      var d' :- UpdateGeometry(d, id, vb, ib);
      Ok(Step(d', Done))
    case DestroyGeometryCall(id) => Ok(Step(DestroyGeometry(d, id), Done))
    case UpdateCommandListCall(cmds) =>
      var d' :- UpdateCommandList(d, cmds);
      Ok(Step(d', Done))
  }

  /** A run whose every call steps from one given state to the next ends in
      the last state, having replied in order. */
  lemma {:induction false} RunFollowsSteps(states: seq<Driver>, calls: seq<Call>, replies: seq<Reply>, k: nat)
    requires |states| == |calls| + 1 && |replies| == |calls| && k <= |calls|
    requires forall i :: 0 <= i < |calls| ==> WellFormedCall(calls[i])
    requires forall i :: 0 <= i < |calls| ==> Dispatch(states[i], calls[i]) == Ok(Step(states[i + 1], replies[i]))
    ensures forall i :: 0 <= i < |calls[k..]| ==> WellFormedCall(calls[k..][i])
    ensures Run(states[k], calls[k..]) == Ok(Trace(states[|calls|], replies[k..]))
    decreases |calls| - k
  {
    if k < |calls| {
      RunFollowsSteps(states, calls, replies, k + 1);
      assert calls[k..][0] == calls[k];
      assert calls[k..][1..] == calls[k + 1..];
      assert replies[k..] == [replies[k]] + replies[k + 1..];
    } else {
      assert calls[k..] == [] && replies[k..] == [];
    }
  }

  function CountCommandLists(calls: seq<Call>): nat {
    if calls == [] then 0
    else (if calls[0].UpdateCommandListCall? then 1 else 0) + CountCommandLists(calls[1..])
  }

  /** Runs the engine's calls in order, stopping at the first that aborts. The
      pending pool only grows, one command buffer per command-list call, and
      keeps its earlier buffers in place (first in, first out). */
  function Run(d: Driver, calls: seq<Call>): (r: Result<Trace>)
    requires forall i :: 0 <= i < |calls| ==> WellFormedCall(calls[i])
    ensures r.Ok? ==> |r.value.replies| == |calls|
    ensures r.Ok? ==>
      && |r.value.driver.pool| == |d.pool| + CountCommandLists(calls)
      && r.value.driver.pool[..|d.pool|] == d.pool
    decreases |calls|
  {
    if calls == [] then Ok(Trace(d, []))
    else
      var step :- Dispatch(d, calls[0]);
      var rest :- Run(step.driver, calls[1..]);
      assert rest.driver.pool[..|d.pool|] == step.driver.pool[..|step.driver.pool|][..|d.pool|];
      Ok(Trace(rest.driver, [step.reply] + rest.replies))
  }

  /** The ids of one kind issued during a run, in order. */
  function IssuedIds(replies: seq<Reply>, kind: IdKind): seq<U32> {
    if replies == [] then []
    else if replies[0].IdIssued? && replies[0].kind == kind then [replies[0].id] + IssuedIds(replies[1..], kind)
    else IssuedIds(replies[1..], kind)
  }

  predicate StrictlyIncreasing(s: seq<U32>) {
    forall i, j :: 0 <= i < j < |s| ==> s[i] < s[j]
  }

  lemma PrependKeepsIncreasing(x: U32, tail: seq<U32>)
    requires StrictlyIncreasing(tail)
    requires forall y :: y in tail ==> x < y
    ensures StrictlyIncreasing([x] + tail)
  {
    var ids := [x] + tail;
    forall i, j | 0 <= i < j < |ids|
      ensures ids[i] < ids[j]
    {
      assert ids[j] == tail[j - 1];
      if i > 0 {
        assert ids[i] == tail[i - 1];
      } else {
        assert tail[j - 1] in tail;
      }
    }
  }

  /** Texture and geometry ids are never reused: over any run of engine
      calls, the ids each allocator issues strictly increase, start at the
      counter's value before the run and stay below its value after it. */
  lemma {:induction false} IssuedIdsIncrease(d: Driver, calls: seq<Call>, kind: IdKind)
    requires kind != RenderBufferKind
    requires forall i :: 0 <= i < |calls| ==> WellFormedCall(calls[i])
    requires Run(d, calls).Ok?
    ensures StrictlyIncreasing(IssuedIds(Run(d, calls).value.replies, kind))
    ensures forall x :: x in IssuedIds(Run(d, calls).value.replies, kind) ==>
      Counter(d, kind) <= x < Counter(Run(d, calls).value.driver, kind)
    ensures Counter(d, kind) <= Counter(Run(d, calls).value.driver, kind)
    decreases |calls|
  {
    if calls != [] {
      var step := Dispatch(d, calls[0]).value;
      var rest := Run(step.driver, calls[1..]).value;
      IssuedIdsIncrease(step.driver, calls[1..], kind);
      var replies := [step.reply] + rest.replies;
      assert Run(d, calls).value == Trace(rest.driver, replies);
      assert replies[1..] == rest.replies;
      var tail := IssuedIds(rest.replies, kind);
      if step.reply.IdIssued? && step.reply.kind == kind {
        assert IssuedIds(replies, kind) == [step.reply.id] + tail;
        PrependKeepsIncreasing(step.reply.id, tail);
      } else {
        assert IssuedIds(replies, kind) == tail;
      }
    }
  }
}
