/** Properties of render-buffer id allocation: the counter plus the free list
    that `destroy_render_buffer` feeds and `next_render_buffer_id` drains. */
module RenderBufferIds {
  import opened Base
  import opened Resources
  import opened Driver
  import opened Facade

  function Reverse(s: seq<U32>): (r: seq<U32>)
    ensures |r| == |s|
  {
    if s == [] then [] else Reverse(s[1..]) + [s[0]]
  }

  /** The order in which repeated `swap_remove(0)` empties a list. */
  function Drain(free: seq<U32>): (ids: seq<U32>)
    decreases |free|
  {
    if free == [] then [] else [free[0]] + Drain(SwapRemoveFront(free))
  }

  lemma {:induction false} ReverseSnoc(s: seq<U32>, x: U32)
    ensures Reverse(s + [x]) == [x] + Reverse(s)
  {
    if s != [] {
      assert (s + [x])[1..] == s[1..] + [x];
      ReverseSnoc(s[1..], x);
    }
  }

  /** Draining hands out the first freed id, then the rest newest first:
      `swap_remove(0)` moves the last element to the front each time. */
  lemma {:induction false} DrainIsHeadThenReverse(free: seq<U32>)
    requires |free| > 0
    ensures Drain(free) == [free[0]] + Reverse(free[1..])
    decreases |free|
  {
    var n := |free|;
    var next := SwapRemoveFront(free);
    assert Drain(free) == [free[0]] + Drain(next);
    if n == 1 {
      assert free[1..] == [];
    } else {
      assert next == [free[n - 1]] + free[1..n - 1];
      DrainIsHeadThenReverse(next);
      assert next[1..] == free[1..n - 1];
      assert Drain(next) == [free[n - 1]] + Reverse(free[1..n - 1]);
      assert free[1..] == free[1..n - 1] + [free[n - 1]];
      ReverseSnoc(free[1..n - 1], free[n - 1]);
    }
  }

  /** Draining issues every freed id exactly as often as it was freed. */
  lemma {:induction false} DrainIsPermutation(free: seq<U32>)
    ensures multiset(Drain(free)) == multiset(free)
    decreases |free|
  {
    if free != [] {
      DrainIsPermutation(SwapRemoveFront(free));
      assert free == [free[0]] + free[1..];
    }
  }

  /** `n` successive `next_render_buffer_id` calls. */
  function Allocate(d: Driver, n: nat): Result<(Driver, seq<U32>)>
    decreases n
  {
    if n == 0 then Ok((d, []))
    else
      var issued :- NextRenderBufferId(d);
      var rest :- Allocate(issued.driver, n - 1);
      Ok((rest.0, [issued.id] + rest.1))
  }

  /** While freed ids remain, allocation reissues them, in drain order, and
      never touches the counter; afterwards the free list is empty. */
  lemma {:induction false} AllocationDrainsFreeList(d: Driver)
    ensures Allocate(d, |d.freeRenderBufferIds|).Ok?
    ensures Allocate(d, |d.freeRenderBufferIds|).value.1 == Drain(d.freeRenderBufferIds)
    ensures Allocate(d, |d.freeRenderBufferIds|).value.0 == d.(freeRenderBufferIds := [])
    decreases |d.freeRenderBufferIds|
  {
    var free := d.freeRenderBufferIds;
    if free != [] {
      var issued := NextRenderBufferId(d).value;
      assert issued.driver == d.(freeRenderBufferIds := SwapRemoveFront(free));
      AllocationDrainsFreeList(issued.driver);
    }
  }

  /** A destroyed render buffer's id is the next one issued when no other id
      was waiting, and the counter does not move. */
  lemma ReuseAfterDestroy(d: Driver, id: U32)
    requires d.freeRenderBufferIds == []
    ensures NextRenderBufferId(DestroyRenderBuffer(d, id))
            == Ok(Issued(d.(renderBuffers := d.renderBuffers - {id}), id))
  {
  }

  /** `destroy_render_buffer` frees the id whether or not it was live, so an
      id destroyed twice is issued twice in a row. */
  lemma DoubleDestroyReissuesId(d: Driver, id: U32)
    requires d.freeRenderBufferIds == []
    ensures
      var twice := DestroyRenderBuffer(DestroyRenderBuffer(d, id), id);
      && NextRenderBufferId(twice).Ok?
      && NextRenderBufferId(twice).value.id == id
      && NextRenderBufferId(NextRenderBufferId(twice).value.driver).Ok?
      && NextRenderBufferId(NextRenderBufferId(twice).value.driver).value.id == id
  {
    var twice := DestroyRenderBuffer(DestroyRenderBuffer(d, id), id);
    assert twice.freeRenderBufferIds == [id, id];
    assert SwapRemoveFront([id, id]) == [id];
    var first := twice.(freeRenderBufferIds := [id]);
    assert NextRenderBufferId(twice) == Ok(Issued(first, id));
    assert SwapRemoveFront([id]) == [];
  }

  predicate NoDuplicates(s: seq<U32>) {
    forall x :: x in s ==> multiset(s)[x] <= 1
  }

  /** The allocator's soundness invariant: free ids are distinct, none is a
      live render buffer, and every free or live id was issued by the counter. */
  predicate Sound(d: Driver) {
    && NoDuplicates(d.freeRenderBufferIds)
    && (forall x :: x in d.freeRenderBufferIds ==> x !in d.renderBuffers && x < d.nextRenderBufferId)
    && (forall k :: k in d.renderBuffers ==> k < d.nextRenderBufferId)
  }

  /** What the engine must respect for the invariant to survive a call: it
      destroys only live render buffers, and creates only ids that were
      issued and are not waiting on the free list. */
  predicate Respects(d: Driver, call: Call) {
    match call
    case DestroyRenderBufferCall(id) => id in d.renderBuffers
    case CreateRenderBufferCall(id, _) => id < d.nextRenderBufferId && id !in d.freeRenderBufferIds
    case _ => true
  }

  lemma SoundInitially()
    ensures Sound(New())
  {
  }

  /** Allocation keeps the invariant and never issues a live or still-free id. */
  lemma NextRenderBufferIdKeepsSound(d: Driver)
    requires Sound(d)
    requires NextRenderBufferId(d).Ok?
    ensures Sound(NextRenderBufferId(d).value.driver)
    ensures
      var issued := NextRenderBufferId(d).value;
      && issued.id !in d.renderBuffers
      && issued.id !in issued.driver.freeRenderBufferIds
      && issued.id < issued.driver.nextRenderBufferId
  {
    var free := d.freeRenderBufferIds;
    if |free| > 0 {
      var rest := NextRenderBufferId(d).value.driver.freeRenderBufferIds;
      assert multiset(rest) == multiset(free) - multiset{free[0]};
      assert free[0] in free;
      forall x | x in rest
        ensures x in free
      {
        assert x in multiset(rest);
      }
      assert multiset(free)[free[0]] == 1;
      assert multiset(rest)[free[0]] == 0;
    }
  }

  /** Destroying a live render buffer keeps the invariant. */
  lemma DestroyRenderBufferKeepsSound(d: Driver, id: U32)
    requires Sound(d)
    requires id in d.renderBuffers
    ensures Sound(DestroyRenderBuffer(d, id))
  {
    var free := d.freeRenderBufferIds;
    assert id !in free;
    forall x | x in free + [id]
      ensures multiset(free + [id])[x] <= 1
    {
      assert multiset(free + [id]) == multiset(free) + multiset{id};
    }
  }

  /** Creating an issued id that is not waiting on the free list keeps the invariant. */
  lemma CreateRenderBufferKeepsSound(d: Driver, id: U32, rb: RenderBuffer)
    requires Sound(d)
    requires id < d.nextRenderBufferId && id !in d.freeRenderBufferIds
    ensures Sound(CreateRenderBuffer(d, id, rb))
  {
  }

  /** Under the protocol every call keeps the invariant, and an issued
      render-buffer id is never live and never still on the free list. */
  lemma DispatchKeepsSound(d: Driver, call: Call)
    requires WellFormedCall(call)
    requires Sound(d) && Respects(d, call)
    requires Dispatch(d, call).Ok?
    ensures Sound(Dispatch(d, call).value.driver)
    ensures
      var step := Dispatch(d, call).value;
      step.reply.IdIssued? && step.reply.kind == RenderBufferKind ==>
        && step.reply.id !in d.renderBuffers
        && step.reply.id !in step.driver.freeRenderBufferIds
        && step.reply.id < step.driver.nextRenderBufferId
  {
    var step := Dispatch(d, call).value;
    match call
    case NextRenderBufferIdCall =>
      NextRenderBufferIdKeepsSound(d);
      assert step.driver == NextRenderBufferId(d).value.driver;
    case DestroyRenderBufferCall(id) =>
      DestroyRenderBufferKeepsSound(d, id);
      assert step.driver == DestroyRenderBuffer(d, id);
    case CreateRenderBufferCall(id, rb) =>
      CreateRenderBufferKeepsSound(d, id, rb);
      assert step.driver == CreateRenderBuffer(d, id, rb);
    case _ =>
  }

  /** Runs of calls that follow the protocol at every step. */
  predicate FollowsProtocol(d: Driver, calls: seq<Call>)
    decreases |calls|
  {
    calls == [] ||
    (&& WellFormedCall(calls[0])
     && Respects(d, calls[0])
     && (Dispatch(d, calls[0]).Ok? ==> FollowsProtocol(Dispatch(d, calls[0]).value.driver, calls[1..])))
  }

  /** The invariant holds after any run that follows the protocol. */
  lemma {:induction false} RunKeepsSound(d: Driver, calls: seq<Call>)
    requires Sound(d) && FollowsProtocol(d, calls)
    requires forall i :: 0 <= i < |calls| ==> WellFormedCall(calls[i])
    requires Run(d, calls).Ok?
    ensures Sound(Run(d, calls).value.driver)
    decreases |calls|
  {
    if calls != [] {
      DispatchKeepsSound(d, calls[0]);
      RunKeepsSound(Dispatch(d, calls[0]).value.driver, calls[1..]);
    }
  }
}
