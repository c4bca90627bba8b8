/** The GPU driver's state and its resource-management entry points: three id
    allocators and three id-keyed resource tables. */
module Driver {
  import opened Base
  import opened Resources
  import opened Pipeline

  /** The driver state. `pipelineCache` gains one entry per encoded draw;
      `pool` is the process-wide list of finished command buffers waiting for
      the presentation loop to submit them. */
  datatype Driver = Driver(
    nextTextureId: U32,
    textures: map<U32, Texture>,
    nextRenderBufferId: U32,
    freeRenderBufferIds: seq<U32>,
    renderBuffers: map<U32, RenderBuffer>,
    nextGeometryId: U32,
    geometries: map<U32, Geometry>,
    pipelineCache: seq<PipelineEntry>,
    pool: seq<CommandBuffer>)

  /** An allocator's answer: the id it issued and the driver afterwards. */
  datatype Issued = Issued(driver: Driver, id: U32)

  /** A freshly constructed driver: texture and geometry ids start at 1,
      render-buffer ids at 0, every table and list empty. */
  function New(): Driver {
    Driver(1, map[], 0, [], map[], 1, map[], [], [])
  }

  // ---------------------------------------------------------------- textures

  function NextTextureId(d: Driver): (r: Result<Issued>)
    ensures r.Ok? <==> d.nextTextureId < U32_MAX
    ensures r.Fatal? ==> r.panic == ArithmeticOverflow
    ensures r.Ok? ==> r.value.id == d.nextTextureId
    ensures r.Ok? ==> r.value.driver == d.(nextTextureId := r.value.id + 1)
  {
    var next :- CheckedAdd(d.nextTextureId, 1);
    Ok(Issued(d.(nextTextureId := next), d.nextTextureId))
  }

  /** Writes a bitmap's pixels into a live texture of the same size. */
  function UpdateTexture(d: Driver, id: U32, b: Bitmap): (r: Result<Driver>)
    requires Readable(b)
    ensures id !in d.textures ==> r == Fatal(MissingTexture(id))
    ensures id in d.textures && PrepareUpload(b).Fatal? ==> r == Fatal(ArithmeticOverflow)
    ensures id in d.textures && PrepareUpload(b).Ok?
            && (b.width != d.textures[id].width || b.height != d.textures[id].height)
            ==> r == Fatal(SizeMismatch)
    ensures r.Ok? <==>
      && id in d.textures
      && b.width == d.textures[id].width && b.height == d.textures[id].height
      && PrepareUpload(b).Ok?
    ensures r.Ok? ==>
      && r.value.textures == d.textures[id := d.textures[id].(contents := Some(PrepareUpload(b).value))]
      && r.value == d.(textures := r.value.textures)
  {
    if id !in d.textures then Fatal(MissingTexture(id))
    else
      var t := d.textures[id];
      var upload :- PrepareUpload(b);
      if b.width != t.width || b.height != t.height then Fatal(SizeMismatch)
      else Ok(d.(textures := d.textures[id := t.(contents := Some(upload))]))
  }

  /** Creates (or silently replaces) the texture `id` for a bitmap, uploading
      its pixels unless the bitmap is empty. */
  function CreateTexture(d: Driver, id: U32, b: Bitmap): (r: Result<Driver>)
    requires !b.isEmpty ==> Readable(b)
    ensures b.format.OtherBitmapFormat? ==> r == Fatal(UnsupportedBitmapFormat)
    ensures !b.format.OtherBitmapFormat? && b.isEmpty ==> r.Ok?
    ensures !b.format.OtherBitmapFormat? && !b.isEmpty ==> (r.Ok? <==> PrepareUpload(b).Ok?)
    ensures r.Ok? ==>
      && id in r.value.textures
      && r.value.textures[id].width == b.width
      && r.value.textures[id].height == b.height
      && (b.format == A8Unorm ==> r.value.textures[id].format == Bgra8Unorm)
      && (b.format == BitmapFormat.Bgra8UnormSrgb ==>
            r.value.textures[id].format == TextureFormat.Bgra8UnormSrgb)
      && (b.isEmpty ==> r.value.textures[id].usage == {RenderAttachment, TextureBinding, CopyDst})
      && (!b.isEmpty ==> r.value.textures[id].usage == {TextureBinding, CopyDst})
      && (b.isEmpty ==> r.value.textures[id].contents == None)
      && (!b.isEmpty ==> r.value.textures[id].contents == Some(PrepareUpload(b).value))
    ensures r.Ok? ==> r.value.textures - {id} == d.textures - {id}
    ensures r.Ok? ==> r.value == d.(textures := r.value.textures)
  {
    var format :- TextureFormatFor(b.format);
    var created := d.(textures := d.textures[id := Texture(b.width, b.height, format, UsageFor(b.isEmpty), None)]);
    if b.isEmpty then Ok(created) else UpdateTexture(created, id, b)
  }

  function DestroyTexture(d: Driver, id: U32): (d': Driver)
    ensures d'.textures.Keys == d.textures.Keys - {id}
    ensures forall k :: k in d'.textures ==> d'.textures[k] == d.textures[k]
    ensures d' == d.(textures := d'.textures)
  {
    d.(textures := d.textures - {id})
  }

  // ----------------------------------------------------------- render buffers

  /** `Vec::swap_remove(0)` on a non-empty list: the last element takes the
      first one's place. */
  function SwapRemoveFront(s: seq<U32>): (r: seq<U32>)
    requires |s| > 0
    ensures |r| == |s| - 1
    ensures multiset(r) == multiset(s) - multiset{s[0]}
  {
    if |s| == 1 then []
    else
      var r := [s[|s| - 1]] + s[1..|s| - 1];
      assert s == [s[0]] + s[1..|s| - 1] + [s[|s| - 1]];
      r
  }

  function NextRenderBufferId(d: Driver): (r: Result<Issued>)
    ensures |d.freeRenderBufferIds| > 0 ==>
      && r.Ok?
      && r.value.id == d.freeRenderBufferIds[0]
      && multiset(r.value.driver.freeRenderBufferIds)
         == multiset(d.freeRenderBufferIds) - multiset{r.value.id}
      && r.value.driver == d.(freeRenderBufferIds := r.value.driver.freeRenderBufferIds)
    ensures |d.freeRenderBufferIds| == 0 ==>
      && (r.Ok? <==> d.nextRenderBufferId < U32_MAX)
      && (r.Fatal? ==> r.panic == ArithmeticOverflow)
      && (r.Ok? ==> r.value.id == d.nextRenderBufferId)
      && (r.Ok? ==> r.value.driver == d.(nextRenderBufferId := r.value.id + 1))
  {
    if |d.freeRenderBufferIds| > 0 then
      Ok(Issued(d.(freeRenderBufferIds := SwapRemoveFront(d.freeRenderBufferIds)), d.freeRenderBufferIds[0]))
    else
      var next :- CheckedAdd(d.nextRenderBufferId, 1);
      Ok(Issued(d.(nextRenderBufferId := next), d.nextRenderBufferId))
  }

  function CreateRenderBuffer(d: Driver, id: U32, rb: RenderBuffer): (d': Driver)
    ensures id in d'.renderBuffers && d'.renderBuffers[id] == rb
    ensures d'.renderBuffers - {id} == d.renderBuffers - {id}
    ensures d' == d.(renderBuffers := d'.renderBuffers)
  {
    d.(renderBuffers := d.renderBuffers[id := rb])
  }

  /** Removes the render buffer (if present) and returns its id to the free
      list, whether or not it was live. */
  function DestroyRenderBuffer(d: Driver, id: U32): (d': Driver)
    ensures d'.renderBuffers.Keys == d.renderBuffers.Keys - {id}
    ensures forall k :: k in d'.renderBuffers ==> d'.renderBuffers[k] == d.renderBuffers[k]
    ensures d'.freeRenderBufferIds == d.freeRenderBufferIds + [id]
    ensures d' == d.(renderBuffers := d'.renderBuffers, freeRenderBufferIds := d'.freeRenderBufferIds)
  {
    d.(renderBuffers := d.renderBuffers - {id}, freeRenderBufferIds := d.freeRenderBufferIds + [id])
  }

  // --------------------------------------------------------------- geometries

  function NextGeometryId(d: Driver): (r: Result<Issued>)
    ensures r.Ok? <==> d.nextGeometryId < U32_MAX
    ensures r.Fatal? ==> r.panic == ArithmeticOverflow
    ensures r.Ok? ==> r.value.id == d.nextGeometryId
    ensures r.Ok? ==> r.value.driver == d.(nextGeometryId := r.value.id + 1)
  {
    var next :- CheckedAdd(d.nextGeometryId, 1);
    Ok(Issued(d.(nextGeometryId := next), d.nextGeometryId))
  }

  function CreateGeometry(d: Driver, id: U32, vb: VertexBuffer, ib: IndexBuffer): (d': Driver)
    ensures id in d'.geometries
    ensures d'.geometries[id] == Geometry(vb.data, vb.format, ib.data)
    ensures d'.geometries - {id} == d.geometries - {id}
    ensures d' == d.(geometries := d'.geometries)
  {
    d.(geometries := d.geometries[id := Geometry(vb.data, vb.format, ib.data)])
  }

  /** Replaces both buffers and the vertex format of a live geometry. */
  function UpdateGeometry(d: Driver, id: U32, vb: VertexBuffer, ib: IndexBuffer): (r: Result<Driver>)
    ensures r.Ok? <==> id in d.geometries
    ensures r.Fatal? ==> r.panic == MissingGeometry(id)
    ensures r.Ok? ==> r.value.geometries == d.geometries[id := Geometry(vb.data, vb.format, ib.data)]
    ensures r.Ok? ==> r.value == d.(geometries := r.value.geometries)
  {
    if id !in d.geometries then Fatal(MissingGeometry(id))
    else Ok(d.(geometries := d.geometries[id := Geometry(vb.data, vb.format, ib.data)]))
  }

  function DestroyGeometry(d: Driver, id: U32): (d': Driver)
    ensures d'.geometries.Keys == d.geometries.Keys - {id}
    ensures forall k :: k in d'.geometries ==> d'.geometries[k] == d.geometries[k]
    ensures d' == d.(geometries := d'.geometries)
  {
    d.(geometries := d.geometries - {id})
  }

  // ------------------------------------------------- create / update / destroy

  /** Creating a texture and destroying it again leaves the driver as if only
      the destroy had happened: no trace of the create remains. */
  lemma CreateThenDestroyTexture(d: Driver, id: U32, b: Bitmap)
    requires !b.isEmpty ==> Readable(b)
    requires CreateTexture(d, id, b).Ok?
    ensures DestroyTexture(CreateTexture(d, id, b).value, id) == DestroyTexture(d, id)
  {
  }

  /** Writing the same bitmap twice is the same as writing it once. */
  lemma UpdateTextureIdempotent(d: Driver, id: U32, b: Bitmap)
    requires Readable(b)
    requires UpdateTexture(d, id, b).Ok?
    ensures UpdateTexture(UpdateTexture(d, id, b).value, id, b) == UpdateTexture(d, id, b)
  {
    var once := UpdateTexture(d, id, b).value;
    var written := once.textures[id];
    assert written == d.textures[id].(contents := Some(PrepareUpload(b).value));
    assert written.(contents := Some(PrepareUpload(b).value)) == written;
    assert once.textures[id := written] == once.textures;
  }

  /** A non-empty bitmap's texture holds the same contents whether it was
      created from the bitmap or created and then rewritten with it. */
  lemma CreateTextureUploadsOnce(d: Driver, id: U32, b: Bitmap)
    requires Readable(b) && !b.isEmpty
    requires CreateTexture(d, id, b).Ok?
    ensures UpdateTexture(CreateTexture(d, id, b).value, id, b) == CreateTexture(d, id, b)
  {
    var created := CreateTexture(d, id, b).value;
    var written := created.textures[id];
    assert written.contents == Some(PrepareUpload(b).value);
    assert written.(contents := Some(PrepareUpload(b).value)) == written;
    assert created.textures[id := written] == created.textures;
  }

  lemma CreateThenDestroyRenderBuffer(d: Driver, id: U32, rb: RenderBuffer)
    ensures DestroyRenderBuffer(CreateRenderBuffer(d, id, rb), id) == DestroyRenderBuffer(d, id)
  {
  }

  /** Updating a geometry right after creating it is the same as creating it
      with the new buffers. */
  lemma UpdateAfterCreateGeometry(d: Driver, id: U32, vb: VertexBuffer, ib: IndexBuffer,
                                  vb': VertexBuffer, ib': IndexBuffer)
    ensures UpdateGeometry(CreateGeometry(d, id, vb, ib), id, vb', ib') == Ok(CreateGeometry(d, id, vb', ib'))
  {
    var created := CreateGeometry(d, id, vb, ib);
    var entry := Geometry(vb'.data, vb'.format, ib'.data);
    assert created.geometries[id := entry] == d.geometries[id := entry];
  }

  lemma CreateThenDestroyGeometry(d: Driver, id: U32, vb: VertexBuffer, ib: IndexBuffer)
    ensures DestroyGeometry(CreateGeometry(d, id, vb, ib), id) == DestroyGeometry(d, id)
  {
  }

  // ----------------------------------------------------------- initial state

  /** A fresh driver holds nothing and issues texture 1, render buffer 0 and
      geometry 1 first. */
  lemma FirstIdsFromNew()
    ensures New().textures == map[] && New().renderBuffers == map[] && New().geometries == map[]
    ensures New().freeRenderBufferIds == [] && New().pipelineCache == [] && New().pool == []
    ensures NextTextureId(New()) == Ok(Issued(New().(nextTextureId := 2), 1))
    ensures NextRenderBufferId(New()) == Ok(Issued(New().(nextRenderBufferId := 1), 0))
    ensures NextGeometryId(New()) == Ok(Issued(New().(nextGeometryId := 2), 1))
  {
  }
}
