/** The engine-side inputs (bitmaps, render-buffer descriptors, vertex and index
    buffers) and the driver-side records kept in the resource tables, together
    with the client-side pixel conversion done before a texture upload. */
module Resources {
  import opened Base

  /** Pixel formats an engine bitmap may declare. The engine defines two; any
      other raw value is a build mismatch. */
  datatype BitmapFormat = A8Unorm | Bgra8UnormSrgb | OtherBitmapFormat(tag: nat)

  /** An engine bitmap as the driver sees it through the bitmap accessors.
      `pixels` is the locked pixel memory; `rowBytes` is the engine's own row
      stride, which the driver reads and then ignores. */
  datatype Bitmap = Bitmap(
    width: U32,
    height: U32,
    bytesPerPixel: U32,
    rowBytes: U32,
    format: BitmapFormat,
    isEmpty: bool,
    pixels: seq<Byte>)

  /** GPU texture formats the driver creates. `R8Unorm` is used only for the
      1x1 placeholder bound in place of a missing texture. */
  datatype TextureFormat = Bgra8Unorm | Bgra8UnormSrgb | R8Unorm

  datatype TextureUsage = RenderAttachment | TextureBinding | CopyDst

  /** One `write_texture` call: the bytes written and their layout. */
  datatype Upload = Upload(data: seq<Byte>, bytesPerRow: U32, rowsPerImage: U32)

  /** A GPU texture plus its view. `contents` is the most recent upload, or
      `None` when nothing was ever written (a render target). */
  datatype Texture = Texture(
    width: U32,
    height: U32,
    format: TextureFormat,
    usage: set<TextureUsage>,
    contents: Option<Upload>)

  /** The engine's render-buffer descriptor: a render target backed by a texture. */
  datatype RenderBuffer = RenderBuffer(
    textureId: U32,
    width: U32,
    height: U32,
    hasStencilBuffer: bool,
    hasDepthBuffer: bool)

  /** Vertex formats an engine vertex buffer may declare. */
  datatype VertexBufferFormat = Vertex2f4ub2f | Vertex2f4ub2f2f28f | OtherVertexFormat(tag: nat)

  datatype VertexBuffer = VertexBuffer(format: VertexBufferFormat, data: seq<Byte>)

  datatype IndexBuffer = IndexBuffer(data: seq<Byte>)

  /** A geometry table entry: vertex buffer, its declared format, index buffer. */
  datatype Geometry = Geometry(vertices: seq<Byte>, format: VertexBufferFormat, indices: seq<Byte>)

  /** The placeholder texture created for every command list and bound where a
      draw names a texture id that is not in the table. */
  const FallbackTexture: Texture := Texture(1, 1, R8Unorm, {TextureBinding}, None)

  /** Replicates every alpha byte into the four channels of a BGRA pixel. */
  function ExpandA8(alpha: seq<Byte>): (rgba: seq<Byte>)
    ensures |rgba| == 4 * |alpha|
    ensures forall j :: 0 <= j < |rgba| ==> rgba[j] == alpha[j / 4]
  {
    if alpha == [] then []
    else
      var a := alpha[0];
      var rest := ExpandA8(alpha[1..]);
      assert forall j :: 4 <= j < 4 * |alpha| ==> (j - 4) / 4 == j / 4 - 1;
      [a, a, a, a] + rest
  }

  /** Keeps the first channel of every four-byte pixel: the inverse of `ExpandA8`. */
  function CollapseA8(rgba: seq<Byte>): (alpha: seq<Byte>)
    requires |rgba| % 4 == 0
  {
    seq(|rgba| / 4, i requires 0 <= i < |rgba| / 4 => rgba[4 * i])
  }

  /** Number of bytes the driver reads from the bitmap, `width * height * bpp`
      evaluated left to right on `u32`. */
  function PixelByteCount(b: Bitmap): Result<U32> {
    var area :- CheckedMul(b.width, b.height);
    CheckedMul(area, b.bytesPerPixel)
  }

  /** The engine's memory-safety obligation: the locked pixel memory holds at
      least the bytes the driver reads from it. */
  predicate Readable(b: Bitmap) {
    PixelByteCount(b).Ok? ==> PixelByteCount(b).value <= |b.pixels|
  }

  /** The bytes and layout `update_texture` hands to `write_texture`: A8 bitmaps
      are expanded to four bytes per pixel with a `width * 4` row stride; other
      formats are written unchanged with a `width * bpp` row stride. */
  function PrepareUpload(b: Bitmap): (r: Result<Upload>)
    requires Readable(b)
    ensures r.Ok? <==>
      && b.width * b.height <= U32_MAX
      && b.width * b.height * b.bytesPerPixel <= U32_MAX
      && (if b.format == A8Unorm then b.width * 4 else b.width * b.bytesPerPixel) <= U32_MAX
    ensures r.Fatal? ==> r.panic == ArithmeticOverflow
    ensures r.Ok? ==> r.value.rowsPerImage == b.height
    ensures r.Ok? && b.format == A8Unorm ==>
      && r.value.bytesPerRow == 4 * b.width
      && |r.value.data| == 4 * (b.width * b.height * b.bytesPerPixel)
      && forall j :: 0 <= j < |r.value.data| ==> r.value.data[j] == b.pixels[j / 4]
    ensures r.Ok? && b.format != A8Unorm ==>
      && r.value.bytesPerRow == b.width * b.bytesPerPixel
      && r.value.data == b.pixels[..b.width * b.height * b.bytesPerPixel]
  {
    var n :- PixelByteCount(b);
    var raw := b.pixels[..n];
    if b.format == A8Unorm then
      var stride :- CheckedMul(b.width, 4);
      Ok(Upload(ExpandA8(raw), stride, b.height))
    else
      var stride :- CheckedMul(b.width, b.bytesPerPixel);
      Ok(Upload(raw, stride, b.height))
  }

  /** The GPU format chosen for a bitmap format; any format other than the
      engine's two is unreachable. */
  function TextureFormatFor(f: BitmapFormat): (r: Result<TextureFormat>)
    ensures r.Ok? <==> !f.OtherBitmapFormat?
    ensures r.Fatal? ==> r.panic == UnsupportedBitmapFormat
    ensures r.Ok? ==> r.value != R8Unorm
    ensures r.Ok? ==> (r.value == TextureFormat.Bgra8UnormSrgb <==> f == BitmapFormat.Bgra8UnormSrgb)
  {
    match f
    case A8Unorm => Ok(Bgra8Unorm)
    case Bgra8UnormSrgb => Ok(TextureFormat.Bgra8UnormSrgb)
    case OtherBitmapFormat(_) => Fatal(UnsupportedBitmapFormat)
  }

  /** Usage flags: an empty bitmap describes a render target. */
  function UsageFor(isEmpty: bool): (usage: set<TextureUsage>)
    ensures TextureBinding in usage && CopyDst in usage
    ensures RenderAttachment in usage <==> isEmpty
    ensures |usage| == (if isEmpty then 3 else 2)
  {
    if isEmpty then {RenderAttachment, TextureBinding, CopyDst} else {TextureBinding, CopyDst}
  }

  /** Expansion loses nothing: collapsing its output gives the input back. */
  lemma CollapseExpandA8(alpha: seq<Byte>)
    ensures |ExpandA8(alpha)| % 4 == 0
    ensures CollapseA8(ExpandA8(alpha)) == alpha
  {
    var rgba := ExpandA8(alpha);
    var n := |alpha|;
    assert |rgba| == 4 * n;
    assert |rgba| / 4 == n;
    var collapsed := CollapseA8(rgba);
    forall i | 0 <= i < n
      ensures collapsed[i] == alpha[i]
    {
      ExpandA8Pixels(alpha, i);
      assert rgba[4 * i] == rgba[4 * i .. 4 * i + 4][0];
    }
  }

  /** Pixel view of the expansion: output pixel `i` is four copies of input byte `i`. */
  lemma {:induction false} ExpandA8Pixels(alpha: seq<Byte>, i: nat)
    requires i < |alpha|
    ensures ExpandA8(alpha)[4 * i .. 4 * i + 4] == [alpha[i], alpha[i], alpha[i], alpha[i]]
  {
    var a := alpha[0];
    var rest := ExpandA8(alpha[1..]);
    assert ExpandA8(alpha) == [a, a, a, a] + rest;
    if i > 0 {
      ExpandA8Pixels(alpha[1..], i - 1);
      assert ExpandA8(alpha)[4 * i .. 4 * i + 4] == rest[4 * (i - 1) .. 4 * (i - 1) + 4];
    }
  }
}
