/** The two fixed vertex-buffer layouts the draw pipeline declares. The engine
    writes raw vertex structs into the buffers, so each layout must agree with
    the struct byte for byte: attributes packed back to back, shader locations
    numbered in order, stride equal to the struct size. */
module VertexLayouts {
  import opened Base
  import opened Resources

  datatype AttributeFormat = Float32x2 | Uint8x4 | Float32x4

  function AttributeSize(f: AttributeFormat): nat {
    match f
    case Float32x2 => 8
    case Uint8x4 => 4
    case Float32x4 => 16
  }

  datatype VertexAttribute = VertexAttribute(format: AttributeFormat, offset: nat, shaderLocation: nat)

  datatype VertexBufferLayout = VertexBufferLayout(arrayStride: nat, attributes: seq<VertexAttribute>)

  /** `ULVertex_2f_4ub_2f`: position, colour, texture coordinate. */
  const SimpleLayout: VertexBufferLayout :=
    VertexBufferLayout(20, [
      VertexAttribute(Float32x2, 0, 0),
      VertexAttribute(Uint8x4, 2 * 4, 1),
      VertexAttribute(Float32x2, 3 * 4, 2)
    ])

  /** `ULVertex_2f_4ub_2f_2f_28f`: the simple fields, a second coordinate pair
      and seven four-float data slots. */
  const ExtendedLayout: VertexBufferLayout :=
    VertexBufferLayout(140, [
      VertexAttribute(Float32x2, 0, 0),
      VertexAttribute(Uint8x4, 2 * 4, 1),
      VertexAttribute(Float32x2, 3 * 4, 2),
      VertexAttribute(Float32x2, 5 * 4, 3),
      VertexAttribute(Float32x4, 7 * 4, 4),
      VertexAttribute(Float32x4, 11 * 4, 5),
      VertexAttribute(Float32x4, 15 * 4, 6),
      VertexAttribute(Float32x4, 19 * 4, 7),
      VertexAttribute(Float32x4, 23 * 4, 8),
      VertexAttribute(Float32x4, 27 * 4, 9),
      VertexAttribute(Float32x4, 31 * 4, 10)
    ])

  /** Byte offsets of a layout's attributes, in declaration order. */
  function Offsets(attrs: seq<VertexAttribute>): seq<nat> {
    seq(|attrs|, i requires 0 <= i < |attrs| => attrs[i].offset)
  }

  /** Attributes laid out back to back from offset 0 with locations 0..n-1,
      and a stride that ends exactly at the last attribute. */
  predicate Packed(layout: VertexBufferLayout) {
    var attrs := layout.attributes;
    && |attrs| > 0
    && attrs[0].offset == 0
    && (forall i :: 0 <= i < |attrs| ==> attrs[i].shaderLocation == i)
    && (forall i :: 0 < i < |attrs| ==>
          attrs[i].offset == attrs[i - 1].offset + AttributeSize(attrs[i - 1].format))
    && layout.arrayStride == attrs[|attrs| - 1].offset + AttributeSize(attrs[|attrs| - 1].format)
  }

  /** The components a vertex format's name spells out, as (count, bytes each):
      `2f_4ub_2f` is two floats, four unsigned bytes, two floats. */
  function NamedComponents(f: VertexBufferFormat): seq<(nat, nat)> {
    match f
    case Vertex2f4ub2f => [(2, 4), (4, 1), (2, 4)]
    case Vertex2f4ub2f2f28f => [(2, 4), (4, 1), (2, 4), (2, 4), (28, 4)]
    case OtherVertexFormat(_) => []
  }

  /** Size in bytes of the engine's vertex struct, summed over its named components. */
  function ComponentBytes(components: seq<(nat, nat)>): nat {
    if components == [] then 0
    else components[0].0 * components[0].1 + ComponentBytes(components[1..])
  }

  /** The layout declared for a geometry's vertex format; any other format is
      unreachable. */
  function LayoutFor(f: VertexBufferFormat): (r: Result<VertexBufferLayout>)
    ensures r.Ok? <==> !f.OtherVertexFormat?
    ensures r.Fatal? ==> r.panic == UnsupportedVertexFormat
    ensures r.Ok? ==> Packed(r.value)
    ensures r.Ok? ==> r.value.arrayStride == ComponentBytes(NamedComponents(f))
    ensures f == Vertex2f4ub2f ==>
      r.Ok? && |r.value.attributes| == 3 && Offsets(r.value.attributes) == [0, 8, 12]
    ensures f == Vertex2f4ub2f2f28f ==>
      && r.Ok? && |r.value.attributes| == 11
      && Offsets(r.value.attributes) == [0, 8, 12, 20, 28, 44, 60, 76, 92, 108, 124]
  {
    match f
    case Vertex2f4ub2f => SimpleLayoutPacked(); Ok(SimpleLayout)
    case Vertex2f4ub2f2f28f => ExtendedLayoutPacked(); Ok(ExtendedLayout)
    case OtherVertexFormat(_) => Fatal(UnsupportedVertexFormat)
  }

  lemma SimpleLayoutPacked()
    ensures Packed(SimpleLayout)
    ensures Offsets(SimpleLayout.attributes) == [0, 8, 12]
    ensures SimpleLayout.arrayStride == ComponentBytes(NamedComponents(Vertex2f4ub2f))
  {
    var named := NamedComponents(Vertex2f4ub2f);
    assert ComponentBytes(named[2..]) == 8;
    assert ComponentBytes(named[1..]) == 12;
    var attrs := SimpleLayout.attributes;
    forall i | 0 < i < |attrs|
      ensures attrs[i].offset == attrs[i - 1].offset + AttributeSize(attrs[i - 1].format)
    {
      assert i == 1 || i == 2;
    }
  }

  lemma ExtendedLayoutPacked()
    ensures Packed(ExtendedLayout)
    ensures Offsets(ExtendedLayout.attributes) == [0, 8, 12, 20, 28, 44, 60, 76, 92, 108, 124]
    ensures ExtendedLayout.arrayStride == ComponentBytes(NamedComponents(Vertex2f4ub2f2f28f))
  {
    ExtendedStride();
    ExtendedLocations();
    ExtendedAdjacent();
  }

  lemma ExtendedStride()
    ensures ExtendedLayout.arrayStride == ComponentBytes(NamedComponents(Vertex2f4ub2f2f28f))
  {
    var named := NamedComponents(Vertex2f4ub2f2f28f);
    assert ComponentBytes(named[4..]) == 112;
    assert ComponentBytes(named[3..]) == 120;
    assert ComponentBytes(named[2..]) == 128;
    assert ComponentBytes(named[1..]) == 132;
  }

  lemma ExtendedLocations()
    ensures forall i :: 0 <= i < |ExtendedLayout.attributes| ==> ExtendedLayout.attributes[i].shaderLocation == i
  {
    var attrs := ExtendedLayout.attributes;
    forall i | 0 <= i < |attrs|
      ensures attrs[i].shaderLocation == i
    {
      assert i < 11;
    }
  }

  lemma ExtendedAdjacent()
    ensures
      var attrs := ExtendedLayout.attributes;
      forall i :: 0 < i < |attrs| ==>
        attrs[i].offset == attrs[i - 1].offset + AttributeSize(attrs[i - 1].format)
  {
    var attrs := ExtendedLayout.attributes;
    forall i | 0 < i < |attrs|
      ensures attrs[i].offset == attrs[i - 1].offset + AttributeSize(attrs[i - 1].format)
    {
      assert i < 11;
    }
  }


  /** In a packed layout no two attributes overlap and every attribute lies
      inside one vertex: attribute `i` ends at or before attribute `j` starts. */
  lemma {:induction false} PackedAttributesDisjoint(layout: VertexBufferLayout, i: nat, j: nat)
    requires Packed(layout)
    requires i < j < |layout.attributes|
    ensures layout.attributes[i].offset + AttributeSize(layout.attributes[i].format)
            <= layout.attributes[j].offset
    decreases j - i
  {
    var attrs := layout.attributes;
    if i + 1 < j {
      PackedAttributesDisjoint(layout, i, j - 1);
      assert attrs[j].offset == attrs[j - 1].offset + AttributeSize(attrs[j - 1].format);
    } else {
      assert attrs[j].offset == attrs[j - 1].offset + AttributeSize(attrs[j - 1].format);
    }
  }

  /** Every attribute of a packed layout fits inside the stride. */
  lemma {:induction false} PackedAttributesWithinStride(layout: VertexBufferLayout, i: nat)
    requires Packed(layout)
    requires i < |layout.attributes|
    ensures layout.attributes[i].offset + AttributeSize(layout.attributes[i].format)
            <= layout.arrayStride
  {
    var n := |layout.attributes|;
    if i < n - 1 {
      PackedAttributesDisjoint(layout, i, n - 1);
    }
  }

  /** The extended layout starts with the simple layout's three attributes,
      so shaders written for the simple vertex read the same bytes from both. */
  lemma ExtendedExtendsSimple()
    ensures ExtendedLayout.attributes[..3] == SimpleLayout.attributes
    ensures SimpleLayout.arrayStride < ExtendedLayout.arrayStride
  {
  }
}
