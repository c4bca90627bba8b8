/** Layout of the per-draw uniform block (`UniformBuffer`). Its values are
    floating point and come from a foreign projection call, so only the layout
    is modelled: field order, sizes in four-byte words, and byte offsets. */
module Uniforms {

  /** Fields of the uniform block in declaration order. */
  datatype UniformField = State | Transform | Scalar4 | Vector | ClipSize | Padding | Clip

  const UniformFields: seq<UniformField> := [State, Transform, Scalar4, Vector, ClipSize, Padding, Clip]

  /** Size of a field in four-byte words (`f32` or `u32`). */
  function WordCount(f: UniformField): nat {
    match f
    case State => 4
    case Transform => 16
    case Scalar4 => 8
    case Vector => 8 * 4
    case ClipSize => 1
    case Padding => 3
    case Clip => 8 * 16
  }

  /** Whether the shader reads the field as four-float vectors or matrices,
      which must start on a 16-byte boundary. */
  predicate IsVectorField(f: UniformField) {
    f in {State, Transform, Scalar4, Vector, Clip}
  }

  function Words(fields: seq<UniformField>): nat {
    if fields == [] then 0 else Words(fields[..|fields| - 1]) + WordCount(fields[|fields| - 1])
  }

  /** Byte offset of field `i`: the `repr(C)` layout of four-byte scalars has
      no implicit padding. */
  function ByteOffset(fields: seq<UniformField>, i: nat): nat
    requires i <= |fields|
  {
    4 * Words(fields[..i])
  }

  /** Minimum binding size the bind-group layout declares for the uniform buffer. */
  const MinUniformBindingSize: nat := 768

  /** The block is 4+16+8+32+1+3+128 = 192 words, exactly the declared minimum
      binding size, and the explicit padding puts every vector or matrix field
      on a 16-byte boundary. */
  lemma UniformBlockLayout()
    ensures Words(UniformFields) == 192
    ensures 4 * Words(UniformFields) == MinUniformBindingSize
    ensures forall i :: 0 <= i < |UniformFields| && IsVectorField(UniformFields[i]) ==>
              ByteOffset(UniformFields, i) % 16 == 0
    ensures ByteOffset(UniformFields, 6) == 256
  {
    var f := UniformFields;
    assert f[..0] == [];
    assert f[..1][..0] == f[..0];
    assert f[..2][..1] == f[..1];
    assert f[..3][..2] == f[..2];
    assert f[..4][..3] == f[..3];
    assert f[..5][..4] == f[..4];
    assert f[..6][..5] == f[..5];
    assert f[..7][..6] == f[..6];
    assert Words(f[..1]) == 4;
    assert Words(f[..2]) == 20;
    assert Words(f[..3]) == 28;
    assert Words(f[..4]) == 60;
    assert Words(f[..5]) == 61;
    assert Words(f[..6]) == 64;
    assert f[..7] == f;
    forall i | 0 <= i < |f| && IsVectorField(f[i])
      ensures ByteOffset(f, i) % 16 == 0
    {
      assert i in {0, 1, 2, 3, 6};
    }
  }
}
