/** Machine integers, bytes, and the result type every driver entry point returns.
    A Rust panic (`unwrap` on a missing key, `unreachable!()`, a failed `assert!`,
    or an overflowing `u32` operation in a debug build) aborts the process; the
    model returns `Fatal` with the reason instead. */
module Base {

  /** Largest value of Rust's `u32`. */
  const U32_MAX: int := 0xFFFF_FFFF

  type U32 = x: int | 0 <= x <= U32_MAX

  type Byte = x: int | 0 <= x < 256

  datatype Option<+T> = None | Some(value: T)

  /** Why the driver aborted. */
  datatype Panic =
    | MissingTexture(textureId: U32)
    | MissingRenderBuffer(renderBufferId: U32)
    | MissingGeometry(geometryId: U32)
    | UnsupportedBitmapFormat
    | UnsupportedVertexFormat
    | UnknownCommandType(tag: nat)
    | TargetAlsoSampled(textureId: U32)
    | SizeMismatch
    | ArithmeticOverflow

  datatype Result<+T> = Ok(value: T) | Fatal(panic: Panic) {

    predicate IsFailure() {
      Fatal?
    }

    function PropagateFailure<U>(): Result<U>
      requires Fatal?
    {
      Fatal(panic)
    }

    function Extract(): T
      requires Ok?
    {
      value
    }
  }

  /** `a + b` on `u32`, panicking on overflow as a debug build does. */
  function CheckedAdd(a: U32, b: U32): Result<U32> {
    if a + b <= U32_MAX then Ok(a + b) else Fatal(ArithmeticOverflow)
  }

  /** `a * b` on `u32`, panicking on overflow as a debug build does. */
  function CheckedMul(a: U32, b: U32): Result<U32> {
    if a * b <= U32_MAX then Ok(a * b) else Fatal(ArithmeticOverflow)
  }
}
