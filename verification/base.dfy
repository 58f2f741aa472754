/** Values shared by both layers: nullable references, failure results, bytes and GUIDs. */
module Base {

  /** A C# reference that may be null: `None` is null. */
  datatype Option<+T> = None | Some(value: T)

  /** The outcome of an operation that may throw: `Failure` carries what was thrown. */
  datatype Result<+T, +E> = Success(value: T) | Failure(error: E) {
    predicate IsFailure() { Failure? }

    function PropagateFailure<U>(): Result<U, E>
      requires Failure?
    {
      Failure(error)
    }

    function Extract(): T
      requires Success?
    {
      value
    }
  }

  newtype byte = x: int | 0 <= x < 256

  /** System.Guid: 128 opaque bits. */
  datatype Guid = Guid(bits: bv128)

  /** Guid.Empty, the all-zero identifier. */
  const EmptyGuid: Guid := Guid(0)
}
