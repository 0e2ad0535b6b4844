/** Small failure-carrying datatypes shared by every module of the model. */
module Wrappers {

  /** A Go pointer or error value: `None` is nil. */
  datatype Option<+T> = None | Some(value: T)

  /** A value or an error, as returned by the cluster API. */
  datatype Result<+R, +E> = Success(value: R) | Failure(error: E)

  /** How a Go call ended: it returned normally, or it panicked (a nil
      pointer dereference, an index out of range). */
  datatype Completion<+T> = Normal(value: T) | Panic(reason: string)

  const NilDereference := "invalid memory address or nil pointer dereference"
  const IndexOutOfRange := "index out of range [0] with length 0"

  /** The pointed-to string, or "" for nil: the `canary_version` local of
      the resource builders. */
  function OrEmpty(s: Option<string>): string {
    match s
    case Some(v) => v
    case None => ""
  }
}
