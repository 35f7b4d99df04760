/** Optional values and SDK results, as the view-model receives them from its callbacks. */
module Outcomes {

  /** A value that may be absent, Kotlin's nullable `T?`. */
  datatype Option<+T> = None | Some(value: T)

  /** The opaque `Throwable` an SDK call fails with; only its identity matters here. */
  datatype SdkError = SdkError(message: string)

  /** Kotlin's `Result<T>`: a success value or a failure, never both. */
  datatype Result<+T> = Success(value: T) | Failure(error: SdkError)
}
