/** Optional values (Kotlin's nullable types) and results that may carry a thrown exception. */
module Wrappers {

  /** `T?` in Kotlin: `None` is `null`. */
  datatype Option<+T> = None | Some(value: T)

  /** The exceptions the modelled code can throw. */
  datatype Exception =
    | IndexOutOfBoundsException   // `List.get` with an index outside the list
    | IllegalArgumentException    // `Bitmap.createBitmap` / `createScaledBitmap` argument checks

  /** The outcome of a call that either returns a value or throws. */
  datatype Result<+T> = Success(value: T) | Failure(error: Exception)
}
