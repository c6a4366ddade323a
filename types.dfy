/** Shapes shared by every part of the event store: optional values, results of
    operations that can throw, and the errors the store raises. */
module Types {

  /** A value that may be absent (TypeScript's `T | undefined`). */
  datatype Option<+T> = None | Some(value: T)

  /** The result of an operation that returns a value or throws. */
  datatype Result<+T, +E> = Success(value: T) | Failure(error: E)

  /** The result of an operation that returns nothing or throws. */
  datatype Outcome<+E> = Pass | Fail(error: E)

  /** A failure reported by the DynamoDB client itself. A cancelled transaction
      carries one cancellation-reason code per item, in item order
      ("None" for an item whose condition held). */
  datatype ClientError =
    | TransactionCanceledException(cancellationReasons: seq<string>)
    | ServiceException(name: string)

  /** The errors the store's operations throw. */
  datatype Error =
      /** `new Error(message)` */
    | Error(message: string)
      /** `new OptimisticLockError(message, cause)` */
    | OptimisticLockError(message: string, cause: ClientError)
      /** a client failure rethrown unchanged */
    | ClientFailure(cause: ClientError)
      /** a `TypeError` the JavaScript runtime throws */
    | TypeError(message: string)
}
