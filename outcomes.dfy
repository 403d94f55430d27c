/** Optional values, results and the Java exceptions the adapter can raise. */
module Outcomes {

  datatype Option<+T> = None | Some(value: T)

  /** The exception kinds that reach callers of the adapter. */
  datatype Error =
    | FosException(message: string, cause: Option<Error>)  // com.feedzai.fos.api.FOSException
    | NullReference(what: string)                             // dereference of a null reference
    | IndexOutOfBounds(index: int, size: int)               // list or array access out of range
    | IllegalArgument(message: string)                      // e.g. a malformed UUID text
    | ClassCast(what: string)                               // an unchecked generic cast that fails
    | RemoteFailure(message: string)                        // an exception from the Rserve transport
    | IoFailure(message: string)                            // an IOException from the file system
    | PropertyFailure(key: string)                          // ModelConfig.getIntProperty on an absent or non-integer value

  datatype Result<+T> = Success(value: T) | Failure(error: Error)
}
