/** Failure-carrying datatypes shared by the whole model.

    The service handles every problem in one place: any exception raised while
    normalising, assembling or scoring a request is caught and turned into a
    client error. `Error` records which coercion failed, so that the model can
    say *which* field made the request fail.
 */
module Results {

  /** The Python conversion that was attempted: `int(...)` or `float(...)`. */
  datatype Target = ToInt | ToFloat

  /** Why a request was rejected. */
  datatype Error =
    | CoercionFailed(field: string, target: Target)  // int()/float() raised on this field
    | NonNumericColumn(field: string)                // a schema column the artifacts cannot read

  datatype Option<+T> = None | Some(value: T)

  datatype Result<+T> = Ok(value: T) | Err(error: Error)
}
