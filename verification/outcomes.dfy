/**
 * Exceptions the launcher raises or lets through, and the success/failure
 * wrapper every modelled operation returns instead of throwing.
 */
module Outcomes {
  import opened JsValues

  datatype Option<T> = None | Some(value: T)

  datatype Failure =
      /** `new Error(message)` thrown by the launcher itself */
    | Thrown(message: string)
      /** `ERR_INVALID_INPUT(message)` */
    | InvalidInput(message: string)
      /** `ERR_OPERATION_FAILED(detail, info)` built from a bail */
    | OperationFailed(detail: Value, info: Value)
      /** the TypeError of calling a string method on a value that is not a string */
    | NotAFunction(callee: string)
      /** an exception raised by a collaborator, propagated unchanged */
    | Rethrown(reason: Value)

  datatype Result<T> = Ok(value: T) | Err(error: Failure)
}
