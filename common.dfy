/** Shared value types: an optional value, and the outcome of an operation that can fail
    the way the backend's Django REST framework code fails (a raised exception). */
module Common {

  datatype Option<T> = None | Some(value: T)

  /** The exceptions raised by the modelled backend code. */
  datatype Failure =
    | ValidationError(detail: string)                  // serializers.ValidationError("...")
    | FieldValidationError(field: string, detail: string) // serializers.ValidationError({field: "..."})
    | PermissionDenied(detail: string)                 // rest_framework.exceptions.PermissionDenied
    | TypeError                                        // Python comparing a str with an int

  datatype Result<T> = Ok(value: T) | Err(error: Failure)
}
