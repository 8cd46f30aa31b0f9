/**
 * The JSON responses the routes write (`res.status(..).json(..)`), reduced to
 * the fields the handlers set.
 */
module Http {

  /** One entry of express-validator's `errors.array()`: the field's path and its message. */
  datatype ValidationError = ValidationError(path: string, msg: string)

  /** The JSON body of a response; `success` is true exactly for `Succeeded`. */
  datatype JsonBody =
    | Succeeded(message: string, response: seq<string>)   // { success: true, message, response }
    | Errored(message: string, error: string)             // { success: false, message, error }
    | Rejected(errors: seq<ValidationError>)              // { success: false, errors }

  datatype HttpResponse = HttpResponse(status: nat, body: JsonBody)

  /** The 500 reply of every `catch` block and of the "No users found" branch. */
  function ServerError(error: string): (response: HttpResponse) {
    HttpResponse(500, Errored("ERROR", error))
  }

  /** The 400 reply of `validateResult`. */
  function BadRequest(errors: seq<ValidationError>): (response: HttpResponse) {
    HttpResponse(400, Rejected(errors))
  }
}
