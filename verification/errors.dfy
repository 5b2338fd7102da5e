/** Go's `error` interface as a value: either nil, or a non-nil error whose
    `Error()` method returns `message`. */
module Errors {

  datatype Error = Nil | Fail(message: string)
}
