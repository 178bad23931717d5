/** Swift's standard `Result<Success, Failure>`, which Sources/MonadicResult
    extends: a two-armed union with a success and a failure arm. */
module ResultCore {

  datatype Result<S, F> = Success(value: S) | Failure(error: F)
}
