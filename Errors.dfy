/**
 * The throwables of the client. PHP errors raised while reading a payload are
 * `Cause`s; `RequestServiceException` is the library's own exception, created
 * either in a response context (naming the object that could not be created)
 * or in a service context (naming the failing method).
 */
module Errors {
  import opened Wrappers

  /** PHP throwables the core can raise or receive from its collaborators. */
  datatype Cause =
    | ValueError          // a backed enum's from() given a string that is no case value
    | TypeError           // a strict-types argument or return type mismatch
    | ArgumentCountError  // a required (named) argument was not passed
    | InvalidDate         // new DateTimeImmutable() could not parse its text
    | TransportFailure    // raised by the HTTP client collaborator
    | InvalidCacheKey     // raised by the cache collaborator for a key it rejects

  datatype Error =
    | Thrown(cause: Cause)                       // a PHP error propagating unwrapped
    | ResponseException(objectName: string)      // RequestServiceException::createInResponseContext
    | ServiceException(methodName: string)       // RequestServiceException::create

  /** A PHP error that is not caught, as the error of a call. */
  function Throw<T>(r: Result<T, Cause>): (t: Result<T, Error>)
    ensures t.Success? <==> r.Success?
    ensures r.Success? ==> t.value == r.value
    ensures r.Failure? ==> t.error == Thrown(r.error)
  {
    match r
    case Success(v) => Success(v)
    case Failure(c) => Failure(Thrown(c))
  }
}
