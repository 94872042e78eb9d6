/**
 * What a request-service operation hands back: the decoded payload itself (the
 * `rawResponse` form, a PHP array) or the parsed aggregate object; and how an
 * endpoint's declared return type receives it.
 */
module Replies {
  import opened Wrappers
  import opened Errors
  import Php

  datatype Reply<+A> = Raw(payload: Php.Json) | Parsed(value: A)

  /** An endpoint declared to return the aggregate: a PHP array there is a TypeError. */
  function ReturnObject<A>(r: Result<Reply<A>, Error>): (o: Result<A, Error>)
    ensures o.Success? <==> r.Success? && r.value.Parsed?
    ensures o.Success? ==> o.value == r.value.value
    ensures r.Failure? ==> o == Failure(r.error)
    ensures r.Success? && r.value.Raw? ==> o == Failure(Thrown(TypeError))
  {
    match r
    case Failure(e) => Failure(e)
    case Success(Parsed(v)) => Success(v)
    case Success(Raw(_)) => Failure(Thrown(TypeError))
  }

  /** An endpoint declared to return `array`: an aggregate object there is a TypeError. */
  function ReturnArray<A>(r: Result<Reply<A>, Error>): (o: Result<Php.Json, Error>)
    ensures o.Success? <==> r.Success? && r.value.Raw?
    ensures o.Success? ==> o.value == r.value.payload
    ensures r.Failure? ==> o == Failure(r.error)
    ensures r.Success? && r.value.Parsed? ==> o == Failure(Thrown(TypeError))
  {
    match r
    case Failure(e) => Failure(e)
    case Success(Raw(j)) => Success(j)
    case Success(Parsed(_)) => Failure(Thrown(TypeError))
  }

  /** A lookup result returned where a non-nullable object is declared: null is a TypeError. */
  function ReturnRequired<T>(found: Option<T>): (o: Result<T, Error>)
    ensures o.Success? <==> found.Some?
    ensures o.Success? ==> o.value == found.value
    ensures found.None? ==> o == Failure(Thrown(TypeError))
  {
    match found
    case Some(v) => Success(v)
    case None => Failure(Thrown(TypeError))
  }
}
