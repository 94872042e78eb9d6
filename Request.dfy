/**
 * The uncached `RequestService`: a GET on the configured server, whose body the
 * HTTP client collaborator decodes. It offers only `getLatestRates`.
 */
module Request {
  import opened Wrappers
  import opened Errors
  import opened Php
  import opened Sources
  import opened Replies
  import opened Query
  import LatestRatesResponse

  const LatestPath: string := "latest"

  /** The HTTP client: a GET of a URL with the request options, answering the decoded body or throwing. */
  type HttpClient = (string, seq<(string, Params)>) -> Result<Json, Cause>

  datatype RequestService = RequestService(server: Server, client: HttpClient)
  {
    /**
     * `makeRequest`: GET `server/path` with the builder's query options; without a
     * builder the options are null, which the client's `array` parameter rejects.
     */
    function MakeRequest(path: string, parameters: Option<Params>): (r: Result<Json, Cause>)
      ensures parameters.None? ==> r == Failure(TypeError)
      ensures parameters.Some? ==> r == client(server.Value() + "/" + path, QueryOptions(parameters.value))
    {
      match parameters
      case None => Failure(TypeError)
      case Some(ps) => client(server.Value() + "/" + path, QueryOptions(ps))
    }

    /** `getLatestRates`: the decoded body of `latest`, as it is or parsed as LatestRates. */
    function GetLatestRates(parameters: Option<Params>, rawResponse: bool): (r: Result<Reply<LatestRatesResponse.LatestRates>, Error>)
      ensures MakeRequest(LatestPath, parameters).Failure? ==> r == Failure(Thrown(MakeRequest(LatestPath, parameters).error))
      ensures rawResponse && MakeRequest(LatestPath, parameters).Success? ==> r == Success(Raw(MakeRequest(LatestPath, parameters).value))
      ensures !rawResponse && MakeRequest(LatestPath, parameters).Success? ==>
                match LatestRatesResponse.FromJson(MakeRequest(LatestPath, parameters).value)
                case Success(v) => r == Success(Parsed(v))
                case Failure(e) => r == Failure(e)
    {
      var body :- Throw(MakeRequest(LatestPath, parameters));
      if rawResponse then Success(Raw(body))
      else
        var rates :- LatestRatesResponse.FromJson(body);
        Success(Parsed(rates))
    }
  }
}
