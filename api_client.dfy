/**
 * The generic asynchronous HTTP client (services/api_client.py): a base URL
 * and an optional API key fixed at construction, and one request operation
 * that joins the URL, merges the bearer header with the caller's headers and
 * turns library errors into one failure message.
 */
module Api {
  import opened Wrappers
  import opened Text
  import opened Http

  /** The client's configuration; it never changes after construction. */
  datatype ApiClient = ApiClient(baseUrl: string, apiKey: Option<string>)

  /** `APIClient.__init__`: the base URL is kept with every leading and trailing '/' removed. */
  function NewApiClient(baseUrl: string, apiKey: Option<string>): (c: ApiClient)
    ensures c.apiKey == apiKey
    ensures exists i, j :: StrippedFrom(baseUrl, '/', i, j) && c.baseUrl == baseUrl[i..j]
    ensures c.baseUrl == [] || (c.baseUrl[0] != '/' && c.baseUrl[|c.baseUrl| - 1] != '/')
  {
    ApiClient(Strip(baseUrl, '/'), apiKey)
  }

  /** The headers the client adds on its own: a bearer token exactly when the key is truthy. */
  function DefaultHeaders(apiKey: Option<string>): map<string, string> {
    if IsTruthy(apiKey) then map["Authorization" := "Bearer " + apiKey.value] else map[]
  }

  /**
   * What `_request` raises: an `Exception` carrying the message it builds
   * from a library error, or the total timeout's `TimeoutError`, which is
   * not a library error and so escapes unconverted.
   */
  datatype ApiError = WrappedError(message: string) | TimeoutError

  /**
   * How an answer surfaces: a status of 400 or more is the library's
   * `ClientResponseError` and becomes "Erro HTTP <status>: <reason>"; a
   * connection failure becomes "Erro de conexão: <detail>"; a timeout
   * escapes as it is; otherwise the decoded body.
   */
  function ResponseResult(outcome: NetOutcome): Result<Json, ApiError> {
    match outcome
    case Responded(status, reason, _, body) =>
      if status >= 400 then Failure(WrappedError("Erro HTTP " + IntToString(status) + ": " + reason))
      else Success(body)
    case Unreachable(detail) => Failure(WrappedError("Erro de conexão: " + detail))
    case TimedOut(_) => Failure(TimeoutError)
  }

  /**
   * The request fails exactly on an error status, a lost connection or a
   * timeout, and a success hands back the body untouched; only the first two
   * are converted into a message.
   */
  lemma ResponseResultCases(outcome: NetOutcome)
    ensures ResponseResult(outcome).Success? <==> outcome.Responded? && outcome.status < 400
    ensures ResponseResult(outcome).Success? ==> ResponseResult(outcome).value == outcome.body
    ensures outcome.Responded? && outcome.status >= 400 ==>
      ResponseResult(outcome) == Failure(WrappedError("Erro HTTP " + IntToString(outcome.status) + ": " + outcome.reason))
    ensures outcome.Unreachable? ==>
      ResponseResult(outcome) == Failure(WrappedError("Erro de conexão: " + outcome.detail))
    ensures ResponseResult(outcome) == Failure(TimeoutError) <==> outcome.TimedOut?
  {
  }

  /**
   * `APIClient._request`: the request handed to the library and what the
   * call returns (`Failure` is the exception it raises).
   */
  method Request(client: ApiClient, verb: string, endpoint: string, params: Params,
                 headers: Option<map<string, string>>, outcome: NetOutcome)
    returns (sent: HttpRequest, r: Result<Json, ApiError>)
    ensures sent.verb == verb && sent.params == params && sent.timeout == RequestTimeout
    ensures sent.url == JoinUrl(client.baseUrl, endpoint)
    // a caller's header always wins
    ensures headers.Some? ==> forall k :: k in headers.value ==> k in sent.headers && sent.headers[k] == headers.value[k]
    // the bearer token is there unless the caller overrode it, and only with a truthy key
    ensures IsTruthy(client.apiKey) && !(headers.Some? && "Authorization" in headers.value) ==>
      "Authorization" in sent.headers && sent.headers["Authorization"] == "Bearer " + client.apiKey.value
    // nothing else is added
    ensures forall k :: k in sent.headers ==>
      (headers.Some? && k in headers.value) || (k == "Authorization" && IsTruthy(client.apiKey))
    // without caller headers exactly the client's own are sent
    ensures headers.None? ==> sent.headers == DefaultHeaders(client.apiKey)
    ensures r == ResponseResult(outcome)
  {
    var url := JoinUrl(client.baseUrl, endpoint);
    var finalHeaders := DefaultHeaders(client.apiKey);
    if headers.Some? && headers.value != map[] {
      finalHeaders := finalHeaders + headers.value;
    }
    sent := HttpRequest(verb, url, params, finalHeaders, RequestTimeout);
    r := ResponseResult(outcome);
  }
}
