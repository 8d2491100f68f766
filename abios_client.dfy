/**
 * The synchronous Abios client (utils/AbiosClient.py): a session whose
 * headers are set once at construction, and one request operation.
 */
module Abios {
  import opened Wrappers
  import opened Text
  import opened Http

  /** `raise_for_status` of the synchronous library: statuses 400 to 599 are errors. */
  predicate IsErrorStatus(status: int) {
    400 <= status < 600
  }

  class AbiosClient {
    const url: string
    const apiKey: Option<string>
    /** The session's headers, sent with every request. */
    var sessionHeaders: map<string, string>

    /**
     * `AbiosClient.__init__`. `libraryHeaders` are the headers a fresh
     * session starts with, which belong to the HTTP library; with a truthy
     * key the bearer token and a JSON `Accept` are written over them.
     */
    constructor (url: string, apiKey: Option<string>, libraryHeaders: map<string, string>)
      ensures this.url == Strip(url, '/') && this.apiKey == apiKey
      ensures IsTruthy(apiKey) ==>
        sessionHeaders == libraryHeaders["Authorization" := "Bearer " + apiKey.value]["Accept" := "application/json"]
      ensures !IsTruthy(apiKey) ==> sessionHeaders == libraryHeaders
    {
      this.url := Strip(url, '/');
      this.apiKey := apiKey;
      sessionHeaders := libraryHeaders;
      if IsTruthy(apiKey) {
        sessionHeaders := sessionHeaders + map["Authorization" := "Bearer " + apiKey.value, "Accept" := "application/json"];
      }
    }

    /**
     * `AbiosClient._request`: an error status becomes
     * "Erro na requisição : <status> - <body text>", any other library
     * failure, a timeout included, "Falha na conexão : <detail>"; otherwise
     * the decoded body.
     */
    method Request(verb: string, endpoint: string, params: Params, outcome: NetOutcome)
      returns (sent: HttpRequest, r: Result<Json, string>)
      ensures sent.verb == verb && sent.params == params
      ensures sent.url == JoinUrl(url, endpoint)
      ensures sent.headers == sessionHeaders && sent.timeout == 10
      ensures r.Success? <==> outcome.Responded? && !IsErrorStatus(outcome.status)
      ensures r.Success? ==> r.value == outcome.body
      ensures outcome.Responded? && IsErrorStatus(outcome.status) ==>
        r == Failure("Erro na requisição : " + IntToString(outcome.status) + " - " + outcome.text)
      ensures outcome.Unreachable? || outcome.TimedOut? ==> r == Failure("Falha na conexão : " + outcome.detail)
    {
      sent := HttpRequest(verb, JoinUrl(url, endpoint), params, sessionHeaders, RequestTimeout);
      match outcome {
        case Responded(status, _, text, body) =>
          if IsErrorStatus(status) {
            r := Failure("Erro na requisição : " + IntToString(status) + " - " + text);
          } else {
            r := Success(body);
          }
        case Unreachable(detail) =>
          r := Failure("Falha na conexão : " + detail);
        case TimedOut(detail) =>
          // the library's `Timeout` is a `RequestException` too
          r := Failure("Falha na conexão : " + detail);
      }
    }
  }
}
