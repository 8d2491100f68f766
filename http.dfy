/**
 * What the two HTTP clients share: the JSON values a response decodes to,
 * the request they hand to the HTTP library, and what the network answers.
 * The network itself is not modelled: its answer is a `NetOutcome` given
 * to the client by the caller.
 */
module Http {
  import opened Wrappers
  import opened Text

  /** A decoded JSON document (numbers are integers here). */
  datatype Json =
    | JNull
    | JBool(b: bool)
    | JNumber(n: int)
    | JString(s: string)
    | JArray(items: seq<Json>)
    | JObject(fields: seq<(string, Json)>)

  /** A query-string value: the clients pass both text and integers. */
  datatype QueryValue = QText(text: string) | QInt(n: int)

  type Params = seq<(string, QueryValue)>

  /** Everything the client passes to the HTTP library for one call. */
  datatype HttpRequest = HttpRequest(
    verb: string,
    url: string,
    params: Params,
    headers: map<string, string>,
    timeout: nat)

  /**
   * What the network did with a request: an answer with a status line and
   * body, no connection at all, or no complete answer within the timeout.
   */
  datatype NetOutcome =
    | Responded(status: int, reason: string, text: string, body: Json)
    | Unreachable(detail: string)
    | TimedOut(detail: string)

  /** Python truthiness of an optional API key: present and not the empty string. */
  predicate IsTruthy(key: Option<string>) {
    key.Some? && key.value != ""
  }

  /** Every request either client sends carries a total timeout of 10 seconds. */
  const RequestTimeout: nat := 10

  /** `f"{base}/{endpoint.lstrip('/')}"`: one slash between base and endpoint, whatever the endpoint starts with. */
  function JoinUrl(base: string, endpoint: string): (url: string)
    ensures StartsWith(url, base + "/")
    ensures |url| == |base| + 1 || url[|base| + 1] != '/'
    ensures EndsWith(url, LStrip(endpoint, '/'))
    ensures |url| == |base| + 1 + |LStrip(endpoint, '/')|
  {
    base + "/" + LStrip(endpoint, '/')
  }

  /** However many slashes an endpoint starts with, the joined URL is the same: "/matches" and "matches" agree. */
  lemma JoinUrlIgnoresLeadingSlashes(base: string, k: nat, endpoint: string)
    ensures JoinUrl(base, Repeat('/', k) + endpoint) == JoinUrl(base, endpoint)
  {
    LStripIgnoresLeading(k, endpoint, '/');
  }
}
