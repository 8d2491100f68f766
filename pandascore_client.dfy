/**
 * The statistics API client (services/pandas_score_client.py): four
 * queries about the tracked team, each behind its own cache entry with a
 * time-to-live of 300 seconds. A call within the time-to-live returns the
 * cached data without a request; otherwise it requests, replaces the entry
 * on success and returns the result, or returns an empty list on failure and
 * leaves the entry as it was.
 *
 * The clock is read twice per call, as in the source: `now` for the
 * freshness check and `answeredAt`, once the answer has arrived, for the new
 * entry's timestamp (both in whole seconds). The network's answer is the
 * parameter `outcome`.
 */
module PandaScore {
  import opened Wrappers
  import opened Text
  import opened Http
  import opened Api

  /** PandaScore's id of the tracked team. */
  const FuriaId := 124530
  const CacheTtl := 300
  const BaseUrl := "https://api.pandascore.co/csgo"

  /** The four cached queries: last finished match, upcoming matches, running match, full team. */
  datatype QueryKind = LastMatch | UpcomingMatches | RunningMatch | FullTeam

  /** A cache entry: the data last fetched and when. */
  datatype Entry = Entry(data: Json, cacheTimestamp: int)

  /** What every entry holds before its first successful fetch. */
  const InitialEntry := Entry(JArray([]), 0)

  /** The endpoint and query filters of one kind of query. */
  datatype QuerySpec = QuerySpec(endpoint: string, params: Params)

  function Query(kind: QueryKind): QuerySpec {
    match kind
    case LastMatch => QuerySpec("/matches", [("filter[status]", QText("finished")), ("filter[opponent_id]", QInt(FuriaId)),
                                             ("sort", QText("-begin_at")), ("page[size]", QInt(1))])
    case UpcomingMatches => QuerySpec("matches/upcoming", [("filter[opponent_id]", QInt(FuriaId))])
    case RunningMatch => QuerySpec("matches/running", [("filter[opponent_id]", QInt(FuriaId))])
    case FullTeam => QuerySpec("/teams", [("filter[id]", QInt(FuriaId))])
  }

  /** An entry may be served at `now` when it is younger than the time-to-live (strictly). */
  predicate IsFresh(e: Entry, now: int) {
    now - e.cacheTimestamp < CacheTtl
  }

  /** The outcome of one cache-aside call on one entry. */
  datatype Lookup = Lookup(result: Json, entry: Entry, fetched: bool)

  /**
   * One cache-aside call on entry `e` at time `now`, where `fetch` is what a
   * request would return and `answeredAt` the time it returned.
   */
  function CacheAside(e: Entry, now: int, answeredAt: int, fetch: Result<Json, ApiError>): Lookup {
    if IsFresh(e, now) then Lookup(e.data, e, false)
    else match fetch
      case Success(d) => Lookup(d, Entry(d, answeredAt), true)
      case Failure(_) => Lookup(JArray([]), e, true)
  }

  /** The single-call promises: a hit returns the cached data untouched; a miss fetches, and only a success changes the entry. */
  lemma CacheAsideCases(e: Entry, now: int, answeredAt: int, fetch: Result<Json, ApiError>)
    ensures !CacheAside(e, now, answeredAt, fetch).fetched <==> now - e.cacheTimestamp < 300
    ensures now - e.cacheTimestamp < 300 ==>
      CacheAside(e, now, answeredAt, fetch).result == e.data && CacheAside(e, now, answeredAt, fetch).entry == e
    ensures now - e.cacheTimestamp >= 300 && fetch.Success? ==>
      CacheAside(e, now, answeredAt, fetch).result == fetch.value
      && CacheAside(e, now, answeredAt, fetch).entry == Entry(fetch.value, answeredAt)
    ensures now - e.cacheTimestamp >= 300 && fetch.Failure? ==>
      CacheAside(e, now, answeredAt, fetch).result == JArray([]) && CacheAside(e, now, answeredAt, fetch).entry == e
  {
  }

  /** Exactly 300 seconds after a successful fetch the entry is stale and the call fetches again. */
  lemma ExpiresAtExactlyTtl(d: Json, t: int, answeredAt: int, fetch: Result<Json, ApiError>)
    ensures CacheAside(Entry(d, t), t + 299, answeredAt, fetch) == Lookup(d, Entry(d, t), false)
    ensures CacheAside(Entry(d, t), t + 300, answeredAt, fetch).fetched
  {
  }

  /** A failed fetch leaves the entry stale, so every later call fetches again. */
  lemma FailureKeepsEntryStale(e: Entry, now: int, answeredAt: int, later: int, error: ApiError)
    requires !IsFresh(e, now) && later >= now
    ensures !IsFresh(CacheAside(e, now, answeredAt, Failure(error)).entry, later)
  {
  }

  /**
   * The initial timestamp 0 makes the first call of a query miss only from
   * time 300 on; before that it serves the initial empty list.
   */
  lemma FirstCallMissesFromTtl(now: int, answeredAt: int, fetch: Result<Json, ApiError>)
    ensures CacheAside(InitialEntry, now, answeredAt, fetch).fetched <==> now >= CacheTtl
    ensures now < CacheTtl ==> CacheAside(InitialEntry, now, answeredAt, fetch).result == JArray([])
  {
  }

  /** One call of a sequence: when it happens, what a request would return and when that answer arrives. */
  datatype Call = Call(now: int, answeredAt: int, fetch: Result<Json, ApiError>)

  /** The results, final entry and number of requests of a sequence of calls on one entry. */
  datatype Trace = Trace(results: seq<Json>, entry: Entry, fetches: nat)

  function Run(e: Entry, calls: seq<Call>): (t: Trace)
    ensures |t.results| == |calls|
    decreases |calls|
  {
    if calls == [] then Trace([], e, 0)
    else
      var step := CacheAside(e, calls[0].now, calls[0].answeredAt, calls[0].fetch);
      var rest := Run(step.entry, calls[1..]);
      Trace([step.result] + rest.results, rest.entry, rest.fetches + (if step.fetched then 1 else 0))
  }

  predicate Chronological(calls: seq<Call>) {
    forall i, j :: 0 <= i < j < |calls| ==> calls[i].now <= calls[j].now
  }

  /** While an entry is fresh, no call makes a request and every call sees the same data. */
  lemma {:induction false} NoRequestWhileFresh(e: Entry, calls: seq<Call>)
    requires forall i :: 0 <= i < |calls| ==> IsFresh(e, calls[i].now)
    ensures Run(e, calls).fetches == 0 && Run(e, calls).entry == e
    ensures forall i :: 0 <= i < |calls| ==> Run(e, calls).results[i] == e.data
  {
    if calls != [] {
      NoRequestWhileFresh(e, calls[1..]);
      var rest := Run(e, calls[1..]);
      assert Run(e, calls).results == [e.data] + rest.results;
      forall i | 0 <= i < |calls| ensures Run(e, calls).results[i] == e.data {
        if i > 0 { assert calls[1..][i - 1] == calls[i]; }
      }
    }
  }

  /**
   * Calls in time order, all within 300 seconds of the first, whose requests
   * would all succeed (each answer arriving no earlier than its call), make
   * at most one request.
   */
  lemma {:induction false} AtMostOneRequestPerWindow(e: Entry, calls: seq<Call>)
    requires Chronological(calls)
    requires forall i :: 0 <= i < |calls| ==> calls[i].now <= calls[i].answeredAt
    requires calls != [] ==> forall i :: 0 <= i < |calls| ==> calls[i].now < calls[0].now + CacheTtl
    requires forall i :: 0 <= i < |calls| ==> calls[i].fetch.Success?
    ensures Run(e, calls).fetches <= 1
  {
    if calls != [] {
      var step := CacheAside(e, calls[0].now, calls[0].answeredAt, calls[0].fetch);
      var rest := calls[1..];
      if step.fetched {
        forall i | 0 <= i < |rest| ensures IsFresh(step.entry, rest[i].now) {
          assert rest[i] == calls[i + 1];
        }
        NoRequestWhileFresh(step.entry, rest);
      } else {
        assert step.entry == e;
        if rest != [] {
          forall i | 0 <= i < |rest| ensures rest[i].now < rest[0].now + CacheTtl {
            assert rest[i] == calls[i + 1] && rest[0] == calls[1];
          }
        }
        forall i | 0 <= i < |rest| ensures rest[i].now <= rest[i].answeredAt {
          assert rest[i] == calls[i + 1];
        }
        AtMostOneRequestPerWindow(e, rest);
      }
    }
  }

  /** Starting from a stale entry, calls in time order whose requests all fail each make a request and each return an empty list. */
  lemma {:induction false} FailuresRequestEveryTime(e: Entry, calls: seq<Call>)
    requires calls != [] ==> !IsFresh(e, calls[0].now)
    requires Chronological(calls)
    requires forall i :: 0 <= i < |calls| ==> calls[i].fetch.Failure?
    ensures Run(e, calls).fetches == |calls| && Run(e, calls).entry == e
    ensures forall i :: 0 <= i < |calls| ==> Run(e, calls).results[i] == JArray([])
  {
    if calls != [] {
      var rest := calls[1..];
      if rest != [] { assert rest[0] == calls[1]; }
      forall i, j | 0 <= i < j < |rest| ensures rest[i].now <= rest[j].now {
        assert rest[i] == calls[i + 1] && rest[j] == calls[j + 1];
      }
      forall i | 0 <= i < |rest| ensures rest[i].fetch.Failure? {
        assert rest[i] == calls[i + 1];
      }
      FailuresRequestEveryTime(e, rest);
      forall i | 0 <= i < |calls| ensures Run(e, calls).results[i] == JArray([]) {
        if i > 0 { assert rest[i - 1] == calls[i]; }
      }
    }
  }

  class PandaScoreClient {
    const api: ApiClient
    /** One entry per query kind (the source's `_cache` dictionary). */
    var cache: map<QueryKind, Entry>

    ghost predicate Valid()
      reads this
    {
      forall k: QueryKind :: k in cache
    }

    /** `PandaScoreClient.__init__`: the fixed base URL and four empty entries stamped 0. */
    constructor (apiKey: Option<string>)
      ensures Valid()
      ensures api == NewApiClient(BaseUrl, apiKey) && api.baseUrl == BaseUrl
      ensures forall k: QueryKind :: cache[k] == InitialEntry
    {
      api := NewApiClient(BaseUrl, apiKey);
      cache := map[LastMatch := InitialEntry, UpcomingMatches := InitialEntry,
                   RunningMatch := InitialEntry, FullTeam := InitialEntry];
      new;
      forall k: QueryKind ensures k in cache {
        match k
        case LastMatch =>
        case UpcomingMatches =>
        case RunningMatch =>
        case FullTeam =>
      }
      assert LStrip(BaseUrl, '/') == BaseUrl;
      assert RStrip(BaseUrl, '/') == BaseUrl;
    }

    /**
     * The cache-aside algorithm shared by the four queries. `sent` is the
     * request made, if any; `r` is what the query returns.
     */
    method CachedQuery(kind: QueryKind, now: int, answeredAt: int, outcome: NetOutcome) returns (r: Json, sent: Option<HttpRequest>)
      requires Valid()
      modifies this
      ensures Valid()
      ensures old(IsFresh(cache[kind], now)) ==> r == old(cache[kind].data) && sent == None && cache == old(cache)
      ensures !old(IsFresh(cache[kind], now)) ==>
        sent.Some? && sent.value.verb == "GET" && sent.value.url == JoinUrl(api.baseUrl, Query(kind).endpoint)
        && sent.value.params == Query(kind).params && sent.value.timeout == RequestTimeout
        && sent.value.headers == DefaultHeaders(api.apiKey)
      ensures !old(IsFresh(cache[kind], now)) && ResponseResult(outcome).Success? ==>
        r == ResponseResult(outcome).value && cache == old(cache)[kind := Entry(r, answeredAt)]
      ensures !old(IsFresh(cache[kind], now)) && ResponseResult(outcome).Failure? ==>
        r == JArray([]) && cache == old(cache)
      ensures var step := CacheAside(old(cache[kind]), now, answeredAt, ResponseResult(outcome));
        r == step.result && cache == old(cache)[kind := step.entry] && sent.Some? == step.fetched
    {
      var entry := cache[kind];
      if now - entry.cacheTimestamp < CacheTtl {
        assert cache == cache[kind := entry];
        return entry.data, None;
      }
      var endpoint, params := Query(kind).endpoint, Query(kind).params;
      var request, result := Request(api, "GET", endpoint, params, None, outcome);
      sent := Some(request);
      match result {
        case Success(dados) =>
          cache := cache[kind := Entry(dados, answeredAt)];
          r := dados;
        case Failure(_) =>
          assert cache == cache[kind := entry];
          r := JArray([]);
      }
    }

    /** `get_UltimaPartida`: the newest finished match of the team, one per page. */
    method GetUltimaPartida(now: int, answeredAt: int, outcome: NetOutcome) returns (r: Json, sent: Option<HttpRequest>)
      requires Valid()
      modifies this
      ensures Valid()
      ensures var step := CacheAside(old(cache[LastMatch]), now, answeredAt, ResponseResult(outcome));
        r == step.result && cache == old(cache)[LastMatch := step.entry] && sent.Some? == step.fetched
      ensures sent.Some? ==>
        sent.value.verb == "GET" && sent.value.timeout == RequestTimeout
        && sent.value.headers == DefaultHeaders(api.apiKey)
        && sent.value.url == JoinUrl(api.baseUrl, "/matches")
        && sent.value.params == [("filter[status]", QText("finished")), ("filter[opponent_id]", QInt(124530)),
                                 ("sort", QText("-begin_at")), ("page[size]", QInt(1))]
    {
      var spec := Query(LastMatch);
      assert spec.endpoint == "/matches" && spec.params == Query(LastMatch).params;
      r, sent := CachedQuery(LastMatch, now, answeredAt, outcome);
    }

    /** `get_ProximasPartidas`: the team's upcoming matches. */
    method GetProximasPartidas(now: int, answeredAt: int, outcome: NetOutcome) returns (r: Json, sent: Option<HttpRequest>)
      requires Valid()
      modifies this
      ensures Valid()
      ensures var step := CacheAside(old(cache[UpcomingMatches]), now, answeredAt, ResponseResult(outcome));
        r == step.result && cache == old(cache)[UpcomingMatches := step.entry] && sent.Some? == step.fetched
      ensures sent.Some? ==>
        sent.value.verb == "GET" && sent.value.timeout == RequestTimeout
        && sent.value.headers == DefaultHeaders(api.apiKey)
        && sent.value.url == JoinUrl(api.baseUrl, "matches/upcoming")
        && sent.value.params == [("filter[opponent_id]", QInt(124530))]
    {
      var spec := Query(UpcomingMatches);
      assert spec.endpoint == "matches/upcoming" && spec.params == [("filter[opponent_id]", QInt(FuriaId))];
      r, sent := CachedQuery(UpcomingMatches, now, answeredAt, outcome);
    }

    /** `get_PartidaEmAndamento`: the team's running match, if any. */
    method GetPartidaEmAndamento(now: int, answeredAt: int, outcome: NetOutcome) returns (r: Json, sent: Option<HttpRequest>)
      requires Valid()
      modifies this
      ensures Valid()
      ensures var step := CacheAside(old(cache[RunningMatch]), now, answeredAt, ResponseResult(outcome));
        r == step.result && cache == old(cache)[RunningMatch := step.entry] && sent.Some? == step.fetched
      ensures sent.Some? ==>
        sent.value.verb == "GET" && sent.value.timeout == RequestTimeout
        && sent.value.headers == DefaultHeaders(api.apiKey)
        && sent.value.url == JoinUrl(api.baseUrl, "matches/running")
        && sent.value.params == [("filter[opponent_id]", QInt(124530))]
    {
      var spec := Query(RunningMatch);
      assert spec.endpoint == "matches/running" && spec.params == [("filter[opponent_id]", QInt(FuriaId))];
      r, sent := CachedQuery(RunningMatch, now, answeredAt, outcome);
    }

    /** `get_Time`: the team record with its roster. */
    method GetTime(now: int, answeredAt: int, outcome: NetOutcome) returns (r: Json, sent: Option<HttpRequest>)
      requires Valid()
      modifies this
      ensures Valid()
      ensures var step := CacheAside(old(cache[FullTeam]), now, answeredAt, ResponseResult(outcome));
        r == step.result && cache == old(cache)[FullTeam := step.entry] && sent.Some? == step.fetched
      ensures sent.Some? ==>
        sent.value.verb == "GET" && sent.value.timeout == RequestTimeout
        && sent.value.headers == DefaultHeaders(api.apiKey)
        && sent.value.url == JoinUrl(api.baseUrl, "/teams")
        && sent.value.params == [("filter[id]", QInt(124530))]
    {
      var spec := Query(FullTeam);
      assert spec.endpoint == "/teams" && spec.params == [("filter[id]", QInt(FuriaId))];
      r, sent := CachedQuery(FullTeam, now, answeredAt, outcome);
    }
  }
}
