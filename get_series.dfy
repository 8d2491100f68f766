/**
 * `jsonForObjects` (utils/getSeries.py): the tournament list returned by the
 * statistics API becomes a list of `Torneio` records, one per element and in
 * the same order, each with its matches and their streams.
 *
 * The JSON records are typed here; each key is a `Field`, so that a key that
 * is absent (where `dict.get` falls back to its default) differs from a key
 * that holds `null` (where the default is not used). Where Python raises
 * (`KeyError`, or `TypeError`/`AttributeError` on a `null`), the conversion
 * returns a `Failure` naming the key.
 */
module Series {
  import opened Wrappers
  import opened Information

  /** One key of a JSON object. */
  datatype Field<+T> = Missing | Null | Present(value: T) {
    /** `obj.get(key)`: `None` when the key is absent or holds `null`. */
    function Get(): Option<T> {
      match this
      case Present(v) => Some(v)
      case _ => None
    }
  }

  datatype StreamJson = StreamJson(language: Field<string>, rawUrl: Field<string>)

  datatype MatchJson = MatchJson(
    id: Field<int>,
    name: Field<string>,
    status: Field<string>,
    beginAt: Field<string>,
    matchType: Field<string>,
    numberOfGames: Field<int>,
    streamsList: Field<seq<StreamJson>>,
    winnerId: Field<int>)

  datatype LeagueJson = LeagueJson(name: Field<string>, slug: Field<string>)

  datatype SerieJson = SerieJson(name: Field<string>, season: Field<string>, year: Field<int>)

  datatype TournamentJson = TournamentJson(
    id: Field<int>,
    name: Field<string>,
    beginAt: Field<string>,
    endAt: Field<string>,
    prizepool: Field<string>,
    league: Field<LeagueJson>,
    serie: Field<SerieJson>,
    matches: Field<seq<MatchJson>>)

  /** The exception Python raises, with the key involved. */
  datatype ConversionError =
    | KeyError(key: string)        // `obj[key]` on an absent key
    | NotIterable(key: string)     // a `for` over a key that holds `null`
    | NoGetOnNull(key: string)     // `.get` on a key that holds `null`

  /**
   * Applying `f` to each element in order, stopping at the first failure:
   * what a Python loop that appends `f(x)` does when `f` may raise.
   */
  function MapResult<A, B, E>(f: A -> Result<B, E>, xs: seq<A>): Result<seq<B>, E>
    decreases |xs|
  {
    if xs == [] then Success([])
    else
      match MapResult(f, xs[..|xs| - 1])
      case Failure(e) => Failure(e)
      case Success(ys) =>
        match f(xs[|xs| - 1])
        case Failure(e) => Failure(e)
        case Success(y) => Success(ys + [y])
  }

  /**
   * `MapResult` succeeds exactly when `f` succeeds on every element, and then
   * holds one result per element, in order; when it fails, it fails with the
   * error of an element before which every element succeeded.
   */
  lemma {:induction false} MapResultPointwise<A, B, E>(f: A -> Result<B, E>, xs: seq<A>)
    ensures MapResult(f, xs).Success? <==> forall i :: 0 <= i < |xs| ==> f(xs[i]).Success?
    ensures MapResult(f, xs).Success? ==>
      |MapResult(f, xs).value| == |xs| &&
      forall i :: 0 <= i < |xs| ==> f(xs[i]) == Success(MapResult(f, xs).value[i])
    ensures MapResult(f, xs).Failure? ==>
      exists k :: (0 <= k < |xs| && f(xs[k]) == Failure(MapResult(f, xs).error) &&
                   forall j :: 0 <= j < k ==> f(xs[j]).Success?)
    decreases |xs|
  {
    if xs != [] {
      var init := xs[..|xs| - 1];
      var last := xs[|xs| - 1];
      MapResultPointwise(f, init);
      assert forall i :: 0 <= i < |init| ==> init[i] == xs[i];
      match MapResult(f, init)
      case Failure(e) =>
        var k :| 0 <= k < |init| && f(init[k]) == Failure(e) && forall j :: 0 <= j < k ==> f(init[j]).Success?;
        assert f(xs[k]) == Failure(e);
      case Success(ys) =>
        match f(last)
        case Failure(e) =>
          assert f(xs[|xs| - 1]) == Failure(e);
        case Success(y) =>
          var r := ys + [y];
          assert MapResult(f, xs) == Success(r);
          forall i | 0 <= i < |xs| ensures f(xs[i]) == Success(r[i]) {
            if i < |init| { assert f(init[i]) == Success(ys[i]); }
          }
    }
  }

  /** The error is that of the first failing element. */
  lemma {:induction false} MapResultFirstFailure<A, B, E>(f: A -> Result<B, E>, xs: seq<A>, k: nat, e: E)
    requires k < |xs| && f(xs[k]) == Failure(e)
    requires forall j :: 0 <= j < k ==> f(xs[j]).Success?
    ensures MapResult(f, xs) == Failure(e)
    decreases |xs|
  {
    var init := xs[..|xs| - 1];
    assert forall i :: 0 <= i < |init| ==> init[i] == xs[i];
    if k == |xs| - 1 {
      MapResultPointwise(f, init);
    } else {
      MapResultFirstFailure(f, init, k, e);
    }
  }

  /** A loop that has converted `xs[..i]` and then fails on `xs[i]` fails as a whole with that error. */
  lemma FailsAt<A, B, E>(f: A -> Result<B, E>, xs: seq<A>, i: nat, e: E)
    requires i < |xs| && MapResult(f, xs[..i]).Success? && f(xs[i]) == Failure(e)
    ensures MapResult(f, xs) == Failure(e)
  {
    MapResultPointwise(f, xs[..i]);
    assert forall j :: 0 <= j < i ==> xs[..i][j] == xs[j];
    MapResultFirstFailure(f, xs, i, e);
  }

  /** `obj.get(key, [])` followed by iteration: a `null` list raises. */
  function ListOrEmpty<T>(field: Field<seq<T>>, key: string): Result<seq<T>, ConversionError> {
    match field
    case Missing => Success([])
    case Null => Failure(NotIterable(key))
    case Present(xs) => Success(xs)
  }

  function ConvertStream(s: StreamJson): Stream {
    Stream(s.language.Get(), s.rawUrl.Get())
  }

  /** The list comprehension over `streams_list`. */
  function ConvertStreams(ss: seq<StreamJson>): (r: seq<Stream>)
    ensures |r| == |ss| && forall i :: 0 <= i < |ss| ==> r[i] == ConvertStream(ss[i])
  {
    seq(|ss|, i requires 0 <= i < |ss| => ConvertStream(ss[i]))
  }

  /** `winner_id` read by subscript: absent raises, `null` becomes the empty string. */
  function ConvertWinner(w: Field<int>): Result<Vencedor, ConversionError> {
    match w
    case Missing => Failure(KeyError("winner_id"))
    case Null => Success(NoWinner)
    case Present(id) => Success(WinnerId(id))
  }

  function ConvertMatch(m: MatchJson): Result<Partida, ConversionError> {
    match ListOrEmpty(m.streamsList, "streams_list")
    case Failure(e) => Failure(e)
    case Success(ss) =>
      match ConvertWinner(m.winnerId)
      case Failure(e) => Failure(e)
      case Success(v) =>
        Success(Partida(m.id.Get(), m.name.Get(), m.status.Get(), m.beginAt.Get(),
                        m.matchType.Get(), m.numberOfGames.Get(), ConvertStreams(ss), v))
  }

  /** `obj.get('league', {})` followed by `.get` of its keys. */
  function ConvertLeague(l: Field<LeagueJson>): Result<Liga, ConversionError> {
    match l
    case Missing => Success(Liga(None, None))
    case Null => Failure(NoGetOnNull("league"))
    case Present(o) => Success(Liga(o.name.Get(), o.slug.Get()))
  }

  function ConvertSerie(s: Field<SerieJson>): Result<Serie, ConversionError> {
    match s
    case Missing => Success(Serie(None, None, None))
    case Null => Failure(NoGetOnNull("serie"))
    case Present(o) => Success(Serie(o.name.Get(), o.season.Get(), o.year.Get()))
  }

  /** One tournament, in the source's order of evaluation: matches, then league, then series. */
  function ConvertTournament(t: TournamentJson): Result<Torneio, ConversionError> {
    match ListOrEmpty(t.matches, "matches")
    case Failure(e) => Failure(e)
    case Success(ms) =>
      match MapResult(ConvertMatch, ms)
      case Failure(e) => Failure(e)
      case Success(partidas) =>
        match ConvertLeague(t.league)
        case Failure(e) => Failure(e)
        case Success(liga) =>
          match ConvertSerie(t.serie)
          case Failure(e) => Failure(e)
          case Success(serie) =>
            Success(Torneio(t.id.Get(), t.name.Get(), t.beginAt.Get(), t.endAt.Get(),
                            t.prizepool.Get(), liga, serie, partidas))
  }

  /** The list a key holds, with an absent key read as the empty list. */
  function ListOf<T>(field: Field<seq<T>>): seq<T> {
    if field.Present? then field.value else []
  }

  // ----- what a converted record has in common with its JSON -----

  predicate StreamFrom(s: Stream, j: StreamJson) {
    s.idioma == j.language.Get() && s.url == j.rawUrl.Get()
  }

  predicate PartidaFrom(p: Partida, m: MatchJson) {
    && p.id == m.id.Get() && p.nome == m.name.Get() && p.status == m.status.Get()
    && p.inicio == m.beginAt.Get() && p.tipo == m.matchType.Get() && p.jogos == m.numberOfGames.Get()
    && |p.streams| == |ListOf(m.streamsList)|
    && (forall k :: 0 <= k < |p.streams| ==> StreamFrom(p.streams[k], ListOf(m.streamsList)[k]))
    && (m.winnerId.Null? ==> p.vencedor == NoWinner)
    && (m.winnerId.Present? ==> p.vencedor == WinnerId(m.winnerId.value))
  }

  predicate TorneioFrom(t: Torneio, j: TournamentJson) {
    && t.id == j.id.Get() && t.nome == j.name.Get() && t.inicio == j.beginAt.Get()
    && t.fim == j.endAt.Get() && t.premiacao == j.prizepool.Get()
    && (j.league.Missing? ==> t.liga == Liga(None, None))
    && (j.league.Present? ==> t.liga == Liga(j.league.value.name.Get(), j.league.value.slug.Get()))
    && (j.serie.Missing? ==> t.serie == Serie(None, None, None))
    && (j.serie.Present? ==> t.serie == Serie(j.serie.value.name.Get(), j.serie.value.season.Get(), j.serie.value.year.Get()))
    && |t.partidas| == |ListOf(j.matches)|
    && forall k :: 0 <= k < |t.partidas| ==> PartidaFrom(t.partidas[k], ListOf(j.matches)[k])
  }

  /** A match that raises: its stream list is `null` or its `winner_id` is absent. */
  predicate MatchRaises(m: MatchJson) {
    m.streamsList.Null? || m.winnerId.Missing?
  }

  /** A tournament that raises: a `null` matches, league or series, or a match that raises. */
  predicate TournamentRaises(t: TournamentJson) {
    || t.matches.Null? || t.league.Null? || t.serie.Null?
    || exists k :: 0 <= k < |ListOf(t.matches)| && MatchRaises(ListOf(t.matches)[k])
  }

  lemma ConvertMatchCorrect(m: MatchJson)
    ensures ConvertMatch(m).Failure? <==> MatchRaises(m)
    ensures ConvertMatch(m).Success? ==> PartidaFrom(ConvertMatch(m).value, m)
  {
  }

  /** A tournament converts exactly when nothing in it raises, and then every field and every match corresponds. */
  lemma ConvertTournamentCorrect(t: TournamentJson)
    ensures ConvertTournament(t).Failure? <==> TournamentRaises(t)
    ensures ConvertTournament(t).Success? ==> TorneioFrom(ConvertTournament(t).value, t)
  {
    var ms := ListOf(t.matches);
    MapResultPointwise(ConvertMatch, ms);
    forall k | 0 <= k < |ms| ensures ConvertMatch(ms[k]).Failure? <==> MatchRaises(ms[k]) {
      ConvertMatchCorrect(ms[k]);
    }
    if ConvertTournament(t).Success? {
      var r := ConvertTournament(t).value;
      forall k | 0 <= k < |r.partidas| ensures PartidaFrom(r.partidas[k], ms[k]) {
        ConvertMatchCorrect(ms[k]);
      }
    }
  }

  /** The tournaments to convert: a falsy input (`None` or an empty list) gives none. */
  function Items(data: Option<seq<TournamentJson>>): seq<TournamentJson> {
    if data.None? then [] else data.value
  }

  /**
   * `jsonForObjects`: one `Torneio` per element, in order, or the exception
   * the first offending element raises.
   */
  method JsonForObjects(data: Option<seq<TournamentJson>>) returns (r: Result<seq<Torneio>, ConversionError>)
    ensures r == MapResult(ConvertTournament, Items(data))
    ensures (data.None? || data.value == []) ==> r == Success([])
    ensures r.Success? <==> forall i :: 0 <= i < |Items(data)| ==> !TournamentRaises(Items(data)[i])
    ensures r.Success? ==>
      |r.value| == |Items(data)| && forall i :: 0 <= i < |r.value| ==> TorneioFrom(r.value[i], Items(data)[i])
  {
    r := Convert(Items(data));
    MapResultPointwise(ConvertTournament, Items(data));
    forall i | 0 <= i < |Items(data)|
      ensures ConvertTournament(Items(data)[i]).Failure? <==> TournamentRaises(Items(data)[i])
      ensures ConvertTournament(Items(data)[i]).Success? ==>
        TorneioFrom(ConvertTournament(Items(data)[i]).value, Items(data)[i])
    {
      ConvertTournamentCorrect(Items(data)[i]);
    }
  }

  /** The two nested loops of `jsonForObjects`, each appending one record per element. */
  method Convert(ds: seq<TournamentJson>) returns (r: Result<seq<Torneio>, ConversionError>)
    ensures r == MapResult(ConvertTournament, ds)
  {
    var objetos: seq<Torneio> := [];
    var i := 0;
    while i < |ds|
      invariant 0 <= i <= |ds|
      invariant MapResult(ConvertTournament, ds[..i]) == Success(objetos)
    {
      var t := ds[i];
      if t.matches.Null? {
        FailsAt(ConvertTournament, ds, i, NotIterable("matches"));
        return Failure(NotIterable("matches"));
      }
      var ms := ListOf(t.matches);
      var partidas: seq<Partida> := [];
      var j := 0;
      while j < |ms|
        invariant 0 <= j <= |ms|
        invariant MapResult(ConvertMatch, ms[..j]) == Success(partidas)
      {
        var m := ms[j];
        if m.streamsList.Null? {
          FailsAt(ConvertMatch, ms, j, NotIterable("streams_list"));
          FailsAt(ConvertTournament, ds, i, NotIterable("streams_list"));
          return Failure(NotIterable("streams_list"));
        }
        var streams := ConvertStreams(ListOf(m.streamsList));
        if m.winnerId.Missing? {
          FailsAt(ConvertMatch, ms, j, KeyError("winner_id"));
          FailsAt(ConvertTournament, ds, i, KeyError("winner_id"));
          return Failure(KeyError("winner_id"));
        }
        var vencedor := if m.winnerId.Null? then NoWinner else WinnerId(m.winnerId.value);
        partidas := partidas + [Partida(m.id.Get(), m.name.Get(), m.status.Get(), m.beginAt.Get(),
                                        m.matchType.Get(), m.numberOfGames.Get(), streams, vencedor)];
        assert ms[..j + 1][..j] == ms[..j];
        j := j + 1;
      }
      assert ms[..j] == ms;
      if t.league.Null? {
        FailsAt(ConvertTournament, ds, i, NoGetOnNull("league"));
        return Failure(NoGetOnNull("league"));
      }
      var liga := if t.league.Missing? then Liga(None, None)
                  else Liga(t.league.value.name.Get(), t.league.value.slug.Get());
      if t.serie.Null? {
        FailsAt(ConvertTournament, ds, i, NoGetOnNull("serie"));
        return Failure(NoGetOnNull("serie"));
      }
      var serie := if t.serie.Missing? then Serie(None, None, None)
                   else Serie(t.serie.value.name.Get(), t.serie.value.season.Get(), t.serie.value.year.Get());
      objetos := objetos + [Torneio(t.id.Get(), t.name.Get(), t.beginAt.Get(), t.endAt.Get(),
                                    t.prizepool.Get(), liga, serie, partidas)];
      assert ds[..i + 1][..i] == ds[..i];
      i := i + 1;
    }
    assert ds[..i] == ds;
    r := Success(objetos);
  }
}
