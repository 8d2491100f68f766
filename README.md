# FURIA CS bot: data cache, JSON conversion, message formatting and pagination

This project models the logic core of a Telegram bot that follows the FURIA
Counter-Strike team. The bot reads match and tournament data from the
PandaScore statistics API. Each file covers one part:

- `pandascore_client.dfy`: the PandaScore client. Four queries (last finished
  match, upcoming matches, running match, full team) each sit behind their own
  cache entry with a 300-second time-to-live.
- `api_client.dfy`: the generic asynchronous HTTP client. It normalises the
  base URL, joins endpoints, merges the bearer header with the caller's
  headers, and maps library errors to two failure messages. A timeout is
  not a library error, so it escapes unconverted.
- `abios_client.dfy`: the synchronous Abios client. Its session headers are
  set once at construction, and it has its own error messages.
- `format_response.dfy`: `formatUltimaPartida`, the caption and logo for the
  last-match message. It covers the tagline rule and the reverse scan for a
  stream link.
- `get_series.dfy`: `jsonForObjects`, which turns the tournament JSON list
  into `Torneio`/`Partida`/`Stream`/`Liga`/`Serie` records. The records
  themselves are in `information.dfy`.
- `telegram_bot.dfy`: the tournament browser of the bot. It covers the
  previous/next buttons, the tournament text, the per-chat store of
  tournaments, and the menu and pagination callbacks.
- `text.dfy` and `http.dfy`: the Python string built-ins the core relies on
  (`str(int)`, `int()`, `strip`, `lstrip`, `split('_')[1]`, f-string
  rendering of `None`), plus the request, response and URL-join vocabulary
  shared by both HTTP clients.

The network, the clock and the bot library are parameters:

- The answer a request would get is a `NetOutcome`: a status, reason, body
  text and decoded JSON; a connection failure; or a timeout.
- The clock is an integer number of seconds. The cache reads it twice per
  call, as the source does.
- Whether Telegram accepts a message edit is a boolean.
- The JSON that the tournament request returned is an input value.

Where the code and its documentation disagree, the model follows the code:

- The asynchronous client treats every status of 400 or more as an error, the
  rule of `aiohttp`'s `raise_for_status`. It is not "any non-2xx status".
  The synchronous Abios client uses the `requests` rule, 400 to 599.
- Equal scores get the victory tagline.
- `formatUltimaPartida` has no error fallback, despite its doc comment. Its
  inputs are a precondition.
- `handle_pagination` checks only the upper bound of the page number.
  A negative number counts from the end of the list, as Python indexing does.

## Model

| member | source | states |
|---|---|---|
| Text.Strip | services/api_client.py:9 | `s.strip('/')`: the result is the slice left after removing only '/' characters from both ends, and starts and ends with something other than '/' |
| Text.LStrip | services/api_client.py:14 | `endpoint.lstrip('/')`: a suffix of the input, everything dropped is '/', and what remains does not start with '/' |
| Text.IntToString | utils/TelegramBotClient.py:46 | `str(n)`: decimal digits, with a leading '-' exactly for negative numbers |
| Text.ParseIntRoundTrip | utils/TelegramBotClient.py:87 | `int(str(n)) == n` for every integer, so a page number written into a callback is read back unchanged |
| Text.SecondFieldOfJoin | utils/TelegramBotClient.py:87 | `split('_')[1]` of `head + "_" + field` is `field` when neither part holds an underscore |
| Text.LStripIgnoresLeading | services/api_client.py:14 | any number of leading slashes is removed by `lstrip('/')` |
| Http.JoinUrl | services/api_client.py:14 | the joined URL starts with the base and one '/', has no second '/' there, and ends with the endpoint without its leading slashes, with nothing else in between |
| Http.JoinUrlIgnoresLeadingSlashes | services/api_client.py:14 | "/matches" and "matches" (any number of leading slashes) give the same URL |
| Api.NewApiClient | services/api_client.py:8-10 | the base URL is kept with every leading and trailing '/' removed; the key is kept as given |
| Api.ResponseResultCases | services/api_client.py:29-35 | success exactly when there was an answer with status below 400, and then the body is returned unchanged; an error status gives exactly "Erro HTTP <status>: <reason>", a lost connection exactly "Erro de conexão: <detail>"; exactly a timeout escapes as the unconverted `TimeoutError` |
| Api.Request | services/api_client.py:12-35 | the URL is the join of base and endpoint; every caller header is sent with the caller's value; the bearer header is sent when the key is truthy and the caller did not override it; no other header is added, so without caller headers exactly the client's own are sent; timeout 10; the result is the error mapping of the answer, in which a timeout escapes unconverted |
| Abios.AbiosClient.constructor | utils/AbiosClient.py:7-20 | the URL is stored stripped of '/' at both ends; with a truthy key, "Authorization: Bearer <key>" and "Accept: application/json" are written over the session's headers, otherwise the session keeps the library's headers |
| Abios.AbiosClient.Request | utils/AbiosClient.py:22-45 | the request uses the session headers, the joined URL and timeout 10; success exactly when an answer came with a status outside 400-599, returning its body; an error status gives "Erro na requisição : <status> - <body text>", a failure to connect or a timeout "Falha na conexão : <detail>" |
| PandaScore.CacheAsideCases | services/pandas_score_client.py:65-88 | no request exactly when the entry is younger than 300 s, and then the cached data is returned and the entry kept; a successful fetch returns its data and replaces the entry, stamped with the time of the answer; a failed fetch returns an empty list and keeps the entry |
| PandaScore.ExpiresAtExactlyTtl | services/pandas_score_client.py:65 | 299 s after a fetch the data is served from the cache; at exactly 300 s the call fetches again |
| PandaScore.FirstCallMissesFromTtl | services/pandas_score_client.py:37-44 | the initial entry stamped 0 makes the first call fetch only from time 300 on, serving the initial empty list before that |
| PandaScore.FailureKeepsEntryStale | services/pandas_score_client.py:86-88 | after a failed fetch the entry is still stale at any later time, so the next call fetches again |
| PandaScore.NoRequestWhileFresh | services/pandas_score_client.py:65-66 | any sequence of calls while the entry is fresh makes no request, keeps the entry and returns the cached data every time |
| PandaScore.AtMostOneRequestPerWindow | services/pandas_score_client.py:65-85 | calls in time order within 300 s of the first, whose requests would succeed, make at most one request |
| PandaScore.FailuresRequestEveryTime | services/pandas_score_client.py:86-88 | from a stale entry, calls whose requests all fail each make a request, each return an empty list, and leave the entry unchanged |
| PandaScore.PandaScoreClient.constructor | services/pandas_score_client.py:23-44 | the client is built on the fixed base URL and holds all four entries with data `[]` and timestamp 0 |
| PandaScore.PandaScoreClient.CachedQuery | services/pandas_score_client.py:65-88 | a hit returns the cached data, sends nothing and changes no entry; a miss sends one GET with the query's endpoint and filters, the client's bearer header and timeout 10; on success it returns the data and replaces only this query's entry, on failure it returns `[]` and changes nothing; the other three entries never change |
| PandaScore.PandaScoreClient.GetUltimaPartida | services/pandas_score_client.py:46-88 | cache-aside on the last-match entry; a request is a GET with the client's bearer header and timeout 10, and goes to "/matches" filtered on status finished and opponent 124530, sorted by "-begin_at", page size 1 |
| PandaScore.PandaScoreClient.GetProximasPartidas | services/pandas_score_client.py:90-110 | cache-aside on the upcoming-matches entry; a request is a GET with the client's bearer header and timeout 10, and goes to "matches/upcoming" filtered on opponent 124530 |
| PandaScore.PandaScoreClient.GetPartidaEmAndamento | services/pandas_score_client.py:112-131 | cache-aside on the running-match entry; a request is a GET with the client's bearer header and timeout 10, and goes to "matches/running" filtered on opponent 124530 |
| PandaScore.PandaScoreClient.GetTime | services/pandas_score_client.py:133-154 | cache-aside on the team entry; a request is a GET with the client's bearer header and timeout 10, and goes to "/teams" filtered on id 124530 |
| FormatResponse.TaglineChoice | utils/formatResponse.py:48 | the defeat tagline exactly when the team scored less than the adversary; otherwise, a draw included, the victory tagline |
| FormatResponse.LastQualifyingCorrect | utils/formatResponse.py:53-58 | the index found is that of a qualifying stream (official, language "en" or "br") with no qualifying stream after it, or none qualifies |
| FormatResponse.StreamLinkCases | utils/formatResponse.py:50-61 | the link is `None` exactly for an empty stream list, "#" when streams exist but none qualifies, and otherwise the URL of the last qualifying stream |
| FormatResponse.SelectStreamLink | utils/formatResponse.py:50-61 | the reverse scan with its early exit yields exactly that link |
| FormatResponse.CaptionContents | utils/formatResponse.py:64-70 | the caption contains the series name, "<team> (<score>) VS <adversary> (<score>)", the winner's name, the tagline and the link as printed, and ends with the two hashtags |
| FormatResponse.HighlightsLink | utils/formatResponse.py:68 | the caption contains "[Assista aos melhores momentos!](<link>)" with the chosen link printed as the f-string prints it |
| FormatResponse.FormatLastMatch | utils/formatResponse.py:32-75 | the text is the caption of the first match only, and the logo is the winner's image URL whatever the score |
| FormatResponse.WonMatchExample | utils/formatResponse.py:32-75 | a 16-10 win with one official English stream shows "FURIA (16) VS Rival (10)", the victory tagline and that stream's URL |
| FormatResponse.NoStreamsExample | utils/formatResponse.py:50-68 | with no streams the caption shows "[Assista aos melhores momentos!](None)": the word None as the link |
| Series.MapResultPointwise | utils/getSeries.py:44-92 | the appending loop succeeds exactly when every element converts, and then yields one result per element in order; a failure is that of an element all of whose predecessors converted |
| Series.MapResultFirstFailure | utils/getSeries.py:44-92 | the loop fails with the error of the first element that fails |
| Series.ConvertStreams | utils/getSeries.py:48-53 | one `Stream` per entry of `streams_list`, in order |
| Series.ConvertMatchCorrect | utils/getSeries.py:55-66 | a match converts exactly when its `streams_list` is not `null` and `winner_id` is present; then every field comes from its key, streams correspond one to one, and a `null` winner becomes the empty winner |
| Series.ConvertTournamentCorrect | utils/getSeries.py:44-92 | a tournament converts exactly when none of matches/league/serie is `null` and no match raises; then its fields come from their keys, an absent league or series gives one with empty fields, and matches correspond one to one in order |
| Series.Convert | utils/getSeries.py:42-94 | the nested loops produce exactly the element-wise conversion, stopping at the first error |
| Series.JsonForObjects | utils/getSeries.py:37-94 | a falsy input gives `[]`; the result is a success exactly when no tournament raises, and then has one `Torneio` per input element, in order, each corresponding to its JSON |
| TelegramBot.CreatePaginationButtons | utils/TelegramBotClient.py:42-49 | the buttons appended in the source's order, or no keyboard when there are none |
| TelegramBot.NavigationBoundaries | utils/TelegramBotClient.py:42-49 | "previous" to `page_<index-1>` exactly when `index > 0`, "next" to `page_<index+1>` exactly when `index < total - 1`, previous first, no keyboard exactly when neither, and no other button |
| TelegramBot.PageCallbackField | utils/TelegramBotClient.py:46-48 | the page number after "page_" is recovered by `split('_')[1]` and `int()` unchanged |
| TelegramBot.FormatTournament | utils/TelegramBotClient.py:35-40 | the header "🏆 <name> - <season> <year>" and a blank line, then one "<match> - <status>" line per match |
| TelegramBot.MatchLinesInOrder | utils/TelegramBotClient.py:38-39 | the appended match lines are the lines of the matches joined in list order |
| TelegramBot.TournamentTextListsEveryMatch | utils/TelegramBotClient.py:35-40 | the text starts with the header and contains the line of every match |
| TelegramBot.MatchLinesCount | utils/TelegramBotClient.py:38-39 | with single-line names and statuses there is exactly one line break per match |
| TelegramBot.TournamentTextLineCount | utils/TelegramBotClient.py:35-40 | with single-line fields the text has two line breaks for the header and one per match |
| TelegramBot.PythonIndex | utils/TelegramBotClient.py:97 | `torneios[index]` picks the element itself for a non-negative index and counts from the end for a negative one |
| TelegramBot.ButtonsLeadToNeighbourPages | utils/TelegramBotClient.py:83-98 | pressing a button shown on a valid page of a stored list shows the neighbouring page, with its own header and keyboard, and never an error |
| TelegramBot.ValidPagesAreShown | utils/TelegramBotClient.py:83-110 | any page from 0 to the last is shown by editing the message, or in a new message exactly when the edit fails |
| TelegramBot.MissingPagesAreReported | utils/TelegramBotClient.py:91-94 | a chat with no stored list, or a page at or past the end, gets "Erro: torneio não encontrado." without a keyboard |
| TelegramBot.NegativePagesCountFromTheEnd | utils/TelegramBotClient.py:92-97 | only the upper bound is checked: a page from minus the length to -1 shows the tournament that far from the end |
| TelegramBot.TelegramBotClient.constructor | utils/TelegramBotClient.py:8 | the per-chat store starts empty |
| TelegramBot.TelegramBotClient.HandleMenuAction | utils/TelegramBotClient.py:60-79 | only "torneios" answers; a non-empty converted list replaces that chat's stored list, leaves every other chat's list alone and sends page 0 with its keyboard; an empty list sends "Nenhum torneio encontrado." and stores nothing; a conversion error escapes and stores nothing |
| TelegramBot.TelegramBotClient.HandlePagination | utils/TelegramBotClient.py:82-110 | reads the chat's stored list and changes nothing; the answer is the pagination rule: a non-number raises, a missing page is reported, a page below minus the length raises, any other page is shown |
| TelegramBot.MenuThenNext | utils/TelegramBotClient.py:60-98 | with two or more tournaments, the first page offers only "next" to "page_1", and following it shows the second page |

## Left out

- The HTTP requests themselves (`aiohttp`, `requests`). Their answer is the `NetOutcome` parameter: a status, reason, body text and decoded JSON, a connection failure with its text, or a timeout.
- `response.json()` failing on a body that is not JSON, and JSON floats. The decoded body is a `Json` value with integer numbers.
- `async`/`await` and interleaved calls on the shared cache. Each call is modelled as running alone.
- `time.time()` returns a float. Time is whole seconds.
- PandaScore.PandaScoreClient.CachedQuery: the caller supplies the two clock readings, `now` and `answeredAt`, and nothing orders them. The one lemma that needs the answer to come no earlier than the call requires it.
- The `print` calls, which are logging only.
- The default headers a `requests` session starts with belong to that library. They are the `libraryHeaders` parameter of the Abios constructor.
- Python's `int()` also accepts surrounding whitespace and non-ASCII digits. `ParseInt` accepts only an optional sign and ASCII digits. Underscores cannot reach it, because the callback is split on '_' first.
- The JSON inputs of `formatUltimaPartida` and `jsonForObjects` are typed records, not arbitrary JSON:
  - a wrongly typed value (a string where a list is expected, a non-object list element) is not modelled;
  - `official` is a boolean;
  - the keys `jsonForObjects` reads through `dict.get` or subscript may be absent, `null` or present, and those three cases are modelled.
- FormatResponse.FormatLastMatch: an empty list, or a match with fewer than two opponents or results, makes Python raise. Nothing catches it, so the model makes it a precondition instead of an error value. A missing key in the match record is excluded by the record type.
- `bot.answer_callback_query` has no effect on the chat or the store, so the handlers do not model it.
- The tournament request `getGanhadores` imported by the bot is not part of this model. Its result is the `payload` parameter of `HandleMenuAction`.
- TelegramBot.TelegramBotClient.HandleMenuAction: the bot imports `jsonForObjects` from `utils/getGanhadores.py`, which is not part of this model. The model assumes that function is the `jsonForObjects` of `utils/getSeries.py` and converts with `Series.JsonForObjects`. If the two differ, the stored list and the replies follow the getSeries.py version.
- `getSeries` and `getWinnerById` are network fetches and are not part of this model.
- The bot and server plumbing is not part of this model: the webhook route, command and echo handlers, the main menu, `start`, Flask, and the other bot and resource files.
- `handlers/callback_handler.py` is not part of this model. It calls `get_Ultima_Partida`, but the method is named `get_UltimaPartida`, so that branch would raise `AttributeError`.
- `utils/JsonData.py` reads and writes files and is not part of this model.
- `TORNEIOS_POR_CHAT` is a module-global dictionary. It is modelled as a field of the one bot object, which is the only object that uses it.
