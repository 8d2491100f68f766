/**
 * The tournament browser of the Telegram bot (utils/TelegramBotClient.py):
 * the "menu_torneios" action converts and stores a chat's tournaments and
 * shows the first one; "page_<n>" callbacks show tournament n of the stored
 * list with "previous" and "next" buttons.
 */
module TelegramBot {
  import opened Wrappers
  import opened Text
  import opened Information
  import opened Series

  /** An inline keyboard button: its caption and the callback data it sends back. */
  datatype Button = Button(caption: string, callbackData: string)

  /** The exception a handler lets escape, which the bot library only logs. */
  datatype Raised =
    | ValueError          // `int()` of a callback that is not a number
    | IndexError          // a negative page below minus the list length
    | ConversionFailed(error: ConversionError)

  /**
   * What a handler does in the chat. `None` as markup stands for a message
   * without a keyboard; `Some(row)` for a keyboard made of that one row.
   */
  datatype Reply =
    | NoReply
    | SendMessage(text: string, markup: Option<seq<Button>>)
    | EditMessage(text: string, markup: Option<seq<Button>>)
    | Unhandled(error: Raised)

  const PreviousLabel := "⬅️ Anterior"
  const NextLabel := "Próximo ➡️"
  const NoTournamentsText := "Nenhum torneio encontrado."
  const NotFoundText := "Erro: torneio não encontrado."

  /** The callback data of the button that leads to page `index`. */
  function PageCallback(index: int): string {
    "page_" + IntToString(index)
  }

  /** `_criar_botoes_paginacao` as a value: a "previous" button, then a "next" button, each only when that page exists. */
  function PaginationMarkup(index: int, total: int): Option<seq<Button>> {
    var previous := if index > 0 then [Button(PreviousLabel, PageCallback(index - 1))] else [];
    var next := if index < total - 1 then [Button(NextLabel, PageCallback(index + 1))] else [];
    if previous + next == [] then None else Some(previous + next)
  }

  /** `_criar_botoes_paginacao`: collects the buttons in a list and drops the keyboard when the list stays empty. */
  method CreatePaginationButtons(index: int, total: int) returns (markup: Option<seq<Button>>)
    ensures markup == PaginationMarkup(index, total)
  {
    var botoes: seq<Button> := [];
    if index > 0 {
      botoes := botoes + [Button(PreviousLabel, PageCallback(index - 1))];
    }
    assert botoes == if index > 0 then [Button(PreviousLabel, PageCallback(index - 1))] else [];
    ghost var previous := botoes;
    if index < total - 1 {
      botoes := botoes + [Button(NextLabel, PageCallback(index + 1))];
    }
    assert botoes == previous + if index < total - 1 then [Button(NextLabel, PageCallback(index + 1))] else [];
    if botoes != [] {
      markup := Some(botoes);
    } else {
      markup := None;
    }
  }

  /** A keyboard offers a button with this caption and callback. */
  predicate Offers(markup: Option<seq<Button>>, b: Button) {
    markup.Some? && b in markup.value
  }

  /**
   * "Previous" is offered exactly when there is an earlier page and "next"
   * exactly when there is a later one; "previous" comes first; there is no
   * keyboard at all only when neither exists, and no other button.
   */
  lemma NavigationBoundaries(index: int, total: int)
    ensures Offers(PaginationMarkup(index, total), Button(PreviousLabel, PageCallback(index - 1))) <==> index > 0
    ensures Offers(PaginationMarkup(index, total), Button(NextLabel, PageCallback(index + 1))) <==> index < total - 1
    ensures PaginationMarkup(index, total).None? <==> index <= 0 && index >= total - 1
    ensures PaginationMarkup(index, total).Some? ==>
      var row := PaginationMarkup(index, total).value;
      1 <= |row| <= 2 && (index > 0 ==> row[0].caption == PreviousLabel) &&
      forall b :: b in row ==>
        b == Button(PreviousLabel, PageCallback(index - 1)) || b == Button(NextLabel, PageCallback(index + 1))
  {
    assert PreviousLabel != NextLabel;
  }

  /** A page number written by `PageCallback` has no underscore, so `split('_')[1]` gets it back whole. */
  lemma PageCallbackField(index: int)
    ensures '_' in PageCallback(index)
    ensures SecondField(PageCallback(index), '_') == IntToString(index)
    ensures ParseInt(SecondField(PageCallback(index), '_')) == Some(index)
  {
    var digits := IntToString(index);
    assert '_' !in digits;
    assert PageCallback(index) == "page" + ['_'] + digits;
    SecondFieldOfJoin("page", '_', digits);
    ParseIntRoundTrip(index);
  }

  /** The header of a tournament: its name, season and year. */
  function TournamentHeader(t: Torneio): string {
    "🏆 " + ShowText(t.nome) + " - " + ShowText(t.serie.temporada) + " " + ShowInt(t.serie.ano) + "\n\n"
  }

  /** The line of one match: its name and status. */
  function MatchLine(p: Partida): string {
    ShowText(p.nome) + " - " + ShowText(p.status) + "\n"
  }

  /** The match lines as the loop appends them, first match first. */
  function MatchLines(ps: seq<Partida>): string
    decreases |ps|
  {
    if ps == [] then [] else MatchLines(ps[..|ps| - 1]) + MatchLine(ps[|ps| - 1])
  }

  /** The text `_formatar_torneio` returns. */
  function TournamentText(t: Torneio): string {
    TournamentHeader(t) + MatchLines(t.partidas)
  }

  /** `_formatar_torneio`: the header, then one line per match. */
  method FormatTournament(t: Torneio) returns (mensagem: string)
    ensures mensagem == TournamentText(t)
  {
    mensagem := "🏆 " + ShowText(t.nome) + " - " + ShowText(t.serie.temporada) + " " + ShowInt(t.serie.ano) + "\n\n";
    var i := 0;
    while i < |t.partidas|
      invariant 0 <= i <= |t.partidas|
      invariant mensagem == TournamentHeader(t) + MatchLines(t.partidas[..i])
    {
      var partida := t.partidas[i];
      mensagem := mensagem + (ShowText(partida.nome) + " - " + ShowText(partida.status) + "\n");
      assert t.partidas[..i + 1][..i] == t.partidas[..i];
      i := i + 1;
    }
    assert t.partidas[..i] == t.partidas;
  }

  /** The match lines, one per match, in the order of the matches. */
  function Lines(ps: seq<Partida>): (r: seq<string>)
    ensures |r| == |ps| && forall i :: 0 <= i < |ps| ==> r[i] == MatchLine(ps[i])
  {
    seq(|ps|, i requires 0 <= i < |ps| => MatchLine(ps[i]))
  }

  /** The appended lines are exactly the match lines joined in match order. */
  lemma {:induction false} MatchLinesInOrder(ps: seq<Partida>)
    ensures MatchLines(ps) == Concat(Lines(ps))
    decreases |ps|
  {
    if ps != [] {
      var init := ps[..|ps| - 1];
      MatchLinesInOrder(init);
      assert Lines(ps) == Lines(init) + [MatchLine(ps[|ps| - 1])];
      ConcatAppend(Lines(init), MatchLine(ps[|ps| - 1]));
    } else {
      assert Lines(ps) == [];
    }
  }

  /** Every match of the tournament has its line in the text. */
  lemma TournamentTextListsEveryMatch(t: Torneio, i: nat)
    requires i < |t.partidas|
    ensures StartsWith(TournamentText(t), TournamentHeader(t))
    ensures Contains(TournamentText(t), MatchLine(t.partidas[i]))
  {
    MatchLinesInOrder(t.partidas);
    ConcatContainsPiece(Lines(t.partidas), i);
    ContainsInSuffix(TournamentHeader(t), MatchLines(t.partidas), MatchLine(t.partidas[i]));
  }

  /** A text without line breaks. */
  predicate SingleLine(o: Option<string>) {
    o.Some? ==> '\n' !in o.value
  }

  lemma NoBreaksInShownText(o: Option<string>)
    requires SingleLine(o)
    ensures CountChar(ShowText(o), '\n') == 0
  {
    var s := ShowText(o);
    if CountChar(s, '\n') != 0 {
      NoBreaksCount(s);
    }
  }

  lemma {:induction false} NoBreaksCount(s: string)
    requires '\n' !in s
    ensures CountChar(s, '\n') == 0
    decreases |s|
  {
    if s != [] {
      assert s[0] in s;
      assert forall c :: c in s[1..] ==> c in s;
      NoBreaksCount(s[1..]);
    }
  }

  lemma NoBreaksInShownInt(o: Option<int>)
    ensures CountChar(ShowInt(o), '\n') == 0
  {
    var s := ShowInt(o);
    assert '\n' !in s;
    NoBreaksCount(s);
  }

  /** Breaks in a text joined from three parts. */
  lemma CountJoin3(a: string, b: string, c: string)
    ensures CountChar(a + b + c, '\n') == CountChar(a, '\n') + CountChar(b, '\n') + CountChar(c, '\n')
  {
    CountCharAppend(a, b, '\n');
    CountCharAppend(a + b, c, '\n');
  }

  /** With no line break inside the match names and statuses, the match part has one line per match. */
  lemma {:induction false} MatchLinesCount(ps: seq<Partida>)
    requires forall i :: 0 <= i < |ps| ==> SingleLine(ps[i].nome) && SingleLine(ps[i].status)
    ensures CountChar(MatchLines(ps), '\n') == |ps|
    decreases |ps|
  {
    if ps != [] {
      var last := ps[|ps| - 1];
      MatchLinesCount(ps[..|ps| - 1]);
      NoBreaksInShownText(last.nome);
      NoBreaksInShownText(last.status);
      CountJoin3(ShowText(last.nome), " - ", ShowText(last.status));
      assert CountChar(" - ", '\n') == 0;
      CountCharAppend(ShowText(last.nome) + " - " + ShowText(last.status), "\n", '\n');
      assert CountChar("\n", '\n') == 1;
      CountCharAppend(MatchLines(ps[..|ps| - 1]), MatchLine(last), '\n');
    }
  }

  /**
   * With no line break inside the names, statuses and season, the text has
   * exactly two line breaks after the header (one blank line) and one per
   * match.
   */
  lemma TournamentTextLineCount(t: Torneio)
    requires SingleLine(t.nome) && SingleLine(t.serie.temporada)
    requires forall i :: 0 <= i < |t.partidas| ==> SingleLine(t.partidas[i].nome) && SingleLine(t.partidas[i].status)
    ensures CountChar(TournamentText(t), '\n') == 2 + |t.partidas|
  {
    var name, season, year := ShowText(t.nome), ShowText(t.serie.temporada), ShowInt(t.serie.ano);
    NoBreaksInShownText(t.nome);
    NoBreaksInShownText(t.serie.temporada);
    NoBreaksInShownInt(t.serie.ano);
    assert CountChar("🏆 ", '\n') == 0;
    assert CountChar(" - ", '\n') == 0;
    assert CountChar(" ", '\n') == 0;
    assert CountChar("\n\n", '\n') == 2;
    CountJoin3("🏆 ", name, " - ");
    CountJoin3("🏆 " + name + " - ", season, " ");
    CountJoin3("🏆 " + name + " - " + season + " ", year, "\n\n");
    MatchLinesCount(t.partidas);
    CountCharAppend(TournamentHeader(t), MatchLines(t.partidas), '\n');
  }

  /** Python's `torneios[index]`: a negative index counts from the end. */
  function PythonIndex(index: int, length: nat): (k: nat)
    requires -(length as int) <= index < length
    ensures k < length
    ensures index >= 0 ==> k == index
    ensures index < 0 ==> k == length + index
  {
    if index < 0 then length + index else index
  }

  /** "Torneio <index + 1> de <total>", a blank line, then the tournament. */
  function PageText(ts: seq<Torneio>, index: int): string
    requires -|ts| <= index < |ts|
  {
    "Torneio " + IntToString(index + 1) + " de " + IntToString(|ts|) + "\n\n" + TournamentText(ts[PythonIndex(index, |ts|)])
  }

  /**
   * The answer to a "page_..." callback, given the chat's stored list: the
   * number after the first underscore must parse, be below the list's length
   * and, when negative, not reach below minus the length. The page is shown
   * by editing the menu message, or in a new message when the edit fails.
   */
  function PaginationReply(ts: seq<Torneio>, data: string, editSucceeds: bool): Reply
    requires '_' in data
  {
    match ParseInt(SecondField(data, '_'))
    case None => Unhandled(ValueError)
    case Some(index) =>
      if ts == [] || index >= |ts| then SendMessage(NotFoundText, None)
      else if index < -|ts| then Unhandled(IndexError)
      else if editSucceeds then EditMessage(PageText(ts, index), PaginationMarkup(index, |ts|))
      else SendMessage(PageText(ts, index), PaginationMarkup(index, |ts|))
  }

  /** The page message and its keyboard, as either kind of reply. */
  predicate ShowsPage(reply: Reply, ts: seq<Torneio>, index: int)
    requires -|ts| <= index < |ts|
  {
    (reply.SendMessage? || reply.EditMessage?) &&
    reply.text == PageText(ts, index) && reply.markup == PaginationMarkup(index, |ts|)
  }

  /**
   * Following a button of page `index` of a stored list of tournaments
   * always shows the neighbouring page, never an error: "previous" shows
   * page `index - 1` and "next" page `index + 1`.
   */
  lemma ButtonsLeadToNeighbourPages(ts: seq<Torneio>, index: int, b: Button, editSucceeds: bool)
    requires 0 <= index < |ts|
    requires Offers(PaginationMarkup(index, |ts|), b)
    ensures '_' in b.callbackData
    ensures b.caption == PreviousLabel ==> ShowsPage(PaginationReply(ts, b.callbackData, editSucceeds), ts, index - 1)
    ensures b.caption == NextLabel ==> ShowsPage(PaginationReply(ts, b.callbackData, editSucceeds), ts, index + 1)
  {
    OfferedButton(index, |ts|, b);
    if b == Button(PreviousLabel, PageCallback(index - 1)) {
      ValidPagesAreShown(ts, index - 1, editSucceeds);
    } else {
      ValidPagesAreShown(ts, index + 1, editSucceeds);
    }
  }

  /** An offered button is "previous" to an existing earlier page or "next" to an existing later one. */
  lemma OfferedButton(index: int, total: int, b: Button)
    requires Offers(PaginationMarkup(index, total), b)
    ensures (b == Button(PreviousLabel, PageCallback(index - 1)) && index > 0)
         || (b == Button(NextLabel, PageCallback(index + 1)) && index < total - 1 && b.caption != PreviousLabel)
  {
    assert PreviousLabel != NextLabel;
  }

  /** Any page number from 0 up to the last is shown with its own header and keyboard. */
  lemma ValidPagesAreShown(ts: seq<Torneio>, index: int, editSucceeds: bool)
    requires 0 <= index < |ts|
    ensures ShowsPage(PaginationReply(ts, PageCallback(index), editSucceeds), ts, index)
    ensures PaginationReply(ts, PageCallback(index), editSucceeds).EditMessage? <==> editSucceeds
  {
    PageCallbackField(index);
  }

  /** A page number at or past the end, or any page of a chat with no stored list, gets the "not found" message. */
  lemma MissingPagesAreReported(ts: seq<Torneio>, index: int, editSucceeds: bool)
    requires ts == [] || index >= |ts|
    ensures PaginationReply(ts, PageCallback(index), editSucceeds) == SendMessage(NotFoundText, None)
  {
    PageCallbackField(index);
  }

  /**
   * A negative page number from minus the length up to -1 passes the bounds
   * check and shows the tournament that many places from the end, under the
   * header "Torneio <index + 1> de ...".
   */
  lemma NegativePagesCountFromTheEnd(ts: seq<Torneio>, index: int, editSucceeds: bool)
    requires -|ts| <= index < 0
    ensures ShowsPage(PaginationReply(ts, PageCallback(index), editSucceeds), ts, index)
    ensures EndsWith(PageText(ts, index), TournamentText(ts[|ts| + index]))
  {
    PageCallbackField(index);
  }

  /** The answer to "menu_<action>": only "torneios" answers, with the first page or an explanation. */
  function MenuReply(action: string, converted: Result<seq<Torneio>, ConversionError>): Reply {
    if action != "torneios" then NoReply
    else match converted
      case Failure(e) => Unhandled(ConversionFailed(e))
      case Success(ts) =>
        if ts == [] then SendMessage(NoTournamentsText, None)
        else SendMessage(PageText(ts, 0), PaginationMarkup(0, |ts|))
  }

  /**
   * The bot's handlers and `TORNEIOS_POR_CHAT`, the tournaments each chat
   * is browsing, keyed by chat id.
   */
  class TelegramBotClient {
    var tournamentsByChat: map<int, seq<Torneio>>

    constructor ()
      ensures tournamentsByChat == map[]
    {
      tournamentsByChat := map[];
    }

    /** `TORNEIOS_POR_CHAT.get(chat_id, [])`. */
    function Stored(chatId: int): seq<Torneio>
      reads this
    {
      if chatId in tournamentsByChat then tournamentsByChat[chatId] else []
    }

    /**
     * `handle_menu_actions` for a callback starting with "menu_". `payload`
     * is what the tournament request returned. For "torneios" the payload is
     * converted; a non-empty list replaces the chat's stored list and its
     * first page is sent. Nothing else is stored.
     */
    method HandleMenuAction(chatId: int, data: string, payload: Option<seq<TournamentJson>>) returns (reply: Reply)
      requires StartsWith(data, "menu_")
      modifies this
      ensures '_' in data
      ensures reply == MenuReply(SecondField(data, '_'), MapResult(ConvertTournament, Items(payload)))
      ensures var converted := MapResult(ConvertTournament, Items(payload));
        if SecondField(data, '_') == "torneios" && converted.Success? && converted.value != [] then
          tournamentsByChat == old(tournamentsByChat)[chatId := converted.value]
        else
          tournamentsByChat == old(tournamentsByChat)
    {
      assert data[4] == '_';
      var action := SecondField(data, '_');
      if action == "torneios" {
        var torneios := JsonForObjects(payload);
        if torneios.Failure? {
          reply := Unhandled(ConversionFailed(torneios.error));
          return;
        }
        if torneios.value == [] {
          reply := SendMessage(NoTournamentsText, None);
          return;
        }
        tournamentsByChat := tournamentsByChat[chatId := torneios.value];
        var index := 0;
        var formatted := FormatTournament(torneios.value[index]);
        var mensagem := "Torneio " + IntToString(index + 1) + " de " + IntToString(|torneios.value|) + "\n\n" + formatted;
        var markup := CreatePaginationButtons(index, |torneios.value|);
        reply := SendMessage(mensagem, markup);
      } else {
        reply := NoReply;
      }
    }

    /**
     * `handle_pagination` for a callback starting with "page_": answers from
     * the chat's stored list and changes nothing.
     */
    method HandlePagination(chatId: int, data: string, editSucceeds: bool) returns (reply: Reply)
      requires StartsWith(data, "page_")
      ensures '_' in data
      ensures reply == PaginationReply(Stored(chatId), data, editSucceeds)
    {
      assert data[4] == '_';
      var parsed := ParseInt(SecondField(data, '_'));
      if parsed.None? {
        return Unhandled(ValueError);
      }
      var index := parsed.value;
      var torneios := Stored(chatId);
      if torneios == [] || index >= |torneios| {
        return SendMessage(NotFoundText, None);
      }
      if index < -|torneios| {
        return Unhandled(IndexError);
      }
      var formatted := FormatTournament(torneios[PythonIndex(index, |torneios|)]);
      var mensagem := "Torneio " + IntToString(index + 1) + " de " + IntToString(|torneios|) + "\n\n" + formatted;
      var markup := CreatePaginationButtons(index, |torneios|);
      if editSucceeds {
        reply := EditMessage(mensagem, markup);
      } else {
        reply := SendMessage(mensagem, markup);
      }
    }
  }

  /**
   * After "menu_torneios" stored a list of at least two tournaments, the
   * first page offers only "next", and following it shows the second page.
   */
  lemma MenuThenNext(converted: seq<Torneio>, editSucceeds: bool)
    requires |converted| >= 2
    ensures MenuReply("torneios", Success(converted)) == SendMessage(PageText(converted, 0), Some([Button(NextLabel, "page_1")]))
    ensures ShowsPage(PaginationReply(converted, "page_1", editSucceeds), converted, 1)
  {
    assert IntToString(1) == "1";
    assert PageCallback(1) == "page_1";
    assert PaginationMarkup(0, |converted|) == Some([] + [Button(NextLabel, "page_1")]);
    assert [] + [Button(NextLabel, "page_1")] == [Button(NextLabel, "page_1")];
    ValidPagesAreShown(converted, 1, editSucceeds);
  }
}
