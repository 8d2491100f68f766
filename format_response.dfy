/**
 * `formatUltimaPartida` (utils/formatResponse.py): the caption and logo of
 * the message about the team's last finished match. Only the first match
 * of the list is read; opponent 0 and result 0 are the tracked team's,
 * opponent 1 and result 1 the adversary's.
 */
module FormatResponse {
  import opened Wrappers
  import opened Text

  datatype Opponent = Opponent(name: string)
  datatype Score = Score(score: int)
  datatype Winner = Winner(name: string, imageUrl: Option<string>)
  datatype Series = Series(fullName: string)
  datatype StreamInfo = StreamInfo(official: bool, language: string, rawUrl: string)

  /** The fields of one finished match that the formatter reads. */
  datatype MatchRecord = MatchRecord(
    opponents: seq<Opponent>,
    results: seq<Score>,
    winner: Winner,
    serie: Series,
    streamsList: seq<StreamInfo>)

  /** The formatter's answer: the caption and the winner's logo. */
  datatype LastMatchReply = LastMatchReply(text: string, logo: Option<string>)

  const DefeatTagline := "Parabéns ao adversário, mas a FURIA vai voltar mais forte!"
  const VictoryTagline := "🔥SÓ VEM QUE A FURIA TÁ LIGADA!!!🔥"
  const Hashtags := "#FURIA | #CS2"

  /** The tagline: the defeat one only when the tracked team scored less; a draw gets the victory one. */
  function Tagline(scoreFuria: int, scoreRival: int): string {
    if scoreFuria < scoreRival then DefeatTagline else VictoryTagline
  }

  lemma TaglineChoice(scoreFuria: int, scoreRival: int)
    ensures Tagline(scoreFuria, scoreRival) == DefeatTagline <==> scoreFuria < scoreRival
    ensures Tagline(scoreFuria, scoreRival) == VictoryTagline <==> scoreFuria >= scoreRival
  {
  }

  /** A stream the formatter may link: official, in English or Brazilian Portuguese. */
  predicate Qualifies(s: StreamInfo) {
    s.official && (s.language == "en" || s.language == "br")
  }

  /** Index of the last qualifying stream, found by scanning from the end. */
  function LastQualifying(ss: seq<StreamInfo>): (r: Option<nat>)
    ensures r.Some? ==> r.value < |ss|
    decreases |ss|
  {
    if ss == [] then None
    else if Qualifies(ss[|ss| - 1]) then Some(|ss| - 1)
    else LastQualifying(ss[..|ss| - 1])
  }

  /** `LastQualifying` finds the qualifying stream with the largest index, or reports that none qualifies. */
  lemma {:induction false} LastQualifyingCorrect(ss: seq<StreamInfo>)
    ensures LastQualifying(ss).Some? ==>
      LastQualifying(ss).value < |ss| && Qualifies(ss[LastQualifying(ss).value]) &&
      forall j :: LastQualifying(ss).value < j < |ss| ==> !Qualifies(ss[j])
    ensures LastQualifying(ss).None? ==> forall j :: 0 <= j < |ss| ==> !Qualifies(ss[j])
    decreases |ss|
  {
    if ss != [] && !Qualifies(ss[|ss| - 1]) {
      var init := ss[..|ss| - 1];
      LastQualifyingCorrect(init);
      assert forall j :: 0 <= j < |init| ==> init[j] == ss[j];
    }
  }

  /**
   * The link the caption shows: `None` for an empty stream list (printed as
   * the word None), "#" when no stream qualifies, and otherwise the URL of
   * the last qualifying stream.
   */
  function StreamLink(ss: seq<StreamInfo>): Option<string> {
    if ss == [] then None
    else match LastQualifying(ss)
      case None => Some("#")
      case Some(k) => Some(ss[k].rawUrl)
  }

  /** The link in terms of the streams alone. */
  lemma StreamLinkCases(ss: seq<StreamInfo>)
    ensures StreamLink(ss).None? <==> ss == []
    ensures ss != [] && (forall j :: 0 <= j < |ss| ==> !Qualifies(ss[j])) ==> StreamLink(ss) == Some("#")
    ensures (exists j :: 0 <= j < |ss| && Qualifies(ss[j])) ==>
      exists k :: 0 <= k < |ss| && Qualifies(ss[k]) && StreamLink(ss) == Some(ss[k].rawUrl) &&
        forall j :: k < j < |ss| ==> !Qualifies(ss[j])
  {
    LastQualifyingCorrect(ss);
  }

  /**
   * The loop over `streams_list[::-1]`: each non-qualifying stream sets the
   * link to "#", the first qualifying one sets its URL and stops the loop.
   */
  method SelectStreamLink(streams: seq<StreamInfo>) returns (link: Option<string>)
    ensures link == StreamLink(streams)
  {
    link := None;
    var i := |streams|;
    assert streams[..i] == streams;
    while i > 0
      invariant 0 <= i <= |streams|
      invariant link == if i == |streams| then None else Some("#")
      invariant LastQualifying(streams) == LastQualifying(streams[..i])
    {
      var stream := streams[i - 1];
      if stream.official && (stream.language == "en" || stream.language == "br") {
        link := Some(stream.rawUrl);
        assert streams[..i][i - 1] == stream;
        return;
      } else {
        link := Some("#");
      }
      assert streams[..i][..i - 1] == streams[..i - 1];
      i := i - 1;
    }
  }

  /**
   * The caption, as the f-string builds it: the series, the score line, the
   * winner with the tagline, the highlights link and the hashtags.
   */
  function Message(season: string, furia: string, scoreFuria: int, rival: string, scoreRival: int,
                   vencedor: string, tagline: string, link: Option<string>): string
  {
    Concat(MessagePieces(season, furia, scoreFuria, rival, scoreRival, vencedor, tagline, link))
  }

  function MessagePieces(season: string, furia: string, scoreFuria: int, rival: string, scoreRival: int,
                         vencedor: string, tagline: string, link: Option<string>): seq<string>
  {
    [ "🔥 Última batalha da FURIA no ", season, "! 🐈‍⬛\n\n",
      ScoreLine(furia, scoreFuria, rival, scoreRival), "\n\n",
      "🏆 Vitória dos ", vencedor, "! ", tagline, " 💪\n\n",
      "📺 ", "[Assista aos melhores momentos!](", ShowText(link), ")", "\n\n",
      Hashtags ]
  }

  /** "<team> (<score>) VS <adversary> (<score>)". */
  function ScoreLine(furia: string, scoreFuria: int, rival: string, scoreRival: int): string {
    furia + " (" + IntToString(scoreFuria) + ") VS " + rival + " (" + IntToString(scoreRival) + ")"
  }

  /** The caption of a match: opponent and result 0 are the tracked team's, 1 the adversary's. */
  function Caption(m: MatchRecord): string
    requires |m.opponents| >= 2 && |m.results| >= 2
  {
    Message(m.serie.fullName, m.opponents[0].name, m.results[0].score, m.opponents[1].name, m.results[1].score,
            m.winner.name, Tagline(m.results[0].score, m.results[1].score), StreamLink(m.streamsList))
  }

  /** The caption names the series, shows the score line, the winner, the tagline and the link, and ends with the hashtags. */
  lemma CaptionContents(m: MatchRecord)
    requires |m.opponents| >= 2 && |m.results| >= 2
    ensures Contains(Caption(m), m.serie.fullName)
    ensures Contains(Caption(m), ScoreLine(m.opponents[0].name, m.results[0].score, m.opponents[1].name, m.results[1].score))
    ensures Contains(Caption(m), m.winner.name)
    ensures Contains(Caption(m), Tagline(m.results[0].score, m.results[1].score))
    ensures Contains(Caption(m), ShowText(StreamLink(m.streamsList)))
    ensures EndsWith(Caption(m), Hashtags)
  {
    var pieces := MessagePieces(m.serie.fullName, m.opponents[0].name, m.results[0].score, m.opponents[1].name,
                                m.results[1].score, m.winner.name, Tagline(m.results[0].score, m.results[1].score),
                                StreamLink(m.streamsList));
    ConcatContainsPiece(pieces, 1);
    ConcatContainsPiece(pieces, 3);
    ConcatContainsPiece(pieces, 6);
    ConcatContainsPiece(pieces, 8);
    ConcatContainsPiece(pieces, 12);
    ConcatEndsWithLast(pieces);
  }

  /**
   * `formatUltimaPartida`. The caller must pass a non-empty list whose first
   * match has two opponents and two results; Python raises otherwise, and
   * no caller handles it.
   */
  method FormatLastMatch(data: seq<MatchRecord>) returns (reply: LastMatchReply)
    requires |data| >= 1 && |data[0].opponents| >= 2 && |data[0].results| >= 2
    ensures reply.text == Caption(data[0])
    ensures reply.logo == data[0].winner.imageUrl
  {
    var m := data[0];
    var furia, rival := m.opponents[0].name, m.opponents[1].name;
    var scoreFuria, scoreRival := m.results[0].score, m.results[1].score;
    var vencedor, logo := m.winner.name, m.winner.imageUrl;
    var season := m.serie.fullName;
    var tagline := Tagline(scoreFuria, scoreRival);
    var link := SelectStreamLink(m.streamsList);
    var message := Message(season, furia, scoreFuria, rival, scoreRival, vencedor, tagline, link);
    reply := LastMatchReply(message, logo);
  }

  /** A won match with one official English stream: its caption shows the score line, the victory tagline and the stream's link. */
  lemma WonMatchExample()
    ensures var m := MatchRecord([Opponent("FURIA"), Opponent("Rival")], [Score(16), Score(10)],
                                 Winner("FURIA", Some("http://x/logo.png")), Series("Major 2024"),
                                 [StreamInfo(true, "en", "http://stream")]);
      Contains(Caption(m), "FURIA (16) VS Rival (10)") && Contains(Caption(m), VictoryTagline)
      && Contains(Caption(m), "http://stream")
  {
    var m := MatchRecord([Opponent("FURIA"), Opponent("Rival")], [Score(16), Score(10)],
                         Winner("FURIA", Some("http://x/logo.png")), Series("Major 2024"),
                         [StreamInfo(true, "en", "http://stream")]);
    assert IntToString(16) == "16" by {
      assert NatToString(1) == "1";
      assert NatToString(16) == NatToString(1) + [DigitChar(6)];
    }
    assert IntToString(10) == "10" by {
      assert NatToString(10) == NatToString(1) + [DigitChar(0)];
    }
    assert ScoreLine("FURIA", 16, "Rival", 10) == "FURIA (16) VS Rival (10)";
    assert Qualifies(m.streamsList[0]);
    assert StreamLink(m.streamsList) == Some("http://stream");
    CaptionContents(m);
  }

  /** The caption shows the link as the target of the highlights link. */
  lemma HighlightsLink(season: string, furia: string, scoreFuria: int, rival: string, scoreRival: int,
                       vencedor: string, tagline: string, link: Option<string>)
    ensures Contains(Message(season, furia, scoreFuria, rival, scoreRival, vencedor, tagline, link),
                     "[Assista aos melhores momentos!](" + ShowText(link) + ")")
  {
    var pieces := MessagePieces(season, furia, scoreFuria, rival, scoreRival, vencedor, tagline, link);
    assert pieces[11..14] == [pieces[11], pieces[12], pieces[13]];
    ConcatThree(pieces[11], pieces[12], pieces[13]);
    ConcatContainsRun(pieces, 11, 14);
  }

  /** With an empty stream list the highlights link is the text "None". */
  lemma NoStreamsExample(m: MatchRecord)
    requires |m.opponents| >= 2 && |m.results| >= 2 && m.streamsList == []
    ensures Contains(Caption(m), "[Assista aos melhores momentos!](None)")
  {
    HighlightsLink(m.serie.fullName, m.opponents[0].name, m.results[0].score, m.opponents[1].name,
                   m.results[1].score, m.winner.name, Tagline(m.results[0].score, m.results[1].score),
                   StreamLink(m.streamsList));
    assert ShowText(StreamLink(m.streamsList)) == "None";
    assert "[Assista aos melhores momentos!](" + "None" + ")" == "[Assista aos melhores momentos!](None)";
  }
}
