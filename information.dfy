/**
 * The record types of utils/classStructs/InformationClass.py. Each Python
 * class only stores its constructor arguments in same-named fields and
 * nothing ever changes them, so each is a datatype. A field filled from
 * `dict.get` may be missing, which Python represents as `None`: such fields
 * are `Option`s.
 */
module Information {
  import opened Wrappers

  /** A broadcast of a match: language and URL. */
  datatype Stream = Stream(idioma: Option<string>, url: Option<string>)

  /** The league a tournament belongs to. */
  datatype Liga = Liga(nome: Option<string>, slug: Option<string>)

  /** The series (season) a tournament belongs to. */
  datatype Serie = Serie(nome: Option<string>, temporada: Option<string>, ano: Option<int>)

  /** The winner of a match: the winning team's id, or the empty string when there is none yet. */
  datatype Vencedor = WinnerId(id: int) | NoWinner

  /** One match of a tournament. */
  datatype Partida = Partida(
    id: Option<int>,
    nome: Option<string>,
    status: Option<string>,
    inicio: Option<string>,
    tipo: Option<string>,
    jogos: Option<int>,
    streams: seq<Stream>,
    vencedor: Vencedor)

  /** A tournament with its league, series and matches. */
  datatype Torneio = Torneio(
    id: Option<int>,
    nome: Option<string>,
    inicio: Option<string>,
    fim: Option<string>,
    premiacao: Option<string>,
    liga: Liga,
    serie: Serie,
    partidas: seq<Partida>)
}
