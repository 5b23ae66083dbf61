/**
 The auction record of the single-item auction server and the one-bid
 transition of its `fazerLance` handler, stated on values.

 Amounts are unbounded integers (only `>=` and `>` are ever applied to them);
 instants are integers counting milliseconds since the epoch, and the clock
 is a parameter rather than something read.
 */
module Auction {

  datatype Option<+T> = None | Some(value: T)

  /** The stored auction document (fields `item`, `lanceMinimo`, `lanceAtual`,
      `ultimoLicitante`, `dataFinal`). */
  datatype Record = Record(
    item: string,
    lanceMinimo: int,
    lanceAtual: int,
    ultimoLicitante: Option<string>,
    dataFinal: int)

  /** The payload of a `fazerLance` event. */
  datatype Lance = Lance(valor: int, usuario: string)

  /** Who receives an outgoing event: the submitting socket only, or every
      connected socket. */
  datatype Target = Sender | All

  datatype EventName = EstadoAtual | NovoLance | LanceInvalido | LeilaoEncerrado

  datatype Payload = State(leilao: Record) | Notice(mensagem: string)

  datatype Message = Message(target: Target, event: EventName, payload: Payload)

  /** Which of the handler's three branches a bid took. */
  datatype Outcome = Closed | Accepted | Invalid

  datatype StepResult = StepResult(next: Record, outcome: Outcome, out: seq<Message>)

  const DefaultItem: string := "Produto Exemplo"
  const DefaultLanceMinimo: int := 100
  /** 2 September 2024, 23:59:59, read as UTC, in milliseconds. */
  const DefaultDataFinal: int := 1725321599000

  const MsgEncerrado: string := "O leilão já foi encerrado. Não são permitidos novos lances."
  const MsgInvalido: string := "Lance inválido. O lance deve ser maior que o lance atual e o lance mínimo."

  /** The closure test `leilaoFinalizado`, with the current instant passed in. */
  predicate LeilaoFinalizado(r: Record, now: int)
    // the closing instant itself already counts as closed; any earlier instant is open
    ensures now == r.dataFinal ==> LeilaoFinalizado(r, now)
    ensures now < r.dataFinal ==> !LeilaoFinalizado(r, now)
  {
    now >= r.dataFinal
  }

  /** The record built when no auction is stored. */
  function DefaultRecord(): (d: Record)
    // an auction nobody has bid on yet: no bidder and a current bid below the minimum
    ensures d.ultimoLicitante == None && d.lanceAtual < d.lanceMinimo
    ensures Coherent(d)
  {
    Record(DefaultItem, DefaultLanceMinimo, 0, None, DefaultDataFinal)
  }

  /** The in-memory record of a fresh connection, and whether it had to be
      created (and therefore saved) because nothing was stored. */
  datatype Loaded = Loaded(leilao: Record, created: bool)

  /** The record is either in its initial state (no bid, no bidder) or holds
      an accepted bid at or above the minimum together with its bidder. */
  predicate Coherent(r: Record) {
    || (r.lanceAtual == 0 && r.ultimoLicitante == None)
    || (r.lanceAtual >= r.lanceMinimo && r.ultimoLicitante.Some?)
  }

  function LoadOrCreate(stored: Option<Record>): (l: Loaded)
    ensures l.created <==> stored.None?
    ensures stored.Some? ==> l.leilao == stored.value
    ensures l.created ==>
      && l.leilao.item == "Produto Exemplo"
      && l.leilao.lanceMinimo == 100
      && l.leilao.lanceAtual == 0
      && l.leilao.ultimoLicitante == None
      && l.leilao.dataFinal == DefaultDataFinal
    ensures l.created ==> Coherent(l.leilao) && l.leilao.lanceAtual < l.leilao.lanceMinimo
  {
    match stored
    case Some(r) => Loaded(r, false)
    case None => Loaded(DefaultRecord(), true)
  }

  /** One `fazerLance` event: the new record, the branch taken and the
      replies emitted. */
  function Step(r: Record, now: int, lance: Lance): (s: StepResult)
    // closure gate: closed exactly from the closing instant on, whatever the amount
    ensures s.outcome == Closed <==> now >= r.dataFinal
    // acceptance needs both comparisons, non-strict on the minimum, strict on the current bid
    ensures s.outcome == Accepted <==>
      now < r.dataFinal && lance.valor >= r.lanceMinimo && lance.valor > r.lanceAtual
    ensures s.outcome == Accepted ==>
      s.next.lanceAtual == lance.valor && s.next.ultimoLicitante == Some(lance.usuario)
    ensures s.outcome != Accepted ==> s.next == r
    ensures s.next.item == r.item && s.next.lanceMinimo == r.lanceMinimo
    ensures s.next.dataFinal == r.dataFinal
    ensures s.next.lanceAtual >= r.lanceAtual
    ensures s.outcome == Accepted ==> s.next.lanceAtual > r.lanceAtual
    ensures Coherent(r) ==> Coherent(s.next)
    // exactly one reply; it is broadcast exactly when the bid is accepted
    ensures |s.out| == 1
    ensures s.out[0].target == All <==> s.outcome == Accepted
    ensures s.outcome == Accepted ==> s.out[0] == Message(All, NovoLance, State(s.next))
    ensures s.outcome == Closed ==> s.out[0] == Message(Sender, LeilaoEncerrado, Notice(MsgEncerrado))
    ensures s.outcome == Invalid ==> s.out[0] == Message(Sender, LanceInvalido, Notice(MsgInvalido))
  {
    if LeilaoFinalizado(r, now) then
      StepResult(r, Closed, [Message(Sender, LeilaoEncerrado, Notice(MsgEncerrado))])
    else if lance.valor >= r.lanceMinimo && lance.valor > r.lanceAtual then
      var n := r.(lanceAtual := lance.valor, ultimoLicitante := Some(lance.usuario));
      StepResult(n, Accepted, [Message(All, NovoLance, State(n))])
    else
      StepResult(r, Invalid, [Message(Sender, LanceInvalido, Notice(MsgInvalido))])
  }

  /** A bid at the closing instant itself is already refused as closed. */
  lemma BidAtClosingInstantIsClosed(r: Record, lance: Lance)
    ensures Step(r, r.dataFinal, lance).outcome == Closed
    ensures Step(r, r.dataFinal, lance).next == r
  {
  }

  /** While open, a bid equal to the standing bid or below the minimum is refused. */
  lemma EqualOrBelowMinimumIsInvalid(r: Record, now: int, lance: Lance)
    requires now < r.dataFinal
    requires lance.valor == r.lanceAtual || lance.valor < r.lanceMinimo
    ensures Step(r, now, lance).outcome == Invalid
    ensures Step(r, now, lance).next == r
  {
  }
}
