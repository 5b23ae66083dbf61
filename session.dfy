/**
 One socket connection of the auction server: the auction document it holds
 in memory, updated in place by each `fazerLance` event it receives.
 Each connection holds its own copy; nothing here relates two connections.
 */
module Session {
  import opened Auction
  import opened BidHistory

  /** The in-memory auction document of one connection. */
  class Leilao {
    var item: string
    var lanceMinimo: int
    var lanceAtual: int
    var ultimoLicitante: Option<string>
    var dataFinal: int

    /** The document as the value that is emitted and persisted. */
    function Snapshot(): Record
      reads this
    {
      Record(item, lanceMinimo, lanceAtual, ultimoLicitante, dataFinal)
    }

    constructor (r: Record)
      ensures Snapshot() == r
    {
      item := r.item;
      lanceMinimo := r.lanceMinimo;
      lanceAtual := r.lanceAtual;
      ultimoLicitante := r.ultimoLicitante;
      dataFinal := r.dataFinal;
    }

    /** The `fazerLance` handler: checks closure, then the two comparisons,
        and on acceptance updates the current bid and bidder in place. */
    method PlaceBid(now: int, valor: int, usuario: string) returns (outcome: Outcome, out: seq<Message>)
      modifies this
      ensures var s := Step(old(Snapshot()), now, Lance(valor, usuario));
        Snapshot() == s.next && outcome == s.outcome && out == s.out
      ensures item == old(item) && lanceMinimo == old(lanceMinimo) && dataFinal == old(dataFinal)
      ensures lanceAtual >= old(lanceAtual)
    {
      if LeilaoFinalizado(Snapshot(), now) {
        outcome := Closed;
        out := [Message(Sender, LeilaoEncerrado, Notice(MsgEncerrado))];
        return;
      }
      if valor >= lanceMinimo && valor > lanceAtual {
        lanceAtual := valor;
        ultimoLicitante := Some(usuario);
        outcome := Accepted;
        out := [Message(All, NovoLance, State(Snapshot()))];
      } else {
        outcome := Invalid;
        out := [Message(Sender, LanceInvalido, Notice(MsgInvalido))];
      }
    }

    /** The connection's events handled one after another, in arrival order. */
    method PlaceBids(bids: seq<Attempt>) returns (out: seq<Message>)
      modifies this
      ensures Snapshot() == Run(old(Snapshot()), bids)
      ensures out == Transcript(old(Snapshot()), bids)
      ensures lanceAtual >= old(lanceAtual)
      ensures item == old(item) && lanceMinimo == old(lanceMinimo) && dataFinal == old(dataFinal)
    {
      ghost var start := Snapshot();
      out := [];
      var i := 0;
      while i < |bids|
        invariant 0 <= i <= |bids|
        invariant Snapshot() == Run(start, bids[..i])
        invariant out == Transcript(start, bids[..i])
      {
        var outcome, reply := PlaceBid(bids[i].now, bids[i].lance.valor, bids[i].lance.usuario);
        assert bids[..i + 1][..i] == bids[..i];
        out := out + reply;
        i := i + 1;
      }
      assert bids[..|bids|] == bids;
      RunNeverDecreases(start, bids, 0, |bids|);
    }
  }

  /** A new connection: load the stored auction or create the default one,
      then send the current state to that connection only. */
  method Connect(stored: Option<Record>) returns (leilao: Leilao, created: bool, greeting: Message)
    ensures fresh(leilao)
    ensures leilao.Snapshot() == LoadOrCreate(stored).leilao
    ensures created <==> stored.None?
    ensures greeting == Message(Sender, EstadoAtual, State(leilao.Snapshot()))
  {
    var loaded := LoadOrCreate(stored);
    leilao := new Leilao(loaded.leilao);
    created := loaded.created;
    greeting := Message(Sender, EstadoAtual, State(leilao.Snapshot()));
  }
}
