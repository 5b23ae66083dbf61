# leilaoMega: the bid handling of a single-item auction server

The server keeps one auction document: `item`, `lanceMinimo` (minimum bid),
`lanceAtual` (current bid), `ultimoLicitante` (last bidder) and `dataFinal`
(closing instant). On connection it loads the stored document, or builds and
saves a default one (`'Produto Exemplo'`, minimum 100, current 0, no bidder,
closing 2 September 2024 23:59:59). It sends that state to the new socket
(`estadoAtual`). On every `fazerLance` event `{valor, usuario}` it does one of
three things:

- after the closing instant (`now >= dataFinal`), it replies privately with
  `leilaoEncerrado`;
- when `valor >= lanceMinimo && valor > lanceAtual`, it sets the current bid
  and bidder, saves, and broadcasts `novoLance` with the whole record;
- otherwise it replies privately with `lanceInvalido`.

The project has four files:

- `auction.dfy` (module `Auction`) holds the record, the messages, the
  closure test, the default record and load-or-create. It also holds `Step`,
  the effect of one bid on a record value.
- `history.dfy` (module `BidHistory`) applies a stream of bids to one record
  (`Run`, `Transcript`, `AcceptedBids`). It proves what holds over any stream:
  the current bid never decreases, accepted bids strictly increase, each bid
  gets one reply, and closure is final.
- `session.dfy` (module `Session`) holds the class `Leilao`. Its fields are
  updated in place by `PlaceBid`, which is proved equal to `Step`, and by
  `PlaceBids`, which handles a connection's events in order and is proved
  equal to `Run`/`Transcript`. `Connect` models the connection handler's
  load-or-create and greeting.
- `server.dfy` (module `Server`) models several connections, each holding its
  own copy of the record, as the source does. See "## Findings".

The clock is not read. The instant of each bid is a parameter, an integer
count of milliseconds since the epoch. Amounts are unbounded integers,
because the handler only compares them with `>=` and `>`. A missing bidder is
`None`.

Some facts about the code that the model follows:

- Each connection loads its own copy of the record (`server.js:42`).
- On acceptance the handler updates the record in memory (`server.js:69-70`),
  then saves it (`server.js:73`), then broadcasts it (`server.js:76`).

## Model

| member | source | states |
|---|---|---|
| Auction.LeilaoFinalizado | server.js:32-35 | The closing instant itself already counts as closed, and every earlier instant is open. |
| Auction.DefaultRecord | server.js:46-52 | The default record is an auction nobody has bid on: no bidder, a current bid below the minimum, and coherent. |
| Auction.LoadOrCreate | server.js:42-54 | A stored record is used unchanged. With no stored record, the result is flagged as created (to be saved) and is the default one: item `'Produto Exemplo'`, minimum 100, current 0, no bidder, the fixed closing instant. That record is coherent, with its current bid below the minimum. |
| Auction.Step | server.js:60-83 | The bid is refused as closed exactly when `now >= dataFinal`. It is accepted exactly when open, `valor >= lanceMinimo` and `valor > lanceAtual`. On acceptance the current bid becomes `valor` and the bidder becomes `usuario`. Otherwise the record is unchanged. Item, minimum and closing instant never change. The current bid never decreases and strictly increases on acceptance. Coherence is preserved. There is exactly one reply: a `novoLance` broadcast carrying the new record when accepted, a private `leilaoEncerrado` when closed, a private `lanceInvalido` when invalid. |
| Auction.BidAtClosingInstantIsClosed | server.js:32-35 | A bid at the closing instant itself is already refused as closed, and the record stays unchanged. |
| Auction.EqualOrBelowMinimumIsInvalid | server.js:68 | While open, a bid equal to the current bid or below the minimum is invalid and changes nothing. |
| BidHistory.Transcript | server.js:60-83 | Handling a stream of bids emits exactly as many messages as there are bids. |
| BidHistory.Run | server.js:60-83 | The record after successive `fazerLance` events keeps the starting item, minimum and closing instant. Its current bid is at least the starting one. |
| BidHistory.RunNeverDecreases | server.js:68-70 | The current bid after any prefix of the stream is at most the current bid after any longer prefix. |
| BidHistory.LastAcceptedBidStands | server.js:68-70 | After any stream, the record holds the last accepted amount and its bidder. With no accepted bid, the record is the starting record. |
| BidHistory.AcceptedBidsBounded | server.js:68-70 | Every accepted amount is above the starting current bid, at or above the minimum, and at most the final current bid. |
| BidHistory.AcceptedBidsIncrease | server.js:68-70 | Successive accepted amounts are strictly increasing. |
| BidHistory.TranscriptAnswersBid | server.js:61-81 | The k-th message emitted is the one reply to the k-th bid, judged against the record left by the bids before it. |
| BidHistory.BroadcastAmountsIncrease | server.js:68-76 | Any two `novoLance` broadcasts carry records, and the later one announces a strictly higher current bid. |
| BidHistory.BroadcastsAreAcceptances | server.js:73-81 | The number of messages sent to all connections equals the number of accepted bids. |
| BidHistory.RunPreservesCoherent | server.js:68-70 | If the record starts coherent, it stays coherent after any stream of bids. Coherent means no bid and no bidder, or a bid at or above the minimum together with a bidder. |
| BidHistory.FromDefaultRecord | server.js:45-70 | Starting from the default record, one of two cases holds after any stream. Either no bid was accepted, the current bid is 0 and there is no bidder. Or the current bid is at or above the minimum and the bidder is the `usuario` of the last accepted bid. |
| BidHistory.ClosedFreezes | server.js:61-66 | Bids handled at or after the closing instant leave the record and the accepted bids as they were. |
| BidHistory.ClosedRepliesPrivately | server.js:61-66 | A bid handled at or after the closing instant gets the private `leilaoEncerrado` reply. |
| BidHistory.ClosureIsFinal | server.js:32-35 | With a clock that never runs backwards, once a bid is refused as closed, every later bid is refused as closed too, and the record is frozen. |
| BidHistory.SampleSession | server.js:45-83 | From the default record, one millisecond before closing: A bids 100 and is accepted and broadcast. B bids 50, then 100, and both are refused privately as invalid. C bids 9999 at the closing instant and is refused as closed. The final record has current bid 100 and bidder A. |
| Session.Leilao.constructor | server.js:46-52 | The in-memory document holds exactly the given record. |
| Session.Leilao.PlaceBid | server.js:60-83 | Updating the fields in place results in `Step` of the old document: same new record, outcome and reply. Item, minimum and closing instant are unchanged, and the current bid does not decrease. |
| Session.Leilao.PlaceBids | server.js:60-83 | Handling a connection's events in order leaves the document equal to `Run` of the old document. The replies equal its `Transcript`. The current bid does not decrease and the fixed fields are unchanged. |
| Session.Connect | server.js:38-57 | A new connection holds the record from load-or-create, reports whether a record was created, and is greeted privately with `estadoAtual` carrying that record. |
| Server.ServePerConnection | server.js:42-83 | As written, each connection applies its bids to its own copy. One message is emitted per bid event. |
| Server.CopyIsOwnBidsOnly | server.js:42-70 | As written, connection `c`'s copy is exactly the loaded record with that connection's own bids applied, in order. No other connection's bid reaches it. |
| Server.ServeShared | server.js:60-83 | With one record shared by every connection, the record and the messages are those of the single-connection history of all bids in arrival order. |
| Server.StaleCopyAnnouncesLowerBid | server.js:42-76 | With two connections on the default record, A's bid of 200 and then B's bid of 150 are both accepted, and the server broadcasts 150 after 200. With one shared record, the same events get B a private `lanceInvalido` instead. |
| Server.SharedRecordAnnouncesIncreasingBids | server.js:68-76 | When all connections validate against one shared record, every broadcast announces a bid strictly above every earlier broadcast. |

## Findings

| source | as written | input that shows it | evidently intended | confidence | as-written member | corrected member |
|---|---|---|---|---|---|---|
| server.js:42 | `let leilao` is loaded inside the connection handler, so every socket validates bids against its own copy. A bid accepted on one socket is invisible to the copies of sockets that connected earlier. | Sockets 0 and 1 connect with no stored auction. Socket 0 bids 200 (accepted, broadcast), then socket 1 bids 150 before the closing instant. Copy 1 still has current bid 0, so 150 is accepted, saved over 200, and broadcast. | One in-memory record shared by all connections, so announced bids only increase. | not executed; high | Server.StaleCopyAnnouncesLowerBid | Server.SharedRecordAnnouncesIncreasingBids |

The single-connection model (`BidHistory`, `Session`) is the shared-record
behaviour. It makes no claim about consistency across connections.

## Left out

- The HTTP server, static file serving and `server.listen` are plumbing.
- The socket.io transport and the disconnect event, which only logs, are
  left out. The connection handler is `Session.Connect`. Messages are
  returned values tagged `Sender` or `All`.
- MongoDB is not modelled: the connection, the schema, `findOne` and `save`.
  `findOne`'s result is the `stored` parameter of `LoadOrCreate`/`Connect`.
  A save happens where `created` is true and on each `Accepted` outcome.
  Save failures are not modelled, and every save is taken to succeed. In
  the source, `await leilao.save()` is unguarded. If the save at
  `server.js:73` rejects, the handler stops after the in-memory update at
  69-70 and before the broadcast at 76. The bid is then accepted but never
  announced. If the save at `server.js:53` rejects, the connection gets no
  `estadoAtual` greeting (57) and no bid handler (60).
- Auction.Step: "an accepted bid yields one `novoLance` broadcast" (and so
  `Session.Leilao.PlaceBid`, `BidHistory.Transcript`,
  `BidHistory.BroadcastsAreAcceptances`) assumes that the save at
  `server.js:73` succeeded.
- The async interleaving of handlers at `await` points is concurrency and is
  not modelled. `Server.ServePerConnection` takes every connection's copy to
  be the record loaded before the first bid; it does not model a connection
  that loads after some bids were saved.
- The wall clock is left out. The current instant is a parameter.
  `DefaultDataFinal` reads the source's local-time literal as UTC
  (1725321599000 ms). JavaScript's zero-based months are already accounted
  for: month 8 is September.
- JavaScript number semantics are left out: floating point, NaN, and type
  coercion of untrusted `valor`/`usuario` payloads. Amounts are integers.
- The console messages are left out. The two reply texts are kept as
  constants.
