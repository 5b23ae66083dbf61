/**
 Several connections bidding on the one auction. As written, every connection
 validates bids against its own copy of the record, loaded when it connected;
 a single record shared by all connections is what keeps the announced bids
 increasing.
 */
module Server {
  import opened Auction
  import opened BidHistory

  /** A bid event together with the connection it arrived on. */
  datatype Tagged = Tagged(conn: nat, bid: Attempt)

  datatype Served = Served(copies: map<nat, Record>, out: seq<Message>)

  /** The copy held by connection `c`: the loaded record until it has handled a bid. */
  function CopyOf(copies: map<nat, Record>, loaded: Record, c: nat): Record {
    if c in copies then copies[c] else loaded
  }

  /** As written: every connection applies its own bids to its own copy, all
      copies starting from the record loaded before the first bid. */
  function ServePerConnection(loaded: Record, events: seq<Tagged>): (s: Served)
    ensures |s.out| == |events|
    decreases |events|
  {
    if events == [] then Served(map[], [])
    else
      var prev := ServePerConnection(loaded, events[..|events| - 1]);
      var e := events[|events| - 1];
      var st := StepAt(CopyOf(prev.copies, loaded, e.conn), e.bid);
      Served(prev.copies[e.conn := st.next], prev.out + st.out)
  }

  /** The bids of `events` that arrived on connection `c`, in order. */
  function BidsOf(events: seq<Tagged>, c: nat): seq<Attempt>
    decreases |events|
  {
    if events == [] then []
    else
      var e := events[|events| - 1];
      BidsOf(events[..|events| - 1], c) + (if e.conn == c then [e.bid] else [])
  }

  /** As written, the copy held by connection `c` is the loaded record with
      exactly that connection's own bids applied, in their order; no other
      connection's bid ever reaches it. */
  lemma {:induction false} CopyIsOwnBidsOnly(loaded: Record, events: seq<Tagged>, c: nat)
    ensures CopyOf(ServePerConnection(loaded, events).copies, loaded, c) == Run(loaded, BidsOf(events, c))
    decreases |events|
  {
    if events != [] {
      var init, e := events[..|events| - 1], events[|events| - 1];
      CopyIsOwnBidsOnly(loaded, init, c);
      var prev := ServePerConnection(loaded, init);
      var own := BidsOf(init, c);
      if e.conn == c {
        var bids := own + [e.bid];
        assert bids[..|bids| - 1] == own;
      } else {
        assert BidsOf(events, c) == own;
        assert CopyOf(prev.copies[e.conn := StepAt(CopyOf(prev.copies, loaded, e.conn), e.bid).next], loaded, c)
          == CopyOf(prev.copies, loaded, c);
      }
    }
  }

  /** The bids of `events`, connection tags dropped. */
  function Untagged(events: seq<Tagged>): seq<Attempt> {
    seq(|events|, i requires 0 <= i < |events| => events[i].bid)
  }

  datatype SharedServed = SharedServed(leilao: Record, out: seq<Message>)

  /** Corrected: the same handling with one record shared by every connection.
      It is the single-connection history of all bids in arrival order. */
  function ServeShared(loaded: Record, events: seq<Tagged>): (s: SharedServed)
    ensures s.leilao == Run(loaded, Untagged(events))
    ensures s.out == Transcript(loaded, Untagged(events))
    decreases |events|
  {
    if events == [] then SharedServed(loaded, [])
    else
      var prev := ServeShared(loaded, events[..|events| - 1]);
      var e := events[|events| - 1];
      assert Untagged(events)[..|events| - 1] == Untagged(events[..|events| - 1]);
      var st := StepAt(prev.leilao, e.bid);
      SharedServed(st.next, prev.out + st.out)
  }

  /** Two connections open on the default record; A bids 200 and B, whose copy
      never saw A's bid, bids 150: both are accepted and the server announces
      150 after 200. A shared record refuses B's bid instead. */
  lemma StaleCopyAnnouncesLowerBid()
    ensures var t := DefaultDataFinal - 1;
      var events := [Tagged(0, Attempt(t, Lance(200, "A"))), Tagged(1, Attempt(t, Lance(150, "B")))];
      var out := ServePerConnection(DefaultRecord(), events).out;
      && out[0].target == All && out[1].target == All
      && out[0].payload.State? && out[1].payload.State?
      && out[0].payload.leilao.lanceAtual == 200
      && out[1].payload.leilao.lanceAtual == 150
      // on the same events, one shared record refuses B's lower bid
      && ServeShared(DefaultRecord(), events).out[1] == Message(Sender, LanceInvalido, Notice(MsgInvalido))
  {
    var t := DefaultDataFinal - 1;
    var events := [Tagged(0, Attempt(t, Lance(200, "A"))), Tagged(1, Attempt(t, Lance(150, "B")))];
    assert events[..1][..0] == [];
    assert events[..|events| - 1] == events[..1];
    var d := DefaultRecord();
    var a := d.(lanceAtual := 200, ultimoLicitante := Some("A"));
    var first := ServePerConnection(d, events[..1]);
    assert ServePerConnection(d, events[..1][..0]) == Served(map[], []);
    assert StepAt(d, events[0].bid).next == a;
    assert first.copies == map[0 := a];
    assert CopyOf(first.copies, d, 1) == d;
  }

  /** Corrected: with one shared record, every announcement the server makes
      is above every earlier one. */
  lemma SharedRecordAnnouncesIncreasingBids(loaded: Record, events: seq<Tagged>, i: nat, j: nat)
    requires i < j < |events|
    requires ServeShared(loaded, events).out[i].target == All
    requires ServeShared(loaded, events).out[j].target == All
    ensures var out := ServeShared(loaded, events).out;
      && out[i].payload.State? && out[j].payload.State?
      && out[i].payload.leilao.lanceAtual < out[j].payload.leilao.lanceAtual
  {
    BroadcastAmountsIncrease(loaded, Untagged(events), i, j);
  }
}
