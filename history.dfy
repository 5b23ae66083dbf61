/**
 The stream of `fazerLance` events received by one connection, applied in
 arrival order to that connection's copy of the auction record.
 */
module BidHistory {
  import opened Auction

  /** One `fazerLance` event together with the instant it is handled. */
  datatype Attempt = Attempt(now: int, lance: Lance)

  function StepAt(r: Record, a: Attempt): StepResult {
    Step(r, a.now, a.lance)
  }

  /** The record after every bid of `bids` has been handled: the item, the
      minimum bid and the closing instant are never changed, and the current
      bid never goes down. */
  function Run(r: Record, bids: seq<Attempt>): (q: Record)
    ensures q.item == r.item && q.lanceMinimo == r.lanceMinimo && q.dataFinal == r.dataFinal
    ensures q.lanceAtual >= r.lanceAtual
    decreases |bids|
  {
    if bids == [] then r
    else StepAt(Run(r, bids[..|bids| - 1]), bids[|bids| - 1]).next
  }

  /** Every message emitted while handling `bids`, in order. */
  function Transcript(r: Record, bids: seq<Attempt>): (t: seq<Message>)
    ensures |t| == |bids|
    decreases |bids|
  {
    if bids == [] then []
    else Transcript(r, bids[..|bids| - 1]) + StepAt(Run(r, bids[..|bids| - 1]), bids[|bids| - 1]).out
  }

  /** The bids of `bids` that were accepted, in order. */
  function AcceptedBids(r: Record, bids: seq<Attempt>): seq<Lance>
    decreases |bids|
  {
    if bids == [] then []
    else
      var last := bids[|bids| - 1];
      AcceptedBids(r, bids[..|bids| - 1])
        + (if StepAt(Run(r, bids[..|bids| - 1]), last).outcome == Accepted then [last.lance] else [])
  }

  /** The number of messages in `ms` sent to every connection. */
  function Broadcasts(ms: seq<Message>): nat
    decreases |ms|
  {
    if ms == [] then 0
    else Broadcasts(ms[..|ms| - 1]) + (if ms[|ms| - 1].target == All then 1 else 0)
  }

  lemma {:induction false} BroadcastsAppend(a: seq<Message>, b: seq<Message>)
    ensures Broadcasts(a + b) == Broadcasts(a) + Broadcasts(b)
    decreases |b|
  {
    if b != [] {
      var b' := b[..|b| - 1];
      assert (a + b)[..|a + b| - 1] == a + b';
      BroadcastsAppend(a, b');
    } else {
      assert a + b == a;
    }
  }

  /** The current bid never decreases along the stream. */
  lemma {:induction false} RunNeverDecreases(r: Record, bids: seq<Attempt>, i: nat, j: nat)
    requires i <= j <= |bids|
    ensures Run(r, bids[..i]).lanceAtual <= Run(r, bids[..j]).lanceAtual
    decreases j - i
  {
    if i < j {
      RunNeverDecreases(r, bids, i, j - 1);
      assert bids[..j][..j - 1] == bids[..j - 1];
    }
  }

  /** The final record holds the last accepted bid and its bidder, or is the
      starting record when no bid was accepted. */
  lemma {:induction false} LastAcceptedBidStands(r: Record, bids: seq<Attempt>)
    ensures var a := AcceptedBids(r, bids);
      && (a == [] ==> Run(r, bids) == r)
      && (a != [] ==>
            && Run(r, bids).lanceAtual == a[|a| - 1].valor
            && Run(r, bids).ultimoLicitante == Some(a[|a| - 1].usuario))
    decreases |bids|
  {
    if bids != [] {
      var init, last := bids[..|bids| - 1], bids[|bids| - 1];
      LastAcceptedBidStands(r, init);
      var s := StepAt(Run(r, init), last);
      if s.outcome == Accepted {
        assert AcceptedBids(r, bids) == AcceptedBids(r, init) + [last.lance];
      } else {
        assert AcceptedBids(r, bids) == AcceptedBids(r, init);
      }
    }
  }

  /** Every accepted amount is above the starting bid, at or above the
      minimum, and at most the final current bid. */
  lemma {:induction false} AcceptedBidsBounded(r: Record, bids: seq<Attempt>)
    ensures var a := AcceptedBids(r, bids);
      forall i :: 0 <= i < |a| ==>
        r.lanceAtual < a[i].valor <= Run(r, bids).lanceAtual && a[i].valor >= r.lanceMinimo
    decreases |bids|
  {
    if bids != [] {
      var init, last := bids[..|bids| - 1], bids[|bids| - 1];
      AcceptedBidsBounded(r, init);
      RunNeverDecreases(r, bids, 0, |bids| - 1);
      assert bids[..0] == [] && bids[..|bids| - 1] == init;
      var s := StepAt(Run(r, init), last);
      if s.outcome == Accepted {
        assert AcceptedBids(r, bids) == AcceptedBids(r, init) + [last.lance];
      } else {
        assert AcceptedBids(r, bids) == AcceptedBids(r, init);
      }
    }
  }

  /** Successive accepted amounts are strictly increasing. */
  lemma {:induction false} AcceptedBidsIncrease(r: Record, bids: seq<Attempt>)
    ensures var a := AcceptedBids(r, bids);
      forall i, j :: 0 <= i < j < |a| ==> a[i].valor < a[j].valor
    decreases |bids|
  {
    if bids != [] {
      var init, last := bids[..|bids| - 1], bids[|bids| - 1];
      AcceptedBidsIncrease(r, init);
      AcceptedBidsBounded(r, init);
      var s := StepAt(Run(r, init), last);
      if s.outcome == Accepted {
        assert AcceptedBids(r, bids) == AcceptedBids(r, init) + [last.lance];
      } else {
        assert AcceptedBids(r, bids) == AcceptedBids(r, init);
      }
    }
  }

  /** Every bid gets exactly one reply: the k-th message answers the k-th bid. */
  lemma {:induction false} TranscriptAnswersBid(r: Record, bids: seq<Attempt>, k: nat)
    requires k < |bids|
    ensures Transcript(r, bids)[k] == StepAt(Run(r, bids[..k]), bids[k]).out[0]
    decreases |bids|
  {
    var init := bids[..|bids| - 1];
    if k < |init| {
      TranscriptAnswersBid(r, init, k);
      assert init[..k] == bids[..k];
    } else {
      assert bids[..k] == init;
    }
  }

  /** Successive `novoLance` broadcasts announce strictly increasing bids. */
  lemma BroadcastAmountsIncrease(r: Record, bids: seq<Attempt>, i: nat, j: nat)
    requires i < j < |bids|
    requires Transcript(r, bids)[i].target == All && Transcript(r, bids)[j].target == All
    ensures Transcript(r, bids)[i].payload.State? && Transcript(r, bids)[j].payload.State?
    ensures Transcript(r, bids)[i].payload.leilao.lanceAtual < Transcript(r, bids)[j].payload.leilao.lanceAtual
  {
    TranscriptAnswersBid(r, bids, i);
    TranscriptAnswersBid(r, bids, j);
    assert bids[..i + 1][..i] == bids[..i];
    RunNeverDecreases(r, bids, i + 1, j);
  }

  /** One broadcast per accepted bid and none for any other bid. */
  lemma {:induction false} BroadcastsAreAcceptances(r: Record, bids: seq<Attempt>)
    ensures Broadcasts(Transcript(r, bids)) == |AcceptedBids(r, bids)|
    decreases |bids|
  {
    if bids != [] {
      var init := bids[..|bids| - 1];
      var s := StepAt(Run(r, init), bids[|bids| - 1]);
      BroadcastsAreAcceptances(r, init);
      BroadcastsAppend(Transcript(r, init), s.out);
      assert Broadcasts(s.out) == Broadcasts(s.out[..0]) + (if s.out[0].target == All then 1 else 0);
    }
  }

  /** Coherence of the record survives any stream of bids. */
  lemma {:induction false} RunPreservesCoherent(r: Record, bids: seq<Attempt>)
    requires Coherent(r)
    ensures Coherent(Run(r, bids))
    decreases |bids|
  {
    if bids != [] {
      RunPreservesCoherent(r, bids[..|bids| - 1]);
    }
  }

  /** Starting from the default record, the auction either has no bid and no
      bidder, or holds a bid at or above the minimum placed by the author of
      the last accepted bid. */
  lemma {:induction false} FromDefaultRecord(bids: seq<Attempt>)
    ensures var f := Run(DefaultRecord(), bids); var a := AcceptedBids(DefaultRecord(), bids);
      || (a == [] && f.lanceAtual == 0 && f.ultimoLicitante == None)
      || (a != [] && f.lanceAtual >= f.lanceMinimo && f.ultimoLicitante == Some(a[|a| - 1].usuario))
  {
    LastAcceptedBidStands(DefaultRecord(), bids);
    AcceptedBidsBounded(DefaultRecord(), bids);
  }

  /** Bids handled at or after the closing instant change nothing. */
  lemma {:induction false} ClosedFreezes(r: Record, bids: seq<Attempt>, k: nat)
    requires k <= |bids|
    requires forall i :: k <= i < |bids| ==> bids[i].now >= r.dataFinal
    ensures Run(r, bids) == Run(r, bids[..k])
    ensures AcceptedBids(r, bids) == AcceptedBids(r, bids[..k])
    decreases |bids|
  {
    if |bids| == k {
      assert bids[..k] == bids;
    } else {
      var init := bids[..|bids| - 1];
      assert init[..k] == bids[..k];
      ClosedFreezes(r, init, k);
    }
  }

  /** Each bid handled at or after the closing instant is answered privately
      with the closure notice. */
  lemma {:induction false} ClosedRepliesPrivately(r: Record, bids: seq<Attempt>, i: nat)
    requires i < |bids| && bids[i].now >= r.dataFinal
    ensures Transcript(r, bids)[i] == Message(Sender, LeilaoEncerrado, Notice(MsgEncerrado))
  {
    TranscriptAnswersBid(r, bids, i);
  }

  /** With a clock that never runs backwards, once one bid is refused as
      closed every later bid is too, and the record stays as it was. */
  lemma ClosureIsFinal(r: Record, bids: seq<Attempt>, k: nat)
    requires forall i, j :: 0 <= i <= j < |bids| ==> bids[i].now <= bids[j].now
    requires k < |bids|
    requires StepAt(Run(r, bids[..k]), bids[k]).outcome == Closed
    ensures Run(r, bids) == Run(r, bids[..k])
    ensures forall i :: k <= i < |bids| ==> StepAt(Run(r, bids[..i]), bids[i]).outcome == Closed
  {
    ClosedFreezes(r, bids, k);
    forall i | k <= i < |bids|
      ensures StepAt(Run(r, bids[..i]), bids[i]).outcome == Closed
    {
    }
  }

  /** A first bid of 100 by A one millisecond before closing is accepted and
      broadcast; B's bids of 50 and of 100 are refused privately; C's bid of
      9999 at the closing instant is refused as closed. */
  lemma SampleSession()
    ensures var t := DefaultDataFinal - 1;
      var bids := [Attempt(t, Lance(100, "A")), Attempt(t, Lance(50, "B")),
                   Attempt(t, Lance(100, "B")), Attempt(DefaultDataFinal, Lance(9999, "C"))];
      var after := DefaultRecord().(lanceAtual := 100, ultimoLicitante := Some("A"));
      && Run(DefaultRecord(), bids) == after
      && Transcript(DefaultRecord(), bids) ==
           [Message(All, NovoLance, State(after)),
            Message(Sender, LanceInvalido, Notice(MsgInvalido)),
            Message(Sender, LanceInvalido, Notice(MsgInvalido)),
            Message(Sender, LeilaoEncerrado, Notice(MsgEncerrado))]
  {
    var t := DefaultDataFinal - 1;
    var bids := [Attempt(t, Lance(100, "A")), Attempt(t, Lance(50, "B")),
                 Attempt(t, Lance(100, "B")), Attempt(DefaultDataFinal, Lance(9999, "C"))];
    var d := DefaultRecord();
    var after := d.(lanceAtual := 100, ultimoLicitante := Some("A"));
    assert bids[..1][..0] == [] && bids[..2][..1] == bids[..1] && bids[..3][..2] == bids[..2];
    assert bids[..|bids| - 1] == bids[..3];
    assert Run(d, bids[..1]) == after;
    assert Run(d, bids[..2]) == after;
    assert Run(d, bids[..3]) == after;
    var inv := Message(Sender, LanceInvalido, Notice(MsgInvalido));
    assert Transcript(d, bids[..1]) == [Message(All, NovoLance, State(after))];
    assert Transcript(d, bids[..2]) == [Message(All, NovoLance, State(after)), inv];
    assert Transcript(d, bids[..3]) == [Message(All, NovoLance, State(after)), inv, inv];
  }
}
