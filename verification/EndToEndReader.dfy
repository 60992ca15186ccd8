/** What a connection of the sender's delivers to the receiving side, if its bytes come through the
    reader: what EndToEnd.Genuine asks of blocks and of the end of a body. */
module EndToEndReader {
  import opened Transfers
  import opened EndToEnd
  import R = Receive
  import H = HttpReader
  import D = HttpDelivery
  import Bytes

  /** The reader of `c` got these fragments of the request that `c` carries, and the service has counted
      what the reader has handed on. */
  ghost predicate Reads(g: Setting, w: World, c: ConnId, o: H.Owner, m: D.Message, pieces: seq<seq<Byte>>) {
    && Carries(w, c) && c in w.receiver.conns
    && D.WellFormed(m) && m.body == Body(g, w, c) && H.Flatten(pieces) <= D.Stream(m)
    && var r := H.FeedAll(o, H.FRESH, pieces);
       r.mode.Body? && w.receiver.conns[c].received == |r.mode.body|
  }

  /** What one more read hands on is a block as the end-to-end theorems want it, however little of it
      reaches the file. */
  lemma BlocksAreGenuine(g: Setting, w: World, c: ConnId, o: H.Owner, m: D.Message, pieces: seq<seq<Byte>>, piece: seq<Byte>, taken: nat)
    requires Reads(g, w, c, o, m, pieces) && H.Flatten(pieces) + piece <= D.Stream(m)
    requires H.FeedAll(o, H.FRESH, pieces + [piece]).mode.Body?
    ensures var before, after := H.FeedAll(o, H.FRESH, pieces).mode.body, H.FeedAll(o, H.FRESH, pieces + [piece]).mode.body;
            before <= after && Genuine(g, w, R.Block(c, after[|before|..], taken))
  {
    D.NextBlock(o, m, pieces, piece);
  }

  /** And when it hands the request over, the body it hands over is the whole of what the connection
      carries: what is left of it is a block like the others, and counting that is the end of it. */
  lemma EndsAreGenuine(g: Setting, w: World, c: ConnId, o: H.Owner, m: D.Message, pieces: seq<seq<Byte>>, piece: seq<Byte>, k: nat,
                       taken: nat, renames: bool)
    requires Reads(g, w, c, o, m, pieces) && H.Flatten(pieces) + piece <= D.Stream(m)
    requires var log := H.FeedAll(o, H.FRESH, pieces + [piece]).log; k < |log| && log[k].RequestReady?
    ensures var before, whole := H.FeedAll(o, H.FRESH, pieces).mode.body, H.FeedAll(o, H.FRESH, pieces + [piece]).log[k].body;
            && before <= whole && Genuine(g, w, R.Block(c, whole[|before|..], taken))
            && (|before| == |whole| ==> Genuine(g, w, R.BodyEnd(c, renames)))
  {
    D.NextBlock(o, m, pieces, piece);
    D.BetweenPrefixes(H.FeedAll(o, H.FRESH, pieces).mode.body, m.body, m.body);
  }
}
