/** Building runs move by move. */
module MuxRuns {
  import opened Bytes
  import opened Protocol
  import W = MuxWriter
  import opened MuxSystem

  /** The world seen from the end that moves next. */
  function Pair(init: bool, e: Endpoint, q: Endpoint): World { if init then World(e, q) else World(q, e) }

  lemma Acts(moves: seq<Move>, init: bool, e: Endpoint, q: Endpoint, a: Action) returns (moves': seq<Move>)
    requires Run(moves) == Pair(init, e, q) && !a.ReadByte? && !a.Dispatch?
    ensures Run(moves') == Pair(init, LocalStep(e, a), q) && moves' == moves + [Move(init, a)]
  {
    hide Run, LocalStep;
    RunMore(moves, Move(init, a));
    moves' := moves + [Move(init, a)];
  }

  /** A read task that has `i` bytes of a frame takes `k` more off the wire, one by one. */
  lemma {:induction false} ReadsFrame(
    moves: seq<Move>, init: bool, e: Endpoint, q: Endpoint, f: Frame, i: nat, k: nat)
    requires Run(moves) == Pair(init, e, q) && Fits(f) && i + k <= |EncodeFrame(f)|
    requires e.rx.mode != Exited && e.rx.rbuf == EncodeFrame(f)[..i]
    requires k <= |q.tx.wire| && q.tx.wire[..k] == EncodeFrame(f)[i..i + k]
    ensures Run(moves + seq(k, i => Move(init, ReadByte))) ==
            Pair(init, e.(rx := e.rx.(rbuf := EncodeFrame(f)[..i + k])), q.(tx := q.tx.(wire := q.tx.wire[k..])))
    decreases k
  {
    hide EncodeFrame, DecodeFrame, Run;
    var b := EncodeFrame(f);
    var all := seq(k, i => Move(init, ReadByte));
    if k == 0 {
      assert moves + all == moves;
    } else {
      var n := k - 1;
      var before := seq(n, i => Move(init, ReadByte));
      assert q.tx.wire[..n] == q.tx.wire[..k][..n] == b[i..i + n];
      ReadsFrame(moves, init, e, q, f, i, n);
      assert moves + all == (moves + before) + [Move(init, ReadByte)];
      RunMore(moves + before, Move(init, ReadByte));
      FramePrefix(f, b[..i + n]);
      assert q.tx.wire[n] == q.tx.wire[..k][n] == b[i + n];
      assert b[..i + k] == b[..i + n] + [b[i + n]];
      assert q.tx.wire[n..][0] == q.tx.wire[n] && q.tx.wire[n..][1..] == q.tx.wire[k..];
    }
  }
}
