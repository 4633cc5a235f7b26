/** A connection never gets stuck: whatever has been sent can still be delivered. */
module MuxProgress {
  import opened Bytes
  import opened Protocol
  import W = MuxWriter
  import opened MuxSystem
  import opened MuxInvariant
  import opened MuxSteps
  import opened MuxTheorems
  import opened MuxRuns

  predicate UnderWay(x: Endpoint, m: Msg) { m in x.tx.flight || m in x.tx.ctrlQ || m in x.tx.bulkQ }

  /** The write task of `x` and the read task of `y` are there, `x` is in use, and its items fit into frames. */
  ghost predicate Healthy(x: Endpoint, y: Endpoint) {
    && !x.tx.phase.Stopped? && !x.tx.dropped && y.rx.mode != Exited
    && forall m :: UnderWay(x, m) ==> Fits(W.ToFrame(m))
  }

  /** Steps that the tasks make by themselves, and the application taking chunks. */
  predicate ByItself(m: Move) {
    m.act.WriteTask? || m.act.Flush? || m.act.ReadByte? || m.act.Dispatch? || m.act.Receive?
  }

  predicate Quiet(moves: seq<Move>) { forall m :: m in moves ==> ByItself(m) }

  /** Between two states of a connection nothing was opened, sent or given up. */
  predicate Same(w: World, w': World, end: bool) {
    && From(w', end).sent == From(w, end).sent
    && From(w', true).opens == From(w, true).opens && From(w', false).opens == From(w, false).opens
  }

  function Waiting(x: Endpoint): nat { |x.tx.ctrlQ| + |x.tx.bulkQ| }

  // ---------- the write task takes an item ----------

  lemma {:induction false} PollMoves(moves: seq<Move>, end: bool, x: Endpoint, y: Endpoint, k: nat)
    returns (more: seq<Move>)
    requires Run(moves) == Pair(end, x, y)
    ensures Quiet(more) && Run(moves + more) == Pair(end, x.(tx := W.Polls(x.tx, k)), y)
    decreases k
  {
    hide Run, W.TaskStep;
    if k == 0 {
      more := [];
      assert moves + more == moves;
    } else {
      var x1 := LocalStep(x, WriteTask);
      var moves' := Acts(moves, end, x, y, WriteTask);
      more := PollMoves(moves', end, x1, y, k - 1);
      assert moves' + more == moves + ([Move(end, WriteTask)] + more);
      more := [Move(end, WriteTask)] + more;
    }
  }

  lemma TakesOne(moves: seq<Move>, end: bool) returns (more: seq<Move>)
    requires WithinIds(Run(moves)) && Healthy(From(Run(moves), end), From(Run(moves), !end))
    requires From(Run(moves), end).tx.flight == [] && Waiting(From(Run(moves), end)) > 0
    ensures Quiet(more) && Same(Run(moves), Run(moves + more), end)
    ensures var x, y := From(Run(moves + more), end), From(Run(moves + more), !end);
            Healthy(x, y) && |x.tx.flight| == 1 && Waiting(x) == Waiting(From(Run(moves), end)) - 1
  {
    hide Run, W.Polls, W.ToFrame, EndOk, StreamOk, Encoded;
    var x, y := From(Run(moves), end), From(Run(moves), !end);
    RunInv(moves);
    InvSymmetric(Run(moves).initiator, Run(moves).responder);
    EncodedNone();
    var k := W.TaskTakes(x.tx);
    more := PollMoves(moves, end, x, y, k);
  }

  // ---------- the oldest message is handled ----------

  lemma Flushes(moves: seq<Move>, end: bool) returns (more: seq<Move>)
    ensures Quiet(more)
    ensures var x, y := From(Run(moves), end), From(Run(moves), !end);
            Run(moves + more) == Pair(end, x.(tx := x.tx.(wire := x.tx.wire + x.tx.out, out := [])), y)
  {
    hide Run;
    var x, y := From(Run(moves), end), From(Run(moves), !end);
    var n := |x.tx.out|;
    var moves' := Acts(moves, end, x, y, Flush(n));
    assert x.tx.out[..n] == x.tx.out && x.tx.out[n..] == [];
    more := [Move(end, Flush(n))];
  }

  /** With everything on the wire, the reader gets hold of the whole of the oldest frame. */
  lemma Pulls(moves: seq<Move>, end: bool, x: Endpoint, y: Endpoint)
    returns (more: seq<Move>, y': Endpoint, x': Endpoint)
    requires Run(moves) == Pair(end, x, y) && Inv(y, x) && Healthy(x, y) && x.tx.out == [] && x.tx.flight != []
    ensures Quiet(more) && Run(moves + more) == Pair(end, x', y')
    ensures x' == x.(tx := x.tx.(wire := x'.tx.wire)) && y' == y.(rx := y.rx.(rbuf := y'.rx.rbuf))
    ensures var d := DecodeFrame(y'.rx.rbuf);
            d.Complete? && d.value == W.ToFrame(x.tx.flight[0]) && W.FromFrame(d.value) == Some(x.tx.flight[0])
  {
    hide Run, EncodeFrame, DecodeFrame, W.ToFrame, W.FromFrame, EndOk, StreamOk, Encoded;
    var m := x.tx.flight[0];
    assert UnderWay(x, m);
    var f, b := W.ToFrame(m), EncodeFrame(W.ToFrame(m));
    W.MsgRoundTrip(m);
    EncodedHead(x.tx.flight);
    var all, i := y.rx.rbuf + x.tx.wire, |y.rx.rbuf|;
    assert all + [] == all && all == b + Encoded(x.tx.flight[1..]);
    assert all[..i] == y.rx.rbuf && all[i..] == x.tx.wire;
    if i >= |b| {
      more, x', y' := [], x, y;
      assert moves + [] == moves;
      assert y.rx.rbuf == all[..i] && all[..|b|] == b;
      assert y.rx.rbuf == b + y.rx.rbuf[|b|..] by { assert y.rx.rbuf[..|b|] == all[..|b|]; }
      FrameRoundTrip(f, y.rx.rbuf[|b|..]);
    } else {
      var k := |b| - i;
      assert y.rx.rbuf == all[..|b|][..i] == b[..i];
      assert x.tx.wire[..k] == all[i..|b|] == all[..|b|][i..] == b[i..i + k];
      ReadsFrame(moves, !end, y, x, f, i, k);
      more := seq(k, i => Move(!end, ReadByte));
      y', x' := y.(rx := y.rx.(rbuf := b[..i + k])), x.(tx := x.tx.(wire := x.tx.wire[k..]));
      assert b[..i + k] == b && b + [] == b;
      FrameRoundTrip(f, []);
    }
  }

  /** The application makes room if the chunk in hand needs it. */
  lemma MakesRoom(moves: seq<Move>, end: bool, x: Endpoint, y: Endpoint, m: Msg) returns (more: seq<Move>, y': Endpoint)
    requires Run(moves) == Pair(end, x, y) && Inv(y, x)
    ensures Quiet(more) && Run(moves + more) == Pair(end, x, y')
    ensures y' == y.(rx := y.rx.(chans := y'.rx.chans)) && !Blocked(y'.rx, m)
  {
    hide Run, EndOk, DirOk;
    if Blocked(y.rx, m) {
      KeepsChans(y, x);
      assert ChanOk(y.rx, m.id);
      y' := LocalStep(y, Receive(m.id));
      var moves' := Acts(moves, !end, y, x, Receive(m.id));
      more := [Move(!end, Receive(m.id))];
    } else {
      more, y' := [], y;
      assert moves + [] == moves;
    }
  }

  lemma Handles(moves: seq<Move>, end: bool, x: Endpoint, y: Endpoint) returns (more: seq<Move>)
    requires Run(moves) == Pair(end, x, y) && x.tx.flight != [] && y.rx.mode != Exited
    requires var d := DecodeFrame(y.rx.rbuf);
             && d.Complete? && d.value == W.ToFrame(x.tx.flight[0]) && W.FromFrame(d.value) == Some(x.tx.flight[0])
    requires !Blocked(y.rx, x.tx.flight[0]) && (y.rx.mode == Detecting ==> x.tx.flight[0].Open?)
    ensures Quiet(more)
    ensures var x', y' := From(Run(moves + more), end), From(Run(moves + more), !end);
            && x' == x.(tx := x.tx.(flight := x.tx.flight[1..])) && y'.opens == y.opens && y'.rx.mode == Running
  {
    hide Run, DecodeFrame, W.FromFrame, Blocked;
    more := [Move(!end, Dispatch)];
    RunMore(moves, Move(!end, Dispatch));
  }

  lemma RunLonger(moves: seq<Move>, a: seq<Move>, b: seq<Move>)
    ensures moves + a + b == moves + (a + b)
  {
  }

  lemma HandlesOldest(moves: seq<Move>, end: bool) returns (more: seq<Move>)
    requires WithinIds(Run(moves)) && Healthy(From(Run(moves), end), From(Run(moves), !end))
    requires From(Run(moves), end).tx.flight != []
    ensures Quiet(more) && Same(Run(moves), Run(moves + more), end)
    ensures var x, x', y' := From(Run(moves), end), From(Run(moves + more), end), From(Run(moves + more), !end);
            && Healthy(x', y') && |x'.tx.flight| == |x.tx.flight| - 1 && Waiting(x') == Waiting(x)
  {
    hide Run, DecodeFrame, W.FromFrame, W.ToFrame, Inv, Blocked;
    var x0, y0 := From(Run(moves), end), From(Run(moves), !end);
    var a := Flushes(moves, end);
    var x1 := x0.(tx := x0.tx.(wire := x0.tx.wire + x0.tx.out, out := []));
    InvFor(moves + a, end);
    var b, y2, x2 := Pulls(moves + a, end, x1, y0);
    InvFor(moves + a + b, end);
    var c, y3 := MakesRoom(moves + a + b, end, x2, y2, x2.tx.flight[0]);
    InvFor(moves + a + b + c, end);
    if y3.rx.mode == Detecting { FirstIsOpen(y3, x2); }
    var d := Handles(moves + a + b + c, end, x2, y3);
    more := a + b + c + d;
    assert moves + a + b + c + d == moves + more;
  }

  lemma InvFor(moves: seq<Move>, end: bool)
    requires WithinIds(Run(moves))
    ensures Inv(From(Run(moves), end), From(Run(moves), !end)) && Inv(From(Run(moves), !end), From(Run(moves), end))
  {
    hide Run, Inv;
    RunInv(moves);
    InvSymmetric(Run(moves).initiator, Run(moves).responder);
  }

  // ---------- everything arrives ----------

  lemma NothingUnderWay(moves: seq<Move>, end: bool, id: Id)
    requires WithinIds(Run(moves))
    requires var x := From(Run(moves), end); x.tx.flight == [] && Waiting(x) == 0
    ensures Pipe(From(Run(moves), end).tx, id) == []
    ensures Log(From(Run(moves), !end).rx.arrived, id) == Log(From(Run(moves), end).sent, id)
  {
    hide Run, EndOk, BytesOk, OrderAt;
    InvFor(moves, end);
    assert StreamOk(From(Run(moves), end), From(Run(moves), !end), id);
  }

  /** From every reachable state in which the write task of one end and the read task of the other are there,
      the tasks of both ends, with the application taking chunks where a channel is full, can get every
      message that end has queued across: then nothing is under way, and the read task of the other end has
      handled every chunk ever sent, in order. */
  lemma {:induction false} EverythingArrives(moves: seq<Move>, end: bool) returns (more: seq<Move>)
    requires WithinIds(Run(moves)) && Healthy(From(Run(moves), end), From(Run(moves), !end))
    ensures Quiet(more) && Same(Run(moves), Run(moves + more), end)
    ensures forall id :: Pipe(From(Run(moves + more), end).tx, id) == []
    ensures forall id :: Log(From(Run(moves + more), !end).rx.arrived, id) == Log(From(Run(moves), end).sent, id)
    decreases Waiting(From(Run(moves), end)) + |From(Run(moves), end).tx.flight|, Waiting(From(Run(moves), end))
  {
    hide Run, Healthy, Pipe;
    var x := From(Run(moves), end);
    if x.tx.flight == [] && Waiting(x) == 0 {
      more := [];
      assert moves + more == moves;
      forall id ensures Pipe(x.tx, id) == [] && Log(From(Run(moves), !end).rx.arrived, id) == Log(x.sent, id) {
        NothingUnderWay(moves, end, id);
      }
    } else {
      var a;
      if x.tx.flight == [] { a := TakesOne(moves, end); } else { a := HandlesOldest(moves, end); }
      var b := EverythingArrives(moves + a, end);
      RunLonger(moves, a, b);
      more := a + b;
    }
  }
}
