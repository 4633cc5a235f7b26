/** What can go wrong does: runs in which the first chunk of a stream is lost, and one in which an undrained
    stream stops the connection. */
module MuxWitness {
  import opened Bytes
  import opened Protocol
  import W = MuxWriter
  import opened MuxSystem
  import opened MuxInvariant
  import opened MuxRuns
  import opened MuxDelivery

  /** One whole frame read and acted upon. */
  lemma ReadsAndActs(moves: seq<Move>, init: bool, e: Endpoint, q: Endpoint, m: Msg) returns (moves': seq<Move>)
    requires Run(moves) == Pair(init, e, q) && Fits(W.ToFrame(m))
    requires e.rx.mode != Exited && e.rx.rbuf == [] && !e.rx.held
    requires q.tx.wire == EncodeFrame(W.ToFrame(m)) && q.tx.flight != []
    requires e.rx.mode == Running ==> !Blocked(e.rx, m)
    ensures Run(moves') == Pair(init, if e.rx.mode == Detecting then Detect(e, W.ToFrame(m)) else Handle(e, m),
                                q.(tx := q.tx.(wire := [], flight := q.tx.flight[1..])))
  {
    hide EncodeFrame, DecodeFrame, W.ToFrame, W.FromFrame, Handle, Detect, Run;
    var f := W.ToFrame(m);
    var b := EncodeFrame(f);
    var pulls := seq(|b|, i => Move(init, ReadByte));
    assert b[..0] == [] && b[0..] == b;
    ReadsFrame(moves, init, e, q, f, 0, |b|);
    assert b[..|b|] == b && b[|b|..] == [];
    FrameRoundTrip(f, []);
    assert b + [] == b;
    W.MsgRoundTrip(m);
    var e1 := e.(rx := e.rx.(rbuf := b));
    assert Took(e1, []) == e;
    RunMore(moves + pulls, Move(init, Dispatch));
    moves' := moves + pulls + [Move(init, Dispatch)];
  }

  /** The only item of the priority queue goes onto the wire. */
  lemma Writes(moves: seq<Move>, init: bool, e: Endpoint, q: Endpoint, m: Msg) returns (moves': seq<Move>, e': Endpoint)
    requires Run(moves) == Pair(init, e, q)
    requires e.tx.ctrlQ == [m] && e.tx.out == [] && e.tx.phase == W.Drain
    ensures Run(moves') == Pair(init, e', q) && e' == e.(tx := e'.tx)
    ensures e'.tx.ctrlQ == [] && e'.tx.out == [] && e'.tx.phase == W.Drain
    ensures e'.tx.bulkQ == e.tx.bulkQ && e'.tx.dropped == e.tx.dropped
    ensures e'.tx.flight == e.tx.flight + [m] && e'.tx.wire == e.tx.wire + EncodeFrame(W.ToFrame(m))
  {
    hide EncodeFrame, W.ToFrame, Run;
    var e1 := LocalStep(e, WriteTask);
    moves' := Acts(moves, init, e, q, WriteTask);
    var n := |e1.tx.out|;
    e' := LocalStep(e1, Flush(n));
    moves' := Acts(moves', init, e1, q, Flush(n));
  }

  const Opened: W.Msg := W.Open(1, W.Control)

  /** The initiator reserves the first id and its open message goes onto the wire. */
  lemma OpenWritten() returns (moves: seq<Move>, e: Endpoint)
    ensures Run(moves) == World(e, Start.responder)
    ensures e.tx.ctrlQ == [] && e.tx.bulkQ == [] && e.tx.out == [] && e.tx.phase == W.Drain && !e.tx.dropped
    ensures e.tx.flight == [Opened] && e.tx.wire == EncodeFrame(W.ToFrame(Opened))
    ensures e.rx == Start.initiator.rx && e.sent == map[] && e.regs == map[1 := Reg(W.Control, Enqueued)]
  {
    var e0, q := Start.initiator, Start.responder;
    var e1 := LocalStep(e0, Reserve(W.Control));
    assert e1.regs == map[1 := Reg(W.Control, Reserved)];
    var e2 := LocalStep(e1, EnqueueOpen(1));
    assert Run([]) == Start;
    moves := Acts([], true, e0, q, Reserve(W.Control));
    moves := Acts(moves, true, e1, q, EnqueueOpen(1));
    hide EncodeFrame, W.ToFrame, LocalStep, Run;
    moves, e := Writes(moves, true, e2, q, Opened);
  }

  /** An end that may use stream 1 sends a chunk on it, and the chunk goes onto the wire. */
  lemma ChunkWritten(moves: seq<Move>, init: bool, e: Endpoint, q: Endpoint, c: Chunk)
    returns (moves': seq<Move>, e': Endpoint)
    requires Run(moves) == Pair(init, e, q) && |c| + 4 <= MAX_PAYLOAD
    requires Live(e) && At(e, 1, Ready) && e.regs[1].cls == W.Control
    requires e.tx.ctrlQ == [] && e.tx.out == [] && e.tx.phase == W.Drain
    ensures Run(moves') == Pair(init, e', q) && e' == e.(tx := e'.tx, sent := Appended(e.sent, 1, c))
    ensures e'.tx.ctrlQ == [] && e'.tx.out == [] && e'.tx.phase == W.Drain
    ensures e'.tx.bulkQ == e.tx.bulkQ && e'.tx.dropped == e.tx.dropped
    ensures e'.tx.flight == e.tx.flight + [W.Data(1, c)]
    ensures e'.tx.wire == e.tx.wire + EncodeFrame(W.ToFrame(W.Data(1, c)))
  {
    hide EncodeFrame, W.ToFrame, Run;
    var e1 := LocalStep(e, Send(1, c));
    moves' := Acts(moves, init, e, q, Send(1, c));
    hide LocalStep;
    moves', e' := Writes(moves', init, e1, q, W.Data(1, c));
  }

  lemma SmallFrames(c: Chunk)
    requires |c| + 4 <= MAX_PAYLOAD
    ensures Fits(W.ToFrame(Opened)) && Fits(W.ToFrame(W.Data(1, c))) && W.ToFrame(Opened).kind == StreamOpen
  {
  }

  /** The responder detects the mode and leaves the open message to a spawned task. */
  lemma Detects(q: Endpoint)
    requires q == Start.responder
    ensures Detect(q, W.ToFrame(Opened)) ==
            q.(rx := q.rx.(mode := Running, first := Some(Opened), seen := {1}, firstId := Some(1)))
  {
    hide W.FromFrame;
    W.MsgRoundTrip(Opened);
  }

  lemma Inserts(e: Endpoint, a: Action)
    requires !e.rx.held
    requires (a == InsertFirst && e.rx.first == Some(Opened))
             || (a == InsertOwn(1) && 1 in e.regs && e.regs[1] == Reg(W.Control, Enqueued))
    ensures var e' := LocalStep(e, a);
            && e'.rx.chans == e.rx.chans[1 := Chan(|Log(e.rx.arrived, 1)|, [], 0, true)]
            && 1 in e'.rx.table && At(e', 1, Ready) && e'.regs[1].cls == W.Control
            && e'.rx == e.rx.(table := e'.rx.table, chans := e'.rx.chans, first := e'.rx.first)
            && e' == e.(rx := e'.rx, regs := e'.regs)
  {
  }

  /** The opener has made its entry, and the open message is with the spawned task at the other end. */
  lemma OpenDetected() returns (moves: seq<Move>, e: Endpoint, q: Endpoint)
    ensures Run(moves) == World(e, q) && Live(e) && At(e, 1, Ready) && e.regs[1].cls == W.Control && !e.rx.held
    ensures e.tx.ctrlQ == [] && e.tx.bulkQ == [] && e.tx.out == [] && e.tx.phase == W.Drain
    ensures e.tx.wire == [] && e.tx.flight == [] && e.sent == map[]
    ensures q.rx == Start.responder.rx.(mode := Running, first := Some(Opened), seen := {1}, firstId := Some(1))
  {
    hide EncodeFrame, W.ToFrame, LocalStep, Run, Detect, Detected, Blocked, Handle, Log;
    SmallFrames([]);
    q := Start.responder;
    moves, e := OpenWritten();
    moves := ReadsAndActs(moves, false, q, e, Opened);
    q, e := Detect(q, W.ToFrame(Opened)), e.(tx := e.tx.(wire := [], flight := []));
    Detects(Start.responder);
    moves := Acts(moves, true, e, q, InsertOwn(1));
    Inserts(e, InsertOwn(1));
    e := LocalStep(e, InsertOwn(1));
  }

  /** The first stream's open message is left to a spawned task; a chunk that the read task gets to
      first is dropped, and the channel made afterwards starts behind it. */
  lemma FirstChunkCanBeLost(c: Chunk) returns (moves: seq<Move>)
    requires |c| + 4 <= MAX_PAYLOAD
    ensures var w := Run(moves);
            && Log(w.initiator.sent, 1) == [c]
            && 1 in w.responder.rx.chans && w.responder.rx.chans[1] == Chan(1, [], 0, true)
            && 1 in w.responder.rx.table && Pipe(w.initiator.tx, 1) == []
  {
    hide EncodeFrame, W.ToFrame, LocalStep, Run, Detect, Detected;
    SmallFrames(c);
    var e, q;
    moves, e, q := OpenDetected();
    moves, e := ChunkWritten(moves, true, e, q, c);
    moves := ReadsAndActs(moves, false, q, e, W.Data(1, c));
    q, e := Handle(q, W.Data(1, c)), e.(tx := e.tx.(wire := [], flight := []));
    moves := Acts(moves, false, q, e, InsertFirst);
    Inserts(q, InsertFirst);
  }

  /** A reply that the opener's read task gets to before `open_stream` has made its entry is dropped too. */
  lemma EarlyReplyCanBeLost(c: Chunk) returns (moves: seq<Move>)
    requires |c| + 4 <= MAX_PAYLOAD
    ensures var w := Run(moves);
            && Log(w.responder.sent, 1) == [c]
            && 1 in w.initiator.rx.chans && w.initiator.rx.chans[1] == Chan(1, [], 0, true)
            && 1 in w.initiator.rx.table && Pipe(w.responder.tx, 1) == []
  {
    hide EncodeFrame, W.ToFrame, LocalStep, Run, Detect, Detected;
    SmallFrames(c);
    var e, q := Start.initiator, Start.responder;
    moves, e := OpenWritten();
    moves := ReadsAndActs(moves, false, q, e, Opened);
    q, e := Detect(q, W.ToFrame(Opened)), e.(tx := e.tx.(wire := [], flight := []));
    Detects(Start.responder);
    moves := Acts(moves, false, q, e, InsertFirst);
    Inserts(q, InsertFirst);
    q := LocalStep(q, InsertFirst);
    moves, q := ChunkWritten(moves, false, q, e, c);
    moves := ReadsAndActs(moves, true, e, q, W.Data(1, c));
    e, q := Handle(e, W.Data(1, c)), q.(tx := q.tx.(wire := [], flight := []));
    moves := Acts(moves, true, e, q, InsertOwn(1));
    Inserts(e, InsertOwn(1));
  }

  // ---------- the stall ----------

  /** Stream 1 is up from `e` to `q`, nothing is under way, and its channel holds `n` chunks nobody has taken. */
  predicate Holding(e: Endpoint, q: Endpoint, n: nat) {
    && Live(e) && At(e, 1, Ready) && e.regs[1].cls == W.Control
    && e.tx.ctrlQ == [] && e.tx.out == [] && e.tx.phase == W.Drain && e.tx.wire == [] && e.tx.flight == []
    && q.rx.mode == Running && q.rx.rbuf == [] && !q.rx.held
    && 1 in q.rx.table && 1 in q.rx.chans
    && q.rx.chans[1].rxOpen && q.rx.chans[1].popped == 0 && |q.rx.chans[1].pushed| == n
  }

  lemma Established() returns (moves: seq<Move>, e: Endpoint, q: Endpoint)
    ensures Run(moves) == World(e, q) && Holding(e, q, 0)
  {
    hide EncodeFrame, W.ToFrame, LocalStep, Run, Detect, Detected, Blocked, Handle, Log;
    moves, e, q := OpenDetected();
    moves := Acts(moves, false, q, e, InsertFirst);
    Inserts(q, InsertFirst);
    q := LocalStep(q, InsertFirst);
  }

  lemma OneMoreHeld(q: Endpoint, e: Endpoint, c: Chunk, n: nat)
    requires Holding(e, q, n) && n < CHANNEL_CAPACITY
    ensures !Blocked(q.rx, W.Data(1, c)) && Holding(e, Handle(q, W.Data(1, c)), n + 1)
  {
  }

  /** Chunk after chunk is sent and delivered until there is no more room. */
  lemma {:induction false} Fills(c: Chunk, n: nat) returns (moves: seq<Move>, e: Endpoint, q: Endpoint)
    requires |c| + 4 <= MAX_PAYLOAD && n <= CHANNEL_CAPACITY
    ensures Run(moves) == World(e, q) && Holding(e, q, n)
    decreases n
  {
    hide EncodeFrame, W.ToFrame, Run, Handle, Blocked;
    if n == 0 { moves, e, q := Established(); }
    else {
      moves, e, q := Fills(c, n - 1);
      SmallFrames(c);
      OneMoreHeld(q, e, c, n - 1);
      moves, e := ChunkWritten(moves, true, e, q, c);
      moves := ReadsAndActs(moves, false, q, e, W.Data(1, c));
      q, e := Handle(q, W.Data(1, c)), e.(tx := e.tx.(wire := [], flight := []));
    }
  }

  lemma FullWaits(e: Endpoint, q: Endpoint, c: Chunk)
    requires Holding(e, q, CHANNEL_CAPACITY) && Fits(W.ToFrame(W.Data(1, c)))
    ensures WaitsOn(DispatchStep(q.(rx := q.rx.(rbuf := EncodeFrame(W.ToFrame(W.Data(1, c))))), e).0, 1)
  {
    hide EncodeFrame, DecodeFrame, W.ToFrame, W.FromFrame;
    var f := W.ToFrame(W.Data(1, c));
    FrameRoundTrip(f, []);
    assert EncodeFrame(f) + [] == EncodeFrame(f);
    W.MsgRoundTrip(W.Data(1, c));
  }

  /** With the 65th chunk that nobody takes the read task waits and holds the table. */
  lemma UndrainedStreamStalls(c: Chunk) returns (moves: seq<Move>)
    requires |c| + 4 <= MAX_PAYLOAD
    ensures WaitsOn(Run(moves).responder, 1)
  {
    hide EncodeFrame, W.ToFrame, Run, DispatchStep, WaitsOn, Blocked;
    var e, q;
    moves, e, q := Fills(c, CHANNEL_CAPACITY);
    SmallFrames(c);
    var e0 := e;
    moves, e := ChunkWritten(moves, true, e, q, c);
    var f := W.ToFrame(W.Data(1, c));
    var b := EncodeFrame(f);
    assert b[..0] == [] && b[0..] == b;
    ReadsFrame(moves, false, q, e, f, 0, |b|);
    assert b[..|b|] == b;
    var pulls := seq(|b|, i => Move(false, ReadByte));
    RunMore(moves + pulls, Move(false, Dispatch));
    moves := moves + pulls + [Move(false, Dispatch)];
    FullWaits(e0, q, c);
    SameReader(q.(rx := q.rx.(rbuf := b)), e0, e.(tx := e.tx.(wire := e.tx.wire[|b|..])));
  }

  lemma SameReader(q: Endpoint, e: Endpoint, e': Endpoint)
    ensures DispatchStep(q, e).0 == DispatchStep(q, e').0
  {
    hide DecodeFrame, Acted, Consumes;
  }

  // ---------- the lost close ----------

  /** A close that the read task gets to before the spawned task has made the entry is lost: the entry made
      afterwards stands, though the opener has closed the stream and nothing more is under way. */
  lemma EarlyCloseCanBeLost() returns (moves: seq<Move>)
    ensures var w := Run(moves);
            && 1 in w.responder.rx.table && 1 in w.responder.rx.chans && w.responder.rx.chans[1].rxOpen
            && 1 !in w.initiator.rx.table && Pipe(w.initiator.tx, 1) == []
  {
    hide EncodeFrame, W.ToFrame, LocalStep, Run, Detect, Detected;
    var e, q;
    moves, e, q := OpenDetected();
    moves, e := CloseWritten(moves, e, q);
    moves := ReadsAndActs(moves, false, q, e, W.Close(1));
    q, e := Handle(q, W.Close(1)), e.(tx := e.tx.(wire := [], flight := []));
    moves := Acts(moves, false, q, e, InsertFirst);
    Inserts(q, InsertFirst);
  }

  lemma CloseWritten(moves: seq<Move>, e: Endpoint, q: Endpoint) returns (moves': seq<Move>, e': Endpoint)
    requires Run(moves) == World(e, q) && Live(e) && At(e, 1, Ready) && e.regs[1].cls == W.Control && !e.rx.held
    requires e.tx.ctrlQ == [] && e.tx.out == [] && e.tx.phase == W.Drain
    ensures Run(moves') == World(e', q) && 1 !in e'.rx.table && e'.tx.ctrlQ == [] && e'.tx.bulkQ == e.tx.bulkQ
    ensures e'.tx.flight == e.tx.flight + [W.Close(1)] && e'.tx.wire == e.tx.wire + EncodeFrame(W.ToFrame(W.Close(1)))
    ensures Fits(W.ToFrame(W.Close(1)))
  {
    hide EncodeFrame, Run;
    var e1 := LocalStep(e, CloseEnqueue(1));
    moves' := Acts(moves, true, e, q, CloseEnqueue(1));
    var e2 := LocalStep(e1, CloseRemove(1));
    moves' := Acts(moves', true, e1, q, CloseRemove(1));
    hide LocalStep, W.ToFrame;
    moves', e' := Writes(moves', true, e2, q, W.Close(1));
  }
}
