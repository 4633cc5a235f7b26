/** What the multiplexed connection guarantees in every interleaving of its steps. */
module MuxTheorems {
  import opened Bytes
  import opened Protocol
  import W = MuxWriter
  import opened MuxSystem
  import opened MuxInvariant
  import opened MuxSteps

  // ---------- the read task acting on a frame ----------

  lemma DeliverChans(rx: Receiver, id: Id, chunk: Chunk, x: Id)
    requires x in rx.chans && ChanOk(rx, x) && !Blocked(rx, W.Data(id, chunk))
    ensures x in Deliver(rx, id, chunk).chans && ChanOk(Deliver(rx, id, chunk), x)
    ensures Deliver(rx, id, chunk).chans[x].since == rx.chans[x].since
  {
    if x == id {
      var arr, c := Log(rx.arrived, id), rx.chans[id];
      var arr' := arr + [chunk];
      assert arr'[c.since..c.since + |c.pushed|] == arr[c.since..c.since + |c.pushed|];
      if c.since + |c.pushed| == |arr| { assert arr'[c.since..] == arr[c.since..] + [chunk]; }
    }
  }

  lemma DataKeeps(e: Endpoint, q: Endpoint, rest: seq<byte>)
    requires Inv(e, q) && e.rx.mode == Running && q.tx.flight != [] && q.tx.flight[0].Data?
    requires BytesOk(PopFlight(q).tx, rest) && !Blocked(e.rx, q.tx.flight[0])
    ensures Inv(Handle(Took(e, rest), q.tx.flight[0]), PopFlight(q))
  {
    hide DirOk, QueuesOk, RegOk, ChanOk, Blocked, Appended, BytesOk;
    var m := q.tx.flight[0];
    var e' := Handle(Took(e, rest), m);
    KeepsChans(e, q);
    forall id | id in e.rx.chans
      ensures ChanOk(e'.rx, id) && e'.rx.chans[id].since == e.rx.chans[id].since
    {
      DeliverChans(e.rx, m.id, m.chunk, id);
      var rx := Deliver(e.rx, m.id, m.chunk);
      ChanShrinks(rx, e'.rx, id);
    }
    PopKeeps(e, q, e');
  }

  lemma OpenKeeps(e: Endpoint, q: Endpoint, rest: seq<byte>)
    requires Inv(e, q) && e.rx.mode == Running && q.tx.flight != [] && q.tx.flight[0].Open?
    requires BytesOk(PopFlight(q).tx, rest)
    ensures Inv(Handle(Took(e, rest), q.tx.flight[0]), PopFlight(q))
  {
    hide DirOk, QueuesOk, RegOk, ChanOk, BytesOk;
    var m := q.tx.flight[0];
    var e' := e.(rx := e.rx.(rbuf := rest, held := false, seen := e.rx.seen + {m.id}));
    KeepsChans(e, q);
    OpenIsNews(e, q);
    forall id | id in e.rx.chans ensures ChanOk(e'.rx, id) { ChanShrinks(e.rx, e'.rx, id); }
    PopKeeps(e, q, e');
    AcceptKeeps(e', PopFlight(q), m.id, m.cls);
  }

  lemma CloseKeeps(e: Endpoint, q: Endpoint, rest: seq<byte>)
    requires Inv(e, q) && e.rx.mode == Running && q.tx.flight != [] && q.tx.flight[0].Close?
    requires BytesOk(PopFlight(q).tx, rest)
    ensures Inv(Handle(Took(e, rest), q.tx.flight[0]), PopFlight(q))
  {
    hide DirOk, QueuesOk, RegOk, ChanOk, BytesOk;
    var m := q.tx.flight[0];
    var e1 := Took(e, rest);
    var e' := e1.(rx := e1.rx.(table := e1.rx.table - {m.id}));
    KeepsChans(e, q);
    forall id | id in e.rx.chans ensures ChanOk(e1.rx, id) && ChanOk(e'.rx, id) {
      ChanShrinks(e.rx, e1.rx, id);
      ChanShrinks(e.rx, e'.rx, id);
    }
    PopKeeps(e, q, e1);
    ReceiverSide(e1, PopFlight(q), e');
  }

  lemma DetectKeeps(e: Endpoint, q: Endpoint, f: Frame, rest: seq<byte>)
    requires Inv(e, q) && e.rx.mode == Detecting && q.tx.flight != []
    requires f == W.ToFrame(q.tx.flight[0]) && W.FromFrame(f) == Some(q.tx.flight[0])
    requires BytesOk(PopFlight(q).tx, rest)
    ensures Inv(Detect(Took(e, rest), f), PopFlight(q))
  {
    hide DirOk, QueuesOk, RegOk, ChanOk, BytesOk, W.FromFrame;
    FirstIsOpen(e, q);
    OpenIsNews(e, q);
    KeepsChans(e, q);
    var e' := Detect(Took(e, rest), f);
    forall id | id in e.rx.chans ensures ChanOk(e'.rx, id) { ChanShrinks(e.rx, e'.rx, id); }
    PopKeeps(e, q, e');
  }

  lemma HoldKeeps(e: Endpoint, q: Endpoint)
    requires Inv(e, q)
    ensures Inv(Hold(e), q)
  {
    hide DirOk, QueuesOk, RegOk, ChanOk;
    KeepsChans(e, q);
    forall id | id in e.rx.chans ensures ChanOk(Hold(e).rx, id) { ChanShrinks(e.rx, Hold(e).rx, id); }
    ReceiverSide(e, q, Hold(e));
  }

  lemma ExitKeeps(e: Endpoint, q: Endpoint)
    requires Inv(e, q)
    ensures Inv(e.(rx := e.rx.(mode := Exited)), q)
  {
    hide DirOk, QueuesOk, RegOk, ChanOk;
    var e' := e.(rx := e.rx.(mode := Exited));
    KeepsChans(e, q);
    forall id | id in e.rx.chans ensures ChanOk(e'.rx, id) { ChanShrinks(e.rx, e'.rx, id); }
    ReceiverSide(e, q, e');
  }

  lemma DispatchKeeps(e: Endpoint, q: Endpoint)
    requires Inv(e, q)
    ensures var (e', q') := DispatchStep(e, q); Inv(e', q')
  {
    hide EndOk, Handle, Detect, DecodeFrame, W.ToFrame, W.FromFrame, Blocked, BytesOk, RegOk, StreamOk;
    var d := DecodeFrame(e.rx.rbuf);
    if e.rx.mode != Exited && d.Complete? {
      FrameInHand(q.tx, e.rx.rbuf);
      var m := q.tx.flight[0];
      if e.rx.mode == Detecting { DetectKeeps(e, q, d.value, d.rest); }
      else if !Blocked(e.rx, m) {
        match m
        case Open(_, _) => OpenKeeps(e, q, d.rest);
        case Data(_, _) => DataKeeps(e, q, d.rest);
        case Close(_) => CloseKeeps(e, q, d.rest);
      }
      else { HoldKeeps(e, q); }
    } else if d.Invalid? {
      ExitKeeps(e, q);
    }
  }

  // ---------- every step, every run ----------

  lemma StepKeeps(e: Endpoint, q: Endpoint, a: Action)
    requires Inv(e, q)
    requires Step(e, q, a).0.opens <= MAX_OPENS
    ensures Inv(Step(e, q, a).0, Step(e, q, a).1)
  {
    hide Inv, LocalStep, ReadStep, DispatchStep;
    match a
    case Reserve(c) => ReserveKeeps(e, q, c);
    case EnqueueOpen(id) => EnqueueOpenKeeps(e, q, id);
    case InsertOwn(id) => InsertOwnKeeps(e, q, id);
    case Send(id, chunk) => SendKeeps(e, q, id, chunk);
    case CloseEnqueue(id) => CloseEnqueueKeeps(e, q, id);
    case CloseRemove(id) => LocalReceiverKeeps(e, q, a);
    case WriteTask => TaskKeeps(e, q);
    case Flush(n) => FlushKeeps(e, q, n);
    case WriteFail => FailKeeps(e, q);
    case DropHandle => DropKeeps(e, q);
    case ReadByte => ReadKeeps(e, q);
    case Dispatch => DispatchKeeps(e, q);
    case ReadFail => LocalReceiverKeeps(e, q, a);
    case InsertFirst => InsertFirstKeeps(e, q);
    case Receive(id) => LocalReceiverKeeps(e, q, a);
    case DropReceiver(id) => LocalReceiverKeeps(e, q, a);
  }

  lemma OpensGrow(e: Endpoint, q: Endpoint, a: Action)
    ensures e.opens <= Step(e, q, a).0.opens && q.opens == Step(e, q, a).1.opens
  {
    hide DecodeFrame, W.TaskStep, W.FlushStep, W.FailStep, W.FromFrame;
  }

  lemma StartInv()
    ensures Inv(Start.initiator, Start.responder)
  {
    var e, q := Start.initiator, Start.responder;
    forall id: Id
      ensures RegOk(e, id) && RegOk(q, id) && StreamOk(e, q, id) && StreamOk(q, e, id)
    {
      assert Pipe(W.Fresh, id) == [];
    }
  }

  /** At most 2^31 opens have been made by either end. */
  predicate WithinIds(w: World) { w.initiator.opens <= MAX_OPENS && w.responder.opens <= MAX_OPENS }

  lemma InvSymmetric(x: Endpoint, y: Endpoint)
    requires Inv(x, y)
    ensures Inv(y, x)
  {
    hide EndOk, DirOk;
  }

  lemma {:induction false} RunInv(moves: seq<Move>)
    requires WithinIds(Run(moves))
    ensures Inv(Run(moves).initiator, Run(moves).responder)
    decreases |moves|
  {
    hide Inv, Step;
    if moves == [] {
      StartInv();
    } else {
      var m := moves[|moves| - 1];
      var w := Run(moves[..|moves| - 1]);
      if m.byInitiator {
        OpensGrow(w.initiator, w.responder, m.act);
        RunInv(moves[..|moves| - 1]);
        StepKeeps(w.initiator, w.responder, m.act);
      } else {
        OpensGrow(w.responder, w.initiator, m.act);
        RunInv(moves[..|moves| - 1]);
        InvSymmetric(w.initiator, w.responder);
        StepKeeps(w.responder, w.initiator, m.act);
        InvSymmetric(Step(w.responder, w.initiator, m.act).0, Step(w.responder, w.initiator, m.act).1);
      }
    }
  }

  // ---------- one FIFO per stream ----------

  function From(w: World, initiator: bool): Endpoint { if initiator then w.initiator else w.responder }

  /** In every interleaving the channel of a stream holds a contiguous run of the chunks sent on that
      stream by the other end, in order.  It starts at the very first chunk unless this end opened the
      stream itself, or the stream is the one whose open message was left to the spawned task; and while
      the entry stands and its receiver exists, whatever has been sent and not skipped at the start is
      in the channel or still under way, in order. */
  lemma StreamIsFifo(moves: seq<Move>, sender: bool, id: Id)
    requires WithinIds(Run(moves))
    ensures var x, y := From(Run(moves), sender), From(Run(moves), !sender);
            var sent := Log(x.sent, id);
            id in y.rx.chans ==>
              var c := y.rx.chans[id];
              var end := c.since + |c.pushed|;
              && c.popped <= |c.pushed| <= c.popped + 64
              && end <= |sent| && c.pushed == sent[c.since..end]
              && (c.since > 0 ==> Own(y, id) || y.rx.firstId == Some(id))
              && (id in y.rx.table && c.rxOpen ==> sent[end..] == Chunks(Pipe(x.tx, id)))
  {
    hide Step, Pipe, Chunks, Index, BytesOk, QueuesOk, OrderAt;
    RunInv(moves);
    var x, y := From(Run(moves), sender), From(Run(moves), !sender);
    assert StreamOk(x, y, id) && RegOk(y, id);
    var sent, arr := Log(x.sent, id), Log(y.rx.arrived, id);
    assert arr == sent[..|arr|] && sent[|arr|..] == Chunks(Pipe(x.tx, id));
    if id in y.rx.chans {
      var c := y.rx.chans[id];
      assert arr[c.since..c.since + |c.pushed|] == sent[c.since..c.since + |c.pushed|];
    }
  }

  /** What the application has read from a stream the peer opened later than the first one is exactly a
      prefix of what the peer sent on it. */
  lemma ReadsArePrefix(moves: seq<Move>, sender: bool, id: Id)
    requires WithinIds(Run(moves))
    requires var y := From(Run(moves), !sender);
             id in y.rx.chans && !Own(y, id) && y.rx.firstId != Some(id)
    ensures var x, y := From(Run(moves), sender), From(Run(moves), !sender);
            var c := y.rx.chans[id];
            c.popped <= |c.pushed| && c.pushed <= Log(x.sent, id) && c.pushed[..c.popped] <= Log(x.sent, id)
  {
    hide Run, Pipe, Chunks;
    StreamIsFifo(moves, sender, id);
  }

  /** Once nothing of a stream is under way, a standing channel holds everything sent since it was made. */
  lemma NothingLost(moves: seq<Move>, sender: bool, id: Id)
    requires WithinIds(Run(moves))
    requires var x, y := From(Run(moves), sender), From(Run(moves), !sender);
             id in y.rx.table && id in y.rx.chans && y.rx.chans[id].rxOpen && Pipe(x.tx, id) == []
    ensures var x, y := From(Run(moves), sender), From(Run(moves), !sender);
            var c := y.rx.chans[id];
            c.since <= |Log(x.sent, id)| && c.pushed == Log(x.sent, id)[c.since..]
  {
    hide Run, Pipe;
    StreamIsFifo(moves, sender, id);
  }

  /** The bytes in transit always spell whole frames of the messages under way, apart from one that a
      write error cut short, and every end's stream entries are its own or ones the peer opened. */
  lemma TransportIntact(moves: seq<Move>, sender: bool)
    requires WithinIds(Run(moves))
    ensures var x, y := From(Run(moves), sender), From(Run(moves), !sender);
            && y.rx.rbuf + x.tx.wire + x.tx.out <= Encoded(x.tx.flight)
            && (!x.tx.phase.Stopped? ==> y.rx.rbuf + x.tx.wire + x.tx.out == Encoded(x.tx.flight))
            && forall id :: id in y.rx.table ==> Own(y, id) || id in y.rx.seen
  {
    hide Step, Encoded, StreamOk, ChanOk;
    RunInv(moves);
    var x, y := From(Run(moves), sender), From(Run(moves), !sender);
    forall id | id in y.rx.table ensures Own(y, id) || id in y.rx.seen { assert RegOk(y, id); }
  }
}
