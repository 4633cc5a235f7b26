/** The steps of the multiplexed connection preserve its invariant, one kind of step at a time. */
module MuxSteps {
  import opened Bytes
  import opened Protocol
  import W = MuxWriter
  import opened MuxSystem
  import opened MuxInvariant

  /** Steps of the write task and the transport. */
  lemma SenderStep(e: Endpoint, q: Endpoint, t: Sender)
    requires Inv(e, q)
    requires QueuesOk(e.(tx := t)) && BytesOk(t, q.rx.rbuf)
    requires forall id :: Pipe(t, id) == Pipe(e.tx, id)
    ensures Inv(e.(tx := t), q)
  {
    hide Pipe, Chunks, BytesOk, ChanOk, NoOpen;
    var e' := e.(tx := t);
    forall id: Id ensures RegOk(e', id) && StreamOk(e', q, id) && StreamOk(q, e', id) {
      assert RegOk(e, id) && StreamOk(e, q, id) && StreamOk(q, e, id);
    }
  }

  lemma TaskKeeps(e: Endpoint, q: Endpoint)
    requires Inv(e, q)
    ensures Inv(LocalStep(e, WriteTask), q)
  {
    hide Pipe, Chunks, Encoded, W.TaskStep, RegOk, StreamOk, QueuesOk, BytesOk;
    var t := W.TaskStep(e.tx);
    forall id ensures Pipe(t, id) == Pipe(e.tx, id) { TaskPipe(e, id); }
    TaskQueues(e);
    TaskBytes(e.tx, q.rx.rbuf);
    SenderStep(e, q, t);
  }

  lemma TaskQueues(e: Endpoint)
    requires QueuesOk(e)
    ensures QueuesOk(e.(tx := W.TaskStep(e.tx)))
    ensures forall m :: m in e.tx.ctrlQ || m in e.tx.bulkQ ==> Small(m)
  {
    hide EncodeFrame, W.ToFrame;
  }

  lemma FlushKeeps(e: Endpoint, q: Endpoint, n: nat)
    requires Inv(e, q)
    ensures Inv(LocalStep(e, Flush(n)), q)
  {
    hide Chunks, Encoded, RegOk, StreamOk, Sel;
    FlushBytes(e.tx, n, q.rx.rbuf);
    SenderStep(e, q, W.FlushStep(e.tx, n));
  }

  lemma FailKeeps(e: Endpoint, q: Endpoint)
    requires Inv(e, q)
    ensures Inv(LocalStep(e, WriteFail), q)
  {
    hide Chunks, Encoded, RegOk, StreamOk, Sel;
    FailBytes(e.tx, q.rx.rbuf);
    SenderStep(e, q, W.FailStep(e.tx));
  }

  lemma DropKeeps(e: Endpoint, q: Endpoint)
    requires Inv(e, q)
    ensures Inv(LocalStep(e, DropHandle), q)
  {
    hide Chunks, Encoded, RegOk, StreamOk, Sel;
    SenderStep(e, q, e.tx.(dropped := true));
  }

  // ---------- opening, sending, closing ----------

  lemma ReserveKeeps(e: Endpoint, q: Endpoint, c: W.StreamClass)
    requires Inv(e, q)
    requires LocalStep(e, Reserve(c)).opens <= MAX_OPENS
    ensures Inv(LocalStep(e, Reserve(c)), q)
  {
    hide Pipe, Chunks, BytesOk, ChanOk, NoOpen, NthId, Index;
    var e' := LocalStep(e, Reserve(c));
    if Live(e) {
      var x := NthId(e.start, e.opens);
      IndexOfNth(e.start, e.opens);
      NthIdParity(e.start, e.opens);
      assert RegOk(e, x);
      forall id: Id ensures RegOk(e', id) && StreamOk(e', q, id) && StreamOk(q, e', id) {
        assert RegOk(e, id) && StreamOk(e, q, id) && StreamOk(q, e, id);
      }
    }
  }

  lemma ChunksLast(ms: seq<Msg>, m: Msg)
    ensures Chunks(ms + [m]) == Chunks(ms) + if m.Data? then [m.chunk] else []
  {
    ChunksConcat(ms, [m]);
    assert Chunks([m]) == if m.Data? then [m.chunk] else [] by { assert [m][1..] == []; }
  }

  /** Queueing one message on a stream the end may use. */
  lemma QueueStream(e: Endpoint, q: Endpoint, m: Msg, e': Endpoint, id: Id)
    requires QueuesOk(e) && m.id in e.regs && !e.tx.phase.Stopped?
    requires e' == QueueOn(e, m).(regs := e'.regs, sent := e'.sent, closing := e'.closing)
    requires StreamOk(e, q, id)
    requires Log(e'.sent, id) == Log(e.sent, id) + if m.id == id && m.Data? then [m.chunk] else []
    requires if m.Open? then Own(e, m.id) && e.regs[m.id] == Reg(m.cls, Reserved)
                             && e'.regs == e.regs[m.id := Reg(m.cls, Enqueued)]
             else At(e, m.id, Ready) && e'.regs == e.regs
    ensures StreamOk(e', q, id)
  {
    hide Pipe, Chunks;
    var p, p' := Pipe(e.tx, id), Pipe(e'.tx, id);
    EnqueuePipe(e, m, id);
    if m.id != id {
      assert p' == p;
      return;
    }
    ChunksLast(p, m);
    var added := if m.Data? then [m.chunk] else [];
    assert Log(q.rx.arrived, id) + (Chunks(p) + added) == (Log(q.rx.arrived, id) + Chunks(p)) + added;
    if p != [] { assert p'[1..] == p[1..] + [m]; }
  }

  lemma QueueKeeps(e: Endpoint, q: Endpoint, m: Msg, e': Endpoint)
    requires Inv(e, q)
    requires Small(m) && m.id in e.regs && !e.tx.phase.Stopped?
    requires e' == QueueOn(e, m).(regs := e'.regs, sent := e'.sent, closing := e'.closing)
    requires e'.sent == if m.Data? then Appended(e.sent, m.id, m.chunk) else e.sent
    requires if m.Open? then Own(e, m.id) && e.regs[m.id] == Reg(m.cls, Reserved)
                             && e'.regs == e.regs[m.id := Reg(m.cls, Enqueued)]
             else At(e, m.id, Ready) && e'.regs == e.regs
    ensures Inv(e', q)
  {
    hide Pipe, Chunks, ChanOk, Index, Encoded, NoOpen;
    forall id: Id ensures RegOk(e', id) && StreamOk(e', q, id) && StreamOk(q, e', id) {
      assert RegOk(e, id) && StreamOk(e, q, id) && StreamOk(q, e, id);
      QueueStream(e, q, m, e', id);
    }
    EnqueueQueues(e, m);
  }

  lemma EnqueueOpenKeeps(e: Endpoint, q: Endpoint, id: Id)
    requires Inv(e, q)
    ensures Inv(LocalStep(e, EnqueueOpen(id)), q)
  {
    hide DirOk, ChanOk, QueuesOk;
    if Live(e) && At(e, id, Reserved) && !e.tx.phase.Stopped? {
      assert RegOk(e, id);
      QueueKeeps(e, q, W.Open(id, e.regs[id].cls), LocalStep(e, EnqueueOpen(id)));
    }
  }

  lemma SendKeeps(e: Endpoint, q: Endpoint, id: Id, chunk: Chunk)
    requires Inv(e, q)
    ensures Inv(LocalStep(e, Send(id, chunk)), q)
  {
    hide DirOk, ChanOk, QueuesOk, RegOk;
    if Live(e) && At(e, id, Ready) && !e.tx.phase.Stopped? && Small(W.Data(id, chunk)) {
      QueueKeeps(e, q, W.Data(id, chunk), LocalStep(e, Send(id, chunk)));
    }
  }

  lemma CloseEnqueueKeeps(e: Endpoint, q: Endpoint, id: Id)
    requires Inv(e, q)
    ensures Inv(LocalStep(e, CloseEnqueue(id)), q)
  {
    if Live(e) && At(e, id, Ready) && !e.tx.phase.Stopped? {
      hide DirOk, ChanOk, QueuesOk, RegOk;
      QueueKeeps(e, q, W.Close(id), LocalStep(e, CloseEnqueue(id)));
    } else {
      KeepsChans(e, q);
      hide DirOk, ChanOk, QueuesOk, RegOk;
      ReceiverSide(e, q, LocalStep(e, CloseEnqueue(id)));
    }
  }

  /** Steps that touch only an end's table, channels or bookkeeping. */
  lemma ReceiverSide(e: Endpoint, q: Endpoint, e': Endpoint)
    requires Inv(e, q)
    requires e' == e.(rx := e'.rx, closing := e'.closing)
    requires e'.rx == e.rx.(mode := e'.rx.mode, table := e'.rx.table, chans := e'.rx.chans, held := e'.rx.held)
    requires e'.rx.table <= e.rx.table
    requires e'.rx.mode != e.rx.mode ==> e'.rx.mode == Exited
    requires e'.rx.chans.Keys == e.rx.chans.Keys
    requires forall id :: id in e.rx.chans ==>
               && ChanOk(e'.rx, id) && e'.rx.chans[id].since == e.rx.chans[id].since
    ensures Inv(e', q)
  {
    hide Pipe, Chunks, BytesOk, ChanOk, Index, NoOpen, QueuesOk;
    assert QueuesOk(e') by { SameQueues(e, e'); }
    forall id: Id ensures RegOk(e', id) && StreamOk(e', q, id) && StreamOk(q, e', id) {
      assert RegOk(e, id) && StreamOk(e, q, id) && StreamOk(q, e, id);
    }
  }

  lemma SameQueues(e: Endpoint, e': Endpoint)
    requires QueuesOk(e) && e'.tx == e.tx && e'.regs == e.regs
    ensures QueuesOk(e')
  {
  }

  lemma KeepsChans(e: Endpoint, q: Endpoint)
    requires Inv(e, q)
    ensures forall id :: id in e.rx.chans ==> ChanOk(e.rx, id)
  {
    hide DirOk, QueuesOk, ChanOk;
    forall id | id in e.rx.chans ensures ChanOk(e.rx, id) { assert RegOk(e, id); }
  }

  /** The application takes a chunk or drops the receiver: only that channel changes, and only so. */
  predicate Used(rx: Receiver, rx': Receiver, id: Id) {
    && rx' == rx.(chans := rx'.chans)
    && rx'.chans.Keys == rx.chans.Keys && (forall x :: x in rx.chans && x != id ==> rx'.chans[x] == rx.chans[x])
    && (id in rx.chans ==>
          var c, c' := rx.chans[id], rx'.chans[id];
          && c' == c.(popped := c'.popped, rxOpen := c'.rxOpen) && (c'.rxOpen ==> c.rxOpen)
          && (c'.popped == c.popped || (c'.popped == c.popped + 1 && c.popped < |c.pushed|)))
  }

  lemma LocalRx(e: Endpoint, a: Action)
    requires a.CloseRemove? || a.ReadFail? || a.Receive? || a.DropReceiver?
    ensures var rx, rx' := e.rx, LocalStep(e, a).rx;
            if a.Receive? || a.DropReceiver? then Used(rx, rx', a.id)
            else rx' == rx.(mode := rx'.mode, table := rx'.table) && rx'.table <= rx.table
  {
    hide W.TaskStep, W.FlushStep, W.FailStep, QueueOn, Accept, Live, Small, NthId, Appended;
  }

  lemma LocalChans(e: Endpoint, a: Action)
    requires a.CloseRemove? || a.ReadFail? || a.Receive? || a.DropReceiver?
    requires forall id :: id in e.rx.chans ==> ChanOk(e.rx, id)
    ensures var e' := LocalStep(e, a);
            && e'.rx.chans.Keys == e.rx.chans.Keys
            && forall id :: id in e.rx.chans ==> ChanOk(e'.rx, id) && e'.rx.chans[id].since == e.rx.chans[id].since
  {
    hide LocalStep, ChanOk;
    var e' := LocalStep(e, a);
    LocalRx(e, a);
    forall id | id in e.rx.chans ensures ChanOk(e'.rx, id) && e'.rx.chans[id].since == e.rx.chans[id].since {
      ChanShrinks(e.rx, e'.rx, id);
    }
  }

  lemma ChanShrinks(rx: Receiver, rx': Receiver, id: Id)
    requires id in rx.chans && id in rx'.chans && ChanOk(rx, id)
    requires rx'.arrived == rx.arrived && rx'.table <= rx.table
    requires var c, c' := rx.chans[id], rx'.chans[id];
             && c' == c.(popped := c'.popped, rxOpen := c'.rxOpen)
             && c.popped <= c'.popped && (c'.popped > c.popped ==> c'.popped <= |c.pushed|) && (c'.rxOpen ==> c.rxOpen)
    ensures ChanOk(rx', id)
  {
  }

  lemma LocalReceiverKeeps(e: Endpoint, q: Endpoint, a: Action)
    requires Inv(e, q)
    requires a.CloseRemove? || a.ReadFail? || a.Receive? || a.DropReceiver?
    ensures Inv(LocalStep(e, a), q)
  {
    hide DirOk, QueuesOk, RegOk, ChanOk, FirstOk;
    KeepsChans(e, q);
    LocalChans(e, a);
    ReceiverSide(e, q, LocalStep(e, a));
  }

  // ---------- making a channel ----------

  lemma FreshChannel(rx: Receiver, x: Id, id: Id)
    requires id == x || (id in rx.chans && ChanOk(rx, id))
    ensures id in Channelled(rx, x).chans && ChanOk(Channelled(rx, x), id)
  {
    if id == x { assert [] == Log(rx.arrived, id)[|Log(rx.arrived, id)|..|Log(rx.arrived, id)|]; }
  }

  /** Both ways an end comes to own a channel: its own open completes, or the peer's open is accepted. */
  lemma AcceptKeeps(e: Endpoint, q: Endpoint, x: Id, cls: W.StreamClass)
    requires x !in e.rx.chans
    requires e.rx.first.Some? ==> e.rx.first.value.id != x
    requires if Own(e, x) then At(e, x, Enqueued) && e.regs[x].cls == cls
             else x !in e.regs && x in e.rx.seen
                  && (Log(e.rx.arrived, x) != [] ==> e.rx.firstId == Some(x))
    requires Inv(e, q)
    ensures Inv(Accept(e, x, cls), q)
  {
    hide Pipe, Chunks, BytesOk, ChanOk, Index, NoOpen;
    var e' := Accept(e, x, cls);
    forall id: Id ensures RegOk(e', id) && StreamOk(e', q, id) && StreamOk(q, e', id) {
      assert RegOk(e, id) && StreamOk(e, q, id) && StreamOk(q, e, id);
      if id == x || id in e.rx.chans { FreshChannel(e.rx, x, id); }
    }
  }

  lemma InsertOwnKeeps(e: Endpoint, q: Endpoint, id: Id)
    requires Inv(e, q)
    ensures Inv(LocalStep(e, InsertOwn(id)), q)
  {
    hide DirOk, QueuesOk, ChanOk;
    if !e.rx.held && At(e, id, Enqueued) {
      assert RegOk(e, id);
      AcceptKeeps(e, q, id, e.regs[id].cls);
    }
  }

  lemma FirstTaken(e: Endpoint, q: Endpoint)
    requires Inv(e, q)
    ensures Inv(e.(rx := e.rx.(first := None)), q)
  {
    hide Pipe, Chunks, BytesOk, Index, NoOpen, ChanOk, FifoAt, OrderAt, QueuesOk;
    var e' := e.(rx := e.rx.(first := None));
    SameQueues(e, e');
    forall id: Id ensures RegOk(e', id) && StreamOk(e', q, id) && StreamOk(q, e', id) {
      assert RegOk(e, id) && StreamOk(e, q, id) && StreamOk(q, e, id);
      SameStream(e, q, e', q, id);
      SameStream(q, e, q, e', id);
      if id in e.rx.chans { ChanShrinks(e.rx, e'.rx, id); }
    }
  }

  lemma InsertFirstKeeps(e: Endpoint, q: Endpoint)
    requires Inv(e, q)
    ensures Inv(LocalStep(e, InsertFirst), q)
  {
    hide DirOk, QueuesOk, ChanOk;
    if !e.rx.held && e.rx.first.Some? {
      var m := e.rx.first.value;
      FirstTaken(e, q);
      assert RegOk(e, m.id);
      AcceptKeeps(e.(rx := e.rx.(first := None)), q, m.id, m.cls);
    }
  }

  // ---------- the read task ----------

  lemma ReadKeeps(e: Endpoint, q: Endpoint)
    requires Inv(e, q)
    ensures var (e', q') := ReadStep(e, q); Inv(e', q')
  {
    hide Sel, Chunks, Encoded, Index, NoOpen, DecodeFrame, BytesOk, FifoAt, OrderAt, ChanOk, QueuesOk;
    var (e', q') := ReadStep(e, q);
    if q'.tx.wire != q.tx.wire {
      ReadBytes(q.tx, e.rx.rbuf);
      SameQueues(e, e');
      WireQueues(q, q');
      forall id: Id
        ensures RegOk(e', id) && RegOk(q', id) && StreamOk(e', q', id) && StreamOk(q', e', id)
      {
        assert RegOk(e, id) && RegOk(q, id) && StreamOk(e, q, id) && StreamOk(q, e, id);
        SameStream(e, q, e', q', id);
        SameStream(q, e, q', e', id);
        if id in e.rx.chans { ChanShrinks(e.rx, e'.rx, id); }
      }
    }
  }

  lemma WireQueues(q: Endpoint, q': Endpoint)
    requires QueuesOk(q) && q'.tx.ctrlQ == q.tx.ctrlQ && q'.tx.bulkQ == q.tx.bulkQ && q'.regs == q.regs
    ensures QueuesOk(q')
  {
  }

  lemma PopPipe(q: Endpoint, id: Id)
    requires q.tx.flight != []
    ensures var m := q.tx.flight[0];
            Pipe(q.tx, id) == (if m.id == id then [m] else []) + Pipe(PopFlight(q).tx, id)
  {
    hide Sel;
    SelHead(q.tx.flight, id);
  }

  /** The receiving end takes the oldest message under way out of the pipe of its stream. */
  lemma PopStream(e: Endpoint, q: Endpoint, e': Endpoint, id: Id)
    requires q.tx.flight != [] && StreamOk(q, e, id)
    requires var m := q.tx.flight[0];
             && Log(e'.rx.arrived, id) == Log(e.rx.arrived, id) + (if m.id == id && m.Data? then [m.chunk] else [])
             && (id in e'.rx.seen <==> id in e.rx.seen || (m.id == id && m.Open?))
    ensures StreamOk(PopFlight(q), e', id)
    ensures q.tx.flight[0].Open? && q.tx.flight[0].id == id ==>
              Own(q, id) && id !in e.rx.seen && Log(e.rx.arrived, id) == []
  {
    hide Pipe, Chunks;
    var m := q.tx.flight[0];
    var p, p' := Pipe(q.tx, id), Pipe(PopFlight(q).tx, id);
    PopPipe(q, id);
    if m.id != id {
      assert [] + p' == p';
      return;
    }
    assert m in p && p[1..] == p';
    ChunksConcat([m], p');
    ChunksOne(m);
    var taken := if m.Data? then [m.chunk] else [];
    assert Log(e.rx.arrived, id) + (taken + Chunks(p')) == (Log(e.rx.arrived, id) + taken) + Chunks(p');
  }

  lemma ChunksOne(m: Msg)
    ensures Chunks([m]) == if m.Data? then [m.chunk] else []
  {
    assert [m][1..] == [];
  }

  /** An open message that arrives is the first the end hears of its stream. */
  lemma OpenIsNews(e: Endpoint, q: Endpoint)
    requires Inv(e, q) && q.tx.flight != [] && q.tx.flight[0].Open?
    ensures var id := q.tx.flight[0].id;
            !Own(e, id) && id !in e.regs && id !in e.rx.chans && id !in e.rx.seen && Log(e.rx.arrived, id) == []
  {
    hide Pipe, Chunks, Index, NoOpen, BytesOk, ChanOk, QueuesOk, FifoAt, OrderAt;
    var id := q.tx.flight[0].id;
    assert StreamOk(q, e, id) && RegOk(e, id);
    PopStream(e, q, e.(rx := e.rx.(seen := e.rx.seen + {id})), id);
  }

  /** The first message on a fresh connection is an open: multiplexed mode is always detected. */
  lemma FirstIsOpen(e: Endpoint, q: Endpoint)
    requires Inv(e, q) && q.tx.flight != [] && e.rx.mode == Detecting
    ensures q.tx.flight[0].Open?
  {
    hide Pipe, Chunks, Index, BytesOk, ChanOk, QueuesOk, FifoAt;
    var id := q.tx.flight[0].id;
    PopPipe(q, id);
    assert StreamOk(q, e, id) && StreamOk(e, q, id) && RegOk(q, id);
  }

  /** Taking the oldest message: `e'` is the receiving end afterwards. */
  lemma PopKeeps(e: Endpoint, q: Endpoint, e': Endpoint)
    requires Inv(e, q) && q.tx.flight != []
    requires BytesOk(PopFlight(q).tx, e'.rx.rbuf)
    requires var m := q.tx.flight[0];
             && e' == e.(rx := e'.rx)
             && e'.rx == e.rx.(rbuf := e'.rx.rbuf, seen := e'.rx.seen, arrived := e'.rx.arrived, chans := e'.rx.chans,
                               mode := e'.rx.mode, first := e'.rx.first, firstId := e'.rx.firstId, held := e'.rx.held)
             && e'.rx.seen == e.rx.seen + (if m.Open? then {m.id} else {})
             && e'.rx.arrived == (if m.Data? then Appended(e.rx.arrived, m.id, m.chunk) else e.rx.arrived)
    requires e'.rx.chans.Keys == e.rx.chans.Keys
    requires forall id :: id in e.rx.chans ==> ChanOk(e'.rx, id) && e'.rx.chans[id].since == e.rx.chans[id].since
    requires FirstOk(e') && (e.rx.firstId.Some? ==> e'.rx.firstId == e.rx.firstId)
    ensures Inv(e', PopFlight(q))
  {
    hide Pipe, Chunks, Index, NoOpen, BytesOk, ChanOk, QueuesOk, FifoAt, OrderAt, FirstOk;
    var q' := PopFlight(q);
    var m := q.tx.flight[0];
    SameQueues(e, e');
    WireQueues(q, q');
    if m.Open? { OpenIsNews(e, q); }
    assert FirstOk(q') by { SameFirst(q, q'); }
    forall id: Id
      ensures RegOk(e', id) && RegOk(q', id) && StreamOk(e', q', id) && StreamOk(q', e', id)
    {
      assert RegOk(e, id) && RegOk(q, id) && StreamOk(e, q, id) && StreamOk(q, e, id);
      PopStream(e, q, e', id);
      SameStream(e, q, e', q', id);
    }
  }

  lemma SameFirst(q: Endpoint, q': Endpoint)
    requires FirstOk(q) && q'.rx == q.rx && q'.regs == q.regs && q'.start == q.start
    ensures FirstOk(q')
  {
  }

  lemma SameStream(x: Endpoint, y: Endpoint, x': Endpoint, y': Endpoint, id: Id)
    requires StreamOk(x, y, id)
    requires Pipe(x'.tx, id) == Pipe(x.tx, id) && x'.sent == x.sent && x'.regs == x.regs && x'.start == x.start
    requires y'.rx.arrived == y.rx.arrived && y'.rx.seen == y.rx.seen
    ensures StreamOk(x', y', id)
  {
    hide Pipe, Chunks;
  }
}
