/** What each step of a connection does, field by field, and what a close means for its stream. */
module MuxEffects {
  import opened Bytes
  import opened Protocol
  import W = MuxWriter
  import opened MuxSystem
  import opened MuxInvariant
  import S = MuxSteps
  import opened MuxTheorems
  import opened MuxRefinement
  import opened MuxDelivery
  import opened MuxSchedule

  // ---------- calls ----------

  /** Control and meta items go to the back of the priority queue, bulk items to the back of the other. */
  predicate WentTo(t: Sender, t': Sender, cls: W.StreamClass, m: Msg) {
    match cls
    case Control => t' == t.(ctrlQ := t.ctrlQ + [m], ctrlLog := t.ctrlLog + [m])
    case Meta => t' == t.(ctrlQ := t.ctrlQ + [m], ctrlLog := t.ctrlLog + [m])
    case Bulk => t' == t.(bulkQ := t.bulkQ + [m], bulkLog := t.bulkLog + [m])
  }

  /** The connection has a handle and knows that it is multiplexed. */
  predicate Usable(e: Endpoint) { !e.tx.dropped && e.rx.mode != Detecting }

  lemma ReserveDoes(e: Endpoint, c: W.StreamClass)
    requires Usable(e)
    ensures LocalStep(e, Reserve(c)) ==
            e.(opens := e.opens + 1, regs := e.regs[(e.start + 2 * e.opens) % 0x1_0000_0000 := Reg(c, Reserved)])
  {
  }

  lemma EnqueueOpenDoes(e: Endpoint, id: Id)
    requires Usable(e) && id in e.regs && e.regs[id].stage == Reserved && !e.tx.phase.Stopped?
    ensures var e', c := LocalStep(e, EnqueueOpen(id)), e.regs[id].cls;
            WentTo(e.tx, e'.tx, c, W.Open(id, c)) && e' == e.(tx := e'.tx, regs := e.regs[id := Reg(c, Enqueued)])
  {
  }

  lemma SendDoes(e: Endpoint, id: Id, chunk: Chunk)
    requires Usable(e) && id in e.regs && e.regs[id].stage == Ready && !e.tx.phase.Stopped?
    requires |chunk| + 4 < 0x1_0000_0000
    ensures var e' := LocalStep(e, Send(id, chunk));
            && WentTo(e.tx, e'.tx, e.regs[id].cls, W.Data(id, chunk)) && e' == e.(tx := e'.tx, sent := e'.sent)
            && Log(e'.sent, id) == Log(e.sent, id) + [chunk]
            && forall x :: x != id ==> Log(e'.sent, x) == Log(e.sent, x)
  {
  }

  lemma CloseDoes(e: Endpoint, id: Id)
    requires Usable(e) && id in e.regs && e.regs[id].stage == Ready
    ensures var e' := LocalStep(e, CloseEnqueue(id));
            && e' == e.(tx := e'.tx, closing := e.closing + {id})
            && if e.tx.phase.Stopped? then e'.tx == e.tx else WentTo(e.tx, e'.tx, e.regs[id].cls, W.Close(id))
    ensures !e.rx.held && id in e.closing ==>
              LocalStep(e, CloseRemove(id)) ==
              e.(closing := e.closing - {id}, rx := e.rx.(table := e.rx.table - {id}))
    ensures e.rx.held ==> LocalStep(e, CloseRemove(id)) == e
  {
  }

  /** An entry with an empty channel that starts behind what has come off the wire so far. */
  predicate EntryMade(e: Endpoint, e': Endpoint, id: Id, cls: W.StreamClass) {
    && e'.rx.table == e.rx.table + {id} && e'.regs == e.regs[id := Reg(cls, Ready)]
    && e'.rx.chans == e.rx.chans[id := Chan(|Log(e.rx.arrived, id)|, [], 0, true)]
    && e' == e.(regs := e'.regs, rx := e.rx.(table := e'.rx.table, chans := e'.rx.chans))
  }

  lemma InsertDoes(e: Endpoint, id: Id)
    ensures !e.rx.held && id in e.regs && e.regs[id].stage == Enqueued ==>
              EntryMade(e, LocalStep(e, InsertOwn(id)), id, e.regs[id].cls)
    ensures !e.rx.held && e.rx.first.Some? && e.rx.first.value.Open? ==>
              var m := e.rx.first.value;
              EntryMade(e.(rx := e.rx.(first := None)), LocalStep(e, InsertFirst), m.id, m.cls)
    ensures e.rx.held ==> LocalStep(e, InsertOwn(id)) == e && LocalStep(e, InsertFirst) == e
  {
  }

  /** The application takes the oldest chunk it has not had, or gives the receiver up. */
  lemma ReceiveDoes(e: Endpoint, id: Id)
    requires id in e.rx.chans
    ensures var c, r, d := e.rx.chans[id], LocalStep(e, Receive(id)), LocalStep(e, DropReceiver(id));
            && d == e.(rx := e.rx.(chans := e.rx.chans[id := c.(rxOpen := false)]))
            && (c.rxOpen && c.popped < |c.pushed| ==>
                  r == e.(rx := e.rx.(chans := e.rx.chans[id := c.(popped := c.popped + 1)])))
            && (!c.rxOpen || c.popped >= |c.pushed| ==> r == e)
  {
  }

  // ---------- the read task ----------

  lemma ReadDoes(e: Endpoint, q: Endpoint)
    requires e.rx.mode != Exited && DecodeFrame(e.rx.rbuf) == NeedMore && q.tx.wire != []
    ensures Step(e, q, ReadByte) ==
            (e.(rx := e.rx.(rbuf := e.rx.rbuf + [q.tx.wire[0]])), q.(tx := q.tx.(wire := q.tx.wire[1..])))
  {
    hide DecodeFrame;
  }

  /** The channel takes chunks: its entry stands and its receiver exists. */
  predicate Standing(rx: Receiver, id: Id) { id in rx.table && id in rx.chans && rx.chans[id].rxOpen }

  /** What the read task makes of a whole frame: an open makes an entry, a chunk goes to the back of its
      standing channel or waits for room in it, and otherwise is dropped; a close removes the entry; and
      frames it does not know are skipped.  Nothing else changes. */
  lemma DispatchDoes(e: Endpoint, q: Endpoint)
    requires e.rx.mode == Running && DecodeFrame(e.rx.rbuf).Complete?
    ensures var e', rest := Step(e, q, Dispatch).0, DecodeFrame(e.rx.rbuf).rest;
            var took := e.(rx := e.rx.(rbuf := rest, held := false));
            match InHand(e)
            case None => e' == took
            case Some(Open(id, cls)) =>
              e'.rx.seen == e.rx.seen + {id} && EntryMade(took.(rx := took.rx.(seen := e'.rx.seen)), e', id, cls)
            case Some(Close(id)) => e' == took.(rx := took.rx.(table := e.rx.table - {id}))
            case Some(Data(id, chunk)) =>
              if Standing(e.rx, id) && |e.rx.chans[id].pushed| - e.rx.chans[id].popped >= 64
              then e' == e.(rx := e.rx.(held := true))
              else
                && e' == took.(rx := took.rx.(chans := e'.rx.chans, arrived := e'.rx.arrived))
                && Log(e'.rx.arrived, id) == Log(e.rx.arrived, id) + [chunk]
                && (forall x :: x != id ==> Log(e'.rx.arrived, x) == Log(e.rx.arrived, x))
                && e'.rx.chans == if !Standing(e.rx, id) then e.rx.chans
                                  else e.rx.chans[id := e.rx.chans[id].(pushed := e.rx.chans[id].pushed + [chunk])]
  {
    hide DecodeFrame, W.FromFrame;
  }

  /** The accepting side's first frame: an open selects multiplexed mode and is left to a spawned task. */
  lemma DetectDoes(e: Endpoint, q: Endpoint)
    requires e.rx.mode == Detecting && DecodeFrame(e.rx.rbuf).Complete?
    ensures var e', d := Step(e, q, Dispatch).0, DecodeFrame(e.rx.rbuf);
            && e'.rx.rbuf == d.rest && e'.rx.table == e.rx.table && e'.rx.chans == e.rx.chans
            && (e'.rx.mode == if d.value.kind == StreamOpen then Running else Exited)
            && (d.value.kind == StreamOpen && InHand(e).Some? ==> e'.rx.first == InHand(e))
  {
    hide DecodeFrame, W.FromFrame;
  }

  // ---------- the end of the read task ----------

  /** A refused frame or a failed read ends the read task, and changes nothing else. */
  lemma ReadTaskEnds(e: Endpoint, q: Endpoint)
    ensures e.rx.mode != Exited && DecodeFrame(e.rx.rbuf).Invalid? ==>
              Step(e, q, Dispatch) == (e.(rx := e.rx.(mode := Exited)), q)
    ensures !e.rx.held ==> Step(e, q, ReadFail) == (e.(rx := e.rx.(mode := Exited)), q)
  {
    hide DecodeFrame;
  }

  /** What the read task has made of the wire. */
  predicate SameReads(rx: Receiver, rx': Receiver) {
    rx'.mode == rx.mode && rx'.rbuf == rx.rbuf && rx'.arrived == rx.arrived && rx'.seen == rx.seen
  }

  lemma ExitedStep(e: Endpoint, q: Endpoint, a: Action)
    requires e.rx.mode == Exited
    ensures SameReads(e.rx, Step(e, q, a).0.rx)
  {
    hide DecodeFrame, W.TaskStep, W.FlushStep, W.FailStep, W.Enqueue, NthId, Acted, Consumes, Appended;
  }

  /** In every run, once the read task of an end is gone, that end never takes another byte or frame. */
  lemma {:induction false} ReaderGoneForGood(moves: seq<Move>, more: seq<Move>, end: bool)
    requires From(Run(moves), end).rx.mode == Exited
    ensures SameReads(From(Run(moves), end).rx, From(Run(moves + more), end).rx)
    decreases |more|
  {
    hide Run, Step;
    if more == [] {
      assert moves + more == moves;
    } else {
      var n := |more| - 1;
      var w, m := Run(moves + more[..n]), more[n];
      assert moves + more == moves + more[..n] + [m];
      RunMore(moves + more[..n], m);
      ReaderGoneForGood(moves, more[..n], end);
      if m.byInitiator == end { ExitedStep(From(w, end), From(w, !end), m.act); }
      else { PeerStep(From(w, !end), From(w, end), m.act); }
    }
  }

  // ---------- a close is final ----------

  /** A stream whose receiver exists and takes no more never takes anything again. */
  lemma {:induction false} ClosedForGood(moves: seq<Move>, more: seq<Move>, end: bool, id: Id)
    requires WithinIds(Run(moves + more))
    requires var rx := From(Run(moves), end).rx; id in rx.chans && !Standing(rx, id)
    ensures var rx, rx' := From(Run(moves), end).rx, From(Run(moves + more), end).rx;
            id in rx.chans && id in rx'.chans && !Standing(rx', id) && rx'.chans[id].pushed == rx.chans[id].pushed
    decreases |more|
  {
    hide Run, FifoNext, Step, Pipe, Chunks;
    if more == [] {
      assert moves + more == moves;
    } else {
      var n := |more| - 1;
      var w, m := Run(moves + more[..n]), more[n];
      assert moves + more == moves + more[..n] + [m];
      RunMore(moves + more[..n], m);
      OpensGrow(w.initiator, w.responder, m.act);
      OpensGrow(w.responder, w.initiator, m.act);
      ClosedForGood(moves, more[..n], end, id);
      RunRefinesFifo(moves + more[..n], m, !end, id);
      StaysShut(FifoOf(From(w, !end), From(w, end), id), FifoOf(From(Next(w, m), !end), From(Next(w, m), end), id));
    }
  }

  lemma StaysShut(a: Fifo, b: Fifo)
    requires FifoNext(a, b) && a.made && !a.open
    ensures b.made && !b.open && b.got == a.got
  {
  }

  /** In every run, once the read task has handled the close of a stream whose entry had been made, and just
      as once this end's own close has removed it, the entry is gone, every other stream is as it was, and
      the receiver is never given anything more. */
  lemma CloseIsFinal(moves: seq<Move>, own: bool, more: seq<Move>, end: bool, id: Id)
    requires var e := From(Run(moves), end);
             && id in e.rx.chans
             && if own then !e.rx.held && id in e.closing
                else e.rx.mode == Running && DecodeFrame(e.rx.rbuf).Complete? && InHand(e) == Some(W.Close(id))
    requires WithinIds(Run(moves + [Move(end, if own then CloseRemove(id) else Dispatch)] + more))
    ensures var rx := From(Run(moves), end).rx;
            var closed := moves + [Move(end, if own then CloseRemove(id) else Dispatch)];
            var rx1, rx2 := From(Run(closed), end).rx, From(Run(closed + more), end).rx;
            && rx1.table == rx.table - {id} && rx1.chans == rx.chans && rx1.arrived == rx.arrived
            && id in rx2.chans && !Standing(rx2, id) && rx2.chans[id].pushed == rx.chans[id].pushed
  {
    hide Run, DecodeFrame, W.FromFrame, LocalStep;
    var e, q := From(Run(moves), end), From(Run(moves), !end);
    var m := Move(end, if own then CloseRemove(id) else Dispatch);
    RunMore(moves, m);
    if own { CloseRemoveDoes(e, id); } else { DispatchDoes(e, q); }
    ClosedForGood(moves + [m], more, end, id);
  }

  lemma CloseRemoveDoes(e: Endpoint, id: Id)
    requires !e.rx.held && id in e.closing
    ensures LocalStep(e, CloseRemove(id)) ==
            e.(closing := e.closing - {id}, rx := e.rx.(table := e.rx.table - {id}))
  {
  }

  // ---------- classes and queues ----------

  /** Every item either queue ever accepted is of a stream of that queue's classes. */
  predicate LogsOk(e: Endpoint) {
    && (forall m :: m in e.tx.ctrlLog ==> m.id in e.regs && e.regs[m.id].cls in {W.Control, W.Meta})
    && (forall m :: m in e.tx.bulkLog ==> m.id in e.regs && e.regs[m.id].cls == W.Bulk)
  }

  /** A stream keeps its class. */
  predicate ClassesKept(e: Endpoint, e': Endpoint) {
    forall id :: id in e.regs ==> id in e'.regs && e'.regs[id].cls == e.regs[id].cls
  }

  lemma LocalClasses(e: Endpoint, q: Endpoint, a: Action)
    requires Inv(e, q) && LocalStep(e, a).opens <= MAX_OPENS
    ensures ClassesKept(e, LocalStep(e, a))
  {
    hide W.TaskStep, W.FlushStep, W.FailStep, W.Enqueue, DirOk, ChanOk, QueuesOk, NthId, Index, Appended;
    if a.Reserve? && Live(e) {
      var x := NthId(e.start, e.opens);
      IndexOfNth(e.start, e.opens);
      NthIdParity(e.start, e.opens);
      assert RegOk(e, x);
    }
    if a.InsertFirst? && e.rx.first.Some? { assert RegOk(e, e.rx.first.value.id); }
  }

  lemma DispatchClasses(e: Endpoint, q: Endpoint)
    requires Inv(e, q)
    ensures ClassesKept(e, DispatchStep(e, q).0)
  {
    hide DecodeFrame, W.FromFrame, W.ToFrame, Inv, Blocked, Channelled, Deliver, Detected;
    if DecodeFrame(e.rx.rbuf).Complete? {
      FrameOf(e, q);
      NewsUnknown(e, q);
    }
  }

  lemma NewsUnknown(e: Endpoint, q: Endpoint)
    requires Inv(e, q) && q.tx.flight != []
    ensures q.tx.flight[0].Open? ==> q.tx.flight[0].id !in e.regs
  {
    hide Inv;
    if q.tx.flight[0].Open? { S.OpenIsNews(e, q); }
  }

  lemma StepClasses(e: Endpoint, q: Endpoint, a: Action)
    requires Inv(e, q) && Step(e, q, a).0.opens <= MAX_OPENS
    ensures ClassesKept(e, Step(e, q, a).0) && Step(e, q, a).1.regs == q.regs
  {
    if a.Dispatch? {
      DispatchClasses(e, q);
      hide DecodeFrame, Acted, Consumes;
    } else if a.ReadByte? {
      hide DecodeFrame;
    } else {
      hide LocalStep;
      LocalClasses(e, q, a);
    }
  }

  lemma LogsStep(e: Endpoint, a: Action)
    requires LogsOk(e) && ClassesKept(e, LocalStep(e, a))
    ensures LogsOk(LocalStep(e, a))
  {
    hide W.TaskStep, W.FlushStep, W.FailStep, NthId, Appended, Channelled;
    var e' := LocalStep(e, a);
    LocalCalls(e, a);
    TaskLogs(e.tx);
    if Calls(e, a) != [] && Calls(e, a)[0].Put? { assert e'.regs.Keys >= e.regs.Keys; }
  }

  lemma TaskLogs(t: Sender)
    ensures W.TaskStep(t).ctrlLog == t.ctrlLog && W.TaskStep(t).bulkLog == t.bulkLog
    ensures forall n :: W.FlushStep(t, n).ctrlLog == t.ctrlLog && W.FlushStep(t, n).bulkLog == t.bulkLog
    ensures W.FailStep(t).ctrlLog == t.ctrlLog && W.FailStep(t).bulkLog == t.bulkLog
  {
    hide EncodeFrame, W.ToFrame;
  }

  lemma LogsSame(e: Endpoint, e': Endpoint)
    requires LogsOk(e) && ClassesKept(e, e') && e'.tx.ctrlLog == e.tx.ctrlLog && e'.tx.bulkLog == e.tx.bulkLog
    ensures LogsOk(e')
  {
  }

  lemma NextLogs(e: Endpoint, q: Endpoint, a: Action)
    requires Inv(e, q) && LogsOk(e) && LogsOk(q) && Step(e, q, a).0.opens <= MAX_OPENS
    ensures LogsOk(Step(e, q, a).0) && LogsOk(Step(e, q, a).1)
  {
    hide Inv, Step, LocalStep, LogsOk, ClassesKept;
    StepClasses(e, q, a);
    ReadsAlike(e, q, a);
    SameClasses(q, Step(e, q, a).1);
    LogsSame(q, Step(e, q, a).1);
    if a.Dispatch? || a.ReadByte? { LogsSame(e, Step(e, q, a).0); }
    else {
      LocalOnly(e, q, a);
      LogsStep(e, a);
    }
  }

  lemma SameClasses(q: Endpoint, q': Endpoint)
    requires q'.regs == q.regs
    ensures ClassesKept(q, q')
  {
  }

  /** In every run the priority queue only ever accepts items of control and meta streams, and the other one
      only items of bulk streams. */
  lemma {:induction false} QueuesByClass(moves: seq<Move>)
    requires WithinIds(Run(moves))
    ensures LogsOk(Run(moves).initiator) && LogsOk(Run(moves).responder)
    decreases |moves|
  {
    if moves != [] {
      hide Inv, Step, LogsOk, Run;
      var n := |moves| - 1;
      var w, m := Run(moves[..n]), moves[n];
      assert moves == moves[..n] + [m];
      RunMore(moves[..n], m);
      OpensGrow(w.initiator, w.responder, m.act);
      OpensGrow(w.responder, w.initiator, m.act);
      QueuesByClass(moves[..n]);
      RunInv(moves[..n]);
      InvSymmetric(w.initiator, w.responder);
      NextLogs(From(w, m.byInitiator), From(w, !m.byInitiator), m.act);
    }
  }

  /** A chunk sent on a control or meta stream overtakes bulk traffic: from then until it is taken, whatever
      both ends do, at most one bulk frame of that end reaches the wire, the one in flight included. */
  lemma UrgentOvertakes(moves: seq<Move>, more: seq<Move>, end: bool, id: Id, chunk: Chunk)
    requires var e := From(Run(moves), end);
             && Usable(e) && id in e.regs && e.regs[id].stage == Ready && e.regs[id].cls in {W.Control, W.Meta}
             && !e.tx.phase.Stopped? && |chunk| + 4 < 0x1_0000_0000
    ensures var p, sent := |From(Run(moves), end).tx.ctrlLog|, moves + [Move(end, Send(id, chunk))];
            var t, u := From(Run(sent), end).tx, From(Run(sent + more), end).tx;
            && |t.ctrlLog| == p + 1 && t.ctrlLog[p] == W.Data(id, chunk) && t.ctrlLog <= u.ctrlLog
            && (|W.Taken(u.trace, true)| <= p ==>
                  W.BulkBegun(u) - W.BulkBegun(t) + (if W.WritingBulk(t) then 1 else 0) <= 1)
  {
    hide Run, W.Run, W.Taken, LocalStep, W.Act, W.BulkBegun, W.WritingBulk;
    var e, sent := From(Run(moves), end), moves + [Move(end, Send(id, chunk))];
    RunMore(moves, Move(end, Send(id, chunk)));
    SendDoes(e, id, chunk);
    SystemInterleaves(moves, end);
    var t, u := From(Run(sent), end).tx, From(Run(sent + more), end).tx;
    assert t.trace == e.tx.trace;
    var before := WriterRuns(sent, end);
    var after := WriterGoesOn(sent, more, end, W.Run(W.Fresh, before));
    W.RunLogGrows(W.Run(W.Fresh, before), after);
    if |W.Taken(u.trace, true)| <= |e.tx.ctrlLog| { SystemAtMostOneBulkAhead(sent, more, end, |e.tx.ctrlLog|); }
  }
}
