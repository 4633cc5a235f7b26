/** Seen from one stream and one direction, the whole connection is a plain queue. */
module MuxRefinement {
  import opened Bytes
  import opened Protocol
  import W = MuxWriter
  import opened MuxSystem
  import opened MuxInvariant
  import opened MuxSteps
  import opened MuxTheorems

  /** The specification: chunks waiting, whether a receiver has been made, whether it still takes chunks,
      and what it has been given. */
  datatype Fifo = Fifo(waiting: seq<Chunk>, made: bool, open: bool, got: seq<Chunk>)

  predicate Put(a: Fifo, b: Fifo) {
    |b.waiting| == |a.waiting| + 1 && b == a.(waiting := a.waiting + [b.waiting[|a.waiting|]])
  }

  predicate Make(a: Fifo, b: Fifo) { !a.made && b == a.(made := true, open := true) }

  predicate Shut(a: Fifo, b: Fifo) { a.open && b == a.(open := false) }

  predicate Give(a: Fifo, b: Fifo) {
    a.open && a.waiting != [] && b == a.(waiting := a.waiting[1..], got := a.got + [a.waiting[0]])
  }

  /** The receiver is not there yet, or no longer. */
  predicate Discard(a: Fifo, b: Fifo) {
    !a.open && a.waiting != [] && b == a.(waiting := a.waiting[1..])
  }

  predicate FifoNext(a: Fifo, b: Fifo) {
    b == a || Put(a, b) || Make(a, b) || Shut(a, b) || Give(a, b) || Discard(a, b)
  }

  function GotBy(rx: Receiver, id: Id): seq<Chunk> { if id in rx.chans then rx.chans[id].pushed else [] }

  predicate Takes(rx: Receiver, id: Id) { id in rx.table && id in rx.chans && rx.chans[id].rxOpen }

  /** The stream `id` from `x` to `y`. */
  function FifoOf(x: Endpoint, y: Endpoint, id: Id): Fifo {
    Fifo(Chunks(Pipe(x.tx, id)), id in y.rx.chans, Takes(y.rx, id), GotBy(y.rx, id))
  }

  // ---------- what one step does to the two logs and the channel ----------

  predicate SameHistory(rx: Receiver, rx': Receiver, id: Id) {
    && Log(rx'.arrived, id) == Log(rx.arrived, id)
    && (id in rx'.chans <==> id in rx.chans) && GotBy(rx', id) == GotBy(rx, id)
  }

  predicate Made(rx: Receiver, rx': Receiver, id: Id) {
    && Log(rx'.arrived, id) == Log(rx.arrived, id)
    && id !in rx.chans && id in rx'.chans && Takes(rx', id) && GotBy(rx', id) == []
  }

  /** One more chunk comes off the wire, and into the channel exactly if there is one that takes it. */
  predicate Arrival(rx: Receiver, rx': Receiver, id: Id) {
    var arr, arr' := Log(rx.arrived, id), Log(rx'.arrived, id);
    && |arr'| == |arr| + 1 && arr' == arr + [arr'[|arr|]]
    && (id in rx'.chans <==> id in rx.chans) && (Takes(rx', id) <==> Takes(rx, id))
    && GotBy(rx', id) == GotBy(rx, id) + (if Takes(rx, id) then [arr'[|arr|]] else [])
  }

  predicate ReceiverNext(rx: Receiver, rx': Receiver, id: Id) {
    || (SameHistory(rx, rx', id) && (Takes(rx', id) ==> Takes(rx, id)))
    || Made(rx, rx', id)
    || Arrival(rx, rx', id)
  }

  predicate SenderNext(e: Endpoint, e': Endpoint, id: Id) {
    var s, s' := Log(e.sent, id), Log(e'.sent, id);
    s' == s || (|s'| == |s| + 1 && s' == s + [s'[|s|]])
  }

  lemma LocalSends(e: Endpoint, a: Action, id: Id)
    ensures SenderNext(e, LocalStep(e, a), id)
  {
    hide W.TaskStep, W.FlushStep, W.FailStep, NthId;
  }

  lemma LocalNext(e: Endpoint, q: Endpoint, a: Action, id: Id)
    requires Inv(e, q)
    ensures ReceiverNext(e.rx, LocalStep(e, a).rx, id)
  {
    hide W.TaskStep, W.FlushStep, W.FailStep, DirOk, ChanOk, QueuesOk, NthId, Index;
    assert RegOk(e, id);
    if a.InsertOwn? { assert RegOk(e, a.id); }
    if a.InsertFirst? && e.rx.first.Some? { assert RegOk(e, e.rx.first.value.id); }
  }

  lemma HandleNext(e: Endpoint, m: W.Msg, id: Id)
    requires m.Open? ==> m.id !in e.rx.chans
    ensures ReceiverNext(e.rx, Handle(e, m).rx, id) && Handle(e, m).sent == e.sent
  {
  }

  lemma DetectNext(e: Endpoint, f: Frame, id: Id)
    ensures ReceiverNext(e.rx, Detect(e, f).rx, id) && Detect(e, f).sent == e.sent
  {
    hide W.FromFrame;
  }

  lemma ActedNext(e: Endpoint, f: Frame, rest: seq<byte>, id: Id)
    requires W.FromFrame(f).Some? && W.FromFrame(f).value.Open? ==> W.FromFrame(f).value.id !in e.rx.chans
    ensures ReceiverNext(e.rx, Acted(e, f, rest).rx, id) && Acted(e, f, rest).sent == e.sent
  {
    hide ReceiverNext, W.FromFrame, Handle, Detect, Consumes;
    var e', m := Took(e, rest), W.FromFrame(f);
    StillNext(e.rx, Hold(e).rx, e'.rx, id);
    if Consumes(e.rx, f) {
      if e.rx.mode == Detecting {
        DetectNext(e', f, id);
        FromTook(e.rx, e'.rx, Detect(e', f).rx, id);
      } else if m.Some? {
        HandleNext(e', m.value, id);
        FromTook(e.rx, e'.rx, Handle(e', m.value).rx, id);
      }
    }
  }

  /** The buffer and the lock are nothing to a stream. */
  lemma StillNext(rx: Receiver, held: Receiver, took: Receiver, id: Id)
    requires held == rx.(held := true) && took == rx.(rbuf := took.rbuf, held := false)
    ensures ReceiverNext(rx, held, id) && ReceiverNext(rx, took, id)
  {
  }

  lemma FromTook(rx: Receiver, took: Receiver, rx': Receiver, id: Id)
    requires took == rx.(rbuf := took.rbuf, held := false) && ReceiverNext(took, rx', id)
    ensures ReceiverNext(rx, rx', id)
  {
  }

  lemma DispatchNext(e: Endpoint, q: Endpoint, id: Id)
    requires Inv(e, q)
    ensures ReceiverNext(e.rx, DispatchStep(e, q).0.rx, id) && DispatchStep(e, q).0.sent == e.sent
    ensures DispatchStep(e, q).1.sent == q.sent && DispatchStep(e, q).1.rx == q.rx
  {
    hide DecodeFrame, W.FromFrame, Inv, Consumes, Acted;
    var d := DecodeFrame(e.rx.rbuf);
    if d.Complete? {
      FrameOf(e, q);
      ActedNext(e, d.value, d.rest, id);
    }
  }

  lemma FrameOf(e: Endpoint, q: Endpoint)
    requires Inv(e, q) && DecodeFrame(e.rx.rbuf).Complete?
    ensures q.tx.flight != [] && W.FromFrame(DecodeFrame(e.rx.rbuf).value) == Some(q.tx.flight[0])
    ensures q.tx.flight[0].Open? ==> q.tx.flight[0].id !in e.rx.chans
  {
    hide DecodeFrame, W.FromFrame, W.ToFrame, EndOk, BytesOk, StreamOk;
    FrameInHand(q.tx, e.rx.rbuf);
    if q.tx.flight[0].Open? { OpenIsNews(e, q); }
  }

  lemma StepNext(e: Endpoint, q: Endpoint, a: Action, id: Id)
    requires Inv(e, q)
    ensures var (e', q') := Step(e, q, a);
            && SenderNext(e, e', id) && ReceiverNext(e.rx, e'.rx, id)
            && q'.sent == q.sent && SameHistory(q.rx, q'.rx, id) && (Takes(q'.rx, id) <==> Takes(q.rx, id))
  {
    hide LocalStep, DispatchStep, DecodeFrame, Inv;
    if a.Dispatch? { DispatchNext(e, q, id); }
    else if !a.ReadByte? {
      LocalNext(e, q, a, id);
      LocalSends(e, a, id);
    }
  }

  // ---------- refinement ----------

  lemma WaitingIs(x: Endpoint, y: Endpoint, id: Id)
    requires Inv(x, y)
    ensures |Log(y.rx.arrived, id)| <= |Log(x.sent, id)| && Log(y.rx.arrived, id) <= Log(x.sent, id)
    ensures Chunks(Pipe(x.tx, id)) == Log(x.sent, id)[|Log(y.rx.arrived, id)|..]
  {
    hide Pipe, Chunks, EndOk, BytesOk, OrderAt;
    assert StreamOk(x, y, id);
  }

  /** The sender moved. */
  lemma SendRefines(x: Endpoint, y: Endpoint, x': Endpoint, y': Endpoint, id: Id)
    requires Inv(x, y) && Inv(x', y') && SenderNext(x, x', id)
    requires SameHistory(y.rx, y'.rx, id) && (Takes(y'.rx, id) <==> Takes(y.rx, id))
    ensures FifoNext(FifoOf(x, y, id), FifoOf(x', y', id))
  {
    hide Inv, Pipe, Chunks, Takes, GotBy, Log;
    WaitingIs(x, y, id);
    WaitingIs(x', y', id);
  }

  /** The receiver moved. */
  lemma ReceiveRefines(x: Endpoint, y: Endpoint, x': Endpoint, y': Endpoint, id: Id)
    requires Inv(x, y) && Inv(x', y') && x'.sent == x.sent && ReceiverNext(y.rx, y'.rx, id)
    ensures FifoNext(FifoOf(x, y, id), FifoOf(x', y', id))
  {
    hide Inv, Pipe, Chunks, Log;
    WaitingIs(x, y, id);
    WaitingIs(x', y', id);
  }

  lemma StepRefines(e: Endpoint, q: Endpoint, a: Action, id: Id)
    requires Inv(e, q) && Step(e, q, a).0.opens <= MAX_OPENS
    ensures var (e', q') := Step(e, q, a);
            FifoNext(FifoOf(e, q, id), FifoOf(e', q', id)) && FifoNext(FifoOf(q, e, id), FifoOf(q', e', id))
  {
    hide Inv, Step, FifoOf, FifoNext, SenderNext, ReceiverNext, SameHistory, Takes, GotBy;
    var (e', q') := Step(e, q, a);
    StepKeeps(e, q, a);
    StepNext(e, q, a, id);
    SendRefines(e, q, e', q', id);
    InvSymmetric(e, q);
    InvSymmetric(e', q');
    ReceiveRefines(q, e, q', e', id);
  }

  /** In every run, every step of either end acts on every stream in each direction as a step of an
      independent queue: nothing, one chunk put at the back, the receiver made, once, or shut, for good, the
      front chunk given to it while it is open, or the front chunk discarded while it is not. */
  lemma RunRefinesFifo(moves: seq<Move>, m: Move, sender: bool, id: Id)
    requires WithinIds(Next(Run(moves), m))
    ensures var w, w' := Run(moves), Next(Run(moves), m);
            FifoNext(FifoOf(From(w, sender), From(w, !sender), id), FifoOf(From(w', sender), From(w', !sender), id))
  {
    hide Run, Inv, Step, FifoOf, FifoNext;
    var w := Run(moves);
    OpensGrow(w.initiator, w.responder, m.act);
    OpensGrow(w.responder, w.initiator, m.act);
    RunInv(moves);
    InvSymmetric(w.initiator, w.responder);
    if m.byInitiator { StepRefines(w.initiator, w.responder, m.act, id); }
    else { StepRefines(w.responder, w.initiator, m.act, id); }
  }
}
