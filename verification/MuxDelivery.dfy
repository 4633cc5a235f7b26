/** Where delivery on a stream starts, and when one stream stops delivery on all of them. */
module MuxDelivery {
  import opened Bytes
  import opened Protocol
  import W = MuxWriter
  import opened MuxSystem
  import opened MuxInvariant
  import opened MuxSteps
  import opened MuxTheorems
  import opened MuxRefinement

  // ---------- the start ----------

  /** A channel, once made, keeps its start; when made it starts behind the chunks that have come off the
      wire by then, of which there are none if the read task itself makes it. */
  predicate StartsOk(rx: Receiver, rx': Receiver, a: Action, id: Id) {
    && (id in rx.chans ==> id in rx'.chans && rx'.chans[id].since == rx.chans[id].since)
    && (id !in rx.chans && id in rx'.chans ==>
          && rx'.chans[id].since == |Log(rx.arrived, id)|
          && (a == InsertOwn(id) || a == InsertFirst || (a == Dispatch && rx'.chans[id].since == 0)))
  }

  lemma LocalStarts(e: Endpoint, q: Endpoint, a: Action, id: Id)
    requires Inv(e, q)
    ensures StartsOk(e.rx, LocalStep(e, a).rx, a, id)
  {
    hide W.TaskStep, W.FlushStep, W.FailStep, DirOk, ChanOk, QueuesOk, NthId, Index;
    if a.InsertOwn? { assert RegOk(e, a.id); }
    if a.InsertFirst? && e.rx.first.Some? { assert RegOk(e, e.rx.first.value.id); }
  }

  lemma HandleStarts(e: Endpoint, m: Msg, id: Id)
    requires m.Open? ==> m.id !in e.rx.chans && Log(e.rx.arrived, m.id) == []
    ensures StartsOk(e.rx, Handle(e, m).rx, Dispatch, id)
  {
  }

  lemma DispatchStarts(e: Endpoint, q: Endpoint, id: Id)
    requires Inv(e, q)
    ensures StartsOk(e.rx, DispatchStep(e, q).0.rx, Dispatch, id)
  {
    hide DecodeFrame, W.FromFrame, W.ToFrame, Inv, Handle, Blocked;
    var d := DecodeFrame(e.rx.rbuf);
    if d.Complete? && e.rx.mode == Running {
      FrameOf(e, q);
      if q.tx.flight[0].Open? { OpenIsNews(e, q); }
      HandleStarts(Took(e, d.rest), q.tx.flight[0], id);
    }
  }

  lemma StepStarts(e: Endpoint, q: Endpoint, a: Action, id: Id)
    requires Inv(e, q)
    ensures StartsOk(e.rx, Step(e, q, a).0.rx, a, id) && Step(e, q, a).1.rx == q.rx
  {
    hide LocalStep, DecodeFrame, Inv, Handle, Blocked, W.FromFrame, Detect;
    if a.Dispatch? { DispatchStarts(e, q, id); }
    else if !a.ReadByte? { LocalStarts(e, q, a, id); }
  }

  /** The k-th move makes the channel, behind `n` chunks of its stream, and it stays so. */
  ghost predicate MadeAt(moves: seq<Move>, k: nat, end: bool, id: Id, n: nat) {
    && k < |moves| && id !in From(Run(moves[..k]), end).rx.chans
    && moves[k].byInitiator == end && n == |Log(From(Run(moves[..k]), end).rx.arrived, id)|
    && (moves[k].act == InsertOwn(id) || moves[k].act == InsertFirst || (moves[k].act == Dispatch && n == 0))
    && forall j :: k < j <= |moves| ==>
         id in From(Run(moves[..j]), end).rx.chans && From(Run(moves[..j]), end).rx.chans[id].since == n
  }

  lemma NextStarts(w: World, m: Move, end: bool, id: Id)
    requires Inv(w.initiator, w.responder)
    ensures var rx, rx' := From(w, end).rx, From(Next(w, m), end).rx;
            if m.byInitiator == end then StartsOk(rx, rx', m.act, id) else rx' == rx
  {
    hide Inv, Step, StartsOk;
    InvSymmetric(w.initiator, w.responder);
    StepStarts(From(w, m.byInitiator), From(w, !m.byInitiator), m.act, id);
  }

  lemma MadeLater(moves: seq<Move>, m: Move, k: nat, end: bool, id: Id, n: nat)
    requires MadeAt(moves, k, end, id, n)
    requires var rx := From(Run(moves + [m]), end).rx; id in rx.chans && rx.chans[id].since == n
    ensures MadeAt(moves + [m], k, end, id, n)
  {
    hide Run;
    var all := moves + [m];
    forall j | 0 <= j <= |moves| ensures all[..j] == moves[..j] {}
    assert all[..|all|] == all;
  }

  lemma MadeNow(moves: seq<Move>, m: Move, end: bool, id: Id)
    requires m.byInitiator == end
    requires var rx, rx' := From(Run(moves), end).rx, From(Run(moves + [m]), end).rx;
             StartsOk(rx, rx', m.act, id) && id !in rx.chans && id in rx'.chans
    ensures MadeAt(moves + [m], |moves|, end, id, From(Run(moves + [m]), end).rx.chans[id].since)
  {
    hide Run;
    var all := moves + [m];
    assert all[..|moves|] == moves && all[..|all|] == all;
  }

  /** In every run a channel's `since` is the number of chunks of its stream that the read task had
      handled, and dropped, when the channel was inserted; it never changes afterwards.  An open message
      handled by the read task itself loses nothing. */
  lemma {:induction false} SinceIsDropped(moves: seq<Move>, end: bool, id: Id)
    requires WithinIds(Run(moves)) && id in From(Run(moves), end).rx.chans
    ensures exists k :: MadeAt(moves, k, end, id, From(Run(moves), end).rx.chans[id].since)
    decreases |moves|
  {
    assert moves != [];
    hide Inv, Step, MadeAt, Run;
    var n := |moves| - 1;
    var init, m := moves[..n], moves[n];
    var w, since := Run(init), From(Run(moves), end).rx.chans[id].since;
    RunMore(init, m);
    assert moves == init + [m];
    OpensGrow(w.initiator, w.responder, m.act);
    OpensGrow(w.responder, w.initiator, m.act);
    RunInv(init);
    NextStarts(w, m, end, id);
    if id in From(w, end).rx.chans {
      SinceIsDropped(init, end, id);
      var k :| MadeAt(init, k, end, id, since);
      MadeLater(init, m, k, end, id, since);
    } else {
      MadeNow(init, m, end, id);
    }
  }

  // ---------- the stall ----------

  /** The data message in the read task's hands, if that is what it has. */
  function InHand(e: Endpoint): Option<Msg> {
    match DecodeFrame(e.rx.rbuf)
    case Complete(f, _) => W.FromFrame(f)
    case _ => None
  }

  /** The read task holds the table and waits for room in the channel of stream `id`. */
  predicate WaitsOn(e: Endpoint, id: Id) {
    e.rx.held && e.rx.mode == Running && InHand(e).Some? && InHand(e).value.id == id && Blocked(e.rx, InHand(e).value)
  }

  /** Nothing has been delivered, dropped, opened or closed on any stream. */
  predicate Frozen(rx: Receiver, rx': Receiver) {
    && rx'.rbuf == rx.rbuf && rx'.arrived == rx.arrived && rx'.table == rx.table && rx'.seen == rx.seen
    && rx'.chans.Keys == rx.chans.Keys
    && forall x :: x in rx.chans ==> rx'.chans[x].pushed == rx.chans[x].pushed
  }

  predicate Drains(a: Action, id: Id) { a == Receive(id) || a == DropReceiver(id) }

  lemma StallStep(e: Endpoint, q: Endpoint, a: Action, id: Id)
    requires WaitsOn(e, id) && !Drains(a, id)
    ensures WaitsOn(Step(e, q, a).0, id) && Frozen(e.rx, Step(e, q, a).0.rx)
  {
    if a.Dispatch? || a.ReadByte? {
      hide DecodeFrame, W.FromFrame, Handle, Detect, Blocked, LocalStep;
      assert Step(e, q, a).0.rx == e.rx;
    } else {
      hide Step;
      StallLocal(e, a, id);
      LocalOnly(e, q, a);
    }
  }

  lemma LocalOnly(e: Endpoint, q: Endpoint, a: Action)
    requires !a.Dispatch? && !a.ReadByte?
    ensures Step(e, q, a) == (LocalStep(e, a), q)
  {
    hide LocalStep;
  }

  lemma StallLocal(e: Endpoint, a: Action, id: Id)
    requires WaitsOn(e, id) && !Drains(a, id)
    ensures WaitsOn(LocalStep(e, a), id) && Frozen(e.rx, LocalStep(e, a).rx)
  {
    hide DecodeFrame, W.FromFrame, W.TaskStep, W.FlushStep, W.FailStep, NthId, W.Enqueue, Appended;
  }

  lemma PeerStep(e: Endpoint, q: Endpoint, a: Action)
    ensures Step(e, q, a).1.rx == q.rx
  {
    hide DecodeFrame, W.FromFrame, LocalStep, Handle, Detect, Blocked;
  }

  lemma WaitsSame(e: Endpoint, e': Endpoint, id: Id)
    requires WaitsOn(e, id) && e'.rx == e.rx
    ensures WaitsOn(e', id) && Frozen(e.rx, e'.rx)
  {
    hide DecodeFrame, W.FromFrame;
  }

  lemma StallNext(w: World, m: Move, end: bool, id: Id)
    requires WaitsOn(From(w, end), id) && (m.byInitiator == end ==> !Drains(m.act, id))
    ensures WaitsOn(From(Next(w, m), end), id) && Frozen(From(w, end).rx, From(Next(w, m), end).rx)
  {
    hide Step, WaitsOn, Frozen;
    var e, q := From(w, m.byInitiator), From(w, !m.byInitiator);
    if m.byInitiator == end { StallStep(e, q, m.act, id); }
    else {
      PeerStep(e, q, m.act);
      WaitsSame(q, Step(e, q, m.act).1, id);
    }
  }

  lemma FrozenTrans(a: Receiver, b: Receiver, c: Receiver)
    requires Frozen(a, b) && Frozen(b, c)
    ensures Frozen(a, c)
  {
  }

  /** A stream whose full channel nobody drains stops everything: from then on, whatever both ends do, no
      chunk, open or close of any stream is acted upon until the application takes a chunk of that very
      stream or drops its receiver. */
  lemma {:induction false} OneFullStreamStopsAll(moves: seq<Move>, more: seq<Move>, end: bool, id: Id)
    requires WaitsOn(From(Run(moves), end), id)
    requires forall m :: m in more && m.byInitiator == end ==> !Drains(m.act, id)
    ensures WaitsOn(From(Run(moves + more), end), id)
    ensures Frozen(From(Run(moves), end).rx, From(Run(moves + more), end).rx)
    decreases |more|
  {
    hide WaitsOn, Next, Drains, Run;
    if more == [] {
      assert moves + more == moves;
    } else {
      hide Frozen;
      var n := |more| - 1;
      OneFullStreamStopsAll(moves, more[..n], end, id);
      assert moves + more == moves + more[..n] + [more[n]];
      var w := Run(moves + more[..n]);
      RunMore(moves + more[..n], more[n]);
      assert more[n] in more;
      StallNext(w, more[n], end, id);
      FrozenTrans(From(Run(moves), end).rx, From(w, end).rx, From(Next(w, more[n]), end).rx);
    }
  }

  /** Either of the two sets the read task going again: its next step hands over the chunk, or drops it
      when the receiver is gone, and lets go of the table. */
  lemma DrainingReleases(e: Endpoint, q: Endpoint, a: Action, id: Id)
    requires Inv(e, q) && WaitsOn(e, id) && Drains(a, id)
    ensures var e1 := Step(e, q, a).0;
            var e2 := Step(e1, q, Dispatch).0;
            && !e2.rx.held && Log(e2.rx.arrived, id) == Log(e.rx.arrived, id) + [InHand(e).value.chunk]
            && id in e2.rx.chans
            && (a.Receive? ==> e2.rx.chans[id].pushed == e.rx.chans[id].pushed + [InHand(e).value.chunk])
  {
    hide DecodeFrame, W.FromFrame, EndOk, DirOk;
    assert |e.rx.chans[id].pushed| <= e.rx.chans[id].popped + CHANNEL_CAPACITY by { KeepsChans(e, q); }
    var e1 := LocalStep(e, a);
    assert InHand(e1) == InHand(e) && !Blocked(e1.rx, InHand(e1).value);
  }

  /** The table is never held without a cause. */
  predicate HeldOk(e: Endpoint) {
    e.rx.held ==>
      && e.rx.mode == Running && InHand(e).Some? && InHand(e).value.Data?
      && InHand(e).value.id in e.rx.table && InHand(e).value.id in e.rx.chans
  }

  lemma HeldLocal(e: Endpoint, a: Action)
    requires HeldOk(e)
    ensures HeldOk(LocalStep(e, a))
  {
    hide DecodeFrame, W.FromFrame, W.TaskStep, W.FlushStep, W.FailStep, NthId;
  }

  lemma HeldDispatch(e: Endpoint, q: Endpoint)
    requires HeldOk(e)
    ensures HeldOk(DispatchStep(e, q).0)
  {
    hide DecodeFrame, W.FromFrame, Handle, Detect;
    var d := DecodeFrame(e.rx.rbuf);
    if d.Complete? && Consumes(e.rx, d.value) { ActedLetsGo(e, d.value, d.rest); }
  }

  lemma ActedLetsGo(e: Endpoint, f: Frame, rest: seq<byte>)
    requires Consumes(e.rx, f)
    ensures !Acted(e, f, rest).rx.held
  {
    hide W.FromFrame, Blocked;
  }

  lemma HeldStep(e: Endpoint, q: Endpoint, a: Action)
    requires HeldOk(e) && HeldOk(q)
    ensures HeldOk(Step(e, q, a).0) && HeldOk(Step(e, q, a).1)
  {
    PeerStep(e, q, a);
    HeldSame(q, Step(e, q, a).1);
    hide DecodeFrame, W.FromFrame, DispatchStep, LocalStep;
    if a.Dispatch? { HeldDispatch(e, q); }
    else if !a.ReadByte? { HeldLocal(e, a); }
  }

  lemma HeldSame(q: Endpoint, q': Endpoint)
    requires HeldOk(q) && q'.rx == q.rx
    ensures HeldOk(q')
  {
    hide DecodeFrame, W.FromFrame;
  }

  /** In every run, an end whose read task holds the table waits on a stream that is full, or can go on
      with its next step. */
  lemma {:induction false} HeldMeansFull(moves: seq<Move>, end: bool)
    ensures HeldOk(Run(moves).initiator) && HeldOk(Run(moves).responder)
    ensures var e := From(Run(moves), end);
            e.rx.held ==> InHand(e).Some? && (WaitsOn(e, InHand(e).value.id) || !Blocked(e.rx, InHand(e).value))
  {
    hide Step;
    if moves != [] {
      hide HeldOk, Blocked, InHand;
      HeldMeansFull(moves[..|moves| - 1], end);
      var w, m := Run(moves[..|moves| - 1]), moves[|moves| - 1];
      if m.byInitiator { HeldStep(w.initiator, w.responder, m.act); }
      else { HeldStep(w.responder, w.initiator, m.act); }
    }
    HeldCause(From(Run(moves), end));
  }

  lemma HeldCause(e: Endpoint)
    requires HeldOk(e)
    ensures e.rx.held ==> InHand(e).Some? && (WaitsOn(e, InHand(e).value.id) || !Blocked(e.rx, InHand(e).value))
  {
    hide DecodeFrame, W.FromFrame;
  }
}
