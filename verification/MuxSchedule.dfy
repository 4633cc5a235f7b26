/** The write side of each end of a connection is a run of the write task, so what the scheduler promises
    holds in every run of the whole system. */
module MuxSchedule {
  import opened Bytes
  import opened Protocol
  import W = MuxWriter
  import opened MuxSystem
  import opened MuxTheorems

  /** Equal up to what the peer has read: the bytes in transit and the messages under way. */
  predicate Alike(t: W.Sender, u: W.Sender) { t == u.(wire := t.wire, flight := t.flight) }

  lemma ActAlike(t: W.Sender, u: W.Sender, a: W.Action)
    requires Alike(t, u)
    ensures Alike(W.Act(t, a), W.Act(u, a))
  {
    hide EncodeFrame, W.ToFrame;
  }

  /** What a step of the system is for the write side of the end that makes it. */
  function Calls(e: Endpoint, a: Action): seq<W.Action> {
    match a
    case EnqueueOpen(id) =>
      if Live(e) && At(e, id, Reserved) then [W.Put(W.High(e.regs[id].cls), W.Open(id, e.regs[id].cls))] else []
    case Send(id, chunk) =>
      if Live(e) && At(e, id, Ready) && Small(W.Data(id, chunk))
      then [W.Put(W.High(e.regs[id].cls), W.Data(id, chunk))] else []
    case CloseEnqueue(id) =>
      if Live(e) && At(e, id, Ready) then [W.Put(W.High(e.regs[id].cls), W.Close(id))] else []
    case WriteTask => [W.Task]
    case Flush(n) => [W.Flush(n)]
    case WriteFail => [W.Fail]
    case DropHandle => [W.DropHandle]
    case _ => []
  }

  lemma LocalCalls(e: Endpoint, a: Action)
    ensures LocalStep(e, a).tx == if Calls(e, a) == [] then e.tx else W.Act(e.tx, Calls(e, a)[0])
  {
    hide W.TaskStep, W.FlushStep, W.FailStep, NthId, Channelled, Appended;
  }

  lemma ReadsAlike(e: Endpoint, q: Endpoint, a: Action)
    ensures Step(e, q, a).0.tx == if a.Dispatch? || a.ReadByte? then e.tx else LocalStep(e, a).tx
    ensures Alike(Step(e, q, a).1.tx, q.tx)
  {
    hide DecodeFrame, W.FromFrame, LocalStep, Channelled, Deliver, Blocked, Detected;
  }

  lemma OneCall(t: W.Sender, a: W.Action)
    ensures W.Run(t, [a]) == W.Act(t, a)
  {
    hide W.Act;
    assert [a][1..] == [];
    assert W.Run(W.Act(t, a), []) == W.Act(t, a);
  }

  lemma StepCalls(e: Endpoint, q: Endpoint, a: Action, u: W.Sender) returns (calls: seq<W.Action>)
    requires Alike(e.tx, u)
    ensures Alike(Step(e, q, a).0.tx, W.Run(u, calls))
  {
    hide Step, LocalStep, Calls, W.Act;
    ReadsAlike(e, q, a);
    LocalCalls(e, a);
    if a.Dispatch? || a.ReadByte? || Calls(e, a) == [] { calls := []; }
    else {
      calls := [Calls(e, a)[0]];
      ActAlike(e.tx, u, calls[0]);
      OneCall(u, calls[0]);
    }
  }

  lemma AlikeTrans(t: W.Sender, u: W.Sender, v: W.Sender)
    requires Alike(t, u) && Alike(u, v)
    ensures Alike(t, v)
  {
  }

  /** However a run goes on, the write side of either end goes on as a run of the write task. */
  lemma {:induction false} WriterGoesOn(moves: seq<Move>, more: seq<Move>, end: bool, u: W.Sender)
    returns (calls: seq<W.Action>)
    requires Alike(From(Run(moves), end).tx, u)
    ensures Alike(From(Run(moves + more), end).tx, W.Run(u, calls))
    decreases |more|
  {
    hide Alike, Step, Run, W.Act;
    if more == [] {
      assert moves + more == moves;
      calls := [];
    } else {
      var n := |more| - 1;
      calls := WriterGoesOn(moves, more[..n], end, u);
      var w, m := Run(moves + more[..n]), more[n];
      assert moves + more == moves + more[..n] + [m];
      RunMore(moves + more[..n], m);
      if m.byInitiator == end {
        var last := StepCalls(From(w, end), From(w, !end), m.act, W.Run(u, calls));
        W.RunThen(u, calls, last);
        calls := calls + last;
      } else {
        ReadsAlike(From(w, !end), From(w, end), m.act);
        AlikeTrans(From(Next(w, m), end).tx, From(w, end).tx, W.Run(u, calls));
      }
    }
  }

  lemma StartAlike(end: bool)
    ensures Alike(From(Run([]), end).tx, W.Fresh)
  {
  }

  /** In every run of the system the write side of either end is a run of the write task. */
  lemma WriterRuns(moves: seq<Move>, end: bool) returns (calls: seq<W.Action>)
    ensures Alike(From(Run(moves), end).tx, W.Run(W.Fresh, calls))
  {
    hide Run, Alike;
    StartAlike(end);
    assert [] + moves == moves;
    calls := WriterGoesOn([], moves, end, W.Fresh);
  }

  /** In every run of the system what either end has taken for the wire interleaves a prefix of each of its
      queues' accepted items, in order, and nothing else. */
  lemma SystemInterleaves(moves: seq<Move>, end: bool)
    ensures var t := From(Run(moves), end).tx;
            && |W.Taken(t.trace, true)| + |W.Taken(t.trace, false)| == |t.trace|
            && W.Taken(t.trace, true) <= t.ctrlLog && t.ctrlLog[|W.Taken(t.trace, true)|..] == t.ctrlQ
            && W.Taken(t.trace, false) <= t.bulkLog && t.bulkLog[|W.Taken(t.trace, false)|..] == t.bulkQ
  {
    hide Run, W.Run, W.Taken;
    var calls := WriterRuns(moves, end);
    W.WireInterleaves(calls);
  }

  /** From the moment a control item of either end is queued until it is taken, whatever both ends do, at
      most one bulk frame of that end reaches the wire, the one in flight included. */
  lemma SystemAtMostOneBulkAhead(moves: seq<Move>, more: seq<Move>, end: bool, p: nat)
    requires W.Waiting(From(Run(moves), end).tx, p) && W.Waiting(From(Run(moves + more), end).tx, p)
    ensures var s, t := From(Run(moves), end).tx, From(Run(moves + more), end).tx;
            W.BulkBegun(t) - W.BulkBegun(s) + (if W.WritingBulk(s) then 1 else 0) <= 1
  {
    hide Run, W.Run, W.Taken;
    var before := WriterRuns(moves, end);
    var after := WriterGoesOn(moves, more, end, W.Run(W.Fresh, before));
    W.AtMostOneBulkAhead(before, p, after);
  }

  /** When the write task of either end is over without a write error, the control items left behind are
      exactly those accepted after its last look at the control queue. */
  lemma SystemShutdownLeaves(moves: seq<Move>, end: bool)
    ensures var t := From(Run(moves), end).tx;
            t.phase.Stopped? && t.phase.why != W.WriteError ==>
              && t.polled <= |t.ctrlLog| && t.ctrlQ == t.ctrlLog[t.polled..] && t.out == []
              && (W.Taken(t.trace, true) == t.ctrlLog <==> t.polled == |t.ctrlLog|)
  {
    hide Run, W.Run, W.Taken;
    var calls := WriterRuns(moves, end);
    W.ShutdownLeaves(calls);
  }
}
