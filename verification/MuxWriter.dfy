/** The write side of one multiplexed connection: two class queues and the priority write task. */
module MuxWriter {
  import opened Bytes
  import opened Protocol

  const ID_RANGE: nat := 0x1_0000_0000

  type Id = x: int | 0 <= x < ID_RANGE
  type Chunk = seq<byte>

  datatype StreamClass = Control | Meta | Bulk

  function ClassByte(c: StreamClass): byte {
    match c case Control => 0x01 case Meta => 0x02 case Bulk => 0x03
  }

  /** Unknown class bytes read as `Control`. */
  function ClassOf(b: byte): StreamClass {
    if b == 0x02 then Meta else if b == 0x03 then Bulk else Control
  }

  predicate High(c: StreamClass) { c != Bulk }

  /** The three kinds of item the connection writes. */
  datatype Msg = Open(id: Id, cls: StreamClass) | Data(id: Id, chunk: Chunk) | Close(id: Id)

  function ToFrame(m: Msg): Frame {
    match m
    case Open(id, c) => Frame(StreamOpen, BigEndian(id, 4) + [ClassByte(c)])
    case Data(id, chunk) => Frame(StreamData, BigEndian(id, 4) + chunk)
    case Close(id) => Frame(StreamClose, BigEndian(id, 4))
  }

  function IdOf(p: seq<byte>): Id
    requires |p| >= 4
  {
    BigEndianRange(p[..4]);
    Ranges();
    FromBigEndian(p[..4])
  }

  /** What the read task makes of a frame; `None` is a frame it skips. */
  function FromFrame(f: Frame): Option<Msg> {
    match f.kind
    case StreamOpen => if |f.payload| < 5 then None else Some(Open(IdOf(f.payload), ClassOf(f.payload[4])))
    case StreamData => if |f.payload| < 4 then None else Some(Data(IdOf(f.payload), f.payload[4..]))
    case StreamClose => if |f.payload| < 4 then None else Some(Close(IdOf(f.payload)))
    case _ => None
  }

  /** Both ends agree on the stream, its class (and so its queue) and the data of every item. */
  lemma MsgRoundTrip(m: Msg)
    ensures FromFrame(ToFrame(m)) == Some(m)
  {
    hide BigEndian, FromBigEndian, Range;
    var p := ToFrame(m).payload;
    assert p[..4] == BigEndian(m.id, 4);
    Ranges();
    BigEndianRoundTrip(m.id, 4);
    if m.Data? { assert p[4..] == m.chunk; }
  }

  /** Stream ids take four bytes, most significant first; an open adds its class. */
  lemma MsgLayout(m: Msg)
    ensures var p := ToFrame(m).payload;
            && |p| >= 4 && p[..4] == BigEndian(m.id, 4)
            && match m
               case Open(_, c) =>
                 && TypeByte(ToFrame(m).kind) == 0x40
                 && p[4..] == [match c case Control => 0x01 case Meta => 0x02 case Bulk => 0x03]
               case Data(_, chunk) => TypeByte(ToFrame(m).kind) == 0x41 && p[4..] == chunk
               case Close(_) => TypeByte(ToFrame(m).kind) == 0x42 && p[4..] == []
  {
    hide BigEndian;
  }

  /** Frames of other kinds and frames too short for their fields are skipped; a class byte that is not
      assigned reads as control. */
  lemma SkippedFrames(f: Frame)
    ensures FromFrame(f).None? <==> match f.kind
                                    case StreamOpen => |f.payload| < 5
                                    case StreamData => |f.payload| < 4
                                    case StreamClose => |f.payload| < 4
                                    case _ => true
    ensures f.kind == StreamOpen && |f.payload| >= 5 && f.payload[4] !in {0x02, 0x03} ==>
              FromFrame(f).value.cls == Control
  {
  }

  // ---------- the write task ----------

  datatype StopReason = ControlClosed | BulkClosed | WriteError

  /** Where the write task stands: in the non-blocking drain loop, about to poll the control arm of
      the biased select, or about to poll its bulk arm after the control arm was found empty. */
  datatype Phase = Drain | SelectControl | SelectBulk | Stopped(why: StopReason)

  datatype Item = Item(high: bool, msg: Msg)

  /** `out` holds the bytes of the frame being written that the transport has not taken yet, `wire`
      those the peer has not read yet.  The fields from `flight` on record history and steer nothing:
      frames begun but not yet read by the peer, every item accepted by each queue, every item taken,
      and the length of `ctrlLog` when the control arm was last found empty. */
  datatype Sender = Sender(
    ctrlQ: seq<Msg>, bulkQ: seq<Msg>, phase: Phase, dropped: bool, out: seq<byte>, wire: seq<byte>,
    flight: seq<Msg>, ctrlLog: seq<Msg>, bulkLog: seq<Msg>, trace: seq<Item>, polled: nat)

  const Fresh: Sender := Sender([], [], Drain, false, [], [], [], [], [], [], 0)

  datatype Action = Put(high: bool, msg: Msg) | Task | Flush(n: nat) | Fail | DropHandle

  /** `enqueue`; it fails once the write task has gone. */
  function Enqueue(t: Sender, high: bool, m: Msg): Sender {
    if t.phase.Stopped? then t
    else if high then t.(ctrlQ := t.ctrlQ + [m], ctrlLog := t.ctrlLog + [m])
    else t.(bulkQ := t.bulkQ + [m], bulkLog := t.bulkLog + [m])
  }

  function Begin(t: Sender, high: bool, m: Msg): Sender {
    t.(phase := Drain, out := EncodeFrame(ToFrame(m)), flight := t.flight + [m], trace := t.trace + [Item(high, m)])
  }

  function TakeControl(t: Sender): Sender
    requires t.ctrlQ != []
  {
    Begin(t, true, t.ctrlQ[0]).(ctrlQ := t.ctrlQ[1..])
  }

  function TakeBulk(t: Sender): Sender
    requires t.bulkQ != []
  {
    Begin(t, false, t.bulkQ[0]).(bulkQ := t.bulkQ[1..])
  }

  /** One poll of one queue; nothing happens while a frame is still being written. */
  function TaskStep(t: Sender): Sender {
    if t.out != [] then t
    else
      match t.phase
      case Stopped(_) => t
      case Drain => if t.ctrlQ != [] then TakeControl(t) else t.(phase := SelectControl)
      case SelectControl =>
        if t.ctrlQ != [] then TakeControl(t)
        else if t.dropped then t.(phase := Stopped(ControlClosed), polled := |t.ctrlLog|)
        else t.(phase := SelectBulk, polled := |t.ctrlLog|)
      case SelectBulk =>
        if t.bulkQ != [] then TakeBulk(t)
        else if t.dropped then t.(phase := Stopped(BulkClosed))
        else t.(phase := SelectControl)
  }

  function Min(a: nat, b: nat): nat { if a < b then a else b }

  function FlushStep(t: Sender, n: nat): Sender {
    var k := Min(n, |t.out|);
    t.(out := t.out[k..], wire := t.wire + t.out[..k])
  }

  function FailStep(t: Sender): Sender {
    if t.phase.Stopped? then t else t.(phase := Stopped(WriteError), out := [])
  }

  /** Once the last handle is dropped nothing more is enqueued. */
  function Act(t: Sender, a: Action): Sender {
    match a
    case Put(high, m) => if t.dropped then t else Enqueue(t, high, m)
    case Task => TaskStep(t)
    case Flush(n) => FlushStep(t, n)
    case Fail => FailStep(t)
    case DropHandle => t.(dropped := true)
  }

  function Run(t: Sender, acts: seq<Action>): Sender
    decreases acts
  {
    if acts == [] then t else Run(Act(t, acts[0]), acts[1..])
  }

  function Taken(trace: seq<Item>, high: bool): seq<Msg> {
    if trace == [] then []
    else
      var n := |trace| - 1;
      Taken(trace[..n], high) + if trace[n].high == high then [trace[n].msg] else []
  }

  // ---------- invariants ----------

  ghost predicate Scheduled(t: Sender) {
    && t.ctrlLog == Taken(t.trace, true) + t.ctrlQ
    && t.bulkLog == Taken(t.trace, false) + t.bulkQ
    && t.polled <= |t.ctrlLog|
    && (t.phase == SelectBulk || t.phase == Stopped(BulkClosed) ==> t.ctrlQ == t.ctrlLog[t.polled..])
    && (t.phase == Stopped(BulkClosed) ==> t.bulkQ == [])
    && (t.phase == Stopped(ControlClosed) ==> t.ctrlQ == [] && t.polled == |t.ctrlLog|)
    && (t.phase != Drain ==> t.out == [])
  }

  lemma TakenAppend(trace: seq<Item>, i: Item, high: bool)
    ensures Taken(trace + [i], high) == Taken(trace, high) + if i.high == high then [i.msg] else []
  {
    assert (trace + [i])[..|trace|] == trace;
  }

  lemma TakeControlScheduled(t: Sender)
    requires Scheduled(t) && t.ctrlQ != []
    ensures Scheduled(TakeControl(t))
  {
    hide EncodeFrame, ToFrame, Taken;
    TakenAppend(t.trace, Item(true, t.ctrlQ[0]), true);
    TakenAppend(t.trace, Item(true, t.ctrlQ[0]), false);
    assert t.ctrlQ == [t.ctrlQ[0]] + t.ctrlQ[1..];
  }

  lemma TakeBulkScheduled(t: Sender)
    requires Scheduled(t) && t.bulkQ != []
    ensures Scheduled(TakeBulk(t))
  {
    hide EncodeFrame, ToFrame, Taken;
    TakenAppend(t.trace, Item(false, t.bulkQ[0]), true);
    TakenAppend(t.trace, Item(false, t.bulkQ[0]), false);
    assert t.bulkQ == [t.bulkQ[0]] + t.bulkQ[1..];
  }

  lemma ActKeepsSchedule(t: Sender, a: Action)
    requires Scheduled(t)
    ensures Scheduled(Act(t, a))
  {
    hide EncodeFrame, ToFrame, Taken, TakeControl, TakeBulk;
    match a
    case Put(high, m) =>
      if high { assert t.phase == SelectBulk ==> (t.ctrlLog + [m])[t.polled..] == t.ctrlLog[t.polled..] + [m]; }
    case Task =>
      if t.ctrlQ != [] { TakeControlScheduled(t); }
      if t.bulkQ != [] { TakeBulkScheduled(t); }
    case Flush(n) =>
    case Fail =>
    case DropHandle =>
  }

  lemma {:induction false} RunKeepsSchedule(t: Sender, acts: seq<Action>)
    requires Scheduled(t)
    ensures Scheduled(Run(t, acts))
    decreases acts
  {
    hide Scheduled, Act;
    if acts != [] {
      ActKeepsSchedule(t, acts[0]);
      RunKeepsSchedule(Act(t, acts[0]), acts[1..]);
    }
  }

  lemma FreshScheduled()
    ensures Scheduled(Fresh)
  {
  }

  // ---------- the write task gets on ----------

  /** One poll, by where the task stands. */
  lemma PollDoes(t: Sender)
    requires t.out == []
    ensures var u := Act(t, Task);
            && u.wire == t.wire && u.ctrlLog == t.ctrlLog && u.bulkLog == t.bulkLog && u.dropped == t.dropped
            && (t.phase.Stopped? ==> u == t)
            && (t.phase in {Drain, SelectControl} && t.ctrlQ != [] ==>
                  && u.trace == t.trace + [Item(true, t.ctrlQ[0])] && u.ctrlQ == t.ctrlQ[1..] && u.bulkQ == t.bulkQ
                  && u.out == EncodeFrame(ToFrame(t.ctrlQ[0])) && u.flight == t.flight + [t.ctrlQ[0]]
                  && u.phase == Drain)
            && (t.phase == Drain && t.ctrlQ == [] ==> u == t.(phase := SelectControl))
            && (t.phase == SelectControl && t.ctrlQ == [] ==>
                  u == t.(phase := if t.dropped then Stopped(ControlClosed) else SelectBulk, polled := |t.ctrlLog|))
            && (t.phase == SelectBulk && t.bulkQ != [] ==>
                  && u.trace == t.trace + [Item(false, t.bulkQ[0])] && u.bulkQ == t.bulkQ[1..] && u.ctrlQ == t.ctrlQ
                  && u.out == EncodeFrame(ToFrame(t.bulkQ[0])) && u.flight == t.flight + [t.bulkQ[0]]
                  && u.phase == Drain)
            && (t.phase == SelectBulk && t.bulkQ == [] ==>
                  u == t.(phase := if t.dropped then Stopped(BulkClosed) else SelectControl))
  {
    hide EncodeFrame, ToFrame;
  }

  /** While a frame is being written the task does nothing else. */
  lemma BusyWaits(t: Sender)
    requires t.out != []
    ensures Act(t, Task) == t
  {
    hide EncodeFrame, ToFrame;
  }

  /** The transport takes the bytes of a frame in order. */
  lemma FlushDoes(t: Sender, n: nat)
    ensures var u, k := Act(t, Flush(n)), if n < |t.out| then n else |t.out|;
            && u == t.(wire := t.wire + t.out[..k], out := u.out)
            && t.out[..k] + u.out == t.out && |u.out| == |t.out| - k
  {
    hide TaskStep, FailStep, Enqueue;
  }

  /** A write error ends the task, and what is left of the frame is lost. */
  lemma FailDoes(t: Sender)
    ensures Act(t, Fail) == if t.phase.Stopped? then t else t.(phase := Stopped(WriteError), out := [])
  {
    hide TaskStep, FlushStep, Enqueue;
  }

  function Polls(t: Sender, k: nat): Sender
    decreases k
  {
    if k == 0 then t else Polls(Act(t, Task), k - 1)
  }

  /** Unless the last handle is gone, an idle task with something queued takes an item within three polls. */
  lemma TaskTakes(t: Sender) returns (k: nat)
    requires t.out == [] && !t.phase.Stopped? && !t.dropped && (t.ctrlQ != [] || t.bulkQ != [])
    ensures k <= 3
    ensures var u := Polls(t, k);
            && !u.phase.Stopped? && !u.dropped && u.wire == t.wire
            && u.ctrlLog == t.ctrlLog && u.bulkLog == t.bulkLog
            && |u.trace| == |t.trace| + 1 && |u.ctrlQ| + |u.bulkQ| == |t.ctrlQ| + |t.bulkQ| - 1
            && ((t.ctrlQ != [] && u.flight == t.flight + [t.ctrlQ[0]] && u.ctrlQ == t.ctrlQ[1..] && u.bulkQ == t.bulkQ)
                || (t.bulkQ != [] && u.flight == t.flight + [t.bulkQ[0]] && u.ctrlQ == t.ctrlQ
                    && u.bulkQ == t.bulkQ[1..]))
  {
    hide Act, EncodeFrame, ToFrame;
    var t1 := Act(t, Task);
    var t2 := Act(t1, Task);
    PollDoes(t);
    assert Polls(t1, 0) == t1 && Polls(t2, 0) == t2;
    assert Polls(t, 1) == t1 && Polls(t1, 1) == t2;
    assert Polls(t, 2) == t2;
    if |t1.trace| > |t.trace| { return 1; }
    PollDoes(t1);
    if |t2.trace| > |t.trace| { return 2; }
    PollDoes(t2);
    assert Polls(t2, 1) == Act(t2, Task) by { assert Polls(Act(t2, Task), 0) == Act(t2, Task); }
    assert Polls(t, 3) == Polls(t1, 2) == Polls(t2, 1);
    return 3;
  }

  // ---------- what the scheduler promises ----------

  /** In every run the items taken for the wire interleave a prefix of each queue's accepted items,
      each queue in its own order and nothing else. */
  lemma WireInterleaves(acts: seq<Action>)
    ensures var t := Run(Fresh, acts);
            && |Taken(t.trace, true)| + |Taken(t.trace, false)| == |t.trace|
            && Taken(t.trace, true) <= t.ctrlLog && t.ctrlLog[|Taken(t.trace, true)|..] == t.ctrlQ
            && Taken(t.trace, false) <= t.bulkLog && t.bulkLog[|Taken(t.trace, false)|..] == t.bulkQ
  {
    FreshScheduled();
    RunKeepsSchedule(Fresh, acts);
    TakenCounts(Run(Fresh, acts).trace);
  }

  lemma {:induction false} TakenCounts(trace: seq<Item>)
    ensures |Taken(trace, true)| + |Taken(trace, false)| == |trace|
  {
    if trace != [] { TakenCounts(trace[..|trace| - 1]); }
  }

  /** A bulk frame is on its way out: begun and not yet handed over in full. */
  predicate WritingBulk(t: Sender) { t.out != [] && t.trace != [] && !t.trace[|t.trace| - 1].high }

  function BulkBegun(t: Sender): nat { |Taken(t.trace, false)| }

  function Credit(t: Sender): nat { if t.phase == SelectBulk then 1 else 0 }

  /** Frame `p` of the control log has not been taken. */
  predicate Waiting(t: Sender, p: nat) { |Taken(t.trace, true)| <= p < |t.ctrlLog| }

  lemma ActSpendsCredit(t: Sender, a: Action, p: nat)
    requires Scheduled(t) && Waiting(t, p)
    ensures BulkBegun(Act(t, a)) + Credit(Act(t, a)) <= BulkBegun(t) + Credit(t)
  {
    hide EncodeFrame, ToFrame, Taken;
    if a.Task? {
      assert t.ctrlQ != [];
      TakenAppend(t.trace, Item(true, t.ctrlQ[0]), false);
      if t.bulkQ != [] { TakenAppend(t.trace, Item(false, t.bulkQ[0]), false); }
    }
  }

  lemma TraceGrows(t: Sender, a: Action, high: bool)
    ensures |Taken(Act(t, a).trace, high)| >= |Taken(t.trace, high)|
  {
    hide EncodeFrame, ToFrame, Taken;
    if t.ctrlQ != [] { TakenAppend(t.trace, Item(true, t.ctrlQ[0]), high); }
    if t.bulkQ != [] { TakenAppend(t.trace, Item(false, t.bulkQ[0]), high); }
  }

  lemma {:induction false} RunTraceGrows(t: Sender, acts: seq<Action>)
    ensures |Taken(Run(t, acts).trace, true)| >= |Taken(t.trace, true)|
    decreases acts
  {
    hide Act, Taken;
    if acts != [] {
      TraceGrows(t, acts[0], true);
      RunTraceGrows(Act(t, acts[0]), acts[1..]);
    }
  }

  lemma LogGrows(t: Sender, a: Action)
    ensures t.ctrlLog <= Act(t, a).ctrlLog
  {
  }

  lemma {:induction false} RunLogGrows(t: Sender, acts: seq<Action>)
    ensures t.ctrlLog <= Run(t, acts).ctrlLog
    decreases acts
  {
    hide Act;
    if acts != [] {
      LogGrows(t, acts[0]);
      RunLogGrows(Act(t, acts[0]), acts[1..]);
    }
  }

  lemma {:induction false} RunSpendsCredit(t: Sender, acts: seq<Action>, p: nat)
    requires Scheduled(t) && Waiting(t, p) && Waiting(Run(t, acts), p)
    ensures BulkBegun(Run(t, acts)) + Credit(Run(t, acts)) <= BulkBegun(t) + Credit(t)
    decreases acts
  {
    hide Act, Scheduled, Taken, BulkBegun, Credit;
    if acts != [] {
      ActKeepsSchedule(t, acts[0]);
      ActSpendsCredit(t, acts[0], p);
      TraceGrows(t, acts[0], true);
      LogGrows(t, acts[0]);
      RunTraceGrows(Act(t, acts[0]), acts[1..]);
      RunSpendsCredit(Act(t, acts[0]), acts[1..], p);
    }
  }

  /** From the moment a control item is in its queue until it is taken, at most one bulk frame reaches
      the wire: the one being written at that moment, or else one the task was already about to take. */
  lemma AtMostOneBulkAhead(before: seq<Action>, p: nat, after: seq<Action>)
    requires Waiting(Run(Fresh, before), p)
    requires Waiting(Run(Run(Fresh, before), after), p)
    ensures var s := Run(Fresh, before);
            BulkBegun(Run(s, after)) - BulkBegun(s) + (if WritingBulk(s) then 1 else 0) <= 1
  {
    FreshScheduled();
    RunKeepsSchedule(Fresh, before);
    RunSpendsCredit(Run(Fresh, before), after, p);
  }

  /** When the task ends without a write error, the control items it leaves behind are exactly those
      accepted after its last look at the control queue; so none is lost if and only if none was
      accepted after that look.  Whatever it has taken is written in full. */
  lemma ShutdownLeaves(acts: seq<Action>)
    ensures var t := Run(Fresh, acts);
            t.phase.Stopped? && t.phase.why != WriteError ==>
              && t.polled <= |t.ctrlLog| && t.ctrlQ == t.ctrlLog[t.polled..]
              && (Taken(t.trace, true) == t.ctrlLog <==> t.polled == |t.ctrlLog|)
              && (t.phase.why == BulkClosed ==> t.bulkQ == []) && t.out == []
  {
    FreshScheduled();
    RunKeepsSchedule(Fresh, acts);
  }

  /** Such a loss is reachable: a control item put between the two polls of one select, and then the
      last handle dropped, is never written. */
  lemma ControlItemLost(m: Msg)
    ensures var t := Run(Fresh, [Task, Task, Put(true, m), DropHandle, Task]);
            t.phase == Stopped(BulkClosed) && t.ctrlQ == [m] && t.trace == []
  {
    var t1 := Act(Fresh, Task);
    var t2 := Act(t1, Task);
    assert t2.phase == SelectBulk;
    var t3 := Act(t2, Put(true, m));
    var t4 := Act(t3, DropHandle);
    var t5 := Act(t4, Task);
    assert Run(t4, [Task]) == Run(t5, []) == t5 by { assert [Task][1..] == []; }
    assert Run(t3, [DropHandle, Task]) == t5 by { assert [DropHandle, Task][1..] == [Task]; }
    assert Run(t2, [Put(true, m), DropHandle, Task]) == t5
    by { assert [Put(true, m), DropHandle, Task][1..] == [DropHandle, Task]; }
    assert Run(t1, [Task, Put(true, m), DropHandle, Task]) == t5
    by { assert [Task, Put(true, m), DropHandle, Task][1..] == [Put(true, m), DropHandle, Task]; }
    assert [Task, Task, Put(true, m), DropHandle, Task][1..] == [Task, Put(true, m), DropHandle, Task];
  }

  /** A task that ends on its control arm does not look at the bulk queue again. */
  lemma BulkItemLost(m: Msg)
    ensures var t := Run(Fresh, [Put(false, m), DropHandle, Task, Task]);
            t.phase == Stopped(ControlClosed) && t.bulkQ == [m] && t.trace == []
  {
    var t1 := Act(Fresh, Put(false, m));
    var t2 := Act(t1, DropHandle);
    var t3 := Act(t2, Task);
    assert t3.phase == SelectControl;
    var t4 := Act(t3, Task);
    assert Run(t3, [Task]) == Run(t4, []) == t4 by { assert [Task][1..] == []; }
    assert Run(t2, [Task, Task]) == t4 by { assert [Task, Task][1..] == [Task]; }
    assert Run(t1, [DropHandle, Task, Task]) == t4 by { assert [DropHandle, Task, Task][1..] == [Task, Task]; }
    assert [Put(false, m), DropHandle, Task, Task][1..] == [DropHandle, Task, Task];
  }

  lemma {:induction false} RunThen(t: Sender, acts: seq<Action>, more: seq<Action>)
    ensures Run(t, acts + more) == Run(Run(t, acts), more)
    decreases acts
  {
    hide Act;
    if acts == [] { assert acts + more == more; }
    else {
      assert (acts + more)[1..] == acts[1..] + more && (acts + more)[0] == acts[0];
      RunThen(Act(t, acts[0]), acts[1..], more);
    }
  }
}
