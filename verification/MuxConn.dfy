/** One end of a multiplexed connection as an object: each method is one atomic section of the daemon's
    code and makes exactly one step of the system, so calls on two objects make a run. */
module MuxConn {
  import opened Bytes
  import opened Protocol
  import W = MuxWriter
  import opened MuxSystem

  datatype MuxError = Disconnected | StreamNotFound

  // ---------- single steps, as values ----------

  lemma SendIs(e: Endpoint, id: W.Id, chunk: W.Chunk)
    ensures LocalStep(e, Send(id, chunk)) ==
            if Live(e) && At(e, id, Ready) && !e.tx.phase.Stopped? && Small(W.Data(id, chunk))
            then QueueOn(e, W.Data(id, chunk)).(sent := Appended(e.sent, id, chunk)) else e
  {
    hide W.Enqueue, Appended;
  }

  lemma CloseEnqueueIs(e: Endpoint, id: W.Id)
    ensures LocalStep(e, CloseEnqueue(id)) ==
            if Live(e) && At(e, id, Ready) then QueueOn(e, W.Close(id)).(closing := e.closing + {id}) else e
  {
    hide W.Enqueue;
  }

  lemma EnqueueOpenIs(e: Endpoint, id: W.Id)
    ensures LocalStep(e, EnqueueOpen(id)) ==
            if Live(e) && At(e, id, Reserved) && !e.tx.phase.Stopped?
            then QueueOn(e, W.Open(id, e.regs[id].cls)).(regs := e.regs[id := Reg(e.regs[id].cls, Enqueued)]) else e
  {
    hide W.Enqueue;
  }

  lemma TaskStepIs(e: Endpoint)
    ensures LocalStep(e, WriteTask) == e.(tx := W.TaskStep(e.tx))
  {
    hide W.TaskStep;
  }

  lemma Disabled(e: Endpoint, cls: W.StreamClass)
    requires !Live(e)
    ensures LocalStep(e, Reserve(cls)) == e
  {
  }

  lemma OpenIs(e: Endpoint, id: W.Id, cls: W.StreamClass)
    ensures Handle(e, W.Open(id, cls)) ==
            e.(rx := Channelled(e.rx, id).(seen := e.rx.seen + {id}), regs := e.regs[id := Reg(cls, Ready)])
  {
    hide Channelled;
  }

  class Connection {
    const start: W.Id
    // MuxConn
    var nextStreamId: W.Id
    var regs: map<W.Id, Reg>
    var closing: set<W.Id>
    var dropped: bool
    // write task
    var ctrlQ: seq<W.Msg>
    var bulkQ: seq<W.Msg>
    var phase: W.Phase
    var out: seq<byte>
    var wire: seq<byte>
    // read task and stream table
    var rbuf: seq<byte>
    var mode: Mode
    var first: Option<W.Msg>
    var table: set<W.Id>
    var chans: map<W.Id, Chan>
    var held: bool
    // history
    ghost var opens: nat
    ghost var sent: map<W.Id, seq<W.Chunk>>
    ghost var flight: seq<W.Msg>
    ghost var ctrlLog: seq<W.Msg>
    ghost var bulkLog: seq<W.Msg>
    ghost var trace: seq<W.Item>
    ghost var polled: nat
    ghost var seen: set<W.Id>
    ghost var firstId: Option<W.Id>
    var arrived: map<W.Id, seq<W.Chunk>>  // read only for `since`, which is history too

    /** The write side. */
    ghost function Tx(): W.Sender
      reads this`ctrlQ, this`bulkQ, this`phase, this`dropped, this`out, this`wire, this`flight, this`ctrlLog,
            this`bulkLog, this`trace, this`polled
    {
      W.Sender(ctrlQ, bulkQ, phase, dropped, out, wire, flight, ctrlLog, bulkLog, trace, polled)
    }

    /** The read side. */
    ghost function Rx(): Receiver
      reads this`rbuf, this`mode, this`first, this`table, this`chans, this`held, this`seen, this`firstId, this`arrived
    {
      Receiver(rbuf, mode, first, table, chans, held, seen, firstId, arrived)
    }

    ghost function View(): Endpoint reads this {
      Endpoint(start, opens, regs, closing, Tx(), Rx(), sent)
    }

    /** The counter holds the next id to hand out. */
    ghost predicate Valid() reads this { nextStreamId == NthId(start, opens) }

    constructor (start: W.Id, mode: Mode)
      ensures Valid() && View() == StartEnd(start, mode)
    {
      this.start := start;
      nextStreamId, regs, closing, dropped := start, map[], {}, false;
      ctrlQ, bulkQ, phase, out, wire := [], [], W.Drain, [], [];
      rbuf, this.mode, first, table, chans, held := [], mode, None, {}, map[], false;
      opens, sent, flight, ctrlLog, bulkLog, trace, polled := 0, map[], [], [], [], [], 0;
      seen, firstId, arrived := {}, None, map[];
    }

    /** `fetch_add(2)` on the 32-bit counter. */
    method ReserveId(cls: W.StreamClass) returns (id: W.Id)
      requires Valid() && Live(View())
      modifies this`nextStreamId, this`regs, this`opens
      ensures Valid() && View() == LocalStep(old(View()), Reserve(cls))
      ensures id == NthId(start, old(opens))
    {
      NthIdNext(start, opens);
      id := nextStreamId;
      nextStreamId := (nextStreamId + 2) % W.ID_RANGE;
      regs := regs[id := Reg(cls, Reserved)];
      opens := opens + 1;
    }

    method Enqueue(m: W.Msg) returns (r: Option<MuxError>)
      requires Valid() && m.id in regs
      modifies this`ctrlQ, this`bulkQ, this`ctrlLog, this`bulkLog
      ensures Valid() && Tx() == W.Enqueue(old(Tx()), W.High(regs[m.id].cls), m)
      ensures r == if phase.Stopped? then Some(Disconnected) else None
      ensures r.Some? ==> Tx() == old(Tx())
      ensures r.None? ==> match regs[m.id].cls
                          case Control => ctrlQ == old(ctrlQ) + [m] && bulkQ == old(bulkQ)
                          case Meta => ctrlQ == old(ctrlQ) + [m] && bulkQ == old(bulkQ)
                          case Bulk => bulkQ == old(bulkQ) + [m] && ctrlQ == old(ctrlQ)
    {
      hide NthId;
      if phase.Stopped? { return Some(Disconnected); }
      match regs[m.id].cls {
        case Bulk => bulkQ := bulkQ + [m]; bulkLog := bulkLog + [m];
        case _ => ctrlQ := ctrlQ + [m]; ctrlLog := ctrlLog + [m];
      }
      return None;
    }

    /** The whole of `open_stream` when nothing comes between its three sections.  While the read task holds
        the table the call is still `waiting` to insert its entry. */
    method OpenStream(cls: W.StreamClass) returns (id: W.Id, r: Option<MuxError>, waiting: bool)
      requires Valid() && Live(View())
      modifies this
      ensures Valid() && id == NthId(start, old(opens))
      ensures View() == LocalStep(LocalStep(LocalStep(old(View()), Reserve(cls)), EnqueueOpen(id)), InsertOwn(id))
      ensures r == if old(phase).Stopped? then Some(Disconnected) else None
      ensures waiting == (old(held) && r.None?)
    {
      id := ReserveId(cls);
      r := EnqueueOpenFrame(id);
      waiting := held && r.None?;
      InsertEntry(id);
    }

    method EnqueueOpenFrame(id: W.Id) returns (r: Option<MuxError>)
      requires Valid()
      modifies this
      ensures Valid() && View() == LocalStep(old(View()), EnqueueOpen(id))
      ensures old(Live(View()) && At(View(), id, Reserved)) ==>
                r == if old(phase).Stopped? then Some(Disconnected) else None
    {
      EnqueueOpenIs(View(), id);
      hide NthId, LocalStep, W.Enqueue, W.High;
      if dropped || mode == Detecting || id !in regs || regs[id].stage != Reserved { return Some(StreamNotFound); }
      var cls := regs[id].cls;
      ghost var e := View();
      r := Enqueue(W.Open(id, cls));
      assert View() == e.(tx := Tx());
      if r.None? { regs := regs[id := Reg(cls, Enqueued)]; }
    }

    method InsertEntry(id: W.Id)
      requires Valid()
      modifies this
      ensures Valid() && View() == LocalStep(old(View()), InsertOwn(id))
    {
      if !held && id in regs && regs[id].stage == Enqueued { MakeChannel(id, regs[id].cls); }
    }

    /** The task spawned for the first stream processes its open message. */
    method InsertFirstEntry()
      requires Valid()
      modifies this
      ensures Valid() && View() == LocalStep(old(View()), InsertFirst)
    {
      if held || first.None? { return; }
      var m := first.value;
      first := None;
      if m.Open? { MakeChannel(m.id, m.cls); }
    }

    /** A new channel of 64 chunks and the table entry for it. */
    method MakeChannel(id: W.Id, cls: W.StreamClass)
      requires Valid()
      modifies this`table, this`chans, this`regs
      ensures Valid() && Rx() == Channelled(old(Rx()), id) && regs == old(regs)[id := Reg(cls, Ready)]
    {
      hide NthId;
      table := table + {id};
      chans := chans[id := Chan(|Log(arrived, id)|, [], 0, true)];
      regs := regs[id := Reg(cls, Ready)];
    }

    /** Streams are used by the task that opened or accepted them, so an unknown one has no caller. */
    method SendData(id: W.Id, chunk: W.Chunk) returns (r: Option<MuxError>)
      requires Valid()
      modifies this
      ensures Valid() && View() == LocalStep(old(View()), Send(id, chunk))
      ensures old(Live(View()) && At(View(), id, Ready)) && Small(W.Data(id, chunk)) ==>
                r == if old(phase).Stopped? then Some(Disconnected) else None
    {
      SendIs(View(), id, chunk);
      hide NthId, LocalStep, W.Enqueue, W.High, Appended;
      if dropped || mode == Detecting || id !in regs || regs[id].stage != Ready { return Some(StreamNotFound); }
      if |chunk| + 4 >= 0x1_0000_0000 { return Some(StreamNotFound); }
      ghost var e := View();
      r := Enqueue(W.Data(id, chunk));
      assert View() == e.(tx := Tx());
      if r.None? { sent := Appended(sent, id, chunk); }
    }

    method EnqueueCloseFrame(id: W.Id)
      requires Valid()
      modifies this
      ensures Valid() && View() == LocalStep(old(View()), CloseEnqueue(id))
    {
      CloseEnqueueIs(View(), id);
      hide NthId, LocalStep, W.Enqueue, W.High;
      if dropped || mode == Detecting || id !in regs || regs[id].stage != Ready { return; }
      ghost var e := View();
      var _ := Enqueue(W.Close(id));
      assert View() == e.(tx := Tx());
      closing := closing + {id};
      assert View() == e.(tx := Tx(), closing := closing);
    }

    method RemoveEntry(id: W.Id)
      requires Valid()
      modifies this`table, this`closing
      ensures Valid() && View() == LocalStep(old(View()), CloseRemove(id))
      ensures id in closing ==> held
    {
      hide NthId;
      if held || id !in closing { return; }
      closing, table := closing - {id}, table - {id};
    }

    /** The whole of `close_stream` when nothing comes between its two sections; it waits likewise. */
    method CloseStream(id: W.Id) returns (waiting: bool)
      requires Valid()
      modifies this
      ensures Valid() && waiting == (id in closing)
      ensures View() == LocalStep(LocalStep(old(View()), CloseEnqueue(id)), CloseRemove(id))
      ensures waiting ==> held
    {
      hide LocalStep;
      EnqueueCloseFrame(id);
      RemoveEntry(id);
      waiting := id in closing;
    }

    /** The last handle goes. */
    method Drop()
      requires Valid()
      modifies this`dropped
      ensures Valid() && View() == LocalStep(old(View()), DropHandle)
    { dropped := true; }

    // ---------- the application's side of a stream ----------

    method ReceiveChunk(id: W.Id) returns (r: Option<W.Chunk>)
      requires Valid()
      modifies this`chans
      ensures Valid() && View() == LocalStep(old(View()), Receive(id))
      ensures id in old(chans) ==>
                var c := old(chans)[id];
                r == if c.rxOpen && c.popped < |c.pushed| then Some(c.pushed[c.popped]) else None
    {
      hide NthId;
      if id !in chans { return None; }
      var c := chans[id];
      if !c.rxOpen || c.popped >= |c.pushed| { return None; }
      chans := chans[id := c.(popped := c.popped + 1)];
      return Some(c.pushed[c.popped]);
    }

    method DropStream(id: W.Id)
      requires Valid()
      modifies this`chans
      ensures Valid() && View() == LocalStep(old(View()), DropReceiver(id))
    {
      hide NthId;
      if id in chans { chans := chans[id := chans[id].(rxOpen := false)]; }
    }

    // ---------- the write task ----------

    /** The transport accepts some of the bytes being written. */
    method FlushBytes(n: nat)
      requires Valid()
      modifies this`out, this`wire
      ensures Valid() && View() == LocalStep(old(View()), Flush(n))
    {
      hide NthId;
      var k := if n < |out| then n else |out|;
      wire, out := wire + out[..k], out[k..];
    }

    method FailWrite()
      requires Valid()
      modifies this`phase, this`out
      ensures Valid() && View() == LocalStep(old(View()), WriteFail)
    {
      hide NthId;
      if !phase.Stopped? { phase, out := W.Stopped(W.WriteError), []; }
    }

    /** One poll of the write task. */
    method PollWriteTask()
      requires Valid()
      modifies this`ctrlQ, this`bulkQ, this`phase, this`out, this`flight, this`trace, this`polled
      ensures Valid() && Tx() == W.TaskStep(old(Tx()))
    {
      hide EncodeFrame, W.ToFrame, NthId, W.TakeControl, W.TakeBulk;
      if out != [] { return; }
      match phase
      case Stopped(_) =>
      case Drain =>
        if ctrlQ != [] { TakeControlItem(); } else { phase := W.SelectControl; }
      case SelectControl =>
        if ctrlQ != [] { TakeControlItem(); }
        else {
          polled := |ctrlLog|;
          phase := if dropped then W.Stopped(W.ControlClosed) else W.SelectBulk;
        }
      case SelectBulk =>
        if bulkQ != [] {
          TakeBulkItem();
        } else {
          phase := if dropped then W.Stopped(W.BulkClosed) else W.SelectControl;
        }
    }

    method TakeBulkItem()
      requires Valid() && bulkQ != []
      modifies this`bulkQ, this`phase, this`out, this`flight, this`trace
      ensures Valid() && Tx() == W.TakeBulk(old(Tx()))
    {
      hide EncodeFrame, W.ToFrame, NthId;
      var m := bulkQ[0];
      bulkQ := bulkQ[1..];
      phase, out := W.Drain, EncodeFrame(W.ToFrame(m));
      flight, trace := flight + [m], trace + [W.Item(false, m)];
    }

    method TakeControlItem()
      requires Valid() && ctrlQ != []
      modifies this`ctrlQ, this`phase, this`out, this`flight, this`trace
      ensures Valid() && Tx() == W.TakeControl(old(Tx()))
    {
      hide EncodeFrame, W.ToFrame, NthId;
      var m := ctrlQ[0];
      ctrlQ := ctrlQ[1..];
      phase, out := W.Drain, EncodeFrame(W.ToFrame(m));
      flight, trace := flight + [m], trace + [W.Item(true, m)];
    }

    /** A chunk for a stream: pushed if its entry stands and its receiver is there, else dropped; when the
        channel is full the read task waits, holding the table, and nothing has happened yet. */
    method DeliverChunk(id: W.Id, chunk: W.Chunk, rest: seq<byte>) returns (acted: bool)
      requires Valid()
      modifies this`rbuf, this`chans, this`arrived, this`held
      ensures Valid() && acted == !Blocked(old(Rx()), W.Data(id, chunk))
      ensures Rx() == if acted then Deliver(old(Rx()).(rbuf := rest, held := false), id, chunk)
                      else old(Rx()).(held := true)
    {
      hide NthId;
      if id in table && id in chans && chans[id].rxOpen {
        var c := chans[id];
        if |c.pushed| - c.popped >= CHANNEL_CAPACITY {
          held := true;
          return false;
        }
        chans := chans[id := c.(pushed := c.pushed + [chunk])];
      }
      rbuf, held, arrived := rest, false, Appended(arrived, id, chunk);
      return true;
    }

    method AcceptOpen(id: W.Id, cls: W.StreamClass)
      requires Valid()
      modifies this`table, this`chans, this`regs, this`seen
      ensures Valid() && regs == old(regs)[id := Reg(cls, Ready)]
      ensures Rx() == Channelled(old(Rx()), id).(seen := old(seen) + {id})
    {
      hide NthId;
      MakeChannel(id, cls);
      seen := seen + {id};
    }

    /** The frame in hand is taken off the buffer. */
    method TakeFrame(rest: seq<byte>)
      requires Valid()
      modifies this`rbuf, this`held
      ensures Valid() && View() == Took(old(View()), rest)
    {
      hide NthId;
      rbuf, held := rest, false;
    }

    method OpenArrives(id: W.Id, cls: W.StreamClass, rest: seq<byte>)
      requires Valid()
      modifies this`rbuf, this`table, this`chans, this`regs, this`seen, this`held
      ensures Valid() && View() == Handle(Took(old(View()), rest), W.Open(id, cls))
    {
      ghost var e := View();
      OpenIs(Took(e, rest), id, cls);
      hide NthId, Channelled, Handle;
      TakeFrame(rest);
      ghost var t := View();
      AcceptOpen(id, cls);
      assert View() == t.(rx := Rx(), regs := regs);
    }

    method CloseArrives(id: W.Id, rest: seq<byte>)
      requires Valid()
      modifies this`rbuf, this`table, this`held
      ensures Valid() && View() == Handle(Took(old(View()), rest), W.Close(id))
    {
      hide NthId;
      TakeFrame(rest);
      ghost var t := View();
      table := table - {id};
      assert View() == t.(rx := Rx());
    }

    method DataArrives(id: W.Id, chunk: W.Chunk, rest: seq<byte>) returns (acted: bool)
      requires Valid()
      modifies this`rbuf, this`chans, this`arrived, this`held
      ensures Valid() && acted == !Blocked(old(Rx()), W.Data(id, chunk))
      ensures View() == if acted then Handle(Took(old(View()), rest), W.Data(id, chunk)) else Hold(old(View()))
    {
      hide NthId, Deliver, Blocked;
      ghost var e := View();
      acted := DeliverChunk(id, chunk, rest);
      assert View() == e.(rx := Rx());
    }

    /** The read task acts on a message; `rest` is what its buffer holds afterwards. */
    method HandleMessage(m: W.Msg, rest: seq<byte>) returns (acted: bool)
      requires Valid()
      modifies this`rbuf, this`table, this`chans, this`regs, this`seen, this`arrived, this`held
      ensures Valid() && acted == !Blocked(old(Rx()), m)
      ensures View() == if acted then Handle(Took(old(View()), rest), m) else Hold(old(View()))
    {
      hide NthId, Handle, Took, Hold;
      acted := true;
      match m
      case Open(id, cls) => OpenArrives(id, cls, rest);
      case Data(id, chunk) => acted := DataArrives(id, chunk, rest);
      case Close(id) => CloseArrives(id, rest);
    }

    /** The accepting side's first frame selects the mode. */
    method DetectMode(f: Frame, rest: seq<byte>)
      requires Valid()
      modifies this`rbuf, this`mode, this`first, this`seen, this`firstId, this`held
      ensures Valid() && Rx() == Detected(old(Rx()).(rbuf := rest, held := false), f)
    {
      hide NthId, W.FromFrame;
      rbuf, held := rest, false;
      if f.kind != StreamOpen { mode := Exited; return; }
      var m := W.FromFrame(f);
      mode := Running;
      if m.None? { return; }
      RememberFirst(m.value);
    }

    method RememberFirst(m: W.Msg)
      requires Valid()
      modifies this`first, this`seen, this`firstId
      ensures Valid()
      ensures Rx() == old(Rx()).(first := Some(m), seen := old(seen) + {m.id}, firstId := Some(m.id))
    {
      hide NthId;
      first := Some(m);
      seen, firstId := seen + {m.id}, Some(m.id);
    }

    /** The read task acts on a whole frame; `taken` tells whether it is done with it. */
    method ActOn(f: Frame, rest: seq<byte>) returns (taken: bool)
      requires Valid() && mode != Exited
      modifies this`rbuf, this`mode, this`first, this`firstId, this`table, this`chans, this`regs, this`seen,
               this`arrived, this`held
      ensures Valid() && taken == Consumes(old(Rx()), f) && View() == Acted(old(View()), f, rest)
    {
      hide W.FromFrame, Handle, Detected, Blocked, NthId;
      ghost var e := View();
      taken := true;
      if mode == Detecting {
        DetectMode(f, rest);
        assert View() == e.(rx := Rx());
      } else {
        var m := W.FromFrame(f);
        if m.None? {
          rbuf, held := rest, false;
          assert View() == e.(rx := Rx());
        } else {
          taken := HandleMessage(m.value, rest);
        }
      }
    }

    /** The read task looks at its buffer; `taken` tells whether a frame has been used up. */
    method LookAtBuffer(ghost q: Endpoint) returns (taken: bool)
      requires Valid()
      modifies this`rbuf, this`mode, this`first, this`firstId, this`table, this`chans, this`regs, this`seen,
               this`arrived, this`held
      ensures Valid() && DispatchStep(old(View()), q) == (View(), if taken then PopFlight(q) else q)
    {
      hide DecodeFrame, Acted, Consumes, NthId, PopFlight;
      ghost var e := View();
      taken := false;
      if mode == Exited { return; }
      match DecodeFrame(rbuf)
      case NeedMore =>
      case Invalid =>
        mode := Exited;
        assert View() == e.(rx := Rx());
      case Complete(f, rest) => taken := ActOn(f, rest);
    }

    /** The whole step of the read task, with the peer's record of what is under way. */
    method DispatchFrame(peer: Connection)
      requires Valid() && peer.Valid() && peer != this
      modifies this, peer`flight
      ensures Valid() && peer.Valid()
      ensures (View(), peer.View()) == DispatchStep(old(View()), old(peer.View()))
    {
      hide DispatchStep, NthId, PopFlight;
      var taken := LookAtBuffer(peer.View());
      peer.Arrived(taken);
    }

    /** History: the oldest message under way has arrived. */
    ghost method Arrived(taken: bool)
      requires Valid()
      modifies this`flight
      ensures Valid() && View() == if taken then PopFlight(old(View())) else old(View())
    {
      hide NthId;
      if taken && flight != [] { flight := flight[1..]; }
    }

    /** The read task takes a byte from the transport while its frame is incomplete. */
    method PullByte(peer: Connection)
      requires Valid() && peer.Valid() && peer != this
      modifies this`rbuf, peer`wire
      ensures Valid() && peer.Valid() && (View(), peer.View()) == ReadStep(old(View()), old(peer.View()))
    {
      hide DecodeFrame, NthId;
      if mode == Exited || peer.wire == [] || DecodeFrame(rbuf) != NeedMore { return; }
      rbuf, peer.wire := rbuf + [peer.wire[0]], peer.wire[1..];
    }

    method FailRead()
      requires Valid()
      modifies this`mode
      ensures Valid() && View() == LocalStep(old(View()), ReadFail)
    { if !held { mode := Exited; } }
  }

  // ---------- two objects ----------

  /** A step that an application or a caller of the connection makes. */
  predicate ByCaller(a: Action) {
    a.Reserve? || a.EnqueueOpen? || a.InsertOwn? || a.Send? || a.CloseEnqueue? || a.CloseRemove? || a.DropHandle?
    || a.Receive? || a.DropReceiver?
  }

  method Called(c: Connection, a: Action)
    requires c.Valid() && ByCaller(a)
    modifies c
    ensures c.Valid() && c.View() == LocalStep(old(c.View()), a)
  {
    hide LocalStep, NthId;
    match a
    case Reserve(cls) =>
      if c.dropped || c.mode == Detecting { Disabled(c.View(), cls); } else { var _ := c.ReserveId(cls); }
    case EnqueueOpen(id) => var _ := c.EnqueueOpenFrame(id);
    case InsertOwn(id) => c.InsertEntry(id);
    case Send(id, chunk) => var _ := c.SendData(id, chunk);
    case CloseEnqueue(id) => c.EnqueueCloseFrame(id);
    case CloseRemove(id) => c.RemoveEntry(id);
    case DropHandle => c.Drop();
    case Receive(id) => var _ := c.ReceiveChunk(id);
    case DropReceiver(id) => c.DropStream(id);
  }

  /** A step that one of the connection's tasks makes on its own. */
  method Tasked(c: Connection, a: Action)
    requires c.Valid() && !ByCaller(a) && !a.ReadByte? && !a.Dispatch?
    modifies c
    ensures c.Valid() && c.View() == LocalStep(old(c.View()), a)
  {
    hide LocalStep, NthId, W.TaskStep;
    match a
    case WriteTask =>
      TaskStepIs(c.View());
      c.PollWriteTask();
    case Flush(n) => c.FlushBytes(n);
    case WriteFail => c.FailWrite();
    case ReadFail => c.FailRead();
    case InsertFirst => c.InsertFirstEntry();
  }

  /** Any step of the system is a call. */
  method Perform(c: Connection, peer: Connection, a: Action)
    requires c.Valid() && peer.Valid() && c != peer
    modifies c, peer
    ensures c.Valid() && peer.Valid() && (c.View(), peer.View()) == Step(old(c.View()), old(peer.View()), a)
  {
    hide LocalStep, DispatchStep, ReadStep, NthId;
    if a.ReadByte? { c.PullByte(peer); }
    else if a.Dispatch? { c.DispatchFrame(peer); }
    else if ByCaller(a) { Called(c, a); }
    else { Tasked(c, a); }
  }

  /** Every run of the system is a series of calls on two connection objects, and the objects end up in the
      state the run describes: everything proved about runs holds of them. */
  method Drive(moves: seq<Move>) returns (i: Connection, r: Connection)
    ensures i.Valid() && r.Valid() && World(i.View(), r.View()) == Run(moves)
  {
    hide Step;
    i := new Connection(1, Running);
    r := new Connection(2, Detecting);
    var k := 0;
    assert moves[..0] == [];
    while k < |moves|
      invariant 0 <= k <= |moves| && i != r && fresh(i) && fresh(r)
      invariant i.Valid() && r.Valid() && World(i.View(), r.View()) == Run(moves[..k])
    {
      assert moves[..k + 1][..k] == moves[..k];
      if moves[k].byInitiator { Perform(i, r, moves[k].act); } else { Perform(r, i, moves[k].act); }
      k := k + 1;
    }
    assert moves[..k] == moves;
  }
}
