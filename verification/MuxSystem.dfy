/** Two daemons joined by one multiplexed connection, as a system of atomic steps. */
module MuxSystem {
  import opened Bytes
  import opened Protocol
  import opened MuxWriter

  const CHANNEL_CAPACITY: nat := 64
  const MAX_OPENS: nat := 0x8000_0000

  // ---------- stream ids ----------

  /** The k-th id an end hands out: an atomic 32-bit counter stepped by two. */
  function NthId(start: Id, k: nat): Id {
    (start + 2 * k) % ID_RANGE
  }

  function Index(start: Id, x: Id): nat {
    ((x - start) % ID_RANGE) / 2
  }

  predicate SameParity(x: int, y: int) { x % 2 == y % 2 }

  lemma NthIdParity(start: Id, k: nat)
    ensures SameParity(NthId(start, k), start)
  {
  }

  lemma NthIdNext(start: Id, k: nat)
    ensures NthId(start, k + 1) == (NthId(start, k) + 2) % ID_RANGE
  {
  }

  /** Within 2^31 opens the id determines the open. */
  lemma IndexOfNth(start: Id, k: nat)
    requires k < MAX_OPENS
    ensures Index(start, NthId(start, k)) == k
  {
  }

  /** Two opens of one end collide exactly when they are a multiple of 2^31 apart. */
  lemma IdsCollide(start: Id, j: nat, k: nat)
    ensures NthId(start, j) == NthId(start, k) <==> (k - j) % 0x8000_0000 == 0
  {
  }

  /** The initiator hands out 1, 3, 5 and so on, and the responder 2, 4, 6, until the ids wrap around. */
  lemma FirstIds(k: nat)
    requires k < 0x8000_0000
    ensures NthId(1, k) == 2 * k + 1 && NthId(2, k) == if k == 0x7FFF_FFFF then 0 else 2 * k + 2
    ensures Start.initiator.start == 1 && Start.responder.start == 2
    ensures Start.initiator.rx.mode == Running && Start.responder.rx.mode == Detecting
  {
  }

  /** The two ends never hand out the same id, wrapped or not. */
  lemma EndsDisjoint(j: nat, k: nat)
    ensures NthId(1, j) != NthId(2, k)
  {
    NthIdParity(1, j);
    NthIdParity(2, k);
  }

  // ---------- state ----------

  /** A bounded per-stream channel: everything pushed so far, how much of it the application has taken,
      and whether the receiving half still exists.  `since` records how many chunks of the stream had
      already come off the wire when the channel was made. */
  datatype Chan = Chan(since: nat, pushed: seq<Chunk>, popped: nat, rxOpen: bool)

  datatype Stage = Reserved | Enqueued | Ready

  datatype Reg = Reg(cls: StreamClass, stage: Stage)

  /** `Detecting` is the accepting side before its first frame has selected multiplexed mode. */
  datatype Mode = Detecting | Running | Exited

  /** `first` is the open message left to the task spawned for the very first stream; `held` says that the
      read task keeps the lock of the stream table while it waits for room in a channel.  The fields from
      `seen` on are history: opens processed, the first of them, and every chunk decoded per stream. */
  datatype Receiver = Receiver(
    rbuf: seq<byte>, mode: Mode, first: Option<Msg>, table: set<Id>, chans: map<Id, Chan>, held: bool,
    seen: set<Id>, firstId: Option<Id>, arrived: map<Id, seq<Chunk>>)

  /** `regs` holds the streams this end knows with their class: `open_stream` calls in progress and
      streams ready to send on.  `sent` is history: the chunks accepted by `send` per stream. */
  datatype Endpoint = Endpoint(
    start: Id, opens: nat, regs: map<Id, Reg>, closing: set<Id>, tx: Sender, rx: Receiver,
    sent: map<Id, seq<Chunk>>)

  datatype Action =
    | Reserve(cls: StreamClass)          // open_stream: fetch_add
    | EnqueueOpen(id: Id)                // open_stream: queue the StreamOpen frame
    | InsertOwn(id: Id)                  // open_stream: insert the table entry
    | Send(id: Id, chunk: Chunk)
    | CloseEnqueue(id: Id)               // close_stream: queue the StreamClose frame
    | CloseRemove(id: Id)                // close_stream: remove the table entry
    | WriteTask | Flush(n: nat) | WriteFail | DropHandle
    | ReadByte | Dispatch | ReadFail     // read task
    | InsertFirst                        // task spawned by new_responder
    | Receive(id: Id) | DropReceiver(id: Id)

  function Log(m: map<Id, seq<Chunk>>, id: Id): seq<Chunk> {
    if id in m then m[id] else []
  }

  function Appended(m: map<Id, seq<Chunk>>, id: Id, c: Chunk): map<Id, seq<Chunk>> {
    m[id := Log(m, id) + [c]]
  }

  function StartEnd(start: Id, mode: Mode): Endpoint {
    Endpoint(start, 0, map[], {}, Fresh, Receiver([], mode, None, {}, map[], false, {}, None, map[]), map[])
  }

  // ---------- steps ----------

  predicate Small(m: Msg) { m.Data? ==> |m.chunk| + 4 < 0x1_0000_0000 }

  predicate Live(e: Endpoint) { !e.tx.dropped && e.rx.mode != Detecting }

  predicate At(e: Endpoint, id: Id, stage: Stage) { id in e.regs && e.regs[id].stage == stage }

  function QueueOn(e: Endpoint, m: Msg): Endpoint
    requires m.id in e.regs
  {
    e.(tx := Enqueue(e.tx, High(e.regs[m.id].cls), m))
  }

  function Channelled(rx: Receiver, id: Id): Receiver {
    rx.(table := rx.table + {id}, chans := rx.chans[id := Chan(|Log(rx.arrived, id)|, [], 0, true)])
  }

  /** `process_stream_open`. */
  function Accept(e: Endpoint, id: Id, cls: StreamClass): Endpoint {
    e.(rx := Channelled(e.rx, id), regs := e.regs[id := Reg(cls, Ready)])
  }

  /** Steps that concern only the end that makes them.  Those that need the stream table wait while the
      read task holds it. */
  function LocalStep(e: Endpoint, a: Action): Endpoint {
    match a
    case Reserve(c) =>
      if !Live(e) then e
      else e.(opens := e.opens + 1, regs := e.regs[NthId(e.start, e.opens) := Reg(c, Reserved)])
    case EnqueueOpen(id) =>
      if !Live(e) || !At(e, id, Reserved) || e.tx.phase.Stopped? then e
      else QueueOn(e, Open(id, e.regs[id].cls)).(regs := e.regs[id := Reg(e.regs[id].cls, Enqueued)])
    case InsertOwn(id) =>
      if e.rx.held || !At(e, id, Enqueued) then e else Accept(e, id, e.regs[id].cls)
    case Send(id, chunk) =>
      if !Live(e) || !At(e, id, Ready) || e.tx.phase.Stopped? || !Small(Data(id, chunk)) then e
      else QueueOn(e, Data(id, chunk)).(sent := Appended(e.sent, id, chunk))
    case CloseEnqueue(id) =>
      if !Live(e) || !At(e, id, Ready) then e
      else QueueOn(e, Close(id)).(closing := e.closing + {id})
    case CloseRemove(id) =>
      if e.rx.held || id !in e.closing then e
      else e.(closing := e.closing - {id}, rx := e.rx.(table := e.rx.table - {id}))
    case WriteTask => e.(tx := TaskStep(e.tx))
    case Flush(n) => e.(tx := FlushStep(e.tx, n))
    case WriteFail => e.(tx := FailStep(e.tx))
    case DropHandle => e.(tx := e.tx.(dropped := true))
    case ReadFail => if e.rx.held then e else e.(rx := e.rx.(mode := Exited))
    case InsertFirst =>
      if e.rx.held || e.rx.first.None? then e
      else
        var m := e.rx.first.value;
        var e' := e.(rx := e.rx.(first := None));
        if m.Open? then Accept(e', m.id, m.cls) else e'
    case Receive(id) =>
      if id !in e.rx.chans then e
      else
        var c := e.rx.chans[id];
        if !c.rxOpen || c.popped >= |c.pushed| then e
        else e.(rx := e.rx.(chans := e.rx.chans[id := c.(popped := c.popped + 1)]))
    case DropReceiver(id) =>
      if id !in e.rx.chans then e
      else e.(rx := e.rx.(chans := e.rx.chans[id := e.rx.chans[id].(rxOpen := false)]))
    case ReadByte => e
    case Dispatch => e
  }

  /** Delivery has to wait while the stream's channel is full and its receiver still there. */
  predicate Blocked(rx: Receiver, m: Msg) {
    m.Data? && m.id in rx.table && m.id in rx.chans
    && var c := rx.chans[m.id]; c.rxOpen && |c.pushed| - c.popped >= CHANNEL_CAPACITY
  }

  function Deliver(rx: Receiver, id: Id, chunk: Chunk): Receiver {
    var rx' := rx.(arrived := Appended(rx.arrived, id, chunk));
    if id in rx.table && id in rx.chans && rx.chans[id].rxOpen
    then rx'.(chans := rx.chans[id := rx.chans[id].(pushed := rx.chans[id].pushed + [chunk])])
    else rx'
  }

  /** What the read task does with a message once it runs. */
  function Handle(e: Endpoint, m: Msg): Endpoint {
    match m
    case Open(id, cls) => Accept(e, id, cls).(rx := Channelled(e.rx, id).(seen := e.rx.seen + {id}))
    case Data(id, chunk) => e.(rx := Deliver(e.rx, id, chunk))
    case Close(id) => e.(rx := e.rx.(table := e.rx.table - {id}))
  }

  /** What the accepting side does with its first frame: the message is left to a spawned task. */
  function Detected(rx: Receiver, f: Frame): Receiver {
    if f.kind != StreamOpen then rx.(mode := Exited)
    else
      match FromFrame(f)
      case None => rx.(mode := Running)
      case Some(m) => rx.(mode := Running, first := Some(m), seen := rx.seen + {m.id}, firstId := Some(m.id))
  }

  function Detect(e: Endpoint, f: Frame): Endpoint { e.(rx := Detected(e.rx, f)) }

  function PopFlight(q: Endpoint): Endpoint {
    if q.tx.flight == [] then q else q.(tx := q.tx.(flight := q.tx.flight[1..]))
  }

  /** The frame is taken, and the table is free again once it has been acted upon. */
  function Took(e: Endpoint, rest: seq<byte>): Endpoint { e.(rx := e.rx.(rbuf := rest, held := false)) }

  function Hold(e: Endpoint): Endpoint { e.(rx := e.rx.(held := true)) }

  /** The read task with a whole frame in hand is done with it unless it has to wait for room. */
  predicate Consumes(rx: Receiver, f: Frame) {
    !(rx.mode == Running && FromFrame(f).Some? && Blocked(rx, FromFrame(f).value))
  }

  function Acted(e: Endpoint, f: Frame, rest: seq<byte>): Endpoint {
    if !Consumes(e.rx, f) then Hold(e)
    else if e.rx.mode == Detecting then Detect(Took(e, rest), f)
    else if FromFrame(f).None? then Took(e, rest)
    else Handle(Took(e, rest), FromFrame(f).value)
  }

  /** The read task of `e` acting on the bytes it has; `q` is the other end, changed only in history. */
  function DispatchStep(e: Endpoint, q: Endpoint): (Endpoint, Endpoint) {
    if e.rx.mode == Exited then (e, q)
    else
      match DecodeFrame(e.rx.rbuf)
      case NeedMore => (e, q)
      case Invalid => (e.(rx := e.rx.(mode := Exited)), q)
      case Complete(f, rest) => (Acted(e, f, rest), if Consumes(e.rx, f) then PopFlight(q) else q)
  }

  /** The read task takes bytes only while its frame is incomplete. */
  function ReadStep(e: Endpoint, q: Endpoint): (Endpoint, Endpoint) {
    if e.rx.mode == Exited || q.tx.wire == [] || DecodeFrame(e.rx.rbuf) != NeedMore then (e, q)
    else (e.(rx := e.rx.(rbuf := e.rx.rbuf + [q.tx.wire[0]])), q.(tx := q.tx.(wire := q.tx.wire[1..])))
  }

  /** A step made by the end `e` whose peer is `q`; a step that is not enabled changes nothing. */
  function Step(e: Endpoint, q: Endpoint, a: Action): (Endpoint, Endpoint) {
    match a
    case ReadByte => ReadStep(e, q)
    case Dispatch => DispatchStep(e, q)
    case _ => (LocalStep(e, a), q)
  }

  // ---------- runs ----------

  datatype World = World(initiator: Endpoint, responder: Endpoint)

  const Start: World := World(StartEnd(1, Running), StartEnd(2, Detecting))

  datatype Move = Move(byInitiator: bool, act: Action)

  function Next(w: World, m: Move): World {
    if m.byInitiator then
      var (e, q) := Step(w.initiator, w.responder, m.act); World(e, q)
    else
      var (e, q) := Step(w.responder, w.initiator, m.act); World(q, e)
  }

  /** Every interleaving of the steps of both ends is some list of moves. */
  function Run(moves: seq<Move>): World {
    if moves == [] then Start else Next(Run(moves[..|moves| - 1]), moves[|moves| - 1])
  }

  lemma RunMore(moves: seq<Move>, m: Move)
    ensures Run(moves + [m]) == Next(Run(moves), m)
  {
    hide Next;
    assert (moves + [m])[..|moves|] == moves;
  }
}
