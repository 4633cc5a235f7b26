/** What every step of the multiplexed connection keeps. */
module MuxInvariant {
  import opened Bytes
  import opened Protocol
  import W = MuxWriter
  import opened MuxSystem

  type Id = W.Id
  type Msg = W.Msg
  type Sender = W.Sender
  type Chunk = W.Chunk

  // ---------- the messages of one stream ----------

  function Sel(ms: seq<Msg>, id: Id): seq<Msg> {
    if ms == [] then []
    else Sel(ms[..|ms| - 1], id) + if ms[|ms| - 1].id == id then [ms[|ms| - 1]] else []
  }

  function Chunks(ms: seq<Msg>): seq<Chunk> {
    if ms == [] then [] else (if ms[0].Data? then [ms[0].chunk] else []) + Chunks(ms[1..])
  }

  predicate NoOpen(ms: seq<Msg>) { forall m :: m in ms ==> !m.Open? }

  lemma SelAppend(ms: seq<Msg>, m: Msg, id: Id)
    ensures Sel(ms + [m], id) == Sel(ms, id) + if m.id == id then [m] else []
  {
    assert (ms + [m])[..|ms|] == ms;
  }

  lemma {:induction false} SelConcat(a: seq<Msg>, b: seq<Msg>, id: Id)
    ensures Sel(a + b, id) == Sel(a, id) + Sel(b, id)
  {
    hide Sel;
    if b == [] {
      assert a + b == a;
      SelNone(b, id);
    } else {
      var n := |b| - 1;
      SelConcat(a, b[..n], id);
      assert a + b == (a + b[..n]) + [b[n]];
      SelAppend(a + b[..n], b[n], id);
      assert b == b[..n] + [b[n]];
      SelAppend(b[..n], b[n], id);
    }
  }

  lemma SelHead(ms: seq<Msg>, id: Id)
    requires ms != []
    ensures Sel(ms, id) == (if ms[0].id == id then [ms[0]] else []) + Sel(ms[1..], id)
  {
    assert ms == [ms[0]] + ms[1..];
    SelConcat([ms[0]], ms[1..], id);
    SelAppend([], ms[0], id);
    assert [] + [ms[0]] == [ms[0]];
  }

  /** The messages of stream `id` between the sending end's `send` and the peer's read task. */
  function Pipe(t: Sender, id: Id): seq<Msg> {
    Sel(t.flight, id) + (Sel(t.ctrlQ, id) + Sel(t.bulkQ, id))
  }

  lemma {:induction false} ChunksConcat(a: seq<Msg>, b: seq<Msg>)
    ensures Chunks(a + b) == Chunks(a) + Chunks(b)
  {
    if a == [] {
      assert a + b == b;
    } else {
      ChunksConcat(a[1..], b);
      assert (a + b)[1..] == a[1..] + b && (a + b)[0] == a[0];
      var head := if a[0].Data? then [a[0].chunk] else [];
      assert head + (Chunks(a[1..]) + Chunks(b)) == (head + Chunks(a[1..])) + Chunks(b);
    }
  }

  // ---------- bytes under way ----------

  function Encoded(ms: seq<Msg>): seq<byte> {
    if ms == [] then []
    else Encoded(ms[..|ms| - 1]) + EncodeFrame(W.ToFrame(ms[|ms| - 1]))
  }

  lemma EncodedAppend(ms: seq<Msg>, m: Msg)
    ensures Encoded(ms + [m]) == Encoded(ms) + EncodeFrame(W.ToFrame(m))
  {
    assert (ms + [m])[..|ms|] == ms;
  }

  lemma {:induction false} EncodedHead(ms: seq<Msg>)
    requires ms != []
    ensures Encoded(ms) == EncodeFrame(W.ToFrame(ms[0])) + Encoded(ms[1..])
  {
    hide EncodeFrame, W.ToFrame;
    var n := |ms| - 1;
    if n > 0 {
      EncodedHead(ms[..n]);
      assert ms[..n][1..] == ms[1..][..n - 1];
    }
  }

  /** The peer has part of a frame in hand, the transport more of it, and the write task the rest. */
  predicate BytesOk(t: Sender, rbuf: seq<byte>) {
    && rbuf + t.wire + t.out <= Encoded(t.flight)
    && (!t.phase.Stopped? ==> rbuf + t.wire + t.out == Encoded(t.flight))
    && (forall m :: m in t.flight ==> Small(m))
  }

  // ---------- the invariant ----------

  predicate Own(e: Endpoint, id: Id) { SameParity(id, e.start) }

  predicate QueuesOk(e: Endpoint) {
    && (forall m :: m in e.tx.ctrlQ ==> Small(m) && m.id in e.regs && W.High(e.regs[m.id].cls))
    && (forall m :: m in e.tx.bulkQ ==> Small(m) && m.id in e.regs && !W.High(e.regs[m.id].cls))
  }

  /** A channel holds a contiguous run of the chunks decoded for its stream, and up to the latest one
      for as long as its entry is in the table and its receiver is there. */
  predicate ChanOk(rx: Receiver, id: Id)
    requires id in rx.chans
  {
    var c := rx.chans[id];
    var arr := Log(rx.arrived, id);
    && c.popped <= |c.pushed| <= c.popped + CHANNEL_CAPACITY
    && c.since + |c.pushed| <= |arr|
    && c.pushed == arr[c.since..c.since + |c.pushed|]
    && (id in rx.table && c.rxOpen ==> c.since + |c.pushed| == |arr|)
  }

  predicate RegOk(e: Endpoint, id: Id) {
    && (id in e.rx.chans <==> At(e, id, Ready))
    && (id in e.regs && Own(e, id) ==> Index(e.start, id) < e.opens)
    && (id in e.regs && !Own(e, id) ==> e.regs[id].stage == Ready && id in e.rx.seen)
    && (id in e.rx.seen ==> !Own(e, id))
    && (id in e.rx.chans ==> ChanOk(e.rx, id))
    && (id in e.rx.chans && !Own(e, id) && e.rx.chans[id].since > 0 ==> e.rx.firstId == Some(id))
  }

  predicate FirstOk(e: Endpoint) {
    && (e.rx.mode == Detecting ==> e.rx.first == None && e.rx.firstId == None && e.regs == map[] && e.rx.seen == {})
    && (e.rx.first.Some? ==>
          var m := e.rx.first.value;
          m.Open? && !Own(e, m.id) && m.id !in e.regs && m.id in e.rx.seen && e.rx.firstId == Some(m.id))
  }

  predicate EndOk(e: Endpoint) {
    && (e.start == 1 || e.start == 2)
    && e.opens <= MAX_OPENS
    && QueuesOk(e)
    && e.rx.table <= e.rx.chans.Keys
    && FirstOk(e)
    && forall id: Id {:trigger RegOk(e, id)} :: RegOk(e, id)
  }

  predicate FifoAt(x: Endpoint, y: Endpoint, id: Id) {
    Log(y.rx.arrived, id) + Chunks(Pipe(x.tx, id)) == Log(x.sent, id)
  }

  /** A stream's open message precedes everything else of that stream, and there is only one. */
  predicate OrderAt(x: Endpoint, y: Endpoint, id: Id) {
    var p := Pipe(x.tx, id);
    if !Own(x, id) then NoOpen(p) && (id !in x.regs ==> p == [])
    else if id !in x.regs || x.regs[id].stage == Reserved then
      p == [] && id !in y.rx.seen && Log(y.rx.arrived, id) == []
    else if id !in y.rx.seen then
      p != [] && p[0] == W.Open(id, x.regs[id].cls) && NoOpen(p[1..]) && Log(y.rx.arrived, id) == []
    else NoOpen(p)
  }

  predicate StreamOk(x: Endpoint, y: Endpoint, id: Id) { FifoAt(x, y, id) && OrderAt(x, y, id) }

  predicate DirOk(x: Endpoint, y: Endpoint) {
    && BytesOk(x.tx, y.rx.rbuf)
    && forall id: Id {:trigger StreamOk(x, y, id)} :: StreamOk(x, y, id)
  }

  predicate Inv(x: Endpoint, y: Endpoint) {
    x.start + y.start == 3 && EndOk(x) && EndOk(y) && DirOk(x, y) && DirOk(y, x)
  }

  // ---------- the queues ----------

  lemma {:induction false} SelNone(ms: seq<Msg>, id: Id)
    requires forall m :: m in ms ==> m.id != id
    ensures Sel(ms, id) == []
  {
    if ms != [] { SelNone(ms[..|ms| - 1], id); }
  }

  lemma OneQueue(e: Endpoint, id: Id)
    requires QueuesOk(e)
    ensures id in e.regs && W.High(e.regs[id].cls) ==> Sel(e.tx.bulkQ, id) == []
    ensures id in e.regs && !W.High(e.regs[id].cls) ==> Sel(e.tx.ctrlQ, id) == []
  {
    hide Sel;
    if id in e.regs {
      if W.High(e.regs[id].cls) { SelNone(e.tx.bulkQ, id); } else { SelNone(e.tx.ctrlQ, id); }
    }
  }

  /** Queueing a message puts it last in its stream and leaves every other stream alone. */
  lemma EnqueuePipe(e: Endpoint, m: Msg, id: Id)
    requires QueuesOk(e) && m.id in e.regs && !e.tx.phase.Stopped?
    ensures Pipe(QueueOn(e, m).tx, id) == Pipe(e.tx, id) + if m.id == id then [m] else []
  {
    hide Sel;
    SelAppend(e.tx.ctrlQ, m, id);
    SelAppend(e.tx.bulkQ, m, id);
    OneQueue(e, id);
  }

  lemma EnqueueQueues(e: Endpoint, m: Msg)
    requires QueuesOk(e) && m.id in e.regs && Small(m)
    ensures QueuesOk(QueueOn(e, m))
  {
  }

  lemma TakePipe(e: Endpoint, high: bool, id: Id)
    requires QueuesOk(e)
    requires if high then e.tx.ctrlQ != [] else e.tx.bulkQ != []
    ensures var t := if high then W.TakeControl(e.tx) else W.TakeBulk(e.tx);
            Pipe(t, id) == Pipe(e.tx, id)
  {
    hide Sel, EncodeFrame, W.ToFrame;
    var q := if high then e.tx.ctrlQ else e.tx.bulkQ;
    SelHead(q, id);
    SelAppend(e.tx.flight, q[0], id);
    OneQueue(e, id);
  }

  lemma TaskPipe(e: Endpoint, id: Id)
    requires QueuesOk(e)
    ensures Pipe(W.TaskStep(e.tx), id) == Pipe(e.tx, id)
  {
    hide Sel, EncodeFrame, W.ToFrame;
    if e.tx.ctrlQ != [] { TakePipe(e, true, id); }
    if e.tx.bulkQ != [] { TakePipe(e, false, id); }
  }

  // ---------- the write task and the transport ----------

  lemma TaskBytes(t: Sender, rbuf: seq<byte>)
    requires BytesOk(t, rbuf)
    requires forall m :: m in t.ctrlQ || m in t.bulkQ ==> Small(m)
    ensures BytesOk(W.TaskStep(t), rbuf)
  {
    hide Encoded, EncodeFrame, W.ToFrame;
    if t.ctrlQ != [] { EncodedAppend(t.flight, t.ctrlQ[0]); }
    if t.bulkQ != [] { EncodedAppend(t.flight, t.bulkQ[0]); }
    assert t.out == [] ==> forall e :: rbuf + t.wire + [] + e == rbuf + t.wire + e;
  }

  lemma FlushBytes(t: Sender, n: nat, rbuf: seq<byte>)
    requires BytesOk(t, rbuf)
    ensures BytesOk(W.FlushStep(t, n), rbuf)
  {
    hide Encoded;
    var k := W.Min(n, |t.out|);
    assert rbuf + (t.wire + t.out[..k]) + t.out[k..] == rbuf + t.wire + t.out;
  }

  lemma FailBytes(t: Sender, rbuf: seq<byte>)
    requires BytesOk(t, rbuf)
    ensures BytesOk(W.FailStep(t), rbuf)
  {
    hide Encoded;
    assert rbuf + t.wire + [] <= rbuf + t.wire + t.out;
  }

  lemma ReadBytes(t: Sender, rbuf: seq<byte>)
    requires BytesOk(t, rbuf) && t.wire != []
    ensures BytesOk(t.(wire := t.wire[1..]), rbuf + [t.wire[0]])
  {
    hide Encoded;
    assert (rbuf + [t.wire[0]]) + t.wire[1..] + t.out == rbuf + t.wire + t.out;
  }

  /** A complete frame in the buffer is the oldest message under way, and nothing else. */
  lemma FrameInHand(t: Sender, rbuf: seq<byte>)
    requires BytesOk(t, rbuf) && DecodeFrame(rbuf).Complete?
    ensures t.flight != []
    ensures var d := DecodeFrame(rbuf);
            && W.FromFrame(d.value) == Some(t.flight[0]) && d.value == W.ToFrame(t.flight[0])
            && BytesOk(t.(flight := t.flight[1..]), d.rest)
  {
    hide DecodeFrame, EncodeFrame, W.ToFrame, W.FromFrame, Encoded;
    var b := rbuf + t.wire + t.out;
    EncodedNone();
    NothingYet();
    assert t.flight == [] ==> rbuf == [];
    var m := t.flight[0];
    var e := EncodeFrame(W.ToFrame(m));
    var tail := Encoded(t.flight[1..]);
    EncodedHead(t.flight);
    assert rbuf <= e + tail;
    W.MsgRoundTrip(m);
    FrameSize(m);
    if !Fits(W.ToFrame(m)) {
      OversizeRefused(W.ToFrame(m), rbuf);
    } else if |rbuf| < |e| {
      assert rbuf < e;
      FramePrefix(W.ToFrame(m), rbuf);
    } else {
      var rest := rbuf[|e|..];
      assert rbuf == e + rest;
      FrameRoundTrip(W.ToFrame(m), rest);
      assert b == e + (rest + t.wire + t.out);
      assert rest + t.wire + t.out == b[|e|..] && tail == Encoded(t.flight)[|e|..];
    }
  }

  lemma EncodedNone()
    ensures Encoded([]) == []
  {
  }

  lemma FrameSize(m: Msg)
    requires Small(m)
    ensures |W.ToFrame(m).payload| < 0x1_0000_0000
  {
  }
}
