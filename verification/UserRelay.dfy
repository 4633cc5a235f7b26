/** One user relay: waiting for the open acknowledgement, then writing agent data to the client. */
module UserRelay {

  /** How the write of one data message to the client socket turns out. */
  datatype Write = Written | TimedOut | Broken

  /** What the relay loop meets: a message taken from the relay queue, with what decoding and writing it
      will meet, the end of the client's reader, or the periodic ping. */
  datatype Inbound =
    | Ack(ok: bool)
    | Empty                              // relay_data without a payload
    | Undecodable                        // relay_data that is not base64
    | Chunk(body: string, write: Write)  // relay_data proper
    | Closing                            // relay_close
    | Unknown
    | ReaderDone                         // the done channel is closed
    | Ping(ok: bool)                     // the ticker fires

  datatype Counters = Counters(
    sent: nat, decodeErrors: nat, timeoutDrops: nat, exhausted: nat, hardErrors: nat, streak: nat)

  const Zero: Counters := Counters(0, 0, 0, 0, 0, 0)

  datatype Opening = Established | Rejected | NoAck

  // ---------- what the counters are compared with ----------

  function Writes(ms: seq<Inbound>): seq<Write> {
    if ms == [] then []
    else Writes(ms[..|ms| - 1]) + if ms[|ms| - 1].Chunk? then [ms[|ms| - 1].write] else []
  }

  function Bodies(ms: seq<Inbound>): seq<string> {
    if ms == [] then []
    else
      var m := ms[|ms| - 1];
      Bodies(ms[..|ms| - 1]) + if m.Chunk? && m.write == Written then [m.body] else []
  }

  /** How many writes in a row have timed out at the end. */
  function Trailing(ws: seq<Write>): nat {
    if ws == [] || ws[|ws| - 1] != TimedOut then 0 else 1 + Trailing(ws[..|ws| - 1])
  }

  predicate NonEmptyData(m: Inbound) { m.Chunk? || m.Undecodable? }

  function DataCount(ms: seq<Inbound>): nat {
    if ms == [] then 0 else DataCount(ms[..|ms| - 1]) + if NonEmptyData(ms[|ms| - 1]) then 1 else 0
  }

  /** Event `i` ends the relay: an upstream close, the end of the client's reader, a failed ping,
      undecodable data, a broken write, or the write that makes a run of more than `budget` timed-out writes. */
  predicate Ends(ms: seq<Inbound>, i: nat, budget: nat)
    requires i < |ms|
  {
    || ms[i].Closing? || ms[i].Undecodable? || ms[i].ReaderDone? || ms[i] == Ping(false)
    || (ms[i].Chunk? && ms[i].write == Broken)
    || (ms[i].Chunk? && ms[i].write == TimedOut && Trailing(Writes(ms[..i + 1])) > budget)
  }

  /** How many writes turned out a given way. */
  function Count(ws: seq<Write>, w: Write): nat {
    if ws == [] then 0 else Count(ws[..|ws| - 1], w) + if ws[|ws| - 1] == w then 1 else 0
  }

  function Garbled(ms: seq<Inbound>): nat {
    if ms == [] then 0 else Garbled(ms[..|ms| - 1]) + if ms[|ms| - 1].Undecodable? then 1 else 0
  }

  lemma CountExtend(ms: seq<Inbound>, ws: seq<Write>, m: Inbound, w: Write, v: Write)
    ensures Count(ws + [w], v) == Count(ws, v) + if w == v then 1 else 0
    ensures Garbled(ms + [m]) == Garbled(ms) + if m.Undecodable? then 1 else 0
  {
    assert (ws + [w])[..|ws|] == ws && (ms + [m])[..|ms|] == ms;
  }

  lemma Extend(ms: seq<Inbound>, m: Inbound)
    ensures Writes(ms + [m]) == if m.Chunk? then Writes(ms) + [m.write] else Writes(ms)
    ensures Bodies(ms + [m]) == if m.Chunk? && m.write == Written then Bodies(ms) + [m.body] else Bodies(ms)
    ensures DataCount(ms + [m]) == DataCount(ms) + if NonEmptyData(m) then 1 else 0
  {
    assert (ms + [m])[..|ms|] == ms;
  }

  lemma TrailingExtend(ws: seq<Write>, w: Write)
    ensures Trailing(ws + [w]) == if w == TimedOut then 1 + Trailing(ws) else 0
  {
    assert (ws + [w])[..|ws|] == ws;
  }

  /** One more event, in all the books. */
  lemma BooksExtend(ms: seq<Inbound>, m: Inbound)
    ensures var ns, ws := ms + [m], Writes(ms);
            && Writes(ns) == (if m.Chunk? then ws + [m.write] else ws)
            && Bodies(ns) == (if m.Chunk? && m.write == Written then Bodies(ms) + [m.body] else Bodies(ms))
            && DataCount(ns) == DataCount(ms) + (if NonEmptyData(m) then 1 else 0)
            && Garbled(ns) == Garbled(ms) + (if m.Undecodable? then 1 else 0)
            && (forall v :: Count(Writes(ns), v) == Count(ws, v) + if m.Chunk? && m.write == v then 1 else 0)
            && Trailing(Writes(ns)) ==
               if !m.Chunk? then Trailing(ws) else if m.write == TimedOut then 1 + Trailing(ws) else 0
  {
    hide Count, Writes, Bodies, DataCount, Garbled, Trailing;
    Extend(ms, m);
    CountExtend(ms, [], m, Written, Written);
    if m.Chunk? {
      TrailingExtend(Writes(ms), m.write);
      forall v ensures Count(Writes(ms) + [m.write], v) == Count(Writes(ms), v) + if m.write == v then 1 else 0 {
        CountExtend(ms, Writes(ms), m, m.write, v);
      }
    }
  }

  /** Whether a message ends the relay depends only on what came before it. */
  lemma EndsPrefix(ms: seq<Inbound>, n: nat, i: nat, budget: nat)
    requires i < n <= |ms|
    ensures Ends(ms[..n], i, budget) == Ends(ms, i, budget)
  {
    assert ms[..n][..i + 1] == ms[..i + 1];
  }

  // ---------- the relay ----------

  class Relay {
    const budget: nat
    var counters: Counters
    var out: seq<string>

    /** The books after the messages `ms` have been handled and the relay is still up. */
    ghost predicate Running(ms: seq<Inbound>) reads this {
      && out == Bodies(ms)
      && DataCount(ms) == counters.sent + counters.timeoutDrops
      && counters.sent == Count(Writes(ms), Written) && counters.timeoutDrops == Count(Writes(ms), TimedOut)
      && Count(Writes(ms), Broken) == Garbled(ms) == 0 && (budget == 0 ==> Count(Writes(ms), TimedOut) == 0)
      && counters.exhausted == counters.decodeErrors == counters.hardErrors == 0
      && Trailing(Writes(ms)) <= budget
      && counters.streak == Trailing(Writes(ms))
    }

    /** The books once the relay has ended. */
    ghost predicate Balanced(ms: seq<Inbound>) reads this {
      && out == Bodies(ms)
      && counters.exhausted <= counters.timeoutDrops
      && DataCount(ms) == counters.sent + (counters.timeoutDrops - counters.exhausted)
                          + counters.decodeErrors + counters.hardErrors
      && counters.sent == Count(Writes(ms), Written) && counters.decodeErrors == Garbled(ms)
      && counters.timeoutDrops == (if budget > 0 then Count(Writes(ms), TimedOut) else 0)
      && counters.hardErrors == Count(Writes(ms), Broken)
                                + (if budget > 0 then counters.exhausted else Count(Writes(ms), TimedOut))
      && counters.exhausted == if budget > 0 && Trailing(Writes(ms)) > budget then 1 else 0
    }

    constructor (budget: nat)
      ensures this.budget == budget && Running([])
    {
      this.budget := budget;
      counters, out := Zero, [];
    }

    /** One turn of the relay loop, with `sendToClient` for messages: false ends the relay. */
    method SendToClient(m: Inbound, ghost ms: seq<Inbound>) returns (go: bool)
      requires Running(ms)
      modifies this
      ensures go == !Ends(ms + [m], |ms|, budget)
      ensures if go then Running(ms + [m]) else Balanced(ms + [m])
      ensures m.Closing? || m.Undecodable? || m.ReaderDone? || m == Ping(false) ==> !go
      ensures m.Ack? || m.Empty? || m.Unknown? || m == Ping(true) ==> go
      ensures m.Chunk? && m.write == Written ==> go
      ensures m.Chunk? && m.write == Broken ==> !go
      ensures m.Chunk? && m.write == TimedOut ==> (go <==> old(counters).streak < budget)
    {
      hide Count, Writes, Bodies, DataCount, Garbled, Trailing;
      BooksExtend(ms, m);
      assert (ms + [m])[..|ms| + 1] == ms + [m];
      match m
      case Ack(_) => return true;
      case Empty => return true;
      case Unknown => return true;
      case Closing => return false;
      case ReaderDone => return false;
      case Ping(ok) => return ok;
      case Undecodable =>
        counters := counters.(decodeErrors := counters.decodeErrors + 1);
        return false;
      case Chunk(body, write) =>
        if write == Written {
          counters := counters.(streak := 0, sent := counters.sent + 1);
          out := out + [body];
          return true;
        }
        if budget > 0 && write == TimedOut {
          counters := counters.(timeoutDrops := counters.timeoutDrops + 1, streak := counters.streak + 1);
          if counters.streak <= budget { return true; }
          counters := counters.(exhausted := counters.exhausted + 1);
        }
        counters := counters.(hardErrors := counters.hardErrors + 1);
        return false;
    }

    /** Everything taken from the queue after the acknowledgement, and what was held back before it. */
    method Forward(ms: seq<Inbound>) returns (n: nat, stopped: bool)
      requires Running([])
      modifies this
      ensures n <= |ms| && Balanced(ms[..n])
      ensures stopped <==> exists i :: 0 <= i < |ms| && Ends(ms, i, budget)
      ensures stopped ==> n > 0 && Ends(ms, n - 1, budget) && forall i :: 0 <= i < n - 1 ==> !Ends(ms, i, budget)
      ensures !stopped ==> n == |ms|
    {
      hide Ends, Running, Balanced;
      n, stopped := 0, false;
      assert ms[..0] == [];
      while n < |ms|
        invariant n <= |ms| && Running(ms[..n])
        invariant forall i :: 0 <= i < n ==> !Ends(ms, i, budget)
      {
        assert ms[..n + 1] == ms[..n] + [ms[n]];
        EndsPrefix(ms, n + 1, n, budget);
        var go := SendToClient(ms[n], ms[..n]);
        n := n + 1;
        if !go { return n, true; }
      }
      assert ms[..n] == ms;
      RunningBalanced(ms);
    }

    lemma RunningBalanced(ms: seq<Inbound>)
      requires Running(ms)
      ensures Balanced(ms)
    {
    }
  }

  // ---------- the opening ----------

  predicate NoAckIn(ms: seq<Inbound>) { forall m :: m in ms ==> !m.Ack? }

  /** Hold back everything until the first acknowledgement decides. */
  method AwaitAck(ms: seq<Inbound>) returns (r: Opening, pending: seq<Inbound>, rest: seq<Inbound>)
    ensures NoAckIn(pending)
    ensures r == NoAck ==> pending == ms && rest == []
    ensures r != NoAck ==> exists ok :: ms == pending + [Ack(ok)] + rest && (r == Established <==> ok)
  {
    pending := [];
    var i := 0;
    while i < |ms|
      invariant 0 <= i <= |ms| && pending == ms[..i] && NoAckIn(pending)
    {
      if ms[i].Ack? {
        rest := ms[i + 1..];
        assert ms == ms[..i] + [Ack(ms[i].ok)] + rest;
        return if ms[i].ok then Established else Rejected, pending, rest;
      }
      pending := pending + [ms[i]];
      i := i + 1;
    }
    return NoAck, pending, [];
  }

  /** The whole life of a user relay: once acknowledged, the messages held back are handled first and in
      order, then the others, up to and including the first one that ends the relay. */
  method Serve(relay: Relay, ms: seq<Inbound>) returns (r: Opening, handled: seq<Inbound>, stopped: bool)
    requires relay.Running([])
    modifies relay
    ensures r == Established ==>
              exists before, after ::
                && ms == before + [Ack(true)] + after && NoAckIn(before)
                && handled <= before + after
                && (!stopped ==> handled == before + after)
                && (stopped ==> handled != [] && Ends(handled, |handled| - 1, relay.budget))
                && (forall i :: 0 <= i < |handled| - 1 ==> !Ends(handled, i, relay.budget))
    ensures relay.Balanced(handled)
    ensures r != Established ==> handled == [] && relay.out == []
  {
    var pending, rest;
    r, pending, rest := AwaitAck(ms);
    handled, stopped := [], false;
    if r != Established { return; }
    var all := pending + rest;
    var n;
    n, stopped := relay.Forward(all);
    handled := all[..n];
    forall i | 0 <= i < n ensures Ends(handled, i, relay.budget) == Ends(all, i, relay.budget) {
      EndsPrefix(all, n, i, relay.budget);
    }
    assert ms == pending + [Ack(true)] + rest && handled <= pending + rest;
  }
}
