/** One relay's bounded queue under any number of concurrent producers and its consumer.
    A step is one channel operation or one counter update. */
module RelayQueue {

  datatype Kind = OpenAck | Data | Close

  datatype Message = Message(kind: Kind, relayId: string, sessionKey: string, body: string)

  /** Who is enqueueing: `deliverRelay` for a message from the agent, or session preemption. */
  datatype Source = Delivery | Preemption

  /** A producer between two of its steps. */
  datatype Pc =
    | Idle
    | TryFirst(m: Message, src: Source)
    | TryDrop(m: Message, src: Source)
    | CountDrop(m: Message)
    | TrySecond(m: Message)
    | CountEnqueue
    | CountNoSlot

  datatype Stats = Stats(enqueued: nat, droppedOldest: nat, droppedNoSlot: nat, maxDepth: nat)

  /** The fields from `accepted` on are history: messages that ever entered the channel, how many left it
      by consumption and by eviction, how many attempts were given up, and how many were begun. */
  datatype State = State(
    cap: nat, queue: seq<Message>, stats: Stats, producers: seq<Pc>,
    accepted: seq<Message>, consumed: nat, evicted: nat, refused: nat, begun: nat)

  datatype Action = Begin(i: nat, m: Message, src: Source) | Advance(i: nat) | Consume

  function Initial(cap: nat, producers: nat): State {
    State(cap, [], Stats(0, 0, 0, 0), seq(producers, i => Idle), [], 0, 0, 0, 0)
  }

  function At(s: State, i: nat, pc: Pc): State
    requires i < |s.producers|
  {
    s.(producers := s.producers[i := pc])
  }

  /** A non-blocking send; `otherwise` is where the producer goes when the channel is full. */
  function TrySend(s: State, i: nat, m: Message, otherwise: Pc): State
    requires i < |s.producers|
  {
    if |s.queue| < s.cap then At(s, i, CountEnqueue).(queue := s.queue + [m], accepted := s.accepted + [m])
    else if otherwise == CountNoSlot then At(s, i, CountNoSlot).(refused := s.refused + 1)
    else At(s, i, otherwise)
  }

  function AdvanceStep(s: State, i: nat): State
    requires i < |s.producers|
  {
    match s.producers[i]
    case Idle => s
    case TryFirst(m, src) =>
      TrySend(s, i, m, if src == Preemption || m.kind == Data then TryDrop(m, src) else CountNoSlot)
    case TryDrop(m, src) =>
      if s.queue != [] then At(s, i, CountDrop(m)).(queue := s.queue[1..], evicted := s.evicted + 1)
      else if src == Delivery then At(s, i, TrySecond(m))
      else At(s, i, CountNoSlot).(refused := s.refused + 1)
    case CountDrop(m) => At(s, i, TrySecond(m)).(stats := s.stats.(droppedOldest := s.stats.droppedOldest + 1))
    case TrySecond(m) => TrySend(s, i, m, CountNoSlot)
    case CountEnqueue =>
      At(s, i, Idle).(stats := s.stats.(enqueued := s.stats.enqueued + 1,
                                        maxDepth := if |s.queue| > s.stats.maxDepth then |s.queue|
                                                    else s.stats.maxDepth))
    case CountNoSlot => At(s, i, Idle).(stats := s.stats.(droppedNoSlot := s.stats.droppedNoSlot + 1))
  }

  function Step(s: State, a: Action): State {
    match a
    case Begin(i, m, src) =>
      if i < |s.producers| && s.producers[i] == Idle
      then At(s, i, TryFirst(m, src)).(begun := s.begun + 1) else s
    case Advance(i) => if i < |s.producers| then AdvanceStep(s, i) else s
    case Consume => if s.queue == [] then s else s.(queue := s.queue[1..], consumed := s.consumed + 1)
  }

  function Run(s: State, acts: seq<Action>): State {
    if acts == [] then s else Step(Run(s, acts[..|acts| - 1]), acts[|acts| - 1])
  }

  // ---------- counting producers ----------

  datatype Place = Undecided | Counting(what: Pc)

  predicate In(pc: Pc, p: Place) {
    match p
    case Undecided => pc.TryFirst? || pc.TryDrop? || pc.CountDrop? || pc.TrySecond?
    case Counting(what) => (what.CountEnqueue? && pc.CountEnqueue?) || (what.CountNoSlot? && pc.CountNoSlot?)
                           || (what.CountDrop? && pc.CountDrop?)
  }

  function Bit(b: bool): nat { if b then 1 else 0 }

  function Number(ps: seq<Pc>, p: Place): nat {
    if ps == [] then 0 else Number(ps[1..], p) + Bit(In(ps[0], p))
  }

  lemma {:induction false} NumberUpdate(ps: seq<Pc>, i: nat, pc: Pc, p: Place)
    requires i < |ps|
    ensures Number(ps[i := pc], p) == Number(ps, p) - Bit(In(ps[i], p)) + Bit(In(pc, p))
    decreases i
  {
    if i == 0 {
      assert ps[0 := pc][1..] == ps[1..];
    } else {
      NumberUpdate(ps[1..], i - 1, pc, p);
      assert ps[i := pc][1..] == ps[1..][i - 1 := pc];
    }
  }

  lemma {:induction false} NumberIdle(ps: seq<Pc>, p: Place)
    requires forall i :: 0 <= i < |ps| ==> ps[i] == Idle
    ensures Number(ps, p) == 0
  {
    if ps != [] { NumberIdle(ps[1..], p); }
  }

  const Enqueuing: Place := Counting(CountEnqueue)
  const Refusing: Place := Counting(CountNoSlot)
  const Dropping: Place := Counting(CountDrop(Message(Data, "", "", "")))

  // ---------- the invariant ----------

  ghost predicate Conserved(s: State) {
    && |s.queue| <= s.cap && s.stats.maxDepth <= s.cap
    && |s.accepted| == s.consumed + s.evicted + |s.queue|
    && s.queue == s.accepted[s.consumed + s.evicted..]
    && s.stats.enqueued + Number(s.producers, Enqueuing) == |s.accepted|
    && s.stats.droppedOldest + Number(s.producers, Dropping) == s.evicted
    && s.stats.droppedNoSlot + Number(s.producers, Refusing) == s.refused
    && s.begun == |s.accepted| + s.refused + Number(s.producers, Undecided)
  }

  lemma PlaceMove(s: State, i: nat, pc: Pc)
    requires i < |s.producers|
    ensures forall p :: Number(At(s, i, pc).producers, p) ==
                        Number(s.producers, p) - Bit(In(s.producers[i], p)) + Bit(In(pc, p))
  {
    forall p ensures Number(At(s, i, pc).producers, p) ==
                     Number(s.producers, p) - Bit(In(s.producers[i], p)) + Bit(In(pc, p))
    {
      NumberUpdate(s.producers, i, pc, p);
    }
  }

  lemma SendConserves(s: State, i: nat, m: Message, otherwise: Pc)
    requires Conserved(s) && i < |s.producers| && In(s.producers[i], Undecided)
    requires !s.producers[i].CountDrop?
    requires otherwise.TryDrop? || otherwise == CountNoSlot
    ensures Conserved(TrySend(s, i, m, otherwise))
  {
    hide Number;
    PlaceMove(s, i, CountEnqueue);
    PlaceMove(s, i, otherwise);
    assert (s.accepted + [m])[s.consumed + s.evicted..] == s.accepted[s.consumed + s.evicted..] + [m];
  }

  lemma AdvanceConserves(s: State, i: nat)
    requires Conserved(s) && i < |s.producers|
    ensures Conserved(AdvanceStep(s, i))
  {
    hide Number, TrySend;
    match s.producers[i]
    case Idle =>
    case TryFirst(m, src) =>
      SendConserves(s, i, m, if src == Preemption || m.kind == Data then TryDrop(m, src) else CountNoSlot);
    case TryDrop(m, src) =>
      PlaceMove(s, i, CountDrop(m));
      PlaceMove(s, i, TrySecond(m));
      PlaceMove(s, i, CountNoSlot);
    case CountDrop(m) => PlaceMove(s, i, TrySecond(m));
    case TrySecond(m) => SendConserves(s, i, m, CountNoSlot);
    case CountEnqueue => PlaceMove(s, i, Idle);
    case CountNoSlot => PlaceMove(s, i, Idle);
  }

  lemma StepConserves(s: State, a: Action)
    requires Conserved(s)
    ensures Conserved(Step(s, a))
  {
    hide Number, AdvanceStep;
    match a
    case Begin(i, m, src) => if i < |s.producers| { PlaceMove(s, i, TryFirst(m, src)); }
    case Advance(i) => if i < |s.producers| { AdvanceConserves(s, i); }
    case Consume =>
  }

  /** For every capacity, any number of producers and every interleaving: the queue is the contiguous
      suffix of the accepted messages, never longer than its capacity; accepted = consumed + evicted +
      depth; attempts = accepted + refused + undecided; and each counter lags its event only by the
      producers about to count it. */
  lemma {:induction false} QueueConserves(cap: nat, producers: nat, acts: seq<Action>)
    ensures Conserved(Run(Initial(cap, producers), acts))
  {
    hide Conserved, Step;
    var s := Initial(cap, producers);
    if acts == [] {
      InitialConserved(cap, producers);
    } else {
      QueueConserves(cap, producers, acts[..|acts| - 1]);
      StepConserves(Run(s, acts[..|acts| - 1]), acts[|acts| - 1]);
    }
  }

  lemma InitialConserved(cap: nat, producers: nat)
    ensures Conserved(Initial(cap, producers))
  {
    var s := Initial(cap, producers);
    NumberIdle(s.producers, Enqueuing);
    NumberIdle(s.producers, Refusing);
    NumberIdle(s.producers, Dropping);
    NumberIdle(s.producers, Undecided);
  }

  /** Whenever no producer is in the middle of an attempt, the reported counters balance exactly. */
  lemma CountersBalance(cap: nat, producers: nat, acts: seq<Action>)
    requires var ps := Run(Initial(cap, producers), acts).producers; forall i :: 0 <= i < |ps| ==> ps[i] == Idle
    ensures var s := Run(Initial(cap, producers), acts);
            && s.stats.enqueued == s.consumed + s.stats.droppedOldest + |s.queue|
            && s.begun == s.stats.enqueued + s.stats.droppedNoSlot
            && s.stats.maxDepth <= cap
  {
    hide Number;
    QueueConserves(cap, producers, acts);
    var s := Run(Initial(cap, producers), acts);
    CapFixed(Initial(cap, producers), acts);
    NumberIdle(s.producers, Enqueuing);
    NumberIdle(s.producers, Refusing);
    NumberIdle(s.producers, Dropping);
    NumberIdle(s.producers, Undecided);
  }

  lemma {:induction false} CapFixed(s: State, acts: seq<Action>)
    ensures Run(s, acts).cap == s.cap
  {
    if acts != [] { CapFixed(s, acts[..|acts| - 1]); }
  }

  /** The message a producer is trying to place. */
  predicate Carries(pc: Pc, m: Message) {
    (pc.TryFirst? || pc.TryDrop? || pc.CountDrop? || pc.TrySecond?) && pc.m == m
  }

  ghost predicate WasBegun(acts: seq<Action>, m: Message) { exists i, src :: Begin(i, m, src) in acts }

  ghost predicate AllBegun(s: State, acts: seq<Action>) {
    && (forall m :: m in s.accepted ==> WasBegun(acts, m))
    && (forall i, m :: 0 <= i < |s.producers| && Carries(s.producers[i], m) ==> WasBegun(acts, m))
  }

  lemma BegunLater(acts: seq<Action>, a: Action, m: Message)
    ensures WasBegun(acts, m) ==> WasBegun(acts + [a], m)
    ensures a.Begin? && a.m == m ==> WasBegun(acts + [a], m)
  {
    if WasBegun(acts, m) {
      var i, src :| Begin(i, m, src) in acts;
      assert Begin(i, m, src) in acts + [a];
    }
    if a.Begin? && a.m == m { assert Begin(a.i, m, a.src) in acts + [a]; }
  }

  /** Nothing is queued that no producer set out to queue. */
  lemma {:induction false} AcceptedWereBegun(cap: nat, producers: nat, acts: seq<Action>)
    ensures AllBegun(Run(Initial(cap, producers), acts), acts)
  {
    if acts != [] {
      hide WasBegun;
      var n := |acts| - 1;
      AcceptedWereBegun(cap, producers, acts[..n]);
      assert acts == acts[..n] + [acts[n]];
      forall m ensures WasBegun(acts[..n], m) ==> WasBegun(acts, m) { BegunLater(acts[..n], acts[n], m); }
      if acts[n].Begin? { BegunLater(acts[..n], acts[n], acts[n].m); }
    }
  }

  /** The consumer gets the oldest message, if there is one. */
  lemma ConsumeTakesOldest(s: State)
    ensures var s' := Step(s, Consume);
            if s.queue == [] then s' == s
            else [s.queue[0]] + s'.queue == s.queue && s' == s.(queue := s'.queue, consumed := s.consumed + 1)
  {
  }
}
