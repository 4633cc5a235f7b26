/** How the fallback gate paces failed attempts when triggers of many robots run concurrently. */
module GateTiming {
  import opened Bytes
  import opened Text
  import opened FallbackGate
  import opened GateHistory

  // ---------- triggers under way ----------

  /** A trigger has read the clock, or has been admitted and is talking to the robot. */
  datatype Flight = Entered(t: Trigger) | Admitted(t: Trigger)

  /** `log` is history: the calls made to the gate. */
  datatype State = State(gate: States, flights: map<nat, Flight>, clock: int, log: seq<Call>)

  datatype Action =
    | Begin(i: nat, t: Trigger)  // read the clock
    | Consult(i: nat)            // the control channel took the message, or ask the gate
    | Settle(i: nat)             // the TCP trigger returned

  function Calls(s: State, c: Call): State { s.(gate := Do(s.gate, c), log := s.log + [c]) }

  function Leaves(s: State, i: nat): State { s.(flights := s.flights - {i}) }

  /** Every trigger keeps using the instant it read at the start; the clock never goes back. */
  function Step(s: State, a: Action): State {
    match a
    case Begin(i, t) =>
      if i in s.flights || t.now < s.clock then s else s.(flights := s.flights[i := Entered(t)], clock := t.now)
    case Consult(i) =>
      if i !in s.flights || !s.flights[i].Entered? then s
      else
        var t := s.flights[i].t;
        if t.outcome == Delivered then Leaves(Calls(s, Asked(Success, t)), i)
        else if !Admits(s.gate, t) || t.outcome == NoTarget then Leaves(Calls(s, Asked(Ask, t)), i)
        else Calls(s, Asked(Ask, t)).(flights := s.flights[i := Admitted(t)])
    case Settle(i) =>
      if i !in s.flights || !s.flights[i].Admitted? then s
      else
        var t := s.flights[i].t;
        Leaves(Calls(s, Asked(if t.outcome == TcpFailed then Failure else Success, t)), i)
  }

  function Run(from: int, acts: seq<Action>): State {
    if acts == [] then State(map[], map[], from, []) else Step(Run(from, acts[..|acts| - 1]), acts[|acts| - 1])
  }

  /** The three steps of a trigger that nothing interrupts add up to the whole of it. */
  lemma SoloTrigger(s: State, i: nat, t: Trigger)
    requires i !in s.flights && s.clock <= t.now
    ensures var s' := Step(Step(Step(s, Begin(i, t)), Consult(i)), Settle(i));
            s'.gate == After(s.gate, t) && s'.flights == s.flights
  {
    hide Do, Allows, GateKey;
    var s1 := Step(s, Begin(i, t));
    var s2 := Step(s1, Consult(i));
    assert s1.flights - {i} == s.flights;
    assert s2.flights - {i} == s.flights;
  }

  // ---------- the schedule ----------

  const MINUTE: nat := 60 * SECOND

  function Schedule(k: nat, teardown: bool): nat {
    if k == 0 then 0 else Schedule(k - 1, teardown) + Backoff(k, teardown)
  }

  lemma BackoffValues(k: nat, teardown: bool)
    ensures Backoff(k, teardown) <= Max(teardown)
    ensures k >= 5 ==> Backoff(k, teardown) == Max(teardown)
  {
    if k >= 5 {
      assert Pow2(4) == 16;
      Reached(4, k, teardown);
    }
  }

  /** How far a series that restarts at its c-th backoff can still fall behind one at the cap. */
  function Deficit(c: nat, teardown: bool): nat
    decreases 5 - c
  {
    BackoffValues(c, teardown);
    if c >= 5 then 0 else Max(teardown) - Backoff(c, teardown) + Deficit(c + 1, teardown)
  }

  lemma DeficitStep(c: nat, teardown: bool)
    requires c >= 1
    ensures Deficit(c, teardown) == Max(teardown) - Backoff(c, teardown) + Deficit(c + 1, teardown)
  {
    BackoffValues(c, teardown);
  }

  /** A minute makes up for any restart. */
  lemma DeficitBound(c: nat, teardown: bool)
    requires c >= 1
    ensures Max(teardown) + Deficit(c, teardown) <= MINUTE
  {
    if c < 5 {
      assert Deficit(5, teardown) == 0;
      assert Deficit(4, teardown) <= Max(teardown);
      assert Deficit(3, teardown) <= 2 * Max(teardown);
      assert Deficit(2, teardown) <= 3 * Max(teardown);
      assert Deficit(1, teardown) <= 4 * Max(teardown);
    }
  }

  // ---------- one key ----------

  predicate EndsBy(f: seq<int>, now: int) { f != [] ==> f[|f| - 1] <= now }

  /** The entry of a key by the time `clock` after the failures `f`: it either still counts consecutive
      failures, or was forgotten a full retention period after the last of them.  A series that started
      again has made up for it, unless the clock has moved on so far that it does not matter. */
  ghost predicate Paced(e: Entry, f: seq<int>, teardown: bool, clock: int) {
    if f == [] then e.failures == 0 && e.nextAllowed == None
    else
      var n, first, last := |f|, f[0], f[|f| - 1];
      && last <= clock && last - first >= Schedule(n - 1, teardown)
      && if e.failures == 0 then e.nextAllowed == None && clock > last + RETENTION
         else
           && e.failures <= n
           && e.nextAllowed == Some(last + Backoff(e.failures, teardown))
           && e.lastSeen.Some? && e.lastSeen.value >= last
           && (e.failures < n ==> || last - first >= Schedule(n - 1, teardown) + Deficit(e.failures, teardown)
                                  || clock > last + RETENTION)
  }

  /** What an attempt admitted at `now` can count on when it fails, however long it takes. */
  ghost predicate Ready(e: Entry, f: seq<int>, teardown: bool, now: int, clock: int) {
    && (e.lastSeen.Some? ==> e.lastSeen.value >= now) && (e.failures > 0 ==> e.lastSeen.Some?)
    && (f != [] ==>
          && f[|f| - 1] <= now && now - f[0] >= Schedule(|f|, teardown)
          && (e.failures < |f| ==> || now - f[0] >= Schedule(|f|, teardown) + Deficit(e.failures + 1, teardown)
                                   || clock > now + RETENTION))
  }

  lemma LaterPaced(e: Entry, f: seq<int>, teardown: bool, before: int, clock: int)
    requires Paced(e, f, teardown, before) && before <= clock
    ensures Paced(e, f, teardown, clock)
  {
    hide Schedule, Deficit, Backoff;
  }

  lemma SeenPaced(e: Entry, f: seq<int>, teardown: bool, now: int, clock: int)
    requires Paced(e, f, teardown, clock) && EndsBy(f, now)
    ensures Paced(e.(lastSeen := Some(now)), f, teardown, clock)
    ensures Paced(Entry(None, 0, Some(now)), [], teardown, clock)
  {
    hide Schedule, Deficit, Backoff;
  }

  lemma PrunePaced(s: States, f: seq<int>, key: string, teardown: bool, now: int, clock: int)
    requires Paced(Get(s, key), f, teardown, clock) && now <= clock
    ensures Paced(Get(Pruned(s, now), key), f, teardown, clock)
  {
    hide Schedule, Deficit, Backoff;
  }

  /** An attempt is admitted, less than 19 minutes after it read the clock. */
  lemma AdmittedReady(e: Entry, f: seq<int>, teardown: bool, now: int, clock: int)
    requires Paced(e, f, teardown, clock) && !Blocked(e, now) && now <= clock <= now + RETENTION - MINUTE
    requires EndsBy(f, now)
    ensures Ready(e.(lastSeen := Some(now)), f, teardown, now, clock)
  {
    hide Deficit, Pow2;
    if f != [] {
      var n, c := |f|, e.failures;
      BackoffValues(n, teardown);
      DeficitBound(c + 1, teardown);
      if c > 0 { DeficitStep(c, teardown); }
    }
  }

  lemma PruneReady(s: States, f: seq<int>, key: string, teardown: bool, at: int, now: int, clock: int)
    requires Ready(Get(s, key), f, teardown, now, clock) && at <= clock
    ensures Ready(Get(Pruned(s, at), key), f, teardown, now, clock)
  {
    hide Schedule, Deficit;
  }

  lemma LaterReady(e: Entry, f: seq<int>, teardown: bool, now: int, before: int, clock: int)
    requires Ready(e, f, teardown, now, before) && before <= clock
    ensures Ready(e, f, teardown, now, clock)
  {
    hide Schedule, Deficit;
  }

  lemma FailurePaced(e: Entry, f: seq<int>, teardown: bool, now: int, clock: int)
    requires Paced(e, f, teardown, clock) && Ready(e, f, teardown, now, clock) && now <= clock
    ensures Paced(Entry(Some(now + Backoff(e.failures + 1, teardown)), e.failures + 1, Some(now)), f + [now],
                  teardown, clock)
  {
    hide Deficit, Backoff, Schedule;
    if f == [] { NoSchedule(teardown); } else { assert (f + [now])[0] == f[0]; }
  }

  lemma NoSchedule(teardown: bool)
    ensures Schedule(0, teardown) == 0
  {
  }

  // ---------- runs ----------

  function FlightKey(f: Flight): string { GateKey(f.t.robot, f.t.teardown) }

  /** Triggers of one key do not overlap each other, and none of them takes 19 minutes or more from
      reading the clock to asking the gate; the attempt itself may take any time, and triggers of other keys
      may do as they like. */
  predicate Orderly(s: State, a: Action, key: string) {
    match a
    case Begin(_, t) =>
      GateKey(t.robot, t.teardown) == key ==> forall j :: j in s.flights ==> FlightKey(s.flights[j]) != key
    case Consult(i) =>
      i in s.flights && FlightKey(s.flights[i]) == key ==> s.clock - s.flights[i].t.now <= RETENTION - MINUTE
    case Settle(_) => true
  }

  predicate OrderlyRun(from: int, acts: seq<Action>, key: string) {
    acts == [] ||
    var n := |acts| - 1;
    OrderlyRun(from, acts[..n], key) && Orderly(Run(from, acts[..n]), acts[n], key)
  }

  ghost predicate FlightOk(s: State, key: string, teardown: bool, f: Flight) {
    && f.t.now <= s.clock
    && (FlightKey(f) == key ==>
          && EndsBy(Streak(s.log, key), f.t.now)
          && (f.Admitted? ==> Ready(Get(s.gate, key), Streak(s.log, key), teardown, f.t.now, s.clock)))
  }

  ghost predicate Inv(s: State, key: string, teardown: bool) {
    && Paced(Get(s.gate, key), Streak(s.log, key), teardown, s.clock)
    && (forall i :: i in s.flights ==> FlightOk(s, key, teardown, s.flights[i]))
    && (forall i, j :: i in s.flights && j in s.flights && FlightKey(s.flights[i]) == key == FlightKey(s.flights[j])
                       ==> i == j)
  }

  /** What one call does to the key's entry and history. */
  lemma CallPaced(s: State, c: Call, robot: string, teardown: bool)
    requires var key := GateKey(robot, teardown);
             && key != "" && Paced(Get(s.gate, key), Streak(s.log, key), teardown, s.clock) && c.now <= s.clock
             && (KeyOf(c) == key ==> EndsBy(Streak(s.log, key), c.now))
             && (KeyOf(c) == key && c.kind == Failure ==>
                   Ready(Get(s.gate, key), Streak(s.log, key), teardown, c.now, s.clock))
    ensures var key, s' := GateKey(robot, teardown), Calls(s, c);
            && Paced(Get(s'.gate, key), Streak(s'.log, key), teardown, s.clock)
            && Streak(s'.log, key) == (if KeyOf(c) != key || c.kind == Ask then Streak(s.log, key)
                                       else if c.kind == Failure then Streak(s.log, key) + [c.now] else [])
  {
    hide GateKey, Schedule, Deficit, Backoff, Streak, LastCall, Live, Ready, Paced;
    var key, f := GateKey(robot, teardown), Streak(s.log, GateKey(robot, teardown));
    OneMore(s.log, c, key);
    PrunePaced(s.gate, f, key, teardown, c.now, s.clock);
    var e := Get(Pruned(s.gate, c.now), key);
    if KeyOf(c) == key {
      SameKind([c], robot, teardown);
      SeenPaced(e, f, teardown, c.now, s.clock);
      if c.kind == Failure {
        PruneReady(s.gate, f, key, teardown, c.now, c.now, s.clock);
        FailurePaced(e, f, teardown, c.now, s.clock);
      }
    }
  }

  /** A call of another key can at most forget the entry. */
  lemma OthersReady(s: State, c: Call, key: string, teardown: bool, now: int)
    requires KeyOf(c) != key && c.now <= s.clock
    requires Ready(Get(s.gate, key), Streak(s.log, key), teardown, now, s.clock)
    ensures Ready(Get(Calls(s, c).gate, key), Streak(s.log, key), teardown, now, s.clock)
  {
    hide GateKey, Streak, Ready, Backoff;
    PruneReady(s.gate, Streak(s.log, key), key, teardown, c.now, now, s.clock);
  }

  lemma AskedReady(s: State, c: Call, robot: string, teardown: bool)
    requires var key := GateKey(robot, teardown);
             && key != "" && KeyOf(c) == key && c.kind == Ask && Allows(s.gate, key, c.now)
             && Paced(Get(s.gate, key), Streak(s.log, key), teardown, s.clock) && EndsBy(Streak(s.log, key), c.now)
             && c.now <= s.clock <= c.now + RETENTION - MINUTE
    ensures var key := GateKey(robot, teardown);
            Ready(Get(Calls(s, c).gate, key), Streak(s.log, key), teardown, c.now, s.clock)
  {
    hide GateKey, Streak, Ready, Backoff, Schedule, Deficit, Paced;
    var key, f := GateKey(robot, teardown), Streak(s.log, GateKey(robot, teardown));
    PrunePaced(s.gate, f, key, teardown, c.now, s.clock);
    AdmittedReady(Get(Pruned(s.gate, c.now), key), f, teardown, c.now, s.clock);
  }

  /** A flight makes a call, and then leaves or goes on as admitted. */
  lemma CallInv(s: State, i: nat, kind: Kind, s': State, robot: string, teardown: bool)
    requires GateKey(robot, teardown) != "" && Inv(s, GateKey(robot, teardown), teardown) && i in s.flights
    requires var t := s.flights[i].t;
             && s' == Calls(s, Asked(kind, t)).(flights := s'.flights)
             && (s'.flights == s.flights - {i}
                 || (s'.flights == s.flights[i := Admitted(t)] && kind == Ask && Admits(s.gate, t)))
             && (FlightKey(s.flights[i]) == GateKey(robot, teardown) ==>
                   if s.flights[i].Admitted? then kind != Ask
                   else kind != Failure && s.clock - t.now <= RETENTION - MINUTE)
    ensures Inv(s', GateKey(robot, teardown), teardown)
  {
    hide GateKey, Paced, Ready, Do, Streak, Allows, EndsBy;
    var key, t := GateKey(robot, teardown), s.flights[i].t;
    var c := Asked(kind, t);
    assert FlightOk(s, key, teardown, s.flights[i]);
    CallPaced(s, c, robot, teardown);
    forall j | j in s'.flights ensures FlightOk(s', key, teardown, s'.flights[j]) {
      assert FlightOk(s, key, teardown, s.flights[j]);
      assert FlightKey(s'.flights[j]) == FlightKey(s.flights[j]);
      if FlightKey(s.flights[j]) == key {
        if j == i { AskedReady(s, c, robot, teardown); }
        else if s.flights[j].Admitted? { OthersReady(s, c, key, teardown, s.flights[j].t.now); }
      }
    }
  }

  lemma BeginInv(s: State, i: nat, t: Trigger, key: string, teardown: bool)
    requires Inv(s, key, teardown) && Orderly(s, Begin(i, t), key)
    ensures Inv(Step(s, Begin(i, t)), key, teardown)
  {
    hide GateKey, Paced, Ready, Streak, EndsBy;
    if i !in s.flights && s.clock <= t.now {
      var s', f := Step(s, Begin(i, t)), Streak(s.log, key);
      LaterPaced(Get(s.gate, key), f, teardown, s.clock, t.now);
      EndsEarlier(s, key, teardown, t.now);
      forall j | j in s'.flights ensures FlightOk(s', key, teardown, s'.flights[j]) {
        if j != i {
          assert FlightOk(s, key, teardown, s.flights[j]);
          var u := s.flights[j];
          if u.Admitted? && FlightKey(u) == key {
            LaterReady(Get(s.gate, key), f, teardown, u.t.now, s.clock, t.now);
          }
        }
      }
    }
  }

  lemma StepInv(s: State, a: Action, robot: string, teardown: bool)
    requires var key := GateKey(robot, teardown); key != "" && Inv(s, key, teardown) && Orderly(s, a, key)
    ensures Inv(Step(s, a), GateKey(robot, teardown), teardown)
  {
    var s' := Step(s, a);
    if a.Begin? {
      hide Inv, Orderly, Step, GateKey;
      BeginInv(s, a.i, a.t, GateKey(robot, teardown), teardown);
    } else if a.i in s.flights && a.Consult? && s.flights[a.i].Entered? {
      hide Inv, GateKey, Do, Allows;
      var t := s.flights[a.i].t;
      CallInv(s, a.i, if t.outcome == Delivered then Success else Ask, s', robot, teardown);
    } else if a.i in s.flights && a.Settle? && s.flights[a.i].Admitted? {
      hide Inv, GateKey, Do;
      var t := s.flights[a.i].t;
      CallInv(s, a.i, if t.outcome == TcpFailed then Failure else Success, s', robot, teardown);
    }
  }

  lemma EndsEarlier(s: State, key: string, teardown: bool, now: int)
    requires Paced(Get(s.gate, key), Streak(s.log, key), teardown, s.clock) && s.clock <= now
    ensures EndsBy(Streak(s.log, key), now)
  {
    hide Schedule, Deficit, Backoff;
  }

  lemma {:induction false} RunInv(from: int, acts: seq<Action>, robot: string, teardown: bool)
    requires GateKey(robot, teardown) != "" && OrderlyRun(from, acts, GateKey(robot, teardown))
    ensures Inv(Run(from, acts), GateKey(robot, teardown), teardown)
  {
    hide GateKey, Step;
    if acts != [] {
      hide Inv, Orderly;
      RunInv(from, acts[..|acts| - 1], robot, teardown);
      StepInv(Run(from, acts[..|acts| - 1]), acts[|acts| - 1], robot, teardown);
    }
  }

  // ---------- what the steps do to a key's failures ----------

  /** A message that the control channel takes, like an attempt that succeeds, ends the streak of its key; a
      failed attempt adds to it; asking leaves it alone, and is followed by an attempt exactly when the
      gate admits and there is a target. */
  lemma FlightMeans(s: State, i: nat, key: string)
    requires i in s.flights
    ensures var f, t := s.flights[i], s.flights[i].t;
            var own := GateKey(t.robot, t.teardown) == key;
            var asked, settled := Step(s, Consult(i)), Step(s, Settle(i));
            var before := Streak(s.log, key);
            && (f.Entered? && t.outcome == Delivered ==>
                  i !in asked.flights && Streak(asked.log, key) == if own then [] else before)
            && (f.Entered? && t.outcome != Delivered ==>
                  && Streak(asked.log, key) == before
                  && (i in asked.flights <==>
                        t.outcome != NoTarget && Allows(s.gate, GateKey(t.robot, t.teardown), t.now))
                  && (i in asked.flights ==> asked.flights[i] == Admitted(t)))
            && (f.Admitted? ==>
                  && i !in settled.flights
                  && Streak(settled.log, key) ==
                     if !own then before else if t.outcome == TcpFailed then before + [t.now] else [])
            && (f.Admitted? ==> asked == s) && (f.Entered? ==> settled == s)
  {
    hide GateKey, Do, Streak, Allows, Live, LastCall;
    var t := s.flights[i].t;
    OneMore(s.log, Asked(Ask, t), key);
    OneMore(s.log, Asked(Success, t), key);
    OneMore(s.log, Asked(Failure, t), key);
  }

  // ---------- the guarantees ----------

  /** The table of a run is that of its calls, so everything known about histories applies to it. */
  lemma {:induction false} RunIsTable(from: int, acts: seq<Action>)
    ensures Run(from, acts).gate == Table(Run(from, acts).log)
  {
    hide Step, Table;
    if acts == [] { NoTable(); }
    else {
      RunIsTable(from, acts[..|acts| - 1]);
      StepIsTable(Run(from, acts[..|acts| - 1]), acts[|acts| - 1]);
    }
  }

  lemma NoTable()
    ensures Table([]) == map[]
  {
  }

  lemma TableMore(log: seq<Call>, c: Call)
    ensures Table(log + [c]) == Do(Table(log), c)
  {
    hide Do;
    assert (log + [c])[..|log|] == log;
  }

  lemma StepIsTable(s: State, a: Action)
    requires s.gate == Table(s.log)
    ensures Step(s, a).gate == Table(Step(s, a).log)
  {
    hide Do, Admits, Table;
    if !a.Begin? && a.i in s.flights {
      var t := s.flights[a.i].t;
      forall kind ensures Table(s.log + [Asked(kind, t)]) == Do(Table(s.log), Asked(kind, t)) {
        TableMore(s.log, Asked(kind, t));
      }
    }
  }

  /** In every run in which the triggers of a key are orderly, the n-th failure since its last success
      comes at least the sum of the first n-1 capped backoffs after the first; entries forgotten in
      between do not help. */
  lemma FailuresPaced(from: int, acts: seq<Action>, robot: string, teardown: bool)
    requires GateKey(robot, teardown) != "" && OrderlyRun(from, acts, GateKey(robot, teardown))
    ensures var f := Streak(Run(from, acts).log, GateKey(robot, teardown));
            f != [] ==> f[|f| - 1] - f[0] >= Schedule(|f| - 1, teardown)
  {
    hide Schedule, Deficit, Backoff, Run, GateKey;
    RunInv(from, acts, robot, teardown);
  }

  /** Two triggers of one key that overlap are both admitted, and fail at the same instant. */
  lemma OverlapUnpaced()
    ensures var t := Trigger("r", false, 0, TcpFailed);
            var acts := [Begin(0, t), Begin(1, t), Consult(0), Consult(1), Settle(0), Settle(1)];
            Streak(Run(0, acts).log, GateKey("r", false)) == [0, 0] && Schedule(1, false) > 0
  {
    hide GateKey, Streak, Step;
    var t := Trigger("r", false, 0, TcpFailed);
    var acts := [Begin(0, t), Begin(1, t), Consult(0), Consult(1), Settle(0), Settle(1)];
    assert acts[..0] == [] && acts[..6] == acts;
    assert Run(0, acts[..0]) == State(map[], map[], 0, []);
    forall i | 0 <= i < 6 ensures Run(0, acts[..i + 1]) == Step(Run(0, acts[..i]), acts[i]) {
      assert acts[..i + 1][..i] == acts[..i];
    }
    hide Run;
    var s1, s2, s3 := Run(0, acts[..1]), Run(0, acts[..2]), Run(0, acts[..3]);
    assert s1 == Step(Run(0, acts[..0]), acts[0]) && s2 == Step(s1, acts[1]) && s3 == Step(s2, acts[2]);
    BothBegin(t);
    RunIsTable(0, acts[..2]);
    Free([], t);
    OneAdmitted(s2, 0, t);
    RunIsTable(0, acts[..3]);
    Free(s3.log, t);
    OneAdmitted(s3, 1, t);
    var s4, s5 := Run(0, acts[..4]), Run(0, acts[..5]);
    assert s4 == Step(s3, acts[3]) && s5 == Step(s4, acts[4]);
    assert Run(0, acts[..6]) == Step(s5, acts[5]);
    BothFail(s4, t);
    TwoFailures(t);
  }

  lemma BothBegin(t: Trigger)
    requires t.now == 0
    ensures Step(Step(State(map[], map[], 0, []), Begin(0, t)), Begin(1, t)) ==
            State(map[], map[0 := Entered(t), 1 := Entered(t)], 0, [])
  {
  }

  lemma OneAdmitted(s: State, i: nat, t: Trigger)
    requires i in s.flights && s.flights[i] == Entered(t) && Admits(s.gate, t) && t.outcome == TcpFailed
    ensures var s' := Step(s, Consult(i));
            && s'.flights == s.flights[i := Admitted(t)] && s'.log == s.log + [Asked(Ask, t)]
            && s'.clock == s.clock
  {
    hide Do, Admits;
  }

  lemma BothFail(s: State, t: Trigger)
    requires s.flights == map[0 := Admitted(t), 1 := Admitted(t)] && t.outcome == TcpFailed
    ensures Step(Step(s, Settle(0)), Settle(1)).log == s.log + [Asked(Failure, t)] + [Asked(Failure, t)]
  {
    hide Do;
  }

  lemma TwoFailures(t: Trigger)
    requires t == Trigger("r", false, 0, TcpFailed)
    ensures var a, f := Asked(Ask, t), Asked(Failure, t);
            Streak([] + [a] + [a] + [f] + [f], GateKey("r", false)) == [0, 0]
  {
    hide GateKey, Streak, Live, LastCall;
    var key, a, f := GateKey("r", false), Asked(Ask, t), Asked(Failure, t);
    NoCalls(key);
    OneMore([], a, key);
    OneMore([] + [a], a, key);
    OneMore([] + [a] + [a], f, key);
    OneMore([] + [a] + [a] + [f], f, key);
  }

  lemma RunMore(from: int, acts: seq<Action>, a: Action)
    ensures Run(from, acts + [a]) == Step(Run(from, acts), a)
  {
    hide Step;
    assert (acts + [a])[..|acts|] == acts;
  }

  /** One trigger fails at instant 0, and the next one reads the clock. */
  function FailsOnce(t: Trigger, u: Trigger): seq<Action> {
    [] + [Begin(0, t)] + [Consult(0)] + [Settle(0)] + [Begin(1, u)]
  }

  lemma FailsOnceRun(t: Trigger, u: Trigger)
    requires t.now == 0 && t.outcome == TcpFailed && u.now == 1
    ensures var s := Run(0, FailsOnce(t, u));
            && s.flights == map[1 := Entered(u)] && s.clock == 1
            && s.log == [] + [Asked(Ask, t)] + [Asked(Failure, t)]
  {
    var a := [];
    assert Run(0, a) == State(map[], map[], 0, []);
    hide Run, Step;
    RunMore(0, a, Begin(0, t));
    Begins(Run(0, a), 0, t);
    a := a + [Begin(0, t)];
    RunIsTable(0, a);
    Free([], t);
    RunMore(0, a, Consult(0));
    OneAdmitted(Run(0, a), 0, t);
    a := a + [Consult(0)];
    RunMore(0, a, Settle(0));
    FailsAlone(Run(0, a), 0, t);
    a := a + [Settle(0)];
    RunMore(0, a, Begin(1, u));
    Begins(Run(0, a), 1, u);
  }

  /** A trigger that asks 25 minutes after it read the clock is admitted an instant after a failure, because
      a trigger of another robot has had the entry pruned meanwhile. */
  lemma LateAskUnpaced()
    ensures var t, u := Trigger("r", false, 0, TcpFailed), Trigger("r", false, 1, TcpFailed);
            var other := Trigger("s", false, 25 * MINUTE, NoTarget);
            var acts := FailsOnce(t, u) + [Begin(2, other)] + [Consult(2)] + [Consult(1)] + [Settle(1)];
            Streak(Run(0, acts).log, GateKey("r", false)) == [0, 1] && Schedule(1, false) > 1
  {
    var t, u := Trigger("r", false, 0, TcpFailed), Trigger("r", false, 1, TcpFailed);
    var other := Trigger("s", false, 25 * MINUTE, NoTarget);
    TrimNoop("r");
    TrimNoop("s");
    KeysDistinct("r", false, "s", false);
    hide GateKey, Streak, Step, Run, FailsOnce, Table, Admits;
    var a := FailsOnce(t, u);
    FailsOnceRun(t, u);
    RunMore(0, a, Begin(2, other));
    Begins(Run(0, a), 2, other);
    a := a + [Begin(2, other)];
    RunMore(0, a, Consult(2));
    AsksOnly(Run(0, a), 2, other);
    a := a + [Consult(2)];
    assert Run(0, a).flights == map[1 := Entered(u)];
    RunIsTable(0, a);
    LateHistory(t, u, other);
    RunMore(0, a, Consult(1));
    OneAdmitted(Run(0, a), 1, u);
    a := a + [Consult(1)];
    RunMore(0, a, Settle(1));
    FailsAlone(Run(0, a), 1, u);
  }

  lemma Begins(s: State, i: nat, t: Trigger)
    requires i !in s.flights && s.clock <= t.now
    ensures Step(s, Begin(i, t)) == s.(flights := s.flights[i := Entered(t)], clock := t.now)
  {
  }

  lemma FailsAlone(s: State, i: nat, t: Trigger)
    requires i in s.flights && s.flights[i] == Admitted(t) && t.outcome == TcpFailed
    ensures var s' := Step(s, Settle(i));
            s'.flights == s.flights - {i} && s'.log == s.log + [Asked(Failure, t)] && s'.clock == s.clock
  {
    hide Do;
  }

  lemma AsksOnly(s: State, i: nat, t: Trigger)
    requires i in s.flights && s.flights[i] == Entered(t) && t.outcome == NoTarget
    ensures var s' := Step(s, Consult(i));
            s'.flights == s.flights - {i} && s'.log == s.log + [Asked(Ask, t)] && s'.clock == s.clock
  {
    hide Do, Admits;
  }

  lemma LateHistory(t: Trigger, u: Trigger, other: Trigger)
    requires t == Trigger("r", false, 0, TcpFailed) && u == Trigger("r", false, 1, TcpFailed)
    requires other == Trigger("s", false, 25 * MINUTE, NoTarget)
    requires GateKey("r", false) != "" && GateKey("s", false) != "" && GateKey("s", false) != GateKey("r", false)
    ensures var log := [] + [Asked(Ask, t)] + [Asked(Failure, t)] + [Asked(Ask, other)];
            && Admits(Table(log), u)
            && Streak(log + [Asked(Ask, u)] + [Asked(Failure, u)], GateKey("r", false)) == [0, 1]
  {
    hide GateKey, Streak, Live, LastCall, Table;
    var key, log := GateKey("r", false), [];
    NoCalls(key);
    OneMore(log, Asked(Ask, t), key);
    log := log + [Asked(Ask, t)];
    OneMore(log, Asked(Failure, t), key);
    log := log + [Asked(Failure, t)];
    assert Streak(log, key) == [0];
    OneMore(log, Asked(Ask, other), key);
    log := log + [Asked(Ask, other)];
    BlockedUntil(log, "r", false, 1);
    OneMore(log, Asked(Ask, u), key);
    OneMore(log + [Asked(Ask, u)], Asked(Failure, u), key);
  }

  lemma Free(log: seq<Call>, t: Trigger)
    requires forall c :: c in log ==> c.kind == Ask
    requires t.outcome != Delivered
    ensures Admits(Table(log), t)
  {
    hide GateKey, Table;
    if GateKey(t.robot, t.teardown) != "" {
      NoFailures(log, GateKey(t.robot, t.teardown));
      BlockedUntil(log, t.robot, t.teardown, t.now);
    }
  }

  lemma {:induction false} NoFailures(log: seq<Call>, key: string)
    requires forall c :: c in log ==> c.kind == Ask
    ensures Live(log, key) == []
  {
    hide GateKey;
    if log != [] { NoFailures(log[..|log| - 1], key); }
  }
}
