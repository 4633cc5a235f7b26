/** The gate in front of the legacy TCP trigger: exponential backoff per robot and kind, with pruning. */
module FallbackGate {
  import opened Bytes
  import opened Text
  import RelayHub

  // Durations and instants are nanoseconds; the zero instant is `None`.
  const MS: nat := 1_000_000
  const SECOND: nat := 1000 * MS
  const RETENTION: nat := 20 * 60 * SECOND

  function Base(teardown: bool): nat { if teardown then SECOND else 500 * MS }

  function Max(teardown: bool): nat { if teardown then 12 * SECOND else 8 * SECOND }

  function Min(a: nat, b: nat): nat { if a < b then a else b }

  function Pow2(n: nat): nat { if n == 0 then 1 else 2 * Pow2(n - 1) }

  /** The intended backoff: doubling from the base, capped. */
  function Backoff(failures: int, teardown: bool): nat {
    if failures <= 0 then Base(teardown) else Min(Max(teardown), Base(teardown) * Pow2(failures - 1))
  }

  lemma {:induction false} Pow2Grows(i: nat, j: nat)
    requires i <= j
    ensures Pow2(i) <= Pow2(j)
    decreases j - i
  {
    if i < j { Pow2Grows(i + 1, j); }
  }

  lemma Pow2Of8()
    ensures Pow2(8) == 256
  {
    assert Pow2(4) == 16;
  }

  lemma Reached(i: nat, failures: int, teardown: bool)
    requires 0 <= i <= failures - 1 && Base(teardown) * Pow2(i) >= Max(teardown)
    ensures Backoff(failures, teardown) == Max(teardown)
  {
    Pow2Grows(i, failures - 1);
    assert Base(teardown) * Pow2(i) <= Base(teardown) * Pow2(failures - 1);
  }

  /** The doubling loop, with its cap of eight steps, computes exactly the intended backoff. */
  method FallbackBackoff(failures: int, teardown: bool) returns (backoff: nat)
    ensures backoff == Backoff(failures, teardown)
    ensures failures >= 1 ==>
              backoff == if teardown then Min(12_000_000_000, 1_000_000_000 * Pow2(failures - 1))
                         else Min(8_000_000_000, 500_000_000 * Pow2(failures - 1))
  {
    var base, max := Base(teardown), Max(teardown);
    if failures <= 0 { return base; }
    backoff := base;
    var steps := failures - 1;
    if steps > 8 { steps := 8; }
    var i := 0;
    while i < steps
      invariant 0 <= i <= steps && steps == Min(8, failures - 1)
      invariant backoff == base * Pow2(i) && (i > 0 ==> backoff < max)
    {
      backoff := backoff * 2;
      i := i + 1;
      assert backoff == base * Pow2(i);
      if backoff >= max {
        Reached(i, failures, teardown);
        return max;
      }
    }
    if failures - 1 > 8 { Pow2Of8(); }
    if backoff > max { return max; }
  }

  // ---------- keys ----------

  function GateKey(robot: string, teardown: bool): string {
    var id := Trim(robot);
    if id == "" then "" else if teardown then id + ":teardown" else id + ":bootstrap"
  }

  /** Different robots or kinds never share a key. */
  lemma KeysDistinct(r1: string, t1: bool, r2: string, t2: bool)
    requires GateKey(r1, t1) != ""
    ensures GateKey(r1, t1) == GateKey(r2, t2) <==> Trim(r1) == Trim(r2) && t1 == t2
  {
    var k1, k2 := GateKey(r1, t1), GateKey(r2, t2);
    if k1 == k2 {
      assert k1[|k1| - 1] == if t1 then 'n' else 'p';
      assert k2[|k2| - 1] == if t2 then 'n' else 'p';
      var n := if t1 then 9 else 10;
      assert k1[..|k1| - n] == Trim(r1) && k2[..|k2| - n] == Trim(r2);
    }
  }

  // ---------- the gate's table ----------

  datatype Entry = Entry(nextAllowed: Option<int>, failures: nat, lastSeen: Option<int>)

  type States = map<string, Entry>

  function Get(s: States, key: string): Entry {
    if key in s then s[key] else Entry(None, 0, None)
  }

  predicate Kept(e: Entry, now: int) { e.lastSeen.Some? && now - e.lastSeen.value <= RETENTION }

  function Pruned(s: States, now: int): States {
    map k | k in s && Kept(s[k], now) :: s[k]
  }

  predicate Blocked(e: Entry, now: int) { e.nextAllowed.Some? && e.nextAllowed.value > now }

  predicate Allows(s: States, key: string, now: int) {
    key == "" || !Blocked(Get(Pruned(s, now), key), now)
  }

  /** The gate's calls: asking to be admitted, and reporting how an attempt went. */
  datatype Kind = Ask | Failure | Success

  datatype Call = Call(kind: Kind, robot: string, teardown: bool, now: int)

  function KeyOf(c: Call): string { GateKey(c.robot, c.teardown) }

  /** What a call does to its own entry. */
  function Bare(s: States, c: Call): States {
    var e := Get(s, KeyOf(c));
    match c.kind
    case Ask => s[KeyOf(c) := e.(lastSeen := Some(c.now))]
    case Failure =>
      s[KeyOf(c) := Entry(Some(c.now + Backoff(e.failures + 1, c.teardown)), e.failures + 1, Some(c.now))]
    case Success => s[KeyOf(c) := Entry(None, 0, Some(c.now))]
  }

  /** Every call prunes the whole table first. */
  function Do(s: States, c: Call): States {
    if KeyOf(c) == "" then s else Bare(Pruned(s, c.now), c)
  }

  class FallbackTriggerGate {
    var states: States

    constructor ()
      ensures states == map[]
    { states := map[]; }

    method Prune(now: int)
      modifies this
      ensures states == Pruned(old(states), now)
    {
      var keys := states.Keys;
      while keys != {}
        invariant keys <= old(states).Keys
        invariant states == map k | k in old(states) && (k in keys || Kept(old(states)[k], now)) :: old(states)[k]
        decreases |keys|
      {
        var key :| key in keys;
        if !Kept(states[key], now) { states := states - {key}; }
        keys := keys - {key};
      }
    }

    method Allow(robot: string, teardown: bool, now: int) returns (ok: bool)
      modifies this
      ensures states == Do(old(states), Call(Ask, robot, teardown, now))
      ensures ok == Allows(old(states), GateKey(robot, teardown), now)
    {
      var key := GateKey(robot, teardown);
      if key == "" { return true; }
      Prune(now);
      var state := Get(states, key).(lastSeen := Some(now));
      states := states[key := state];
      ok := state.nextAllowed.None? || state.nextAllowed.value <= now;
    }

    method RecordFailure(robot: string, teardown: bool, now: int)
      modifies this
      ensures states == Do(old(states), Call(Failure, robot, teardown, now))
    {
      var key := GateKey(robot, teardown);
      if key == "" { return; }
      Prune(now);
      var state := Get(states, key);
      var failures := state.failures + 1;
      var backoff := FallbackBackoff(failures, teardown);
      states := states[key := Entry(Some(now + backoff), failures, Some(now))];
    }

    method RecordSuccess(robot: string, teardown: bool, now: int)
      modifies this
      ensures states == Do(old(states), Call(Success, robot, teardown, now))
    {
      var key := GateKey(robot, teardown);
      if key == "" { return; }
      Prune(now);
      states := states[key := Entry(None, 0, Some(now))];
    }
  }

  // ---------- the driver ----------

  /** What the world answers to one trigger: the control channel takes the message, or else the lookup
      of the robot's address fails, or else the TCP trigger succeeds or fails. */
  datatype Outcome = Delivered | NoTarget | TcpOk | TcpFailed

  datatype Trigger = Trigger(robot: string, teardown: bool, now: int, outcome: Outcome)

  function Asked(kind: Kind, t: Trigger): Call { Call(kind, t.robot, t.teardown, t.now) }

  predicate Admits(s: States, t: Trigger) { t.outcome != Delivered && Allows(s, GateKey(t.robot, t.teardown), t.now) }

  predicate Fails(s: States, t: Trigger) { Admits(s, t) && t.outcome == TcpFailed }

  predicate Succeeds(s: States, t: Trigger) { t.outcome == Delivered || (Admits(s, t) && t.outcome == TcpOk) }

  function After(s: States, t: Trigger): States {
    if t.outcome == Delivered then Do(s, Asked(Success, t))
    else
      var s1 := Do(s, Asked(Ask, t));
      if Fails(s, t) then Do(s1, Asked(Failure, t))
      else if Succeeds(s, t) then Do(s1, Asked(Success, t))
      else s1
  }

  /** What a trigger leaves of its own entry, in terms of what pruning at its time leaves of the old one: a
      delivered message or an admitted attempt that succeeds clears it, an admitted attempt that fails
      counts, and anything else only marks it seen.  Other entries are pruned and no more. */
  lemma TriggerMeans(s: States, t: Trigger, other: string)
    requires GateKey(t.robot, t.teardown) != ""
    ensures var key := GateKey(t.robot, t.teardown);
            var e, e' := Get(Pruned(s, t.now), key), Get(After(s, t), key);
            var admitted := t.outcome != Delivered && (e.nextAllowed.Some? ==> e.nextAllowed.value <= t.now);
            && (t.outcome == Delivered || (admitted && t.outcome == TcpOk) ==> e' == Entry(None, 0, Some(t.now)))
            && (admitted && t.outcome == TcpFailed ==>
                  e' == Entry(Some(t.now + Backoff(e.failures + 1, t.teardown)), e.failures + 1, Some(t.now)))
            && (t.outcome == NoTarget || (t.outcome != Delivered && !admitted) ==> e' == e.(lastSeen := Some(t.now)))
            && (other != key ==> Get(After(s, t), other) == Get(Pruned(s, t.now), other))
  {
    hide GateKey, Backoff;
  }

  function KeyFor(bootstrapId: string, newKey: string): string {
    if Trim(bootstrapId) == "" then newKey else Trim(bootstrapId)
  }

  /** `TriggerBootstrap`, as the order in which it consults and updates the gate and the active session;
      `newKey` is the random key that stands in for a blank id, and `attempted` says whether the TCP trigger
      was tried. */
  method TriggerBootstrap(
    gate: FallbackTriggerGate, hub: RelayHub.AgentControlHub, t: Trigger, bootstrapId: string, newKey: string)
    returns (attempted: bool)
    modifies gate, hub`activeSessions
    ensures gate.states == After(old(gate.states), t)
    ensures attempted == (Admits(old(gate.states), t) && t.outcome != NoTarget)
    ensures hub.activeSessions == if t.teardown && Succeeds(old(gate.states), t)
                                  then RelayHub.Cleared(old(hub.activeSessions), t.robot, KeyFor(bootstrapId, newKey))
                                  else old(hub.activeSessions)
    ensures var r, k, active := Trim(t.robot), Trim(bootstrapId), old(hub.activeSessions);
            k != "" && t.teardown && Succeeds(old(gate.states), t) ==>
              hub.activeSessions == if r != "" && r in active && Trim(active[r]) == k then active - {r} else active
    ensures !t.teardown || !Succeeds(old(gate.states), t) ==> hub.activeSessions == old(hub.activeSessions)
    ensures var current := Trim(RelayHub.Lookup(old(hub.activeSessions), Trim(t.robot)));
            Trim(bootstrapId) == "" && Trim(newKey) != "" && Trim(newKey) != current ==>
              hub.activeSessions == old(hub.activeSessions)
  {
    TrimIdempotent(bootstrapId);
    var sessionKey := Trim(bootstrapId);
    if sessionKey == "" { sessionKey := newKey; }
    attempted := false;
    if t.outcome == Delivered {
      if t.teardown { var _ := hub.ClearActiveSessionIfMatch(t.robot, sessionKey); }
      gate.RecordSuccess(t.robot, t.teardown, t.now);
      return;
    }
    var ok := gate.Allow(t.robot, t.teardown, t.now);
    if !ok { return; }
    if t.outcome == NoTarget { return; }
    attempted := true;
    if t.outcome == TcpOk {
      if t.teardown { var _ := hub.ClearActiveSessionIfMatch(t.robot, sessionKey); }
      gate.RecordSuccess(t.robot, t.teardown, t.now);
    } else {
      gate.RecordFailure(t.robot, t.teardown, t.now);
    }
  }
}
