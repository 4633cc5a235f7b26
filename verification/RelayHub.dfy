/** The hub's attach sessions and relay registrations, each method run without interleaving. */
module RelayHub {
  import opened Text
  import opened RelayQueue

  datatype Registration = Registration(robotId: string, sessionKey: string, cap: nat, queue: seq<Message>, stats: Stats)

  type Relays = map<string, Registration>

  datatype Delivered = Sent | NoRegistration | ChannelFull

  // ---------- one queue ----------

  function Pushed(r: Registration, m: Message): Registration {
    var queue := r.queue + [m];
    r.(queue := queue,
       stats := r.stats.(enqueued := r.stats.enqueued + 1,
                         maxDepth := if |queue| > r.stats.maxDepth then |queue| else r.stats.maxDepth))
  }

  function Evicted(r: Registration): Registration
    requires r.queue != []
  {
    r.(queue := r.queue[1..], stats := r.stats.(droppedOldest := r.stats.droppedOldest + 1))
  }

  function Refused(r: Registration): Registration {
    r.(stats := r.stats.(droppedNoSlot := r.stats.droppedNoSlot + 1))
  }

  predicate Full(r: Registration) { |r.queue| >= r.cap }

  /** Enqueue, evicting the oldest message first if that is what it takes. */
  function Forced(r: Registration, m: Message): Registration {
    if !Full(r) then Pushed(r, m)
    else if r.queue != [] && !Full(Evicted(r)) then Pushed(Evicted(r), m)
    else if r.queue != [] then Refused(Evicted(r))
    else Refused(r)
  }

  function Queued(r: Registration, m: Message): Registration {
    if m.kind == Data then Forced(r, m) else if Full(r) then Refused(r) else Pushed(r, m)
  }

  ghost predicate Bounded(r: Registration) { |r.queue| <= r.cap }

  /** With at least one slot a forced message always ends up last, at the price of at most the oldest
      message, and only when the queue was full. */
  lemma ForcedIsLast(r: Registration, m: Message)
    requires Bounded(r)
    ensures Bounded(Forced(r, m))
    ensures r.cap >= 1 ==> Forced(r, m).queue == (if Full(r) then r.queue[1..] else r.queue) + [m]
    ensures r.cap == 0 ==> Forced(r, m).queue == r.queue
    ensures var r' := Forced(r, m);
            r'.stats.enqueued + r'.stats.droppedNoSlot == r.stats.enqueued + r.stats.droppedNoSlot + 1
            && r'.stats.droppedOldest - r.stats.droppedOldest <= 1
            && r'.stats.enqueued - r'.stats.droppedOldest - |r'.queue| ==
               r.stats.enqueued - r.stats.droppedOldest - |r.queue|
  {
  }

  /** A message from the agent, by kind and room: data makes room for itself, anything else does not, and
      only what goes in or out is counted. */
  lemma DeliveryMeans(r: Registration, m: Message)
    requires Bounded(r)
    ensures var r', st := Queued(r, m), r.stats;
            var full := |r.queue| == r.cap;
            && r' == r.(queue := r'.queue, stats := r'.stats)
            && (!full ==>
                  && r'.queue == r.queue + [m]
                  && r'.stats == Stats(st.enqueued + 1, st.droppedOldest, st.droppedNoSlot,
                                       if |r.queue| + 1 > st.maxDepth then |r.queue| + 1 else st.maxDepth))
            && (full && m.kind == Data && r.cap > 0 ==>
                  && r'.queue == r.queue[1..] + [m]
                  && r'.stats == Stats(st.enqueued + 1, st.droppedOldest + 1, st.droppedNoSlot,
                                       if r.cap > st.maxDepth then r.cap else st.maxDepth))
            && (full && (m.kind != Data || r.cap == 0) ==>
                  r'.queue == r.queue && r'.stats == st.(droppedNoSlot := st.droppedNoSlot + 1))
  {
  }

  // ---------- preemption ----------

  function PreemptNotice(relayId: string, key: string): Message {
    Message(Close, relayId, key, "attach preempted by newer attach")
  }

  /** `fold` is the case folding that ids are compared under. */
  predicate Stale(fold: string -> string, r: Registration, robot: string, key: string) {
    fold(Trim(r.robotId)) == fold(robot) && fold(Trim(r.sessionKey)) != fold(key)
  }

  function Preempted(fold: string -> string, relays: Relays, robot: string, key: string): Relays {
    map id | id in relays ::
      if Stale(fold, relays[id], robot, key) then Forced(relays[id], PreemptNotice(id, key)) else relays[id]
  }

  /** After a robot's session key changes, every relay of that robot under another session ends with a
      close notice for that relay that carries the new key and has lost at most its oldest message; every
      other relay is exactly as it was. */
  lemma PreemptionCloses(fold: string -> string, relays: Relays, robot: string, key: string, id: string)
    requires id in relays && Bounded(relays[id])
    ensures var before, after := relays[id], Preempted(fold, relays, robot, key)[id];
            var n := |after.queue| - 1;
            if fold(Trim(before.robotId)) == fold(robot) && fold(Trim(before.sessionKey)) != fold(key) then
              && after.cap == before.cap && Bounded(after)
              && (before.cap >= 1 ==>
                    && n >= 0 && after.queue[n].kind == Close
                    && after.queue[n].relayId == id && after.queue[n].sessionKey == key
                    && (after.queue[..n] == before.queue
                        || (|before.queue| == before.cap && after.queue[..n] == before.queue[1..])))
              && (before.cap == 0 ==> after.queue == before.queue)
            else after == before
  {
    var m := PreemptNotice(id, key);
    ForcedIsLast(relays[id], m);
    var kept := if Full(relays[id]) && relays[id].queue != [] then relays[id].queue[1..] else relays[id].queue;
    assert (kept + [m])[..|kept|] == kept;
  }

  function Lookup(m: map<string, string>, k: string): string { if k in m then m[k] else "" }

  /** The session an unconditional or matching clear would remove. */
  predicate Clears(active: map<string, string>, robot: string, key: string) {
    var current := Trim(Lookup(active, Trim(robot)));
    Trim(robot) != "" && current != "" && (Trim(key) == "" || current == Trim(key))
  }

  function Cleared(active: map<string, string>, robot: string, key: string): map<string, string> {
    if Clears(active, robot, key) then active - {Trim(robot)} else active
  }

  class AgentControlHub {
    const fold: string -> string
    var activeSessions: map<string, string>
    var relays: Relays

    /** No queue is ever longer than its channel. */
    ghost predicate Valid() reads this { forall id :: id in relays ==> Bounded(relays[id]) }

    constructor (fold: string -> string)
      ensures Valid() && this.fold == fold && activeSessions == map[] && relays == map[]
    {
      this.fold := fold;
      activeSessions, relays := map[], map[];
    }

    method RegisterRelay(relayId: string, robotId: string, sessionKey: string, cap: nat)
      requires Valid()
      modifies this`relays
      ensures Valid()
      ensures var reg := Registration(Trim(robotId), Trim(sessionKey), cap, [], Stats(0, 0, 0, 0));
              relays == if Trim(relayId) == "" then old(relays) else old(relays)[Trim(relayId) := reg]
    {
      var id := Trim(relayId);
      if id == "" { return; }
      relays := relays[id := Registration(Trim(robotId), Trim(sessionKey), cap, [], Stats(0, 0, 0, 0))];
    }

    method UnregisterRelay(relayId: string)
      requires Valid()
      modifies this`relays
      ensures Valid()
      ensures relays == if Trim(relayId) == "" then old(relays) else old(relays) - {Trim(relayId)}
    {
      var id := Trim(relayId);
      if id == "" { return; }
      relays := relays - {id};
    }

    /** A message from the agent: data makes room for itself, everything else does not. */
    method DeliverRelay(m: Message) returns (r: Delivered)
      requires Valid()
      modifies this`relays
      ensures Valid()
      ensures var id := Trim(m.relayId);
              if id == "" || id !in old(relays) then r == NoRegistration && relays == old(relays)
              else
                var reg := old(relays)[id];
                && relays == old(relays)[id := Queued(reg, m)]
                && r == if reg.cap == 0 || (Full(reg) && m.kind != Data) then ChannelFull else Sent
    {
      var id := Trim(m.relayId);
      if id == "" || id !in relays { return NoRegistration; }
      var reg := relays[id];
      if !Full(reg) {
        relays := relays[id := Pushed(reg, m)];
        return Sent;
      }
      if m.kind == Data {
        if reg.queue != [] { reg := Evicted(reg); }
        if !Full(reg) {
          relays := relays[id := Pushed(reg, m)];
          return Sent;
        }
      }
      relays := relays[id := Refused(reg)];
      return ChannelFull;
    }

    /** The relays of a robot that belong to another session, each once. */
    method CollectStale(r: string, k: string) returns (stale: seq<string>)
      ensures forall i, j :: 0 <= i < j < |stale| ==> stale[i] != stale[j]
      ensures forall id :: id in stale <==> id in relays && Stale(fold, relays[id], r, k)
    {
      stale := [];
      var rest := relays.Keys;
      while rest != {}
        invariant rest <= relays.Keys
        invariant forall i, j :: 0 <= i < j < |stale| ==> stale[i] != stale[j]
        invariant forall id :: id in stale <==> id in relays.Keys - rest && Stale(fold, relays[id], r, k)
        decreases |rest|
      {
        var id :| id in rest;
        if Stale(fold, relays[id], r, k) { stale := stale + [id]; }
        rest := rest - {id};
      }
    }

    /** One close notice: enqueue, or drop the oldest message and try once more. */
    method CloseRelay(id: string, msg: Message)
      requires id in relays
      modifies this`relays
      ensures relays == old(relays)[id := Forced(old(relays)[id], msg)]
    {
      var reg := relays[id];
      if !Full(reg) { reg := Pushed(reg, msg); }
      else if reg.queue == [] { reg := Refused(reg); }
      else {
        reg := Evicted(reg);
        if !Full(reg) { reg := Pushed(reg, msg); } else { reg := Refused(reg); }
      }
      relays := relays[id := reg];
    }

    /** Collect the stale relays, then close each of them in turn. */
    method PreemptRelaysForSession(robot: string, key: string)
      requires Valid()
      modifies this`relays
      ensures Valid()
      ensures relays == if Trim(robot) == "" || Trim(key) == "" then old(relays)
                        else Preempted(fold, old(relays), Trim(robot), Trim(key))
      ensures relays.Keys == old(relays).Keys
      ensures forall id :: id in old(relays) && Trim(robot) != "" && Trim(key) != "" ==>
                var before, queue := old(relays)[id], relays[id].queue;
                if fold(Trim(before.robotId)) == fold(Trim(robot)) && fold(Trim(before.sessionKey)) != fold(Trim(key))
                then before.cap >= 1 ==>
                       && queue != [] && queue[|queue| - 1].kind == Close
                       && queue[|queue| - 1].relayId == id && queue[|queue| - 1].sessionKey == Trim(key)
                else relays[id] == before
    {
      hide Trim, Forced, Bounded;
      var r, k := Trim(robot), Trim(key);
      if r == "" || k == "" { return; }
      var stale := CollectStale(r, k);
      var i := 0;
      while i < |stale|
        invariant 0 <= i <= |stale|
        invariant relays.Keys == old(relays).Keys
        invariant forall id :: id in old(relays) ==>
                    relays[id] == if id in stale[..i] then Forced(old(relays)[id], PreemptNotice(id, k))
                                  else old(relays)[id]
      {
        assert stale[..i + 1] == stale[..i] + [stale[i]];
        assert stale[i] !in stale[..i];
        CloseRelay(stale[i], PreemptNotice(stale[i], k));
        i := i + 1;
      }
      assert stale[..|stale|] == stale;
      assert relays == Preempted(fold, old(relays), r, k);
      forall id | id in relays
        ensures Bounded(relays[id])
        ensures var before, queue := old(relays)[id], relays[id].queue;
                if fold(Trim(before.robotId)) == fold(r) && fold(Trim(before.sessionKey)) != fold(k)
                then before.cap >= 1 ==>
                       && queue != [] && queue[|queue| - 1].kind == Close
                       && queue[|queue| - 1].relayId == id && queue[|queue| - 1].sessionKey == k
                else relays[id] == before
      {
        ForcedIsLast(old(relays)[id], PreemptNotice(id, k));
        PreemptionCloses(fold, old(relays), r, k, id);
      }
    }

    method SetActiveSession(robot: string, key: string)
      requires Valid()
      modifies this
      ensures Valid()
      ensures var r, k := Trim(robot), Trim(key);
              if r == "" || k == "" then activeSessions == old(activeSessions) && relays == old(relays)
              else
                && activeSessions == old(activeSessions)[r := k]
                && relays == if Trim(Lookup(old(activeSessions), r)) == k then old(relays)
                             else Preempted(fold, old(relays), Trim(r), Trim(k))
    {
      var r, k := Trim(robot), Trim(key);
      if r == "" || k == "" { return; }
      var changed := Trim(Lookup(activeSessions, r)) != k;
      activeSessions := activeSessions[r := k];
      if changed {
        TrimIdempotent(robot);
        TrimIdempotent(key);
        PreemptRelaysForSession(r, k);
      }
    }

    /** An empty key clears whatever is active; any other key clears only itself. */
    method ClearActiveSessionIfMatch(robot: string, key: string) returns (cleared: bool)
      modifies this`activeSessions
      ensures cleared == Clears(old(activeSessions), robot, key)
      ensures activeSessions == Cleared(old(activeSessions), robot, key)
      ensures var r, k := Trim(robot), Trim(key);
              var current := if r in old(activeSessions) then Trim(old(activeSessions)[r]) else "";
              && cleared == (r != "" && current != "" && (k == "" || current == k))
              && activeSessions == if cleared then old(activeSessions) - {r} else old(activeSessions)
    {
      var r, k := Trim(robot), Trim(key);
      if r == "" { return false; }
      var current := Trim(Lookup(activeSessions, r));
      if current == "" { return false; }
      if k != "" && current != k { return false; }
      activeSessions := activeSessions - {r};
      return true;
    }
  }

  /** An attempt that nothing interrupts: the steps of one producer add up to the methods above. */
  lemma SoloAttempt(s: State, i: nat, m: Message, src: Source)
    requires i < |s.producers| && s.producers[i] == Idle
    ensures var a := Advance(i);
            var t := Step(Step(Step(Step(Step(Step(s, Begin(i, m, src)), a), a), a), a), a);
            var r := Registration("", "", s.cap, s.queue, s.stats);
            var r' := if src == Preemption then Forced(r, m) else Queued(r, m);
            t.queue == r'.queue && t.stats == r'.stats && t.producers == s.producers
  {
    var a := Advance(i);
    var s1 := Step(s, Begin(i, m, src));
    assert s1 == At(s, i, TryFirst(m, src)).(begun := s.begun + 1);
    var s2 := Step(s1, a);
    if !(|s.queue| < s.cap) && (src == Preemption || m.kind == Data) {
      assert s2 == At(s1, i, TryDrop(m, src));
      var s3 := Step(s2, a);
      if s.queue != [] {
        assert s3.producers[i] == CountDrop(m) && s3.queue == s.queue[1..];
        var s4 := Step(s3, a);
        assert s4.producers[i] == TrySecond(m) && s4.queue == s.queue[1..];
        Finishes(s4, s, i, m, a);
      } else if src == Delivery {
        assert s3.producers[i] == TrySecond(m) && s3.queue == [];
        Finishes(s3, s, i, m, a);
      } else {
        assert s3.producers[i] == CountNoSlot;
        assert Step(s3, a).producers == s.producers;
      }
    } else {
      assert s2.producers[i] == CountEnqueue || s2.producers[i] == CountNoSlot;
      assert Step(s2, a).producers == s.producers;
    }
  }

  lemma Finishes(t: State, s: State, i: nat, m: Message, a: Action)
    requires i < |s.producers| == |t.producers| && s.producers[i] == Idle && t.producers[i] == TrySecond(m)
    requires t.producers == s.producers[i := TrySecond(m)] && a == Advance(i)
    ensures var t' := Step(Step(t, a), a);
            && t'.producers == s.producers
            && (if |t.queue| < t.cap then
                  t'.queue == t.queue + [m]
                  && t'.stats == t.stats.(enqueued := t.stats.enqueued + 1,
                       maxDepth := if |t.queue| + 1 > t.stats.maxDepth then |t.queue| + 1 else t.stats.maxDepth)
                else t'.queue == t.queue && t'.stats == t.stats.(droppedNoSlot := t.stats.droppedNoSlot + 1))
  {
    var t1 := Step(t, a);
    assert t1.producers[i] == CountEnqueue || t1.producers[i] == CountNoSlot;
  }
}
