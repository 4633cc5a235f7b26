/** What the fallback gate's table means in terms of the calls made to it, and what pruning changes. */
module GateHistory {
  import opened Bytes
  import opened Text
  import opened FallbackGate

  /** The gate's table after any sequence of calls. */
  function Table(log: seq<Call>): States {
    if log == [] then map[] else Do(Table(log[..|log| - 1]), log[|log| - 1])
  }

  /** The table the same calls would leave if nothing were ever forgotten. */
  function Unpruned(log: seq<Call>): States {
    if log == [] then map[]
    else
      var s, c := Unpruned(log[..|log| - 1]), log[|log| - 1];
      if KeyOf(c) == "" then s else Bare(s, c)
  }

  // ---------- the history of one key ----------

  /** The instants of the failures since the key's last success. */
  function Streak(log: seq<Call>, key: string): seq<int> {
    if log == [] then []
    else
      var s, c := Streak(log[..|log| - 1], key), log[|log| - 1];
      if KeyOf(c) != key || c.kind == Ask then s else if c.kind == Failure then s + [c.now] else []
  }

  function LastCall(log: seq<Call>, key: string): Option<int> {
    if log == [] then None
    else if KeyOf(log[|log| - 1]) == key then Some(log[|log| - 1].now)
    else LastCall(log[..|log| - 1], key)
  }

  /** At `now` the key has been unseen for longer than the retention period. */
  predicate Lapsed(log: seq<Call>, key: string, now: int) {
    LastCall(log, key).Some? && now - LastCall(log, key).value > 1_200_000_000_000
  }

  /** The instants of the failures since the key's last success or lapse. */
  function Live(log: seq<Call>, key: string): seq<int> {
    if log == [] then []
    else
      var init, c := log[..|log| - 1], log[|log| - 1];
      var kept := if KeyOf(c) != "" && Lapsed(init, key, c.now) then [] else Live(init, key);
      if KeyOf(c) != key || c.kind == Ask then kept else if c.kind == Failure then kept + [c.now] else []
  }

  /** One more call. */
  lemma OneMore(log: seq<Call>, c: Call, key: string)
    ensures var own := KeyOf(c) == key;
            var kept := if KeyOf(c) != "" && Lapsed(log, key, c.now) then [] else Live(log, key);
            && LastCall(log + [c], key) == (if own then Some(c.now) else LastCall(log, key))
            && Streak(log + [c], key) == (if !own || c.kind == Ask then Streak(log, key)
                                          else if c.kind == Failure then Streak(log, key) + [c.now] else [])
            && Live(log + [c], key) == (if !own || c.kind == Ask then kept
                                        else if c.kind == Failure then kept + [c.now] else [])
  {
    hide KeyOf;
    assert (log + [c])[..|log|] == log;
  }

  /** Until when a series of failures blocks: the backoff for their number after the last of them. */
  function Until(f: seq<int>, teardown: bool): Option<int> {
    if f == [] then None else Some(f[|f| - 1] + Backoff(|f|, teardown))
  }

  lemma SameKind(log: seq<Call>, robot: string, teardown: bool)
    requires GateKey(robot, teardown) != ""
    ensures forall c :: c in log && KeyOf(c) == GateKey(robot, teardown) ==> c.teardown == teardown
  {
    hide GateKey;
    forall c | c in log && KeyOf(c) == GateKey(robot, teardown) ensures c.teardown == teardown {
      KeysDistinct(robot, teardown, c.robot, c.teardown);
    }
  }

  lemma {:induction false} UnprunedIs(log: seq<Call>, robot: string, teardown: bool)
    requires GateKey(robot, teardown) != ""
    ensures var key := GateKey(robot, teardown);
            var f := Streak(log, key);
            Get(Unpruned(log), key) == Entry(Until(f, teardown), |f|, LastCall(log, key))
  {
    hide GateKey, Backoff;
    if log != [] {
      UnprunedIs(log[..|log| - 1], robot, teardown);
      SameKind([log[|log| - 1]], robot, teardown);
    }
  }

  /** An entry is there or has been forgotten; either way it counts exactly the failures since the last
      success or lapse. */
  predicate EntryIs(s: States, log: seq<Call>, key: string, teardown: bool) {
    var f := Live(log, key);
    && (key in s ==> LastCall(log, key).Some? && s[key] == Entry(Until(f, teardown), |f|, LastCall(log, key)))
    && (key !in s ==> f == [])
  }

  lemma EntryStep(s: States, log: seq<Call>, c: Call, robot: string, teardown: bool)
    requires GateKey(robot, teardown) != "" && EntryIs(s, log, GateKey(robot, teardown), teardown)
    ensures EntryIs(Do(s, c), log + [c], GateKey(robot, teardown), teardown)
  {
    hide GateKey, Backoff, Live, LastCall, Streak;
    var key := GateKey(robot, teardown);
    OneMore(log, c, key);
    SameKind([c], robot, teardown);
    assert key in Pruned(s, c.now) <==> key in s && !Lapsed(log, key, c.now);
  }

  lemma {:induction false} TableIs(log: seq<Call>, robot: string, teardown: bool)
    requires GateKey(robot, teardown) != ""
    ensures EntryIs(Table(log), log, GateKey(robot, teardown), teardown)
  {
    hide GateKey, Do, LastCall;
    if log != [] {
      var n := |log| - 1;
      hide EntryIs;
      TableIs(log[..n], robot, teardown);
      EntryStep(Table(log[..n]), log[..n], log[n], robot, teardown);
      assert log == log[..n] + [log[n]];
    }
  }

  /** In every history and at every instant: the gate refuses exactly while the key has not lapsed and
      the last failure plus the backoff for the failures since the last success or lapse lies ahead. */
  lemma BlockedUntil(log: seq<Call>, robot: string, teardown: bool, now: int)
    requires GateKey(robot, teardown) != ""
    ensures var key := GateKey(robot, teardown);
            var f := Live(log, key);
            && Get(Table(log), key).failures == |f| && Get(Table(log), key).nextAllowed == Until(f, teardown)
            && (!Allows(Table(log), key, now) <==>
                  f != [] && !Lapsed(log, key, now) && now < f[|f| - 1] + Backoff(|f|, teardown))
  {
    hide GateKey, Backoff, Table, Live, LastCall;
    TableIs(log, robot, teardown);
  }

  // ---------- what pruning changes ----------

  /** The gate counts the latest of the failures since the last success. */
  lemma {:induction false} LiveIsSuffix(log: seq<Call>, key: string)
    ensures var l, f := Live(log, key), Streak(log, key);
            |l| <= |f| && l == f[|f| - |l|..]
  {
    hide Lapsed, KeyOf;
    if log != [] { LiveIsSuffix(log[..|log| - 1], key); }
  }

  lemma BackoffGrows(j: nat, k: nat, teardown: bool)
    requires j <= k
    ensures Backoff(j, teardown) <= Backoff(k, teardown)
  {
    if j >= 1 {
      Pow2Grows(j - 1, k - 1);
      assert Base(teardown) * Pow2(j - 1) <= Base(teardown) * Pow2(k - 1);
    } else if k >= 1 {
      Pow2Grows(0, k - 1);
      assert Base(teardown) * Pow2(0) <= Base(teardown) * Pow2(k - 1);
    }
  }

  /** For every history and instant, pruning only ever admits more, and it does so exactly when the
      unpruned block is still on while the gate's own is over, lapsed or forgotten. */
  lemma PruningAdmits(log: seq<Call>, robot: string, teardown: bool, now: int)
    requires GateKey(robot, teardown) != ""
    ensures var key := GateKey(robot, teardown);
            var l, f := Live(log, key), Streak(log, key);
            var gate, full := Allows(Table(log), key, now), !Blocked(Get(Unpruned(log), key), now);
            && (full ==> gate)
            && (gate != full <==>
                  && f != [] && now < f[|f| - 1] + Backoff(|f|, teardown)
                  && (l == [] || Lapsed(log, key, now) || f[|f| - 1] + Backoff(|l|, teardown) <= now))
  {
    hide GateKey, Backoff, Table, Unpruned, Live, Streak, Lapsed;
    var key := GateKey(robot, teardown);
    BlockedUntil(log, robot, teardown, now);
    UnprunedIs(log, robot, teardown);
    LiveIsSuffix(log, key);
    BackoffGrows(|Live(log, key)|, |Streak(log, key)|, teardown);
  }

  predicate NoSuccess(log: seq<Call>, key: string) {
    forall c :: c in log && KeyOf(c) == key ==> c.kind != Success
  }

  /** Since the key's last success there was a call, of any key, by which the key had lapsed with failures
      on its count. */
  ghost predicate LapsedWithFailures(log: seq<Call>, key: string) {
    exists j :: 0 <= j < |log| && LapseAt(log, key, j)
  }

  predicate LapseAt(log: seq<Call>, key: string, j: nat)
    requires j < |log|
  {
    && KeyOf(log[j]) != "" && Lapsed(log[..j], key, log[j].now) && Streak(log[..j], key) != []
    && NoSuccess(log[j..], key)
  }

  lemma LapseExtends(log: seq<Call>, c: Call, key: string)
    ensures LapsedWithFailures(log + [c], key) <==>
              && (KeyOf(c) == key ==> c.kind != Success)
              && (LapsedWithFailures(log, key)
                  || (KeyOf(c) != "" && Lapsed(log, key, c.now) && Streak(log, key) != []))
  {
    hide Lapsed, Streak, KeyOf;
    var all, n := log + [c], |log|;
    forall j | 0 <= j < n ensures LapseAt(all, key, j) <==> LapseAt(log, key, j) && NoSuccess([c], key) {
      assert all[..j] == log[..j] && all[j..] == log[j..] + [c];
    }
    assert all[..n] == log && all[n..] == [c];
    assert LapseAt(all, key, n) <==>
             NoSuccess([c], key) && KeyOf(c) != "" && Lapsed(log, key, c.now) && Streak(log, key) != [];
  }

  /** The gate's count falls short of the failures since the last success exactly when the key lapsed in
      between. */
  lemma {:induction false} CountsDifferIff(log: seq<Call>, key: string)
    ensures |Live(log, key)| < |Streak(log, key)| <==> LapsedWithFailures(log, key)
  {
    hide LapsedWithFailures, Lapsed, KeyOf;
    if log == [] { NothingLapsed(key); }
    else {
      var n := |log| - 1;
      CountsDifferIff(log[..n], key);
      LiveIsSuffix(log[..n], key);
      assert log == log[..n] + [log[n]];
      LapseExtends(log[..n], log[n], key);
    }
  }

  lemma NothingLapsed(key: string)
    ensures !LapsedWithFailures([], key)
  {
  }

  // ---------- with a clock that never goes back ----------

  predicate Forward(log: seq<Call>, now: int) {
    && (forall i :: 0 <= i < |log| ==> log[i].now <= now)
    && (forall i, j :: 0 <= i < j < |log| ==> log[i].now <= log[j].now)
  }

  lemma {:induction false} ForgottenLong(log: seq<Call>, key: string, now: int)
    requires Forward(log, now) && Streak(log, key) != []
    ensures var f := Streak(log, key);
            && LastCall(log, key).Some? && f[|f| - 1] <= LastCall(log, key).value <= now
            && (Live(log, key) == [] ==> f[|f| - 1] + RETENTION < now)
    decreases |log|
  {
    hide KeyOf;
    var n := |log| - 1;
    if Streak(log[..n], key) != [] { ForgottenLong(log[..n], key, log[n].now); }
  }

  /** In every history with a forward clock a block in force is never forgotten: pruning changes a verdict
      exactly between the end of the backoff for the gate's own count and that for the failures since the
      last success. */
  lemma VerdictsDifferIff(log: seq<Call>, robot: string, teardown: bool, now: int)
    requires GateKey(robot, teardown) != "" && Forward(log, now)
    ensures var key := GateKey(robot, teardown);
            var l, f := Live(log, key), Streak(log, key);
            Allows(Table(log), key, now) != !Blocked(Get(Unpruned(log), key), now) <==>
              f != [] && f[|f| - 1] + Backoff(|l|, teardown) <= now < f[|f| - 1] + Backoff(|f|, teardown)
  {
    hide GateKey, Table, Unpruned, Live, Streak, LastCall, Pow2;
    var key := GateKey(robot, teardown);
    PruningAdmits(log, robot, teardown, now);
    if Streak(log, key) != [] { ForgottenLong(log, key, now); }
  }

  // ---------- pruning does change verdicts ----------

  function Attempt(now: int): seq<Call> { [Call(Ask, "r", false, now), Call(Failure, "r", false, now)] }

  lemma AttemptHistory(log: seq<Call>, now: int, key: string)
    requires key == GateKey("r", false) && key != ""
    ensures var log' := log + Attempt(now);
            && LastCall(log', key) == Some(now) && Streak(log', key) == Streak(log, key) + [now]
            && Live(log', key) == (if Lapsed(log, key, now) then [] else Live(log, key)) + [now]
  {
    hide GateKey, Live, Streak, LastCall;
    var ask, fail := Attempt(now)[0], Attempt(now)[1];
    assert log + Attempt(now) == log + [ask] + [fail];
    OneMore(log, ask, key);
    OneMore(log + [ask], fail, key);
  }

  /** Three failed attempts, the last of them just after the key lapsed. */
  function ThreeFailures(): seq<Call> {
    Attempt(0) + Attempt(500 * MS) + Attempt(500 * MS + RETENTION + 1)
  }

  lemma ThreeHistory(key: string)
    requires key == GateKey("r", false) && key != ""
    ensures Streak(ThreeFailures(), key) == [0, 500 * MS, 500 * MS + RETENTION + 1]
    ensures Live(ThreeFailures(), key) == [500 * MS + RETENTION + 1]
  {
    hide GateKey, Live, Streak, LastCall, Attempt;
    NoCalls(key);
    AttemptHistory([], 0, key);
    assert [] + Attempt(0) == Attempt(0);
    AttemptHistory(Attempt(0), 500 * MS, key);
    AttemptHistory(Attempt(0) + Attempt(500 * MS), 500 * MS + RETENTION + 1, key);
  }

  lemma NoCalls(key: string)
    ensures Live([], key) == [] && Streak([], key) == [] && LastCall([], key) == None
  {
  }

  /** A second after them the gate admits, where one that never forgot would still refuse. */
  lemma PruningRestartsCount()
    ensures var log, key, now := ThreeFailures(), GateKey("r", false), 1500 * MS + RETENTION + 1;
            Forward(log, now) && Allows(Table(log), key, now) && Blocked(Get(Unpruned(log), key), now)
  {
    var log, key, now := ThreeFailures(), GateKey("r", false), 1500 * MS + RETENTION + 1;
    TrimNoop("r");
    ThreeHistory(key);
    assert Pow2(2) == 4;
    hide GateKey, Table, Unpruned, Live, Streak, LastCall, Pow2;
    BlockedUntil(log, "r", false, now);
    UnprunedIs(log, "r", false);
  }
}
