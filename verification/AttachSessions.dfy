/** How a user relay request decides which attach session is active. */
module AttachSessions {
  import opened Bytes

  /** A stored bootstrap session; an empty or unreadable timestamp is `None`. */
  datatype Snapshot = Snapshot(sessionId: string, robotId: string, userId: string,
                               updatedAt: Option<int>, startedAt: Option<int>)

  /** The fixed surroundings of a series of requests: stored sessions, robot, user and case folding. */
  datatype Context = Context(store: map<string, Snapshot>, robot: string, user: string, fold: string -> string)

  function AttachSnapshot(c: Context, key: string): Option<Snapshot> {
    if key == "" || c.robot == "" || key !in c.store then None
    else
      var s := c.store[key];
      if c.fold(s.robotId) != c.fold(c.robot) then None
      else if c.user != "" && s.userId != "" && c.fold(s.userId) != c.fold(c.user) then None
      else Some(s)
  }

  function RefTime(s: Snapshot): Option<int> {
    if s.updatedAt.Some? then s.updatedAt else s.startedAt
  }

  predicate ShouldPromote(c: Context, active: string, requested: string) {
    AttachSnapshot(c, requested).Some? &&
    (AttachSnapshot(c, active).None? ||
     var r, a := RefTime(AttachSnapshot(c, requested).value), RefTime(AttachSnapshot(c, active).value);
     r.Some? && a.Some? && r.value > a.value)
  }

  datatype Decision = Refuse | Keep | Adopt(key: string) | Promote(key: string)

  /** What a request does about the session it finds active. */
  function Decide(c: Context, active: string, requested: string): Decision {
    var key := if requested == "" then active else requested;
    if key == "" then Refuse
    else if active != "" && c.fold(active) != c.fold(key) then
      if AttachSnapshot(c, key).Some? && AttachSnapshot(c, key).value.sessionId != "" && ShouldPromote(c, active, key)
      then Promote(key) else Refuse
    else if active == "" then Adopt(key)
    else Keep
  }

  // ---------- runs ----------

  /** A request reads the active session and decides, and sets it in a later lock section. */
  datatype Action = Read(request: nat, key: string) | Commit(request: nat)

  datatype Pending = Pending(seen: string, decision: Decision)

  /** History: `made` lists the sessions that requests made active, in order, and `promoted` those of them
      that were promoted rather than adopted. */
  datatype State = State(active: string, requests: map<nat, Pending>, promoted: seq<string>, made: seq<string>)

  function Step(c: Context, s: State, a: Action): State {
    match a
    case Read(i, key) => s.(requests := s.requests[i := Pending(s.active, Decide(c, s.active, key))])
    case Commit(i) =>
      if i !in s.requests then s
      else
        var s' := s.(requests := s.requests - {i});
        match s.requests[i].decision
        case Promote(key) => s'.(active := key, promoted := s.promoted + [key], made := s.made + [key])
        case Adopt(key) => s'.(active := key, made := s.made + [key])
        case _ => s'
  }

  function Run(c: Context, start: string, acts: seq<Action>): State {
    if acts == [] then State(start, map[], [], [])
    else Step(c, Run(c, start, acts[..|acts| - 1]), acts[|acts| - 1])
  }

  /** Every request still finds active what it had read when it sets the session. */
  predicate Undisturbed(c: Context, start: string, acts: seq<Action>) {
    acts == [] ||
    var n := |acts| - 1;
    var s := Run(c, start, acts[..n]);
    && Undisturbed(c, start, acts[..n])
    && (acts[n].Commit? && acts[n].request in s.requests ==> s.requests[acts[n].request].seen == s.active)
  }

  function TimeOf(c: Context, key: string): Option<int> {
    if AttachSnapshot(c, key).None? then None else RefTime(AttachSnapshot(c, key).value)
  }

  predicate Before(c: Context, a: string, b: string) {
    TimeOf(c, a).Some? && TimeOf(c, b).Some? && TimeOf(c, a).value < TimeOf(c, b).value
  }

  ghost predicate Rising(c: Context, keys: seq<string>) {
    && (forall i :: 0 <= i < |keys| ==> AttachSnapshot(c, keys[i]).Some?)
    && (forall i, j :: 0 <= i < j < |keys| ==> Before(c, keys[i], keys[j]))
  }

  predicate DecisionOk(c: Context, p: Pending) {
    && (p.decision.Promote? ==> p.seen != "" && p.decision.key != "" && ShouldPromote(c, p.seen, p.decision.key))
    && (p.decision.Adopt? ==> p.seen == "")
  }

  ghost predicate Inv(c: Context, s: State) {
    && Rising(c, s.promoted)
    && (s.promoted != [] ==> s.active != "" && s.active == s.promoted[|s.promoted| - 1])
    && (forall i :: i in s.requests ==> DecisionOk(c, s.requests[i]))
  }

  /** A promotion over a stored session moves on to a strictly later one. */
  lemma RisingAppend(c: Context, keys: seq<string>, key: string)
    requires Rising(c, keys) && (keys != [] ==> ShouldPromote(c, keys[|keys| - 1], key))
    requires AttachSnapshot(c, key).Some?
    ensures Rising(c, keys + [key])
  {
    hide AttachSnapshot;
    var all, n := keys + [key], |keys|;
    forall i, j | 0 <= i < j < |all| ensures Before(c, all[i], all[j]) {
      if j == n {
        assert AttachSnapshot(c, keys[n - 1]).Some?;
        assert i < n - 1 ==> Before(c, keys[i], keys[n - 1]);
      }
    }
  }

  lemma StepInv(c: Context, s: State, a: Action)
    requires Inv(c, s)
    requires a.Commit? && a.request in s.requests ==> s.requests[a.request].seen == s.active
    ensures Inv(c, Step(c, s, a))
  {
    hide AttachSnapshot, Rising;
    if a.Commit? && a.request in s.requests {
      var p := s.requests[a.request];
      assert DecisionOk(c, p);
      if p.decision.Promote? { RisingAppend(c, s.promoted, p.decision.key); }
    }
  }

  lemma {:induction false} RunInv(c: Context, start: string, acts: seq<Action>)
    requires Undisturbed(c, start, acts)
    ensures Inv(c, Run(c, start, acts))
  {
    hide Inv, Step;
    if acts == [] { StartInv(c, start); }
    else {
      RunInv(c, start, acts[..|acts| - 1]);
      StepInv(c, Run(c, start, acts[..|acts| - 1]), acts[|acts| - 1]);
    }
  }

  lemma StartInv(c: Context, start: string)
    ensures Inv(c, State(start, map[], [], []))
  {
  }

  lemma {:induction false} DistinctFit(keys: seq<string>, all: set<string>)
    requires forall i, j :: 0 <= i < j < |keys| ==> keys[i] != keys[j]
    requires forall k :: k in keys ==> k in all
    ensures |keys| <= |all|
    decreases |keys|
  {
    if keys != [] {
      var n := |keys| - 1;
      assert keys[n] in keys;
      DistinctFit(keys[..n], all - {keys[n]});
    }
  }

  /** The session is for this robot, and for this user or for nobody in particular. */
  predicate BelongsTo(c: Context, s: Snapshot) {
    && c.fold(s.robotId) == c.fold(c.robot)
    && (c.user == "" || s.userId == "" || c.fold(s.userId) == c.fold(c.user))
  }

  /** When no request is overtaken between reading and setting, promotions never make a session active
      twice: their reference times strictly increase, so there are at most as many as stored sessions. */
  lemma PromotionsRise(c: Context, start: string, acts: seq<Action>)
    requires Undisturbed(c, start, acts)
    ensures var keys := Run(c, start, acts).promoted;
            && Rising(c, keys)
            && (forall i, j :: 0 <= i < j < |keys| ==> keys[i] != keys[j])
            && |keys| <= |c.store|
            && (forall k :: k in keys ==> k in c.store && BelongsTo(c, c.store[k]))
  {
    hide Run, Undisturbed;
    RunInv(c, start, acts);
    var keys := Run(c, start, acts).promoted;
    assert forall i, j :: 0 <= i < j < |keys| ==> keys[i] != keys[j];
    DistinctFit(keys, c.store.Keys);
  }

  /** Nor is the session that was active at the start ever promoted again. */
  lemma StartNotPromoted(c: Context, start: string, acts: seq<Action>)
    requires Undisturbed(c, start, acts) && start != ""
    ensures start !in Run(c, start, acts).promoted
    decreases acts
  {
    hide Rising, AttachSnapshot;
    FirstBeatsStart(c, start, acts);
    RunInv(c, start, acts);
    var keys := Run(c, start, acts).promoted;
    if start in keys {
      var i :| 0 <= i < |keys| && keys[i] == start;
      RisingFrom(c, keys, i);
    }
  }

  lemma RisingFrom(c: Context, keys: seq<string>, i: nat)
    requires Rising(c, keys) && i < |keys|
    ensures AttachSnapshot(c, keys[i]).Some?
    ensures i > 0 ==> Before(c, keys[0], keys[i])
  {
  }

  lemma {:induction false} FirstBeatsStart(c: Context, start: string, acts: seq<Action>)
    requires Undisturbed(c, start, acts) && start != ""
    ensures var s := Run(c, start, acts);
            && (s.promoted == [] ==> s.active == start)
            && (s.promoted != [] ==> ShouldPromote(c, start, s.promoted[0]))
  {
    hide AttachSnapshot, ShouldPromote, Rising;
    if acts != [] {
      FirstBeatsStart(c, start, acts[..|acts| - 1]);
      RunInv(c, start, acts[..|acts| - 1]);
    }
  }

  // ---------- exactly when sessions only move forward ----------

  /** The session that a step makes active. */
  function Sets(s: State, a: Action): Option<string> {
    if a.Read? || a.request !in s.requests then None
    else
      match s.requests[a.request].decision
      case Promote(key) => Some(key)
      case Adopt(key) => Some(key)
      case _ => None
  }

  /** A request that sets the session after another one has would still be entitled to, if it decided now. */
  predicate StillJustified(c: Context, s: State, a: Action) {
    Sets(s, a).Some? && s.made != [] ==> ShouldPromote(c, s.active, Sets(s, a).value)
  }

  predicate Justified(c: Context, start: string, acts: seq<Action>) {
    acts == [] ||
    var n := |acts| - 1;
    Justified(c, start, acts[..n]) && StillJustified(c, Run(c, start, acts[..n]), acts[n])
  }

  /** Every session after the first is stored, and later than every stored one before it. */
  ghost predicate Ascending(c: Context, keys: seq<string>) {
    && (forall i :: 0 < i < |keys| ==> AttachSnapshot(c, keys[i]).Some?)
    && (forall i, j :: 0 <= i < j < |keys| && AttachSnapshot(c, keys[i]).Some? ==> Before(c, keys[i], keys[j]))
  }

  lemma AscendingOneMore(c: Context, keys: seq<string>, key: string)
    ensures Ascending(c, keys + [key]) <==>
              Ascending(c, keys) && (keys != [] ==> ShouldPromote(c, keys[|keys| - 1], key))
  {
    hide AttachSnapshot;
    var all, n := keys + [key], |keys|;
    if Ascending(c, all) {
      assert forall i :: 0 <= i < n ==> all[i] == keys[i];
      if n > 0 { assert AttachSnapshot(c, all[n]).Some?; }
    }
    if Ascending(c, keys) && (keys != [] ==> ShouldPromote(c, keys[n - 1], key)) {
      forall i, j | 0 <= i < j < |all| && AttachSnapshot(c, all[i]).Some? ensures Before(c, all[i], all[j]) {
        if j == n && i < n - 1 { assert AttachSnapshot(c, keys[n - 1]).Some? && Before(c, keys[i], keys[n - 1]); }
      }
    }
  }

  lemma {:induction false} LastMadeIsActive(c: Context, start: string, acts: seq<Action>)
    ensures var s := Run(c, start, acts);
            if s.made == [] then s.active == start else s.active == s.made[|s.made| - 1]
  {
    hide Decide;
    if acts != [] { LastMadeIsActive(c, start, acts[..|acts| - 1]); }
  }

  lemma NoneAscend(c: Context)
    ensures Ascending(c, [])
  {
  }

  /** For every start and every interleaving: sessions made active by requests only ever move on to later
      stored ones if and only if every request that sets the session would still be entitled to when it
      does.  Adoptions count as much as promotions. */
  lemma {:induction false} AscendIffJustified(c: Context, start: string, acts: seq<Action>)
    ensures Ascending(c, Run(c, start, acts).made) <==> Justified(c, start, acts)
  {
    hide Ascending, AttachSnapshot, ShouldPromote, Decide;
    if acts == [] { NoneAscend(c); }
    else {
      var n := |acts| - 1;
      var s := Run(c, start, acts[..n]);
      AscendIffJustified(c, start, acts[..n]);
      LastMadeIsActive(c, start, acts[..n]);
      if Sets(s, acts[n]).Some? { AscendingOneMore(c, s.made, Sets(s, acts[n]).value); }
    }
  }

  /** Then no session is made active twice, and at most one more than are stored. */
  lemma JustifiedNeverRepeats(c: Context, start: string, acts: seq<Action>)
    requires Justified(c, start, acts)
    ensures var keys := Run(c, start, acts).made;
            && (forall i, j :: 0 <= i < j < |keys| ==> keys[i] != keys[j])
            && |keys| <= |c.store| + 1
  {
    hide Run, Justified;
    AscendIffJustified(c, start, acts);
    var keys := Run(c, start, acts).made;
    assert forall i, j :: 0 <= i < j < |keys| ==> keys[i] != keys[j];
    if keys != [] { DistinctFit(keys[1..], c.store.Keys); }
  }

  // ---------- promotions alone ----------

  predicate PromotesStored(c: Context, d: Decision) {
    d.Promote? ==> d.key != "" && AttachSnapshot(c, d.key).Some?
  }

  /** Promoted sessions are stored, and with a session active from the start nothing is ever adopted. */
  ghost predicate Tracks(c: Context, start: string, s: State) {
    && (forall k :: k in s.promoted ==> AttachSnapshot(c, k).Some?)
    && (forall i :: i in s.requests ==> PromotesStored(c, s.requests[i].decision))
    && (s.promoted != [] ==> s.made != [])
    && (start != "" ==>
          && s.active != "" && s.promoted == s.made
          && (forall i :: i in s.requests ==> !s.requests[i].decision.Adopt?))
  }

  lemma {:induction false} RunTracks(c: Context, start: string, acts: seq<Action>)
    ensures Tracks(c, start, Run(c, start, acts))
  {
    hide AttachSnapshot, ShouldPromote;
    if acts != [] { RunTracks(c, start, acts[..|acts| - 1]); }
  }

  /** The last promoted session is still active, or something later is. */
  predicate Reached(c: Context, s: State) {
    s.promoted != [] ==>
      var last := s.promoted[|s.promoted| - 1];
      && AttachSnapshot(c, last).Some?
      && (s.active == last || (AttachSnapshot(c, s.active).Some? && Before(c, last, s.active)))
  }

  lemma {:induction false} JustifiedRises(c: Context, start: string, acts: seq<Action>)
    requires Justified(c, start, acts)
    ensures Rising(c, Run(c, start, acts).promoted) && Reached(c, Run(c, start, acts))
  {
    hide Rising, AttachSnapshot, RefTime;
    if acts == [] { NoneRise(c); }
    else {
      var n := |acts| - 1;
      var s, a := Run(c, start, acts[..n]), acts[n];
      JustifiedRises(c, start, acts[..n]);
      RunTracks(c, start, acts[..n]);
      if Sets(s, a).Some? && s.requests[a.request].decision.Promote? {
        assert PromotesStored(c, s.requests[a.request].decision);
        RisingAppend(c, s.promoted, Sets(s, a).value);
      }
    }
  }

  lemma NoneRise(c: Context)
    ensures Rising(c, [])
  {
  }

  /** Justified requests promote at rising reference times; with a session active from the start, which
      leaves nothing to adopt, that is so only if they are justified. */
  lemma RiseIffJustified(c: Context, start: string, acts: seq<Action>)
    ensures Justified(c, start, acts) ==> Rising(c, Run(c, start, acts).promoted)
    ensures start != "" && Rising(c, Run(c, start, acts).promoted) ==> Justified(c, start, acts)
  {
    hide Run, Justified, AttachSnapshot;
    if Justified(c, start, acts) { JustifiedRises(c, start, acts); }
    RunTracks(c, start, acts);
    AscendIffJustified(c, start, acts);
  }

  // ---------- a repetition has a cause in between ----------

  /** `key`, once made active, still is, or something stored and later is. */
  predicate On(c: Context, key: string, s: State) {
    && s.made != []
    && (s.active == key || (AttachSnapshot(c, s.active).Some?
                            && (AttachSnapshot(c, key).Some? ==> Before(c, key, s.active))))
  }

  lemma StaysOn(c: Context, key: string, s: State, a: Action)
    requires On(c, key, s) && StillJustified(c, s, a)
    ensures On(c, key, Step(c, s, a))
  {
    hide AttachSnapshot, RefTime, Decide;
  }

  lemma NotAgain(c: Context, key: string, s: State, a: Action)
    requires On(c, key, s) && Sets(s, a) == Some(key)
    ensures !StillJustified(c, s, a)
  {
    hide AttachSnapshot, RefTime, Sets;
  }

  /** From a state on, through justified steps only: the session then active still is, or a later one is. */
  lemma {:induction false} MovesOn(c: Context, start: string, acts: seq<Action>, m: nat)
    requires m <= |acts| && Run(c, start, acts[..m]).made != []
    requires forall l :: m <= l < |acts| ==> StillJustified(c, Run(c, start, acts[..l]), acts[l])
    ensures On(c, Run(c, start, acts[..m]).active, Run(c, start, acts))
    decreases |acts|
  {
    hide StillJustified, Step, Before, AttachSnapshot;
    var n := |acts| - 1;
    if m > n { assert acts[..m] == acts; }
    else {
      var init := acts[..n];
      assert init[..m] == acts[..m];
      forall l | m <= l < n ensures StillJustified(c, Run(c, start, init[..l]), init[l]) {
        assert init[..l] == acts[..l] && init[l] == acts[l];
        assert StillJustified(c, Run(c, start, acts[..l]), acts[l]);
      }
      hide On;
      MovesOn(c, start, init, m);
      assert StillJustified(c, Run(c, start, acts[..n]), acts[n]);
      StaysOn(c, Run(c, start, acts[..m]).active, Run(c, start, init), acts[n]);
    }
  }

  /** If a session that a request made active is made active again, some request in between, or the last
      one, set the session when it was no longer entitled to. */
  lemma RepeatHasCause(c: Context, start: string, acts: seq<Action>, m: nat, n: nat)
    requires m <= n < |acts| && Run(c, start, acts[..m]).made != []
    requires Sets(Run(c, start, acts[..n]), acts[n]) == Some(Run(c, start, acts[..m]).active)
    ensures exists l :: m <= l <= n && !StillJustified(c, Run(c, start, acts[..l]), acts[l])
  {
    hide On, Run, Sets, StillJustified;
    if forall l :: m <= l < n ==> StillJustified(c, Run(c, start, acts[..l]), acts[l]) {
      var init := acts[..n];
      assert init[..m] == acts[..m];
      forall l | m <= l < n ensures StillJustified(c, Run(c, start, init[..l]), init[l]) {
        assert init[..l] == acts[..l] && init[l] == acts[l];
        assert StillJustified(c, Run(c, start, acts[..l]), acts[l]);
      }
      MovesOn(c, start, init, m);
      NotAgain(c, Run(c, start, acts[..m]).active, Run(c, start, init), acts[n]);
    }
  }

  // ---------- runs that go wrong ----------

  /** Three stored sessions "a", "b" and "c", each later than the one before. */
  function Three(): Context {
    Context(map["a" := Snapshot("a", "r", "u", Some(1), None), "b" := Snapshot("b", "r", "u", Some(2), None),
                "c" := Snapshot("c", "r", "u", Some(3), None)], "r", "u", (s: string) => s)
  }

  lemma ThreeDecisions()
    ensures Decide(Three(), "a", "b") == Promote("b") && Decide(Three(), "a", "c") == Promote("c")
    ensures Decide(Three(), "b", "c") == Promote("c")
    ensures Decide(Three(), "", "a") == Adopt("a") && Decide(Three(), "", "b") == Adopt("b")
  {
  }

  /** Two requests that read the same active session can undo each other: the newest session is promoted,
      replaced by the older of the two, and promoted again. */
  lemma OvertakenPromotesTwice()
    ensures var acts := [Read(0, "b"), Read(1, "c"), Commit(1), Commit(0), Read(2, "c"), Commit(2)];
            !Undisturbed(Three(), "a", acts) && Run(Three(), "a", acts).promoted == ["c", "b", "c"]
  {
    hide Decide, Three;
    var c := Three();
    ThreeDecisions();
    var acts := [Read(0, "b"), Read(1, "c"), Commit(1), Commit(0), Read(2, "c"), Commit(2)];
    assert acts[..0] == [];
    forall i | 0 <= i < 6 ensures acts[..i + 1][..i] == acts[..i] {}
    assert acts[..6] == acts;
    var s0 := Run(c, "a", acts[..0]);
    var s1 := Run(c, "a", acts[..1]);
    assert s1 == Step(c, s0, Read(0, "b")) && s1.requests[0] == Pending("a", Promote("b"));
    var s2 := Run(c, "a", acts[..2]);
    assert s2 == Step(c, s1, Read(1, "c")) && s2.requests[1] == Pending("a", Promote("c"));
    var s3 := Run(c, "a", acts[..3]);
    assert s3 == Step(c, s2, Commit(1)) && s3.active == "c" && s3.requests[0] == Pending("a", Promote("b"));
    var s4 := Run(c, "a", acts[..4]);
    assert s4 == Step(c, s3, Commit(0)) && s4.active == "b" && s4.promoted == ["c", "b"];
    var s5 := Run(c, "a", acts[..5]);
    assert s5 == Step(c, s4, Read(2, "c")) && s5.requests[2] == Pending("b", Promote("c"));
    assert Run(c, "a", acts[..6]) == Step(c, s5, Commit(2));
    assert !Undisturbed(c, "a", acts[..4]);
    assert !Undisturbed(c, "a", acts[..5]);
  }

  /** An adoption that is overtaken by another one and a promotion does the same. */
  lemma OvertakenAdoptionPromotesTwice()
    ensures var acts := [Read(0, "a"), Read(1, "b"), Commit(0), Read(2, "c"), Commit(2), Commit(1),
                         Read(3, "c"), Commit(3)];
            && !Justified(Three(), "", acts)
            && Run(Three(), "", acts).promoted == ["c", "c"] && Run(Three(), "", acts).made == ["a", "c", "b", "c"]
  {
    hide Three, Justified, Step;
    var c := Three();
    var acts := [Read(0, "a"), Read(1, "b"), Commit(0), Read(2, "c"), Commit(2), Commit(1), Read(3, "c"), Commit(3)];
    assert acts[..0] == [] && acts[..8] == acts;
    forall i | 0 <= i < 8 ensures Run(c, "", acts[..i + 1]) == Step(c, Run(c, "", acts[..i]), acts[i]) {
      assert acts[..i + 1][..i] == acts[..i];
    }
    var s0 := Run(c, "", acts[..0]);
    var s2 := Step(c, Step(c, s0, acts[0]), acts[1]);
    assert Run(c, "", acts[..1]) == Step(c, s0, acts[0]) && Run(c, "", acts[..2]) == s2;
    assert Run(c, "", acts[..3]) == Step(c, s2, acts[2]);
    assert Run(c, "", acts[..4]) == Step(c, Step(c, s2, acts[2]), acts[3]);
    FirstHalf(c);
    var s4 := Run(c, "", acts[..4]);
    SecondHalf(c, s4);
    var s6 := Step(c, Step(c, s4, acts[4]), acts[5]);
    assert Run(c, "", acts[..5]) == Step(c, s4, acts[4]) && Run(c, "", acts[..6]) == s6;
    assert Run(c, "", acts[..7]) == Step(c, s6, acts[6]);
    assert Run(c, "", acts[..8]) == Step(c, Step(c, s6, acts[6]), acts[7]);
    var keys := Run(c, "", acts).made;
    assert keys[1] == keys[3];
    if Justified(c, "", acts) {
      JustifiedNeverRepeats(c, "", acts);
      assert false;
    }
  }

  lemma FirstHalf(c: Context)
    requires c == Three()
    ensures var s := Step(c, Step(c, Step(c, Step(c, State("", map[], [], []), Read(0, "a")), Read(1, "b")), Commit(0)),
                          Read(2, "c"));
            && s.requests == map[1 := Pending("", Adopt("b")), 2 := Pending("a", Promote("c"))]
            && s.active == "a" && s.made == ["a"] && s.promoted == []
  {
    hide Decide;
    ThreeDecisions();
  }

  lemma SecondHalf(c: Context, s: State)
    requires c == Three()
    requires s == State("a", map[1 := Pending("", Adopt("b")), 2 := Pending("a", Promote("c"))], [], ["a"])
    ensures var s' := Step(c, Step(c, Step(c, Step(c, s, Commit(2)), Commit(1)), Read(3, "c")), Commit(3));
            s'.promoted == ["c", "c"] && s'.made == ["a", "c", "b", "c"]
  {
    hide Decide;
    ThreeDecisions();
  }

  // ---------- what a request does ----------

  /** The stored session of a key counts when it is for this robot, and for this user or for nobody. */
  lemma SnapshotIff(c: Context, key: string)
    ensures AttachSnapshot(c, key).Some? <==>
              key != "" && c.robot != "" && key in c.store && BelongsTo(c, c.store[key])
    ensures AttachSnapshot(c, key).Some? ==> AttachSnapshot(c, key).value == c.store[key]
    ensures key in c.store ==>
              var s := c.store[key]; RefTime(s) == match s.updatedAt case Some(t) => Some(t) case None => s.startedAt
  {
  }

  /** The decision of a request in every case: a blank request means the active session; with nothing active
      the session asked for is adopted, stored or not; the active one is kept; and another one is promoted
      exactly when it is stored for this robot and user and the active one is not, or is dated and older. */
  lemma DecideMeans(c: Context, active: string, requested: string)
    ensures requested == "" && active == "" ==> Decide(c, active, requested) == Refuse
    ensures requested == "" && active != "" ==> Decide(c, active, requested) == Keep
    ensures requested != "" && active == "" ==> Decide(c, active, requested) == Adopt(requested)
    ensures requested != "" && active != "" && c.fold(active) == c.fold(requested) ==>
              Decide(c, active, requested) == Keep
    ensures requested != "" && active != "" && c.fold(active) != c.fold(requested) ==>
              var r, a := AttachSnapshot(c, requested), AttachSnapshot(c, active);
              Decide(c, active, requested) ==
                if && r.Some? && r.value.sessionId != ""
                   && (a.Some? ==> && RefTime(r.value).Some? && RefTime(a.value).Some?
                                   && RefTime(r.value).value > RefTime(a.value).value)
                then Promote(requested) else Refuse
  {
    hide AttachSnapshot, RefTime;
  }

  /** A request reads now and sets later exactly what it decided; refusals and keeps set nothing. */
  lemma RequestMeans(c: Context, s: State, i: nat, key: string)
    ensures var s' := Step(c, s, Read(i, key));
            && s' == s.(requests := s'.requests) && i in s'.requests
            && s'.requests[i] == Pending(s.active, Decide(c, s.active, key))
    ensures i in s.requests ==>
              var s', d := Step(c, s, Commit(i)), s.requests[i].decision;
              && s'.requests == s.requests - {i}
              && s'.active == (match d case Promote(k) => k case Adopt(k) => k case _ => s.active)
              && s'.promoted == s.promoted + (if d.Promote? then [d.key] else [])
              && s'.made == s.made + (if d.Promote? || d.Adopt? then [d.key] else [])
  {
    hide Decide;
  }
}
