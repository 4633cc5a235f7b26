/** Which relays of a robot get a close notice when sessions change while relay requests are under way. */
module RelaySessions {

  /** One robot: the active session (empty for none), the `SetActiveSession` calls that have set the key and
      not yet collected stale relays, the session key of each registered relay, and the relays that were
      sent a close notice.  The rest is history about the relays registered now: those whose session was
      not the active one when they registered, those for which a preemption that concerned them was then
      still to come, and those whose session has been replaced since by a change to another key. */
  datatype State = State(
    active: string, preempting: map<nat, string>, relays: map<string, string>, noticed: set<string>,
    staleAt: set<string>, dueAt: set<string>, replaced: set<string>)

  /** Each is one lock section.  A request sets a key, or not, and registers its relay some time later, so
      any of these can come between any others. */
  datatype Action =
    | SetKey(call: nat, key: string)
    | Preempt(call: nat)
    | Clear(key: string)
    | Register(relay: string, key: string)
    | Unregister(relay: string)

  predicate Differs(fold: string -> string, a: string, b: string) { fold(a) != fold(b) }

  /** A preemption that will find a relay under `key` stale is still to come. */
  predicate Due(fold: string -> string, s: State, key: string) {
    exists i :: i in s.preempting && Differs(fold, key, s.preempting[i])
  }

  predicate Stale(fold: string -> string, s: State, key: string) { s.active != "" && Differs(fold, key, s.active) }

  function Under(fold: string -> string, s: State, key: string): set<string> {
    set id | id in s.relays && Differs(fold, s.relays[id], key)
  }

  function With(ids: set<string>, id: string, member: bool): set<string> { if member then ids + {id} else ids - {id} }

  function Step(fold: string -> string, s: State, a: Action): State {
    match a
    case SetKey(i, key) =>
      if key == "" || i in s.preempting || s.active == key then s
      else s.(active := key, preempting := s.preempting[i := key], replaced := s.replaced + Under(fold, s, key))
    case Preempt(i) =>
      if i !in s.preempting then s
      else s.(preempting := s.preempting - {i}, noticed := s.noticed + Under(fold, s, s.preempting[i]))
    case Clear(key) => if key == "" || key == s.active then s.(active := "") else s
    case Register(id, key) =>
      s.(relays := s.relays[id := key], noticed := s.noticed - {id},
         staleAt := With(s.staleAt, id, Stale(fold, s, key)),
         dueAt := With(s.dueAt, id, Due(fold, s, key)), replaced := s.replaced - {id})
    case Unregister(id) => s.(relays := s.relays - {id}, noticed := s.noticed - {id})
  }

  function Run(fold: string -> string, acts: seq<Action>): State {
    if acts == [] then State("", map[], map[], {}, {}, {}, {})
    else Step(fold, Run(fold, acts[..|acts| - 1]), acts[|acts| - 1])
  }

  /** A relay is due for a notice from the preemptions that were to come when it registered, and from the
      changes of session since; and it is stale only for a cause. */
  predicate RelayOk(fold: string -> string, s: State, id: string)
    requires id in s.relays
  {
    && (id in s.dueAt + s.replaced <==> id in s.noticed || Due(fold, s, s.relays[id]))
    && (Stale(fold, s, s.relays[id]) ==> id in s.staleAt + s.replaced)
  }

  ghost predicate Inv(fold: string -> string, s: State) {
    forall id :: id in s.relays ==> RelayOk(fold, s, id)
  }

  /** A preemption less: what was due still is, unless it was this one. */
  lemma DueAfter(fold: string -> string, s: State, i: nat, key: string)
    requires i in s.preempting
    ensures Due(fold, s, key) <==>
              Due(fold, s.(preempting := s.preempting - {i}), key) || Differs(fold, key, s.preempting[i])
  {
    hide Differs;
    var s' := s.(preempting := s.preempting - {i});
    if Due(fold, s, key) && !Differs(fold, key, s.preempting[i]) {
      var j :| j in s.preempting && Differs(fold, key, s.preempting[j]);
      assert j in s'.preempting && s'.preempting[j] == s.preempting[j];
    }
    if Due(fold, s', key) {
      var j :| j in s'.preempting && Differs(fold, key, s'.preempting[j]);
      assert j in s.preempting && s.preempting[j] == s'.preempting[j];
    }
  }

  lemma StepInv(fold: string -> string, s: State, a: Action)
    requires Inv(fold, s)
    ensures Inv(fold, Step(fold, s, a))
  {
    hide Differs, Due;
    var s' := Step(fold, s, a);
    forall id | id in s'.relays ensures RelayOk(fold, s', id) {
      var key := s'.relays[id];
      if id in s.relays { assert RelayOk(fold, s, id); }
      SameDue(fold, s, s', key);
      if a.Preempt? && a.call in s.preempting {
        DueAfter(fold, s, a.call, key);
        SameDue(fold, s.(preempting := s.preempting - {a.call}), s', key);
      }
      if a.SetKey? && s'.active != s.active {
        var was := s'.(preempting := s'.preempting - {a.call});
        assert was.preempting == s.preempting;
        DueAfter(fold, s', a.call, key);
        SameDue(fold, s, was, key);
      }
    }
  }

  lemma SameDue(fold: string -> string, s: State, s': State, key: string)
    ensures s'.preempting == s.preempting ==> (Due(fold, s', key) <==> Due(fold, s, key))
  {
  }

  lemma {:induction false} RunInv(fold: string -> string, acts: seq<Action>)
    ensures Inv(fold, Run(fold, acts))
  {
    hide Step;
    if acts != [] {
      hide Inv;
      RunInv(fold, acts[..|acts| - 1]);
      StepInv(fold, Run(fold, acts[..|acts| - 1]), acts[|acts| - 1]);
    }
  }

  /** In every interleaving, once no preemption is under way, a relay has been sent a close notice if and
      only if its session was replaced after it registered, or a preemption for another key was still to
      come when it did; whether its own session is the active one now is no matter. */
  lemma NoticedIff(fold: string -> string, acts: seq<Action>, id: string)
    requires Run(fold, acts).preempting == map[] && id in Run(fold, acts).relays
    ensures var s := Run(fold, acts);
            id in s.noticed <==> id in s.replaced || id in s.dueAt
  {
    hide Run;
    RunInv(fold, acts);
    assert RelayOk(fold, Run(fold, acts), id);
  }

  /** So a relay under another session than the active one has been left without a notice if and only if it
      registered when its session was already replaced and no preemption that concerned it was still to
      come, and there has been no change to another key since. */
  lemma UnnoticedIffLate(fold: string -> string, acts: seq<Action>, id: string)
    requires var s := Run(fold, acts);
             s.preempting == map[] && id in s.relays && Stale(fold, s, s.relays[id])
    ensures var s := Run(fold, acts);
            id !in s.noticed <==> id in s.staleAt && id !in s.dueAt && id !in s.replaced
  {
    hide Run;
    RunInv(fold, acts);
    assert RelayOk(fold, Run(fold, acts), id);
  }

  // ---------- single steps ----------

  /** What each lock section does to what callers can see. */
  lemma SectionsMean(fold: string -> string, s: State, i: nat, key: string, relay: string)
    ensures var s' := Step(fold, s, SetKey(i, key));
            && s'.relays == s.relays && s'.noticed == s.noticed
            && (key != "" && i !in s.preempting ==> s'.active == key)
            && (key != "" && i !in s.preempting && s.active != key ==> s'.preempting == s.preempting[i := key])
            && (key == "" || s.active == key ==> s'.preempting == s.preempting && s'.active == s.active)
    ensures var s' := Step(fold, s, Preempt(i));
            && s'.active == s.active && s'.relays == s.relays && i !in s'.preempting
            && (i in s.preempting ==>
                  forall id :: id in s'.noticed <==>
                    id in s.noticed || (id in s.relays && fold(s.relays[id]) != fold(s.preempting[i])))
    ensures var s' := Step(fold, s, Clear(key));
            && s'.relays == s.relays && s'.noticed == s.noticed && s'.preempting == s.preempting
            && s'.active == if key == "" || key == s.active then "" else s.active
    ensures var s' := Step(fold, s, Register(relay, key));
            && s'.active == s.active && s'.preempting == s.preempting
            && s'.relays == s.relays[relay := key] && s'.noticed == s.noticed - {relay}
    ensures var s' := Step(fold, s, Unregister(relay));
            && s'.active == s.active && s'.preempting == s.preempting
            && s'.relays == s.relays - {relay} && s'.noticed == s.noticed - {relay}
  {
    hide Due, Stale;
  }

  // ---------- runs ----------

  lemma RunMore(fold: string -> string, acts: seq<Action>, a: Action)
    ensures Run(fold, acts + [a]) == Step(fold, Run(fold, acts), a)
  {
    hide Step;
    assert (acts + [a])[..|acts|] == acts;
  }

  function Same(k: string): string { k }

  /** A request that read the active session "a" registers its relay after "b" has replaced it. */
  lemma LateRelaySurvives()
    ensures var acts := [SetKey(0, "a"), Preempt(0), SetKey(1, "b"), Preempt(1)] + [Register("r", "a")];
            var s := Run(Same, acts);
            s.active == "b" && s.preempting == map[] && s.relays == map["r" := "a"] && s.noticed == {}
  {
    var acts := [SetKey(0, "a"), Preempt(0), SetKey(1, "b"), Preempt(1)];
    FourSteps(acts[0], acts[1], acts[2], acts[3]);
    RunMore(Same, acts, Register("r", "a"));
  }

  /** The preemption for "a" is delayed until "b" has replaced it, and closes a relay of the active session. */
  lemma DelayedPreemptionCloses()
    ensures var acts := [SetKey(0, "a"), SetKey(1, "b"), Preempt(1), Register("r", "b")] + [Preempt(0)];
            var s := Run(Same, acts);
            s.active == "b" && s.preempting == map[] && s.relays == map["r" := "b"] && s.noticed == {"r"}
  {
    var acts := [SetKey(0, "a"), SetKey(1, "b"), Preempt(1), Register("r", "b")];
    FourSteps(acts[0], acts[1], acts[2], acts[3]);
    RunMore(Same, acts, Preempt(0));
    var s := Run(Same, acts);
    assert s.preempting == map[0 := "a"];
    assert Under(Same, s, "a") == {"r"};
  }

  lemma FourSteps(a: Action, b: Action, c: Action, d: Action)
    ensures Run(Same, [a, b, c, d]) ==
            Step(Same, Step(Same, Step(Same, Step(Same, State("", map[], map[], {}, {}, {}, {}), a), b), c), d)
  {
    hide Step;
    assert [a] == [] + [a] && [a, b] == [a] + [b] && [a, b, c] == [a, b] + [c] && [a, b, c, d] == [a, b, c] + [d];
    RunMore(Same, [], a);
    RunMore(Same, [a], b);
    RunMore(Same, [a, b], c);
    RunMore(Same, [a, b, c], d);
  }
}
