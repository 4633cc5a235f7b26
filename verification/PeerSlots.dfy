/** Who holds a robot's control, relay or signaling slot.  The three tables differ only in the rule by
    which a newcomer may take an occupied slot. */
module PeerSlots {
  import opened Bytes
  import opened Text

  /** One accepted socket.  Every connection is a new object, so `serial` is its identity. */
  datatype Peer = Peer(serial: nat, slot: string, connectedAt: Option<int>, srcIp: string, bootstrapId: string)

  /** Control connections follow a configured policy, relay connections always preempt, signaling peers
      are debounced within a window. */
  datatype Rule = RejectNew | PreemptExisting | Debounce(window: int)

  type Slots = map<string, Peer>

  /** `fold` is the case folding under which addresses and ids are compared. */
  predicate SameText(fold: string -> string, a: string, b: string) {
    Trim(a) != "" && Trim(b) != "" && fold(Trim(a)) == fold(Trim(b))
  }

  predicate SameSource(fold: string -> string, a: Peer, b: Peer) {
    SameText(fold, a.srcIp, b.srcIp) || SameText(fold, a.bootstrapId, b.bootstrapId)
  }

  predicate ShouldDebounce(fold: string -> string, existing: Peer, incoming: Peer, window: int) {
    && window > 0 && existing.connectedAt.Some? && incoming.connectedAt.Some?
    && incoming.connectedAt.value - existing.connectedAt.value <= window
    && SameSource(fold, existing, incoming)
  }

  /** A blank slot id is refused by every rule. */
  predicate Admits(fold: string -> string, slots: Slots, p: Peer, rule: Rule) {
    Trim(p.slot) != "" &&
    (p.slot !in slots ||
     match rule
     case RejectNew => false
     case PreemptExisting => true
     case Debounce(window) => !ShouldDebounce(fold, slots[p.slot], p, window))
  }

  class SlotTable {
    const fold: string -> string
    var slots: Slots

    constructor (fold: string -> string)
      ensures this.fold == fold && slots == map[]
    {
      this.fold := fold;
      slots := map[];
    }

    /** Returns the peer found in the slot: displaced if the newcomer was accepted, else the incumbent. */
    method Register(p: Peer, rule: Rule) returns (accepted: bool, prev: Option<Peer>)
      modifies this
      ensures accepted == Admits(fold, old(slots), p, rule)
      ensures prev == if Trim(p.slot) != "" && p.slot in old(slots) then Some(old(slots)[p.slot]) else None
      ensures slots == if accepted then old(slots)[p.slot := p] else old(slots)
    {
      if Trim(p.slot) == "" { return false, None; }
      prev := if p.slot in slots then Some(slots[p.slot]) else None;
      accepted := true;
      if prev.Some? {
        match rule
        case RejectNew => accepted := false;
        case PreemptExisting =>
        case Debounce(window) => accepted := !ShouldDebounce(fold, prev.value, p, window);
      }
      if accepted { slots := slots[p.slot := p]; }
    }

    /** Only the current holder can vacate a slot. */
    method Unregister(p: Peer) returns (removed: bool)
      modifies this
      ensures removed == (p.slot in old(slots) && old(slots)[p.slot] == p)
      ensures slots == if removed then old(slots) - {p.slot} else old(slots)
    {
      removed := p.slot in slots && slots[p.slot] == p;
      if removed { slots := slots - {p.slot}; }
    }
  }

  // ---------- runs ----------

  datatype Action = Arrive(p: Peer, rule: Rule) | Depart(p: Peer)

  /** `displaced` and `left` count how tenures ended; `line` lists the successive holders of a slot since
      it was last vacant. */
  datatype State = State(
    slots: Slots, arrived: set<Peer>, accepted: set<Peer>, displaced: multiset<Peer>, left: multiset<Peer>,
    line: map<string, seq<Peer>>)

  const Initial: State := State(map[], {}, {}, multiset{}, multiset{}, map[])

  function Line(s: State, slot: string): seq<Peer> { if slot in s.line then s.line[slot] else [] }

  function Step(fold: string -> string, s: State, a: Action): State {
    match a
    case Arrive(p, rule) =>
      if p in s.arrived then s
      else if !Admits(fold, s.slots, p, rule) then s.(arrived := s.arrived + {p})
      else
        s.(slots := s.slots[p.slot := p], arrived := s.arrived + {p}, accepted := s.accepted + {p},
           displaced := if p.slot in s.slots then s.displaced + multiset{s.slots[p.slot]} else s.displaced,
           line := s.line[p.slot := Line(s, p.slot) + [p]])
    case Depart(p) =>
      if p.slot in s.slots && s.slots[p.slot] == p
      then s.(slots := s.slots - {p.slot}, left := s.left + multiset{p}, line := s.line[p.slot := []])
      else s
  }

  function Run(fold: string -> string, acts: seq<Action>): State {
    if acts == [] then Initial else Step(fold, Run(fold, acts[..|acts| - 1]), acts[|acts| - 1])
  }

  predicate Current(s: State, p: Peer) { p.slot in s.slots && s.slots[p.slot] == p }

  function Bit(b: bool): nat { if b then 1 else 0 }

  ghost predicate PeerOk(s: State, p: Peer) {
    && s.displaced[p] + s.left[p] + Bit(Current(s, p)) == Bit(p in s.accepted)
    && (p in s.accepted ==> p in s.arrived)
  }

  ghost predicate SlotOk(s: State, k: string) {
    && (k in s.slots ==> s.slots[k].slot == k && Line(s, k) != [] && Line(s, k)[|Line(s, k)| - 1] == s.slots[k])
    && (k !in s.slots ==> Line(s, k) == [])
  }

  ghost predicate Inv(s: State) { (forall p :: PeerOk(s, p)) && (forall k :: SlotOk(s, k)) }

  lemma StepInv(fold: string -> string, s: State, a: Action)
    requires Inv(s)
    ensures Inv(Step(fold, s, a))
  {
    hide Admits, Step, PeerOk, SlotOk;
    var s' := Step(fold, s, a);
    assert PeerOk(s, a.p) && SlotOk(s, a.p.slot);
    forall p ensures PeerOk(s', p) {
      assert PeerOk(s, p) && SlotOk(s, p.slot);
      StepPeer(fold, s, a, p);
    }
    forall k ensures SlotOk(s', k) {
      assert SlotOk(s, k);
      StepSlot(fold, s, a, k);
    }
  }

  lemma StepPeer(fold: string -> string, s: State, a: Action, p: Peer)
    requires PeerOk(s, p) && SlotOk(s, a.p.slot)
    ensures PeerOk(Step(fold, s, a), p)
  {
    hide Admits, Line;
  }

  lemma StepSlot(fold: string -> string, s: State, a: Action, k: string)
    requires SlotOk(s, k)
    ensures SlotOk(Step(fold, s, a), k)
  {
    hide Admits;
  }

  lemma InitialInv()
    ensures Inv(Initial)
  {
  }

  lemma {:induction false} RunInv(fold: string -> string, acts: seq<Action>)
    ensures Inv(Run(fold, acts))
  {
    hide Inv, Step;
    if acts == [] { InitialInv(); }
    else {
      RunInv(fold, acts[..|acts| - 1]);
      StepInv(fold, Run(fold, acts[..|acts| - 1]), acts[|acts| - 1]);
    }
  }

  // ---------- tenures ----------

  /** In every run an accepted peer is either still current or has ended its tenure exactly once, by
      displacement or by leaving, never both; a peer never accepted ends none. */
  lemma OneTenure(fold: string -> string, acts: seq<Action>, p: Peer)
    ensures var s := Run(fold, acts);
            && s.displaced[p] + s.left[p] == (if p in s.accepted && !Current(s, p) then 1 else 0)
            && (Current(s, p) ==> p in s.accepted)
  {
    RunInv(fold, acts);
    assert PeerOk(Run(fold, acts), p);
  }

  /** The late exit of a displaced peer changes nothing: its successor keeps the slot. */
  lemma LateExitHarmless(fold: string -> string, acts: seq<Action>, p: Peer)
    requires Run(fold, acts).displaced[p] > 0
    ensures Step(fold, Run(fold, acts), Depart(p)) == Run(fold, acts)
  {
    hide Run;
    RunInv(fold, acts);
    assert PeerOk(Run(fold, acts), p);
  }

  /** While newcomers are turned away and the incumbent does not leave, it keeps its slot. */
  lemma {:induction false} IncumbentStays(fold: string -> string, acts: seq<Action>, more: seq<Action>, p: Peer)
    requires Current(Run(fold, acts), p)
    requires forall a :: a in more && a.Arrive? && a.p.slot == p.slot ==> a.rule == RejectNew
    requires Depart(p) !in more
    ensures Current(Run(fold, acts + more), p)
  {
    hide Step;
    if more == [] {
      assert acts + more == acts;
    } else {
      hide Current;
      var n := |more| - 1;
      IncumbentStays(fold, acts, more[..n], p);
      assert (acts + more)[..|acts + more| - 1] == acts + more[..n];
      assert more[n] in more;
      HoldsOn(fold, Run(fold, acts + more[..n]), more[n], p);
    }
  }

  lemma HoldsOn(fold: string -> string, s: State, a: Action, p: Peer)
    requires Current(s, p) && a != Depart(p) && (a.Arrive? && a.p.slot == p.slot ==> a.rule == RejectNew)
    ensures Current(Step(fold, s, a), p)
  {
    hide Trim, ShouldDebounce;
  }

  // ---------- debounce ----------

  predicate Gap(a: Peer, b: Peer, window: int) {
    a.connectedAt.Some? && b.connectedAt.Some? && b.connectedAt.value - a.connectedAt.value > window
  }

  ghost predicate Paced(line: seq<Peer>, window: int) {
    forall i, j :: 0 <= i && j == i + 1 && j < |line| ==> Gap(line[i], line[j], window)
  }

  /** All arrivals at the slot come from one source, carry a time, and are debounced by one window. */
  ghost predicate OneSource(fold: string -> string, acts: seq<Action>, slot: string, window: int) {
    && window > 0
    && (forall a :: a in acts && a.Arrive? && a.p.slot == slot ==> a.rule == Debounce(window) && a.p.connectedAt.Some?)
    && (forall a, b :: a in acts && b in acts && a.Arrive? && b.Arrive? && a.p.slot == slot && b.p.slot == slot ==>
          SameSource(fold, a.p, b.p))
  }

  lemma {:induction false} LineArrived(fold: string -> string, acts: seq<Action>, slot: string)
    ensures forall p :: p in Line(Run(fold, acts), slot) ==> p.slot == slot && exists r :: Arrive(p, r) in acts
  {
    hide Admits;
    if acts != [] {
      var n := |acts| - 1;
      LineArrived(fold, acts[..n], slot);
      forall p | p in Line(Run(fold, acts), slot) ensures p.slot == slot && exists r :: Arrive(p, r) in acts {
        if p in Line(Run(fold, acts[..n]), slot) {
          var r :| Arrive(p, r) in acts[..n];
          assert Arrive(p, r) in acts;
        } else {
          assert acts[n].Arrive? && acts[n].p == p;
          assert acts[n] == Arrive(p, acts[n].rule);
        }
      }
    }
  }

  /** How one step changes the line of a slot. */
  lemma LineStep(fold: string -> string, s: State, a: Action, slot: string)
    requires SlotOk(s, slot)
    ensures var line, line' := Line(s, slot), Line(Step(fold, s, a), slot);
            line' == line || line' == []
            || (a.Arrive? && a.p.slot == slot && line' == line + [a.p]
                && (line != [] ==> && slot in s.slots && line[|line| - 1] == s.slots[slot]
                                   && Admits(fold, s.slots, a.p, a.rule)))
  {
    hide Admits;
  }

  lemma PacedAppend(line: seq<Peer>, p: Peer, window: int)
    requires Paced(line, window) && (line != [] ==> Gap(line[|line| - 1], p, window))
    ensures Paced(line + [p], window)
  {
  }

  /** One source reconnecting to a slot cannot make it change hands faster than once per window. */
  lemma {:induction false} DebouncePaces(fold: string -> string, acts: seq<Action>, slot: string, window: int)
    requires OneSource(fold, acts, slot, window)
    ensures Paced(Line(Run(fold, acts), slot), window)
  {
    if acts != [] {
      hide Step, Line, SameText, Paced, PeerOk;
      var n := |acts| - 1;
      var init, a := acts[..n], acts[n];
      assert forall b :: b in init ==> b in acts;
      DebouncePaces(fold, init, slot, window);
      var s := Run(fold, init);
      RunInv(fold, init);
      assert SlotOk(s, slot);
      LineStep(fold, s, a, slot);
      LineArrived(fold, init, slot);
      var line := Line(s, slot);
      if Line(Run(fold, acts), slot) == line + [a.p] && a.Arrive? && a.p.slot == slot {
        if line != [] {
          var prev := line[|line| - 1];
          var r :| Arrive(prev, r) in init;
          assert Arrive(prev, r) in acts && a in acts;
          assert SameSource(fold, Arrive(prev, r).p, a.p);
        }
        PacedAppend(line, a.p, window);
      }
      PacedNone(window);
    } else {
      PacedNone(window);
    }
  }

  lemma PacedNone(window: int)
    ensures Paced([], window)
  {
  }

  lemma {:induction false} PacedTakesTime(line: seq<Peer>, window: int)
    requires Paced(line, window) && |line| >= 2
    ensures line[0].connectedAt.Some? && line[|line| - 1].connectedAt.Some?
    ensures line[|line| - 1].connectedAt.value - line[0].connectedAt.value >= (|line| - 1) * (window + 1)
    decreases |line|
  {
    var n := |line| - 1;
    assert Gap(line[n - 1], line[n], window);
    assert Paced(line[..n], window);
    if n >= 2 { PacedTakesTime(line[..n], window); }
  }

  /** So in every such run, k changes of hands without a vacancy take more than k windows. */
  lemma ChangesTakeTime(fold: string -> string, acts: seq<Action>, slot: string, window: int)
    requires OneSource(fold, acts, slot, window)
    ensures var line := Line(Run(fold, acts), slot);
            |line| >= 2 ==>
            && line[0].connectedAt.Some? && line[|line| - 1].connectedAt.Some?
            && line[|line| - 1].connectedAt.value - line[0].connectedAt.value >= (|line| - 1) * (window + 1)
  {
    hide Run;
    DebouncePaces(fold, acts, slot, window);
    var line := Line(Run(fold, acts), slot);
    if |line| >= 2 { PacedTakesTime(line, window); }
  }

  // ---------- who gets in ----------

  /** Text is compared trimmed and case-folded, and blank text is like nothing. */
  predicate Alike(fold: string -> string, a: string, b: string) {
    Trim(a) != "" && Trim(b) != "" && fold(Trim(a)) == fold(Trim(b))
  }

  /** An arrival under each rule, whatever came before: a vacant slot takes any peer with an id; an occupied
      one takes none under reject_new, every one under preempt_existing, and under a debounce every one
      except the same source within the window. */
  lemma AcceptedIff(fold: string -> string, acts: seq<Action>, p: Peer, rule: Rule)
    requires p !in Run(fold, acts).arrived
    ensures var s, s' := Run(fold, acts), Step(fold, Run(fold, acts), Arrive(p, rule));
            var taken := p.slot in s.slots;
            && (Current(s', p) <==>
                  && Trim(p.slot) != ""
                  && (!taken || match rule
                                case RejectNew => false
                                case PreemptExisting => true
                                case Debounce(window) =>
                                  var q := s.slots[p.slot];
                                  !(&& window > 0 && q.connectedAt.Some? && p.connectedAt.Some?
                                    && p.connectedAt.value - q.connectedAt.value <= window
                                    && (Alike(fold, q.srcIp, p.srcIp) || Alike(fold, q.bootstrapId, p.bootstrapId)))))
            && (p in s'.accepted <==> Current(s', p))
            && (Current(s', p) && taken ==> s'.displaced == s.displaced + multiset{s.slots[p.slot]})
            && (!Current(s', p) ==> s'.slots == s.slots)
            && (forall k :: k != p.slot ==>
                  (k in s'.slots <==> k in s.slots) && (k in s.slots ==> s'.slots[k] == s.slots[k]))
  {
    hide Trim, Line;
    RunInv(fold, acts);
    assert PeerOk(Run(fold, acts), p) && SlotOk(Run(fold, acts), p.slot);
  }

  /** A holder that leaves vacates its slot, and only its slot. */
  lemma LeavingVacates(fold: string -> string, s: State, p: Peer)
    requires Current(s, p)
    ensures var s' := Step(fold, s, Depart(p));
            s'.slots == s.slots - {p.slot} && s'.left == s.left + multiset{p} && s'.displaced == s.displaced
  {
  }
}
