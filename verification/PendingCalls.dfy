/** Request/response correlation over the control channel: any number of callers, responders and timers.
    A step is one lock section, one channel operation or one timer firing. */
module PendingCalls {
  import opened Bytes

  type Id = string
  type Response = string

  datatype Outcome = Got(r: Response) | NoChannel | TimedOut

  /** A caller: queueing its request, waiting in the select, or on the way out with its entry to delete. */
  datatype Pc = Sending | Waiting | Leaving(why: Outcome) | Returned(outcome: Outcome)

  datatype Call = Call(pc: Pc, slot: Option<Response>)

  /** `hands` are responders that have taken a caller's channel out of the table and not yet sent on it.
      `accepted` and `foundFull` are history: the response taken for each id, and whether a responder ever
      found the one-slot channel occupied. */
  datatype State = State(
    calls: map<Id, Call>, pending: set<Id>, hands: multiset<(Id, Response)>,
    accepted: map<Id, Response>, foundFull: bool)

  const Initial: State := State(map[], {}, multiset{}, map[], false)

  datatype Action =
    | Begin(id: Id)                     // a fresh request id
    | Queued(id: Id, ok: bool)          // the control channel took the request, or did not
    | Respond(id: Id, r: Response)      // deliverResponse, lock section
    | Send(id: Id, r: Response)         // deliverResponse, channel send
    | Take(id: Id)                      // select: the response
    | Expire(id: Id)                    // select: the timer
    | Leave(id: Id)                     // delete the entry and return

  function At(s: State, id: Id, pc: Pc): State
    requires id in s.calls
  {
    s.(calls := s.calls[id := s.calls[id].(pc := pc)])
  }

  function Step(s: State, a: Action): State {
    match a
    case Begin(id) =>
      if id in s.calls then s
      else s.(calls := s.calls[id := Call(Sending, None)], pending := s.pending + {id})
    case Queued(id, ok) =>
      if id in s.calls && s.calls[id].pc == Sending then At(s, id, if ok then Waiting else Leaving(NoChannel)) else s
    case Respond(id, r) =>
      if id !in s.pending then s
      else s.(pending := s.pending - {id}, hands := s.hands + multiset{(id, r)}, accepted := s.accepted[id := r])
    case Send(id, r) =>
      if (id, r) !in s.hands || id !in s.calls then s
      else
        var s' := s.(hands := s.hands - multiset{(id, r)});
        if s.calls[id].slot.Some? then s'.(foundFull := true)
        else s'.(calls := s.calls[id := s.calls[id].(slot := Some(r))])
    case Take(id) =>
      if id in s.calls && s.calls[id].pc == Waiting && s.calls[id].slot.Some?
      then s.(calls := s.calls[id := Call(Returned(Got(s.calls[id].slot.value)), None)])
      else s
    case Expire(id) =>
      if id in s.calls && s.calls[id].pc == Waiting then At(s, id, Leaving(TimedOut)) else s
    case Leave(id) =>
      if id in s.calls && s.calls[id].pc.Leaving?
      then At(s, id, Returned(s.calls[id].pc.why)).(pending := s.pending - {id})
      else s
  }

  function Run(acts: seq<Action>): State {
    if acts == [] then Initial else Step(Run(acts[..|acts| - 1]), acts[|acts| - 1])
  }

  // ---------- the invariant ----------

  /** At any time the accepted response of a call is in exactly one place: a responder's hand, the
      channel, or the caller. */
  ghost predicate CallOk(s: State, id: Id) {
    && (id in s.pending ==> id in s.calls && !s.calls[id].pc.Returned? && id !in s.accepted)
    && (id in s.accepted ==>
          && id in s.calls
          && (s.calls[id].slot.Some? || (id, s.accepted[id]) in s.hands
              || s.calls[id].pc == Returned(Got(s.accepted[id]))))
    && (id in s.calls ==>
          var c := s.calls[id];
          && (c.slot.Some? ==> id in s.accepted && c.slot.value == s.accepted[id])
          && (c.pc.Returned? && c.pc.outcome.Got? ==>
                id in s.accepted && c.pc.outcome.r == s.accepted[id] && c.slot == None)
          && (c.pc.Leaving? ==> !c.pc.why.Got?)
          && (c.pc == Waiting || c.pc == Sending ==> id in s.pending || id in s.accepted))
  }

  ghost predicate HandOk(s: State, h: (Id, Response)) {
    h in s.hands ==>
      && s.hands[h] == 1 && h.0 in s.accepted && s.accepted[h.0] == h.1 && h.0 in s.calls
      && s.calls[h.0].slot == None
      && !(s.calls[h.0].pc.Returned? && s.calls[h.0].pc.outcome.Got?)
  }

  ghost predicate Inv(s: State) {
    && !s.foundFull
    && (forall id :: CallOk(s, id))
    && (forall h :: HandOk(s, h))
  }

  lemma StepInv(s: State, a: Action)
    requires Inv(s)
    ensures Inv(Step(s, a))
  {
    hide CallOk, HandOk, Step;
    var s' := Step(s, a);
    assert CallOk(s, a.id);
    if a.Send? { assert HandOk(s, (a.id, a.r)); }
    forall id ensures CallOk(s', id) {
      assert CallOk(s, id);
      StepCall(s, a, id);
    }
    forall h ensures HandOk(s', h) {
      assert HandOk(s, h) && CallOk(s, h.0);
      StepHand(s, a, h);
    }
    StepRoom(s, a);
  }

  lemma StepCall(s: State, a: Action, id: Id)
    requires CallOk(s, id) && (a.Send? ==> HandOk(s, (a.id, a.r)))
    ensures CallOk(Step(s, a), id)
  {
  }

  lemma StepHand(s: State, a: Action, h: (Id, Response))
    requires HandOk(s, h) && CallOk(s, h.0) && CallOk(s, a.id) && (a.Send? ==> HandOk(s, (a.id, a.r)))
    ensures HandOk(Step(s, a), h)
  {
  }

  lemma StepRoom(s: State, a: Action)
    requires !s.foundFull && (a.Send? ==> HandOk(s, (a.id, a.r)))
    ensures !Step(s, a).foundFull
  {
  }

  lemma {:induction false} RunInv(acts: seq<Action>)
    ensures Inv(Run(acts))
  {
    hide Inv, Step;
    if acts == [] { InitialInv(); }
    else {
      RunInv(acts[..|acts| - 1]);
      StepInv(Run(acts[..|acts| - 1]), acts[|acts| - 1]);
    }
  }

  lemma InitialInv()
    ensures Inv(Initial)
  {
  }

  // ---------- what callers rely on ----------

  /** In every interleaving no responder ever finds a caller's channel full, a caller gets only the
      response accepted for its own id, and its id is gone from the table once it has returned. */
  lemma CallsCorrelate(acts: seq<Action>, id: Id)
    ensures var s := Run(acts);
            && !s.foundFull
            && (id in s.calls && s.calls[id].pc.Returned? ==> id !in s.pending)
            && (id in s.calls && s.calls[id].pc.Returned? && s.calls[id].pc.outcome.Got? ==>
                  && id in s.accepted && s.calls[id].pc.outcome.r == s.accepted[id]
                  && exists i :: 0 <= i < |acts| && acts[i] == Respond(id, s.accepted[id]))
  {
    hide Step;
    RunInv(acts);
    assert CallOk(Run(acts), id);
    if id in Run(acts).accepted { AcceptedWasSent(acts, id); }
  }

  lemma {:induction false} AcceptedWasSent(acts: seq<Action>, id: Id)
    requires id in Run(acts).accepted
    ensures exists i :: 0 <= i < |acts| && acts[i] == Respond(id, Run(acts).accepted[id])
  {
    var n := |acts| - 1;
    var s := Run(acts[..n]);
    if id in s.accepted && Run(acts).accepted[id] == s.accepted[id] {
      AcceptedWasSent(acts[..n], id);
      var i :| 0 <= i < n && acts[..n][i] == Respond(id, s.accepted[id]);
      assert acts[i] == Respond(id, s.accepted[id]);
    } else {
      assert acts[n] == Respond(id, Run(acts).accepted[id]);
    }
  }

  lemma OutcomeStays(s: State, a: Action, id: Id)
    requires id in s.calls && s.calls[id].pc.Returned?
    ensures id in Step(s, a).calls && Step(s, a).calls[id].pc == s.calls[id].pc
  {
    match a
    case Begin(_) =>
    case Queued(_, _) =>
    case Respond(_, _) =>
    case Send(_, _) =>
    case Take(_) =>
    case Expire(_) =>
    case Leave(_) =>
  }

  /** A caller returns once: whatever happens later, its outcome stays. */
  lemma {:induction false} ReturnsOnce(acts: seq<Action>, more: seq<Action>, id: Id)
    requires id in Run(acts).calls && Run(acts).calls[id].pc.Returned?
    ensures id in Run(acts + more).calls && Run(acts + more).calls[id].pc == Run(acts).calls[id].pc
  {
    hide Step;
    if more == [] {
      assert acts + more == acts;
    } else {
      var n := |more| - 1;
      ReturnsOnce(acts, more[..n], id);
      assert (acts + more)[..|acts + more| - 1] == acts + more[..n];
      OutcomeStays(Run(acts + more[..n]), more[n], id);
    }
  }

  // ---------- and that they do get it ----------

  /** The outcome a caller is leaving or has left with. */
  predicate EndsWith(s: State, id: Id, o: Outcome) {
    id in s.calls && (s.calls[id].pc == Leaving(o) || s.calls[id].pc == Returned(o))
  }

  lemma CauseStep(s: State, a: Action, id: Id)
    ensures EndsWith(Step(s, a), id, TimedOut) && !EndsWith(s, id, TimedOut) ==> a == Expire(id)
    ensures EndsWith(Step(s, a), id, NoChannel) && !EndsWith(s, id, NoChannel) ==> a == Queued(id, false)
  {
  }

  /** A caller reports a timeout only if its timer fired, and a missing channel only if its request was not
      taken. */
  lemma {:induction false} FailuresHaveCause(acts: seq<Action>, id: Id)
    ensures EndsWith(Run(acts), id, TimedOut) ==> Expire(id) in acts
    ensures EndsWith(Run(acts), id, NoChannel) ==> Queued(id, false) in acts
  {
    if acts != [] {
      hide Step, EndsWith;
      var n := |acts| - 1;
      FailuresHaveCause(acts[..n], id);
      CauseStep(Run(acts[..n]), acts[n], id);
      assert acts == acts[..n] + [acts[n]];
    }
  }

  /** A response for a pending id is accepted, and one for any other id changes nothing. */
  lemma RespondAccepts(s: State, id: Id, r: Response)
    ensures var s' := Step(s, Respond(id, r));
            if id in s.pending then
              && id in s'.accepted && s'.accepted[id] == r && (id, r) in s'.hands && id !in s'.pending
              && s'.calls == s.calls
            else s' == s
  {
  }

  /** In every run, once the response accepted for a call is out of its responder's hands, a caller that is
      waiting gets it with its next step; one that has left in the meantime does not. */
  lemma AcceptedIsReceived(acts: seq<Action>, id: Id)
    requires var s := Run(acts);
             && id in s.accepted && (id, s.accepted[id]) !in s.hands
             && id in s.calls && s.calls[id].pc == Waiting
    ensures var s' := Step(Run(acts), Take(id));
            id in s'.calls && s'.calls[id].pc == Returned(Got(Run(acts).accepted[id]))
  {
    RunInv(acts);
    assert CallOk(Run(acts), id);
  }

  /** What moves a call on, in any state: it is pending from the start, waits once its request is taken, and
      an unanswered one leaves and is struck off. */
  lemma CallMoves(s: State, id: Id)
    ensures id !in s.calls ==>
              var b := Step(s, Begin(id)); id in b.pending && id in b.calls && b.calls[id] == Call(Sending, None)
    ensures id in s.calls && s.calls[id].pc == Sending ==>
              && Step(s, Queued(id, true)).calls == s.calls[id := s.calls[id].(pc := Waiting)]
              && Step(s, Queued(id, false)).calls == s.calls[id := s.calls[id].(pc := Leaving(NoChannel))]
    ensures id in s.calls && s.calls[id].pc == Waiting ==>
              Step(s, Expire(id)).calls == s.calls[id := s.calls[id].(pc := Leaving(TimedOut))]
    ensures id in s.calls && s.calls[id].pc.Leaving? ==>
              var l := Step(s, Leave(id));
              && l.calls == s.calls[id := s.calls[id].(pc := Returned(s.calls[id].pc.why))]
              && l.pending == s.pending - {id}
  {
  }

  /** In every run an accepted response goes from the responder's hand into its caller's channel. */
  lemma HandMoves(acts: seq<Action>, id: Id, r: Response)
    requires (id, r) in Run(acts).hands
    ensures var s' := Step(Run(acts), Send(id, r));
            id in s'.calls && s'.calls[id].slot == Some(r) && (id, r) !in s'.hands
  {
    hide Run;
    RunInv(acts);
    assert HandOk(Run(acts), (id, r));
  }
}
