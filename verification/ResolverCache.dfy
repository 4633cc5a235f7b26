/** The resolver's TTL cache in front of the registry, with any number of resolutions under way. */
module ResolverCache {
  import opened Bytes

  const SECOND: int := 1_000_000_000
  const POSITIVE_TTL: int := 60 * SECOND
  const NEGATIVE_TTL: int := 5 * SECOND

  /** What the registry, or the way to it, answers. */
  datatype Reply = Found(endpoint: string) | NotFound | OtherStatus | Transport | BadBody

  datatype Result = Ok(endpoint: string) | Missing | NoEndpoint | HttpError | NegativeCached

  datatype Entry = Entry(value: Option<string>, expires: int)

  type Cache = map<string, Entry>

  /** Only a registry verdict is cached: an endpoint, or that there is none. */
  predicate Cached(r: Reply) { r.Found? || r.NotFound? }

  function Value(r: Reply): Option<string> { if r.Found? && r.endpoint != "" then Some(r.endpoint) else None }

  function Ttl(v: Option<string>): int { if v.Some? then POSITIVE_TTL else NEGATIVE_TTL }

  function Answer(r: Reply): Result {
    match r
    case Found(ep) => if ep == "" then NoEndpoint else Ok(ep)
    case NotFound => Missing
    case _ => HttpError
  }

  function FromEntry(e: Entry): Result { if e.value.Some? then Ok(e.value.value) else NegativeCached }

  function Filed(c: Cache, agent: string, r: Reply, now: int): Cache {
    if Cached(r) then c[agent := Entry(Value(r), now + Ttl(Value(r)))] else c
  }

  class Resolver {
    var cache: Cache

    constructor ()
      ensures cache == map[]
    { cache := map[]; }

    /** The first lock section of `resolve`; `None` means the registry has to be asked. */
    method Lookup(agent: string, now: int) returns (r: Option<Result>)
      ensures r == if agent in cache && cache[agent].expires > now then Some(FromEntry(cache[agent])) else None
    {
      if agent in cache {
        var entry := cache[agent];
        if entry.expires > now {
          match entry.value
          case Some(ep) => return Some(Ok(ep));
          case None => return Some(NegativeCached);
        }
      }
      return None;
    }

    /** The second lock section, once the reply is in. */
    method File(agent: string, reply: Reply, now: int) returns (r: Result)
      modifies this
      ensures cache == Filed(old(cache), agent, reply, now) && r == Answer(reply)
    {
      if reply == NotFound {
        cache := cache[agent := Entry(None, now + NEGATIVE_TTL)];
        return Missing;
      }
      if !reply.Found? { return HttpError; }
      if reply.endpoint == "" {
        cache := cache[agent := Entry(None, now + NEGATIVE_TTL)];
        return NoEndpoint;
      }
      cache := cache[agent := Entry(Some(reply.endpoint), now + POSITIVE_TTL)];
      return Ok(reply.endpoint);
    }

    method Invalidate(agent: string)
      modifies this
      ensures cache == old(cache) - {agent}
    { cache := cache - {agent}; }
  }

  // ---------- interleavings ----------

  /** A resolution: asking the registry, or finished at an instant, from the cache or by its own fetch.
      `asked` and `logged` are history: the length of the log when it began to ask, and when it finished. */
  datatype Call =
    | Fetching(agent: string, asked: nat)
    | Done(agent: string, result: Result, at: int, own: Option<Reply>, logged: nat)

  /** History of the cache: replies filed, with when they were asked for, and entries dropped. */
  datatype Change = Stored(agent: string, reply: Reply, at: int, asked: nat) | Dropped(agent: string)

  datatype State = State(now: int, cache: Cache, calls: map<nat, Call>, log: seq<Change>)

  datatype Action =
    | Tick(d: nat)
    | Begin(call: nat, agent: string)
    | Arrive(call: nat, reply: Reply)
    | Invalidate(agent: string)

  function Step(s: State, a: Action): State {
    match a
    case Tick(d) => s.(now := s.now + d)
    case Begin(i, agent) =>
      if i in s.calls then s
      else if agent in s.cache && s.cache[agent].expires > s.now
      then s.(calls := s.calls[i := Done(agent, FromEntry(s.cache[agent]), s.now, None, |s.log|)])
      else s.(calls := s.calls[i := Fetching(agent, |s.log|)])
    case Arrive(i, reply) =>
      if i !in s.calls || !s.calls[i].Fetching? then s
      else
        var agent := s.calls[i].agent;
        s.(cache := Filed(s.cache, agent, reply, s.now),
           calls := s.calls[i := Done(agent, Answer(reply), s.now, Some(reply), |s.log|)],
           log := if Cached(reply) then s.log + [Stored(agent, reply, s.now, s.calls[i].asked)] else s.log)
    case Invalidate(agent) => s.(cache := s.cache - {agent}, log := s.log + [Dropped(agent)])
  }

  function Run(start: int, acts: seq<Action>): State {
    if acts == [] then State(start, map[], map[], []) else Step(Run(start, acts[..|acts| - 1]), acts[|acts| - 1])
  }

  /** The last thing that happened to an agent's entry. */
  function LastChange(log: seq<Change>, agent: string): Option<Change> {
    if log == [] then None
    else if log[|log| - 1].agent == agent then Some(log[|log| - 1])
    else LastChange(log[..|log| - 1], agent)
  }

  lemma LastAppend(log: seq<Change>, c: Change, agent: string)
    ensures LastChange(log + [c], agent) == if c.agent == agent then Some(c) else LastChange(log, agent)
  {
    assert (log + [c])[..|log|] == log;
  }

  /** The cache holds exactly the replies that were filed last and not dropped since. */
  ghost predicate EntryOk(s: State, agent: string) {
    match LastChange(s.log, agent)
    case Some(Stored(a, r, at, _)) =>
      && a == agent && Cached(r) && at <= s.now
      && agent in s.cache && s.cache[agent] == Entry(Value(r), at + Ttl(Value(r)))
    case _ => agent !in s.cache
  }

  /** A finished resolution reports its own reply, or an entry that was current and unexpired. */
  ghost predicate CallOk(c: Call, log: seq<Change>, now: int) {
    c.Done? ==>
      && c.logged <= |log| && c.at <= now
      && if c.own.Some? then c.result == Answer(c.own.value)
         else
           match LastChange(log[..c.logged], c.agent)
           case Some(Stored(a, r, t, _)) =>
             && a == c.agent && Cached(r) && t <= c.at < t + Ttl(Value(r))
             && c.result == if Value(r).Some? then Ok(Value(r).value) else NegativeCached
           case _ => false
  }

  ghost predicate Inv(s: State) {
    && (forall agent :: EntryOk(s, agent))
    && (forall i :: i in s.calls ==> CallOk(s.calls[i], s.log, s.now))
  }

  lemma CallOkLater(c: Call, log: seq<Change>, more: seq<Change>, now: int, later: int)
    requires CallOk(c, log, now) && now <= later
    ensures CallOk(c, log + more, later)
  {
    if c.Done? { assert (log + more)[..c.logged] == log[..c.logged]; }
  }

  lemma StepEntries(s: State, a: Action, agent: string)
    requires EntryOk(s, agent)
    requires a.Arrive? && a.call in s.calls && s.calls[a.call].Fetching? ==> EntryOk(s, s.calls[a.call].agent)
    ensures EntryOk(Step(s, a), agent)
  {
    hide LastChange;
    if a.Arrive? && a.call in s.calls && s.calls[a.call].Fetching? {
      LastAppend(s.log, Stored(s.calls[a.call].agent, a.reply, s.now, s.calls[a.call].asked), agent);
    }
    if a.Invalidate? { LastAppend(s.log, Dropped(a.agent), agent); }
  }

  lemma StepInv(s: State, a: Action)
    requires Inv(s)
    ensures Inv(Step(s, a))
  {
    hide LastChange, Filed;
    var s' := Step(s, a);
    forall agent ensures EntryOk(s', agent) {
      assert EntryOk(s, agent);
      if a.Arrive? && a.call in s.calls { assert EntryOk(s, s.calls[a.call].agent); }
      StepEntries(s, a, agent);
    }
    assert s.log <= s'.log;
    var more := s'.log[|s.log|..];
    assert s'.log == s.log + more;
    forall i | i in s'.calls ensures CallOk(s'.calls[i], s'.log, s'.now) {
      if i in s.calls && s'.calls[i] == s.calls[i] { CallOkLater(s.calls[i], s.log, more, s.now, s'.now); }
      else if a.Begin? {
        assert EntryOk(s, a.agent);
        assert s.log[..|s.log|] == s.log;
      }
    }
  }

  lemma {:induction false} RunInv(start: int, acts: seq<Action>)
    ensures Inv(Run(start, acts))
  {
    hide Inv, Step;
    if acts == [] { StartInv(start); }
    else {
      RunInv(start, acts[..|acts| - 1]);
      StepInv(Run(start, acts[..|acts| - 1]), acts[|acts| - 1]);
    }
  }

  lemma StartInv(start: int)
    ensures Inv(State(start, map[], map[], []))
  {
  }

  // ---------- what callers rely on ----------

  /** In every interleaving an endpoint handed out was fetched by this very call, or is the registry reply
      filed last for the agent, not dropped since, and less than 60 seconds old; a cached negative verdict
      likewise, less than 5 seconds old. */
  lemma AnswersFresh(start: int, acts: seq<Action>, i: nat)
    requires i in Run(start, acts).calls && Run(start, acts).calls[i].Done?
    ensures var s := Run(start, acts);
            var c := s.calls[i];
            && c.logged <= |s.log|
            && (c.own.Some? ==>
                  c.result == match c.own.value
                              case Found(ep) => if ep == "" then NoEndpoint else Ok(ep)
                              case NotFound => Missing
                              case OtherStatus => HttpError
                              case Transport => HttpError
                              case BadBody => HttpError)
            && (c.own.None? ==>
                  var last := LastChange(s.log[..c.logged], c.agent);
                  && last.Some? && last.value.Stored? && Cached(last.value.reply) && last.value.at <= c.at
                  && match c.result
                     case Ok(ep) => last.value.reply == Found(ep) && ep != "" && c.at - last.value.at < 60_000_000_000
                     case NegativeCached =>
                       last.value.reply in {NotFound, Found("")} && c.at - last.value.at < 5_000_000_000
                     case _ => false)
  {
    hide Step;
    RunInv(start, acts);
    var s := Run(start, acts);
    assert CallOk(s.calls[i], s.log, s.now);
  }

  /** In every run a resolution is answered from the cache if and only if the last thing that happened to the
      agent's entry was a reply with an endpoint less than 60 seconds ago, or one without less than 5
      seconds ago; otherwise the registry is asked. */
  lemma CachedIff(start: int, acts: seq<Action>, wait: nat, i: nat, agent: string)
    requires i !in Run(start, acts).calls
    ensures var s := Run(start, acts);
            var c, last := Step(Step(s, Tick(wait)), Begin(i, agent)).calls, LastChange(s.log, agent);
            && i in c && (c[i].Done? || c[i] == Fetching(agent, |s.log|))
            && (c[i].Done? <==>
                  && last.Some? && last.value.Stored?
                  && var r := last.value.reply;
                     s.now + wait - last.value.at <
                       if r.Found? && r.endpoint != "" then 60_000_000_000 else 5_000_000_000)
  {
    hide Run;
    RunInv(start, acts);
    assert EntryOk(Run(start, acts), agent);
  }

  /** A reply in hand: an endpoint, a missing agent and an empty endpoint are filed for the agent, any other
      failure is not, and the caller is answered accordingly. */
  lemma ReplyMeans(s: State, i: nat, reply: Reply)
    requires i in s.calls && s.calls[i].Fetching?
    ensures var s', agent := Step(s, Arrive(i, reply)), s.calls[i].agent;
            && i in s'.calls && s'.calls[i].Done? && s'.calls[i].own == Some(reply) && s'.calls[i].at == s.now
            && (reply.Found? || reply.NotFound? ==>
                  && s'.log == s.log + [Stored(agent, reply, s.now, s.calls[i].asked)]
                  && agent in s'.cache && s'.cache - {agent} == s.cache - {agent}
                  && s'.cache[agent] ==
                     if reply.Found? && reply.endpoint != "" then Entry(Some(reply.endpoint), s.now + 60_000_000_000)
                     else Entry(None, s.now + 5_000_000_000))
            && (!reply.Found? && !reply.NotFound? ==> s'.cache == s.cache && s'.log == s.log)
  {
  }

  /** The step files a reply for the agent. */
  predicate FilesFor(s: State, a: Action, agent: string) {
    a.Arrive? && a.call in s.calls && s.calls[a.call].Fetching? && s.calls[a.call].agent == agent && Cached(a.reply)
  }

  /** After an invalidation no resolution is answered from the cache until a reply is filed for the agent,
      whatever else happens in between. */
  lemma {:induction false} InvalidationHolds(start: int, acts: seq<Action>, k: nat, agent: string)
    requires k < |acts| && acts[k] == Invalidate(agent)
    requires forall j :: k < j < |acts| ==> !FilesFor(Run(start, acts[..j]), acts[j], agent)
    ensures agent !in Run(start, acts).cache
    decreases |acts|
  {
    hide Step;
    var n := |acts| - 1;
    if k < n {
      hide FilesFor;
      var init := acts[..n];
      forall j | k < j < n ensures !FilesFor(Run(start, init[..j]), init[j], agent) {
        assert init[..j] == acts[..j];
      }
      InvalidationHolds(start, init, k, agent);
      assert !FilesFor(Run(start, acts[..n]), acts[n], agent);
    }
    hide FilesFor;
    StaysOut(Run(start, acts[..n]), acts[n], agent);
  }

  lemma StaysOut(s: State, a: Action, agent: string)
    requires a == Invalidate(agent) || (agent !in s.cache && !FilesFor(s, a, agent))
    ensures agent !in Step(s, a).cache
  {
  }

  // ---------- when an invalidation makes the next attempt ask again ----------

  /** What is cached for the agent was asked for no earlier than the log had `p` entries. */
  predicate AskedSince(s: State, agent: string, p: nat) {
    agent in s.cache ==>
      var last := LastChange(s.log, agent);
      last.Some? && last.value.Stored? && last.value.asked >= p
  }

  /** Whatever happens next, nothing is cached for the agent that was asked for before now. */
  ghost predicate WillAskAgain(start: int, acts: seq<Action>, agent: string) {
    forall more: seq<Action> :: AskedSince(Run(start, acts + more), agent, |Run(start, acts).log|)
  }

  predicate IsFetching(c: Call, agent: string) { c.Fetching? && c.agent == agent }

  predicate NoneUnderWay(s: State, agent: string) {
    forall i :: i in s.calls ==> !IsFetching(s.calls[i], agent)
  }

  predicate FetchesSince(s: State, agent: string, p: nat) {
    && p <= |s.log| && AskedSince(s, agent, p)
    && forall i :: i in s.calls && IsFetching(s.calls[i], agent) ==> s.calls[i].asked >= p
  }

  lemma FetchesStep(s: State, a: Action, agent: string, p: nat)
    requires FetchesSince(s, agent, p)
    ensures FetchesSince(Step(s, a), agent, p)
  {
    hide LastChange;
    if a.Arrive? && a.call in s.calls && s.calls[a.call].Fetching? {
      LastAppend(s.log, Stored(s.calls[a.call].agent, a.reply, s.now, s.calls[a.call].asked), agent);
    }
    if a.Invalidate? { LastAppend(s.log, Dropped(a.agent), agent); }
  }

  lemma {:induction false} FetchesRun(start: int, acts: seq<Action>, more: seq<Action>, agent: string, p: nat)
    requires FetchesSince(Run(start, acts), agent, p)
    ensures FetchesSince(Run(start, acts + more), agent, p)
    decreases |more|
  {
    hide FetchesSince, Step;
    if more == [] { assert acts + more == acts; }
    else {
      var n := |more| - 1;
      FetchesRun(start, acts, more[..n], agent, p);
      assert (acts + more)[..|acts + more| - 1] == acts + more[..n];
      FetchesStep(Run(start, acts + more[..n]), more[n], agent, p);
    }
  }

  predicate AllAsked(s: State) {
    forall i :: i in s.calls && s.calls[i].Fetching? ==> s.calls[i].asked <= |s.log|
  }

  lemma {:induction false} AskedEarlier(start: int, acts: seq<Action>)
    ensures AllAsked(Run(start, acts))
  {
    if acts != [] { AskedEarlier(start, acts[..|acts| - 1]); }
  }

  /** After an invalidation the next attempts are answered only from what was asked for afterwards, however
      the run goes on, if and only if no fetch for the agent was under way. */
  lemma InvalidationRefetchesIff(start: int, acts: seq<Action>, agent: string)
    requires acts != [] && acts[|acts| - 1] == Invalidate(agent)
    ensures WillAskAgain(start, acts, agent) <==> NoneUnderWay(Run(start, acts), agent)
  {
    var before, s := Run(start, acts[..|acts| - 1]), Run(start, acts);
    var p := |s.log|;
    AskedEarlier(start, acts[..|acts| - 1]);
    assert s.calls == before.calls && p == |before.log| + 1;
    if NoneUnderWay(s, agent) {
      forall more: seq<Action> ensures AskedSince(Run(start, acts + more), agent, p) {
        hide Run;
        FetchesRun(start, acts, more, agent, p);
      }
    } else {
      var i :| i in s.calls && IsFetching(s.calls[i], agent);
      hide Step, LastChange;
      var more := [Arrive(i, Found("old"))];
      assert (acts + more)[..|acts|] == acts;
      assert Run(start, acts + more) == Step(s, more[0]);
      OldReplyStored(s, i, agent, p);
      assert !AskedSince(Run(start, acts + more), agent, p);
    }
  }

  lemma OldReplyStored(s: State, i: nat, agent: string, p: nat)
    requires i in s.calls && IsFetching(s.calls[i], agent) && s.calls[i].asked < p
    ensures !AskedSince(Step(s, Arrive(i, Found("old"))), agent, p)
  {
    hide LastChange;
    LastAppend(s.log, Stored(agent, Found("old"), s.now, s.calls[i].asked), agent);
  }

  /** Such a run: the attempt after the invalidation is given the answer asked for before it. */
  lemma OldReplyAfterInvalidation()
    ensures var acts := [Begin(0, "a"), Invalidate("a"), Arrive(0, Found("old")), Begin(1, "a")];
            var s := Run(0, acts);
            1 in s.calls && s.calls[1].Done? && s.calls[1].result == Ok("old") && s.calls[1].own == None
  {
    var acts := [Begin(0, "a"), Invalidate("a"), Arrive(0, Found("old")), Begin(1, "a")];
    assert acts[..0] == [] && acts[..4] == acts;
    assert acts[..1][..0] == [] && acts[..2][..1] == acts[..1];
    assert acts[..3][..2] == acts[..2] && acts[..4][..3] == acts[..3];
    var s1 := Run(0, acts[..1]);
    assert s1 == Step(Run(0, []), acts[0]) && Run(0, []).calls == map[];
    assert s1.calls == map[0 := Fetching("a", 0)];
    var s2 := Run(0, acts[..2]);
    assert s2 == Step(s1, acts[1]) && s2.calls == s1.calls;
    var s3 := Run(0, acts[..3]);
    assert s3 == Step(s2, acts[2]) && s2.cache == map[] && s2.now == 0;
    assert s3.cache == map["a" := Entry(Some("old"), POSITIVE_TTL)];
  }
}
