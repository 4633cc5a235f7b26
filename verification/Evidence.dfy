/** The table of bootstrap sessions, pruned as it is updated. */
module Evidence {
  import opened Text

  // Instants are nanoseconds; stored timestamps have whole seconds.
  const SECOND: int := 1_000_000_000
  const RETENTION: int := 30 * 60 * SECOND

  /** Formatting an instant as RFC 3339 and reading it back drops the fraction of a second. */
  function Stored(t: int): int { t / SECOND * SECOND }

  /** A start time is what a caller supplied, or the instant of an upsert. */
  datatype Start = Supplied(text: string) | At(t: int)

  datatype Session = Session(startedAt: Start, updatedAt: int)

  type Sessions = map<string, Session>

  datatype Upsert = Upsert(id: string, start: string, now: int)

  predicate Expired(s: Session, now: int) { s.updatedAt < now - RETENTION }

  function Pruned(t: Sessions, now: int): Sessions {
    map k | k in t && !Expired(t[k], now) :: t[k]
  }

  function After(t: Sessions, u: Upsert): Sessions {
    var id := Trim(u.id);
    if id == "" then t
    else
      var kept := Pruned(t, u.now);
      var start := if Trim(u.start) != "" then Supplied(Trim(u.start))
                   else if id in kept then kept[id].startedAt
                   else At(Stored(u.now));
      kept[id := Session(start, Stored(u.now))]
  }

  class Store {
    var sessions: Sessions

    constructor ()
      ensures sessions == map[]
    { sessions := map[]; }

    method PruneExpiredSessions(now: int)
      modifies this
      ensures sessions == Pruned(old(sessions), now)
    {
      var rest := sessions.Keys;
      while rest != {}
        invariant rest <= old(sessions).Keys
        invariant sessions == map k | k in old(sessions) && (k in rest || !Expired(old(sessions)[k], now))
                                :: old(sessions)[k]
        decreases |rest|
      {
        var k :| k in rest;
        if Expired(sessions[k], now) { sessions := sessions - {k}; }
        rest := rest - {k};
      }
    }

    method UpsertSession(u: Upsert)
      modifies this
      ensures sessions == After(old(sessions), u)
    {
      var id := Trim(u.id);
      if id == "" { return; }
      PruneExpiredSessions(u.now);
      var start := At(Stored(u.now));
      if Trim(u.start) != "" { start := Supplied(Trim(u.start)); }
      else if id in sessions { start := sessions[id].startedAt; }
      sessions := sessions[id := Session(start, Stored(u.now))];
    }
  }

  // ---------- runs ----------

  function Run(h: seq<Upsert>): Sessions {
    if h == [] then map[] else After(Run(h[..|h| - 1]), h[|h| - 1])
  }

  predicate Ordered(h: seq<Upsert>) { forall i, j :: 0 <= i < j < |h| ==> h[i].now <= h[j].now }

  /** The instants at which a session was upserted. */
  function Times(h: seq<Upsert>, id: string): seq<int> {
    if h == [] || id == "" then []
    else Times(h[..|h| - 1], id) + if Trim(h[|h| - 1].id) == id then [h[|h| - 1].now] else []
  }

  /** The instant of the last upsert that did anything; one with a blank id does nothing. */
  function Latest(h: seq<Upsert>, from: int): int {
    if h == [] then from
    else if Trim(h[|h| - 1].id) != "" then h[|h| - 1].now
    else Latest(h[..|h| - 1], from)
  }

  /** An entry stored at `t` no longer counts at `now`. */
  predicate Stale(t: int, now: int) { Stored(t) < now - 1_800_000_000_000 }

  /** Upsert `i` opens the current unbroken episode. */
  ghost predicate Opens(ts: seq<int>, i: int) {
    && 0 <= i < |ts| && (i == 0 || Stale(ts[i - 1], ts[i]))
    && forall j, k :: i <= j && k == j + 1 && k < |ts| ==> !Stale(ts[j], ts[k])
  }

  predicate NeverSupplied(h: seq<Upsert>, id: string) {
    forall u :: u in h && Trim(u.id) == id ==> Trim(u.start) == ""
  }

  /** With a clock that never goes back the table always holds exactly the sessions whose last upsert,
      taken to whole seconds, lay within the retention period at the last upsert of any session. */
  lemma {:induction false} TableExact(h: seq<Upsert>, id: string, from: int)
    requires Ordered(h) && (h != [] ==> from <= h[0].now)
    ensures var ts, now := Times(h, id), Latest(h, from);
            && (h != [] ==> now <= h[|h| - 1].now)
            && (id in Run(h) <==> ts != [] && !Stale(ts[|ts| - 1], now))
            && (id in Run(h) ==> Run(h)[id].updatedAt == Stored(ts[|ts| - 1]))
    decreases |h|
  {
    hide Stored, Trim;
    if h != [] {
      var n := |h| - 1;
      TableExact(h[..n], id, from);
      if n > 0 { assert h[n - 1].now <= h[n].now; }
      if Trim(h[n].id) == id { JustStored(h[n].now); }
    }
  }

  lemma JustStored(now: int)
    ensures !Stale(now, now)
  {
  }

  lemma OpensLast(ts: seq<int>, i: int, now: int)
    requires Opens(ts, i) && !Stale(ts[|ts| - 1], now)
    ensures Opens(ts + [now], i)
  {
    hide Stale;
  }

  lemma OpensNew(ts: seq<int>, now: int)
    requires ts == [] || Stale(ts[|ts| - 1], now)
    ensures Opens(ts + [now], |ts|)
  {
    hide Stale;
  }

  /** When callers never supply a start time, a session's start is the first upsert of its current
      unbroken episode. */
  lemma {:induction false} StartsEpisode(h: seq<Upsert>, id: string) returns (i: int)
    requires Ordered(h) && id in Run(h) && NeverSupplied(h, id)
    ensures Opens(Times(h, id), i) && Run(h)[id].startedAt == At(Stored(Times(h, id)[i]))
    decreases |h|
  {
    hide Stored, Stale, Trim, Opens;
    var n := |h| - 1;
    var init, u := h[..n], h[n];
    assert Ordered(init);
    assert NeverSupplied(init, id) && u in h;
    var ts := Times(init, id);
    TableExact(h, id, h[0].now);
    StaleExpired(init, id, u.now);
    if Trim(u.id) == "" || Trim(u.id) != id {
      i := StartsEpisode(init, id);
      assert ts + [] == ts;
    } else if ts == [] || Stale(ts[|ts| - 1], u.now) {
      i := |ts|;
      OpensNew(ts, u.now);
    } else {
      i := StartsEpisode(init, id);
      OpensLast(ts, i, u.now);
      OpensRange(ts, i);
    }
  }

  lemma OpensRange(ts: seq<int>, i: int)
    requires Opens(ts, i)
    ensures 0 <= i < |ts|
  {
  }

  /** Pruning at `now` removes a session exactly when its last upsert is stale by then. */
  lemma StaleExpired(h: seq<Upsert>, id: string, now: int)
    requires Ordered(h) && (h != [] ==> h[|h| - 1].now <= now)
    ensures var ts := Times(h, id);
            && (id in Pruned(Run(h), now) <==> ts != [] && !Stale(ts[|ts| - 1], now))
            && (id in Pruned(Run(h), now) ==> id in Run(h) && Pruned(Run(h), now)[id] == Run(h)[id])
  {
    hide Stored, Trim;
    if h != [] { TableExact(h, id, h[0].now); }
  }

  /** With whole-second instants this is the promised 30 minutes, to the second. */
  lemma WholeSeconds(h: seq<Upsert>, id: string)
    requires Ordered(h) && h != [] && Trim(h[|h| - 1].id) != ""
    requires forall u :: u in h ==> Stored(u.now) == u.now
    ensures var ts, now := Times(h, id), h[|h| - 1].now;
            id in Run(h) <==> ts != [] && now - ts[|ts| - 1] <= RETENTION
  {
    hide Trim;
    TableExact(h, id, h[0].now);
    TimesFrom(h, id);
  }

  lemma {:induction false} TimesFrom(h: seq<Upsert>, id: string)
    ensures forall t :: t in Times(h, id) ==> exists u :: u in h && u.now == t
  {
    if h != [] {
      var n := |h| - 1;
      TimesFrom(h[..n], id);
      forall t | t in Times(h, id) ensures exists u :: u in h && u.now == t {
        if t in Times(h[..n], id) {
          var u :| u in h[..n] && u.now == t;
          assert u in h;
        } else {
          assert h[n] in h && h[n].now == t;
        }
      }
    }
  }

  /** With fractions of a second it can be less: here a session is dropped 1799.6 seconds after its
      last upsert. */
  lemma FractionDropsEarly()
    ensures var h := [Upsert("a", "", 900 * 1_000_000), Upsert("b", "", 1800 * SECOND + 500 * 1_000_000)];
            h[1].now - h[0].now < RETENTION && "a" !in Run(h)
  {
    var h := [Upsert("a", "", 900 * 1_000_000), Upsert("b", "", 1800 * SECOND + 500 * 1_000_000)];
    assert h[..1] == [h[0]] && h[..1][..0] == [];
    TrimNoop("a");
    TrimNoop("b");
    var t1 := After(map[], h[0]);
    assert Run(h[..1]) == t1;
    assert t1["a"].updatedAt == 0;
    assert Run(h) == After(t1, h[1]);
  }

  /** Stored times are cut to the second below. */
  lemma StoredIs(t: int)
    ensures Stored(t) % 1_000_000_000 == 0 && Stored(t) <= t < Stored(t) + 1_000_000_000
  {
  }

  /** A start time that the caller supplies is taken as it is, in any state of the table. */
  lemma SuppliedStart(t: Sessions, u: Upsert)
    requires Trim(u.id) != "" && Trim(u.start) != ""
    ensures Trim(u.id) in After(t, u) && After(t, u)[Trim(u.id)] == Session(Supplied(Trim(u.start)), Stored(u.now))
  {
    hide Stored, Trim;
  }

  /** An upsert with a blank id does nothing, not even prune. */
  lemma BlankIgnored(t: Sessions, u: Upsert)
    requires Trim(u.id) == ""
    ensures After(t, u) == t
  {
  }
}
