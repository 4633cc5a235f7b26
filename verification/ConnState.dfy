/** Runtime liveness of robots: per-robot summaries kept up to date event by event. */
module ConnState {
  import opened Bytes
  import opened Text

  // Instants are nanoseconds; the zero instant is `None`.
  const SECOND: int := 1_000_000_000
  const HEARTBEAT_TTL: int := 75 * SECOND
  const CONTROL_TTL: int := 90 * SECOND

  /** What a robot reports about its network. */
  datatype Posture = Posture(publicIp: string, localIp: string, natType: string)

  /** What is remembered of the last contention for the control slot. */
  datatype Rivals = Rivals(incomingIp: string, incumbentIp: string, policy: string, reason: string)

  datatype RobotState = RobotState(
    posture: Posture, connected: bool, connectedAt: Option<int>, disconnectedAt: Option<int>,
    contentionAt: Option<int>, rivals: Rivals, lastHeartbeat: Option<int>, lastSeen: Option<int>)

  const Blank: RobotState :=
    RobotState(Posture("", "", ""), false, None, None, None, Rivals("", "", "", ""), None, None)

  datatype Event =
    | Heartbeat(at: int, posture: Posture)
    | Connected(at: int, posture: Posture)
    | Touch(at: int)
    | Disconnected(at: int)
    | Contention(at: int, rivals: Rivals)

  function Latest(a: Option<int>, b: Option<int>): Option<int> {
    if a.None? then b else if b.None? then a else if b.value > a.value then b else a
  }

  function Cleaned(r: Rivals): Rivals {
    Rivals(Trim(r.incomingIp), Trim(r.incumbentIp), Trim(r.policy), Trim(r.reason))
  }

  function Or(x: string, fallback: string): string { if x == "" then fallback else x }

  /** Empty reports keep the previous value; an unknown NAT type never replaces a known one. */
  function Merge(prev: Posture, p: Posture): Posture {
    var nat_ := Trim(p.natType);
    Posture(Or(Trim(p.publicIp), prev.publicIp), Or(Trim(p.localIp), prev.localIp),
            if nat_ == "" || nat_ == "unknown" then Or(prev.natType, "unknown") else nat_)
  }

  /** One event applied to a robot's entry, which may be missing. */
  function Apply(entry: Option<RobotState>, e: Event): Option<RobotState> {
    var prev := if entry.Some? then entry.value else Blank;
    var seen := Latest(prev.lastSeen, Some(e.at));
    match e
    case Heartbeat(at, p) =>
      Some(prev.(posture := Merge(prev.posture, p), lastHeartbeat := Latest(prev.lastHeartbeat, Some(at)),
                 lastSeen := seen))
    case Connected(at, p) =>
      Some(prev.(posture := Merge(prev.posture, p), connected := true,
                 connectedAt := Latest(prev.connectedAt, Some(at)), disconnectedAt := None, lastSeen := seen))
    case Touch(at) =>
      Some(prev.(connected := true,
                 connectedAt := if !prev.connected && prev.connectedAt.None? then Some(at) else prev.connectedAt,
                 disconnectedAt := None, lastSeen := seen))
    case Disconnected(at) =>
      if entry.None? then None
      else Some(prev.(connected := false, disconnectedAt := Latest(prev.disconnectedAt, Some(at)), lastSeen := seen))
    case Contention(at, r) =>
      Some(prev.(contentionAt := Latest(prev.contentionAt, Some(at)), rivals := Cleaned(r), lastSeen := seen))
  }

  predicate IsOnlineAt(s: RobotState, now: int) {
    if !s.connected && s.disconnectedAt.Some?
       && (s.lastHeartbeat.None? || s.lastHeartbeat.value <= s.disconnectedAt.value) then false
    else if s.lastHeartbeat.Some? then now - s.lastHeartbeat.value <= HEARTBEAT_TTL
    else if !s.connected then false
    else
      var ref := Latest(s.connectedAt, s.lastSeen);
      ref.None? || now - ref.value <= CONTROL_TTL
  }

  function Get(m: map<string, RobotState>, id: string): Option<RobotState> {
    if id in m then Some(m[id]) else None
  }

  function Updated(m: map<string, RobotState>, robot: string, e: Event): map<string, RobotState> {
    var id := Trim(robot);
    if id == "" then m
    else match Apply(Get(m, id), e) case Some(s) => m[id := s] case None => m
  }

  /** The package's global table, one method per update function. */
  class Table {
    var state: map<string, RobotState>

    constructor ()
      ensures state == map[]
    { state := map[]; }

    method UpsertHeartbeat(robot: string, p: Posture, at: int)
      modifies this
      ensures state == Updated(old(state), robot, Heartbeat(at, p))
    {
      var id := Trim(robot);
      if id == "" { return; }
      var prev := if id in state then state[id] else Blank;
      state := state[id := prev.(posture := Merge(prev.posture, p),
                                 lastHeartbeat := Latest(prev.lastHeartbeat, Some(at)),
                                 lastSeen := Latest(prev.lastSeen, Some(at)))];
    }

    method UpsertControlConnected(robot: string, p: Posture, at: int)
      modifies this
      ensures state == Updated(old(state), robot, Connected(at, p))
    {
      var id := Trim(robot);
      if id == "" { return; }
      var prev := if id in state then state[id] else Blank;
      state := state[id := prev.(posture := Merge(prev.posture, p), connected := true,
                                 connectedAt := Latest(prev.connectedAt, Some(at)), disconnectedAt := None,
                                 lastSeen := Latest(prev.lastSeen, Some(at)))];
    }

    method RecordControlContention(robot: string, r: Rivals, at: int)
      modifies this
      ensures state == Updated(old(state), robot, Contention(at, r))
    {
      var id := Trim(robot);
      if id == "" { return; }
      var prev := if id in state then state[id] else Blank;
      prev := prev.(contentionAt := Latest(prev.contentionAt, Some(at)), rivals := Cleaned(r));
      state := state[id := prev.(lastSeen := Latest(prev.lastSeen, Some(at)))];
    }

    method TouchControlActivity(robot: string, at: int)
      modifies this
      ensures state == Updated(old(state), robot, Touch(at))
    {
      var id := Trim(robot);
      if id == "" { return; }
      var s := if id in state then state[id] else Blank;
      if !s.connected {
        s := s.(connected := true);
        if s.connectedAt.None? { s := s.(connectedAt := Some(at)); }
      }
      s := s.(disconnectedAt := None, lastSeen := Latest(s.lastSeen, Some(at)));
      state := state[id := s];
    }

    method SetControlDisconnected(robot: string, at: int)
      modifies this
      ensures state == Updated(old(state), robot, Disconnected(at))
    {
      var id := Trim(robot);
      if id == "" || id !in state { return; }
      var s := state[id];
      s := s.(connected := false, disconnectedAt := Latest(s.disconnectedAt, Some(at)));
      state := state[id := s.(lastSeen := Latest(s.lastSeen, Some(at)))];
    }
  }

  // ---------- the verdict of a whole history ----------

  function Summary(h: seq<Event>): Option<RobotState> {
    if h == [] then None else Apply(Summary(h[..|h| - 1]), h[|h| - 1])
  }

  predicate IsUp(e: Event) { e.Connected? || e.Touch? }

  ghost function Heartbeats(h: seq<Event>): set<int> {
    set i | 0 <= i < |h| && h[i].Heartbeat? :: h[i].at
  }

  ghost function Times(h: seq<Event>): set<int> {
    set i | 0 <= i < |h| :: h[i].at
  }

  /** Disconnections that no later connect or touch has answered. */
  ghost function Losses(h: seq<Event>): set<int> {
    set i | 0 <= i < |h| && h[i].Disconnected? && (forall j :: i < j < |h| ==> !IsUp(h[j])) :: h[i].at
  }

  /** Some connect or touch has no disconnection after it. */
  ghost predicate Up(h: seq<Event>) {
    exists i :: 0 <= i < |h| && IsUp(h[i]) && forall j :: i < j < |h| ==> !h[j].Disconnected?
  }

  /** The documented rule, on the whole history: if heartbeats were ever seen, one of them must be fresh;
      otherwise the control channel must be up and some event fresh; and a robot whose channel is down
      needs a heartbeat later than every unanswered disconnection. */
  ghost predicate OnlineByHistory(h: seq<Event>, now: int) {
    && (!Up(h) && Losses(h) != {} ==> exists t :: t in Heartbeats(h) && forall d :: d in Losses(h) ==> t > d)
    && (if Heartbeats(h) != {} then exists t :: t in Heartbeats(h) && now - t <= 75_000_000_000
        else Up(h) && exists t :: t in Times(h) && now - t <= 90_000_000_000)
  }

  ghost predicate IsMax(o: Option<int>, ts: set<int>) {
    if o.None? then ts == {} else o.value in ts && forall t :: t in ts ==> t <= o.value
  }

  /** The history begins with an event that creates the entry. */
  predicate Begun(h: seq<Event>) { h != [] && !h[0].Disconnected? }

  ghost predicate Tracks(s: RobotState, h: seq<Event>) {
    && IsMax(s.lastHeartbeat, Heartbeats(h))
    && IsMax(s.lastSeen, Times(h)) && s.lastSeen.Some?
    && IsMax(s.disconnectedAt, Losses(h))
    && (s.connected <==> Up(h))
    && (s.connectedAt.Some? ==> s.connectedAt.value <= s.lastSeen.value)
  }

  lemma MaxAdd(o: Option<int>, ts: set<int>, at: int)
    requires IsMax(o, ts)
    ensures IsMax(Latest(o, Some(at)), ts + {at})
  {
  }

  lemma HistoryGrows(h: seq<Event>, e: Event)
    ensures Heartbeats(h + [e]) == if e.Heartbeat? then Heartbeats(h) + {e.at} else Heartbeats(h)
    ensures Times(h + [e]) == Times(h) + {e.at}
  {
    var g := h + [e];
    assert g[|h|] == e && forall i :: 0 <= i < |h| ==> g[i] == h[i];
    forall i | 0 <= i < |h| ensures h[i].at in Times(g) && (h[i].Heartbeat? ==> h[i].at in Heartbeats(g)) {
      assert g[i] == h[i];
    }
    assert e.at in Times(g) && (e.Heartbeat? ==> e.at in Heartbeats(g)) by { assert g[|h|] == e; }
  }

  lemma LossesGrow(h: seq<Event>, e: Event)
    ensures Losses(h + [e]) == if IsUp(e) then {} else if e.Disconnected? then Losses(h) + {e.at} else Losses(h)
  {
    var g := h + [e];
    assert g[|h|] == e && forall i :: 0 <= i < |h| ==> g[i] == h[i];
    forall t | t in Losses(g)
      ensures !IsUp(e) && (t in Losses(h) || (e.Disconnected? && t == e.at))
    {
      var i :| 0 <= i < |g| && g[i].Disconnected? && (forall j :: i < j < |g| ==> !IsUp(g[j])) && g[i].at == t;
      if i < |h| {
        assert !IsUp(g[|h|]);
        forall j | i < j < |h| ensures !IsUp(h[j]) { assert g[j] == h[j]; }
        assert h[i].at == t;
      }
    }
    if !IsUp(e) {
      forall t | t in Losses(h) ensures t in Losses(g) {
        var i :| 0 <= i < |h| && h[i].Disconnected? && (forall j :: i < j < |h| ==> !IsUp(h[j])) && h[i].at == t;
        assert g[i] == h[i];
      }
      assert e.Disconnected? ==> g[|h|].Disconnected?;
    }
  }

  lemma UpGrows(h: seq<Event>, e: Event)
    ensures Up(h + [e]) <==> IsUp(e) || (!e.Disconnected? && Up(h))
  {
    var g := h + [e];
    assert g[|h|] == e && forall i :: 0 <= i < |h| ==> g[i] == h[i];
    if Up(g) {
      var i :| 0 <= i < |g| && IsUp(g[i]) && forall j :: i < j < |g| ==> !g[j].Disconnected?;
      if i < |h| {
        assert !g[|h|].Disconnected?;
        forall j | i < j < |h| ensures !h[j].Disconnected? { assert g[j] == h[j]; }
        assert IsUp(h[i]);
      }
    }
    if IsUp(e) { assert IsUp(g[|h|]); }
    else if !e.Disconnected? && Up(h) {
      var i :| 0 <= i < |h| && IsUp(h[i]) && forall j :: i < j < |h| ==> !h[j].Disconnected?;
      assert IsUp(g[i]);
    }
  }

  lemma ApplyTracks(s: RobotState, h: seq<Event>, e: Event)
    requires Tracks(s, h)
    ensures Apply(Some(s), e).Some? && Tracks(Apply(Some(s), e).value, h + [e])
  {
    hide Heartbeats, Times, Losses, Up, Merge, IsMax;
    HistoryGrows(h, e);
    LossesGrow(h, e);
    UpGrows(h, e);
    MaxAdd(s.lastSeen, Times(h), e.at);
    MaxAdd(s.lastHeartbeat, Heartbeats(h), e.at);
    MaxAdd(s.disconnectedAt, Losses(h), e.at);
    NoneIsMax();
  }

  lemma NoneIsMax()
    ensures IsMax(None, {})
  {
  }

  lemma FirstTracks(e: Event)
    requires !e.Disconnected?
    ensures Apply(None, e).Some? && Tracks(Apply(None, e).value, [e])
  {
    hide Heartbeats, Times, Losses, Up, Merge, IsMax;
    EmptyHistory();
    HistoryGrows([], e);
    LossesGrow([], e);
    UpGrows([], e);
    NoneIsMax();
    MaxAdd(None, {}, e.at);
    assert [] + [e] == [e];
    assert {} + {e.at} == {e.at};
  }

  lemma EmptyHistory()
    ensures Heartbeats([]) == {} && Times([]) == {} && Losses([]) == {} && !Up([])
  {
  }

  lemma {:induction false} SummaryTracks(h: seq<Event>)
    requires Begun(h)
    ensures Summary(h).Some? && Tracks(Summary(h).value, h)
  {
    hide Tracks, Apply;
    var n := |h| - 1;
    assert h == h[..n] + [h[n]];
    if n == 0 {
      assert h == [h[0]] && h[..0] == [];
      FirstTracks(h[0]);
    } else {
      SummaryTracks(h[..n]);
      ApplyTracks(Summary(h[..n]).value, h[..n], h[n]);
    }
  }

  lemma TracksVerdict(s: RobotState, h: seq<Event>, now: int)
    requires Tracks(s, h)
    ensures IsOnlineAt(s, now) <==> OnlineByHistory(h, now)
  {
    hide Heartbeats, Times, Losses, Up;
    if s.lastHeartbeat.Some? { assert s.lastHeartbeat.value in Heartbeats(h); }
    if s.disconnectedAt.Some? { assert s.disconnectedAt.value in Losses(h); }
    assert s.lastSeen.value in Times(h);
    assert s.connected ==> Latest(s.connectedAt, s.lastSeen).value == s.lastSeen.value;
  }

  // ---------- what callers rely on ----------

  /** For every history, the verdict on the summary kept event by event is the verdict of the history
      itself, without the disconnections that came before the robot had an entry. */
  lemma {:induction false} SummaryDecides(h: seq<Event>, now: int)
    ensures Begun(h) ==> Summary(h).Some? && (IsOnlineAt(Summary(h).value, now) <==> OnlineByHistory(h, now))
    ensures h != [] && h[0].Disconnected? ==> Summary(h) == Summary(h[1..])
    decreases |h|
  {
    if Begun(h) {
      SummaryTracks(h);
      TracksVerdict(Summary(h).value, h, now);
    } else if h != [] {
      LeadingLossIgnored(h);
    }
  }

  lemma {:induction false} LeadingLossIgnored(h: seq<Event>)
    requires h != [] && h[0].Disconnected?
    ensures Summary(h) == Summary(h[1..])
    decreases |h|
  {
    hide Latest, Merge;
    var n := |h| - 1;
    if n > 0 {
      assert h[..n][1..] == h[1..][..n - 1];
      LeadingLossIgnored(h[..n]);
    } else {
      assert h[..0] == [] && h[1..] == [];
    }
  }

  function Core(s: RobotState): RobotState { s.(posture := Posture("", "", "")) }

  lemma HeartbeatCommutes(s: RobotState, b: Event, e: Event)
    requires b.Heartbeat?
    ensures Apply(Apply(Some(s), b), e).Some? && Apply(Apply(Some(s), e), b).Some?
    ensures Core(Apply(Apply(Some(s), b), e).value) == Core(Apply(Apply(Some(s), e), b).value)
  {
    hide Merge;
  }

  lemma CoreDecides(s: RobotState, t: RobotState, e: Event)
    requires Core(s) == Core(t)
    ensures Apply(Some(s), e).Some? && Apply(Some(t), e).Some?
    ensures Core(Apply(Some(s), e).value) == Core(Apply(Some(t), e).value)
  {
    hide Merge;
  }

  lemma {:induction false} BegunStays(h: seq<Event>)
    requires Begun(h)
    ensures Summary(h).Some?
  {
    SummaryTracks(h);
  }

  function Insert(h: seq<Event>, i: nat, b: Event): seq<Event>
    requires i <= |h|
  {
    h[..i] + [b] + h[i..]
  }

  /** Where in a history a heartbeat arrives makes no difference to the liveness fields. */
  lemma {:induction false} HeartbeatAnywhere(h: seq<Event>, i: nat, b: Event)
    requires Begun(h) && 1 <= i <= |h| && b.Heartbeat?
    ensures Summary(Insert(h, i, b)).Some? && Apply(Summary(h), b).Some?
    ensures Core(Summary(Insert(h, i, b)).value) == Core(Apply(Summary(h), b).value)
    decreases |h|
  {
    hide Apply, Core;
    var n := |h| - 1;
    var g := Insert(h, i, b);
    BegunStays(h);
    if i == |h| {
      assert g[..|g| - 1] == h && g[|g| - 1] == b;
      ApplyStays(Summary(h).value, b);
    } else {
      BegunStays(h[..n]);
      HeartbeatAnywhere(h[..n], i, b);
      assert g[..|g| - 1] == Insert(h[..n], i, b) && g[|g| - 1] == h[n];
      var s := Summary(h[..n]).value;
      CoreDecides(Summary(Insert(h[..n], i, b)).value, Apply(Some(s), b).value, h[n]);
      HeartbeatCommutes(s, b, h[n]);
    }
  }

  lemma ApplyStays(s: RobotState, e: Event)
    ensures Apply(Some(s), e).Some?
  {
  }

  /** Once a robot has an entry, the arrival order of heartbeats does not change any verdict. */
  lemma HeartbeatOrderIrrelevant(h: seq<Event>, i: nat, j: nat, b: Event, now: int)
    requires Begun(h) && 1 <= i <= |h| && 1 <= j <= |h| && b.Heartbeat?
    ensures Summary(Insert(h, i, b)).Some? && Summary(Insert(h, j, b)).Some?
    ensures IsOnlineAt(Summary(Insert(h, i, b)).value, now) == IsOnlineAt(Summary(Insert(h, j, b)).value, now)
  {
    hide Summary, Apply;
    HeartbeatAnywhere(h, i, b);
    HeartbeatAnywhere(h, j, b);
    CoreOnline(Summary(Insert(h, i, b)).value, Summary(Insert(h, j, b)).value, now);
  }

  lemma CoreOnline(s: RobotState, t: RobotState, now: int)
    requires Core(s) == Core(t)
    ensures IsOnlineAt(s, now) == IsOnlineAt(t, now)
  {
  }

  /** What an event reports, blank if nothing. */
  function Reported(e: Event): Posture {
    if e.Heartbeat? || e.Connected? then
      var t := Trim(e.posture.natType);
      Posture(Trim(e.posture.publicIp), Trim(e.posture.localIp), if t == "unknown" then "" else t)
    else Posture("", "", "")
  }

  /** `v` is the last report that is not blank, or blank if none is. */
  ghost predicate LastReport(h: seq<Event>, f: Posture -> string, v: string) {
    if v == "" then forall i :: 0 <= i < |h| ==> f(Reported(h[i])) == ""
    else exists i :: 0 <= i < |h| && f(Reported(h[i])) == v && forall j :: i < j < |h| ==> f(Reported(h[j])) == ""
  }

  lemma ReportGrows(h: seq<Event>, e: Event, f: Posture -> string, v: string)
    requires LastReport(h, f, v)
    ensures LastReport(h + [e], f, Or(f(Reported(e)), v))
  {
    hide Reported;
    var g := h + [e];
    assert g[|h|] == e && forall i :: 0 <= i < |h| ==> g[i] == h[i];
    if f(Reported(e)) == "" && v != "" {
      var i :| 0 <= i < |h| && f(Reported(h[i])) == v && forall j :: i < j < |h| ==> f(Reported(h[j])) == "";
      assert f(Reported(g[i])) == v;
    }
  }

  function PublicIp(p: Posture): string { p.publicIp }

  function LocalIp(p: Posture): string { p.localIp }

  function NatType(p: Posture): string { p.natType }

  function Known(s: string): string { if s == "unknown" then "" else s }

  lemma EmptyReports()
    ensures LastReport([], PublicIp, "") && LastReport([], LocalIp, "") && LastReport([], NatType, "")
  {
  }

  function PostureOf(entry: Option<RobotState>): Posture { if entry.Some? then entry.value.posture else Blank.posture }

  lemma PostureStep(entry: Option<RobotState>, e: Event)
    ensures var p, p', r := PostureOf(entry), PostureOf(Apply(entry, e)), Reported(e);
            && p'.publicIp == Or(r.publicIp, p.publicIp) && p'.localIp == Or(r.localIp, p.localIp)
            && Known(p'.natType) == Or(r.natType, Known(p.natType))
            && (p'.natType == "" <==> p.natType == "" && !e.Heartbeat? && !e.Connected?)
  {
    hide Trim, Latest;
  }

  /** A robot's addresses and NAT type are the last ones it really reported, in any history. */
  lemma {:induction false} PostureIsLastReport(h: seq<Event>)
    ensures var p := PostureOf(Summary(h));
            && LastReport(h, PublicIp, p.publicIp) && LastReport(h, LocalIp, p.localIp)
            && LastReport(h, NatType, Known(p.natType))
            && (p.natType == "" <==> forall i :: 0 <= i < |h| ==> !h[i].Heartbeat? && !h[i].Connected?)
  {
    EmptyReports();
    if h != [] {
      hide LastReport, Apply, Reported, PostureOf;
      var n := |h| - 1;
      PostureIsLastReport(h[..n]);
      PostureStep(Summary(h[..n]), h[n]);
      var p := PostureOf(Summary(h[..n]));
      assert h == h[..n] + [h[n]];
      ReportGrows(h[..n], h[n], PublicIp, p.publicIp);
      ReportGrows(h[..n], h[n], LocalIp, p.localIp);
      ReportGrows(h[..n], h[n], NatType, Known(p.natType));
    }
  }

  // ---------- the other fields ----------

  /** An update is for the trimmed id, and for no other; a blank id is ignored. */
  lemma UpdatedMeans(m: map<string, RobotState>, robot: string, e: Event, other: string)
    ensures var m' := Updated(m, robot, e);
            && (Trim(robot) == "" ==> m' == m)
            && (Trim(robot) != "" ==> Get(m', Trim(robot)) == Apply(Get(m, Trim(robot)), e))
            && (other != Trim(robot) ==> Get(m', other) == Get(m, other))
  {
    hide Merge, Latest, Trim;
  }

  ghost function Contentions(h: seq<Event>): set<int> {
    set i | 0 <= i < |h| && h[i].Contention? :: h[i].at
  }

  /** The rivals recorded last, cleaned; blank if there were none. */
  function LastRivals(h: seq<Event>): Rivals {
    if h == [] then Rivals("", "", "", "")
    else if h[|h| - 1].Contention? then
      var r := h[|h| - 1].rivals;
      Rivals(Trim(r.incomingIp), Trim(r.incumbentIp), Trim(r.policy), Trim(r.reason))
    else LastRivals(h[..|h| - 1])
  }

  lemma ContentionsGrow(h: seq<Event>, e: Event)
    ensures Contentions(h + [e]) == if e.Contention? then Contentions(h) + {e.at} else Contentions(h)
  {
    var g := h + [e];
    assert g[|h|] == e && forall i :: 0 <= i < |h| ==> g[i] == h[i];
    forall i | 0 <= i < |h| && h[i].Contention? ensures h[i].at in Contentions(g) { assert g[i] == h[i]; }
    assert e.Contention? ==> e.at in Contentions(g) by { assert g[|h|] == e; }
  }

  /** For every history that begins with an entry, the last contention time is the latest of all, and the
      rivals are those of the contention recorded last. */
  lemma {:induction false} ContentionIsLatest(h: seq<Event>)
    requires Begun(h)
    ensures Summary(h).Some? && IsMax(Summary(h).value.contentionAt, Contentions(h))
    ensures Summary(h).value.rivals == LastRivals(h)
  {
    hide Contentions, Merge, IsMax, Trim;
    var n := |h| - 1;
    assert h == h[..n] + [h[n]];
    BegunStays(h);
    ContentionsGrow(h[..n], h[n]);
    if n == 0 {
      assert h[..0] == [];
      NoContention();
      MaxAdd(None, {}, h[0].at);
    } else {
      ContentionIsLatest(h[..n]);
      MaxAdd(Summary(h[..n]).value.contentionAt, Contentions(h[..n]), h[n].at);
    }
  }

  lemma NoContention()
    ensures Contentions([]) == {} && IsMax(None, {})
  {
  }

  /** The connection time moves only on a connect, to the later of the two, or on activity of a robot that
      was neither connected nor ever had been. */
  lemma ConnectedAtMeans(s: RobotState, e: Event)
    ensures Apply(Some(s), e).Some?
    ensures Apply(Some(s), e).value.connectedAt ==
              match e
              case Connected(at, _) =>
                if s.connectedAt.Some? && s.connectedAt.value >= at then s.connectedAt else Some(at)
              case Touch(at) => if s.connectedAt.None? && !s.connected then Some(at) else s.connectedAt
              case _ => s.connectedAt
  {
    hide Merge;
  }

  /** Without a new event an offline verdict stays offline. */
  lemma OfflineStays(s: RobotState, now: int, later: int)
    requires !IsOnlineAt(s, now) && now <= later
    ensures !IsOnlineAt(s, later)
  {
  }
}
