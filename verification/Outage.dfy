/**
 The fallback tracker: how much time was spent with every Pi-hole down and how many queries went to
 public resolvers, reported in windows.

 The state is judged against the log of everything the tracker was told.  The clock is a parameter
 of each call and never runs backwards.
 */
module Outage {
  import opened Basics

  /** One reporting window. */
  datatype Summary = Summary(
    start: int, end: int, queries: nat, failures: nat, perServer: map<string, nat>,
    episodes: nat, totalOutage: int, longestOutage: int, ongoing: bool)
  {
    /** Nothing worth logging. */
    predicate Empty() { queries == 0 && episodes == 0 && !ongoing }
  }

  datatype Event =
    | Observed(at: int, allDown: bool)
    | Used(server: string, ok: bool)
    | Taken(at: int)

  // ---------------------------------------------------------------- what the log says

  ghost function LastTime(t0: int, log: seq<Event>): int {
    if log == [] then t0
    else if log[|log| - 1].Used? then LastTime(t0, log[..|log| - 1])
    else log[|log| - 1].at
  }

  /** The latest observation said that every Pi-hole was down. */
  ghost predicate IsDown(log: seq<Event>) {
    log != [] && if log[|log| - 1].Observed? then log[|log| - 1].allDown else IsDown(log[..|log| - 1])
  }

  /** Time up to now during which the latest observation said all down. */
  ghost function DownTime(log: seq<Event>, now: int): int {
    if log == [] then 0
    else if log[|log| - 1].Used? then DownTime(log[..|log| - 1], now)
    else
      var at := log[|log| - 1].at;
      DownTime(log[..|log| - 1], at) + if IsDown(log) then now - at else 0
  }

  /** Outages begun: observations of all down that did not follow another. */
  ghost function Begun(log: seq<Event>): nat {
    if log == [] then 0
    else
      var p, e := log[..|log| - 1], log[|log| - 1];
      Begun(p) + if e.Observed? && e.allDown && !IsDown(p) then 1 else 0
  }

  /** Windows cut in the middle of an outage. */
  ghost function CutsWhileDown(log: seq<Event>): nat {
    if log == [] then 0
    else
      var p, e := log[..|log| - 1], log[|log| - 1];
      CutsWhileDown(p) + if e.Taken? && IsDown(p) then 1 else 0
  }

  ghost function Uses(log: seq<Event>): nat {
    if log == [] then 0 else Uses(log[..|log| - 1]) + if log[|log| - 1].Used? then 1 else 0
  }

  ghost function Answered(log: seq<Event>): nat {
    if log == [] then 0
    else
      var e := log[|log| - 1];
      Answered(log[..|log| - 1]) + if e.Used? && e.ok then 1 else 0
  }

  /** When the present outage began, or when the window was cut during it. */
  ghost function DownSince(log: seq<Event>): int {
    if log == [] then 0
    else
      var p, e := log[..|log| - 1], log[|log| - 1];
      match e
      case Observed(at, allDown) => if allDown && !IsDown(p) then at else DownSince(p)
      case Taken(at) => at
      case Used(_, _) => DownSince(p)
  }

  /** Lengths of the outages that ended in the present window, each from its beginning or the last cut. */
  ghost function Ended(log: seq<Event>): seq<int> {
    if log == [] then []
    else
      var p, e := log[..|log| - 1], log[|log| - 1];
      match e
      case Observed(at, allDown) => if !allDown && IsDown(p) then Ended(p) + [at - DownSince(p)] else Ended(p)
      case Taken(_) => []
      case Used(_, _) => Ended(p)
  }

  ghost function Longest(spans: seq<int>): int {
    if spans == [] then 0
    else
      var m := Longest(spans[..|spans| - 1]);
      if spans[|spans| - 1] > m then spans[|spans| - 1] else m
  }

  // ---------------------------------------------------------------- windows

  ghost predicate WindowOk(s: Summary) {
    && s.start <= s.end
    && 0 <= s.longestOutage <= s.totalOutage <= s.end - s.start
    && s.queries == s.failures + MapSum(s.perServer)
    && (s.episodes == 0 ==> s.totalOutage == 0)
    && (s.ongoing ==> s.episodes > 0)
  }

  /** Windows follow each other without gap or overlap from t0 to end. */
  ghost predicate Tiles(t0: int, ws: seq<Summary>, end: int) {
    if ws == [] then end == t0
    else ws[|ws| - 1].end == end && Tiles(t0, ws[..|ws| - 1], ws[|ws| - 1].start)
  }

  ghost function OutageSum(ws: seq<Summary>): int {
    if ws == [] then 0 else OutageSum(ws[..|ws| - 1]) + ws[|ws| - 1].totalOutage
  }

  ghost function EpisodeSum(ws: seq<Summary>): nat {
    if ws == [] then 0 else EpisodeSum(ws[..|ws| - 1]) + ws[|ws| - 1].episodes
  }

  ghost function QuerySum(ws: seq<Summary>): nat {
    if ws == [] then 0 else QuerySum(ws[..|ws| - 1]) + ws[|ws| - 1].queries
  }

  ghost function AnsweredSum(ws: seq<Summary>): nat {
    if ws == [] then 0 else AnsweredSum(ws[..|ws| - 1]) + MapSum(ws[|ws| - 1].perServer)
  }

  /** The windows that get logged. */
  ghost function Reported(ws: seq<Summary>): seq<Summary> {
    if ws == [] then []
    else if ws[|ws| - 1].Empty() then Reported(ws[..|ws| - 1])
    else Reported(ws[..|ws| - 1]) + [ws[|ws| - 1]]
  }

  /** Skipping empty windows loses nothing. */
  lemma {:induction false} SkippingLosesNothing(ws: seq<Summary>)
    requires forall i :: 0 <= i < |ws| ==> WindowOk(ws[i])
    ensures OutageSum(Reported(ws)) == OutageSum(ws)
    ensures EpisodeSum(Reported(ws)) == EpisodeSum(ws)
    ensures QuerySum(Reported(ws)) == QuerySum(ws)
    ensures AnsweredSum(Reported(ws)) == AnsweredSum(ws)
    decreases |ws|
  {
    if ws != [] {
      SkippingLosesNothing(ws[..|ws| - 1]);
      var r := Reported(ws[..|ws| - 1]);
      assert (r + [ws[|ws| - 1]])[..|r|] == r;
    }
  }

  // ---------------------------------------------------------------- state

  datatype View = View(
    windowStart: int, queries: nat, failures: nat, perServer: map<string, nat>, episodes: nat,
    total: int, longest: int, inOutage: bool, outageStart: int)

  /** The open window as it would be reported now. */
  ghost function SummaryOf(v: View, now: int): Summary {
    var d := if v.inOutage then now - v.outageStart else 0;
    Summary(v.windowStart, now, v.queries, v.failures, v.perServer, v.episodes,
            v.total + d, if v.inOutage && d > v.longest then d else v.longest, v.inOutage)
  }

  /** Up to when the finished outages of the open window account for everything observed. */
  ghost function Settled(v: View, last: int): int {
    if v.inOutage then v.outageStart else last
  }

  /** The open window matches the log. */
  ghost predicate OpenOk(v: View, t0: int, log: seq<Event>) {
    && v.windowStart <= Settled(v, LastTime(t0, log)) <= LastTime(t0, log)
    && v.inOutage == IsDown(log)
    && (v.inOutage ==> v.outageStart == DownSince(log))
    && v.total == Sum(Ended(log)) && v.longest == Longest(Ended(log))
    && v.episodes == |Ended(log)| + (if v.inOutage then 1 else 0)
    && 0 <= v.longest <= v.total <= Settled(v, LastTime(t0, log)) - v.windowStart
    && v.queries == v.failures + MapSum(v.perServer)
  }

  /** The tracker as a whole: closed windows, the open one, and the log they account for. */
  ghost predicate Accounts(v: View, t0: int, log: seq<Event>, ws: seq<Summary>) {
    && OpenOk(v, t0, log)
    && (forall i :: 0 <= i < |ws| ==> WindowOk(ws[i]))
    && Tiles(t0, ws, v.windowStart)
    && OutageSum(ws) + v.total == DownTime(log, Settled(v, LastTime(t0, log)))
    && EpisodeSum(ws) + v.episodes == Begun(log) + CutsWhileDown(log)
    && QuerySum(ws) + v.queries == Uses(log)
    && AnsweredSum(ws) + MapSum(v.perServer) == Answered(log)
  }

  /** Time passing adds to the observed down time exactly while down. */
  lemma {:induction false} DownTimePasses(log: seq<Event>, a: int, b: int)
    ensures DownTime(log, b) == DownTime(log, a) + if IsDown(log) then b - a else 0
    decreases |log|
  {
    if log != [] && log[|log| - 1].Used? {
      DownTimePasses(log[..|log| - 1], a, b);
    }
  }

  lemma LogSnoc(log: seq<Event>, e: Event)
    ensures (log + [e])[..|log|] == log && (log + [e])[|log|] == e
  {
  }

  ghost function AfterObserve(v: View, now: int, allDown: bool): View {
    if allDown && !v.inOutage then v.(inOutage := true, outageStart := now, episodes := v.episodes + 1)
    else if !allDown && v.inOutage then
      var d := now - v.outageStart;
      v.(inOutage := false, total := v.total + d, longest := if d > v.longest then d else v.longest)
    else v
  }

  lemma ObserveOpen(v: View, t0: int, log: seq<Event>, now: int, allDown: bool)
    requires OpenOk(v, t0, log) && now >= LastTime(t0, log)
    ensures OpenOk(AfterObserve(v, now, allDown), t0, log + [Observed(now, allDown)])
  {
    var e := Observed(now, allDown);
    LogSnoc(log, e);
    if !allDown && v.inOutage {
      var s, d := Ended(log), now - v.outageStart;
      assert Ended(log + [e]) == s + [d];
      assert (s + [d])[..|s|] == s;
    }
  }

  lemma ObserveKeeps(v: View, t0: int, log: seq<Event>, ws: seq<Summary>, now: int, allDown: bool)
    requires Accounts(v, t0, log, ws) && now >= LastTime(t0, log)
    ensures Accounts(AfterObserve(v, now, allDown), t0, log + [Observed(now, allDown)], ws)
  {
    var e := Observed(now, allDown);
    LogSnoc(log, e);
    ObserveOpen(v, t0, log, now, allDown);
    ObserveCounts(log, now, allDown);
    DownTimePasses(log, Settled(v, LastTime(t0, log)), now);
    hide OpenOk, Tiles, OutageSum, EpisodeSum, QuerySum, AnsweredSum, WindowOk, DownTime, Begun, CutsWhileDown, Uses,
         Answered, IsDown, MapSum;
    OpenDown(v, t0, log);
  }

  lemma ObserveCounts(log: seq<Event>, now: int, allDown: bool)
    ensures var l := log + [Observed(now, allDown)];
            && IsDown(l) == allDown
            && DownTime(l, now) == DownTime(log, now)
            && Begun(l) == Begun(log) + (if allDown && !IsDown(log) then 1 else 0)
            && CutsWhileDown(l) == CutsWhileDown(log)
            && Uses(l) == Uses(log) && Answered(l) == Answered(log)
            && (IsDown(log) && allDown ==> forall t :: DownTime(l, t) == DownTime(log, t))
  {
    var l := log + [Observed(now, allDown)];
    LogSnoc(log, Observed(now, allDown));
    if IsDown(log) && allDown {
      forall t ensures DownTime(l, t) == DownTime(log, t) {
        DownTimePasses(log, now, t);
      }
    }
  }

  lemma OpenDown(v: View, t0: int, log: seq<Event>)
    requires OpenOk(v, t0, log)
    ensures v.inOutage == IsDown(log)
  {
  }

  ghost function AfterUse(v: View, server: string, ok: bool): View {
    if ok then v.(queries := v.queries + 1, perServer := v.perServer[server := GetOr(v.perServer, server) + 1])
    else v.(queries := v.queries + 1, failures := v.failures + 1)
  }

  lemma UseKeeps(v: View, t0: int, log: seq<Event>, ws: seq<Summary>, server: string, ok: bool)
    requires Accounts(v, t0, log, ws)
    ensures Accounts(AfterUse(v, server, ok), t0, log + [Used(server, ok)], ws)
  {
    LogSnoc(log, Used(server, ok));
    MapSumBump(v.perServer, server);
    hide Tiles, OutageSum, EpisodeSum, QuerySum, AnsweredSum, WindowOk, MapSum;
  }

  ghost function AfterTake(v: View, now: int): View {
    View(now, 0, 0, map[], if v.inOutage then 1 else 0, 0, 0, v.inOutage, if v.inOutage then now else v.outageStart)
  }

  lemma SummaryOk(v: View, t0: int, log: seq<Event>, now: int)
    requires OpenOk(v, t0, log) && now >= LastTime(t0, log)
    ensures WindowOk(SummaryOf(v, now))
  {
  }

  lemma SumsSnoc(ws: seq<Summary>, s: Summary, t0: int)
    ensures OutageSum(ws + [s]) == OutageSum(ws) + s.totalOutage
    ensures EpisodeSum(ws + [s]) == EpisodeSum(ws) + s.episodes
    ensures QuerySum(ws + [s]) == QuerySum(ws) + s.queries
    ensures AnsweredSum(ws + [s]) == AnsweredSum(ws) + MapSum(s.perServer)
    ensures Tiles(t0, ws, s.start) ==> Tiles(t0, ws + [s], s.end)
  {
    assert (ws + [s])[..|ws|] == ws;
  }

  lemma TakeKeeps(v: View, t0: int, log: seq<Event>, ws: seq<Summary>, now: int)
    requires Accounts(v, t0, log, ws) && now >= LastTime(t0, log)
    ensures Accounts(AfterTake(v, now), t0, log + [Taken(now)], ws + [SummaryOf(v, now)])
  {
    var e := Taken(now);
    LogSnoc(log, e);
    SummaryOk(v, t0, log, now);
    SumsSnoc(ws, SummaryOf(v, now), t0);
    DownTimePasses(log, Settled(v, LastTime(t0, log)), now);
    hide Tiles, OutageSum, EpisodeSum, QuerySum, AnsweredSum, WindowOk;
  }

  /**
   Conservation.  At any moment, for any interleaving of observations, queries and cuts: the closed
   windows and the open one tile time; their outage totals add up to the observed down time, their
   episodes to the outages begun plus the cuts made while down, their queries to the queries sent
   and their per-server counts to the ones answered; and every window is sound in itself.
   */
  lemma OutageConserved(v: View, t0: int, log: seq<Event>, ws: seq<Summary>, now: int)
    requires Accounts(v, t0, log, ws) && now >= LastTime(t0, log)
    ensures var all := ws + [SummaryOf(v, now)];
            && Tiles(t0, all, now)
            && OutageSum(all) == DownTime(log, now)
            && EpisodeSum(all) == Begun(log) + CutsWhileDown(log)
            && QuerySum(all) == Uses(log)
            && AnsweredSum(all) == Answered(log)
            && forall i :: 0 <= i < |all| ==> WindowOk(all[i])
  {
    SummaryOk(v, t0, log, now);
    SumsSnoc(ws, SummaryOf(v, now), t0);
    DownTimePasses(log, Settled(v, LastTime(t0, log)), now);
    hide Tiles, OutageSum, EpisodeSum, QuerySum, AnsweredSum, WindowOk;
  }

  lemma NothingYet(t0: int)
    ensures Accounts(View(t0, 0, 0, map[], 0, 0, 0, false, 0), t0, [], [])
  {
  }

  // ---------------------------------------------------------------- whole runs

  /** The clock never runs backwards. */
  ghost predicate Monotone(t0: int, log: seq<Event>) {
    log == [] || (var p, e := log[..|log| - 1], log[|log| - 1]; Monotone(t0, p) && (e.Used? || e.at >= LastTime(t0, p)))
  }

  /** The open window after a run. */
  ghost function ViewOf(t0: int, log: seq<Event>): View {
    if log == [] then View(t0, 0, 0, map[], 0, 0, 0, false, 0)
    else
      AfterEvent(ViewOf(t0, log[..|log| - 1]), log[|log| - 1])
  }

  ghost function AfterEvent(v: View, e: Event): View {
    match e
    case Observed(at, allDown) => AfterObserve(v, at, allDown)
    case Used(server, ok) => AfterUse(v, server, ok)
    case Taken(at) => AfterTake(v, at)
  }

  /** The windows closed during a run. */
  ghost function WindowsOf(t0: int, log: seq<Event>): seq<Summary> {
    if log == [] then []
    else
      var p, e := log[..|log| - 1], log[|log| - 1];
      WindowsOf(t0, p) + if e.Taken? then [SummaryOf(ViewOf(t0, p), e.at)] else []
  }

  /** Every run, whatever it interleaves, is accounted for by its windows. */
  lemma {:induction false} EveryRunAccounts(t0: int, log: seq<Event>)
    requires Monotone(t0, log)
    ensures Accounts(ViewOf(t0, log), t0, log, WindowsOf(t0, log))
    decreases |log|
  {
    hide Accounts, AfterObserve, AfterUse, AfterTake, LastTime;
    if log == [] {
      NothingYet(t0);
    } else {
      var p, e := log[..|log| - 1], log[|log| - 1];
      assert log == p + [e];
      EveryRunAccounts(t0, p);
      var v, ws := ViewOf(t0, p), WindowsOf(t0, p);
      assert ws + [] == ws;
      match e
      case Observed(at, allDown) => ObserveKeeps(v, t0, p, ws, at, allDown);
      case Used(server, ok) => UseKeeps(v, t0, p, ws, server, ok);
      case Taken(at) => TakeKeeps(v, t0, p, ws, at);
    }
  }

  // ---------------------------------------------------------------- what the windows report

  /** The latest observation up to that instant said that every Pi-hole was down. */
  ghost predicate DownAt(log: seq<Event>, x: int) {
    exists i :: 0 <= i < |log| && log[i].Observed? && log[i].allDown && log[i].at <= x && NoneSince(log, i, x)
  }

  ghost predicate NoneSince(log: seq<Event>, i: nat, x: int) {
    forall j :: i < j < |log| && log[j].Observed? ==> log[j].at > x
  }

  /** The instants of a stretch of time at which every Pi-hole was down. */
  ghost function DownIn(log: seq<Event>, a: int, b: int): set<int> {
    set x | a <= x < b && DownAt(log, x)
  }

  /** A later event does not change what was the case earlier. */
  lemma DownAtSnoc(log: seq<Event>, e: Event, x: int)
    ensures e.Observed? && e.at <= x ==> (DownAt(log + [e], x) <==> e.allDown)
    ensures !(e.Observed? && e.at <= x) ==> (DownAt(log + [e], x) <==> DownAt(log, x))
  {
    var l, n := log + [e], |log|;
    assert l[n] == e && forall i :: 0 <= i < n ==> l[i] == log[i];
    if e.Observed? && e.at <= x {
      if e.allDown {
        assert NoneSince(l, n, x);
        assert DownAt(l, x);
      }
    } else {
      if DownAt(l, x) {
        var i :| 0 <= i < |l| && l[i].Observed? && l[i].allDown && l[i].at <= x && NoneSince(l, i, x);
        assert forall j :: 0 <= j < n ==> log[j] == l[j];
        assert NoneSince(log, i, x);
        assert DownAt(log, x);
      }
      if DownAt(log, x) {
        var i :| 0 <= i < |log| && log[i].Observed? && log[i].allDown && log[i].at <= x && NoneSince(log, i, x);
        assert NoneSince(l, i, x);
        assert DownAt(l, x);
      }
    }
  }

  /** Once the last event has happened, down is what the last observation said. */
  lemma {:induction false} DownAtLate(t0: int, log: seq<Event>, x: int)
    requires Monotone(t0, log) && x >= LastTime(t0, log)
    ensures DownAt(log, x) <==> IsDown(log)
    decreases |log|
  {
    if log != [] {
      var p, e := log[..|log| - 1], log[|log| - 1];
      assert log == p + [e];
      DownAtSnoc(p, e, x);
      if !e.Observed? {
        DownAtLate(t0, p, x);
      }
    }
  }

  lemma DisjointUnion(a: set<int>, b: set<int>)
    requires a !! b
    ensures |a + b| == |a| + |b|
  {
  }

  /** How the instants down grow with one more event. */
  lemma DownInSnoc(t0: int, log: seq<Event>, e: Event, a: int, now: int)
    requires Monotone(t0, log + [e]) && !e.Used? && a <= e.at <= now
    ensures |DownIn(log + [e], a, now)| == |DownIn(log, a, e.at)| + if IsDown(log + [e]) then now - e.at else 0
  {
    var l := log + [e];
    assert l[..|log|] == log && l[|log|] == e;
    var before, after := DownIn(log, a, e.at), if IsDown(l) then Interval(e.at, now) else {};
    forall x | a <= x < e.at ensures DownAt(l, x) <==> DownAt(log, x) {
      DownAtSnoc(log, e, x);
    }
    forall x | e.at <= x < now ensures DownAt(l, x) <==> IsDown(l) {
      DownAtLate(t0, l, x);
    }
    hide DownAt, IsDown;
    assert DownIn(l, a, now) == before + after;
    DisjointUnion(before, after);
  }

  /** The down time is the number of instants at which every Pi-hole was down. */
  lemma {:induction false} DownTimeIsInstants(t0: int, log: seq<Event>, now: int)
    requires Monotone(t0, log) && now >= LastTime(t0, log)
    ensures DownTime(log, now) == |DownIn(log, t0, now)|
    decreases |log|
  {
    if log == [] {
      assert DownIn(log, t0, now) == {};
    } else {
      var p, e := log[..|log| - 1], log[|log| - 1];
      assert log == p + [e];
      TimeMoves(t0, p);
      if e.Used? {
        DownTimeIsInstants(t0, p, now);
        SameInstants(p, e, t0, now);
      } else {
        DownTimeIsInstants(t0, p, e.at);
        DownInSnoc(t0, p, e, t0, now);
      }
    }
  }

  lemma {:induction false} TimeMoves(t0: int, log: seq<Event>)
    requires Monotone(t0, log)
    ensures t0 <= LastTime(t0, log)
    decreases |log|
  {
    if log != [] {
      TimeMoves(t0, log[..|log| - 1]);
    }
  }

  lemma SameInstants(log: seq<Event>, e: Event, a: int, b: int)
    requires !e.Observed?
    ensures DownIn(log + [e], a, b) == DownIn(log, a, b)
  {
    forall x ensures DownAt(log + [e], x) <==> DownAt(log, x) {
      DownAtSnoc(log, e, x);
    }
  }

  /** When the open window began: at the last cut. */
  ghost function CutTime(t0: int, log: seq<Event>): int {
    if log == [] then t0
    else if log[|log| - 1].Taken? then log[|log| - 1].at
    else CutTime(t0, log[..|log| - 1])
  }

  /** What happened since the last cut. */
  ghost function Recent(log: seq<Event>): (r: seq<Event>)
    ensures |r| <= |log|
  {
    if log == [] || log[|log| - 1].Taken? then [] else Recent(log[..|log| - 1]) + [log[|log| - 1]]
  }

  /** From position k on nothing was cut, and what precedes it, if anything, is the cut that set the time. */
  ghost predicate CutAt(t0: int, log: seq<Event>, k: nat, time: int) {
    && k <= |log| && (forall i :: k <= i < |log| ==> !log[i].Taken?)
    && (if k == 0 then time == t0 else log[k - 1].Taken? && time == log[k - 1].at)
  }

  /** The recent events are those after the last cut, and it set the time. */
  lemma {:induction false} RecentIs(t0: int, log: seq<Event>)
    ensures var k := |log| - |Recent(log)|;
            log[k..] == Recent(log) && CutAt(t0, log, k, CutTime(t0, log))
    decreases |log|
  {
    if log == [] {
      assert CutAt(t0, log, 0, t0);
    } else {
      var p, e := log[..|log| - 1], log[|log| - 1];
      assert log == p + [e];
      RecentIs(t0, p);
      RecentSnoc(t0, p, e);
      CutAtSnoc(t0, p, e, |p| - |Recent(p)|, CutTime(t0, p));
      hide Recent, CutTime, ViewOf, AfterEvent, CutAt;
    }
  }

  lemma CutAtSnoc(t0: int, log: seq<Event>, e: Event, k: nat, time: int)
    requires CutAt(t0, log, k, time)
    ensures !e.Taken? ==> CutAt(t0, log + [e], k, time) && (log + [e])[k..] == log[k..] + [e]
    ensures e.Taken? ==> CutAt(t0, log + [e], |log| + 1, e.at) && (log + [e])[|log| + 1..] == []
  {
    var l := log + [e];
    assert l[|log|] == e && forall i :: 0 <= i < |log| ==> l[i] == log[i];
  }

  lemma RecentSnoc(t0: int, log: seq<Event>, e: Event)
    ensures Recent(log + [e]) == if e.Taken? then [] else Recent(log) + [e]
    ensures CutTime(t0, log + [e]) == if e.Taken? then e.at else CutTime(t0, log)
    ensures ViewOf(t0, log + [e]) == AfterEvent(ViewOf(t0, log), e)
  {
    assert (log + [e])[..|log|] == log;
  }

  /** Queries of the open window: those since the last cut, the failed ones, and each server's answers. */
  lemma {:induction false} WindowCounts(t0: int, log: seq<Event>, now: int, server: string)
    ensures var s := SummaryOf(ViewOf(t0, log), now);
            && s.start == CutTime(t0, log) && s.end == now
            && s.queries == Times(Recent(log), (e: Event) => e.Used?)
            && s.failures == Times(Recent(log), (e: Event) => e.Used? && !e.ok)
            && GetOr(s.perServer, server) == Times(Recent(log), (e: Event) => e == Used(server, true))
    decreases |log|
  {
    var used, failed := (e: Event) => e.Used?, (e: Event) => e.Used? && !e.ok;
    var own := (e: Event) => e == Used(server, true);
    TimesNone(used);
    TimesNone(failed);
    TimesNone(own);
    hide Times;
    if log != [] {
      var p, e := log[..|log| - 1], log[|log| - 1];
      assert log == p + [e];
      WindowCounts(t0, p, now, server);
      RecentSnoc(t0, p, e);
      hide Recent, ViewOf, CutTime;
      TimesSnoc(Recent(p), e, used);
      TimesSnoc(Recent(p), e, failed);
      TimesSnoc(Recent(p), e, own);
    }
  }

  /** Outage time of the open window: the instants since the last cut at which every Pi-hole was down. */
  lemma {:induction false} WindowOutage(t0: int, log: seq<Event>, now: int)
    requires Monotone(t0, log) && now >= LastTime(t0, log)
    ensures CutTime(t0, log) <= LastTime(t0, log)
    ensures var s := SummaryOf(ViewOf(t0, log), now);
            s.totalOutage == |DownIn(log, CutTime(t0, log), now)| && s.ongoing == IsDown(log)
    decreases |log|
  {
    if log == [] {
      assert DownIn(log, t0, now) == {};
    } else {
      var p, e := log[..|log| - 1], log[|log| - 1];
      assert log == p + [e];
      RecentSnoc(t0, p, e);
      if e.Used? {
        WindowOutage(t0, p, now);
        SameInstants(p, e, CutTime(t0, p), now);
      } else {
        WindowOutage(t0, p, e.at);
        DownInSnoc(t0, p, e, CutTime(t0, log), now);
        if e.Taken? {
          assert DownIn(p, e.at, e.at) == {};
        }
      }
    }
  }

  /** A window goes unreported exactly when nothing happened in it: no query sent, no outage begun or carried over. */
  lemma {:induction false} QuietWindow(t0: int, log: seq<Event>, now: int)
    ensures SummaryOf(ViewOf(t0, log), now).Empty() <==> Quiet(log)
    ensures ViewOf(t0, log).inOutage == IsDown(log)
    ensures ViewOf(t0, log).inOutage ==> ViewOf(t0, log).episodes > 0
    decreases |log|
  {
    hide Quiet;
    NoEvents();
    if log != [] {
      var p, e := log[..|log| - 1], log[|log| - 1];
      assert log == p + [e];
      QuietWindow(t0, p, now);
      RecentSnoc(t0, p, e);
      QuietSnoc(p, e);
    }
  }

  /** Since the last cut, at which not all were down, no query was sent and all were never down. */
  ghost predicate Quiet(log: seq<Event>) {
    !IsDown(BeforeCut(log)) && AllHarmless(Recent(log))
  }

  /** What happened up to the last cut. */
  ghost function BeforeCut(log: seq<Event>): seq<Event> {
    log[..|log| - |Recent(log)|]
  }

  ghost predicate AllHarmless(es: seq<Event>) {
    forall i :: 0 <= i < |es| ==> Harmless(es[i])
  }

  ghost predicate Harmless(e: Event) { !e.Used? && !(e.Observed? && e.allDown) }

  lemma NoEvents()
    ensures Quiet([])
  {
  }

  lemma HarmlessSnoc(es: seq<Event>, e: Event)
    ensures AllHarmless(es + [e]) <==> AllHarmless(es) && Harmless(e)
  {
    hide Harmless;
    var l := es + [e];
    assert l[|es|] == e && forall i :: 0 <= i < |es| ==> l[i] == es[i];
    if AllHarmless(l) {
      assert Harmless(l[|es|]);
      forall i | 0 <= i < |es| ensures Harmless(es[i]) {
        assert Harmless(l[i]);
      }
    }
  }

  lemma QuietSnoc(log: seq<Event>, e: Event)
    ensures Quiet(log + [e]) <==> if e.Taken? then !IsDown(log) else Quiet(log) && Harmless(e)
  {
    var l, r := log + [e], Recent(log);
    RecentSnoc(0, log, e);
    HarmlessSnoc(r, e);
    assert l[..|log|] == log;
    hide Recent, Harmless, ViewOf, CutTime, AfterEvent;
    if e.Taken? {
      assert BeforeCut(l) == l;
      assert AllHarmless([]);
    } else {
      assert BeforeCut(l) == BeforeCut(log);
    }
  }

  // ---------------------------------------------------------------- the longest outage

  lemma {:induction false} LongestIsMax(spans: seq<int>)
    ensures Longest(spans) >= 0 && (Longest(spans) == 0 || Longest(spans) in spans)
    ensures forall i :: 0 <= i < |spans| ==> spans[i] <= Longest(spans)
    decreases |spans|
  {
    if spans != [] {
      LongestIsMax(spans[..|spans| - 1]);
      assert forall i :: 0 <= i < |spans| - 1 ==> spans[i] == spans[..|spans| - 1][i];
    }
  }

  /**
   The longest outage reported is the longest: at least every outage that ended in the window and the
   one in progress, and one of these unless there was none.
   */
  lemma LongestReported(v: View, t0: int, log: seq<Event>, ws: seq<Summary>, now: int)
    requires Accounts(v, t0, log, ws) && now >= LastTime(t0, log)
    ensures var longest := SummaryOf(v, now).longestOutage;
            && (forall i :: 0 <= i < |Ended(log)| ==> Ended(log)[i] <= longest)
            && (IsDown(log) ==> now - DownSince(log) <= longest)
            && (longest == 0 || longest in Ended(log) || (IsDown(log) && longest == now - DownSince(log)))
  {
    hide Tiles, OutageSum, EpisodeSum, QuerySum, AnsweredSum, WindowOk, MapSum, DownTime, Ended;
    LongestIsMax(Ended(log));
  }

  /** An outage begins at this event. */
  ghost predicate Begins(log: seq<Event>, i: nat)
    requires i < |log|
  {
    log[i].Observed? && log[i].allDown && !IsDown(log[..i])
  }

  /** An outage ends at this event. */
  ghost predicate Ends(log: seq<Event>, i: nat)
    requires i < |log|
  {
    log[i].Observed? && !log[i].allDown && IsDown(log[..i])
  }

  /** An outage begins here, or the window is cut, and from here on neither an end nor a cut follows. */
  ghost predicate LastsFrom(log: seq<Event>, i: nat)
    requires i < |log|
  {
    && (log[i].Taken? || Begins(log, i))
    && forall j :: i < j < |log| ==> !log[j].Taken? && (log[j].Observed? ==> log[j].allDown)
  }

  /** The present outage counts from where it began, or from the last cut during it. */
  lemma {:induction false} DownSinceIs(log: seq<Event>) returns (i: nat)
    requires IsDown(log)
    ensures i < |log| && LastsFrom(log, i) && DownSince(log) == log[i].at
    decreases |log|
  {
    var n := |log| - 1;
    var p, e := log[..n], log[n];
    i := n;
    if !e.Taken? && !Begins(log, n) {
      i := DownSinceIs(p);
      assert log[i] == p[i] && log[..i] == p[..i];
      assert forall j :: i < j < n ==> log[j] == p[j];
    }
  }

  /** An outage ends at this event, and the window has not been cut since. */
  ghost predicate EndsHere(log: seq<Event>, k: nat)
    requires k < |log|
  {
    Ends(log, k) && forall j :: k < j < |log| ==> !log[j].Taken?
  }

  /** How long the outage ending at this event had lasted, from its beginning or the last cut. */
  ghost function Length(log: seq<Event>, k: nat): int
    requires k < |log| && log[k].Observed?
  {
    log[k].at - DownSince(log[..k])
  }

  lemma EndsHereSnoc(log: seq<Event>, e: Event)
    ensures forall k :: 0 <= k < |log| ==> (EndsHere(log + [e], k) <==> EndsHere(log, k) && !e.Taken?)
    ensures forall k :: 0 <= k < |log| && log[k].Observed? ==> Length(log + [e], k) == Length(log, k)
    ensures EndsHere(log + [e], |log|) <==> e.Observed? && !e.allDown && IsDown(log)
    ensures e.Observed? ==> Length(log + [e], |log|) == e.at - DownSince(log)
  {
    var l, n := log + [e], |log|;
    assert l[..n] == log && l[n] == e;
    forall k | 0 <= k < n ensures EndsHere(l, k) <==> EndsHere(log, k) && !e.Taken? {
      PositionStays(l, n, k);
      assert forall j :: 0 <= j < n ==> l[j] == log[j];
      if EndsHere(l, k) {
        assert !l[n].Taken?;
      }
    }
    forall k | 0 <= k < n && log[k].Observed? ensures Length(l, k) == Length(log, k) {
      PositionStays(l, n, k);
    }
  }

  /** The outages that ended in the window, in order, each with its length. */
  lemma {:induction false} EndedExact(log: seq<Event>) returns (at: seq<nat>)
    ensures |at| == |Ended(log)|
    ensures forall i :: 0 <= i < |at| ==>
              at[i] < |log| && EndsHere(log, at[i]) && log[at[i]].Observed? && Ended(log)[i] == Length(log, at[i])
    ensures forall i, j :: 0 <= i < j < |at| ==> at[i] < at[j]
    ensures forall k :: 0 <= k < |log| && EndsHere(log, k) ==> k in at
    decreases |log|
  {
    at := [];
    if log != [] {
      var n := |log| - 1;
      var p, e := log[..n], log[n];
      assert log == p + [e];
      EndsHereSnoc(p, e);
      assert forall i :: 0 <= i < n ==> p[i] == log[i];
      hide Ends, DownSince;
      if !e.Taken? {
        at := EndedExact(p);
        if EndsHere(log, n) {
          at := at + [n];
          assert at[|at| - 1] == n;
        }
      }
    }
  }

  /** What a position shows does not depend on what comes later. */
  lemma PositionStays(log: seq<Event>, n: nat, k: nat)
    requires k < n <= |log|
    ensures log[..n][k] == log[k] && log[..n][..k] == log[..k]
    ensures Begins(log[..n], k) <==> Begins(log, k)
    ensures Ends(log[..n], k) <==> Ends(log, k)
    ensures Splits(log[..n], k) <==> Splits(log, k)
  {
    assert log[..n][..k] == log[..k];
  }

  /** The window is cut here, in the middle of an outage. */
  ghost predicate Splits(log: seq<Event>, i: nat)
    requires i < |log|
  {
    log[i].Taken? && IsDown(log[..i])
  }

  lemma OneMore(a: set<int>, b: set<int>, n: int, more: bool)
    requires n !in a && forall k: int :: k in b <==> k in a || (more && k == n)
    ensures |b| == |a| + if more then 1 else 0
  {
    if more {
      assert forall k: int :: k in b <==> k in a + {n};
      assert b == a + {n};
    } else {
      assert forall k: int :: k in b <==> k in a;
      assert b == a;
    }
  }

  ghost function Beginnings(log: seq<Event>): set<int> {
    set i | 0 <= i < |log| && Begins(log, i)
  }

  ghost function Splittings(log: seq<Event>): set<int> {
    set i | 0 <= i < |log| && Splits(log, i)
  }

  lemma PositionsSnoc(log: seq<Event>, e: Event)
    ensures |Beginnings(log + [e])| == |Beginnings(log)| + if e.Observed? && e.allDown && !IsDown(log) then 1 else 0
    ensures |Splittings(log + [e])| == |Splittings(log)| + if e.Taken? && IsDown(log) then 1 else 0
  {
    var l, n := log + [e], |log|;
    assert l[..n] == log && l[n] == e;
    forall k | 0 <= k < n ensures (Begins(l, k) <==> Begins(log, k)) && (Splits(l, k) <==> Splits(log, k)) {
      PositionStays(l, n, k);
    }
    assert Begins(l, n) <==> e.Observed? && e.allDown && !IsDown(log);
    assert Splits(l, n) <==> e.Taken? && IsDown(log);
    hide Begins, Splits, IsDown;
    OneMore(Beginnings(log), Beginnings(l), n, e.Observed? && e.allDown && !IsDown(log));
    OneMore(Splittings(log), Splittings(l), n, e.Taken? && IsDown(log));
  }

  /** Outages begun are the positions where one begins; cuts while down, those where one is split. */
  lemma {:induction false} EventsCount(log: seq<Event>)
    ensures Begun(log) == |Beginnings(log)| && CutsWhileDown(log) == |Splittings(log)|
    decreases |log|
  {
    hide Beginnings, Splittings, IsDown;
    if log == [] {
      NoPositions();
    } else {
      var p, e := log[..|log| - 1], log[|log| - 1];
      assert log == p + [e];
      EventsCount(p);
      PositionsSnoc(p, e);
    }
  }

  lemma NoPositions()
    ensures Beginnings([]) == {} && Splittings([]) == {}
  {
  }

  lemma {:induction false} UsesCount(log: seq<Event>)
    ensures Uses(log) == Times(log, (e: Event) => e.Used?)
    ensures Answered(log) == Times(log, (e: Event) => e.Used? && e.ok)
    decreases |log|
  {
    var used, ok := (e: Event) => e.Used?, (e: Event) => e.Used? && e.ok;
    hide Times;
    if log == [] {
      TimesNone(used);
      TimesNone(ok);
    } else {
      var p, e := log[..|log| - 1], log[|log| - 1];
      assert log == p + [e];
      UsesCount(p);
      TimesSnoc(p, e, used);
      TimesSnoc(p, e, ok);
    }
  }

  /** The windows closed are those that stood open at the cuts, in order. */
  lemma {:induction false} WindowsAre(t0: int, log: seq<Event>, k: nat)
    requires k < |log| && log[k].Taken?
    ensures var i := Times(log[..k], (e: Event) => e.Taken?);
            i < |WindowsOf(t0, log)| == Times(log, (e: Event) => e.Taken?)
            && WindowsOf(t0, log)[i] == SummaryOf(ViewOf(t0, log[..k]), log[k].at)
    decreases |log|
  {
    var n, taken := |log| - 1, (e: Event) => e.Taken?;
    var p, e := log[..n], log[n];
    assert log == p + [e];
    WindowsCount(t0, p);
    WindowsCount(t0, log);
    hide Times, ViewOf, SummaryOf;
    if k < n {
      WindowsAre(t0, p, k);
      assert p[..k] == log[..k] && p[k] == log[k];
    } else {
      assert log[..k] == p;
    }
  }

  lemma {:induction false} WindowsCount(t0: int, log: seq<Event>)
    ensures |WindowsOf(t0, log)| == Times(log, (e: Event) => e.Taken?)
    decreases |log|
  {
    var taken := (e: Event) => e.Taken?;
    hide Times, ViewOf, SummaryOf;
    if log == [] {
      TimesNone(taken);
    } else {
      var p, e := log[..|log| - 1], log[|log| - 1];
      assert log == p + [e];
      WindowsCount(t0, p);
      TimesSnoc(p, e, taken);
    }
  }

  /** What a tracker keeps is what its log makes of it, and it accounts for that log. */
  ghost predicate Kept(v: View, t0: int, log: seq<Event>, ws: seq<Summary>) {
    Monotone(t0, log) && v == ViewOf(t0, log) && ws == WindowsOf(t0, log) && Accounts(v, t0, log, ws)
  }

  class Tracker {
    var windowStart: int
    var queries: nat
    var failures: nat
    var perServer: map<string, nat>
    var episodes: nat
    var total: int
    var longest: int
    var inOutage: bool
    var outageStart: int

    ghost const t0: int
    ghost var log: seq<Event>
    ghost var windows: seq<Summary>

    ghost function Open(): View
      reads this
    {
      View(windowStart, queries, failures, perServer, episodes, total, longest, inOutage, outageStart)
    }

    ghost predicate Valid()
      reads this
    {
      Kept(Open(), t0, log, windows)
    }

    lemma Extends(e: Event)
      requires Valid() && (e.Used? || e.at >= LastTime(t0, log))
      ensures Monotone(t0, log + [e]) && ViewOf(t0, log + [e]) == AfterEvent(Open(), e)
      ensures WindowsOf(t0, log + [e]) == windows + if e.Taken? then [SummaryOf(Open(), e.at)] else []
    {
      assert (log + [e])[..|log|] == log;
    }

    constructor (now: int)
      ensures Valid() && t0 == now && log == [] && windows == []
    {
      windowStart, queries, failures, perServer := now, 0, 0, map[];
      episodes, total, longest, inOutage, outageStart := 0, 0, 0, false, 0;
      t0, log, windows := now, [], [];
      NothingYet(now);
    }

    /** Whether every Pi-hole is currently unable to answer. */
    method Observe(now: int, allDown: bool)
      requires Valid() && now >= LastTime(t0, log)
      modifies this
      ensures Valid() && log == old(log) + [Observed(now, allDown)] && windows == old(windows)
      ensures Open() == AfterObserve(old(Open()), now, allDown)
    {
      hide Accounts, LastTime, Monotone, ViewOf, WindowsOf;
      Extends(Observed(now, allDown));
      ObserveKeeps(Open(), t0, log, windows, now, allDown);
      if allDown && !inOutage {
        inOutage := true;
        outageStart := now;
        episodes := episodes + 1;
      } else if !allDown && inOutage {
        inOutage := false;
        var d := now - outageStart;
        total := total + d;
        if d > longest {
          longest := d;
        }
      }
      log := log + [Observed(now, allDown)];
    }

    /** One query sent to a public resolver. */
    method RecordQuery(server: string, ok: bool)
      requires Valid()
      modifies this
      ensures Valid() && log == old(log) + [Used(server, ok)] && windows == old(windows)
      ensures Open() == AfterUse(old(Open()), server, ok)
    {
      hide Accounts, LastTime, Monotone, ViewOf, WindowsOf;
      Extends(Used(server, ok));
      UseKeeps(Open(), t0, log, windows, server, ok);
      queries := queries + 1;
      if ok {
        perServer := perServer[server := GetOr(perServer, server) + 1];
      } else {
        failures := failures + 1;
      }
      log := log + [Used(server, ok)];
    }

    /** The open window so far, an outage in progress included. */
    method Snapshot(now: int) returns (s: Summary)
      ensures s == SummaryOf(Open(), now)
    {
      s := Summary(windowStart, now, queries, failures, perServer, episodes, total, longest, inOutage);
      if inOutage {
        var d := now - outageStart;
        s := s.(totalOutage := s.totalOutage + d);
        if d > s.longestOutage {
          s := s.(longestOutage := d);
        }
      }
    }

    /** Closes the window and opens the next one at the same instant. */
    method Take(now: int) returns (s: Summary)
      requires Valid() && now >= LastTime(t0, log)
      modifies this
      ensures Valid() && log == old(log) + [Taken(now)]
      ensures s == SummaryOf(old(Open()), now) && windows == old(windows) + [s]
      ensures Open() == AfterTake(old(Open()), now)
    {
      hide Accounts, LastTime, Monotone, ViewOf, WindowsOf;
      Extends(Taken(now));
      TakeKeeps(Open(), t0, log, windows, now);
      s := Snapshot(now);
      windowStart := now;
      queries, failures := 0, 0;
      perServer := map[];
      episodes, total, longest := 0, 0, 0;
      if inOutage {
        outageStart := now;
        episodes := 1;
      }
      log, windows := log + [Taken(now)], windows + [s];
    }

    /** One summary line, unless the window was quiet. */
    method Report(now: int) returns (line: Option<Summary>)
      requires Valid() && now >= LastTime(t0, log)
      modifies this
      ensures Valid() && log == old(log) + [Taken(now)]
      ensures windows == old(windows) + [SummaryOf(old(Open()), now)]
      ensures Reported(windows) == Reported(old(windows)) + if line.Some? then [line.value] else []
    {
      var s := Take(now);
      assert windows[..|windows| - 1] == old(windows);
      line := if s.Empty() then None else Some(s);
    }
  }
}
