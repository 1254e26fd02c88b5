/**
 The balancer as one process: started from a configuration file, then living through client queries,
 probes, sweeps, summaries and changes of its configuration, one at a time and in any order.
 */
module Balancer {
  import opened Basics
  import opened Config
  import opened Control
  import opened Fallback
  import opened Ledger
  import opened Net
  import opened Plans
  import opened Proxy
  import opened Selection
  import opened Wire
  import Health
  import Outage
  import P = Pool
  import Stats

  datatype Happening =
    | Asked(now: int, world: nat, req: Bytes, proto: string) // a client query, in one of the worlds
    | Probed(path: nat, ok: bool, latency: int)              // a health check of the path at that position
    | Started(path: nat, up: bool, latency: int)             // its very first verdict
    | Swept(now: int)                                        // the end of a sweep
    | Summed(now: int)                                       // the end of a reporting window
    | Changed(change: Change, saves: bool)                   // a change through the manager

  /** Everything that is kept, at one moment. */
  datatype Shot = Shot(trace: Trace, live: Live, outcomes: seq<Outcome>, view: P.View, order: seq<string>)

  /** What a query did besides: the way it was to take and the dice behind it, when it began, and the reply. */
  datatype Note = Nothing | Answered(way: Way, dice: Dice, t: nat, resp: Option<Bytes>)

  /** What stays fixed while the process lives. */
  datatype Setup = Setup(maxAttempts: int, retry: set<nat>, norm: Normaliser, allowWrite: bool, persist: bool)

  /** A message that is dropped unanswered. */
  predicate Dropped(req: Bytes) { |req| < HEADER_LEN || req[2] >= 128 }

  /** How the state moves with each happening. */
  ghost predicate Follows(x: Happening, a: Shot, b: Shot, note: Note, worlds: seq<World>, c: Setup) {
    match x
    case Asked(now, w, req, proto) =>
      && b.live == a.live
      && if Dropped(req) then b.trace == a.trace && b.outcomes == a.outcomes
         else w < |worlds| && note.Answered? && QueryFollows(now, worlds[w], req, proto, a, b, note, c)
    case Probed(path, ok, latency) => Logged(path, Health.Probe(ok, latency), a, b)
    case Started(path, up, latency) => Logged(path, Health.Initial(up, latency), a, b)
    case Swept(now) =>
      && b.live == a.live && b.outcomes == a.outcomes
      && b.trace == a.trace.(usage := a.trace.usage + [Outage.Observed(now, a.view.Healthy() == [])])
    case Summed(now) =>
      && b.live == a.live && b.outcomes == a.outcomes
      && |b.trace.windows| == |a.trace.windows| + 1 && b.trace.windows[..|a.trace.windows|] == a.trace.windows
      && b.trace == a.trace.(usage := a.trace.usage + [Outage.Taken(now)], windows := b.trace.windows)
    case Changed(change, saves) =>
      && b.live == Applied(a.live, change, saves, c.norm, c.allowWrite, c.persist)
      && b.outcomes == a.outcomes && b.trace == a.trace.(logs := b.trace.logs)
      && LogsGrow(a.trace.logs, b.trace.logs)
  }

  /** Every log stands, and any that are new are empty. */
  ghost predicate LogsGrow(a: Logs, b: Logs) {
    && (forall e :: e in a ==> e in b && b[e] == a[e])
    && (forall e :: e in b && e !in a ==> b[e] == [])
  }

  /** A query goes as the forwarding reference prescribes and leaves the trace of that. */
  ghost predicate QueryFollows(now: int, world: World, req: Bytes, proto: string, a: Shot, b: Shot, note: Note,
      c: Setup)
    requires note.Answered?
  {
    && |b.outcomes| > 0 && |b.trace.filed| > 0
    && var o, entry := b.outcomes[|b.outcomes| - 1], b.trace.filed[|b.trace.filed| - 1];
       && b.outcomes == a.outcomes + [o]
       && |o.tried| == |o.answers| && |o.publicAnswers| <= |a.order|
       && b.trace == Extended(a.trace, a.view, a.order, c.retry, o, entry)
       && entry.at == now && entry.rec.proto == proto && Filed(entry.rec, o)
       && Routes(note.way, a.view, note.dice, c.maxAttempts, a.order != [])
       && ForwardRule(world, note.t, note.way.plan, note.way.budget, a.order, c.retry, req, o, note.resp)
  }

  /** One report enters the log of the path at that position, if there is one, and nothing else moves. */
  ghost predicate Logged(path: nat, x: Health.Event, a: Shot, b: Shot) {
    var paths := Paths(a.view.upstreams);
    && b.live == a.live && b.outcomes == a.outcomes
    && b.trace == if path < |paths| then a.trace.(logs := WithReport(a.trace.logs, paths[path], x)) else a.trace
  }

  /** Manager and forwarder work on the same pool, resolver and statistics, and everything is in order. */
  ghost predicate Sane(m: Manager, s: Server)
    reads m`cfg, m.pool, m.pool.upstreams, m.pool.endpoints, m.resolver, m.stats, m.stats.minutes, m.stats.hours
    reads s`outcomes, s.pool, s.pool.endpoints, s.stats, s.stats.minutes, s.stats.hours, s.resolver.tracker
  {
    && s.pool == m.pool && s.resolver == m.resolver && s.stats == m.stats
    && m.Agree() && s.Parts() && s.Books()
  }

  ghost function Shoot(m: Manager, s: Server): Shot
    requires s.pool == m.pool && s.resolver == m.resolver
    reads m`cfg, s`outcomes, s.pool, s.pool.upstreams, s.pool.endpoints, s.resolver, s.resolver.tracker, s.stats`log
  {
    Shot(s.Traced(), m.State(), s.outcomes, s.pool.Snapshot(), if s.resolver.Safe() then s.resolver.NextOrder() else [])
  }

  ghost function SetupOf(m: Manager, s: Server): Setup {
    Setup(s.maxAttempts, s.retry, m.norm, m.allowWrite, m.persist)
  }

  /** The clock stands at this instant or later for statistics and tracker. */
  ghost predicate NotPast(s: Server, now: int)
    reads s.stats`log, s.resolver.tracker
  {
    s.stats.NotBefore(now) && Outage.LastTime(s.resolver.tracker.t0, s.resolver.tracker.log) <= now
  }

  // ---------------------------------------------------------------- starting

  lemma NamesDistinct(us: seq<Upstream>)
    requires ValidUpstreams(CfgsOf(us))
    ensures forall i :: 0 <= i < |us| ==> us[i].name != ""
    ensures forall i, j :: 0 <= i < j < |us| ==> us[i].name != us[j].name
  {
    forall i | 0 <= i < |us| ensures us[i].name != "" {
      assert WellFormed(CfgsOf(us)[i]);
    }
    forall i, j | 0 <= i < j < |us| ensures us[i].name != us[j].name {
      NamesDiffer(us, i, j);
    }
  }

  /** Starts a balancer from a configuration file, with its books open and empty. */
  method Launch(f: File, maxAttempts: int, retry: set<nat>, half: Positive, zone: int, now: int, norm: Normaliser,
      allowWrite: bool, persist: bool) returns (r: Result<(Manager, Server), ConfigError>)
    ensures r.Ok? <==> Usable(f, norm)
    ensures r.Ok? ==>
              var (m, s) := r.value;
              && Sane(m, s) && NotPast(s, now) && s.outcomes == [] && m.cfg == SettingsOf(f, norm)
              && SetupOf(m, s) == Setup(maxAttempts, retry, norm, allowWrite, persist)
  {
    hide ValidUpstreams, FillAll, P.Pool.Valid, Stats.Collector.Valid, CleanServers, ValidStrategy, Accepted,
         Outage.Kept, Usable;
    var started := Start(f, retry, half, zone, now, norm, allowWrite, persist);
    if started.Err? {
      return Err(started.error);
    }
    var m := started.value;
    NamesDistinct(m.pool.upstreams);
    var s := new Server(maxAttempts, retry, m.pool, m.resolver, m.stats);
    return Ok((m, s));
  }

  // ---------------------------------------------------------------- running

  /** Whether the next query can be forwarded without a rotation indexing below zero. */
  method Ready(s: Server) returns (b: bool)
    requires s.Parts()
    ensures b == s.Indexable()
  {
    hide P.Pool.Valid, HealthyOf;
    assert s.pool.Valid() by { s.SoundParts(); }
    var n := s.pool.HealthyUpstreams();
    var pool, resolver := s.pool, s.resolver;
    b := !(n >= 2 && pool.strategy == STRATEGY_ROUND_ROBIN && RotationStart(pool.rr, n, pool.half) < 0)
      && !(|resolver.servers| > 0 && RotationStart(resolver.rr, |resolver.servers|, resolver.half) < 0);
  }

  /** A client query. */
  method Ask(m: Manager, s: Server, rng: Rand, world: World, ghost worlds: seq<World>, x: Happening)
    returns (resp: Option<Bytes>, ghost note: Note)
    requires Sane(m, s) && s.Indexable() && x.Asked? && NotPast(s, x.now)
    requires x.world < |worlds| && worlds[x.world] == world
    modifies s`outcomes, s.pool`rr, s.pool.endpoints, rng`pos, world`tick, world`sent
    modifies s.stats, s.stats.minutes, s.stats.hours, s.resolver`rr, s.resolver.tracker
    ensures Sane(m, s) && NotPast(s, x.now)
    ensures Follows(x, old(Shoot(m, s)), Shoot(m, s), note, worlds, SetupOf(m, s))
  {
    hide Server.Parts, Server.Books, Server.Traced, P.Pool.Valid, Stats.Collector.Valid, Sound, InForce, ForwardRule,
         Routes, Filed, Extended, P.Pool.Snapshot, P.Pool.Healthy, SafeTurn, Turn, Follows, Outage.LastTime, Opens,
         NotPast, Contacts, ParseQuestion, AddrsOf, P.Pool.Drained, P.Pool.Cfg, QTypeOf, NamesIn, Outage.Kept;
    ghost var a, t, dice := Shoot(m, s), world.tick, rng.Now();
    ghost var way, o, rec;
    TimesTraced(s, x.now);
    resp, way, o, rec := s.Resolve(world, rng, x.now, x.req, x.proto);
    s.SoundParts();
    note := if o.Some? then Answered(way.value, dice, t, resp) else Nothing;
    ghost var b, c := Shoot(m, s), SetupOf(m, s);
    StillTimely(s, a.trace, x.now, a.view, a.order, o, rec);
    if o.Some? {
      QueryNoted(x, a, b, note, worlds, c, o.value, rec);
    } else {
      DropNoted(x, a, b, note, worlds, c);
    }
  }

  lemma TimesTraced(s: Server, now: int)
    requires NotPast(s, now)
    ensures s.stats.NotBefore(now)
    ensures var tr := s.Traced();
            && (tr.filed != [] ==> tr.filed[|tr.filed| - 1].at <= now)
            && Outage.LastTime(s.resolver.tracker.t0, tr.usage) <= now
  {
  }

  lemma StillTimely(s: Server, tr: Trace, now: int, v: P.View, order: seq<string>, o: Option<Outcome>,
      rec: Stats.Record)
    requires tr.filed != [] ==> tr.filed[|tr.filed| - 1].at <= now
    requires Outage.LastTime(s.resolver.tracker.t0, tr.usage) <= now
    requires o.Some? ==> |o.value.tried| == |o.value.answers| && |o.value.publicAnswers| <= |order|
    requires s.Traced() == if o.None? then tr else Extended(tr, v, order, s.retry, o.value, Stats.Entry(now, rec))
    ensures NotPast(s, now)
  {
    if o.Some? {
      UsageTakesNoTime(s.resolver.tracker.t0, tr.usage, order, |o.value.publicAnswers|, o.value.publicResult.Ok?);
    }
  }

  lemma {:induction false} UsageTakesNoTime(t0: int, log: seq<Outage.Event>, order: seq<string>, k: nat, ok: bool)
    requires k <= |order|
    ensures Outage.LastTime(t0, log + Usage(order, k, ok)) == Outage.LastTime(t0, log)
    decreases k
  {
    if k == 0 {
      assert log + Usage(order, k, ok) == log;
    } else {
      UsageTakesNoTime(t0, log, order, k - 1, false);
      UsageSnoc(order, k - 1, ok);
      var l := log + Usage(order, k, ok);
      assert l == log + Usage(order, k - 1, false) + [Outage.Used(order[k - 1], ok)];
      assert l[..|l| - 1] == log + Usage(order, k - 1, false);
    }
  }

  lemma QueryNoted(x: Happening, a: Shot, b: Shot, note: Note, worlds: seq<World>, c: Setup, o: Outcome,
      rec: Stats.Record)
    requires x.Asked? && !Dropped(x.req) && x.world < |worlds| && note.Answered?
    requires b.live == a.live && b.outcomes == a.outcomes + [o]
    requires |o.tried| == |o.answers| && |o.publicAnswers| <= |a.order|
    requires b.trace == Extended(a.trace, a.view, a.order, c.retry, o, Stats.Entry(x.now, rec))
    requires rec.proto == x.proto && Filed(rec, o) && Routes(note.way, a.view, note.dice, c.maxAttempts, a.order != [])
    requires ForwardRule(worlds[x.world], note.t, note.way.plan, note.way.budget, a.order, c.retry, x.req, o, note.resp)
    ensures Follows(x, a, b, note, worlds, c)
  {
    hide Filed, Routes, ForwardRule, Reported, Usage;
  }

  lemma DropNoted(x: Happening, a: Shot, b: Shot, note: Note, worlds: seq<World>, c: Setup)
    requires x.Asked? && Dropped(x.req) && b.live == a.live && b.outcomes == a.outcomes && b.trace == a.trace
    ensures Follows(x, a, b, note, worlds, c)
  {
  }

  /** A health check, or a path's very first verdict; there may be no path at that position any more. */
  method Hear(m: Manager, s: Server, x: Happening, ghost worlds: seq<World>, ghost clock: int)
    requires Sane(m, s) && (x.Probed? || x.Started?) && NotPast(s, clock)
    modifies s.pool.endpoints
    ensures Sane(m, s) && NotPast(s, clock)
    ensures Follows(x, old(Shoot(m, s)), Shoot(m, s), Nothing, worlds, SetupOf(m, s))
  {
    hide Server.Parts, Server.Books, P.Pool.Valid, Stats.Collector.Valid, Sound, InForce, P.Pool.Snapshot, SafeTurn,
         Turn, Outage.LastTime, P.Pool.Logs, P.Pool.Cfg, P.Pool.Drained, NamesIn, Paths, WithReport;
    assert s.pool.endpoints == Paths(s.pool.Snapshot().upstreams) by { s.SoundParts(); FlatPaths(s.pool); }
    if x.path < |s.pool.endpoints| {
      var e := s.pool.endpoints[x.path];
      if x.Probed? {
        s.Probe(e, x.ok, x.latency);
      } else {
        s.Settled(e, x.up, x.latency);
      }
    }
    s.SoundParts();
  }

  lemma FlatPaths(pool: P.Pool)
    requires pool.Valid()
    ensures pool.endpoints == Paths(pool.upstreams) == Paths(pool.Snapshot().upstreams)
  {
  }

  /** The end of a sweep, or of a reporting window. */
  method Observe(m: Manager, s: Server, x: Happening, ghost worlds: seq<World>)
    requires Sane(m, s) && (x.Swept? || x.Summed?) && NotPast(s, x.now)
    modifies s.resolver.tracker
    ensures Sane(m, s) && NotPast(s, x.now)
    ensures Follows(x, old(Shoot(m, s)), Shoot(m, s), Nothing, worlds, SetupOf(m, s))
  {
    hide Server.Parts, Server.Books, P.Pool.Valid, Stats.Collector.Valid, Sound, InForce, SafeTurn, Turn, P.Pool.Logs,
         P.Pool.Cfg, P.Pool.Drained, NamesIn, HealthyOf, P.Pool.Up, P.Pool.Latencies, Outage.SummaryOf;
    if x.Swept? {
      s.SweepDone(x.now);
    } else {
      var _ := s.Report(x.now);
    }
  }

  lemma {:induction false} NeverTried(outs: seq<Outcome>, es: seq<Endpoint>, e: Endpoint)
    requires RunOver(outs, es) && e !in es
    ensures Tries(outs, e) == 0 && Fails(outs, e) == 0
    decreases |outs|
  {
    if outs != [] {
      var p := outs[..|outs| - 1];
      assert RunOver(p, es);
      NeverTried(p, es, e);
    }
  }

  /** What appending upstreams adds to the flat list of paths. */
  lemma PathsGrow(before: seq<Upstream>, now: seq<Upstream>)
    requires |before| <= |now| && now[..|before|] == before
    ensures forall e :: e in Paths(before) ==> e in Paths(now)
    ensures forall e :: e in Paths(now) && e !in Paths(before) ==>
              exists i :: |before| <= i < |now| && e in now[i].endpoints
  {
    var more := now[|before|..];
    assert now == before + more;
    PathsConcat(before, more);
    hide Paths;
    forall e | e in Paths(now) && e !in Paths(before)
      ensures exists i :: |before| <= i < |now| && e in now[i].endpoints
    {
      PathsMember(more, e);
      var k :| 0 <= k < |more| && e in more[k].endpoints;
      assert now[|before| + k] == more[k];
    }
  }

  /** Paths that join untried leave every outcome where it was. */
  lemma OutcomesStand(outs: seq<Outcome>, before: seq<Upstream>, now: seq<Upstream>, es: seq<Endpoint>,
      es': seq<Endpoint>)
    requires RunOver(outs, es) && forall i :: 0 <= i < |outs| ==> OwnedBy(before, outs[i])
    requires |before| <= |now| && now[..|before|] == before && forall e :: e in es ==> e in es'
    ensures RunOver(outs, es') && forall i :: 0 <= i < |outs| ==> OwnedBy(now, outs[i])
  {
    hide OwnedBy, NoDup;
    forall i | 0 <= i < |outs| ensures OwnedBy(now, outs[i]) {
      OwnerStays(before, now, outs[i]);
    }
  }

  lemma OwnerStays(before: seq<Upstream>, now: seq<Upstream>, o: Outcome)
    requires OwnedBy(before, o) && |before| <= |now| && now[..|before|] == before
    ensures OwnedBy(now, o)
  {
    if o.source.Pihole? {
      var i :| 0 <= i < |before| && before[i].name == o.owner && o.tried[|o.tried| - 1] in before[i].endpoints;
      assert now[i] == before[i];
    }
  }

  /** A change of the configuration that takes nothing out. */
  method Change(m: Manager, s: Server, x: Happening, ghost worlds: seq<World>, ghost clock: int)
    requires Sane(m, s) && x.Changed? && !x.change.RemoveOne? && NotPast(s, clock)
    modifies m`cfg, m.pool`upstreams, m.pool`endpoints, m.pool`strategy, m.pool.upstreams
    modifies m.resolver`servers, m.stats`byUpstream, m.stats`nodeLog
    ensures Sane(m, s) && NotPast(s, clock)
    ensures Follows(x, old(Shoot(m, s)), Shoot(m, s), Nothing, worlds, SetupOf(m, s))
    ensures forall u :: u in m.pool.upstreams ==> u in old(m.pool.upstreams) || fresh(u)
    ensures forall e :: e in m.pool.endpoints ==> e in old(m.pool.endpoints) || fresh(e)
  {
    hide Sane, Applied, Follows, Manager.State, P.Pool.Snapshot, SafeTurn, Turn, NotPast, P.Pool.Logs, LogsGrow;
    Linked(m, s);
    ghost var a := Shoot(m, s);
    Adjust(m, s, x.change, x.saves);
    ChangeNoted(x, a, Shoot(m, s), worlds, SetupOf(m, s));
  }

  /** The change itself: paths may join, about which nothing is known, and the books stand. */
  method Adjust(m: Manager, s: Server, change: Control.Change, saves: bool)
    requires Sane(m, s) && !change.RemoveOne?
    modifies m`cfg, m.pool`upstreams, m.pool`endpoints, m.pool`strategy, m.pool.upstreams
    modifies m.resolver`servers, m.stats`byUpstream, m.stats`nodeLog
    ensures Sane(m, s)
    ensures m.State() == Applied(old(m.State()), change, saves, m.norm, m.allowWrite, m.persist)
    ensures forall u :: u in m.pool.upstreams ==> u in old(m.pool.upstreams) || fresh(u)
    ensures LogsGrow(old(m.pool.Logs()), m.pool.Logs())
    ensures forall e :: e in m.pool.endpoints ==> e in old(m.pool.endpoints) || fresh(e)
  {
    hide P.Pool.Valid, Stats.Collector.Valid, Applied, Tries, Fails, RunOver, OwnedBy, AllFiled, Records, PublicCount,
         Outage.Kept, Paths, Sound, InForce, P.Pool.Cfg, Manager.State, Sane, Outage.Answered;
    Pieces(m, s);
    ghost var before, es, outs := m.pool.upstreams, m.pool.endpoints, s.outcomes;
    FlatPaths(m.pool);
    Apply(m, change, saves);
    FlatPaths(m.pool);
    ghost var now := m.pool.upstreams;
    PathsGrow(before, now);
    OutcomesStand(outs, before, now, es, m.pool.endpoints);
    forall e | e in m.pool.endpoints && e !in es
      ensures e.Pristine() && fresh(e) && Tries(outs, e) == 0 == Fails(outs, e)
    {
      NeverTried(outs, es, e);
      var i :| |before| <= i < |now| && e in now[i].endpoints;
    }
    Assemble(m, s);
  }

  lemma Pieces(m: Manager, s: Server)
    requires Sane(m, s)
    ensures s.pool == m.pool && s.resolver == m.resolver && s.stats == m.stats && m.Agree()
    ensures s.resolver.retry == s.retry && s.resolver.tracker.Valid()
    ensures RunOver(s.outcomes, s.pool.endpoints) && AllFiled(s.stats.log, s.outcomes)
    ensures forall i :: 0 <= i < |s.outcomes| ==> OwnedBy(s.pool.upstreams, s.outcomes[i])
    ensures forall e :: e in s.pool.endpoints ==>
              e.totalQueries == Tries(s.outcomes, e) && e.totalFails == Fails(s.outcomes, e)
    ensures s.stats.nodeLog == Records(s.stats.log)
    ensures Outage.Answered(s.resolver.tracker.log) == PublicCount(s.outcomes)
  {
  }

  lemma Assemble(m: Manager, s: Server)
    requires s.pool == m.pool && s.resolver == m.resolver && s.stats == m.stats && m.Agree()
    requires s.resolver.retry == s.retry && s.resolver.tracker.Valid()
    requires RunOver(s.outcomes, s.pool.endpoints) && AllFiled(s.stats.log, s.outcomes)
    requires forall i :: 0 <= i < |s.outcomes| ==> OwnedBy(s.pool.upstreams, s.outcomes[i])
    requires forall e :: e in s.pool.endpoints ==>
               e.totalQueries == Tries(s.outcomes, e) && e.totalFails == Fails(s.outcomes, e)
    requires s.stats.nodeLog == Records(s.stats.log)
    requires Outage.Answered(s.resolver.tracker.log) == PublicCount(s.outcomes)
    ensures Sane(m, s)
  {
    NamesDistinct(s.pool.upstreams);
  }

  lemma ChangeNoted(x: Happening, a: Shot, b: Shot, worlds: seq<World>, c: Setup)
    requires x.Changed? && b.live == Applied(a.live, x.change, x.saves, c.norm, c.allowWrite, c.persist)
    requires b.outcomes == a.outcomes && b.trace == a.trace.(logs := b.trace.logs)
    requires LogsGrow(a.trace.logs, b.trace.logs)
    ensures Follows(x, a, b, Nothing, worlds, c)
  {
  }

  function TimeOf(x: Happening): Option<int> {
    match x
    case Asked(now, _, _, _) => Some(now)
    case Swept(now) => Some(now)
    case Summed(now) => Some(now)
    case _ => None
  }

  /** The clock does not run backwards. */
  ghost predicate Timely(clock: int, xs: seq<Happening>) {
    && (forall i :: 0 <= i < |xs| && TimeOf(xs[i]).Some? ==> clock <= TimeOf(xs[i]).value)
    && (forall i, j :: 0 <= i < j < |xs| && TimeOf(xs[i]).Some? && TimeOf(xs[j]).Some? ==>
          TimeOf(xs[i]).value <= TimeOf(xs[j]).value)
  }

  /** Whatever is still to come, from position k on, does not come before now. */
  ghost predicate Due(now: int, xs: seq<Happening>, k: nat) {
    forall i :: k <= i < |xs| && TimeOf(xs[i]).Some? ==> now <= TimeOf(xs[i]).value
  }

  lemma DueAtFirst(clock: int, xs: seq<Happening>)
    requires Timely(clock, xs)
    ensures Due(clock, xs, 0)
  {
  }

  lemma DueNext(clock: int, now: int, xs: seq<Happening>, k: nat)
    requires Timely(clock, xs) && Due(now, xs, k) && k < |xs|
    ensures TimeOf(xs[k]).Some? ==> now <= TimeOf(xs[k]).value
    ensures Due(if TimeOf(xs[k]).Some? then TimeOf(xs[k]).value else now, xs, k + 1)
  {
    hide TimeOf;
  }

  /** What can happen without an upstream being taken out, in these worlds. */
  ghost predicate Admissible(x: Happening, worlds: seq<World>) {
    (x.Asked? ==> x.world < |worlds|) && (x.Changed? ==> !x.change.RemoveOne?)
  }

  /** One happening; a query whose rotation would index below zero stops the process instead. */
  method Handle(m: Manager, s: Server, rng: Rand, worlds: seq<World>, x: Happening, ghost clock: int)
    returns (stopped: bool, resp: Option<Bytes>, ghost note: Note)
    requires Sane(m, s) && NotPast(s, clock) && Admissible(x, worlds)
    requires TimeOf(x).Some? ==> clock <= TimeOf(x).value
    modifies m`cfg, s`outcomes, m.pool, m.pool.upstreams, m.pool.endpoints, m.resolver`servers, m.resolver`rr
    modifies m.resolver.tracker, m.stats, m.stats.minutes, m.stats.hours, rng`pos, worlds
    ensures Sane(m, s) && NotPast(s, if TimeOf(x).Some? && !stopped then TimeOf(x).value else clock)
    ensures stopped ==> x.Asked? && !Dropped(x.req) && !s.Indexable() && Shoot(m, s) == old(Shoot(m, s))
    ensures !stopped ==> Follows(x, old(Shoot(m, s)), Shoot(m, s), note, worlds, SetupOf(m, s))
    ensures forall u :: u in m.pool.upstreams ==> u in old(m.pool.upstreams) || fresh(u)
    ensures forall e :: e in m.pool.endpoints ==> e in old(m.pool.endpoints) || fresh(e)
  {
    hide Sane, Follows, NotPast, Shoot, Server.Indexable, Server.Parts, SetupOf, Dropped;
    stopped, resp, note := false, None, Nothing;
    Linked(m, s);
    if x.Asked? {
      var ready := Ready(s);
      Later(s, clock, x.now);
      if ready {
        resp, note := Ask(m, s, rng, worlds[x.world], worlds, x);
      } else if Dropped(x.req) {
        DropNoted(x, Shoot(m, s), Shoot(m, s), note, worlds, SetupOf(m, s));
      } else {
        stopped := true;
      }
    } else if x.Changed? {
      Change(m, s, x, worlds, clock);
    } else if x.Swept? || x.Summed? {
      Later(s, clock, x.now);
      Observe(m, s, x, worlds);
    } else {
      Hear(m, s, x, worlds, clock);
    }
  }

  lemma Linked(m: Manager, s: Server)
    requires Sane(m, s)
    ensures s.pool == m.pool && s.resolver == m.resolver && s.stats == m.stats && s.Parts()
  {
  }

  lemma Later(s: Server, clock: int, now: int)
    requires NotPast(s, clock) && clock <= now
    ensures NotPast(s, now)
  {
  }

  /**
   The life of a balancer: whatever happens to it in whatever order, short of taking upstreams out, the
   state moves from each happening to the next as it should, configuration, pool and resolver agree,
   and the books balance at every stop.  It ends early only before a query whose rotation would index
   below zero.
   */
  method Operate(m: Manager, s: Server, rng: Rand, worlds: seq<World>, xs: seq<Happening>, ghost clock: int)
    returns (done: nat, replies: seq<Option<Bytes>>, ghost shots: seq<Shot>, ghost notes: seq<Note>)
    requires Sane(m, s) && NotPast(s, clock) && Timely(clock, xs)
    requires forall i :: 0 <= i < |xs| ==> Admissible(xs[i], worlds)
    modifies m`cfg, s`outcomes, m.pool, m.pool.upstreams, m.pool.endpoints, m.resolver`servers, m.resolver`rr
    modifies m.resolver.tracker, m.stats, m.stats.minutes, m.stats.hours, rng`pos, worlds
    ensures Sane(m, s)
    ensures done <= |xs| && |replies| == |notes| == done && |shots| == done + 1
    ensures shots[0] == old(Shoot(m, s)) && shots[done] == Shoot(m, s)
    ensures forall i :: 0 <= i < done ==> Follows(xs[i], shots[i], shots[i + 1], notes[i], worlds, SetupOf(m, s))
    ensures done < |xs| ==> xs[done].Asked? && !Dropped(xs[done].req) && !s.Indexable()
  {
    hide Sane, Follows, NotPast, Shoot, Server.Indexable, Admissible, SetupOf, TimeOf, Timely, Due;
    Linked(m, s);
    done, replies, shots, notes := 0, [], [Shoot(m, s)], [];
    ghost var now := clock;
    DueAtFirst(clock, xs);
    while done < |xs|
      invariant Sane(m, s) && NotPast(s, now)
      invariant done <= |xs| && |replies| == |notes| == done && |shots| == done + 1
      invariant shots[0] == old(Shoot(m, s)) && shots[done] == Shoot(m, s)
      invariant forall i :: 0 <= i < done ==> Follows(xs[i], shots[i], shots[i + 1], notes[i], worlds, SetupOf(m, s))
      invariant Due(now, xs, done)
      invariant forall u :: u in m.pool.upstreams ==> u in old(m.pool.upstreams) || fresh(u)
      invariant forall e :: e in m.pool.endpoints ==> e in old(m.pool.endpoints) || fresh(e)
    {
      assert forall k :: 0 <= k < |m.pool.upstreams| ==> m.pool.upstreams[k] in m.pool.upstreams;
      assert forall k :: 0 <= k < |m.pool.endpoints| ==> m.pool.endpoints[k] in m.pool.endpoints;
      DueNext(clock, now, xs, done);
      var stopped, resp; ghost var note;
      stopped, resp, note := Handle(m, s, rng, worlds, xs[done], now);
      if stopped {
        return;
      }
      now := if TimeOf(xs[done]).Some? then TimeOf(xs[done]).value else now;
      replies, notes, shots := replies + [resp], notes + [note], shots + [Shoot(m, s)];
      done := done + 1;
    }
  }
}
