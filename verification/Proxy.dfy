/**
 The forwarder: it takes a client query through the pool's plan, then through the public resolvers,
 and files what happened with the statistics.
 */
module Proxy {
  import opened Basics
  import opened Config
  import opened Fallback
  import opened Ledger
  import opened Net
  import opened Plans
  import opened Selection
  import opened Wire
  import Health
  import Outage
  import P = Pool
  import Stats

  /** The response code filed when no Pi-hole gave a good answer. */
  function FinalCode(source: Source, resp: Option<Bytes>): string {
    if source.Synthetic? || resp.None? then RCodeName(RCODE_SERVFAIL) else RCodeName(RCodeOf(resp.value))
  }

  ghost function AddrsOf(es: seq<Endpoint>): (r: seq<string>)
    ensures |r| == |es|
  {
    seq(|es|, i requires 0 <= i < |es| => es[i].addr)
  }

  /** How a query is to be taken to the Pi-holes: the plan, the budget, the strategy's choice behind it. */
  datatype Way = Way(plan: seq<Endpoint>, budget: int, ordered: seq<Upstream>, cut: nat)

  /** The way follows from what the pool was like, from the dice, and whether public resolvers are in use. */
  ghost predicate Routes(w: Way, v: P.View, dice: Dice, maxAttempts: int, enabled: bool) {
    && IsPlan(w.plan, v.upstreams, w.ordered, w.cut, v.up, v.drained)
    && P.Chosen(v.strategy, v.rr, v.half, v.Healthy(), LatencyKey(v.up, v.latency), dice, w.ordered)
    && w.plan == Laid(w, v, dice).0
    && w.budget == Budget(maxAttempts, |w.plan|, enabled, |v.Healthy()|)
  }

  /** The plan the dice lead to, and where they stand afterwards. */
  ghost function Laid(w: Way, v: P.View, dice: Dice): (seq<Endpoint>, Dice) {
    var thrown := dice.Later(P.OrderDraws(v.strategy, |v.Healthy()|));
    var (plan, used) := Layout(v.upstreams, w.ordered, v.up, v.drained, thrown);
    (plan, thrown.Later(used))
  }

  /** The first path tried is the preferred path of the upstream the strategy put first. */
  ghost predicate Opens(w: Way, v: P.View, tried: seq<Endpoint>) {
    w.ordered != [] && tried != [] ==> IsFirstUp(tried[0], w.ordered[0].endpoints, v.up)
  }

  /** Everything a query leaves behind: both rotation counters, health logs, public use and windows, records. */
  datatype Trace = Trace(
    poolCount: nat, publicCount: nat, logs: Logs,
    usage: seq<Outage.Event>, windows: seq<Outage.Summary>, filed: seq<Stats.Entry>)

  /**
   The trace of one more query.  Each attempt is reported to its own path with its own round trip; each
   public exchange is entered once, a success only for the answer returned; no window is cut; the
   pool's counter moves as the strategy says, the resolver's when the public servers get their turn.
   */
  ghost function Extended(tr: Trace, v: P.View, order: seq<string>, retry: set<nat>, o: Outcome,
      entry: Stats.Entry): Trace
    requires |o.tried| == |o.answers| && |o.publicAnswers| <= |order|
  {
    Trace(v.NextCount(), NextPublic(tr.publicCount, order, o), Reported(tr.logs, o.tried, o.answers, retry),
          tr.usage + Usage(order, |o.publicAnswers|, o.publicResult.Ok?), tr.windows, tr.filed + [entry])
  }

  ghost function NextPublic(count: nat, order: seq<string>, o: Outcome): nat {
    if o.source.Pihole? || order == [] then count else (count + 1) % U64
  }

  /** As many paths were tried as the limits allow, unless one of them answered or the client gave up. */
  ghost predicate AttemptsFit(o: Outcome, w: Way, maxAttempts: int, enabled: bool, healthy: nat, cancelled: bool) {
    && WithinLimits(|o.tried|, |w.plan|, maxAttempts, enabled, healthy)
    && (o.source.Pihole? || cancelled || LimitReached(|o.tried|, |w.plan|, maxAttempts, enabled, healthy))
  }

  class Server {
    const maxAttempts: int
    const retry: set<nat>
    const pool: P.Pool
    const resolver: Resolver
    const stats: Stats.Collector

    /** What every query so far did. */
    ghost var outcomes: seq<Outcome>

    /** Each component is sound in itself, and the counters fit. */
    ghost predicate Parts()
      reads pool`upstreams, pool`endpoints, pool.endpoints, stats, stats.minutes, stats.hours, resolver.tracker
    {
      && pool.Valid() && stats.Valid() && resolver.tracker.Valid()
      && resolver.retry == retry
      && (forall i :: 0 <= i < |pool.upstreams| ==> pool.upstreams[i].name != "")
      && (forall i, j :: 0 <= i < j < |pool.upstreams| ==> pool.upstreams[i].name != pool.upstreams[j].name)
    }

    /** The counters kept by four components, as the outcomes determine them. */
    ghost predicate Books()
      reads this`outcomes, pool`upstreams, pool`endpoints, pool.endpoints, stats`log, stats`nodeLog, resolver.tracker
    {
      && RunOver(outcomes, pool.endpoints)
      && (forall i :: 0 <= i < |outcomes| ==> OwnedBy(pool.upstreams, outcomes[i]))
      && (forall e :: e in pool.endpoints ==>
            e.totalQueries == Tries(outcomes, e) && e.totalFails == Fails(outcomes, e))
      && AllFiled(stats.log, outcomes) && stats.nodeLog == Records(stats.log)
      && Outage.Answered(resolver.tracker.log) == PublicCount(outcomes)
    }

    constructor (maxAttempts: int, retry: set<nat>, pool: P.Pool, resolver: Resolver, stats: Stats.Collector)
      ensures this.maxAttempts == maxAttempts && this.retry == retry
      ensures this.pool == pool && this.resolver == resolver && this.stats == stats
      ensures outcomes == []
      ensures ((forall e :: e in pool.endpoints ==> e.totalQueries == 0 && e.totalFails == 0)
               && stats.log == [] && stats.nodeLog == [] && resolver.tracker.log == []) ==> Books()
    {
      this.maxAttempts, this.retry, this.pool, this.resolver, this.stats := maxAttempts, retry, pool, resolver, stats;
      outcomes := [];
    }

    ghost function Traced(): Trace
      reads pool`rr, pool`endpoints, pool.endpoints, resolver`rr, resolver.tracker, stats`log
    {
      Trace(pool.rr, resolver.rr, pool.Logs(), resolver.tracker.log, resolver.tracker.windows, stats.log)
    }

    lemma SoundParts()
      requires Parts()
      ensures pool.Valid() && stats.Valid() && resolver.tracker.Valid()
    {
    }

    /** Neither rotation indexes below zero on the next query. */
    ghost predicate Indexable()
      reads pool`rr, pool`strategy, pool`upstreams, pool`endpoints, pool.upstreams, pool.endpoints
      reads resolver`rr, resolver`servers
    {
      pool.SafeFor(|pool.Healthy()|) && resolver.Safe()
    }

    /**
     The attempt loop: contacts the plan in order until a good answer, the end of the budget or
     cancellation, and reports every outcome to the pool.
     */
    method AskPool(world: World, plan: seq<Endpoint>, budget: int, req: Bytes)
      returns (hit: Option<Bytes>, last: Option<Bytes>, attempts: nat, ghost answers: seq<Answer>)
      requires pool.Valid() && budget <= |plan| && NoDup(plan)
      requires forall e :: e in plan ==> e in pool.endpoints
      modifies pool.endpoints, world`tick, world`sent
      ensures pool.Valid()
      ensures attempts == |answers| <= |plan| && AskedAll(world, old(world.tick), budget, retry, req, answers, hit)
      ensures hit.None? ==> last == LastMessage(answers)
      ensures hit.None? ==> world.tick == Handover(old(world.tick), attempts, budget)
      ensures world.sent == old(world.sent) + Contacts(false, AddrsOf(plan[..attempts]), answers)
      ensures pool.Logs() == Reported(old(pool.Logs()), plan[..attempts], answers, retry)
    {
      hide Contacts, Rejected, Heard, Validated, P.Pool.Valid, NoDup, LastMessage, Script, AskedAll, AddrsOf, Budget,
           RCodeOf, FromPool, P.Pool.Logs, Reported, WithReport;
      hit, last, attempts, answers := None, None, 0, [];
      NothingAsked(plan);
      ghost var t, logs := world.tick, pool.Logs();
      NothingHeard(world, req, t);
      NothingReported(logs, plan, retry);
      var i := 0;
      while i < budget
        invariant 0 <= i && (i <= budget || i == 0) && attempts == |answers| == i
        invariant pool.Valid()
        invariant forall j :: 0 <= j < i ==> Rejected(answers[j], retry)
        invariant last == LastMessage(answers)
        invariant world.tick == t + 2 * i && answers == Script(world.replies, req, t, i)
        invariant i > 0 ==> !world.CancelledAt(t + 2 * (i - 1))
        invariant world.sent == old(world.sent) + Contacts(false, AddrsOf(plan[..i]), answers)
        invariant pool.Logs() == Reported(logs, plan[..i], answers, retry)
      {
        var stop := world.Cancelled();
        if stop {
          AskStops(world, t, budget, retry, req, answers, None);
          return;
        }
        var ep := plan[i];
        assert ep in plan && plan[..i + 1] == plan[..i] + [ep];
        var a, good := Attempt(world, ep, req);
        AskedOne(plan[..i], answers, ep, a);
        ScriptSnoc(world.replies, req, t, i);
        ReportedSnoc(logs, plan[..i], answers, retry, ep, a);
        attempts, answers := i + 1, answers + [a];
        if good {
          hit := Some(a.bytes);
          AskStops(world, t, budget, retry, req, answers, hit);
          return;
        }
        if a.Message? {
          last := Some(a.bytes);
        }
        i := i + 1;
      }
      AskStops(world, t, budget, retry, req, answers, None);
    }

    /** One exchange with one path, and its report to the pool. */
    method Attempt(world: World, ep: Endpoint, req: Bytes) returns (a: Answer, good: bool)
      requires pool.Valid() && ep in pool.endpoints
      modifies ep, world`tick, world`sent
      ensures pool.Valid()
      ensures world.sent == old(world.sent) + [Contact(false, ep.addr, a)]
      ensures world.tick == old(world.tick) + 1 && a == Heard(world.replies, req, old(world.tick))
      ensures good <==> !Rejected(a, retry)
      ensures good ==> a.Message?
      ensures ep.log == old(ep.log) + [ReportOf(a, retry)]
      ensures pool.Logs() == WithReport(old(pool.Logs()), ep, ReportOf(a, retry))
    {
      hide P.Pool.Valid, Heard, Validated, RCodeOf, ValidateResponse, Endpoint.Valid;
      pool.PathValid(ep);
      a := world.Exchange(false, ep.addr, req);
      good := !Rejected(a, retry);
      pool.ReportQuery(ep, good, a.rtt);
    }

    /** The books as they stand when everything but the final filing of o has been done. */
    ghost predicate BooksAhead(o: Outcome)
      reads this`outcomes, pool`upstreams, pool`endpoints, pool.endpoints, stats`log, stats`nodeLog, resolver.tracker
    {
      var outs := outcomes + [o];
      && RunOver(outs, pool.endpoints)
      && (forall i :: 0 <= i < |outs| ==> OwnedBy(pool.upstreams, outs[i]))
      && (forall e :: e in pool.endpoints ==> e.totalQueries == Tries(outs, e) && e.totalFails == Fails(outs, e))
      && AllFiled(stats.log, outcomes) && stats.nodeLog == Records(stats.log)
      && Outage.Answered(resolver.tracker.log) == PublicCount(outs)
    }

    lemma PlanPaths(plan: seq<Endpoint>, ordered: seq<Upstream>, cut: nat, up: set<Endpoint>, drained: set<Upstream>)
      requires pool.Valid() && IsPlan(plan, pool.upstreams, ordered, cut, up, drained)
      ensures NoDup(plan) && forall e :: e in plan ==> e in pool.endpoints
    {
      hide IsPlan;
      forall e | e in plan ensures e in pool.endpoints {
        PlanExactCover(plan, pool.upstreams, ordered, cut, up, drained, e);
        PathsMember(pool.upstreams, e);
      }
      if plan != [] {
        PlanExactCover(plan, pool.upstreams, ordered, cut, up, drained, plan[0]);
      }
    }

    lemma OwnerKnown(ep: Endpoint)
      requires pool.Valid() && ep in pool.endpoints
      ensures ep.upstream != null
      ensures exists i :: 0 <= i < |pool.upstreams| && pool.upstreams[i] == ep.upstream
                          && ep in pool.upstreams[i].endpoints
    {
      PathsMember(pool.upstreams, ep);
    }

    /** Files the finished query, which closes the books on it. */
    method File(now: int, rec: Stats.Record, ghost o: Outcome)
      requires Parts() && BooksAhead(o) && Filed(rec, o) && stats.NotBefore(now)
      modifies this`outcomes, stats, stats.minutes, stats.hours
      ensures Parts() && Books() && outcomes == old(outcomes) + [o]
      ensures stats.log == old(stats.log) + [Stats.Entry(now, rec)]
    {
      hide RunOver, OwnedBy, AllFiled, Filed, Records, Tries, Fails, PublicCount, P.Pool.Valid, Stats.Collector.Valid,
           Outage.Kept;
      FiledSnoc(stats.log, outcomes, Stats.Entry(now, rec), o);
      stats.Record(now, rec);
      outcomes := outcomes + [o];
    }

    /**
     What to send when no Pi-hole gave a good answer: a public answer, else the last error, else a
     synthetic one.
     */
    method Settle(world: World, req: Bytes, last: Option<Bytes>, ghost asked: seq<Answer>)
      returns (resp: Option<Bytes>, source: Source, server: string, ghost pub: seq<Answer>,
          ghost result: Result<(Bytes, string), ResolveError>)
      requires resolver.tracker.Valid() && resolver.Safe() && resolver.retry == retry && last == LastMessage(asked)
      modifies resolver`rr, resolver.tracker, world`tick, world`sent
      ensures resolver.tracker.Valid()
      ensures var offered := world.Offered(req, old(world.tick), |resolver.servers|);
              result == PublicReply(old(resolver.NextOrder()), offered, retry) && pub == Through(offered, retry)
      ensures FallbackSource(asked, result, req, source, resp) && |pub| <= |resolver.servers|
      ensures world.tick >= old(world.tick)
      ensures server == if source.Public? && result.Ok? then result.value.1 else ""
      ensures world.sent == old(world.sent) + Contacts(true, old(resolver.NextOrder())[..|pub|], pub)
      ensures resolver.tracker.log
              == old(resolver.tracker.log) + Usage(old(resolver.NextOrder()), |pub|, result.Ok?)
      ensures resolver.tracker.windows == old(resolver.tracker.windows) && resolver.rr == old(resolver.NextCount())
    {
      hide PublicReply, Through, World.Offered, Contacts, Usage, IsErrorResponse, Unanswerable, Outage.Kept,
           LastMessage;
      server := "";
      var r;
      r, pub := resolver.Resolve(world, req);
      result := r;
      if r.Ok? {
        resp, source, server := Some(r.value.0), Public, r.value.1;
      } else if last.Some? {
        resp, source := last, LastError;
      } else {
        source := Synthetic;
        resp := ErrorResponse(req, RCODE_SERVFAIL);
      }
    }

    /** A health probe is reported to its path; it moves verdicts, not the books. */
    method Probe(e: Endpoint, ok: bool, latency: int)
      requires Parts() && Books() && e in pool.endpoints
      modifies e
      ensures Parts() && Books() && outcomes == old(outcomes)
      ensures e.log == old(e.log) + [Health.Probe(ok, latency)]
      ensures Traced() == old(Traced()).(logs := WithReport(old(pool.Logs()), e, Health.Probe(ok, latency)))
    {
      hide RunOver, OwnedBy, AllFiled, Tries, Fails, PublicCount, Stats.Collector.Valid, Outage.Kept,
           Health.Recorded, Paths, Disjoint, NoDup;
      pool.ReportProbe(e, ok, latency);
    }

    /** The very first verdict about a path moves its log only, too. */
    method Settled(e: Endpoint, up: bool, latency: int)
      requires Parts() && Books() && e in pool.endpoints
      modifies e
      ensures Parts() && Books() && outcomes == old(outcomes)
      ensures Traced() == old(Traced()).(logs := WithReport(old(pool.Logs()), e, Health.Initial(up, latency)))
    {
      hide RunOver, OwnedBy, AllFiled, Tries, Fails, PublicCount, Stats.Collector.Valid, Outage.Kept,
           Health.Recorded, Paths, Disjoint, NoDup;
      pool.SetInitial(e, up, latency);
    }

    /** After a sweep the tracker is told whether any Pi-hole can answer. */
    method SweepDone(now: int)
      requires Parts() && Books() && now >= Outage.LastTime(resolver.tracker.t0, resolver.tracker.log)
      modifies resolver.tracker
      ensures Parts() && Books()
      ensures Traced()
              == old(Traced()).(usage := old(resolver.tracker.log) + [Outage.Observed(now, pool.Healthy() == [])])
    {
      hide RunOver, OwnedBy, AllFiled, Tries, Fails, PublicCount, P.Pool.Valid, Stats.Collector.Valid, Outage.Kept,
           HealthyOf, Outage.LastTime;
      var healthy := pool.HealthyUpstreams();
      StillAnswered(resolver.tracker.log, Outage.Observed(now, healthy == 0));
      resolver.tracker.Observe(now, healthy == 0);
    }

    /** Cutting a reporting window keeps the books as well. */
    method Report(now: int) returns (line: Option<Outage.Summary>)
      requires Parts() && Books() && now >= Outage.LastTime(resolver.tracker.t0, resolver.tracker.log)
      modifies resolver.tracker
      ensures Parts() && Books()
      ensures Traced() == old(Traced()).(usage := old(resolver.tracker.log) + [Outage.Taken(now)],
                                         windows := old(resolver.tracker.windows)
                                           + [Outage.SummaryOf(old(resolver.tracker.Open()), now)])
    {
      hide RunOver, OwnedBy, AllFiled, Tries, Fails, PublicCount, P.Pool.Valid, Stats.Collector.Valid, Outage.Kept,
           Outage.LastTime;
      StillAnswered(resolver.tracker.log, Outage.Taken(now));
      line := resolver.tracker.Report(now);
    }

    /** The plan, in the strategy's order, and the number of attempts it allows. */
    method Route(rng: Rand) returns (plan: seq<Endpoint>, budget: int, ghost way: Way)
      requires pool.Valid() && pool.SafeFor(|pool.Healthy()|)
      modifies pool`rr, rng`pos
      ensures pool.Valid()
      ensures Routes(way, old(pool.Snapshot()), old(rng.Now()), maxAttempts, resolver.Enabled())
      ensures rng.Now() == Laid(way, old(pool.Snapshot()), old(rng.Now())).1
      ensures way.plan == plan && way.budget == budget <= |plan|
      ensures pool.rr == old(pool.Snapshot()).NextCount()
      ensures NoDup(plan) && forall e :: e in plan ==> e in pool.endpoints
    {
      hide IsPlan, P.Chosen, HealthyOf, NoDup, P.Pool.Valid, Layout, P.OrderDraws;
      ghost var ordered, cut;
      plan, ordered, cut := pool.Plan(rng);
      PlanPaths(plan, ordered, cut, pool.Up(), pool.Drained());
      budget := if maxAttempts > |plan| then |plan| else maxAttempts;
      var healthy := pool.HealthyUpstreams();
      if resolver.Enabled() && healthy == 0 && budget > 1 {
        budget := 1;
      }
      way := Way(plan, budget, ordered, cut);
    }

    /** Takes a query along its plan and, failing that, to the public resolvers. */
    method Pursue(world: World, plan: seq<Endpoint>, budget: int, req: Bytes, proto: string)
      returns (resp: Option<Bytes>, rec: Stats.Record, ghost order: seq<string>, ghost o: Outcome)
      requires pool.Valid() && budget <= |plan| && NoDup(plan) && forall e :: e in plan ==> e in pool.endpoints
      requires forall i :: 0 <= i < |pool.upstreams| ==> pool.upstreams[i].name != ""
      requires resolver.tracker.Valid() && resolver.retry == retry && resolver.Safe()
      modifies pool.endpoints, world`tick, world`sent, resolver`rr, resolver.tracker
      ensures pool.Valid() && resolver.tracker.Valid()
      ensures rec.proto == proto && rec.qtype == QTypeOf(req)
      ensures Filed(rec, o) && OwnedBy(pool.upstreams, o)
      ensures order == old(resolver.NextOrder())
      ensures |o.publicAnswers| <= |order| && |o.tried| == |o.answers|
      ensures world.sent == old(world.sent) + Contacts(false, AddrsOf(o.tried), o.answers)
                            + Contacts(true, order[..|o.publicAnswers|], o.publicAnswers)
      ensures pool.Logs() == Reported(old(pool.Logs()), o.tried, o.answers, retry)
      ensures resolver.tracker.log
              == old(resolver.tracker.log) + Usage(order, |o.publicAnswers|, o.publicResult.Ok?)
      ensures resolver.tracker.windows == old(resolver.tracker.windows)
      ensures resolver.rr == NextPublic(old(resolver.rr), order, o)
      ensures o.source.Pihole? || world.tick >= old(world.tick) + 2 * |o.answers|
      ensures ForwardRule(world, old(world.tick), plan, budget, order, retry, req, o, resp)
    {
      hide Contacts, P.Pool.Valid, Outage.Kept, OwnedBy, LastMessage, Rejected, NoDup, Filed, ForwardRule, Served,
           World.Offered, AskedAll, P.Pool.Logs, Reported, Usage;
      hide QTypeOf;
      order := resolver.NextOrder();
      ghost var t := world.tick;
      var hit, last, made, answers := AskPool(world, plan, budget, req);
      rec := Stats.Record(proto, QTypeOf(req), "", "", "", made, false, false);
      if hit.Some? {
        resp := hit;
        rec, o := Won(world, t, plan, budget, order, req, made, hit, answers, rec);
        NoContacts(order);
        NothingSent(order);
      } else {
        resp, rec, o := Lost(world, t, plan, budget, req, made, last, answers, rec);
      }
      OutcomeShape(world, t, plan, budget, order, retry, req, o, resp);
    }

    /** Bookkeeping of a good answer. */
    method Won(ghost world: World, ghost t: nat, plan: seq<Endpoint>, ghost budget: int, ghost order: seq<string>,
        ghost req: Bytes, made: nat, hit: Option<Bytes>, ghost answers: seq<Answer>, base: Stats.Record)
      returns (rec: Stats.Record, ghost o: Outcome)
      requires pool.Valid() && made <= |plan| && budget <= |plan| && forall e :: e in plan ==> e in pool.endpoints
      requires forall i :: 0 <= i < |pool.upstreams| ==> pool.upstreams[i].name != ""
      requires AskedAll(world, t, budget, retry, req, answers, hit) && hit.Some? && made == |answers|
      requires base.attempts == made && !base.fallback && !base.failed
      ensures o.tried == plan[..made] && o.answers == answers && o.source.Pihole?
      ensures o.publicAnswers == [] && o.publicResult.Err?
      ensures Filed(rec, o) && OwnedBy(pool.upstreams, o)
      ensures ForwardRule(world, t, plan, budget, order, retry, req, o, hit)
      ensures rec.proto == base.proto && rec.qtype == base.qtype
    {
      hide OwnedBy, AskedAll, Filed, ForwardRule, P.Pool.Valid, RCodeName, RCodeOf, ReplyCode;
      GoodAnswer(world, t, budget, retry, req, answers, hit);
      var ep := plan[made - 1];
      OwnerKnown(ep);
      rec := base.(upstream := ep.upstream.name, endpoint := ep.name, rcode := RCodeName(RCodeOf(hit.value)));
      o := Outcome(plan[..made], answers, [], Err(Disabled), Pihole, ep.upstream.name);
      NamedOwner(pool.upstreams, o);
      HitRule(world, t, plan, budget, order, retry, req, o, hit);
      HitCode(o, hit);
      FiledAs(rec, o);
    }

    /** What happens after the last rejected answer. */
    method Lost(world: World, ghost t: nat, ghost plan: seq<Endpoint>, ghost budget: int, req: Bytes, ghost made: nat,
        last: Option<Bytes>, ghost answers: seq<Answer>, base: Stats.Record)
      returns (resp: Option<Bytes>, rec: Stats.Record, ghost o: Outcome)
      requires resolver.tracker.Valid() && resolver.retry == retry && resolver.Safe()
      requires AskedAll(world, t, budget, retry, req, answers, None) && made == |answers| <= |plan| && budget <= |plan|
      requires last == LastMessage(answers) && base.attempts == made && base.upstream == ""
      requires world.tick == Handover(t, made, budget)
      modifies world`tick, world`sent, resolver`rr, resolver.tracker
      ensures resolver.tracker.Valid()
      ensures |o.publicAnswers| <= |old(resolver.NextOrder())|
      ensures o.tried == plan[..made] && o.answers == answers && !o.source.Pihole?
      ensures Filed(rec, o) && ForwardRule(world, t, plan, budget, old(resolver.NextOrder()), retry, req, o, resp)
      ensures rec.proto == base.proto && rec.qtype == base.qtype
      ensures forall us :: OwnedBy(us, o)
      ensures world.tick >= Handover(t, made, budget)
      ensures world.sent
              == old(world.sent) + Contacts(true, old(resolver.NextOrder())[..|o.publicAnswers|], o.publicAnswers)
      ensures resolver.tracker.log
              == old(resolver.tracker.log)
                 + Usage(old(resolver.NextOrder()), |o.publicAnswers|, o.publicResult.Ok?)
      ensures resolver.tracker.windows == old(resolver.tracker.windows) && resolver.rr == old(resolver.NextCount())
    {
      hide Usage, Contacts, Outage.Kept, LastMessage, AskedAll, Filed, ForwardRule, FinalCode, ReplyCode,
           PublicReply, Through, World.Offered, FallbackSource;
      ghost var order := resolver.NextOrder();
      var source, server; ghost var pub, result;
      resp, source, server, pub, result := Settle(world, req, last, answers);
      rec := base.(endpoint := server, fallback := source.Public?, failed := !source.Public?,
                   rcode := FinalCode(source, resp));
      o := Outcome(plan[..made], answers, pub, result, source, "");
      MissRule(world, t, plan, budget, order, retry, req, o, resp);
      MissCode(o, req, resp);
      FiledAs(rec, o);
    }

    /** The same, with the books brought up to all but the final filing. */
    method Carry(world: World, plan: seq<Endpoint>, budget: int, req: Bytes, proto: string)
      returns (resp: Option<Bytes>, rec: Stats.Record, ghost order: seq<string>, ghost o: Outcome)
      requires Parts() && Books() && budget <= |plan| && NoDup(plan) && forall e :: e in plan ==> e in pool.endpoints
      requires resolver.Safe()
      modifies pool.endpoints, world`tick, world`sent, resolver`rr, resolver.tracker
      ensures Parts() && BooksAhead(o) && Filed(rec, o) && rec.proto == proto && rec.qtype == QTypeOf(req)
      ensures order == old(resolver.NextOrder())
      ensures |o.publicAnswers| <= |order| && |o.tried| == |o.answers|
      ensures world.sent == old(world.sent) + Contacts(false, AddrsOf(o.tried), o.answers)
                            + Contacts(true, order[..|o.publicAnswers|], o.publicAnswers)
      ensures pool.Logs() == Reported(old(pool.Logs()), o.tried, o.answers, retry)
      ensures resolver.tracker.log
              == old(resolver.tracker.log) + Usage(order, |o.publicAnswers|, o.publicResult.Ok?)
      ensures resolver.tracker.windows == old(resolver.tracker.windows)
      ensures resolver.rr == NextPublic(old(resolver.rr), order, o)
      ensures o.source.Pihole? || world.tick >= old(world.tick) + 2 * |o.answers|
      ensures ForwardRule(world, old(world.tick), plan, budget, order, retry, req, o, resp)
    {
      hide Contacts, ForwardRule, P.Pool.Valid, Stats.Collector.Valid, Outage.Kept, Usage, Reported, P.Pool.Logs;
      hide RunOver, OwnedBy, AllFiled, Filed, Records, Tries, Fails, PublicCount, NoDup, Served, Rejected, NextPublic;
      ghost var logs, usage := pool.Logs(), resolver.tracker.log;
      pool.LogsCount();
      resp, rec, order, o := Pursue(world, plan, budget, req, proto);
      TriedFromPlan(world, old(world.tick), plan, budget, order, retry, req, o, resp);
      OutcomeShape(world, old(world.tick), plan, budget, order, retry, req, o, resp);
      pool.LogsCount();
      forall e | e in pool.endpoints
        ensures e.totalQueries == Tries(outcomes + [o], e) && e.totalFails == Fails(outcomes + [o], e)
      {
        CountsFollow(logs, outcomes, o, retry, e);
      }
      PublicSnoc(outcomes, o);
      UsageCounts(usage, order, |o.publicAnswers|, o.publicResult.Ok?);
      RunSnoc(outcomes, o, pool.endpoints, pool.upstreams);
    }

    /**
     Forwards one query.  The plan covers the pool as it stood, in the strategy's order; the budget
     follows from it; the outcome and the reply are those of the reference for the world at hand; the
     contacts are exactly those of the outcome, the first being with the strategy's choice; and the
     books balance again afterwards.
     */
    method Forward(world: World, rng: Rand, now: int, req: Bytes, proto: string)
      returns (resp: Option<Bytes>, ghost way: Way, ghost order: seq<string>, ghost rec: Stats.Record,
          ghost o: Outcome)
      requires Parts() && Books() && Indexable() && stats.NotBefore(now)
      modifies this`outcomes, pool`rr, pool.endpoints, rng`pos, world`tick, world`sent
      modifies stats, stats.minutes, stats.hours, resolver`rr, resolver.tracker
      ensures Parts() && Books() && outcomes == old(outcomes) + [o]
      ensures Filed(rec, o) && rec.proto == proto && rec.qtype == QTypeOf(req)
      ensures Routes(way, old(pool.Snapshot()), old(rng.Now()), maxAttempts, resolver.Enabled())
      ensures rng.Now() == Laid(way, old(pool.Snapshot()), old(rng.Now())).1
      ensures Opens(way, old(pool.Snapshot()), o.tried)
      ensures AttemptsFit(o, way, maxAttempts, resolver.Enabled(), |old(pool.Snapshot().Healthy())|,
                          world.CancelledAt(world.tick))
      ensures order == old(resolver.NextOrder())
      ensures |o.publicAnswers| <= |order| && |o.tried| == |o.answers|
      ensures Traced() == Extended(old(Traced()), old(pool.Snapshot()), order, retry, o, Stats.Entry(now, rec))
      ensures world.sent == old(world.sent) + Contacts(false, AddrsOf(o.tried), o.answers)
                            + Contacts(true, order[..|o.publicAnswers|], o.publicAnswers)
      ensures ForwardRule(world, old(world.tick), way.plan, way.budget, order, retry, req, o, resp)
    {
      hide Routes, Laid, WithinLimits, LimitReached, Opens, Contacts, ForwardRule, P.Pool.Valid, P.Pool.Logs;
      hide P.Pool.Snapshot, Parts, Books, BooksAhead,
           Filed, NoDup, SafeTurn, Reported, Usage, NextPublic, P.View.NextCount, HealthyOf;
      assert pool.Valid() by { SoundParts(); }
      var plan, budget, entry;
      plan, budget, way := Route(rng);
      resp, entry, order, o := Carry(world, plan, budget, req, proto);
      WayOpens(way, old(pool.Snapshot()), old(rng.Now()), maxAttempts, resolver.Enabled(), world, old(world.tick),
               order, retry, req, o, resp);
      File(now, entry, o);
      rec := entry;
    }

    /**
     Answers one client query, or drops it.  A datagram that is too short or is itself a response
     gets nothing and touches nothing.  Any other query is forwarded: its reply is the reference's,
     has a full header, the response bit and the client's id, and is missing exactly when nobody
     answered and the question cannot be read.
     */
    method Resolve(world: World, rng: Rand, now: int, req: Bytes, proto: string)
      returns (resp: Option<Bytes>, ghost way: Option<Way>, ghost o: Option<Outcome>, ghost rec: Stats.Record)
      requires Parts() && Books() && Indexable() && stats.NotBefore(now)
      modifies this`outcomes, pool`rr, pool.endpoints, rng`pos, world`tick, world`sent
      modifies stats, stats.minutes, stats.hours, resolver`rr, resolver.tracker
      ensures Parts() && Books()
      ensures o.None? <==> |req| < HEADER_LEN || req[2] >= 128
      ensures o.None? ==> && resp.None? && outcomes == old(outcomes) && Traced() == old(Traced())
                          && world.sent == old(world.sent) && world.tick == old(world.tick) && rng.pos == old(rng.pos)
      ensures o.Some? ==> && outcomes == old(outcomes) + [o.value]
                          && way.Some?
                          && Routes(way.value, old(pool.Snapshot()), old(rng.Now()), maxAttempts, resolver.Enabled())
                          && rng.Now() == Laid(way.value, old(pool.Snapshot()), old(rng.Now())).1
                          && AttemptsFit(o.value, way.value, maxAttempts, resolver.Enabled(),
                                         |old(pool.Snapshot().Healthy())|, world.CancelledAt(world.tick))
                          && ForwardRule(world, old(world.tick), way.value.plan, way.value.budget,
                                         old(resolver.NextOrder()), retry, req, o.value, resp)
                          && Opens(way.value, old(pool.Snapshot()), o.value.tried)
                          && |o.value.tried| == |o.value.answers|
                          && |o.value.publicAnswers| <= |old(resolver.NextOrder())|
                          && Filed(rec, o.value) && rec.proto == proto && rec.qtype == QTypeOf(req)
                          && Traced() == Extended(old(Traced()), old(pool.Snapshot()), old(resolver.NextOrder()), retry,
                                                  o.value, Stats.Entry(now, rec))
                          && world.sent == old(world.sent) + Contacts(false, AddrsOf(o.value.tried), o.value.answers)
                                           + Contacts(true, old(resolver.NextOrder())[..|o.value.publicAnswers|],
                                                      o.value.publicAnswers)
      ensures resp.Some? ==> |resp.value| >= HEADER_LEN && resp.value[2] >= 128 && ID(resp.value) == ID(req)
      ensures o.Some? ==> (resp.None? <==> o.value.source.Synthetic? && U16(req, 4) > 0 && ParseQuestion(req).Err?)
    {
      hide ForwardRule, IsPlan, Contacts, P.Pool.Valid, Stats.Collector.Valid, Outage.Kept, RunOver, OwnedBy,
           AllFiled, Tries, Fails, ParseQuestion, P.Chosen, HealthyOf, SafeTurn, FirstUp,
           Routes, Traced, Extended, Filed, Opens, Laid, AttemptsFit;
      rec := Stats.Record("", "", "", "", "", 0, false, false);
      var h := ParseHeader(req);
      if h.Err? || h.value.qr {
        return None, None, None, rec;
      }
      ghost var used, order, done;
      resp, used, order, rec, done := Forward(world, rng, now, req, proto);
      way, o := Some(used), Some(done);
      ReplyShape(world, old(world.tick), used.plan, used.budget, order, retry, req, done, resp);
    }
  }

  /** A query that finds no good answer among the Pi-holes turns the public servers on by one for the next one. */
  lemma PublicTurnsOn(tr: Trace, v: P.View, servers: seq<string>, half: Positive, retry: set<nat>, o: Outcome,
      entry: Stats.Entry)
    requires servers != [] && CounterFits(tr.publicCount + 1, half) && tr.publicCount + 1 < U64
    requires SafeTurn(tr.publicCount, |servers|, half) && !o.source.Pihole?
    requires |o.tried| == |o.answers| && |o.publicAnswers| <= |servers|
    ensures var order := Turn(servers, tr.publicCount, half);
            var next := Extended(tr, v, order, retry, o, entry).publicCount;
            SafeTurn(next, |servers|, half) && Turn(servers, next, half) == Rotate(order, 1)
  {
    hide Reported, Usage, Turn, SafeTurn, Rotate, P.View.NextCount;
    TurnsOn(servers, tr.publicCount, half);
    assert Turn(servers, tr.publicCount, half) != [];
    assert NextPublic(tr.publicCount, Turn(servers, tr.publicCount, half), o) == tr.publicCount + 1;
  }

  /** Under rotation, with several healthy upstreams, every query turns their order on by one for the next one. */
  lemma PoolTurnsOn(tr: Trace, v: P.View, order: seq<string>, retry: set<nat>, o: Outcome, entry: Stats.Entry)
    requires v.strategy == STRATEGY_ROUND_ROBIN && |v.Healthy()| >= 2
    requires CounterFits(v.rr + 1, v.half) && v.rr + 1 < U64
    requires |o.tried| == |o.answers| && |o.publicAnswers| <= |order|
    ensures var next := Extended(tr, v, order, retry, o, entry).poolCount;
            && SafeTurn(v.rr, |v.Healthy()|, v.half) && SafeTurn(next, |v.Healthy()|, v.half)
            && Turn(v.Healthy(), next, v.half) == Rotate(Turn(v.Healthy(), v.rr, v.half), 1)
  {
    hide Reported, Usage, HealthyOf, Turn, SafeTurn, Rotate, NextPublic;
    TurnsOn(v.Healthy(), v.rr, v.half);
  }

  lemma StillAnswered(log: seq<Outage.Event>, e: Outage.Event)
    requires !e.Used?
    ensures Outage.Answered(log + [e]) == Outage.Answered(log)
  {
    assert (log + [e])[..|log|] == log;
  }

  /** These are the answers the attempts get, up to the first good one, and that is the hit. */
  ghost predicate AskedAll(world: World, t: nat, budget: int, retry: set<nat>, req: Bytes, answers: seq<Answer>,
      hit: Option<Bytes>) {
    var asked := FromPool(world, t, budget, req);
    var k := FirstGood(asked, retry);
    answers == Through(asked, retry) && hit == if k < |asked| then Some(asked[k].bytes) else None
  }

  /** The points at which the attempts stop are those of the reference. */
  lemma AskStops(world: World, t: nat, budget: int, retry: set<nat>, req: Bytes, answers: seq<Answer>,
      hit: Option<Bytes>)
    requires |answers| <= Allowance(budget) && answers == Script(world.replies, req, t, |answers|)
    requires answers != [] ==> !world.CancelledAt(t + 2 * (|answers| - 1))
    requires forall i :: 0 <= i < |answers| - 1 ==> Rejected(answers[i], retry)
    requires if hit.Some? then
               && answers != [] && !Rejected(answers[|answers| - 1], retry)
               && hit == Some(answers[|answers| - 1].bytes)
             else
               && (answers != [] ==> Rejected(answers[|answers| - 1], retry))
               && (|answers| == Allowance(budget) || world.CancelledAt(t + 2 * |answers|))
    ensures AskedAll(world, t, budget, retry, req, answers, hit)
  {
    hide Heard, Validated, RCodeOf;
    world.OfferedThrough(req, t, Allowance(budget), retry, answers);
  }

  lemma GoodAnswer(world: World, t: nat, budget: int, retry: set<nat>, req: Bytes, answers: seq<Answer>,
      hit: Option<Bytes>)
    requires AskedAll(world, t, budget, retry, req, answers, hit) && hit.Some?
    ensures answers != [] && answers[|answers| - 1].Message? && hit == Some(answers[|answers| - 1].bytes)
  {
  }

  lemma HitRule(world: World, t: nat, plan: seq<Endpoint>, budget: int, order: seq<string>, retry: set<nat>,
      req: Bytes, o: Outcome, resp: Option<Bytes>)
    requires AskedAll(world, t, budget, retry, req, o.answers, resp) && resp.Some?
    requires budget <= |plan| && |o.answers| <= |plan| && o.tried == plan[..|o.answers|]
    requires o.source.Pihole? && o.publicAnswers == [] && o.publicResult.Err?
    ensures ForwardRule(world, t, plan, budget, order, retry, req, o, resp)
  {
    hide World.Offered;
  }

  lemma HitCode(o: Outcome, resp: Option<Bytes>)
    requires o.source.Pihole? && o.answers != [] && o.answers[|o.answers| - 1].Message?
    requires resp == Some(o.answers[|o.answers| - 1].bytes)
    ensures ReplyCode(o) == RCodeName(RCodeOf(resp.value))
  {
  }

  lemma MissCode(o: Outcome, req: Bytes, resp: Option<Bytes>)
    requires FallbackSource(o.answers, o.publicResult, req, o.source, resp)
    ensures ReplyCode(o) == FinalCode(o.source, resp)
    ensures !o.source.Pihole? && (o.source.Public? <==> o.publicResult.Ok?)
  {
    hide IsErrorResponse, Unanswerable, RCodeName, RCodeOf;
  }

  lemma MissRule(world: World, t: nat, plan: seq<Endpoint>, budget: int, order: seq<string>, retry: set<nat>,
      req: Bytes, o: Outcome, resp: Option<Bytes>)
    requires AskedAll(world, t, budget, retry, req, o.answers, None)
    requires budget <= |plan| && |o.answers| <= |plan| && o.tried == plan[..|o.answers|]
    requires var offered := world.Offered(req, Handover(t, |o.answers|, budget), |order|);
             o.publicAnswers == Through(offered, retry) && o.publicResult == PublicReply(order, offered, retry)
    requires FallbackSource(o.answers, o.publicResult, req, o.source, resp)
    ensures ForwardRule(world, t, plan, budget, order, retry, req, o, resp)
  {
    hide World.Offered, FallbackSource, PublicReply;
  }

  /** The first path tried is the strategy's choice. */
  lemma WayOpens(w: Way, v: P.View, dice: Dice, maxAttempts: int, enabled: bool, world: World, t: nat,
      order: seq<string>, retry: set<nat>, req: Bytes, o: Outcome, resp: Option<Bytes>)
    requires Routes(w, v, dice, maxAttempts, enabled)
    requires ForwardRule(world, t, w.plan, w.budget, order, retry, req, o, resp)
    ensures Opens(w, v, o.tried) && |o.tried| == |o.answers|
    ensures WithinLimits(|o.tried|, |w.plan|, maxAttempts, enabled, |v.Healthy()|)
    ensures o.source.Pihole? || LimitReached(|o.tried|, |w.plan|, maxAttempts, enabled, |v.Healthy()|)
            || world.CancelledAt(t + 2 * |o.tried|)
  {
    hide IsPlan, IsFirstUp, ForwardRule, Laid, P.Chosen, WithinLimits, LimitReached, Rejected;
    AttemptsMade(world, t, w.plan, maxAttempts, enabled, |v.Healthy()|, order, retry, req, o, resp);
    OutcomeShape(world, t, w.plan, w.budget, order, retry, req, o, resp);
    TriedPrefix(world, t, w.plan, w.budget, order, retry, req, o, resp);
    if w.ordered != [] {
      PlanOpens(w.plan, v.upstreams, w.ordered, w.cut, v.up, v.drained);
    }
  }

  lemma NoContacts(order: seq<string>)
    ensures Contacts(true, order[..0], []) == []
  {
  }

  lemma PublicSnoc(outs: seq<Outcome>, o: Outcome)
    ensures PublicCount(outs + [o]) == PublicCount(outs) + if o.source.Public? then 1 else 0
  {
    assert (outs + [o])[..|outs|] == outs;
  }

  lemma TriedFromPlan(world: World, t: nat, plan: seq<Endpoint>, budget: int, order: seq<string>, retry: set<nat>,
      req: Bytes, o: Outcome, resp: Option<Bytes>)
    requires NoDup(plan) && ForwardRule(world, t, plan, budget, order, retry, req, o, resp)
    ensures NoDup(o.tried) && forall e :: e in o.tried ==> e in plan
  {
  }

  lemma RunSnoc(outs: seq<Outcome>, o: Outcome, es: seq<Endpoint>, us: seq<Upstream>)
    requires RunOver(outs, es) && forall i :: 0 <= i < |outs| ==> OwnedBy(us, outs[i])
    requires NoDup(o.tried) && (forall e :: e in o.tried ==> e in es) && OwnedBy(us, o)
    ensures RunOver(outs + [o], es)
    ensures forall i :: 0 <= i < |outs + [o]| ==> OwnedBy(us, (outs + [o])[i])
  {
    hide OwnedBy;
  }

  lemma FiledAs(rec: Stats.Record, o: Outcome)
    requires rec.attempts == |o.tried| && rec.fallback == o.source.Public?
    requires rec.failed == (o.source.LastError? || o.source.Synthetic?)
    requires rec.upstream == (if o.source.Pihole? then o.owner else "") && (o.source.Pihole? ==> o.owner != "")
    requires rec.endpoint == ReplyPath(o) && rec.rcode == ReplyCode(o)
    ensures Filed(rec, o)
  {
  }

  lemma NamedOwner(us: seq<Upstream>, o: Outcome)
    requires o.tried != []
    requires exists i :: 0 <= i < |us| && us[i].name == o.owner && o.tried[|o.tried| - 1] in us[i].endpoints
    ensures OwnedBy(us, o)
  {
  }

  lemma FiledSnoc(log: seq<Stats.Entry>, outs: seq<Outcome>, e: Stats.Entry, o: Outcome)
    requires AllFiled(log, outs) && Filed(e.rec, o)
    ensures AllFiled(log + [e], outs + [o])
    ensures Records(log + [e]) == Records(log) + [e.rec]
  {
  }

  lemma NothingReported(logs: Logs, plan: seq<Endpoint>, retry: set<nat>)
    ensures Reported(logs, plan[..0], [], retry) == logs
  {
  }

  lemma NothingAsked(plan: seq<Endpoint>)
    ensures Contacts(false, AddrsOf(plan[..0]), []) == [] && LastMessage([]) == None
  {
  }

  lemma AskedOne(tried: seq<Endpoint>, answers: seq<Answer>, ep: Endpoint, a: Answer)
    requires |tried| == |answers|
    ensures Contacts(false, AddrsOf(tried + [ep]), answers + [a])
            == Contacts(false, AddrsOf(tried), answers) + [Contact(false, ep.addr, a)]
    ensures LastMessage(answers + [a]) == if a.Message? then Some(a.bytes) else LastMessage(answers)
  {
    assert AddrsOf(tried + [ep]) == AddrsOf(tried) + [ep.addr];
    ContactsSnoc(false, AddrsOf(tried), answers, ep.addr, a);
    assert (answers + [a])[..|answers|] == answers;
  }

  // ---------------------------------------------------------------- the ledger

  ghost function SumQueries(es: seq<Endpoint>): nat
    reads es
  {
    if es == [] then 0 else SumQueries(es[..|es| - 1]) + es[|es| - 1].totalQueries
  }

  /** Client queries minus failures, over some paths. */
  ghost function SumGood(es: seq<Endpoint>): int
    reads es
  {
    if es == [] then 0 else SumGood(es[..|es| - 1]) + es[|es| - 1].totalQueries - es[|es| - 1].totalFails
  }

  lemma {:induction false} SumsFollowOutcomes(es: seq<Endpoint>, outs: seq<Outcome>)
    requires forall e :: e in es ==> e.totalQueries == Tries(outs, e) && e.totalFails == Fails(outs, e)
    ensures SumQueries(es) == SumTries(outs, es) && SumGood(es) == SumServed(outs, es)
    decreases |es|
  {
    if es != [] {
      assert es[|es| - 1] in es;
      SumsFollowOutcomes(es[..|es| - 1], outs);
    }
  }

  function AnswersOf(m: map<string, Stats.NodeStat>, name: string): nat {
    if name in m then m[name].queries else 0
  }

  ghost function NamesOf(us: seq<Upstream>): seq<string> {
    seq(|us|, i requires 0 <= i < |us| => us[i].name)
  }

  ghost function SumAnswers(m: map<string, Stats.NodeStat>, names: seq<string>): nat {
    if names == [] then 0 else SumAnswers(m, names[..|names| - 1]) + AnswersOf(m, names[|names| - 1])
  }

  lemma AnswersAreNodes(m: map<string, Stats.NodeStat>, recs: seq<Stats.Record>, name: string)
    requires Stats.NodesOk(m, recs) && name != ""
    ensures AnswersOf(m, name) == Stats.NodeOf(recs, name).queries
  {
    if name !in m {
      Stats.SilentNode(recs, name);
    }
  }

  lemma {:induction false} SumAnswersIs(m: map<string, Stats.NodeStat>, recs: seq<Stats.Record>, names: seq<string>)
    requires Stats.NodesOk(m, recs) && "" !in names
    ensures SumAnswers(m, names) == SumNodes(recs, names)
    decreases |names|
  {
    if names != [] {
      assert names[|names| - 1] in names;
      SumAnswersIs(m, recs, names[..|names| - 1]);
      AnswersAreNodes(m, recs, names[|names| - 1]);
    }
  }

  lemma OwnersAreNames(log: seq<Stats.Entry>, outs: seq<Outcome>, us: seq<Upstream>)
    requires AllFiled(log, outs) && forall i :: 0 <= i < |outs| ==> OwnedBy(us, outs[i])
    ensures forall i :: 0 <= i < |log| ==> log[i].rec.upstream == "" || log[i].rec.upstream in NamesOf(us)
  {
    forall i | 0 <= i < |log| ensures log[i].rec.upstream == "" || log[i].rec.upstream in NamesOf(us) {
      assert Filed(log[i].rec, outs[i]) && OwnedBy(us, outs[i]);
      if outs[i].source.Pihole? {
        var j :| 0 <= j < |us| && us[j].name == outs[i].owner && outs[i].tried[|outs[i].tried| - 1] in us[j].endpoints;
        assert NamesOf(us)[j] == outs[i].owner;
      }
    }
  }

  /** Total = answers per Pi-hole + fallback + failed, and fallback is what the tracker saw answered. */
  lemma TotalsBalance(s: Server)
    requires s.Parts() && s.Books()
    ensures s.stats.total
            == SumAnswers(s.stats.byUpstream, NamesOf(s.pool.upstreams)) + s.stats.fallback + s.stats.failed
    ensures Outage.AnsweredSum(s.resolver.tracker.windows) + MapSum(s.resolver.tracker.perServer) == s.stats.fallback
  {
    hide P.Pool.Valid, Tries, Fails;
    var us, log := s.pool.upstreams, s.stats.log;
    RecordsBalance(log, s.outcomes);
    OwnersAreNames(log, s.outcomes, us);
    NodesBalance(log, NamesOf(us));
    SumAnswersIs(s.stats.byUpstream, s.stats.nodeLog, NamesOf(us));
  }

  /** Queries counted by the paths = retries + queries with at least one attempt. */
  lemma AttemptsBalance(s: Server)
    requires s.Parts() && s.Books()
    ensures SumQueries(s.pool.endpoints) == s.stats.retried + Attempted(s.stats.log)
  {
    hide Stats.IsTally, Stats.Describes, Stats.NodesOk, Outage.Kept;
    DisjointNoDup(s.pool.upstreams);
    SumsFollowOutcomes(s.pool.endpoints, s.outcomes);
    TriesBalance(s.outcomes, s.pool.endpoints);
    RecordsBalance(s.stats.log, s.outcomes);
  }

  /** Per Pi-hole, queries minus failures counted by its paths = answers filed under its name. */
  lemma AnswersBalance(s: Server, j: nat)
    requires s.Parts() && s.Books() && j < |s.pool.upstreams|
    ensures SumGood(s.pool.upstreams[j].endpoints) == AnswersOf(s.stats.byUpstream, s.pool.upstreams[j].name)
  {
    hide Stats.IsTally, Stats.Describes, Stats.NodesOk, Outage.Kept, Tries, Fails;
    var us := s.pool.upstreams;
    var es := us[j].endpoints;
    forall e | e in es ensures e in s.pool.endpoints {
      PathsMember(us, e);
    }
    SumsFollowOutcomes(es, s.outcomes);
    ServedBalance(s.outcomes, es);
    ServedIsNode(s.stats.log, s.outcomes, us, j);
    AnswersAreNodes(s.stats.byUpstream, s.stats.nodeLog, us[j].name);
  }
}
