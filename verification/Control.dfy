/**
 The manager: every change made through the management interface is validated, applied to the live
 pool or resolver, then saved; a save that fails is rolled back.

 Saving is an oracle: each call is told whether its write succeeds.
 */
module Control {
  import opened Basics
  import opened Config
  import opened Fallback
  import opened Plans
  import P = Pool
  import Health
  import Outage
  import Stats
  import opened Selection

  datatype ControlError = ReadOnly | Invalid(e: ConfigError) | Refused(p: P.PoolError) | SaveFailed

  /** The configuration a manager owns. */
  datatype Settings = Settings(upstreams: seq<UpstreamCfg>, strategy: string, enabled: bool, servers: seq<string>)

  /** What every configuration in force satisfies. */
  ghost predicate Sound(c: Settings) {
    && ValidUpstreams(c.upstreams) && ValidStrategy(c.strategy)
    && (c.enabled ==> c.servers != [] && NoDup(c.servers))
  }

  /** The servers a resolver should be using under a configuration. */
  ghost function InForce(c: Settings): seq<string> { if c.enabled then c.servers else [] }

  /** Rolled back, a removal ends up at the back of the list. */
  ghost function PutBack(us: seq<UpstreamCfg>, i: nat): seq<UpstreamCfg>
    requires i < |us|
  {
    Without(us, i) + [us[i]]
  }

  /**
   A rolled-back removal keeps the same upstreams, as a multiset; it keeps their order exactly when
   the one removed was the last.
   */
  lemma PutBackKeeps(us: seq<UpstreamCfg>, i: nat)
    requires i < |us| && ValidUpstreams(us)
    ensures multiset(PutBack(us, i)) == multiset(us)
    ensures PutBack(us, i) == us <==> i == |us| - 1
  {
    PutBackBag(us, i);
    hide Separate, WellFormed;
    if i < |us| - 1 {
      assert PutBack(us, i)[i] == us[i + 1];
      assert Separate(us[i], us[i + 1]);
      NeverSeparate(us[i]);
    } else {
      assert us == us[..i] + [us[i]];
    }
  }

  lemma PutBackBag(us: seq<UpstreamCfg>, i: nat)
    requires i < |us|
    ensures multiset(PutBack(us, i)) == multiset(us)
  {
    var p, x, q := us[..i], us[i], us[i + 1..];
    assert us == p + ([x] + q);
    SplitBag(p, x, q);
    assert multiset(p + q + [x]) == multiset(p + q) + multiset{x};
  }

  lemma NeverSeparate(u: UpstreamCfg)
    ensures !Separate(u, u)
  {
  }

  class Manager {
    const pool: P.Pool
    const resolver: Resolver
    const stats: Stats.Collector
    const norm: Normaliser
    const allowWrite: bool
    const persist: bool
    var cfg: Settings

    /** Configuration, live pool and live resolver agree. */
    ghost predicate Agree()
      reads this`cfg, pool, pool.upstreams, pool.endpoints, resolver, stats, stats.minutes, stats.hours
    {
      && pool.Valid() && stats.Valid()
      && Sound(cfg)
      && cfg.upstreams == pool.Cfg()
      && cfg.strategy == pool.strategy
      && resolver.servers == InForce(cfg)
    }

    /** What changes act on: the configuration, and the names of the drained Pi-holes. */
    ghost function State(): Live
      reads this`cfg, pool`upstreams, pool.upstreams
    {
      Live(cfg, NamesIn(pool.Drained()))
    }

    constructor (cfg: Settings, pool: P.Pool, resolver: Resolver, stats: Stats.Collector, norm: Normaliser,
        allowWrite: bool, persist: bool)
      requires Sound(cfg) && pool.Valid() && stats.Valid()
      requires cfg.upstreams == pool.Cfg() && cfg.strategy == pool.strategy && resolver.servers == InForce(cfg)
      ensures Agree() && this.cfg == cfg && this.pool == pool && this.resolver == resolver && this.stats == stats
      ensures this.norm == norm && this.allowWrite == allowWrite && this.persist == persist
    {
      this.cfg, this.pool, this.resolver, this.stats := cfg, pool, resolver, stats;
      this.norm, this.allowWrite, this.persist := norm, allowWrite, persist;
    }

    /** Brings a new Pi-hole into rotation; on a failed save everything is as before. */
    method AddUpstream(u: UpstreamCfg, saves: bool) returns (r: Result<(), ControlError>)
      requires Agree()
      modifies this`cfg, pool`upstreams, pool`endpoints
      ensures Agree()
      ensures r.Ok? <==> && allowWrite && Preparable(u, norm)
                         && !Clashes(old(cfg.upstreams), Fill(u, TrimSpace(u.name), norm)) && (persist ==> saves)
      ensures r.Ok? ==> cfg == old(cfg).(upstreams := old(cfg.upstreams) + [Fill(u, TrimSpace(u.name), norm)])
      ensures r.Err? ==> cfg == old(cfg) && pool.upstreams == old(pool.upstreams)
      ensures r.Ok? ==> |pool.upstreams| > 0 && Blank(pool.upstreams[|pool.upstreams| - 1])
                        && pool.upstreams == old(pool.upstreams) + [pool.upstreams[|pool.upstreams| - 1]]
                        && fresh(pool.upstreams[|pool.upstreams| - 1].endpoints)
      ensures forall u :: u in pool.upstreams ==> u in old(pool.upstreams) || fresh(u)
      ensures pool.Drained() == old(pool.Drained())
    {
      hide P.Pool.Valid, Preparable, ValidUpstreams, WellFormed, Clashes, Fill, TrimSpace, Stats.Collector.Valid;
      if !allowWrite {
        return Err(ReadOnly);
      }
      var clean := PrepareUpstream(u, norm);
      if clean.Err? {
        return Err(Invalid(clean.error));
      }
      var added := pool.Add(clean.value);
      if added.Err? {
        return Err(Refused(added.error));
      }
      ghost var before := old(cfg.upstreams);
      cfg := cfg.(upstreams := cfg.upstreams + [clean.value]);
      if persist && !saves {
        UndoAdd(before, clean.value, old(pool.upstreams), added.value);
        return Err(SaveFailed);
      }
      return Ok(());
    }

    /** The rollback of an addition: the removal finds the upstream just added and is never refused. */
    method UndoAdd(ghost before: seq<UpstreamCfg>, clean: UpstreamCfg, ghost us: seq<Upstream>, ghost u: Upstream)
      requires pool.Valid() && ValidUpstreams(before) && before == CfgsOf(us) && !Clashes(before, clean)
      requires pool.upstreams == us + [u] && pool.Cfg() == before + [clean] && cfg.upstreams == before + [clean]
      modifies this`cfg, pool`upstreams, pool`endpoints
      ensures pool.Valid() && pool.upstreams == us && cfg == old(cfg).(upstreams := before)
    {
      hide P.Pool.Valid, ValidUpstreams, Clashes;
      assert CfgOf(u) == pool.Cfg()[|before|];
      LastAdded(before, clean, us, u);
      var undone := pool.Remove(clean.name);
      assert undone == Ok(|us|);
      cfg := cfg.(upstreams := cfg.upstreams[..|cfg.upstreams| - 1]);
    }

    /**
     Takes a Pi-hole out.  On a failed save it is put back at the end, in the configuration and in
     the pool alike; the restoring addition cannot be refused.  What is put back is a new object: down,
     undrained and with nothing reported, whatever the old one's state was.
     */
    method RemoveUpstream(name: string, saves: bool) returns (r: Result<(), ControlError>, ghost idx: nat)
      requires Agree()
      modifies this`cfg, pool`upstreams, pool`endpoints, stats`byUpstream, stats`nodeLog
      ensures Agree()
      ensures r.Ok? <==> && allowWrite && Named(old(cfg.upstreams), name) && |old(cfg.upstreams)| != 1
                         && (persist ==> saves)
      ensures !allowWrite ==> r == Err(ReadOnly)
      ensures r == Err(SaveFailed) <==> && allowWrite && Named(old(cfg.upstreams), name) && |old(cfg.upstreams)| != 1
                                        && persist && !saves
      ensures r.Ok? || r == Err(SaveFailed) ==> && idx < |old(cfg.upstreams)| && old(cfg.upstreams)[idx].name == name
                                                && idx == Position(old(cfg.upstreams), name)
      ensures r.Ok? ==> && cfg == old(cfg).(upstreams := Without(old(cfg.upstreams), idx))
                        && pool.upstreams == Without(old(pool.upstreams), idx)
                        && stats.byUpstream == old(stats.byUpstream) - {name}
      ensures r.Err? ==> stats.byUpstream == old(stats.byUpstream)
      ensures r == Err(SaveFailed) ==>
                && cfg == old(cfg).(upstreams := PutBack(old(cfg.upstreams), idx))
                && |pool.upstreams| > 0
                && (var restored := pool.upstreams[|pool.upstreams| - 1];
                    && pool.upstreams == Without(old(pool.upstreams), idx) + [restored]
                    && fresh(restored) && fresh(restored.endpoints) && Blank(restored))
      ensures r.Err? && r != Err(SaveFailed) ==> cfg == old(cfg) && pool.upstreams == old(pool.upstreams)
      ensures forall u :: u in pool.upstreams ==> u in old(pool.upstreams) || fresh(u)
      ensures NamesIn(pool.Drained())
              == if r.Ok? || r == Err(SaveFailed) then NamesIn(old(pool.Drained())) - {name}
                 else NamesIn(old(pool.Drained()))
    {
      hide P.Pool.Valid, Clashes, Stats.Collector.Valid, Without, CfgsOf, Blank, Sound, Named, InForce, ValidUpstreams,
           NamesIn, P.Pool.Drained;
      idx := 0;
      if !allowWrite {
        return Err(ReadOnly), idx;
      }
      var i := IndexOfName(cfg.upstreams, name);
      if i < 0 {
        return Err(Refused(P.NotFound)), idx;
      }
      idx := i;
      var removed := cfg.upstreams[i];
      DrainedNames(i, name);
      var refusal := TakeOut(i);
      if refusal.Some? {
        return Err(Refused(refusal.value)), idx;
      }
      if persist && !saves {
        ghost var restored := UndoRemove(removed);
        return Err(SaveFailed), idx;
      }
      stats.ForgetUpstream(name);
      return Ok(()), idx;
    }

    /** Without the one upstream of that name, its name is gone from the drained ones too. */
    lemma DrainedNames(i: nat, name: string)
      requires Agree() && i < |cfg.upstreams| && cfg.upstreams[i].name == name
      ensures NamesIn(pool.Drained() - {pool.upstreams[i]}) == NamesIn(pool.Drained()) - {name}
    {
      hide P.Pool.Valid, Stats.Collector.Valid, ValidUpstreams;
      var us := pool.upstreams;
      assert us[i].name == name;
      NamedOnce(us, name);
      forall n | n in NamesIn(pool.Drained()) - {name} ensures n in NamesIn(pool.Drained() - {us[i]}) {
        var u :| u in pool.Drained() && u.name == n;
        assert u in pool.Drained() - {us[i]};
      }
    }

    /** The removal itself, from the pool and the configuration; only the last upstream is refused. */
    method TakeOut(i: nat) returns (refusal: Option<P.PoolError>)
      requires Agree() && i < |cfg.upstreams|
      requires forall k :: 0 <= k < i ==> cfg.upstreams[k].name != cfg.upstreams[i].name
      modifies this`cfg, pool`upstreams, pool`endpoints
      ensures Agree()
      ensures refusal.Some? <==> |old(cfg.upstreams)| == 1
      ensures refusal.Some? ==> cfg == old(cfg) && pool.upstreams == old(pool.upstreams)
      ensures refusal.None? ==> && cfg == old(cfg).(upstreams := Without(old(cfg.upstreams), i))
                                && pool.upstreams == Without(old(pool.upstreams), i)
                                && !Clashes(cfg.upstreams, old(cfg.upstreams)[i])
                                && ValidUpstreams(cfg.upstreams + [old(cfg.upstreams)[i]])
                                && pool.Drained() == old(pool.Drained()) - {old(pool.upstreams)[i]}
    {
      hide P.Pool.Valid, ValidUpstreams, WellFormed, Clashes, Stats.Collector.Valid, Without, CfgOf, CfgsOf,
           ValidStrategy;
      SameIndex(pool.upstreams, cfg.upstreams[i].name, i);
      ghost var us := pool.upstreams;
      assert forall u :: u in Without(us, i) <==> u in us && u != us[i] by { OthersRemain(i); }
      var gone := pool.Remove(cfg.upstreams[i].name);
      if gone.Err? {
        return Some(gone.error);
      }
      RemoveKeepsValid(cfg.upstreams, i);
      cfg := cfg.(upstreams := Without(cfg.upstreams, i));
      return None;
    }

    lemma OthersRemain(i: nat)
      requires pool.Valid() && i < |pool.upstreams|
      ensures forall u :: u in Without(pool.upstreams, i) <==> u in pool.upstreams && u != pool.upstreams[i]
    {
      var us := pool.upstreams;
      var w := Without(us, i);
      forall u | u in us && u != us[i] ensures u in w {
        var k :| 0 <= k < |us| && us[k] == u;
        assert w[if k < i then k else k - 1] == u;
      }
    }

    /** The rollback of a removal: the addition is never refused. */
    method UndoRemove(removed: UpstreamCfg) returns (ghost restored: Upstream)
      requires Agree() && !Clashes(cfg.upstreams, removed) && ValidUpstreams(cfg.upstreams + [removed])
      modifies this`cfg, pool`upstreams, pool`endpoints
      ensures Agree()
      ensures cfg == old(cfg).(upstreams := old(cfg.upstreams) + [removed])
      ensures pool.upstreams == old(pool.upstreams) + [restored]
      ensures fresh(restored) && fresh(restored.endpoints) && Blank(restored)
      ensures pool.Drained() == old(pool.Drained())
    {
      hide P.Pool.Valid, Clashes, ValidUpstreams, Stats.Collector.Valid, ValidStrategy;
      var added := pool.Add(removed);
      assert added.Ok?;
      restored := added.value;
      cfg := cfg.(upstreams := cfg.upstreams + [removed]);
    }

    /** Changes the strategy; a failed save restores the previous one, which is always accepted. */
    method SetStrategy(name: string, saves: bool) returns (r: Result<(), ControlError>)
      requires Agree()
      modifies this`cfg, pool`strategy
      ensures Agree()
      ensures r.Ok? <==> allowWrite && ValidStrategy(name) && (persist ==> saves)
      ensures cfg == if r.Ok? then old(cfg).(strategy := name) else old(cfg)
    {
      hide P.Pool.Valid, ValidUpstreams, Stats.Collector.Valid;
      if !allowWrite {
        return Err(ReadOnly);
      }
      var previous := cfg.strategy;
      var changed := pool.SetStrategy(name);
      if changed.Err? {
        return Err(Refused(changed.error));
      }
      cfg := cfg.(strategy := name);
      if persist && !saves {
        var undone := pool.SetStrategy(previous);
        assert undone.Ok?;
        cfg := cfg.(strategy := previous);
        return Err(SaveFailed);
      }
      return Ok(());
    }

    /** Replaces the public resolvers; a failed save restores the previous ones. */
    method SetFallback(enabled: bool, servers: seq<string>, saves: bool) returns (r: Result<(), ControlError>)
      requires Agree()
      modifies this`cfg, resolver`servers
      ensures Agree()
      ensures r.Ok? <==> && allowWrite && CleanServers(servers, norm).Ok? && (enabled ==> servers != [])
                         && (persist ==> saves)
      ensures cfg == if r.Ok? then old(cfg).(enabled := enabled, servers := CleanServers(servers, norm).value)
                     else old(cfg)
    {
      hide P.Pool.Valid, ValidUpstreams, Stats.Collector.Valid;
      if !allowWrite {
        return Err(ReadOnly);
      }
      var clean := NormaliseServers(servers, norm);
      if clean.Err? {
        return Err(Invalid(clean.error));
      }
      if enabled && |clean.value| == 0 {
        return Err(Invalid(NoResolver));
      }
      var prevEnabled, prevServers := cfg.enabled, cfg.servers;
      resolver.SetServers(enabled, clean.value);
      cfg := cfg.(enabled := enabled, servers := clean.value);
      if persist && !saves {
        resolver.SetServers(prevEnabled, prevServers);
        cfg := cfg.(enabled := prevEnabled, servers := prevServers);
        return Err(SaveFailed);
      }
      return Ok(());
    }

    /** Sets the drain flag of the Pi-hole of that name; it touches the live pool only. */
    method SetDrained(name: string, drained: bool) returns (r: Result<(), ControlError>)
      requires Agree()
      modifies pool.upstreams
      ensures Agree()
      ensures r.Ok? <==> allowWrite && Named(cfg.upstreams, name)
      ensures r.Ok? ==> exists u :: u in pool.upstreams && u.name == name && u.drained == drained
      ensures forall u :: u in pool.upstreams ==>
                u.drained == if r.Ok? && u.name == name then drained else old(u.drained)
      ensures NamesIn(pool.Drained())
              == if r.Err? then NamesIn(old(pool.Drained()))
                 else if drained then NamesIn(old(pool.Drained())) + {name} else NamesIn(old(pool.Drained())) - {name}
    {
      hide P.Pool.Valid, ValidUpstreams, Stats.Collector.Valid, Named;
      NamedOnce(pool.upstreams, name);
      if !allowWrite {
        return Err(ReadOnly);
      }
      var u := pool.Lookup(name);
      NamedInPool(pool.upstreams, name);
      if u.None? {
        return Err(Refused(P.NotFound));
      }
      u.value.drained := drained;
      return Ok(());
    }
  }

  /** Nothing has been reported about this upstream, and it is not drained. */
  ghost predicate Blank(u: Upstream)
    reads u, u.endpoints
  {
    !u.drained && forall e :: e in u.endpoints ==> e.Pristine()
  }

  datatype Change =
    | AddOne(u: UpstreamCfg)
    | RemoveOne(name: string)
    | DrainOne(name: string, drained: bool)
    | Strategy(name: string)
    | Servers(enabled: bool, servers: seq<string>)

  /** The manager's state, as far as changes act on it. */
  datatype Live = Live(cfg: Settings, drained: set<string>)

  ghost function NamesIn(us: set<Upstream>): set<string> {
    set u | u in us :: u.name
  }

  /** What a change makes of the state, given the fate of its save. */
  ghost function Applied(l: Live, change: Change, saves: bool, norm: Normaliser, allowWrite: bool,
      persist: bool): Live {
    var us, kept := l.cfg.upstreams, persist ==> saves;
    if !allowWrite then l
    else
      match change
      case AddOne(u) =>
        if kept && Preparable(u, norm) && !Clashes(us, Fill(u, TrimSpace(u.name), norm))
        then l.(cfg := l.cfg.(upstreams := us + [Fill(u, TrimSpace(u.name), norm)])) else l
      case RemoveOne(name) =>
        var i := Position(us, name);
        if i == |us| || |us| == 1 then l
        else Live(l.cfg.(upstreams := if kept then Without(us, i) else PutBack(us, i)), l.drained - {name})
      case DrainOne(name, drained) =>
        if !Named(us, name) then l
        else l.(drained := if drained then l.drained + {name} else l.drained - {name})
      case Strategy(name) =>
        if kept && ValidStrategy(name) then l.(cfg := l.cfg.(strategy := name)) else l
      case Servers(enabled, servers) =>
        if kept && CleanServers(servers, norm).Ok? && (enabled ==> servers != [])
        then l.(cfg := l.cfg.(enabled := enabled, servers := CleanServers(servers, norm).value)) else l
  }

  ghost function LiveAfter(l: Live, changes: seq<(Change, bool)>, norm: Normaliser, allowWrite: bool,
      persist: bool): Live {
    if changes == [] then l
    else
      var p, c := changes[..|changes| - 1], changes[|changes| - 1];
      Applied(LiveAfter(l, p, norm, allowWrite, persist), c.0, c.1, norm, allowWrite, persist)
  }

  lemma LiveSnoc(l: Live, changes: seq<(Change, bool)>, c: (Change, bool), norm: Normaliser, allowWrite: bool,
      persist: bool)
    ensures LiveAfter(l, changes + [c], norm, allowWrite, persist)
            == Applied(LiveAfter(l, changes, norm, allowWrite, persist), c.0, c.1, norm, allowWrite, persist)
  {
    assert (changes + [c])[..|changes|] == changes;
  }

  /** Upstreams a change brings in, and those it takes out for good. */
  ghost function Gained(l: Live, change: Change, saves: bool, norm: Normaliser, allowWrite: bool,
      persist: bool): multiset<UpstreamCfg> {
    if && change.AddOne? && allowWrite && (persist ==> saves) && Preparable(change.u, norm)
       && !Clashes(l.cfg.upstreams, Fill(change.u, TrimSpace(change.u.name), norm))
    then multiset{Fill(change.u, TrimSpace(change.u.name), norm)} else multiset{}
  }

  ghost function Gone(l: Live, change: Change, saves: bool, allowWrite: bool, persist: bool): multiset<UpstreamCfg> {
    if && change.RemoveOne? && allowWrite && (persist ==> saves)
       && |l.cfg.upstreams| != 1 && Named(l.cfg.upstreams, change.name)
    then multiset{l.cfg.upstreams[Position(l.cfg.upstreams, change.name)]} else multiset{}
  }

  /** One change accounts for the upstreams: what was there and came in is there still or has gone. */
  lemma AppliedAccounts(l: Live, change: Change, saves: bool, norm: Normaliser, allowWrite: bool, persist: bool)
    ensures var l' := Applied(l, change, saves, norm, allowWrite, persist);
            multiset(l'.cfg.upstreams) + Gone(l, change, saves, allowWrite, persist)
            == multiset(l.cfg.upstreams) + Gained(l, change, saves, norm, allowWrite, persist)
  {
    hide Preparable, Clashes, Fill, TrimSpace, Named, CleanServers, ValidStrategy, Position;
    var us := l.cfg.upstreams;
    if change.RemoveOne? && Position(us, change.name) < |us| && |us| != 1 {
      var i := Position(us, change.name);
      PutBackBag(us, i);
      hide Without;
      assert multiset(PutBack(us, i)) == multiset(Without(us, i)) + multiset{us[i]};
    }
  }

  ghost function AllGained(l: Live, changes: seq<(Change, bool)>, norm: Normaliser, allowWrite: bool,
      persist: bool): multiset<UpstreamCfg> {
    if changes == [] then multiset{}
    else
      var p, c := changes[..|changes| - 1], changes[|changes| - 1];
      AllGained(l, p, norm, allowWrite, persist)
      + Gained(LiveAfter(l, p, norm, allowWrite, persist), c.0, c.1, norm, allowWrite, persist)
  }

  ghost function AllGone(l: Live, changes: seq<(Change, bool)>, norm: Normaliser, allowWrite: bool,
      persist: bool): multiset<UpstreamCfg> {
    if changes == [] then multiset{}
    else
      var p, c := changes[..|changes| - 1], changes[|changes| - 1];
      AllGone(l, p, norm, allowWrite, persist)
      + Gone(LiveAfter(l, p, norm, allowWrite, persist), c.0, c.1, allowWrite, persist)
  }

  /** Conservation over a run: upstreams present and gained are those still present and gone, each as often. */
  lemma {:induction false} RunAccounts(l: Live, changes: seq<(Change, bool)>, norm: Normaliser, allowWrite: bool,
      persist: bool)
    ensures multiset(LiveAfter(l, changes, norm, allowWrite, persist).cfg.upstreams)
            + AllGone(l, changes, norm, allowWrite, persist)
            == multiset(l.cfg.upstreams) + AllGained(l, changes, norm, allowWrite, persist)
    decreases |changes|
  {
    hide Applied, Gained, Gone;
    if changes != [] {
      var p, c := changes[..|changes| - 1], changes[|changes| - 1];
      RunAccounts(l, p, norm, allowWrite, persist);
      var q := LiveAfter(l, p, norm, allowWrite, persist);
      AppliedAccounts(q, c.0, c.1, norm, allowWrite, persist);
      BagsChain(multiset(l.cfg.upstreams), multiset(q.cfg.upstreams),
                multiset(LiveAfter(l, changes, norm, allowWrite, persist).cfg.upstreams),
                AllGone(l, p, norm, allowWrite, persist), Gone(q, c.0, c.1, allowWrite, persist),
                AllGained(l, p, norm, allowWrite, persist), Gained(q, c.0, c.1, norm, allowWrite, persist));
    }
  }

  lemma BagsChain<T>(a: multiset<T>, b: multiset<T>, c: multiset<T>, out: multiset<T>, out': multiset<T>,
      come: multiset<T>, come': multiset<T>)
    requires b + out == a + come && c + out' == b + come'
    ensures c + (out + out') == a + (come + come')
  {
    assert c + (out + out') == b + come' + out == b + out + come';
  }

  /** If no save succeeds, a run changes nothing in the configuration but the order of the upstreams. */
  lemma {:induction false} FailedSavesKeepAll(l: Live, changes: seq<(Change, bool)>, norm: Normaliser,
      allowWrite: bool)
    requires forall i :: 0 <= i < |changes| ==> !changes[i].1
    ensures var l' := LiveAfter(l, changes, norm, allowWrite, true);
            && multiset(l'.cfg.upstreams) == multiset(l.cfg.upstreams)
            && l'.cfg == l.cfg.(upstreams := l'.cfg.upstreams)
    decreases |changes|
  {
    hide Applied, Gained, Gone;
    if changes != [] {
      var p, c := changes[..|changes| - 1], changes[|changes| - 1];
      FailedSavesKeepAll(l, p, norm, allowWrite);
      FailedSaveKeeps(LiveAfter(l, p, norm, allowWrite, true), c.0, norm, allowWrite);
      assert !c.1;
    }
  }

  lemma FailedSaveKeeps(l: Live, change: Change, norm: Normaliser, allowWrite: bool)
    ensures var l' := Applied(l, change, false, norm, allowWrite, true);
            && multiset(l'.cfg.upstreams) == multiset(l.cfg.upstreams)
            && l'.cfg == l.cfg.(upstreams := l'.cfg.upstreams)
  {
    AppliedAccounts(l, change, false, norm, allowWrite, true);
    var bag := multiset(l.cfg.upstreams);
    assert bag + multiset{} == bag;
    hide PutBack, Without, Preparable, Clashes, Fill;
  }

  /** Every change keeps the configuration one that may be in force. */
  lemma AppliedKeepsSound(l: Live, change: Change, saves: bool, norm: Normaliser, allowWrite: bool, persist: bool)
    requires Sound(l.cfg)
    ensures Sound(Applied(l, change, saves, norm, allowWrite, persist).cfg)
  {
    hide ValidUpstreams, Clashes, TrimSpace, Named, CleanServers, ValidStrategy, Without, Fill;
    var us := l.cfg.upstreams;
    match change
    case AddOne(u) =>
      if Preparable(u, norm) && !Clashes(us, Fill(u, TrimSpace(u.name), norm)) {
        PreparedWellFormed(u, norm);
        AddKeepsValid(us, Fill(u, TrimSpace(u.name), norm));
      }
    case RemoveOne(name) =>
      var i := Position(us, name);
      if i < |us| && |us| != 1 {
        RemoveKeepsValid(us, i);
      }
    case Servers(_, servers) =>
      if CleanServers(servers, norm).Ok? {
        CleanServersDistinct(servers, norm);
      }
    case _ =>
  }

  lemma PreparedWellFormed(u: UpstreamCfg, norm: Normaliser)
    requires Preparable(u, norm)
    ensures WellFormed(Fill(u, TrimSpace(u.name), norm))
  {
  }

  /**
   Any run of changes, each with its own fate at saving, has exactly the effect of the changes applied
   one after another, and leaves everything in agreement; in read-only mode it changes nothing.
   */
  method Run(m: Manager, changes: seq<(Change, bool)>)
    requires m.Agree()
    modifies m`cfg, m.pool`upstreams, m.pool`endpoints, m.pool`strategy, m.pool.upstreams
    modifies m.resolver`servers, m.stats`byUpstream, m.stats`nodeLog
    ensures m.Agree()
    ensures m.State() == LiveAfter(old(m.State()), changes, m.norm, m.allowWrite, m.persist)
    ensures !m.allowWrite ==> && m.cfg == old(m.cfg) && m.pool.upstreams == old(m.pool.upstreams)
                              && forall u :: u in m.pool.upstreams ==> u.drained == old(u.drained)
  {
    hide Manager.Agree, Manager.State, Applied, LiveAfter;
    ghost var start := m.State();
    NoChanges(start, m);
    assert changes[..0] == [];
    for i := 0 to |changes|
      invariant m.Agree()
      invariant m.State() == LiveAfter(start, changes[..i], m.norm, m.allowWrite, m.persist)
      invariant forall u :: u in m.pool.upstreams ==> u in old(m.pool.upstreams) || fresh(u)
      invariant !m.allowWrite ==> && m.cfg == old(m.cfg) && m.pool.upstreams == old(m.pool.upstreams)
                                  && forall u :: u in m.pool.upstreams ==> u.drained == old(u.drained)
    {
      LiveSnoc(start, changes[..i], changes[i], m.norm, m.allowWrite, m.persist);
      assert changes[..i + 1] == changes[..i] + [changes[i]];
      assert forall k :: 0 <= k < |m.pool.upstreams| ==> m.pool.upstreams[k] in m.pool.upstreams;
      Apply(m, changes[i].0, changes[i].1);
    }
    assert changes[..|changes|] == changes;
  }

  lemma NoChanges(l: Live, m: Manager)
    ensures LiveAfter(l, [], m.norm, m.allowWrite, m.persist) == l
  {
  }

  /** The list is as it was, with nothing but upstreams about which nothing is known appended. */
  ghost predicate Grown(before: seq<Upstream>, now: seq<Upstream>)
    reads set u, e | u in now && e in u.endpoints :: e
  {
    && |before| <= |now| && now[..|before|] == before
    && forall i, e :: |before| <= i < |now| && e in now[i].endpoints ==> e.Pristine()
  }

  lemma GrowsByOne(us: seq<Upstream>, u: Upstream)
    requires Blank(u)
    ensures Grown(us, us + [u])
  {
  }

  /** One change through the manager. */
  method Apply(m: Manager, change: Change, saves: bool)
    requires m.Agree()
    modifies m`cfg, m.pool`upstreams, m.pool`endpoints, m.pool`strategy, m.pool.upstreams
    modifies m.resolver`servers, m.stats`byUpstream, m.stats`nodeLog
    ensures m.Agree()
    ensures m.State() == Applied(old(m.State()), change, saves, m.norm, m.allowWrite, m.persist)
    ensures forall u :: u in m.pool.upstreams ==> u in old(m.pool.upstreams) || fresh(u)
    ensures !change.RemoveOne? ==> Grown(old(m.pool.upstreams), m.pool.upstreams)
    ensures !change.RemoveOne? ==>
              forall i, e :: |old(m.pool.upstreams)| <= i < |m.pool.upstreams| && e in m.pool.upstreams[i].endpoints ==>
                fresh(e)
    ensures !change.RemoveOne? ==>
              m.stats.byUpstream == old(m.stats.byUpstream) && m.stats.nodeLog == old(m.stats.nodeLog)
    ensures !m.allowWrite ==> && m.cfg == old(m.cfg) && m.pool.upstreams == old(m.pool.upstreams)
                              && forall u :: u in m.pool.upstreams ==> u.drained == old(u.drained)
  {
    hide Manager.Agree, Preparable, Clashes, Fill, TrimSpace, Named, CleanServers, PutBack, Without, Blank,
         ValidStrategy, NamesIn;
    ghost var us := m.pool.upstreams;
    match change {
      case AddOne(u) =>
        var r := m.AddUpstream(u, saves);
        if r.Ok? {
          GrowsByOne(us, m.pool.upstreams[|us|]);
        }
      case RemoveOne(name) => var _, _ := m.RemoveUpstream(name, saves);
      case DrainOne(name, drained) => var _ := m.SetDrained(name, drained);
      case Strategy(name) => var _ := m.SetStrategy(name, saves);
      case Servers(enabled, servers) => var _ := m.SetFallback(enabled, servers, saves);
    }
  }

  /**
   While the configuration has fallback off, no public server hears of any query; while it is on, there
   is at least one to ask, and they are those configured, each once.
   */
  lemma FallbackFollowsConfig(m: Manager)
    requires m.Agree()
    ensures m.resolver.Enabled() <==> m.cfg.enabled
    ensures !m.cfg.enabled && m.resolver.Safe() ==> m.resolver.NextOrder() == []
    ensures m.cfg.enabled && m.resolver.Safe() ==>
              NoDup(m.resolver.servers) && multiset(m.resolver.NextOrder()) == multiset(m.cfg.servers)
  {
    hide P.Pool.Valid, Stats.Collector.Valid, ValidUpstreams, NoDup;
    if m.cfg.enabled && m.resolver.Safe() {
      RotatePermutes(m.resolver.servers, RotationStart(m.resolver.rr, |m.resolver.servers|, m.resolver.half));
    }
  }

  /** Nothing has happened yet. */
  ghost predicate Idle(m: Manager)
    reads m.pool`upstreams, m.pool`endpoints, m.pool.upstreams, m.pool.endpoints
    reads m.stats`log, m.stats`nodeLog, m.resolver.tracker
  {
    && (forall e :: e in m.pool.endpoints ==> e.Pristine()) && m.pool.Drained() == {}
    && m.stats.log == [] && m.stats.nodeLog == []
    && m.resolver.tracker.Valid() && m.resolver.tracker.log == [] && m.resolver.tracker.windows == []
  }

  /** What a configuration file says, as far as the manager is concerned. */
  datatype File = File(upstreams: seq<UpstreamCfg>, strategy: string, thresholds: Health.Thresholds, enabled: bool,
                       servers: seq<string>)

  /** The settings a file leads to, with defaults filled in; its first fault decides the refusal. */
  ghost predicate Usable(f: File, norm: Normaliser) {
    && ValidStrategy(f.strategy) && f.thresholds.Valid()
    && (f.enabled ==> f.servers != [] && CleanServers(f.servers, norm).Ok?)
    && Accepted(f.upstreams, norm)
  }

  ghost function SettingsOf(f: File, norm: Normaliser): Settings
    requires Usable(f, norm)
  {
    Settings(FillAll(f.upstreams, norm), f.strategy, f.enabled,
             if f.enabled then CleanServers(f.servers, norm).value else f.servers)
  }

  /** Resolver addresses are checked and normalised only when they are going to be used. */
  method FileServers(f: File, norm: Normaliser) returns (r: Result<seq<string>, ConfigError>)
    ensures r.Ok? <==> (f.enabled ==> f.servers != [] && CleanServers(f.servers, norm).Ok?)
    ensures r.Ok? ==> r.value == if f.enabled then CleanServers(f.servers, norm).value else f.servers
    ensures r.Err? ==> r == if f.servers == [] then Err(NoResolver) else CleanServers(f.servers, norm)
    ensures r.Ok? && f.enabled ==> r.value != [] && NoDup(r.value)
  {
    if !f.enabled {
      return Ok(f.servers);
    }
    if |f.servers| == 0 {
      return Err(NoResolver);
    }
    r := NormaliseServers(f.servers, norm);
  }

  /**
   Wires a balancer from a configuration file.  Exactly the usable files are accepted, and then pool,
   resolver and configuration start in agreement on what the file says.
   */
  method Start(f: File, retry: set<nat>, half: Positive, zone: int, now: int, norm: Normaliser, allowWrite: bool,
      persist: bool) returns (r: Result<Manager, ConfigError>)
    ensures r.Ok? <==> Usable(f, norm)
    ensures r.Ok? ==> r.value.Agree() && r.value.cfg == SettingsOf(f, norm) && r.value.pool.thresholds == f.thresholds
    ensures r.Ok? ==>
              var m := r.value;
              && m.norm == norm && m.allowWrite == allowWrite && m.persist == persist
              && m.resolver.retry == retry && m.resolver.half == m.pool.half == half && m.stats.zone == zone
              && m.resolver.rr == m.pool.rr == 0 && m.resolver.tracker.t0 == now
              && Idle(m)
    ensures !ValidStrategy(f.strategy) ==> r == Err(BadStrategy)
    ensures ValidStrategy(f.strategy) && !f.thresholds.Valid() ==> r == Err(BadThreshold)
  {
    hide ValidUpstreams, FillAll, P.Pool.Valid, Stats.Collector.Valid, CleanServers, ValidStrategy, Accepted,
         Outage.Kept;
    if !ValidStrategy(f.strategy) {
      return Err(BadStrategy);
    }
    if f.thresholds.rise < 1 || f.thresholds.fall < 1 {
      return Err(BadThreshold);
    }
    var servers := FileServers(f, norm);
    if servers.Err? {
      return Err(servers.error);
    }
    var us := Validate(f.upstreams, norm);
    if us.Err? {
      return Err(us.error);
    }
    var pool := new P.Pool(us.value, f.strategy, f.thresholds, half);
    var tracker := new Outage.Tracker(now);
    var resolver := new Resolver(f.enabled, servers.value, retry, half, tracker);
    var stats := new Stats.Collector(zone);
    var cfg := Settings(us.value, f.strategy, f.enabled, servers.value);
    var m := new Manager(cfg, pool, resolver, stats, norm, allowWrite, persist);
    return Ok(m);
  }

  /** Where the first upstream of that name stands; the length when there is none. */
  ghost function Position(us: seq<UpstreamCfg>, name: string): (i: nat)
    ensures i <= |us| && (i < |us| <==> Named(us, name)) && (i < |us| ==> us[i].name == name)
  {
    if us == [] || us[0].name == name then 0
    else
      assert forall k :: 1 <= k < |us| ==> us[k] == us[1..][k - 1];
      1 + Position(us[1..], name)
  }

  lemma {:induction false} PositionIs(us: seq<UpstreamCfg>, name: string, i: nat)
    requires i < |us| && us[i].name == name && forall k :: 0 <= k < i ==> us[k].name != name
    ensures Position(us, name) == i
    decreases i
  {
    if i > 0 {
      assert us[0].name != name;
      forall k | 0 <= k < i - 1 ensures us[1..][k].name != name {
        assert us[1..][k] == us[k + 1];
      }
      PositionIs(us[1..], name, i - 1);
    }
  }

  /** Some upstream of the list has this name. */
  ghost predicate Named(us: seq<UpstreamCfg>, name: string) {
    exists i :: 0 <= i < |us| && us[i].name == name
  }

  lemma NamedInPool(us: seq<Upstream>, name: string)
    ensures Named(CfgsOf(us), name) <==> exists i :: 0 <= i < |us| && us[i].name == name
  {
    if Named(CfgsOf(us), name) {
      var i :| 0 <= i < |us| && CfgsOf(us)[i].name == name;
      assert us[i].name == name;
    }
    if exists i :: 0 <= i < |us| && us[i].name == name {
      var i :| 0 <= i < |us| && us[i].name == name;
      assert CfgsOf(us)[i].name == name;
    }
  }

  lemma SameIndex(us: seq<Upstream>, name: string, i: nat)
    requires i < |us| && CfgsOf(us)[i].name == name && forall k :: 0 <= k < i ==> CfgsOf(us)[k].name != name
    ensures us[i].name == name && forall k :: 0 <= k < i ==> us[k].name != name
  {
    forall k | 0 <= k < i ensures us[k].name != name {
      assert CfgsOf(us)[k].name != name;
    }
  }

  /** In a valid list only one upstream has a given name. */
  lemma NamedOnce(us: seq<Upstream>, name: string)
    requires ValidUpstreams(CfgsOf(us))
    ensures forall u, v :: u in us && v in us && u.name == name && v.name == name ==> u == v
  {
    hide ValidUpstreams;
    forall u, v | u in us && v in us && u.name == name && v.name == name ensures u == v {
      var i :| 0 <= i < |us| && us[i] == u;
      var j :| 0 <= j < |us| && us[j] == v;
      NamesDiffer(us, i, j);
      NamesDiffer(us, j, i);
    }
  }

  lemma NamesDiffer(us: seq<Upstream>, i: nat, j: nat)
    requires ValidUpstreams(CfgsOf(us)) && i < |us| && j < |us|
    ensures i < j ==> us[i].name != us[j].name
  {
    if i < j {
      assert Separate(CfgsOf(us)[i], CfgsOf(us)[j]);
    }
  }

  method IndexOfName(us: seq<UpstreamCfg>, name: string) returns (idx: int)
    ensures -1 <= idx < |us|
    ensures idx >= 0 ==> us[idx].name == name
    ensures idx >= 0 <==> Named(us, name)
    ensures idx >= 0 ==> idx == Position(us, name)
    ensures forall k :: 0 <= k < (if idx < 0 then |us| else idx) ==> us[k].name != name
  {
    for i := 0 to |us|
      invariant forall k :: 0 <= k < i ==> us[k].name != name
    {
      if us[i].name == name {
        PositionIs(us, name, i);
        return i;
      }
    }
    return -1;
  }

  /** Undoing an addition removes exactly the upstream just added. */
  lemma LastAdded(before: seq<UpstreamCfg>, uc: UpstreamCfg, us: seq<Upstream>, u: Upstream)
    requires ValidUpstreams(before) && before == CfgsOf(us) && CfgOf(u) == uc && !Clashes(before, uc)
    ensures |us| >= 1
    ensures forall i :: 0 <= i < |us| ==> (us + [u])[i].name != uc.name
    ensures (us + [u])[|us|].name == uc.name
    ensures Without(us + [u], |us|) == us && Without(before + [uc], |us|) == before
    ensures (before + [uc])[..|before|] == before
  {
    forall i | 0 <= i < |us| ensures us[i].name != uc.name {
      assert Separate(before[i], uc);
    }
  }
}
