/**
 The pool: live membership, the selection policy, the plan for one query, and the health reports.

 Reports are modelled one at a time; how their decision and their store interleave is the subject
 of the race model in module Health.
 */
module Pool {
  import opened Arith
  import opened Basics
  import opened Config
  import opened Plans
  import opened Selection
  import Health

  datatype PoolError = UpstreamExists | AddressInUse | NotFound | LastUpstream | UnknownStrategy

  /** The order of the random strategy: a shuffle, then the winner of the weighted draw swapped to the front. */
  ghost function DrawnOrder(healthy: seq<Upstream>, dice: Dice): seq<Upstream>
    requires healthy != []
  {
    var mixed := Mixed(healthy, dice);
    Swapped(mixed, 0, Selected(WeightsOf(mixed), dice.Later(ShuffleDraws(|healthy|))))
  }

  function WeightsOf(us: seq<Upstream>): seq<int> {
    seq(|us|, i requires 0 <= i < |us| => us[i].weight)
  }

  /** The order the strategy gives to the healthy upstreams, the counter having been at rr. */
  ghost predicate Chosen(strategy: string, rr: nat, half: Positive, healthy: seq<Upstream>, key: Upstream -> int,
      dice: Dice, out: seq<Upstream>) {
    && multiset(out) == multiset(healthy)
    && if |healthy| < 2 || strategy == STRATEGY_FAILOVER then out == healthy
       else if strategy == STRATEGY_ROUND_ROBIN then
         SafeTurn(rr, |healthy|, half) && out == Turn(healthy, rr, half)
       else if strategy == STRATEGY_LEAST_LATENCY then out == StableSort(key, healthy)
       else out == DrawnOrder(healthy, dice)
  }

  /** Numbers the strategy takes to order n upstreams: a shuffle and a draw, for the random one. */
  function OrderDraws(strategy: string, n: nat): nat {
    if n < 2 || strategy in [STRATEGY_FAILOVER, STRATEGY_ROUND_ROBIN, STRATEGY_LEAST_LATENCY] then 0
    else ShuffleDraws(n) + 1
  }

  /** Under the random strategy, u comes first for exactly Weight(u) of the numbers below the total weight. */
  lemma RandomOpens(healthy: seq<Upstream>, dice: Dice, u: Upstream)
    requires |healthy| >= 2 && NoDup(healthy) && u in healthy && forall x :: x in healthy ==> x.weight >= 1
    ensures var mixed := Mixed(healthy, dice);
            var total := Before(WeightsOf(mixed), |mixed|);
            && total == Before(WeightsOf(healthy), |healthy|) > 0
            && |DrawsFor(mixed, (x: Upstream) => x.weight, u)| == u.weight
            && (DrawnOrder(healthy, dice)[0] == u <==>
                DrawAt(dice.stream, dice.pos + |healthy| - 1, total) in DrawsFor(mixed, (x: Upstream) => x.weight, u))
  {
    var mixed, weight := Mixed(healthy, dice), (x: Upstream) => x.weight;
    ShufflePermutes(healthy, DrawsFrom(dice.stream, dice.pos, |healthy|));
    NoDupPermutes(healthy, mixed);
    ShuffledDrawProportional(healthy, mixed, weight, u);
    var ws := WeightsOf(mixed);
    assert ws == Weights(mixed, weight) && WeightsOf(healthy) == Weights(healthy, weight);
    forall i | 0 <= i < |ws| ensures ws[i] >= 1 {
      assert mixed[i] in multiset(healthy);
    }
    PositiveTotal(ws);
    PickSelects(ws, DrawAt(dice.stream, dice.pos + |healthy| - 1, Before(ws, |ws|)));
    assert dice.Later(ShuffleDraws(|healthy|)).pos == dice.pos + |healthy| - 1;
  }

  lemma PositiveTotal(ws: seq<int>)
    requires ws != [] && forall i :: 0 <= i < |ws| ==> ws[i] >= 1
    ensures Before(ws, |ws|) > 0
  {
    PickInterval(ws, 0, 0);
  }

  lemma NoDupPermutes(a: seq<Upstream>, b: seq<Upstream>)
    requires NoDup(a) && multiset(a) == multiset(b)
    ensures NoDup(b)
  {
    NoDupBag(a);
    forall x | x in b ensures multiset(b)[x] == 1 {
      assert x in multiset(a);
    }
    NoDupBag(b);
  }

  /** What a plan depends on, at one moment. */
  datatype View = View(
    strategy: string, rr: nat, half: Positive,
    upstreams: seq<Upstream>, up: set<Endpoint>, drained: set<Upstream>, latency: map<Endpoint, int>)
  {
    ghost function Healthy(): seq<Upstream> { HealthyOf(upstreams, up, drained) }

    /** The rotation counter after one more plan. */
    ghost function NextCount(): nat {
      if |Healthy()| >= 2 && strategy == STRATEGY_ROUND_ROBIN then (rr + 1) % U64 else rr
    }
  }

  class Pool {
    var upstreams: seq<Upstream>
    var endpoints: seq<Endpoint>
    var strategy: string
    const thresholds: Health.Thresholds
    /** int has 2*half values on the machine at hand. */
    const half: Positive
    /** Rotation counter. */
    var rr: Word

    /**
     Membership invariant: the flat list is the concatenation of the upstreams' paths, every path
     occurs once and points back to its upstream, and every path's counters match its log.
     */
    ghost predicate Valid()
      reads this`upstreams, this`endpoints, endpoints
    {
      && thresholds.Valid()
      && endpoints == Paths(upstreams)
      && NoDup(upstreams) && Disjoint(upstreams)
      && (forall i, e :: 0 <= i < |upstreams| && e in upstreams[i].endpoints ==>
            e in endpoints && e.upstream == upstreams[i])
      && (forall e :: e in endpoints ==> e.Valid(thresholds))
    }

    ghost function Cfg(): seq<UpstreamCfg>
      reads this`upstreams
    {
      CfgsOf(upstreams)
    }

    ghost function Up(): set<Endpoint>
      reads this`endpoints, endpoints
    {
      set e | e in endpoints && e.up
    }

    ghost function Drained(): set<Upstream>
      reads this`upstreams, upstreams
    {
      set u | u in upstreams && u.drained
    }

    ghost function Latencies(): map<Endpoint, int>
      reads this`endpoints, endpoints
    {
      map e | e in endpoints :: e.latency
    }

    /** The healthy upstreams, in configuration order. */
    ghost function Healthy(): seq<Upstream>
      reads this`upstreams, this`endpoints, upstreams, endpoints
    {
      HealthyOf(upstreams, Up(), Drained())
    }

    /** Everything reported about each path. */
    ghost function Logs(): map<Endpoint, seq<Health.Event>>
      reads this`endpoints, endpoints
    {
      map e | e in endpoints :: e.log
    }

    ghost function Snapshot(): View
      reads this`strategy, this`rr, this`upstreams, this`endpoints, upstreams, endpoints
    {
      View(strategy, rr, half, upstreams, Up(), Drained(), Latencies())
    }

    /** Ordering n upstreams does not index below zero. */
    ghost predicate SafeFor(n: nat)
      reads this`strategy, this`rr
    {
      n >= 2 && strategy == STRATEGY_ROUND_ROBIN ==> SafeTurn(rr, n, half)
    }

    lemma FittingCounterIsSafe(n: nat)
      requires CounterFits(rr, half)
      ensures SafeFor(n)
    {
      if n > 0 {
        RotationInRange(rr, n, half);
      }
    }

    // -------------------------------------------------------------- membership

    constructor (cfg: seq<UpstreamCfg>, strategy: string, thresholds: Health.Thresholds, half: Positive)
      requires thresholds.Valid()
      ensures Valid() && Cfg() == cfg && rr == 0
      ensures this.strategy == strategy && this.thresholds == thresholds && this.half == half
      ensures fresh(upstreams) && fresh(endpoints)
      ensures Up() == {} && Drained() == {}
      ensures forall e :: e in endpoints ==> e.Pristine()
    {
      this.strategy, this.thresholds, this.half, rr := strategy, thresholds, half, 0;
      upstreams, endpoints := [], [];
      new;
      hide Paths, Health.Recorded, Disjoint, NoDup, CfgOf;
      assert Valid() by { EmptyPool(); }
      assert Up() == {} && Drained() == {} && Cfg() == [];
      hide Up, Drained, CfgsOf;
      for i := 0 to |cfg|
        invariant Valid() && Cfg() == cfg[..i]
        invariant this.strategy == strategy && rr == 0
        invariant fresh(upstreams) && fresh(endpoints)
        invariant Up() == {} && Drained() == {}
        invariant forall e :: e in endpoints ==> e.Pristine()
      {
        var u := new Upstream(cfg[i]);
        Join(u);
        assert cfg[..i + 1] == cfg[..i] + [cfg[i]];
      }
      assert cfg[..|cfg|] == cfg;
    }

    /** Appends a freshly built upstream and its paths. */
    method Join(u: Upstream)
      requires Valid() && u !in upstreams && !u.drained && NoDup(u.endpoints)
      requires forall e :: e in u.endpoints ==> e !in endpoints && e.upstream == u && e.Pristine()
      modifies this`upstreams, this`endpoints
      ensures Valid()
      ensures upstreams == old(upstreams) + [u] && endpoints == old(endpoints) + u.endpoints
      ensures Cfg() == old(Cfg()) + [CfgOf(u)]
      ensures Up() == old(Up()) && Drained() == old(Drained())
    {
      hide Paths, Health.Recorded, NoDup, Disjoint;
      ghost var before := upstreams;
      PathsSnoc(before, u);
      Health.NothingRecorded(thresholds);
      JoinKeeps(before, u);
      upstreams := upstreams + [u];
      endpoints := endpoints + u.endpoints;
      forall e | e in endpoints ensures e.Valid(thresholds) {
        if e in u.endpoints {
          assert e.Pristine();
        }
      }
    }

    /** Brings a new Pi-hole into rotation unless its name or one of its addresses is taken. */
    method Add(uc: UpstreamCfg) returns (r: Result<Upstream, PoolError>)
      requires Valid()
      modifies this`upstreams, this`endpoints
      ensures Valid()
      ensures r.Ok? <==> !Clashes(old(Cfg()), uc)
      ensures r.Ok? ==> && upstreams == old(upstreams) + [r.value] && fresh(r.value) && fresh(r.value.endpoints)
                        && Cfg() == old(Cfg()) + [uc]
                        && !r.value.drained && forall e :: e in r.value.endpoints ==> e.Pristine()
      ensures r.Err? ==> upstreams == old(upstreams) && endpoints == old(endpoints)
      ensures Up() == old(Up()) && Drained() == old(Drained())
      ensures old(ValidUpstreams(Cfg())) && WellFormed(uc) ==> ValidUpstreams(Cfg())
    {
      if ValidUpstreams(Cfg()) && WellFormed(uc) && !Clashes(Cfg(), uc) {
        AddKeepsValid(Cfg(), uc);
      }
      var clash := FindClash(uc);
      if clash.Some? {
        return Err(clash.value);
      }
      hide Paths, Health.Recorded, Disjoint, NoDup, Clashes, ValidUpstreams;
      var u := new Upstream(uc);
      Join(u);
      return Ok(u);
    }

    /** The first upstream that shares the new one's name or an address decides the refusal. */
    method FindClash(uc: UpstreamCfg) returns (r: Option<PoolError>)
      ensures r.Some? <==> Clashes(Cfg(), uc)
      ensures r.Some? ==> r == Some(UpstreamExists) || r == Some(AddressInUse)
      ensures r == Some(UpstreamExists) ==> exists i :: 0 <= i < |upstreams| && upstreams[i].name == uc.name
      ensures r == Some(AddressInUse) ==>
                exists i :: 0 <= i < |upstreams| && SharesAddr(CfgOf(upstreams[i]).endpoints, uc.endpoints)
    {
      ghost var cfg := Cfg();
      for i := 0 to |upstreams|
        invariant forall k :: 0 <= k < i ==> Separate(cfg[k], uc)
      {
        var u := upstreams[i];
        if u.name == uc.name {
          assert !Separate(cfg[i], uc);
          return Some(UpstreamExists);
        }
        var shared := Shares(u, uc);
        if shared {
          assert !Separate(cfg[i], uc);
          return Some(AddressInUse);
        }
      }
      return None;
    }

    static method Shares(u: Upstream, uc: UpstreamCfg) returns (b: bool)
      ensures b == SharesAddr(CfgOf(u).endpoints, uc.endpoints)
    {
      ghost var own := CfgOf(u).endpoints;
      for i := 0 to |u.endpoints|
        invariant forall k, j :: 0 <= k < i && 0 <= j < |uc.endpoints| ==> own[k].addr != uc.endpoints[j].addr
      {
        for j := 0 to |uc.endpoints|
          invariant forall m :: 0 <= m < j ==> own[i].addr != uc.endpoints[m].addr
        {
          if u.endpoints[i].addr == uc.endpoints[j].addr {
            assert own[i].addr == uc.endpoints[j].addr;
            return true;
          }
        }
      }
      return false;
    }

    /** Takes a Pi-hole out, refusing an unknown name and the last one. */
    method Remove(name: string) returns (r: Result<nat, PoolError>)
      requires Valid()
      modifies this`upstreams, this`endpoints
      ensures Valid()
      ensures r.Ok? <==> && (exists i :: 0 <= i < |old(upstreams)| && old(upstreams)[i].name == name)
                         && |old(upstreams)| != 1
      ensures r.Ok? ==> && r.value < |old(upstreams)| && old(upstreams)[r.value].name == name
                        && (forall k :: 0 <= k < r.value ==> old(upstreams)[k].name != name)
                        && upstreams == Without(old(upstreams), r.value)
                        && Cfg() == Without(old(Cfg()), r.value)
      ensures r.Err? ==> upstreams == old(upstreams) && endpoints == old(endpoints)
      ensures r.Err? ==> r.error == if exists i :: 0 <= i < |upstreams| && upstreams[i].name == name
                                    then LastUpstream else NotFound
      ensures old(ValidUpstreams(Cfg())) ==> ValidUpstreams(Cfg())
    {
      hide Valid, CfgOf, ValidUpstreams;
      var idx := IndexOf(name);
      if idx < 0 {
        return Err(NotFound);
      }
      if |upstreams| == 1 {
        return Err(LastUpstream);
      }
      WithoutCfg(upstreams, idx);
      if ValidUpstreams(Cfg()) && |upstreams| > 1 {
        RemoveKeepsValid(Cfg(), idx);
      }
      Detach(idx);
      return Ok(idx);
    }

    /** Takes the upstream at that position out, with its paths. */
    method Detach(idx: nat)
      requires Valid() && idx < |upstreams|
      modifies this`upstreams, this`endpoints
      ensures Valid() && upstreams == Without(old(upstreams), idx)
    {
      hide Paths, Health.Recorded, Disjoint, NoDup;
      var kept := PathsNotOf(idx);
      WithoutKeeps(upstreams, idx);
      RemainingLinked(idx);
      upstreams := upstreams[..idx] + upstreams[idx + 1..];
      endpoints := kept;
    }

    lemma RemainingLinked(idx: nat)
      requires Valid() && idx < |upstreams|
      ensures var w := Without(upstreams, idx);
              forall i, e :: 0 <= i < |w| && e in w[i].endpoints ==> e in Paths(w) && e.upstream == w[i]
    {
      var w := Without(upstreams, idx);
      forall i, e | 0 <= i < |w| && e in w[i].endpoints ensures e in Paths(w) && e.upstream == w[i] {
        PathsMember(w, e);
      }
    }

    /** Position of the first upstream of that name, or -1. */
    method IndexOf(name: string) returns (idx: int)
      ensures -1 <= idx < |upstreams|
      ensures idx >= 0 ==> upstreams[idx].name == name
      ensures forall k :: 0 <= k < (if idx < 0 then |upstreams| else idx) ==> upstreams[k].name != name
    {
      for i := 0 to |upstreams|
        invariant forall k :: 0 <= k < i ==> upstreams[k].name != name
      {
        if upstreams[i].name == name {
          return i;
        }
      }
      return -1;
    }

    /** The flat list without one upstream's paths, told apart by their back pointers. */
    method PathsNotOf(idx: nat) returns (kept: seq<Endpoint>)
      requires Valid() && idx < |upstreams|
      ensures kept == Paths(Without(upstreams, idx))
    {
      hide Paths, Health.Recorded, NoDup, Drop, Elements, Without, Disjoint;
      OwnersDiffer(idx);
      DropOwned(upstreams, idx);
      kept := NotOwned(endpoints, upstreams[idx], Elements(upstreams[idx].endpoints));
    }

    static method NotOwned(es: seq<Endpoint>, removed: Upstream,
        ghost owned: set<Endpoint>) returns (kept: seq<Endpoint>)
      requires forall k :: 0 <= k < |es| ==> (es[k].upstream != removed <==> es[k] !in owned)
      ensures kept == Drop(es, owned)
    {
      hide Drop;
      DropNone([], owned);
      kept := [];
      for i := 0 to |es|
        invariant kept == Drop(es[..i], owned)
      {
        var e := es[i];
        KeepDropSnoc(es[..i], e, owned);
        assert es[..i + 1] == es[..i] + [e];
        if e.upstream != removed {
          kept := kept + [e];
        }
      }
      assert es[..|es|] == es;
    }

    lemma OwnersDiffer(idx: nat)
      requires Valid() && idx < |upstreams|
      ensures forall e :: e in endpoints ==>
                (e.upstream != upstreams[idx] <==> e !in Elements(upstreams[idx].endpoints))
    {
      hide Health.Recorded, Disjoint, Paths;
      forall e | e in endpoints ensures e.upstream != upstreams[idx] <==> e !in Elements(upstreams[idx].endpoints) {
        PathsMember(upstreams, e);
        OwnedAll(upstreams[idx].endpoints);
      }
    }

    method SetStrategy(name: string) returns (r: Result<(), PoolError>)
      modifies this`strategy
      ensures r.Ok? <==> ValidStrategy(name)
      ensures strategy == if r.Ok? then name else old(strategy)
    {
      if !ValidStrategy(name) {
        return Err(UnknownStrategy);
      }
      strategy := name;
      return Ok(());
    }

    method Lookup(name: string) returns (r: Option<Upstream>)
      ensures r.Some? ==> r.value in upstreams && r.value.name == name
      ensures r.None? ==> forall k :: 0 <= k < |upstreams| ==> upstreams[k].name != name
    {
      var idx := IndexOf(name);
      r := if idx < 0 then None else Some(upstreams[idx]);
    }

    // -------------------------------------------------------------- planning

    /** Counts the Pi-holes currently answering. */
    method HealthyUpstreams() returns (n: nat)
      requires Valid()
      ensures n == |Healthy()|
    {
      n := 0;
      ghost var up, drained := Up(), Drained();
      ghost var healthy := HealthySet(upstreams, up, drained);
      SnapshotFits(upstreams, up);
      KeepNone<Upstream>([], healthy);
      hide Keep, HealthySet, FirstUp, Valid;
      for i := 0 to |upstreams|
        invariant n == |Keep(upstreams[..i], healthy)|
      {
        var u := upstreams[i];
        assert upstreams[..i + 1] == upstreams[..i] + [u];
        KeepDropSnoc(upstreams[..i], u, healthy);
        HealthyMember(upstreams, up, drained, i);
        var h := u.Healthy(up);
        if h && !u.drained {
          n := n + 1;
        }
      }
      assert upstreams[..|upstreams|] == upstreams;
    }

    /** Sorts the upstreams into healthy, down and drained ones. */
    method Classify() returns (healthy: seq<Upstream>, down: seq<Upstream>, drained: seq<Upstream>)
      requires Valid()
      ensures healthy == Healthy()
      ensures down == Keep(upstreams, DownSet(upstreams, Up(), Drained()))
      ensures drained == Keep(upstreams, Drained())
    {
      ghost var up, dr := Up(), Drained();
      SnapshotFits(upstreams, up);
      hide Keep, HealthySet, DownSet, FirstUp, Valid;
      healthy, down, drained := Sift(upstreams, up, dr);
    }

    static method Sift(us: seq<Upstream>, ghost up: set<Endpoint>, ghost dr: set<Upstream>)
      returns (healthy: seq<Upstream>, down: seq<Upstream>, drained: seq<Upstream>)
      requires forall i, e :: 0 <= i < |us| && e in us[i].endpoints ==> (e.up <==> e in up)
      requires forall i :: 0 <= i < |us| ==> (us[i].drained <==> us[i] in dr)
      ensures healthy == Keep(us, HealthySet(us, up, dr))
      ensures down == Keep(us, DownSet(us, up, dr))
      ensures drained == Keep(us, dr)
    {
      healthy, down, drained := [], [], [];
      ghost var h, d := HealthySet(us, up, dr), DownSet(us, up, dr);
      hide Keep, HealthySet, DownSet, FirstUp;
      KeepNone<Upstream>([], h);
      KeepNone<Upstream>([], d);
      KeepNone<Upstream>([], dr);
      for i := 0 to |us|
        invariant healthy == Keep(us[..i], h) && down == Keep(us[..i], d) && drained == Keep(us[..i], dr)
      {
        var u := us[i];
        assert us[..i + 1] == us[..i] + [u];
        KeepDropSnoc(us[..i], u, h);
        KeepDropSnoc(us[..i], u, d);
        KeepDropSnoc(us[..i], u, dr);
        HealthyMember(us, up, dr, i);
        var answering := u.Healthy(up);
        if u.drained {
          drained := drained + [u];
        } else if answering {
          healthy := healthy + [u];
        } else {
          down := down + [u];
        }
      }
      assert us[..|us|] == us;
    }

    /** Applies the selection strategy to the healthy upstreams. */
    method Order(healthy: seq<Upstream>, rng: Rand, ghost up: set<Endpoint>) returns (out: seq<Upstream>)
      requires SafeFor(|healthy|)
      requires forall i, e :: 0 <= i < |healthy| && e in healthy[i].endpoints ==> e in endpoints && (e.up <==> e in up)
      modifies this`rr, rng`pos
      ensures Chosen(strategy, old(rr), half, healthy, LatencyKey(up, Latencies()), old(rng.Now()), out)
      ensures rng.Now() == old(rng.Now()).Later(OrderDraws(strategy, |healthy|))
      ensures rr == if |healthy| >= 2 && strategy == STRATEGY_ROUND_ROBIN then (old(rr) + 1) % U64 else old(rr)
    {
      out := healthy;
      if |healthy| < 2 {
        return;
      }
      hide StableSort, DrawnOrder, EffectiveLatency, FirstUp;
      if strategy == STRATEGY_FAILOVER {
      } else if strategy == STRATEGY_ROUND_ROBIN {
        var c := rr;
        rr := (rr + 1) % U64;
        out := Rotated(healthy, c, half);
        RotatePermutes(healthy, RotationStart(c, |healthy|, half));
      } else if strategy == STRATEGY_LEAST_LATENCY {
        out := ByLatency(healthy, up);
      } else {
        out := DrawOrder(healthy, rng);
      }
    }

    /** Weighted draw for the winner among a shuffle, so that retries are spread evenly. */
    static method DrawOrder(healthy: seq<Upstream>, rng: Rand) returns (out: seq<Upstream>)
      requires |healthy| > 0
      modifies rng`pos
      ensures multiset(out) == multiset(healthy) && out == DrawnOrder(healthy, old(rng.Now()))
      ensures rng.Now() == old(rng.Now()).Later(ShuffleDraws(|healthy|) + 1)
    {
      hide Mixed, Selected;
      var shuffled := Shuffle(healthy, rng);
      var k := WeightedPick(WeightsOf(shuffled), rng);
      out := shuffled;
      if k > 0 {
        out := Swapped(shuffled, 0, k);
      }
      SwapKeeps(shuffled, 0, k);
    }

    /** The rotation loop. */
    static method Rotated(s: seq<Upstream>, c: nat, half: Positive) returns (out: seq<Upstream>)
      requires |s| > 0 && SafeTurn(c, |s|, half)
      ensures out == Turn(s, c, half)
    {
      var n := |s|;
      var start := RotationStart(c, n, half);
      out := [];
      for i := 0 to n
        invariant |out| == i
        invariant forall k :: 0 <= k < i ==> out[k] == Rotate(s, start)[k]
      {
        WrapIndex(start, i, n);
        out := out + [s[TruncRem(start + i, n)]];
      }
    }

    /** Stable sort by the latency of each upstream's preferred path. */
    method ByLatency(healthy: seq<Upstream>, ghost up: set<Endpoint>) returns (out: seq<Upstream>)
      requires forall i, e :: 0 <= i < |healthy| && e in healthy[i].endpoints ==> e in endpoints && (e.up <==> e in up)
      ensures out == StableSort(LatencyKey(up, Latencies()), healthy)
      ensures multiset(out) == multiset(healthy)
    {
      var keys: map<Upstream, int> := map[];
      for i := 0 to |healthy|
        invariant forall k :: 0 <= k < i ==>
                    && healthy[k] in keys
                    && keys[healthy[k]] == EffectiveLatency(healthy[k], up, Latencies())
      {
        var a := healthy[i].Active(up);
        var l := HOUR;
        if a.Some? && a.value.latency > 0 {
          l := a.value.latency;
        }
        keys := keys[healthy[i] := l];
      }
      var key := (u: Upstream) => if u in keys then keys[u] else HOUR;
      SortCongruent(key, LatencyKey(up, Latencies()), healthy);
      StableSortCorrect(key, healthy, 0);
      out := StableSort(key, healthy);
    }

    /** Tier one of a plan. */
    static method PreferredPaths(ordered: seq<Upstream>, ghost up: set<Endpoint>) returns (plan: seq<Endpoint>)
      requires forall i, e :: 0 <= i < |ordered| && e in ordered[i].endpoints ==> (e.up <==> e in up)
      ensures plan == Preferred(ordered, up)
    {
      plan := [];
      for i := 0 to |ordered|
        invariant plan == Preferred(ordered[..i], up)
      {
        var a := ordered[i].Active(up);
        assert ordered[..i + 1][..i] == ordered[..i];
        if a.Some? {
          plan := plan + [a.value];
        }
      }
      assert ordered[..|ordered|] == ordered;
    }

    /** Tier two before its shuffle. */
    static method OtherPaths(ordered: seq<Upstream>, ghost up: set<Endpoint>) returns (second: seq<Endpoint>)
      requires forall i, e :: 0 <= i < |ordered| && e in ordered[i].endpoints ==> (e.up <==> e in up)
      ensures second == Others(ordered, up)
    {
      second := [];
      for i := 0 to |ordered|
        invariant second == Others(ordered[..i], up)
      {
        var more := OtherPathsOf(ordered[i], up);
        assert ordered[..i + 1][..i] == ordered[..i];
        second := second + more;
      }
      assert ordered[..|ordered|] == ordered;
    }

    static method OtherPathsOf(u: Upstream, ghost up: set<Endpoint>) returns (second: seq<Endpoint>)
      requires forall e :: e in u.endpoints ==> (e.up <==> e in up)
      ensures second == OthersOf(u, up)
    {
      var active := u.Active(up);
      ghost var rest := if active.Some? then up - {active.value} else {};
      second := UpExcept(u.endpoints, active, rest);
      if active.None? {
        KeepNone(u.endpoints, rest);
      }
    }

    static method UpExcept(es: seq<Endpoint>, active: Option<Endpoint>,
        ghost rest: set<Endpoint>) returns (out: seq<Endpoint>)
      requires forall k :: 0 <= k < |es| ==> (es[k] in rest <==> active != Some(es[k]) && es[k].up)
      ensures out == Keep(es, rest)
    {
      hide Keep;
      KeepNone([], rest);
      out := [];
      for j := 0 to |es|
        invariant out == Keep(es[..j], rest)
      {
        var e := es[j];
        KeepDropSnoc(es[..j], e, rest);
        assert es[..j + 1] == es[..j] + [e];
        if active != Some(e) && e.up {
          out := out + [e];
        }
      }
      assert es[..|es|] == es;
    }

    /** Tier three before its shuffle: down paths of healthy upstreams, then all paths of down ones. */
    static method DownPaths(ordered: seq<Upstream>, down: seq<Upstream>,
        ghost up: set<Endpoint>) returns (last: seq<Endpoint>)
      requires forall i, e :: 0 <= i < |ordered| && e in ordered[i].endpoints ==> (e.up <==> e in up)
      ensures last == Downs(ordered, up) + Paths(down)
    {
      last := [];
      for i := 0 to |ordered|
        invariant last == Downs(ordered[..i], up)
      {
        var more := DownPathsOf(ordered[i], up);
        assert ordered[..i + 1][..i] == ordered[..i];
        last := last + more;
      }
      assert ordered[..|ordered|] == ordered;
      var rest := AllPaths(down);
      last := last + rest;
    }

    static method DownPathsOf(u: Upstream, ghost up: set<Endpoint>) returns (last: seq<Endpoint>)
      requires forall e :: e in u.endpoints ==> (e.up <==> e in up)
      ensures last == Drop(u.endpoints, up)
    {
      hide Drop;
      last := [];
      DropNone([], up);
      for j := 0 to |u.endpoints|
        invariant last == Drop(u.endpoints[..j], up)
      {
        var e := u.endpoints[j];
        KeepDropSnoc(u.endpoints[..j], e, up);
        assert u.endpoints[..j + 1] == u.endpoints[..j] + [e];
        if !e.up {
          last := last + [e];
        }
      }
      assert u.endpoints[..|u.endpoints|] == u.endpoints;
    }

    static method AllPaths(us: seq<Upstream>) returns (all: seq<Endpoint>)
      ensures all == Paths(us)
    {
      all := [];
      for i := 0 to |us|
        invariant all == Paths(us[..i])
      {
        PathsSnoc(us[..i], us[i]);
        assert us[..i + 1] == us[..i] + [us[i]];
        all := all + us[i].endpoints;
      }
      assert us[..|us|] == us;
    }

    /** The endpoints to try for one query, best first. */
    method Plan(rng: Rand) returns (plan: seq<Endpoint>, ghost ordered: seq<Upstream>, ghost cut: nat)
      requires Valid() && SafeFor(|Healthy()|)
      modifies this`rr, rng`pos
      ensures Valid()
      ensures IsPlan(plan, upstreams, ordered, cut, Up(), Drained())
      ensures Chosen(strategy, old(rr), half, Healthy(), LatencyKey(Up(), Latencies()), old(rng.Now()), ordered)
      ensures var dice := old(rng.Now()).Later(OrderDraws(strategy, |Healthy()|));
              var (laid, used) := Layout(upstreams, ordered, Up(), Drained(), dice);
              plan == laid && rng.Now() == dice.Later(used)
      ensures rr == old(Snapshot()).NextCount()
    {
      hide Paths, Keep, Disjoint, NoDup, Health.Recorded, HealthySet, DownSet, IsPlan, Chosen, HealthyOf, Layout,
           OrderDraws;
      var healthy, down, drained := Classify();
      ghost var up, dr := Up(), Drained();
      HealthyListed(upstreams, up, dr);
      SnapshotFits(healthy, up);
      var order := Order(healthy, rng, up);
      ordered := order;
      ChosenPermutes(strategy, old(rr), half, healthy, LatencyKey(up, Latencies()), old(rng.Now()), order);
      SnapshotPermutes(healthy, order, up);
      plan, cut := Arrange(upstreams, order, down, drained, rng, up, dr);
    }

    /**
     Plans for m queries in a row under rotation, the health and drain flags standing still and the
     counter fitting: plan i follows the order rotated by i from where the counter stood, the counter
     moves on by m, and each healthy upstream is asked first floor(m/n) or ceil(m/n) times.
     */
    method PlanRepeatedly(rng: Rand, m: nat) returns (plans: seq<seq<Endpoint>>, ghost orders: seq<seq<Upstream>>,
        ghost cuts: seq<nat>, ghost heads: seq<Upstream>)
      requires Valid() && strategy == STRATEGY_ROUND_ROBIN && Healthy() != []
      requires rr + m <= half && rr + m < U64
      modifies this`rr, rng`pos
      ensures Valid() && |plans| == |orders| == |cuts| == |heads| == m
      ensures rr == if |Healthy()| >= 2 then old(rr) + m else old(rr)
      ensures forall i :: 0 <= i < m ==> PlannedAt(plans[i], orders[i], cuts[i], heads[i], old(rr) + i)
      ensures forall r :: 0 <= r < |Healthy()| ==>
                var n, k := |Healthy()|, multiset(heads)[Healthy()[r]];
                k == m / n || k == (m + n - 1) / n
    {
      hide Chosen, IsPlan, HealthyOf, Valid, Up, Drained, Latencies, IsFirstUp, SafeTurn, PlannedAt, Layout;
      ghost var healthy, c := Healthy(), rr;
      plans, orders, cuts, heads := [], [], [], [];
      for i := 0 to m
        invariant Valid() && |plans| == |orders| == |cuts| == |heads| == i && TurnHeads(heads, healthy, c, half)
        invariant rr == if |healthy| >= 2 then c + i else c
        invariant forall j :: 0 <= j < i ==> PlannedAt(plans[j], orders[j], cuts[j], heads[j], c + j)
      {
        var plan; ghost var ordered, cut;
        plan, ordered, cut := PlanNext(rng, c + i);
        plans, orders, cuts, heads := plans + [plan], orders + [ordered], cuts + [cut], heads + [ordered[0]];
      }
      EachServed(heads, healthy, c);
    }

    /** One of these plans: the counter stands at c unless there is nothing to rotate. */
    method PlanNext(rng: Rand, ghost c: nat) returns (plan: seq<Endpoint>, ghost ordered: seq<Upstream>, ghost cut: nat)
      requires Valid() && strategy == STRATEGY_ROUND_ROBIN && Healthy() != []
      requires CounterFits(rr, half) && rr + 1 < U64 && (|Healthy()| >= 2 ==> rr == c)
      modifies this`rr, rng`pos
      ensures Valid() && rr == if |Healthy()| >= 2 then old(rr) + 1 else old(rr)
      ensures ordered != [] && ordered[0] == Healthy()[c % |Healthy()|]
      ensures PlannedAt(plan, ordered, cut, ordered[0], c)
    {
      hide Chosen, IsPlan, HealthyOf, Valid, Up, Drained, Latencies, IsFirstUp, SafeTurn, PlannedAt, Layout, OrderDraws;
      FittingCounterIsSafe(|Healthy()|);
      ghost var before, dice := rr, rng.Now();
      plan, ordered, cut := Plan(rng);
      ChosenTurn(before, half, Healthy(), LatencyKey(Up(), Latencies()), dice, ordered, c);
      PlanOpens(plan, upstreams, ordered, cut, Up(), Drained());
      Planned(plan, ordered, cut, c);
    }

    /** A plan for the pool as it stands, in the order rotated by c, opening with the preferred path of its head. */
    ghost predicate PlannedAt(plan: seq<Endpoint>, order: seq<Upstream>, cut: nat, head: Upstream, c: nat)
      reads this`upstreams, this`endpoints, upstreams, endpoints
    {
      && Healthy() != [] && order == Rotate(Healthy(), c % |Healthy()|) && order[0] == head
      && IsPlan(plan, upstreams, order, cut, Up(), Drained())
      && plan != [] && IsFirstUp(plan[0], head.endpoints, Up())
    }

    lemma Planned(plan: seq<Endpoint>, order: seq<Upstream>, cut: nat, c: nat)
      requires Healthy() != [] && order == Rotate(Healthy(), c % |Healthy()|)
      requires IsPlan(plan, upstreams, order, cut, Up(), Drained())
      requires plan != [] && IsFirstUp(plan[0], order[0].endpoints, Up())
      ensures PlannedAt(plan, order, cut, order[0], c)
    {
    }

    lemma EachServed(heads: seq<Upstream>, healthy: seq<Upstream>, c: nat)
      requires Valid() && healthy == Healthy() && TurnHeads(heads, healthy, c, half)
      ensures forall r :: 0 <= r < |healthy| ==>
                var m, n, k := |heads|, |healthy|, multiset(heads)[healthy[r]];
                k == m / n || k == (m + n - 1) / n
    {
      HealthyOnce(upstreams, Up(), Drained());
      hide TurnHeads;
      forall r | 0 <= r < |healthy|
        ensures var m, n, k := |heads|, |healthy|, multiset(heads)[healthy[r]];
                k == m / n || k == (m + n - 1) / n
      {
        RotationServesAll(heads, healthy, c, half, r);
      }
    }

    /** Lays out the tiers; when they are empty, the drained upstreams are all that is left. */
    static method Arrange(ghost us: seq<Upstream>, order: seq<Upstream>, down: seq<Upstream>, drained: seq<Upstream>,
        rng: Rand, ghost up: set<Endpoint>, ghost dr: set<Upstream>)
      returns (plan: seq<Endpoint>, ghost cut: nat)
      requires Disjoint(us)
      requires multiset(order) == multiset(HealthyOf(us, up, dr))
      requires down == Keep(us, DownSet(us, up, dr)) && drained == Keep(us, dr)
      requires forall i, e :: 0 <= i < |order| && e in order[i].endpoints ==> (e.up <==> e in up)
      modifies rng`pos
      ensures IsPlan(plan, us, order, cut, up, dr)
      ensures var (laid, used) := Layout(us, order, up, dr, old(rng.Now()));
              plan == laid && rng.Now() == old(rng.Now()).Later(used)
    {
      hide Paths, Keep, Drop, HealthyOf, HealthySet, DownSet, FirstUp, Preferred, Others, Downs, IsPlan, Disjoint,
           Layout, Mixed, ShuffleDraws;
      LayoutIs(us, order, up, dr, rng.Now());
      plan := PreferredPaths(order, up);
      var second := OtherPaths(order, up);
      second := Shuffle(second, rng);
      plan := plan + second;
      var last := DownPaths(order, down, up);
      last := Shuffle(last, rng);
      plan := plan + last;
      cut := |order| + |second|;
      TiersMakePlan(us, order, up, dr, second, last);
      SameSize(plan, Paths(Drop(us, dr)));
      if |plan| == 0 {
        plan := AllPaths(drained);
        plan := Shuffle(plan, rng);
        cut := 0;
        DrainedMakePlan(us, up, dr, order, plan);
      }
    }

    static lemma SameSize(a: seq<Endpoint>, b: seq<Endpoint>)
      requires multiset(a) == multiset(b)
      ensures |a| == |b|
    {
      assert |multiset(a)| == |a| && |multiset(b)| == |b|;
    }

    lemma SnapshotFits(part: seq<Upstream>, up: set<Endpoint>)
      requires Valid() && up == Up()
      requires forall u :: u in part ==> u in upstreams
      ensures forall i, e :: 0 <= i < |part| && e in part[i].endpoints ==> e in endpoints && (e.up <==> e in up)
    {
      forall i, e | 0 <= i < |part| && e in part[i].endpoints ensures e in endpoints && (e.up <==> e in up) {
        assert part[i] in part && part[i] in upstreams;
        var k :| 0 <= k < |upstreams| && upstreams[k] == part[i];
        PathsMember(upstreams, e);
      }
    }

    lemma SnapshotPermutes(a: seq<Upstream>, b: seq<Upstream>, up: set<Endpoint>)
      requires multiset(a) == multiset(b)
      requires forall i, e :: 0 <= i < |a| && e in a[i].endpoints ==> (e.up <==> e in up)
      ensures forall i, e :: 0 <= i < |b| && e in b[i].endpoints ==> (e.up <==> e in up)
    {
      forall i, e | 0 <= i < |b| && e in b[i].endpoints ensures e.up <==> e in up {
        assert b[i] in multiset(b) && b[i] in a;
      }
    }

    // -------------------------------------------------------------- health reports

    /** Feeds one outcome into the average and, if it counts, into the verdict. */
    method Record(e: Endpoint, ok: bool, latency: int, affectsHealth: bool)
      requires Health.Settled(thresholds, e.State())
      modifies e`up, e`successes, e`failures, e`latency, e`announced
      ensures e.latency == Health.Sampled(old(e.latency), ok, latency)
      ensures e.State() == if affectsHealth then Health.Step(thresholds, old(e.State()), ok) else old(e.State())
      ensures e.announced == old(e.announced) + if e.up == old(e.up) then [] else [e.up]
    {
      if ok && latency > 0 {
        if e.latency == 0 {
          e.latency := latency;
        } else {
          e.latency := Health.Blend(e.latency, latency);
        }
      }
      if !affectsHealth {
        return;
      }
      var flip, newUp := false, false;
      if ok {
        e.failures := 0;
        e.successes := e.successes + 1;
        if !e.up && e.successes >= thresholds.rise {
          flip, newUp := true, true;
        }
      } else {
        e.successes := 0;
        e.failures := e.failures + 1;
        if e.up && e.failures >= thresholds.fall {
          flip, newUp := true, false;
        }
      }
      if flip {
        e.up := newUp;
        e.announced := e.announced + [newUp];
      }
    }

    /** The outcome of an active health check. */
    method ReportProbe(e: Endpoint, ok: bool, latency: int)
      requires Valid() && e.Valid(thresholds)
      modifies e`up, e`successes, e`failures, e`latency, e`announced, e`log
      ensures Valid() && e.Valid(thresholds)
      ensures e.log == old(e.log) + [Health.Probe(ok, latency)]
    {
      hide Health.Recorded, Paths, Disjoint, NoDup;
      LogSettles(e);
      Record(e, ok, latency, true);
      Health.RecordStep(thresholds, old(e.log), old(e.State()), old(e.latency), e.totalQueries, e.totalFails,
          old(e.announced), Health.Probe(ok, latency));
      e.log := e.log + [Health.Probe(ok, latency)];
    }

    /** The outcome of a client query; it moves the verdict only when passive checks are on. */
    method ReportQuery(e: Endpoint, ok: bool, latency: int)
      requires Valid() && e.Valid(thresholds)
      modifies e`up, e`successes, e`failures, e`latency, e`announced, e`log, e`totalQueries, e`totalFails
      ensures Valid() && e.Valid(thresholds)
      ensures e.log == old(e.log) + [Health.Query(ok, latency)]
      ensures e.totalQueries == old(e.totalQueries) + 1
      ensures e.totalFails == old(e.totalFails) + if ok then 0 else 1
    {
      hide Health.Recorded, Paths, Disjoint, NoDup;
      LogSettles(e);
      e.totalQueries := e.totalQueries + 1;
      if !ok {
        e.totalFails := e.totalFails + 1;
      }
      Record(e, ok, latency, thresholds.passive);
      Health.RecordStep(thresholds, old(e.log), old(e.State()), old(e.latency), old(e.totalQueries), old(e.totalFails),
          old(e.announced), Health.Query(ok, latency));
      e.log := e.log + [Health.Query(ok, latency)];
    }

    /** The very first verdict, which bypasses the thresholds. */
    method SetInitial(e: Endpoint, up: bool, latency: int)
      requires Valid() && e.Valid(thresholds)
      modifies e`up, e`successes, e`failures, e`latency, e`announced, e`log
      ensures Valid() && e.Valid(thresholds)
      ensures e.log == old(e.log) + [Health.Initial(up, latency)]
    {
      hide Health.Recorded, Paths, Disjoint, NoDup;
      if up {
        e.successes, e.failures := thresholds.rise, 0;
        e.latency := latency;
      } else {
        e.successes, e.failures := 0, thresholds.fall;
      }
      if e.up != up {
        e.announced := e.announced + [up];
      }
      e.up := up;
      assert old(e.announced) + [] == old(e.announced);
      Health.RecordStep(thresholds, old(e.log), old(e.State()), old(e.latency), e.totalQueries, e.totalFails,
          old(e.announced), Health.Initial(up, latency));
      e.log := e.log + [Health.Initial(up, latency)];
    }

    /** The traffic counters of every path are those of its log. */
    lemma LogsCount()
      requires Valid()
      ensures forall e :: e in endpoints ==>
                && e in Logs()
                && e.totalQueries == Health.QueryCount(Logs()[e]) && e.totalFails == Health.QueryFails(Logs()[e])
    {
      hide Paths, Disjoint, NoDup;
    }

    lemma PathValid(e: Endpoint)
      requires Valid() && e in endpoints
      ensures e.Valid(thresholds)
    {
    }

    lemma LogSettles(e: Endpoint)
      requires thresholds.Valid() && e.Valid(thresholds)
      ensures Health.Settled(thresholds, e.State())
    {
      Health.VerdictClosedForm(thresholds, Health.Outcomes(thresholds, e.log));
    }
  }

  // ---------------------------------------------------------------- supporting facts

  lemma HealthyListed(us: seq<Upstream>, up: set<Endpoint>, drained: set<Upstream>)
    ensures forall u :: u in HealthyOf(us, up, drained) ==> u in us
  {
  }

  lemma ChosenPermutes(strategy: string, rr: nat, half: Positive, healthy: seq<Upstream>, key: Upstream -> int,
      dice: Dice, out: seq<Upstream>)
    requires Chosen(strategy, rr, half, healthy, key, dice, out)
    ensures multiset(out) == multiset(healthy)
  {
  }

  /** Under rotation, with a counter that fits, the order is the counter's choice. */
  lemma ChosenTurn(rr: nat, half: Positive, healthy: seq<Upstream>, key: Upstream -> int, dice: Dice,
      out: seq<Upstream>, c: nat)
    requires Chosen("round-robin", rr, half, healthy, key, dice, out) && healthy != []
    requires CounterFits(rr, half) && rr == if |healthy| >= 2 then c else rr
    ensures out == Rotate(healthy, c % |healthy|) && out[0] == healthy[c % |healthy|]
  {
    if |healthy| >= 2 {
      TurnFits(healthy, rr, half);
    } else {
      RemOf(c, c, 0, 1);
    }
  }

  /** What "failover" means: the first attempt is the first path up of the first undrained upstream that has one. */
  lemma FailoverChoice(plan: seq<Endpoint>, us: seq<Upstream>, ordered: seq<Upstream>, cut: nat, up: set<Endpoint>,
      drained: set<Upstream>, rr: nat, half: Positive, key: Upstream -> int, dice: Dice, k: nat, e: Endpoint)
    requires Chosen("failover", rr, half, HealthyOf(us, up, drained), key, dice, ordered)
    requires IsPlan(plan, us, ordered, cut, up, drained) && NoDup(us)
    requires k < |us| && us[k] !in drained && IsFirstUp(e, us[k].endpoints, up)
    requires forall i :: 0 <= i < k ==> us[i] in drained || forall x :: x in us[i].endpoints ==> x !in up
    ensures plan != [] && plan[0] == e
  {
    hide IsPlan, IsFirstUp, HealthyOf, DrawnOrder, StableSort;
    FailoverOpens(plan, us, cut, up, drained, k, e);
  }

  /** What "least-latency" means: the first attempt is no slower than any preferred path measured under an hour. */
  lemma LatencyChoice(plan: seq<Endpoint>, us: seq<Upstream>, ordered: seq<Upstream>, cut: nat, up: set<Endpoint>,
      drained: set<Upstream>, rr: nat, half: Positive, latency: map<Endpoint, int>, dice: Dice, k: nat, b: Endpoint)
    requires Chosen("least-latency", rr, half, HealthyOf(us, up, drained), LatencyKey(up, latency), dice, ordered)
    requires IsPlan(plan, us, ordered, cut, up, drained)
    requires k < |us| && us[k] !in drained && IsFirstUp(b, us[k].endpoints, up)
    requires (forall e :: e in up ==> e in latency) && 0 < latency[b] < HOUR
    ensures plan != [] && plan[0] in latency && 0 < latency[plan[0]] <= latency[b]
  {
    hide IsPlan, IsFirstUp, HealthyOf, DrawnOrder, LatencyKey;
    var healthy := HealthyOf(us, up, drained);
    if |healthy| < 2 {
      FewSorted(LatencyKey(up, latency), healthy);
    }
    hide StableSort;
    FastestOpens(plan, us, ordered, cut, up, drained, latency, k, b);
  }

  lemma FewSorted(key: Upstream -> int, s: seq<Upstream>)
    requires |s| < 2
    ensures StableSort(key, s) == s
  {
    if |s| == 1 {
      assert s[..0] == [] && s == [s[0]];
    }
  }

  /** What "random" means: the order drawn, whose head is any u for exactly Weight(u) of the numbers drawn. */
  lemma RandomChoice(rr: nat, half: Positive, healthy: seq<Upstream>, key: Upstream -> int, dice: Dice,
      ordered: seq<Upstream>, u: Upstream)
    requires Chosen("random", rr, half, healthy, key, dice, ordered) && |healthy| >= 2
    requires NoDup(healthy) && u in healthy && forall x :: x in healthy ==> x.weight >= 1
    ensures var mixed := Mixed(healthy, dice);
            var total := Before(WeightsOf(mixed), |mixed|);
            && total > 0 && |DrawsFor(mixed, (x: Upstream) => x.weight, u)| == u.weight
            && |ordered| > 0
            && (ordered[0] == u <==>
                DrawAt(dice.stream, dice.pos + |healthy| - 1, total) in DrawsFor(mixed, (x: Upstream) => x.weight, u))
  {
    RandomOpens(healthy, dice, u);
    hide Mixed, DrawsFor, Before, StableSort;
  }

  lemma HealthyOnce(us: seq<Upstream>, up: set<Endpoint>, drained: set<Upstream>)
    requires NoDup(us)
    ensures NoDup(HealthyOf(us, up, drained))
  {
    hide Keep, HealthySet;
    var h := HealthyOf(us, up, drained);
    KeepIsPart(us, HealthySet(us, up, drained));
    NoDupBag(us);
    forall x | x in h ensures multiset(h)[x] == 1 {
      assert multiset(h)[x] >= 1 && x in multiset(us);
    }
    NoDupBag(h);
  }

  lemma EmptyPool()
    ensures Paths([]) == [] && NoDup<Upstream>([]) && Disjoint([])
  {
  }

  lemma HealthyMember(us: seq<Upstream>, up: set<Endpoint>, drained: set<Upstream>, i: nat)
    requires i < |us|
    ensures us[i] in HealthySet(us, up, drained) <==> us[i] !in drained && FirstUp(us[i].endpoints, up).Some?
    ensures us[i] in DownSet(us, up, drained) <==> us[i] !in drained && FirstUp(us[i].endpoints, up).None?
  {
  }

  lemma JoinKeeps(us: seq<Upstream>, u: Upstream)
    requires NoDup(us) && Disjoint(us) && u !in us && NoDup(u.endpoints)
    requires forall e :: e in u.endpoints ==> e !in Paths(us)
    ensures NoDup(us + [u]) && Disjoint(us + [u])
  {
    forall i, e | 0 <= i < |us| && e in us[i].endpoints ensures e !in u.endpoints {
      PathsMember(us, e);
    }
  }

  /** Removing an upstream's paths from the flat list leaves the paths of the others, in order. */
  lemma DropOwned(us: seq<Upstream>, i: nat)
    requires i < |us| && Disjoint(us)
    ensures Drop(Paths(us), Elements(us[i].endpoints)) == Paths(Without(us, i))
  {
    hide Paths, Drop, Elements, Disjoint, Without;
    OthersNotOwned(us, i);
    OwnedAll(us[i].endpoints);
    PathsAround(us, i);
    DropMiddle(Paths(us[..i]), us[i].endpoints, Paths(us[i + 1..]), Elements(us[i].endpoints));
  }

  lemma PathsAround(us: seq<Upstream>, i: nat)
    requires i < |us|
    ensures Paths(us) == Paths(us[..i]) + (us[i].endpoints + Paths(us[i + 1..]))
    ensures Paths(Without(us, i)) == Paths(us[..i]) + Paths(us[i + 1..])
  {
    hide Paths, Without;
    SplitAt(us, i);
    PathsFront(us[i], us[i + 1..]);
    PathsConcat(us[..i], [us[i]] + us[i + 1..]);
    PathsConcat(us[..i], us[i + 1..]);
  }

  lemma SplitAt(us: seq<Upstream>, i: nat)
    requires i < |us|
    ensures us[..i] + ([us[i]] + us[i + 1..]) == us && us[..i] + us[i + 1..] == Without(us, i)
  {
  }

  lemma PathsFront(u: Upstream, b: seq<Upstream>)
    ensures Paths([u] + b) == u.endpoints + Paths(b)
  {
    PathsConcat([u], b);
    OnlyPaths(u);
  }

  lemma DropMiddle(a: seq<Endpoint>, m: seq<Endpoint>, b: seq<Endpoint>, k: set<Endpoint>)
    requires forall e :: e in a || e in b ==> e !in k
    requires forall e :: e in m ==> e in k
    ensures Drop(a + (m + b), k) == a + b
  {
    hide Drop;
    DropConcat(a, m + b, k);
    DropConcat(m, b, k);
    DropNone(a, k);
    DropNone(b, k);
    DropAll(m, k);
  }

  lemma OthersNotOwned(us: seq<Upstream>, i: nat)
    requires i < |us| && Disjoint(us)
    ensures forall e :: e in Paths(us[..i]) || e in Paths(us[i + 1..]) ==> e !in Elements(us[i].endpoints)
  {
    var a, b := us[..i], us[i + 1..];
    forall e | e in Paths(a) || e in Paths(b) ensures e !in Elements(us[i].endpoints) {
      PathsMember(a, e);
      PathsMember(b, e);
      if e in Paths(a) {
        var k :| 0 <= k < |a| && e in a[k].endpoints;
        assert us[k] == a[k];
      } else {
        var k :| 0 <= k < |b| && e in b[k].endpoints;
        assert us[i + 1 + k] == b[k];
      }
    }
  }

  lemma OnlyPaths(u: Upstream)
    ensures Paths([u]) == u.endpoints
  {
    PathsSnoc([], u);
    assert [] + [u] == [u];
  }

  lemma OwnedAll(es: seq<Endpoint>)
    ensures forall e :: e in es ==> e in Elements(es)
  {
  }

  lemma WithoutCfg(us: seq<Upstream>, i: nat)
    requires i < |us|
    ensures CfgsOf(Without(us, i)) == Without(CfgsOf(us), i)
  {
  }

  lemma WithoutKeeps(us: seq<Upstream>, i: nat)
    requires i < |us| && NoDup(us) && Disjoint(us)
    ensures NoDup(Without(us, i)) && Disjoint(Without(us, i))
    ensures forall k :: 0 <= k < |us| - 1 ==> Without(us, i)[k] in us
    ensures forall e :: e in Paths(Without(us, i)) ==> e in Paths(us)
  {
    hide Paths;
    var w := Without(us, i);
    forall e | e in Paths(w) ensures e in Paths(us) {
      PathsMember(w, e);
      PathsMember(us, e);
      var k :| 0 <= k < |w| && e in w[k].endpoints;
      assert w[k] == us[if k < i then k else k + 1];
    }
  }
}
