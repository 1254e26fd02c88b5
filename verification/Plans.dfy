/**
 The objects a pool is made of, and the order in which one query tries them.

 A plan is judged against one snapshot: the set of endpoints believed up and the set of upstreams
 being drained.  Nothing here reads the heap; upstreams know their paths by constant fields.
 */
module Plans {
  import opened Basics
  import opened Config
  import Health
  import Selection

  /** One network path to a Pi-hole. */
  class Endpoint {
    const name: string
    const addr: string
    var upstream: Upstream?

    var up: bool
    var successes: nat
    var failures: nat
    var latency: int
    var totalQueries: nat
    var totalFails: nat

    /** Everything reported about this path, and every transition announced for it. */
    ghost var log: seq<Health.Event>
    ghost var announced: seq<bool>

    ghost function State(): Health.Verdict
      reads this
    {
      Health.Verdict(up, successes, failures)
    }

    /** The counters, the flag and the average are what the log says. */
    ghost predicate Valid(t: Health.Thresholds)
      reads this
    {
      Health.Recorded(t, log, State(), latency, totalQueries, totalFails, announced)
    }

    ghost predicate Pristine()
      reads this
    {
      && log == [] && announced == [] && State() == Health.NEVER_SEEN
      && latency == 0 && totalQueries == 0 && totalFails == 0
    }

    constructor (ec: EndpointCfg)
      ensures name == ec.name && addr == ec.addr && Pristine()
    {
      name, addr, upstream := ec.name, ec.addr, null;
      up, successes, failures, latency, totalQueries, totalFails := false, 0, 0, 0, 0, 0;
      log, announced := [], [];
    }
  }

  /** One Pi-hole with every path to it, most preferred first. */
  class Upstream {
    const name: string
    const weight: int
    const endpoints: seq<Endpoint>
    var drained: bool

    constructor (uc: UpstreamCfg)
      ensures CfgOf(this) == uc && !drained && NoDup(endpoints)
      ensures fresh(endpoints)
      ensures forall e :: e in endpoints ==> e.upstream == this && e.Pristine()
    {
      var eps: seq<Endpoint> := [];
      for i := 0 to |uc.endpoints|
        invariant |eps| == i && NoDup(eps)
        invariant forall k :: 0 <= k < i ==> fresh(eps[k]) && eps[k].Pristine()
        invariant forall k :: 0 <= k < i ==> EndpointCfg(eps[k].name, eps[k].addr) == uc.endpoints[k]
      {
        var e := new Endpoint(uc.endpoints[i]);
        eps := eps + [e];
      }
      name, weight, endpoints, drained := uc.name, uc.weight, eps, false;
      new;
      for i := 0 to |endpoints|
        invariant !drained
        invariant forall k :: 0 <= k < |endpoints| ==> endpoints[k].Pristine()
        invariant forall k :: 0 <= k < i ==> endpoints[k].upstream == this
      {
        endpoints[i].upstream := this;
      }
    }

    /** Whether any path is up. */
    method Healthy(ghost upSet: set<Endpoint>) returns (b: bool)
      requires forall e :: e in endpoints ==> (e.up <==> e in upSet)
      ensures b == FirstUp(endpoints, upSet).Some?
    {
      var a := Active(upSet);
      b := a.Some?;
    }

    /** The first path that is up, in configuration order. */
    method Active(ghost upSet: set<Endpoint>) returns (r: Option<Endpoint>)
      requires forall e :: e in endpoints ==> (e.up <==> e in upSet)
      ensures r == FirstUp(endpoints, upSet)
      ensures r.Some? ==> IsFirstUp(r.value, endpoints, upSet)
      ensures r.None? ==> forall i :: 0 <= i < |endpoints| ==> !endpoints[i].up
    {
      for i := 0 to |endpoints|
        invariant FirstUp(endpoints, upSet) == FirstUp(endpoints[i..], upSet)
        invariant forall j :: 0 <= j < i ==> !endpoints[j].up
      {
        assert endpoints[i..][1..] == endpoints[i + 1..];
        if endpoints[i].up {
          return Some(endpoints[i]);
        }
      }
      return None;
    }
  }

  // ---------------------------------------------------------------- configuration view

  ghost function CfgOf(u: Upstream): UpstreamCfg {
    UpstreamCfg(u.name, u.weight,
                seq(|u.endpoints|, k requires 0 <= k < |u.endpoints| =>
                  EndpointCfg(u.endpoints[k].name, u.endpoints[k].addr)))
  }

  ghost function CfgsOf(us: seq<Upstream>): (r: seq<UpstreamCfg>)
    ensures |r| == |us|
    ensures forall i :: 0 <= i < |us| ==> r[i] == CfgOf(us[i])
  {
    seq(|us|, i requires 0 <= i < |us| => CfgOf(us[i]))
  }

  // ---------------------------------------------------------------- paths

  /** The path is up, and no path before it in the list is. */
  ghost predicate IsFirstUp(e: Endpoint, es: seq<Endpoint>, up: set<Endpoint>) {
    exists i :: 0 <= i < |es| && es[i] == e && e in up && forall j :: 0 <= j < i ==> es[j] !in up
  }

  /** The most preferred path that is up. */
  ghost function FirstUp(es: seq<Endpoint>, up: set<Endpoint>): (r: Option<Endpoint>)
    ensures r.Some? ==> r.value in es && r.value in up
    ensures r.None? ==> forall e :: e in es ==> e !in up
  {
    if es == [] then None else if es[0] in up then Some(es[0]) else FirstUp(es[1..], up)
  }

  /** It is the first path up in configuration order, and there is none exactly when every path is down. */
  lemma {:induction false} FirstUpExact(es: seq<Endpoint>, up: set<Endpoint>, e: Endpoint)
    ensures FirstUp(es, up) == Some(e) <==> IsFirstUp(e, es, up)
    ensures FirstUp(es, up).None? <==> forall i :: 0 <= i < |es| ==> es[i] !in up
    decreases |es|
  {
    if es != [] && es[0] !in up {
      var rest := es[1..];
      FirstUpExact(rest, up, e);
      if IsFirstUp(e, rest, up) {
        var i :| 0 <= i < |rest| && rest[i] == e && e in up && forall j :: 0 <= j < i ==> rest[j] !in up;
        assert es[i + 1] == e && forall j :: 0 <= j < i + 1 ==> es[j] !in up;
      }
      if IsFirstUp(e, es, up) {
        var i :| 0 <= i < |es| && es[i] == e && e in up && forall j :: 0 <= j < i ==> es[j] !in up;
        assert i > 0;
        assert rest[i - 1] == e && forall j :: 0 <= j < i - 1 ==> rest[j] !in up;
      }
    } else if es != [] && IsFirstUp(e, es, up) {
      var i :| 0 <= i < |es| && es[i] == e && e in up && forall j :: 0 <= j < i ==> es[j] !in up;
      assert i == 0;
    }
  }

  /** All paths, upstream by upstream. */
  ghost function Paths(us: seq<Upstream>): seq<Endpoint> {
    if us == [] then [] else Paths(us[..|us| - 1]) + us[|us| - 1].endpoints
  }

  lemma PathsSnoc(us: seq<Upstream>, u: Upstream)
    ensures Paths(us + [u]) == Paths(us) + u.endpoints
  {
    assert (us + [u])[..|us|] == us;
  }

  lemma {:induction false} PathsConcat(a: seq<Upstream>, b: seq<Upstream>)
    ensures Paths(a + b) == Paths(a) + Paths(b)
    decreases |b|
  {
    if b == [] {
      assert a + b == a;
    } else {
      var p, x := b[..|b| - 1], b[|b| - 1];
      assert a + b == a + p + [x];
      PathsConcat(a, p);
      PathsSnoc(a + p, x);
    }
  }

  lemma {:induction false} PathsMember(us: seq<Upstream>, e: Endpoint)
    ensures e in Paths(us) <==> exists i :: 0 <= i < |us| && e in us[i].endpoints
    decreases |us|
  {
    if us != [] {
      var p := us[..|us| - 1];
      PathsMember(p, e);
      if e in Paths(p) {
        var i :| 0 <= i < |p| && e in p[i].endpoints;
        assert e in us[i].endpoints;
      }
      if exists i :: 0 <= i < |us| && e in us[i].endpoints {
        var i :| 0 <= i < |us| && e in us[i].endpoints;
        if i < |p| {
          assert e in p[i].endpoints;
        }
      }
    }
  }

  /** Reordering upstreams reorders their paths, nothing more. */
  lemma {:induction false} PathsPermute(a: seq<Upstream>, b: seq<Upstream>)
    requires multiset(a) == multiset(b)
    ensures multiset(Paths(a)) == multiset(Paths(b))
    decreases |a|
  {
    hide Paths;
    if a == [] {
      assert |multiset(b)| == 0 && b == [];
    } else {
      var k := PullHead(a, b);
      var x, p, q := a[0], b[..k], b[k + 1..];
      PathsPermute(a[1..], p + q);
      assert a == [x] + a[1..];
      PathsConcat([x], a[1..]);
      PathsConcat(p, [x] + q);
      PathsConcat([x], q);
      PathsConcat(p, q);
    }
  }

  /** Each path leads to one upstream only, and no list repeats a path. */
  ghost predicate Disjoint(us: seq<Upstream>) {
    && (forall i :: 0 <= i < |us| ==> NoDup(us[i].endpoints))
    && (forall i, j, e :: 0 <= i < j < |us| && e in us[i].endpoints ==> e !in us[j].endpoints)
  }

  lemma {:induction false} DisjointNoDup(us: seq<Upstream>)
    requires Disjoint(us)
    ensures NoDup(Paths(us))
    decreases |us|
  {
    if us != [] {
      var p, last := us[..|us| - 1], us[|us| - 1].endpoints;
      DisjointNoDup(p);
      forall e | e in Paths(p) ensures e !in last {
        PathsMember(p, e);
      }
      var all := Paths(us);
      forall i, j | 0 <= i < j < |all| ensures all[i] != all[j] {
        if i < |Paths(p)| <= j {
          assert all[i] in Paths(p) && all[j] in last;
        }
      }
    }
  }

  // ---------------------------------------------------------------- the three tiers

  /** Tier one: the preferred path of each upstream. */
  ghost function Preferred(us: seq<Upstream>, up: set<Endpoint>): seq<Endpoint> {
    if us == [] then []
    else
      var a := FirstUp(us[|us| - 1].endpoints, up);
      Preferred(us[..|us| - 1], up) + if a.Some? then [a.value] else []
  }

  ghost function OthersOf(u: Upstream, up: set<Endpoint>): seq<Endpoint> {
    var a := FirstUp(u.endpoints, up);
    if a.Some? then Keep(u.endpoints, up - {a.value}) else []
  }

  /** Tier two: the remaining paths that are up. */
  ghost function Others(us: seq<Upstream>, up: set<Endpoint>): seq<Endpoint> {
    if us == [] then [] else Others(us[..|us| - 1], up) + OthersOf(us[|us| - 1], up)
  }

  /** Tier three: the paths believed down. */
  ghost function Downs(us: seq<Upstream>, up: set<Endpoint>): seq<Endpoint> {
    if us == [] then [] else Downs(us[..|us| - 1], up) + Drop(us[|us| - 1].endpoints, up)
  }

  lemma OneUpstreamSplits(u: Upstream, up: set<Endpoint>)
    requires NoDup(u.endpoints)
    ensures var a := FirstUp(u.endpoints, up);
            multiset(if a.Some? then [a.value] else []) + multiset(OthersOf(u, up)) + multiset(Drop(u.endpoints, up))
            == multiset(u.endpoints)
  {
    KeepOrDrop(u.endpoints, up);
    var a := FirstUp(u.endpoints, up);
    if a.Some? {
      KeepSplit(u.endpoints, up, a.value);
    } else {
      KeepNone(u.endpoints, up);
    }
  }

  /** The tiers of a list of upstreams are their paths, each exactly once. */
  lemma {:induction false} TiersCover(us: seq<Upstream>, up: set<Endpoint>)
    requires forall i :: 0 <= i < |us| ==> NoDup(us[i].endpoints)
    ensures multiset(Preferred(us, up)) + multiset(Others(us, up)) + multiset(Downs(us, up)) == multiset(Paths(us))
    decreases |us|
  {
    if us != [] {
      TiersCover(us[..|us| - 1], up);
      OneUpstreamSplits(us[|us| - 1], up);
    }
  }

  lemma {:induction false} PreferredAt(us: seq<Upstream>, up: set<Endpoint>)
    requires forall i :: 0 <= i < |us| ==> FirstUp(us[i].endpoints, up).Some?
    ensures |Preferred(us, up)| == |us|
    ensures forall i :: 0 <= i < |us| ==> Preferred(us, up)[i] == FirstUp(us[i].endpoints, up).value
    decreases |us|
  {
    if us != [] {
      PreferredAt(us[..|us| - 1], up);
    }
  }

  lemma {:induction false} TierStates(us: seq<Upstream>, up: set<Endpoint>)
    ensures forall e :: e in Others(us, up) ==> e in up
    ensures forall e :: e in Downs(us, up) ==> e !in up
    decreases |us|
  {
    if us != [] {
      TierStates(us[..|us| - 1], up);
    }
  }

  // ---------------------------------------------------------------- plans

  ghost function HealthySet(us: seq<Upstream>, up: set<Endpoint>, drained: set<Upstream>): set<Upstream> {
    set i | 0 <= i < |us| && us[i] !in drained && FirstUp(us[i].endpoints, up).Some? :: us[i]
  }

  /** Undrained upstreams with a path that is up, in configuration order. */
  ghost function HealthyOf(us: seq<Upstream>, up: set<Endpoint>, drained: set<Upstream>): seq<Upstream> {
    Keep(us, HealthySet(us, up, drained))
  }

  /**
   The plan that the dice at hand lead to, and how many numbers it takes: the preferred paths in order,
   the other paths up in shuffled order, then those down in shuffled order; or, when there is none of
   these, the paths of the drained upstreams in shuffled order.
   */
  ghost function Layout(us: seq<Upstream>, ordered: seq<Upstream>, up: set<Endpoint>, drained: set<Upstream>,
      dice: Selection.Dice): (seq<Endpoint>, nat) {
    var second, last := Others(ordered, up), Downs(ordered, up) + Paths(Keep(us, DownSet(us, up, drained)));
    var n := Selection.ShuffleDraws(|second|);
    var m := n + Selection.ShuffleDraws(|last|);
    var plan := Preferred(ordered, up) + Selection.Mixed(second, dice) + Selection.Mixed(last, dice.Later(n));
    var all := Paths(Keep(us, drained));
    if plan != [] then (plan, m) else (Selection.Mixed(all, dice.Later(m)), m + Selection.ShuffleDraws(|all|))
  }

  lemma LayoutIs(us: seq<Upstream>, ordered: seq<Upstream>, up: set<Endpoint>, drained: set<Upstream>,
      dice: Selection.Dice)
    ensures var second, last := Others(ordered, up), Downs(ordered, up) + Paths(Keep(us, DownSet(us, up, drained)));
            var n := Selection.ShuffleDraws(|second|);
            var m := n + Selection.ShuffleDraws(|last|);
            var plan := Preferred(ordered, up) + Selection.Mixed(second, dice) + Selection.Mixed(last, dice.Later(n));
            var all := Paths(Keep(us, drained));
            && (plan != [] ==> Layout(us, ordered, up, drained, dice) == (plan, m))
            && (plan == [] ==> Layout(us, ordered, up, drained, dice)
                               == (Selection.Mixed(all, dice.Later(m)), m + Selection.ShuffleDraws(|all|)))
  {
    hide Others, Downs, Paths, Keep, DownSet, Preferred, Selection.Mixed, Selection.ShuffleDraws;
  }

  /** Retries are spread: every order of the other paths up, with every order of those down, comes out of some dice. */
  lemma RetriesReach(us: seq<Upstream>, ordered: seq<Upstream>, up: set<Endpoint>, drained: set<Upstream>,
      second: seq<Endpoint>, last: seq<Endpoint>) returns (dice: Selection.Dice)
    requires multiset(second) == multiset(Others(ordered, up))
    requires multiset(last) == multiset(Downs(ordered, up) + Paths(Keep(us, DownSet(us, up, drained))))
    requires Preferred(ordered, up) + second + last != []
    ensures Layout(us, ordered, up, drained, dice).0 == Preferred(ordered, up) + second + last
  {
    hide Others, Downs, Paths, Keep, DownSet, Preferred, Layout;
    var s2, s3 := Others(ordered, up), Downs(ordered, up) + Paths(Keep(us, DownSet(us, up, drained)));
    var a := Selection.ShuffleReaches(s2, second);
    var b := Selection.ShuffleReaches(s3, last);
    var n := |a|;
    var stream := (k: nat) => if k < n then a[k] else if k - n < |b| then b[k - n] else 0;
    dice := Selection.Dice(stream, 0);
    Selection.DrawsSupplied(a, |s2|, stream, 0);
    Selection.DrawsSupplied(b, |s3|, stream, n);
    LayoutIs(us, ordered, up, drained, dice);
  }

  /** Healthy means undrained with some path up. */
  lemma HealthyMeans(us: seq<Upstream>, up: set<Endpoint>, drained: set<Upstream>, i: nat)
    requires i < |us|
    ensures us[i] in HealthyOf(us, up, drained) <==>
              us[i] !in drained && exists k :: 0 <= k < |us[i].endpoints| && us[i].endpoints[k] in up
  {
    var at := KeepInOrder(us, HealthySet(us, up, drained));
    InHealthy(us, up, drained, us[i]);
    assert FirstUp(us[i].endpoints, up).Some? ==> FirstUp(us[i].endpoints, up).value in us[i].endpoints;
    assert us[i] in HealthySet(us, up, drained) ==> i in at;
  }

  /**
   What a plan is, given the snapshot, the order chosen for the healthy upstreams, and the position
   where paths believed up end and paths believed down begin.
   */
  ghost predicate IsPlan(plan: seq<Endpoint>, us: seq<Upstream>, ordered: seq<Upstream>, cut: nat,
                         up: set<Endpoint>, drained: set<Upstream>)
  {
    var live := Drop(us, drained);
    && multiset(ordered) == multiset(HealthyOf(us, up, drained))
    && (Paths(live) == [] ==> multiset(plan) == multiset(Paths(us)))
    && (Paths(live) != [] ==>
          && multiset(plan) == multiset(Paths(live))
          && |ordered| <= cut <= |plan|
          && (forall i :: 0 <= i < |ordered| ==> IsFirstUp(plan[i], ordered[i].endpoints, up))
          && (forall i :: 0 <= i < cut ==> plan[i] in up)
          && (forall i :: cut <= i < |plan| ==> plan[i] !in up))
  }

  lemma {:induction false} NotHealthyNoneUp(us: seq<Upstream>, k: set<Upstream>, up: set<Endpoint>)
    requires forall u :: u in k ==> FirstUp(u.endpoints, up).None?
    ensures forall e :: e in Paths(Keep(us, k)) ==> e !in up
    decreases |us|
  {
    forall e | e in Paths(Keep(us, k)) ensures e !in up {
      PathsMember(Keep(us, k), e);
      var i :| 0 <= i < |Keep(us, k)| && e in Keep(us, k)[i].endpoints;
      assert Keep(us, k)[i] in Keep(us, k);
    }
  }

  /** Undrained upstreams are the healthy ones and the down ones. */
  lemma {:induction false} LiveSplits(us: seq<Upstream>, healthy: set<Upstream>, down: set<Upstream>,
      drained: set<Upstream>)
    requires healthy !! down && healthy !! drained && down !! drained
    requires forall i :: 0 <= i < |us| ==> us[i] in healthy || us[i] in down || us[i] in drained
    ensures multiset(Drop(us, drained)) == multiset(Keep(us, healthy)) + multiset(Keep(us, down))
    decreases |us|
  {
    if us != [] {
      LiveSplits(us[..|us| - 1], healthy, down, drained);
    }
  }

  lemma PartNoDup(us: seq<Upstream>, part: seq<Upstream>)
    requires Disjoint(us) && multiset(part) <= multiset(us)
    ensures forall i :: 0 <= i < |part| ==> NoDup(part[i].endpoints)
  {
    forall i | 0 <= i < |part| ensures NoDup(part[i].endpoints) {
      assert part[i] in multiset(part) && part[i] in multiset(us);
      var j :| 0 <= j < |us| && us[j] == part[i];
    }
  }

  lemma {:induction false} KeepIsPart<T>(s: seq<T>, k: set<T>)
    ensures multiset(Keep(s, k)) <= multiset(s)
  {
    KeepOrDrop(s, k);
  }

  ghost function DownSet(us: seq<Upstream>, up: set<Endpoint>, drained: set<Upstream>): set<Upstream> {
    set i | 0 <= i < |us| && us[i] !in drained && FirstUp(us[i].endpoints, up).None? :: us[i]
  }

  /** The undrained paths are the three tiers of the healthy upstreams and the paths of the down ones. */
  lemma LiveTiers(us: seq<Upstream>, ordered: seq<Upstream>, up: set<Endpoint>, drained: set<Upstream>)
    requires Disjoint(us)
    requires multiset(ordered) == multiset(HealthyOf(us, up, drained))
    ensures multiset(Paths(Drop(us, drained))) ==
            multiset(Preferred(ordered, up)) + multiset(Others(ordered, up))
            + multiset(Downs(ordered, up) + Paths(Keep(us, DownSet(us, up, drained))))
  {
    var healthy, down := HealthySet(us, up, drained), DownSet(us, up, drained);
    LiveSplits(us, healthy, down, drained);
    KeepIsPart(us, healthy);
    PartNoDup(us, ordered);
    hide Preferred, Others, Downs, Paths, Keep, Drop, HealthySet, DownSet;
    var cold := Keep(us, down);
    TiersCover(ordered, up);
    PathsPermute(Drop(us, drained), ordered + cold);
    PathsConcat(ordered, cold);
  }

  lemma OrderedHealthy(us: seq<Upstream>, ordered: seq<Upstream>, up: set<Endpoint>, drained: set<Upstream>)
    requires multiset(ordered) == multiset(HealthyOf(us, up, drained))
    ensures forall i :: 0 <= i < |ordered| ==> FirstUp(ordered[i].endpoints, up).Some?
  {
    forall i | 0 <= i < |ordered| ensures FirstUp(ordered[i].endpoints, up).Some? {
      assert ordered[i] in multiset(ordered) && ordered[i] in HealthyOf(us, up, drained);
    }
  }

  /** Concatenating the tiers, however the last two are shuffled, yields a plan. */
  lemma TiersMakePlan(us: seq<Upstream>, ordered: seq<Upstream>, up: set<Endpoint>, drained: set<Upstream>,
                      second: seq<Endpoint>, last: seq<Endpoint>)
    requires Disjoint(us)
    requires multiset(ordered) == multiset(HealthyOf(us, up, drained))
    requires multiset(second) == multiset(Others(ordered, up))
    requires multiset(last) == multiset(Downs(ordered, up) + Paths(Keep(us, DownSet(us, up, drained))))
    ensures var plan := Preferred(ordered, up) + second + last;
            && multiset(plan) == multiset(Paths(Drop(us, drained)))
            && (Paths(Drop(us, drained)) != [] ==> IsPlan(plan, us, ordered, |ordered| + |second|, up, drained))
  {
    hide Preferred, Others, Downs, Paths, Keep, Drop, FirstUp, HealthySet, DownSet;
    LiveTiers(us, ordered, up, drained);
    TierMembers(us, ordered, up, drained, second, last);
    PlanFromPieces(us, ordered, up, drained, Preferred(ordered, up), second, last);
  }

  lemma PlanFromPieces(us: seq<Upstream>, ordered: seq<Upstream>, up: set<Endpoint>, drained: set<Upstream>,
                       first: seq<Endpoint>, second: seq<Endpoint>, last: seq<Endpoint>)
    requires multiset(ordered) == multiset(HealthyOf(us, up, drained))
    requires multiset(first) + multiset(second) + multiset(last) == multiset(Paths(Drop(us, drained)))
    requires |first| == |ordered|
    requires forall i :: 0 <= i < |ordered| ==> FirstUp(ordered[i].endpoints, up) == Some(first[i])
    requires forall i :: 0 <= i < |first| ==> first[i] in up
    requires forall i :: 0 <= i < |second| ==> second[i] in up
    requires forall i :: 0 <= i < |last| ==> last[i] !in up
    ensures var plan := first + second + last;
            && multiset(plan) == multiset(Paths(Drop(us, drained)))
            && (Paths(Drop(us, drained)) != [] ==> IsPlan(plan, us, ordered, |ordered| + |second|, up, drained))
  {
    hide Paths, Drop, FirstUp, HealthyOf, IsFirstUp;
    forall i | 0 <= i < |ordered| ensures IsFirstUp(first[i], ordered[i].endpoints, up) {
      FirstUpExact(ordered[i].endpoints, up, first[i]);
    }
    Pieces(first, second, last, up);
  }

  /** The first tier follows the order; it and the second are up, the last is down. */
  lemma TierMembers(us: seq<Upstream>, ordered: seq<Upstream>, up: set<Endpoint>, drained: set<Upstream>,
                    second: seq<Endpoint>, last: seq<Endpoint>)
    requires multiset(ordered) == multiset(HealthyOf(us, up, drained))
    requires multiset(second) == multiset(Others(ordered, up))
    requires multiset(last) == multiset(Downs(ordered, up) + Paths(Keep(us, DownSet(us, up, drained))))
    ensures |Preferred(ordered, up)| == |ordered|
    ensures forall i :: 0 <= i < |ordered| ==> FirstUp(ordered[i].endpoints, up) == Some(Preferred(ordered, up)[i])
    ensures forall i :: 0 <= i < |ordered| ==> Preferred(ordered, up)[i] in up
    ensures forall i :: 0 <= i < |second| ==> second[i] in up
    ensures forall i :: 0 <= i < |last| ==> last[i] !in up
  {
    hide Preferred, Others, Downs, Paths, Keep, Drop, HealthySet, DownSet;
    OrderedHealthy(us, ordered, up, drained);
    PreferredAt(ordered, up);
    TierStates(ordered, up);
    ColdPathsDown(us, up, drained);
    forall i | 0 <= i < |second| ensures second[i] in up {
      assert second[i] in multiset(second) && second[i] in Others(ordered, up);
    }
    forall i | 0 <= i < |last| ensures last[i] !in up {
      assert last[i] in multiset(last) && last[i] in Downs(ordered, up) + Paths(Keep(us, DownSet(us, up, drained)));
    }
  }

  lemma ColdPathsDown(us: seq<Upstream>, up: set<Endpoint>, drained: set<Upstream>)
    ensures forall e :: e in Paths(Keep(us, DownSet(us, up, drained))) ==> e !in up
  {
    NotHealthyNoneUp(us, DownSet(us, up, drained), up);
  }

  lemma Pieces(first: seq<Endpoint>, second: seq<Endpoint>, last: seq<Endpoint>, up: set<Endpoint>)
    requires forall i :: 0 <= i < |first| ==> first[i] in up
    requires forall i :: 0 <= i < |second| ==> second[i] in up
    requires forall i :: 0 <= i < |last| ==> last[i] !in up
    ensures var plan := first + second + last;
            && multiset(plan) == multiset(first) + multiset(second) + multiset(last)
            && (forall i :: 0 <= i < |first| ==> plan[i] == first[i])
            && (forall i :: 0 <= i < |first| + |second| ==> plan[i] in up)
            && (forall i :: |first| + |second| <= i < |plan| ==> plan[i] !in up)
  {
  }

  /** When every path belongs to a drained upstream, any arrangement of those paths is a plan. */
  lemma DrainedMakePlan(us: seq<Upstream>, up: set<Endpoint>, drained: set<Upstream>, ordered: seq<Upstream>,
      plan: seq<Endpoint>)
    requires Paths(Drop(us, drained)) == []
    requires multiset(ordered) == multiset(HealthyOf(us, up, drained))
    requires multiset(plan) == multiset(Paths(Keep(us, drained)))
    ensures IsPlan(plan, us, ordered, 0, up, drained)
  {
    KeepOrDrop(us, drained);
    PathsPermute(us, Keep(us, drained) + Drop(us, drained));
    PathsConcat(Keep(us, drained), Drop(us, drained));
  }

  // ---------------------------------------------------------------- what a plan guarantees

  lemma DropMember(us: seq<Upstream>, drained: set<Upstream>, u: Upstream)
    ensures u in Drop(us, drained) <==> u in us && u !in drained
  {
    if us != [] {
      DropMember(us[..|us| - 1], drained, u);
    }
  }

  /**
   Exact cover: every path of every undrained upstream appears exactly once, and nothing else does;
   if the undrained ones have no path at all, every path appears exactly once.  A plan is empty only
   when there is nothing to plan with.
   */
  lemma PlanExactCover(plan: seq<Endpoint>, us: seq<Upstream>, ordered: seq<Upstream>, cut: nat, up: set<Endpoint>,
      drained: set<Upstream>, e: Endpoint)
    requires IsPlan(plan, us, ordered, cut, up, drained) && Disjoint(us)
    ensures NoDup(plan)
    ensures var open := exists i :: 0 <= i < |us| && us[i] !in drained && us[i].endpoints != [];
            e in plan <==> exists i :: 0 <= i < |us| && (open ==> us[i] !in drained) && e in us[i].endpoints
    ensures plan == [] <==> forall i :: 0 <= i < |us| ==> us[i].endpoints == []
  {
    var live := Drop(us, drained);
    CoverMember(us, drained, e);
    LiveHasPaths(us, drained);
    DisjointNoDup(us);
    NoDupBag(Paths(us));
    LivePart(us, drained);
    hide Paths, Drop;
    assert |plan| == |multiset(plan)|;
    assert e in plan <==> e in multiset(plan);
    forall x | x in plan ensures multiset(plan)[x] == 1 {
      assert multiset(plan)[x] >= 1 && x in multiset(Paths(us));
      assert x in Paths(us);
    }
    NoDupBag(plan);
  }

  lemma LivePart(us: seq<Upstream>, drained: set<Upstream>)
    ensures multiset(Paths(Drop(us, drained))) <= multiset(Paths(us))
  {
    KeepOrDrop(us, drained);
    PathsPermute(us, Keep(us, drained) + Drop(us, drained));
    PathsConcat(Keep(us, drained), Drop(us, drained));
  }

  lemma CoverMember(us: seq<Upstream>, drained: set<Upstream>, e: Endpoint)
    ensures e in Paths(us) <==> exists i :: 0 <= i < |us| && e in us[i].endpoints
    ensures e in Paths(Drop(us, drained)) <==> exists i :: 0 <= i < |us| && us[i] !in drained && e in us[i].endpoints
  {
    PathsMember(us, e);
    var live := Drop(us, drained);
    PathsMember(live, e);
    if e in Paths(live) {
      var k :| 0 <= k < |live| && e in live[k].endpoints;
      assert live[k] in live;
      DropMember(us, drained, live[k]);
      var i :| 0 <= i < |us| && us[i] == live[k];
    }
    if exists i :: 0 <= i < |us| && us[i] !in drained && e in us[i].endpoints {
      var i :| 0 <= i < |us| && us[i] !in drained && e in us[i].endpoints;
      DropMember(us, drained, us[i]);
      var k :| 0 <= k < |live| && live[k] == us[i];
    }
  }

  lemma LiveHasPaths(us: seq<Upstream>, drained: set<Upstream>)
    ensures Paths(Drop(us, drained)) != [] <==> exists i :: 0 <= i < |us| && us[i] !in drained && us[i].endpoints != []
    ensures Paths(us) != [] <==> exists i :: 0 <= i < |us| && us[i].endpoints != []
  {
    var live := Paths(Drop(us, drained));
    if live != [] {
      assert live[0] in live;
      CoverMember(us, drained, live[0]);
    }
    if Paths(us) != [] {
      assert Paths(us)[0] in Paths(us);
      CoverMember(us, drained, Paths(us)[0]);
    }
    forall i | 0 <= i < |us| && us[i].endpoints != []
      ensures Paths(us) != [] && (us[i] !in drained ==> live != [])
    {
      assert us[i].endpoints[0] in us[i].endpoints;
      CoverMember(us, drained, us[i].endpoints[0]);
    }
  }

  /**
   A plan opens with one path of each healthy upstream, so the first attempts all reach different
   Pi-holes, in the order the strategy chose.
   */
  lemma FirstAttemptsDistinct(plan: seq<Endpoint>, us: seq<Upstream>, ordered: seq<Upstream>, cut: nat,
      up: set<Endpoint>, drained: set<Upstream>, i: nat, j: nat)
    requires IsPlan(plan, us, ordered, cut, up, drained) && Disjoint(us) && NoDup(us)
    requires Paths(Drop(us, drained)) != [] && i < j < |ordered|
    ensures plan[i] in ordered[i].endpoints && plan[j] in ordered[j].endpoints && ordered[i] != ordered[j]
    ensures plan[i] !in ordered[j].endpoints
  {
    var h := HealthyOf(us, up, drained);
    KeepIsPart(us, HealthySet(us, up, drained));
    NoDupBag(us);
    forall x | x in ordered ensures multiset(ordered)[x] == 1 {
      assert multiset(ordered)[x] >= 1 && x in multiset(us);
      assert x in us;
    }
    NoDupBag(ordered);
    assert ordered[i] in multiset(us) && ordered[j] in multiset(us);
    var a :| 0 <= a < |us| && us[a] == ordered[i];
    var b :| 0 <= b < |us| && us[b] == ordered[j];
    assert a != b;
  }

  /** The first attempt goes to the preferred path of the upstream the strategy put first. */
  lemma PlanOpens(plan: seq<Endpoint>, us: seq<Upstream>, ordered: seq<Upstream>, cut: nat, up: set<Endpoint>,
      drained: set<Upstream>)
    requires IsPlan(plan, us, ordered, cut, up, drained) && ordered != []
    ensures plan != [] && IsFirstUp(plan[0], ordered[0].endpoints, up)
  {
    assert ordered[0] in multiset(ordered);
    assert ordered[0] in HealthyOf(us, up, drained);
    LiveHasPaths(us, drained);
    hide Paths, Drop;
  }

  // ---------------------------------------------------------------- least latency

  const HOUR := 3_600_000_000_000

  /** Measured latency of the preferred path; unmeasured ones count as an hour. */
  ghost function EffectiveLatency(u: Upstream, up: set<Endpoint>, latency: map<Endpoint, int>): int {
    var a := FirstUp(u.endpoints, up);
    if a.Some? && a.value in latency && latency[a.value] > 0 then latency[a.value] else HOUR
  }

  ghost function LatencyKey(up: set<Endpoint>, latency: map<Endpoint, int>): Upstream -> int {
    (u: Upstream) => EffectiveLatency(u, up, latency)
  }

  /**
   In least-latency order, before an upstream whose preferred path was measured under an hour come only
   upstreams whose preferred path was measured, and is no slower.
   */
  lemma MeasuredFirst(healthy: seq<Upstream>, up: set<Endpoint>, latency: map<Endpoint, int>, i: nat, j: nat,
      a: Endpoint, b: Endpoint)
    requires i < j < |healthy| && a in latency && b in latency && 0 < latency[b] < HOUR
    requires var s := Selection.StableSort(LatencyKey(up, latency), healthy);
             |s| == |healthy| && IsFirstUp(a, s[i].endpoints, up) && IsFirstUp(b, s[j].endpoints, up)
    ensures 0 < latency[a] <= latency[b]
  {
    hide IsFirstUp;
    var key := LatencyKey(up, latency);
    var s := Selection.StableSort(key, healthy);
    Selection.StableSortCorrect(key, healthy, 0);
    FirstUpExact(s[i].endpoints, up, a);
    FirstUpExact(s[j].endpoints, up, b);
    assert key(s[i]) <= key(s[j]);
  }

  /** Under least latency the first attempt goes to a path no slower than any preferred path measured under an hour. */
  lemma FastestOpens(plan: seq<Endpoint>, us: seq<Upstream>, ordered: seq<Upstream>, cut: nat, up: set<Endpoint>,
      drained: set<Upstream>, latency: map<Endpoint, int>, k: nat, b: Endpoint)
    requires IsPlan(plan, us, ordered, cut, up, drained)
    requires ordered == Selection.StableSort(LatencyKey(up, latency), HealthyOf(us, up, drained))
    requires k < |us| && us[k] !in drained && IsFirstUp(b, us[k].endpoints, up)
    requires (forall e :: e in up ==> e in latency) && 0 < latency[b] < HOUR
    ensures plan != [] && plan[0] in latency && 0 < latency[plan[0]] <= latency[b]
  {
    var healthy := HealthyOf(us, up, drained);
    FirstUpExact(us[k].endpoints, up, b);
    var at := KeepInOrder(us, HealthySet(us, up, drained));
    assert us[k] in HealthySet(us, up, drained);
    assert us[k] in healthy;
    hide HealthyOf, HealthySet, EffectiveLatency;
    Selection.StableSortCorrect(LatencyKey(up, latency), healthy, 0);
    assert us[k] in multiset(ordered) && |ordered| == |multiset(ordered)| == |healthy|;
    var j :| 0 <= j < |ordered| && ordered[j] == us[k];
    PlanOpens(plan, us, ordered, cut, up, drained);
    if j > 0 {
      MeasuredFirst(healthy, up, latency, 0, j, plan[0], b);
    } else {
      FirstUpExact(us[k].endpoints, up, plan[0]);
    }
  }

  lemma InHealthy(us: seq<Upstream>, up: set<Endpoint>, drained: set<Upstream>, u: Upstream)
    ensures u in HealthySet(us, up, drained) <==> u in us && u !in drained && FirstUp(u.endpoints, up).Some?
  {
  }

  /** Under failover the first attempt goes to the first undrained upstream in configuration order with a path up. */
  lemma FailoverOpens(plan: seq<Endpoint>, us: seq<Upstream>, cut: nat, up: set<Endpoint>, drained: set<Upstream>,
      k: nat, e: Endpoint)
    requires IsPlan(plan, us, HealthyOf(us, up, drained), cut, up, drained)
    requires k < |us| && us[k] !in drained && IsFirstUp(e, us[k].endpoints, up) && NoDup(us)
    requires forall i :: 0 <= i < k ==> us[i] in drained || forall x :: x in us[i].endpoints ==> x !in up
    ensures plan != [] && plan[0] == e
  {
    var healthy := HealthySet(us, up, drained);
    FirstUpExact(us[k].endpoints, up, e);
    assert us[k] in healthy;
    forall i | 0 <= i < k ensures us[i] !in healthy {
      InHealthy(us, up, drained, us[i]);
    }
    KeepFirst(us, healthy, k);
    PlanOpens(plan, us, HealthyOf(us, up, drained), cut, up, drained);
    FirstUpExact(us[k].endpoints, up, plan[0]);
  }
}
