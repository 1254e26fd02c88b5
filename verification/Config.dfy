/**
 The upstream part of the configuration: what a well-formed list of Pi-holes is, how a file is
 validated into one, and how a single upstream is prepared for the management interface.

 Address normalisation is a parameter: any function that either rejects a text or returns the
 normalised address.
 */
module Config {
  import opened Basics

  datatype EndpointCfg = EndpointCfg(name: string, addr: string)

  datatype UpstreamCfg = UpstreamCfg(name: string, weight: int, endpoints: seq<EndpointCfg>)

  datatype ConfigError =
    | NoUpstreams | EmptyName | BadName | DuplicateName | NegativeWeight | NoEndpoint | BadAddress | DuplicateAddress
    | BadStrategy | BadThreshold | NoResolver | BadResolver | DuplicateResolver

  type Normaliser = string -> Option<string>

  const STRATEGY_RANDOM := "random"
  const STRATEGY_ROUND_ROBIN := "round-robin"
  const STRATEGY_FAILOVER := "failover"
  const STRATEGY_LEAST_LATENCY := "least-latency"

  predicate ValidStrategy(name: string) {
    name in [STRATEGY_RANDOM, STRATEGY_ROUND_ROBIN, STRATEGY_FAILOVER, STRATEGY_LEAST_LATENCY]
  }

  // ---------------------------------------------------------------- well-formed lists

  ghost predicate DistinctAddrs(eps: seq<EndpointCfg>) {
    forall i, j :: 0 <= i < j < |eps| ==> eps[i].addr != eps[j].addr
  }

  ghost predicate WellFormed(u: UpstreamCfg) {
    u.name != "" && u.weight >= 1 && u.endpoints != [] && DistinctAddrs(u.endpoints)
  }

  ghost predicate SharesAddr(a: seq<EndpointCfg>, b: seq<EndpointCfg>) {
    exists i, j :: 0 <= i < |a| && 0 <= j < |b| && a[i].addr == b[j].addr
  }

  /** Two upstreams that may live in one pool: different names, no common address. */
  ghost predicate Separate(u: UpstreamCfg, v: UpstreamCfg) {
    u.name != v.name && !SharesAddr(u.endpoints, v.endpoints)
  }

  ghost predicate Pairwise(us: seq<UpstreamCfg>) {
    forall i, j :: 0 <= i < j < |us| ==> Separate(us[i], us[j])
  }

  /** What the pool and the manager rely on. */
  ghost predicate ValidUpstreams(us: seq<UpstreamCfg>) {
    && us != []
    && (forall i :: 0 <= i < |us| ==> WellFormed(us[i]))
    && Pairwise(us)
  }

  /** The new upstream would repeat a name or an address already in the list. */
  ghost predicate Clashes(us: seq<UpstreamCfg>, u: UpstreamCfg) {
    exists i :: 0 <= i < |us| && !Separate(us[i], u)
  }

  function Without<T>(s: seq<T>, i: nat): (r: seq<T>)
    requires i < |s|
    ensures |r| == |s| - 1
    ensures forall k :: 0 <= k < |r| ==> r[k] == s[if k < i then k else k + 1]
  {
    s[..i] + s[i + 1..]
  }

  lemma SeparateSymmetric(u: UpstreamCfg, v: UpstreamCfg)
    ensures Separate(u, v) <==> Separate(v, u)
  {
    if SharesAddr(u.endpoints, v.endpoints) {
      var i, j :| 0 <= i < |u.endpoints| && 0 <= j < |v.endpoints| && u.endpoints[i].addr == v.endpoints[j].addr;
      assert SharesAddr(v.endpoints, u.endpoints);
    }
    if SharesAddr(v.endpoints, u.endpoints) {
      var i, j :| 0 <= i < |v.endpoints| && 0 <= j < |u.endpoints| && v.endpoints[i].addr == u.endpoints[j].addr;
      assert SharesAddr(u.endpoints, v.endpoints);
    }
  }

  /** What a valid list is, spelled out: named, weighted, reachable upstreams, no name and no address twice. */
  lemma ValidMeans(us: seq<UpstreamCfg>)
    ensures ValidUpstreams(us) <==>
              && |us| > 0
              && (forall i :: 0 <= i < |us| ==> us[i].name != "" && us[i].weight >= 1 && |us[i].endpoints| > 0)
              && (forall i, j :: 0 <= i < j < |us| ==> us[i].name != us[j].name)
              && (forall i, j, k, m :: 0 <= i < |us| && 0 <= j < |us| && (i != j || k != m)
                                       && 0 <= k < |us[i].endpoints| && 0 <= m < |us[j].endpoints| ==>
                    us[i].endpoints[k].addr != us[j].endpoints[m].addr)
  {
    if ValidUpstreams(us) {
      forall i, j, k, m | 0 <= i < |us| && 0 <= j < |us| && (i != j || k != m)
                          && 0 <= k < |us[i].endpoints| && 0 <= m < |us[j].endpoints|
        ensures us[i].endpoints[k].addr != us[j].endpoints[m].addr
      {
        AddressesApart(us, i, j, k, m);
      }
    }
  }

  lemma AddressesApart(us: seq<UpstreamCfg>, i: nat, j: nat, k: nat, m: nat)
    requires ValidUpstreams(us) && i < |us| && j < |us| && k < |us[i].endpoints| && m < |us[j].endpoints|
    requires i != j || k != m
    ensures us[i].endpoints[k].addr != us[j].endpoints[m].addr
  {
    assert WellFormed(us[i]);
    if i < j {
      assert Separate(us[i], us[j]);
    } else if j < i {
      assert Separate(us[j], us[i]);
    }
  }

  lemma AddKeepsValid(us: seq<UpstreamCfg>, u: UpstreamCfg)
    requires ValidUpstreams(us) && WellFormed(u) && !Clashes(us, u)
    ensures ValidUpstreams(us + [u])
  {
    hide Separate;
  }

  /** Taking one out of several keeps the list valid, and it can always be put back at the end. */
  lemma RemoveKeepsValid(us: seq<UpstreamCfg>, i: nat)
    requires ValidUpstreams(us) && i < |us| && |us| > 1
    ensures ValidUpstreams(Without(us, i))
    ensures !Clashes(Without(us, i), us[i])
    ensures ValidUpstreams(Without(us, i) + [us[i]])
  {
    var w := Without(us, i);
    forall k | 0 <= k < |w| ensures Separate(w[k], us[i]) {
      SeparateSymmetric(w[k], us[i]);
    }
    AddKeepsValid(w, us[i]);
  }

  // ---------------------------------------------------------------- filling in defaults

  ghost predicate Normalises(eps: seq<EndpointCfg>, norm: Normaliser) {
    forall k :: 0 <= k < |eps| ==> norm(eps[k].addr).Some?
  }

  /** Endpoints with normalised addresses; an unnamed one is named after its address. */
  ghost function FillEndpoints(eps: seq<EndpointCfg>, norm: Normaliser): (r: seq<EndpointCfg>)
    requires Normalises(eps, norm)
    ensures |r| == |eps|
  {
    seq(|eps|, k requires 0 <= k < |eps| => FillOne(eps[k], norm(eps[k].addr).value))
  }

  function FillOne(e: EndpointCfg, addr: string): EndpointCfg {
    EndpointCfg(if e.name == "" then addr else e.name, addr)
  }

  /** The loop state: the first i endpoints are clean and disjoint from what was seen before. */
  ghost predicate CleanSoFar(eps: seq<EndpointCfg>, norm: Normaliser, before: set<string>, cleaned: seq<EndpointCfg>,
      i: nat) {
    && i <= |eps|
    && Normalises(eps[..i], norm)
    && cleaned == FillEndpoints(eps[..i], norm)
    && DistinctAddrs(cleaned) && Addrs(cleaned) !! before
  }

  lemma CleanStep(eps: seq<EndpointCfg>, norm: Normaliser, before: set<string>, cleaned: seq<EndpointCfg>, i: nat)
    requires CleanSoFar(eps, norm, before, cleaned, i) && i < |eps| && norm(eps[i].addr).Some?
    ensures var addr := norm(eps[i].addr).value;
            var next := cleaned + [FillOne(eps[i], addr)];
            && Addrs(next) == Addrs(cleaned) + {addr}
            && (addr !in before + Addrs(cleaned) ==> CleanSoFar(eps, norm, before, next, i + 1))
  {
    var addr := norm(eps[i].addr).value;
    AddrsSnoc(cleaned, FillOne(eps[i], addr));
    assert eps[..i + 1] == eps[..i] + [eps[i]];
    forall k | 0 <= k < i ensures cleaned[k].addr in Addrs(cleaned) {}
  }

  /** An address seen before makes the whole list unacceptable. */
  lemma RepeatRejects(eps: seq<EndpointCfg>, norm: Normaliser, before: set<string>, cleaned: seq<EndpointCfg>, i: nat)
    requires CleanSoFar(eps, norm, before, cleaned, i) && i < |eps|
    requires Normalises(eps, norm) && norm(eps[i].addr).value in before + Addrs(cleaned)
    ensures !DistinctAddrs(FillEndpoints(eps, norm)) || !(Addrs(FillEndpoints(eps, norm)) !! before)
  {
    var all, addr := FillEndpoints(eps, norm), norm(eps[i].addr).value;
    assert all[i].addr == addr;
    assert addr in Addrs(all);
    if addr in Addrs(cleaned) {
      var k :| 0 <= k < |cleaned| && cleaned[k].addr == addr;
      assert all[k].addr == addr && k < i;
    }
  }

  ghost function Fill(u: UpstreamCfg, name: string, norm: Normaliser): UpstreamCfg
    requires Normalises(u.endpoints, norm)
  {
    UpstreamCfg(name, if u.weight == 0 then 1 else u.weight, FillEndpoints(u.endpoints, norm))
  }

  function DefaultName(u: UpstreamCfg, i: nat): string {
    if u.name == "" then "upstream-" + Decimal(i + 1) else u.name
  }

  /** What filling in keeps and what it supplies: names given and weights set stay, addresses are normalised. */
  lemma FillKeeps(u: UpstreamCfg, name: string, norm: Normaliser)
    requires Normalises(u.endpoints, norm)
    ensures var f := Fill(u, name, norm);
            && f.name == name && |f.endpoints| == |u.endpoints|
            && (u.weight != 0 ==> f.weight == u.weight) && (u.weight == 0 ==> f.weight == 1)
            && forall k :: 0 <= k < |u.endpoints| ==>
                 && norm(u.endpoints[k].addr) == Some(f.endpoints[k].addr)
                 && (u.endpoints[k].name != "" ==> f.endpoints[k].name == u.endpoints[k].name)
                 && (u.endpoints[k].name == "" ==> f.endpoints[k].name == f.endpoints[k].addr)
  {
  }

  /** Unnamed upstreams are told apart by their position; names given stay. */
  lemma DefaultNames(u: UpstreamCfg, v: UpstreamCfg, i: nat, j: nat)
    ensures u.name != "" ==> DefaultName(u, i) == u.name
    ensures u.name == "" && v.name == "" && i != j ==> DefaultName(u, i) != DefaultName(v, j)
  {
    if u.name == "" && v.name == "" {
      DecimalReads(i + 1);
      DecimalReads(j + 1);
      var n := |"upstream-"|;
      assert DefaultName(u, i)[n..] == Decimal(i + 1) && DefaultName(v, j)[n..] == Decimal(j + 1);
    }
  }

  ghost predicate AllNormalise(us: seq<UpstreamCfg>, norm: Normaliser) {
    forall i :: 0 <= i < |us| ==> Normalises(us[i].endpoints, norm)
  }

  ghost function FillAll(us: seq<UpstreamCfg>, norm: Normaliser): (r: seq<UpstreamCfg>)
    requires AllNormalise(us, norm)
    ensures |r| == |us|
  {
    seq(|us|, i requires 0 <= i < |us| => Fill(us[i], DefaultName(us[i], i), norm))
  }

  ghost function Addrs(eps: seq<EndpointCfg>): set<string> {
    set k | 0 <= k < |eps| :: eps[k].addr
  }

  lemma AddrsSnoc(eps: seq<EndpointCfg>, e: EndpointCfg)
    ensures Addrs(eps + [e]) == Addrs(eps) + {e.addr}
  {
    var out := eps + [e];
    assert out[|eps|] == e && forall k :: 0 <= k < |eps| ==> out[k] == eps[k];
    forall a | a in Addrs(eps) ensures a in Addrs(out) {
      var k :| 0 <= k < |eps| && eps[k].addr == a;
      assert out[k].addr == a;
    }
  }

  /**
   The endpoint loop shared by the file and the management interface: normalise each address and
   refuse any that was seen before, here or earlier.
   */
  method CleanEndpoints(eps: seq<EndpointCfg>, norm: Normaliser, before: set<string>)
    returns (r: Result<seq<EndpointCfg>, ConfigError>, seen: set<string>)
    ensures r.Ok? <==> && Normalises(eps, norm)
                       && DistinctAddrs(FillEndpoints(eps, norm))
                       && Addrs(FillEndpoints(eps, norm)) !! before
    ensures r.Ok? ==> r.value == FillEndpoints(eps, norm) && seen == before + Addrs(r.value)
  {
    hide DistinctAddrs, Addrs;
    seen := before;
    var cleaned: seq<EndpointCfg> := [];
    assert eps[..0] == [] && Addrs([]) == {} && DistinctAddrs([]) by { NothingYet(); }
    for i := 0 to |eps|
      invariant CleanSoFar(eps, norm, before, cleaned, i)
      invariant seen == before + Addrs(cleaned)
    {
      var addr := norm(eps[i].addr);
      if addr.None? {
        return Err(BadAddress), seen;
      }
      CleanStep(eps, norm, before, cleaned, i);
      if addr.value in seen {
        if Normalises(eps, norm) {
          RepeatRejects(eps, norm, before, cleaned, i);
        }
        return Err(DuplicateAddress), seen;
      }
      seen := seen + {addr.value};
      cleaned := cleaned + [FillOne(eps[i], addr.value)];
    }
    assert eps[..|eps|] == eps;
    return Ok(cleaned), seen;
  }

  lemma NothingYet()
    ensures Addrs([]) == {} && DistinctAddrs([])
  {
  }

  // ---------------------------------------------------------------- the file

  ghost function NamesUpTo(us: seq<UpstreamCfg>): set<string> {
    set k | 0 <= k < |us| :: us[k].name
  }

  ghost function AddrsUpTo(us: seq<UpstreamCfg>): set<string> {
    set k, j | 0 <= k < |us| && 0 <= j < |us[k].endpoints| :: us[k].endpoints[j].addr
  }

  ghost predicate Accepted(us: seq<UpstreamCfg>, norm: Normaliser) {
    AllNormalise(us, norm) && ValidUpstreams(FillAll(us, norm))
  }

  /** A file whose i-th upstream is at fault, given the cleaned ones before it, is not acceptable. */
  lemma FaultRejects(us: seq<UpstreamCfg>, norm: Normaliser, done: seq<UpstreamCfg>)
    requires |done| < |us|
    requires forall k :: 0 <= k < |done| ==>
               Normalises(us[k].endpoints, norm) && done[k] == Fill(us[k], DefaultName(us[k], k), norm)
    requires var i := |done|;
             || !Normalises(us[i].endpoints, norm)
             || (var u := Fill(us[i], DefaultName(us[i], i), norm);
                 !WellFormed(u) || u.name in NamesUpTo(done) || !(Addrs(u.endpoints) !! AddrsUpTo(done)))
    ensures !Accepted(us, norm)
  {
    var i := |done|;
    if AllNormalise(us, norm) {
      var all := FillAll(us, norm);
      var u := all[i];
      if u.name in NamesUpTo(done) {
        var k :| 0 <= k < |done| && done[k].name == u.name;
        assert all[k] == done[k] && !Separate(all[k], all[i]);
      } else if !(Addrs(u.endpoints) !! AddrsUpTo(done)) {
        var a :| a in Addrs(u.endpoints) && a in AddrsUpTo(done);
        var k, j :| 0 <= k < |done| && 0 <= j < |done[k].endpoints| && done[k].endpoints[j].addr == a;
        var m :| 0 <= m < |u.endpoints| && u.endpoints[m].addr == a;
        assert all[k] == done[k] && SharesAddr(all[k].endpoints, u.endpoints);
        assert !Separate(all[k], all[i]);
      } else {
        assert !WellFormed(all[i]);
      }
    }
  }

  lemma CleanExtends(done: seq<UpstreamCfg>, u: UpstreamCfg)
    requires (forall k :: 0 <= k < |done| ==> WellFormed(done[k])) && Pairwise(done)
    requires WellFormed(u) && u.name !in NamesUpTo(done) && Addrs(u.endpoints) !! AddrsUpTo(done)
    ensures var out := done + [u];
            && (forall k :: 0 <= k < |out| ==> WellFormed(out[k])) && Pairwise(out)
            && NamesUpTo(out) == NamesUpTo(done) + {u.name}
            && AddrsUpTo(out) == AddrsUpTo(done) + Addrs(u.endpoints)
  {
    var out := done + [u];
    forall k | 0 <= k < |done| ensures Separate(done[k], u) {
      forall i, j | 0 <= i < |done[k].endpoints| && 0 <= j < |u.endpoints|
        ensures done[k].endpoints[i].addr != u.endpoints[j].addr
      {
        assert u.endpoints[j].addr in Addrs(u.endpoints) && done[k].endpoints[i].addr in AddrsUpTo(done);
      }
      assert done[k].name in NamesUpTo(done);
    }
    assert out[|done|] == u && forall k :: 0 <= k < |done| ==> out[k] == done[k];
    forall a | a in AddrsUpTo(done) ensures a in AddrsUpTo(out) {
      var k, j :| 0 <= k < |done| && 0 <= j < |done[k].endpoints| && done[k].endpoints[j].addr == a;
      assert out[k].endpoints[j].addr == a;
    }
    forall a | a in Addrs(u.endpoints) ensures a in AddrsUpTo(out) {
      var j :| 0 <= j < |u.endpoints| && u.endpoints[j].addr == a;
      assert out[|done|].endpoints[j].addr == a;
    }
    forall a | a in AddrsUpTo(out) ensures a in AddrsUpTo(done) + Addrs(u.endpoints) {
      var k, j :| 0 <= k < |out| && 0 <= j < |out[k].endpoints| && out[k].endpoints[j].addr == a;
    }
    forall a | a in NamesUpTo(out) ensures a in NamesUpTo(done) + {u.name} {
      var k :| 0 <= k < |out| && out[k].name == a;
    }
    forall a | a in NamesUpTo(done) + {u.name} ensures a in NamesUpTo(out) {
      if a == u.name {
        assert out[|done|].name == a;
      } else {
        var k :| 0 <= k < |done| && done[k].name == a;
        assert out[k].name == a;
      }
    }
  }

  /**
   Validation of a file's upstream list.  It succeeds exactly when, after defaults, the list is one
   the pool can rely on, and then it is that list.
   */
  method Validate(us: seq<UpstreamCfg>, norm: Normaliser) returns (r: Result<seq<UpstreamCfg>, ConfigError>)
    ensures r.Ok? <==> Accepted(us, norm)
    ensures r.Ok? ==> r.value == FillAll(us, norm) && ValidUpstreams(r.value)
  {
    if |us| == 0 {
      return Err(NoUpstreams);
    }
    var out: seq<UpstreamCfg>, seenName: set<string>, seenAddr: set<string> := [], {}, {};
    for i := 0 to |us|
      invariant |out| == i
      invariant forall k :: 0 <= k < i ==>
                  Normalises(us[k].endpoints, norm) && out[k] == Fill(us[k], DefaultName(us[k], k), norm)
      invariant forall k :: 0 <= k < i ==> WellFormed(out[k])
      invariant Pairwise(out)
      invariant seenName == NamesUpTo(out) && seenAddr == AddrsUpTo(out)
    {
      hide WellFormed, Pairwise, NamesUpTo, AddrsUpTo, Fill;
      var problem, u, seen := ValidateOne(us[i], i, norm, seenName, seenAddr);
      if problem.Some? {
        FaultRejects(us, norm, out);
        return Err(problem.value);
      }
      CleanExtends(out, u);
      seenName, seenAddr, out := seenName + {u.name}, seen, out + [u];
    }
    assert out == FillAll(us, norm);
    return Ok(out);
  }

  /** One round of the validation loop. */
  method ValidateOne(u: UpstreamCfg, i: nat, norm: Normaliser, seenName: set<string>, seenAddr: set<string>)
    returns (problem: Option<ConfigError>, out: UpstreamCfg, seen: set<string>)
    ensures problem.Some? <==>
            || !Normalises(u.endpoints, norm)
            || (var f := Fill(u, DefaultName(u, i), norm);
                !WellFormed(f) || f.name in seenName || !(Addrs(f.endpoints) !! seenAddr))
    ensures problem.None? ==> out == Fill(u, DefaultName(u, i), norm) && seen == seenAddr + Addrs(out.endpoints)
  {
    out, seen := u, seenAddr;
    var name := DefaultName(u, i);
    if name in seenName {
      return Some(DuplicateName), out, seen;
    }
    var weight := if u.weight == 0 then 1 else u.weight;
    if weight < 0 {
      return Some(NegativeWeight), out, seen;
    }
    if |u.endpoints| == 0 {
      return Some(NoEndpoint), out, seen;
    }
    var cleaned;
    cleaned, seen := CleanEndpoints(u.endpoints, norm, seenAddr);
    if cleaned.Err? {
      return Some(cleaned.error), out, seen;
    }
    return None, UpstreamCfg(name, weight, cleaned.value), seen;
  }

  // ---------------------------------------------------------------- the management interface

  predicate IsSpace(c: char) {
    || '\t' <= c <= '\r' || c == ' ' || c == '\U{85}' || c == '\U{A0}' || c == '\U{1680}'
    || '\U{2000}' <= c <= '\U{200A}' || c == '\U{2028}' || c == '\U{2029}' || c == '\U{202F}'
    || c == '\U{205F}' || c == '\U{3000}'
  }

  function TrimLeft(s: string): string {
    if s != "" && IsSpace(s[0]) then TrimLeft(s[1..]) else s
  }

  function TrimSpace(s: string): string {
    var t := TrimLeft(s);
    if t != "" && IsSpace(t[|t| - 1]) then TrimRight(t) else t
  }

  function TrimRight(s: string): string {
    if s != "" && IsSpace(s[|s| - 1]) then TrimRight(s[..|s| - 1]) else s
  }

  ghost predicate AllSpace(s: string) {
    forall i :: 0 <= i < |s| ==> IsSpace(s[i])
  }

  lemma {:induction false} TrimLeftCuts(s: string) returns (a: string)
    ensures s == a + TrimLeft(s) && AllSpace(a)
    ensures TrimLeft(s) != "" ==> !IsSpace(TrimLeft(s)[0])
    decreases |s|
  {
    a := "";
    if s != "" && IsSpace(s[0]) {
      var rest := TrimLeftCuts(s[1..]);
      a := [s[0]] + rest;
    }
  }

  lemma {:induction false} TrimRightCuts(s: string) returns (b: string)
    ensures s == TrimRight(s) + b && AllSpace(b)
    ensures TrimRight(s) != "" ==> !IsSpace(TrimRight(s)[|TrimRight(s)| - 1])
    decreases |s|
  {
    b := "";
    if s != "" && IsSpace(s[|s| - 1]) {
      var rest := TrimRightCuts(s[..|s| - 1]);
      b := rest + [s[|s| - 1]];
    }
  }

  /** Trimming cuts blanks at both ends and nothing else: what is left begins and ends with a non-blank. */
  lemma TrimSpaceCuts(s: string) returns (a: string, b: string)
    ensures s == a + TrimSpace(s) + b && AllSpace(a) && AllSpace(b)
    ensures TrimSpace(s) != "" ==> !IsSpace(TrimSpace(s)[0]) && !IsSpace(TrimSpace(s)[|TrimSpace(s)| - 1])
  {
    a := TrimLeftCuts(s);
    b := "";
    var t := TrimLeft(s);
    if t != "" && IsSpace(t[|t| - 1]) {
      b := TrimRightCuts(t);
      assert TrimRight(t) != "" ==> TrimRight(t)[0] == t[0];
    }
  }

  predicate HasForbidden(name: string) {
    exists i :: 0 <= i < |name| && name[i] in "/?#\\"
  }

  ghost predicate NameAllowed(name: string) {
    TrimSpace(name) != "" && !HasForbidden(TrimSpace(name))
  }

  /** Which names the interface allows: something besides blanks, and no slash, question mark, hash or backslash. */
  lemma AllowedNames(name: string)
    ensures NameAllowed(name) <==>
              && (exists i :: 0 <= i < |name| && !IsSpace(name[i]))
              && (forall i :: 0 <= i < |name| ==> name[i] != '/' && name[i] != '?' && name[i] != '#' && name[i] != '\\')
  {
    var a, b := TrimSpaceCuts(name);
    var t := TrimSpace(name);
    hide TrimSpace;
    assert forall i :: 0 <= i < |a| ==> name[i] == a[i];
    assert forall i :: 0 <= i < |t| ==> name[|a| + i] == t[i];
    assert forall i :: 0 <= i < |b| ==> name[|a| + |t| + i] == b[i];
    forall i | 0 <= i < |name| ensures IsSpace(name[i]) || (|a| <= i < |a| + |t| && name[i] == t[i - |a|]) {
      if i >= |a| + |t| {
        assert name[i] == b[i - |a| - |t|];
      }
    }
    assert "/?#\\"[0] == '/' && "/?#\\"[1] == '?' && "/?#\\"[2] == '#' && "/?#\\"[3] == '\\';
    assert !IsSpace('/') && !IsSpace('?') && !IsSpace('#') && !IsSpace('\\');
    if t != "" {
      assert name[|a|] == t[0];
    }
  }

  ghost predicate Preparable(u: UpstreamCfg, norm: Normaliser) {
    && NameAllowed(u.name)
    && u.weight >= 0 && u.endpoints != []
    && Normalises(u.endpoints, norm) && DistinctAddrs(FillEndpoints(u.endpoints, norm))
  }

  /** The cleaned copy of one upstream; whatever it accepts is well formed. */
  method PrepareUpstream(u: UpstreamCfg, norm: Normaliser) returns (r: Result<UpstreamCfg, ConfigError>)
    ensures r.Ok? <==> Preparable(u, norm)
    ensures r.Ok? ==> r.value == Fill(u, TrimSpace(u.name), norm) && WellFormed(r.value)
  {
    var name := TrimSpace(u.name);
    if name == "" {
      return Err(EmptyName);
    }
    if HasForbidden(name) {
      return Err(BadName);
    }
    var weight := if u.weight == 0 then 1 else u.weight;
    if weight < 0 {
      return Err(NegativeWeight);
    }
    if |u.endpoints| == 0 {
      return Err(NoEndpoint);
    }
    var cleaned, _ := CleanEndpoints(u.endpoints, norm, {});
    if cleaned.Err? {
      return Err(cleaned.error);
    }
    return Ok(UpstreamCfg(name, weight, cleaned.value));
  }

  /**
   The two definitions of a well-formed upstream differ in the name only: for a named upstream on
   its own, the interface accepts exactly what the file accepts with an allowed name, and produces
   the same result exactly when the name carries no surrounding blanks.
   */
  lemma FileAndInterfaceDiffer(u: UpstreamCfg, norm: Normaliser)
    requires u.name != ""
    ensures Preparable(u, norm) <==> Accepted([u], norm) && NameAllowed(u.name)
    ensures Preparable(u, norm) ==>
              (FillAll([u], norm)[0] == Fill(u, TrimSpace(u.name), norm) <==> TrimSpace(u.name) == u.name)
  {
    var us := [u];
    assert us[0] == u;
    assert AllNormalise(us, norm) <==> Normalises(u.endpoints, norm);
    if Normalises(u.endpoints, norm) {
      var f := FillAll(us, norm);
      assert f[0] == Fill(u, u.name, norm);
    }
  }

  /** They do differ: a file may name an upstream "a/b", the interface may not. */
  lemma SlashOnlyInFiles(norm: Normaliser)
    requires norm("10.0.0.9") == Some("10.0.0.9:53")
    ensures var u := UpstreamCfg("a/b", 1, [EndpointCfg("", "10.0.0.9")]);
            Accepted([u], norm) && !Preparable(u, norm)
  {
    var u := UpstreamCfg("a/b", 1, [EndpointCfg("", "10.0.0.9")]);
    assert u.name[1] == '/' && !IsSpace(u.name[0]) && !IsSpace(u.name[2]);
    assert TrimLeft(u.name) == u.name && TrimSpace(u.name) == u.name;
    assert HasForbidden(u.name);
    assert AllNormalise([u], norm);
    assert WellFormed(FillAll([u], norm)[0]);
  }

  // ---------------------------------------------------------------- public resolvers

  /** Normalised resolver addresses, or why they are refused. */
  ghost function CleanServers(servers: seq<string>, norm: Normaliser): Result<seq<string>, ConfigError> {
    if servers == [] then Ok([])
    else
      match CleanServers(servers[..|servers| - 1], norm)
      case Err(e) => Err(e)
      case Ok(done) =>
        match norm(servers[|servers| - 1])
        case None => Err(BadResolver)
        case Some(addr) => if addr in done then Err(DuplicateResolver) else Ok(done + [addr])
  }

  /** Accepted resolver lists have no duplicates, and one entry per address given. */
  lemma {:induction false} CleanServersDistinct(servers: seq<string>, norm: Normaliser)
    requires CleanServers(servers, norm).Ok?
    ensures NoDup(CleanServers(servers, norm).value) && |CleanServers(servers, norm).value| == |servers|
    decreases |servers|
  {
    if servers != [] {
      CleanServersDistinct(servers[..|servers| - 1], norm);
    }
  }

  lemma {:induction false} CleanPrefixFails(servers: seq<string>, norm: Normaliser, i: nat)
    requires i <= |servers| && CleanServers(servers[..i], norm).Err?
    ensures CleanServers(servers, norm) == CleanServers(servers[..i], norm)
    decreases |servers| - i
  {
    if i < |servers| {
      assert servers[..i + 1][..i] == servers[..i];
      CleanPrefixFails(servers, norm, i + 1);
    } else {
      assert servers[..i] == servers;
    }
  }

  /** A resolver list is accepted exactly when every address normalises, no two alike, and is then those addresses. */
  lemma {:induction false} CleanServersExact(servers: seq<string>, norm: Normaliser)
    ensures CleanServers(servers, norm).Ok? <==>
              && (forall i :: 0 <= i < |servers| ==> norm(servers[i]).Some?)
              && (forall i, j :: 0 <= i < j < |servers| ==> norm(servers[i]) != norm(servers[j]))
    ensures CleanServers(servers, norm).Ok? ==>
              var clean := CleanServers(servers, norm).value;
              |clean| == |servers| && forall i :: 0 <= i < |servers| ==> norm(servers[i]) == Some(clean[i])
    decreases |servers|
  {
    if servers != [] {
      var n := |servers| - 1;
      var p := servers[..n];
      CleanServersExact(p, norm);
      assert forall i :: 0 <= i < n ==> p[i] == servers[i];
      if CleanServers(p, norm).Ok? && norm(servers[n]).Some? {
        var done, addr := CleanServers(p, norm).value, norm(servers[n]).value;
        if addr in done {
          var k :| 0 <= k < |done| && done[k] == addr;
          assert norm(servers[k]) == norm(servers[n]);
        } else {
          forall i | 0 <= i < n ensures norm(servers[i]) != norm(servers[n]) {
            assert done[i] in done && norm(p[i]) == Some(done[i]);
          }
        }
      }
    }
  }

  /** The loop over resolver addresses, shared by the file and the management interface. */
  method NormaliseServers(servers: seq<string>, norm: Normaliser) returns (r: Result<seq<string>, ConfigError>)
    ensures r == CleanServers(servers, norm)
    ensures r.Ok? ==> NoDup(r.value) && |r.value| == |servers|
  {
    var clean: seq<string>, seen: set<string> := [], {};
    for i := 0 to |servers|
      invariant CleanServers(servers[..i], norm) == Ok(clean)
      invariant forall a :: a in seen <==> a in clean
    {
      assert servers[..i + 1][..i] == servers[..i];
      var addr := norm(servers[i]);
      if addr.None? {
        CleanPrefixFails(servers, norm, i + 1);
        return Err(BadResolver);
      }
      if addr.value in seen {
        CleanPrefixFails(servers, norm, i + 1);
        return Err(DuplicateResolver);
      }
      seen := seen + {addr.value};
      clean := clean + [addr.value];
    }
    assert servers[..|servers|] == servers;
    CleanServersDistinct(servers, norm);
    return Ok(clean);
  }
}
