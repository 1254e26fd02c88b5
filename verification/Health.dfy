/**
 The per-endpoint health automaton: consecutive success and failure counters, the rise and fall
 thresholds, the latency average, and the transition callbacks.

 An endpoint is described by the log of everything reported about it.  The module gives the state
 the reporting code keeps (a replay of that log) and, independently, what the log itself says.
 */
module Health {
  import opened Basics

  /** What the health code remembers about one endpoint. */
  datatype Verdict = Verdict(up: bool, successes: nat, failures: nat)

  datatype Thresholds = Thresholds(rise: nat, fall: nat, passive: bool) {
    /** Validated configuration: both thresholds are at least one. */
    ghost predicate Valid() { rise >= 1 && fall >= 1 }
  }

  const NEVER_SEEN := Verdict(false, 0, 0)

  /** Effect of one outcome that counts towards health. */
  function Step(t: Thresholds, v: Verdict, ok: bool): Verdict {
    if ok then
      Verdict(v.up || v.successes + 1 >= t.rise, v.successes + 1, 0)
    else
      Verdict(v.up && v.failures + 1 < t.fall, 0, v.failures + 1)
  }

  ghost function Replay(t: Thresholds, h: seq<bool>): Verdict {
    if h == [] then NEVER_SEEN else Step(t, Replay(t, h[..|h| - 1]), h[|h| - 1])
  }

  // ---------------------------------------------------------------- closed form

  /** A run of at least n outcomes equal to b ends just before position i. */
  ghost predicate RunEnds(h: seq<bool>, i: int, b: bool, n: nat) {
    n <= i <= |h| && forall j :: i - n <= j < i ==> h[j] == b
  }

  /** The most recent point that ended a decisive run ended a success run. */
  ghost predicate UpByHistory(t: Thresholds, h: seq<bool>) {
    exists i ::
      && RunEnds(h, i, true, t.rise)
      && forall j :: i < j <= |h| ==> !RunEnds(h, j, false, t.fall)
  }

  /** Length of the run of b at the end of the history. */
  ghost function Trailing(h: seq<bool>, b: bool): nat {
    if h == [] || h[|h| - 1] != b then 0 else 1 + Trailing(h[..|h| - 1], b)
  }

  lemma {:induction false} TrailingRun(h: seq<bool>, b: bool, n: nat)
    ensures RunEnds(h, |h|, b, n) <==> n <= Trailing(h, b)
    decreases n
  {
    if n > 0 && h != [] && h[|h| - 1] == b {
      var p := h[..|h| - 1];
      TrailingRun(p, b, n - 1);
      if RunEnds(p, |p|, b, n - 1) {
        forall j | |h| - n <= j < |h| ensures h[j] == b {
          if j < |p| {
            assert p[j] == b;
          }
        }
      }
      if RunEnds(h, |h|, b, n) {
        assert forall j :: |p| - (n - 1) <= j < |p| ==> p[j] == h[j];
      }
    } else if n > 0 && h != [] {
      var k := |h| - 1;
      assert h[k] != b && |h| - n <= k < |h|;
    }
  }

  /** The counters are the lengths of the trailing runs, so at most one of them is nonzero. */
  lemma {:induction false} CountersAreRuns(t: Thresholds, h: seq<bool>)
    ensures Replay(t, h).successes == Trailing(h, true)
    ensures Replay(t, h).failures == Trailing(h, false)
    ensures Trailing(h, true) == 0 || Trailing(h, false) == 0
    decreases |h|
  {
    if h != [] {
      CountersAreRuns(t, h[..|h| - 1]);
    }
  }

  lemma RunEndsPrefix(h: seq<bool>, x: bool, i: nat, b: bool, n: nat)
    requires i <= |h|
    ensures RunEnds(h + [x], i, b, n) <==> RunEnds(h, i, b, n)
  {
    assert forall j :: 0 <= j < |h| ==> (h + [x])[j] == h[j];
  }

  /** One more outcome: the closed form moves exactly as the automaton does. */
  lemma UpByHistoryStep(t: Thresholds, h: seq<bool>, x: bool)
    requires t.Valid()
    ensures UpByHistory(t, h + [x]) <==>
            if x then UpByHistory(t, h) || RunEnds(h + [x], |h| + 1, true, t.rise)
            else UpByHistory(t, h) && !RunEnds(h + [x], |h| + 1, false, t.fall)
  {
    var g, n := h + [x], |h|;
    assert g[n] == x;
    forall i, b, k | 0 <= i <= n ensures RunEnds(g, i, b, k) <==> RunEnds(h, i, b, k) {
      RunEndsPrefix(h, x, i, b, k);
    }
    assert !x ==> !RunEnds(g, n + 1, true, t.rise);
    assert x ==> !RunEnds(g, n + 1, false, t.fall);
    if UpByHistory(t, g) {
      var i :| RunEnds(g, i, true, t.rise) && forall j :: i < j <= |g| ==> !RunEnds(g, j, false, t.fall);
      if i <= n {
        assert RunEnds(h, i, true, t.rise);
        assert UpByHistory(t, h);
      }
    }
    if UpByHistory(t, h) {
      var i :| RunEnds(h, i, true, t.rise) && forall j :: i < j <= |h| ==> !RunEnds(h, j, false, t.fall);
      assert RunEnds(g, i, true, t.rise);
    }
  }

  /**
   The verdict has a closed form over the history: an endpoint is up exactly when the most recent
   point ending a run of `rise` successes or `fall` failures ended a success run.
   */
  lemma {:induction false} VerdictClosedForm(t: Thresholds, h: seq<bool>)
    requires t.Valid()
    ensures Replay(t, h).up <==> UpByHistory(t, h)
    ensures Settled(t, Replay(t, h))
    decreases |h|
  {
    if h == [] {
      assert !RunEnds(h, 0, true, t.rise);
    } else {
      var p, x := h[..|h| - 1], h[|h| - 1];
      assert h == p + [x];
      VerdictClosedForm(t, p);
      UpByHistoryStep(t, p, x);
      CountersAreRuns(t, h);
      TrailingRun(h, true, t.rise);
      TrailingRun(h, false, t.fall);
    }
  }

  /** Verdict and counters agree. */
  ghost predicate Settled(t: Thresholds, v: Verdict) {
    && (v.successes == 0 || v.failures == 0)
    && (v.up ==> v.failures < t.fall)
    && (!v.up ==> v.successes < t.rise)
  }

  // ---------------------------------------------------------------- logs of one endpoint

  /** Everything that can be reported about an endpoint, with the round trip in nanoseconds. */
  datatype Event =
    | Probe(ok: bool, latency: int)
    | Query(ok: bool, latency: int)
    | Initial(up: bool, latency: int)

  ghost function Repeat(b: bool, n: nat): seq<bool> {
    seq(n, i => b)
  }

  /** The outcomes that bear on health: an initial verdict counts as one full decisive run. */
  ghost function Outcomes(t: Thresholds, log: seq<Event>): seq<bool> {
    if log == [] then []
    else
      var before := Outcomes(t, log[..|log| - 1]);
      match log[|log| - 1]
      case Probe(ok, _) => before + [ok]
      case Query(ok, _) => if t.passive then before + [ok] else before
      case Initial(up, _) => Repeat(up, if up then t.rise else t.fall)
  }

  ghost function VerdictOf(t: Thresholds, log: seq<Event>): Verdict {
    Replay(t, Outcomes(t, log))
  }

  lemma {:induction false} ReplayRun(t: Thresholds, b: bool, n: nat)
    requires t.Valid()
    ensures Replay(t, Repeat(b, n)) ==
            if b then Verdict(n >= t.rise, n, 0) else Verdict(false, 0, n)
    decreases n
  {
    if n > 0 {
      ReplayRun(t, b, n - 1);
      assert Repeat(b, n)[..n - 1] == Repeat(b, n - 1);
    }
  }

  /** Effect of one entry of the log. */
  function StepOf(t: Thresholds, v: Verdict, e: Event): Verdict {
    match e
    case Probe(ok, _) => Step(t, v, ok)
    case Query(ok, _) => if t.passive then Step(t, v, ok) else v
    case Initial(up, _) => if up then Verdict(true, t.rise, 0) else Verdict(false, 0, t.fall)
  }

  /** How the state kept for an endpoint follows its log, one report at a time. */
  lemma VerdictStep(t: Thresholds, log: seq<Event>, e: Event)
    requires t.Valid()
    ensures VerdictOf(t, log + [e]) == StepOf(t, VerdictOf(t, log), e)
  {
    assert (log + [e])[..|log|] == log;
    var h := Outcomes(t, log);
    match e
    case Initial(up, _) => ReplayRun(t, up, if up then t.rise else t.fall);
    case Probe(ok, _) => assert (h + [ok])[..|h|] == h;
    case Query(ok, _) => assert (h + [ok])[..|h|] == h;
  }

  /** With passive checks off, client queries have no say in the verdict. */
  lemma {:induction false} PassiveOffIgnoresQueries(t: Thresholds, log: seq<Event>)
    requires !t.passive
    ensures VerdictOf(t, log) == VerdictOf(t, OnlyChecks(log))
    ensures Outcomes(t, log) == Outcomes(t, OnlyChecks(log))
    decreases |log|
  {
    if log != [] {
      var p, e := log[..|log| - 1], log[|log| - 1];
      PassiveOffIgnoresQueries(t, p);
      var q := OnlyChecks(p);
      if e.Query? {
        assert OnlyChecks(log) == q;
      } else {
        var l := q + [e];
        assert OnlyChecks(log) == l && l[..|q|] == q && l[|q|] == e;
      }
    }
  }

  ghost function OnlyChecks(log: seq<Event>): seq<Event> {
    if log == [] then []
    else OnlyChecks(log[..|log| - 1]) + if log[|log| - 1].Query? then [] else [log[|log| - 1]]
  }

  /** With passive checks on, a client query counts as a probe with the same outcome would. */
  lemma {:induction false} PassiveOnCountsQueries(t: Thresholds, log: seq<Event>)
    requires t.passive
    ensures VerdictOf(t, log) == VerdictOf(t, AsChecks(log))
    ensures Outcomes(t, log) == Outcomes(t, AsChecks(log))
    decreases |log|
  {
    if log != [] {
      var p := log[..|log| - 1];
      PassiveOnCountsQueries(t, p);
      assert AsChecks(log)[..|p|] == AsChecks(p);
    }
  }

  ghost function AsChecks(log: seq<Event>): (r: seq<Event>)
    ensures |r| == |log|
  {
    seq(|log|, i requires 0 <= i < |log| =>
      if log[i].Query? then Probe(log[i].ok, log[i].latency) else log[i])
  }

  /** An initial verdict is taken as it is and forgets everything before it. */
  lemma {:induction false} InitialForgets(t: Thresholds, log: seq<Event>, e: Event, rest: seq<Event>)
    requires t.Valid() && e.Initial?
    ensures VerdictOf(t, log + [e]).up == e.up
    ensures Outcomes(t, log + [e] + rest) == Outcomes(t, [e] + rest)
    ensures VerdictOf(t, log + [e] + rest) == VerdictOf(t, [e] + rest)
    decreases |rest|
  {
    VerdictStep(t, log, e);
    var a, b := log + [e] + rest, [e] + rest;
    if rest == [] {
      assert a == log + [e] && b == [e] && a[..|log|] == log;
    } else {
      var n := |rest| - 1;
      InitialForgets(t, log, e, rest[..n]);
      assert a[..|a| - 1] == log + [e] + rest[..n] && b[..|b| - 1] == [e] + rest[..n];
    }
  }

  /** The transitions announced to the rest of the balancer, oldest first. */
  ghost function Callbacks(t: Thresholds, log: seq<Event>): seq<bool> {
    if log == [] then []
    else
      var before, now := VerdictOf(t, log[..|log| - 1]).up, VerdictOf(t, log).up;
      Callbacks(t, log[..|log| - 1]) + if before == now then [] else [now]
  }

  ghost predicate Alternates(c: seq<bool>) {
    && (c != [] ==> c[0])
    && forall i :: 0 < i < |c| ==> c[i] != c[i - 1]
  }

  /** Callbacks strictly alternate, beginning with "up", and the last one is the current verdict. */
  lemma {:induction false} CallbacksAlternate(t: Thresholds, log: seq<Event>)
    ensures Alternates(Callbacks(t, log))
    ensures var c := Callbacks(t, log); VerdictOf(t, log).up == (c != [] && c[|c| - 1])
    decreases |log|
  {
    if log != [] {
      CallbacksAlternate(t, log[..|log| - 1]);
    }
  }

  // ---------------------------------------------------------------- latency average

  /** The moving average in exact integer arithmetic: the newest sample weighs one fifth. */
  function Blend(prev: int, sample: int): int {
    (4 * prev + sample) / 5
  }

  ghost function LatencyOf(log: seq<Event>): int {
    if log == [] then 0
    else
      var before := LatencyOf(log[..|log| - 1]);
      match log[|log| - 1]
      case Initial(up, latency) => if up then latency else before
      case Probe(ok, latency) => Sampled(before, ok, latency)
      case Query(ok, latency) => Sampled(before, ok, latency)
  }

  function Sampled(before: int, ok: bool, latency: int): int {
    if !ok || latency <= 0 then before else if before == 0 then latency else Blend(before, latency)
  }

  /** The samples the average is made of: since it was last set outright. */
  ghost function Samples(log: seq<Event>): seq<int> {
    if log == [] then []
    else
      var before := Samples(log[..|log| - 1]);
      match log[|log| - 1]
      case Initial(up, latency) => if up then (if latency == 0 then [] else [latency]) else before
      case Probe(ok, latency) => if ok && latency > 0 then before + [latency] else before
      case Query(ok, latency) => if ok && latency > 0 then before + [latency] else before
  }

  /** No initial verdict ever carried a negative round trip. */
  ghost predicate ClockSane(log: seq<Event>) {
    forall i :: 0 <= i < |log| && log[i].Initial? ==> log[i].latency >= 0
  }

  /** One blend moves a fifth of the gap, rounded down or up, and never past the sample. */
  lemma BlendMoves(prev: int, sample: int)
    ensures prev <= sample ==> && prev <= Blend(prev, sample) <= sample
                               && (sample - prev) / 5 <= Blend(prev, sample) - prev <= (sample - prev + 4) / 5
    ensures sample <= prev ==> && sample <= Blend(prev, sample) <= prev
                               && (prev - sample) / 5 <= prev - Blend(prev, sample) <= (prev - sample + 4) / 5
  {
  }

  function Distance(a: int, b: int): nat { if a <= b then b - a else a - b }

  function Power(base: nat, n: nat): nat { if n == 0 then 1 else base * Power(base, n - 1) }

  ghost function Steady(log: seq<Event>, sample: int, n: nat): seq<Event> {
    log + seq(n, i => Probe(true, sample))
  }

  lemma BlendCloses(prev: int, sample: int)
    ensures 5 * Distance(Blend(prev, sample), sample) <= 4 * Distance(prev, sample) + 4
  {
  }

  /**
   Equal samples draw the average in: after n of them its distance is at most (4/5)^n of what it was,
   up to 4 nanoseconds of rounding.
   */
  lemma {:induction false} EqualSamplesConverge(log: seq<Event>, sample: int, n: nat)
    requires sample > 0 && ClockSane(log)
    ensures LatencyOf(log) == 0 && n > 0 ==> LatencyOf(Steady(log, sample, n)) == sample
    ensures LatencyOf(log) != 0 ==>
              Power(5, n) * (Distance(LatencyOf(Steady(log, sample, n)), sample) - 4)
              <= Power(4, n) * Distance(LatencyOf(log), sample)
    decreases n
  {
    if n == 0 {
      assert Steady(log, sample, 0) == log;
    } else {
      EqualSamplesConverge(log, sample, n - 1);
      var p, e := Steady(log, sample, n - 1), Probe(true, sample);
      SteadySnoc(log, sample, n);
      var l := LatencyOf(p);
      if LatencyOf(log) == 0 {
        BlendMoves(sample, sample);
      } else {
        MeasuredStays(log, sample, n - 1);
        BlendCloses(l, sample);
        Shrinks(Power(5, n - 1), Power(4, n - 1), Distance(l, sample), Distance(Blend(l, sample), sample),
                Distance(LatencyOf(log), sample));
      }
    }
  }

  lemma SteadySnoc(log: seq<Event>, sample: int, n: nat)
    requires n > 0
    ensures Steady(log, sample, n) == Steady(log, sample, n - 1) + [Probe(true, sample)]
    ensures LatencyOf(Steady(log, sample, n)) == Sampled(LatencyOf(Steady(log, sample, n - 1)), true, sample)
    ensures Samples(Steady(log, sample, n))
            == Samples(Steady(log, sample, n - 1)) + if sample > 0 then [sample] else []
  {
    var p := Steady(log, sample, n - 1);
    assert Steady(log, sample, n) == p + [Probe(true, sample)] && Steady(log, sample, n)[..|p|] == p;
  }

  lemma {:induction false} MeasuredStays(log: seq<Event>, sample: int, n: nat)
    requires ClockSane(log) && LatencyOf(log) != 0 && sample > 0
    ensures LatencyOf(Steady(log, sample, n)) != 0
    decreases n
  {
    LatencyBetweenSamples(log);
    if n == 0 {
      assert Steady(log, sample, 0) == log;
    } else {
      MeasuredStays(log, sample, n - 1);
      SteadySnoc(log, sample, n);
      assert ClockSane(Steady(log, sample, n));
      LatencyBetweenSamples(Steady(log, sample, n));
    }
  }

  lemma Shrinks(five: nat, four: nat, d: nat, d': nat, start: nat)
    requires five * (d - 4) <= four * start && 5 * d' <= 4 * d + 4
    ensures (5 * five) * (d' - 4) <= (4 * four) * start
  {
    assert (5 * five) * (d' - 4) == five * (5 * d' - 20);
    assert five * (5 * d' - 20) <= five * (4 * (d - 4)) by { MulMonotone(five, 5 * d' - 20, 4 * (d - 4)); }
    assert five * (4 * (d - 4)) == 4 * (five * (d - 4));
    assert (4 * four) * start == 4 * (four * start);
  }

  lemma MulMonotone(k: nat, a: int, b: int)
    requires a <= b
    ensures k * a <= k * b
  {
  }

  /** Failures and unmeasured successes leave the average alone, and the first sample is taken whole. */
  lemma OnlySamplesMove(log: seq<Event>, e: Event)
    requires e.Probe? || e.Query?
    ensures !e.ok || e.latency <= 0 ==> LatencyOf(log + [e]) == LatencyOf(log)
    ensures e.ok && e.latency > 0 && LatencyOf(log) == 0 ==> LatencyOf(log + [e]) == e.latency
  {
    assert (log + [e])[..|log|] == log;
  }

  /**
   The average is zero exactly when nothing has been measured since it was last set, and otherwise
   lies between the least and the greatest of the samples it is made of.
   */
  lemma {:induction false} LatencyBetweenSamples(log: seq<Event>)
    requires ClockSane(log)
    ensures LatencyOf(log) == 0 <==> Samples(log) == []
    ensures forall s :: s in Samples(log) ==> s > 0
    ensures Samples(log) != [] ==>
              && (exists lo :: lo in Samples(log) && lo <= LatencyOf(log))
              && (exists hi :: hi in Samples(log) && LatencyOf(log) <= hi)
    decreases |log|
  {
    if log != [] {
      var p, e := log[..|log| - 1], log[|log| - 1];
      LatencyBetweenSamples(p);
      if (e.Probe? || e.Query?) && e.ok && e.latency > 0 {
        var s := Samples(p) + [e.latency];
        assert Samples(log) == s && s[|s| - 1] == e.latency;
        assert forall x :: x in s ==> x in Samples(p) || x == e.latency;
        if Samples(p) != [] {
          BlendMoves(LatencyOf(p), e.latency);
          var lo :| lo in Samples(p) && lo <= LatencyOf(p);
          var hi :| hi in Samples(p) && LatencyOf(p) <= hi;
          assert lo in s && hi in s && e.latency in s;
          if LatencyOf(p) <= e.latency {
            assert lo <= LatencyOf(log) <= e.latency;
          } else {
            assert e.latency <= LatencyOf(log) <= hi;
          }
        } else {
          assert LatencyOf(log) == e.latency;
          assert LatencyOf(log) in s;
        }
      } else if e.Initial? && e.up && e.latency > 0 {
        assert Samples(log) == [e.latency] && LatencyOf(log) in Samples(log);
      }
    }
  }

  // ---------------------------------------------------------------- counters of client traffic

  ghost function QueryCount(log: seq<Event>): nat {
    if log == [] then 0 else QueryCount(log[..|log| - 1]) + if log[|log| - 1].Query? then 1 else 0
  }

  ghost function QueryFails(log: seq<Event>): nat {
    if log == [] then 0
    else
      var e := log[|log| - 1];
      QueryFails(log[..|log| - 1]) + if e.Query? && !e.ok then 1 else 0
  }

  /** What the traffic counters are: the client queries logged, and those that failed. */
  lemma {:induction false} QueriesCount(log: seq<Event>)
    ensures QueryCount(log) == Times(log, (e: Event) => e.Query?)
    ensures QueryFails(log) == Times(log, (e: Event) => e.Query? && !e.ok)
    decreases |log|
  {
    var queries, fails := (e: Event) => e.Query?, (e: Event) => e.Query? && !e.ok;
    hide Times;
    if log == [] {
      TimesNone(queries);
      TimesNone(fails);
    } else {
      var p, e := log[..|log| - 1], log[|log| - 1];
      assert log == p + [e];
      QueriesCount(p);
      TimesSnoc(p, e, queries);
      TimesSnoc(p, e, fails);
    }
  }

  /** Everything kept about one endpoint, as its log determines it. */
  ghost predicate Recorded(t: Thresholds, log: seq<Event>, v: Verdict, latency: int, queries: nat, fails: nat,
      announced: seq<bool>) {
    && v == VerdictOf(t, log) && latency == LatencyOf(log)
    && queries == QueryCount(log) && fails == QueryFails(log)
    && announced == Callbacks(t, log)
  }

  lemma NothingRecorded(t: Thresholds)
    ensures Recorded(t, [], NEVER_SEEN, 0, 0, 0, [])
  {
  }

  /** One more entry in the log, and what must change with it. */
  lemma RecordStep(t: Thresholds, log: seq<Event>, v: Verdict, latency: int, queries: nat, fails: nat,
      announced: seq<bool>, e: Event)
    requires t.Valid() && Recorded(t, log, v, latency, queries, fails, announced)
    ensures var v' := StepOf(t, v, e);
            var latency' := if e.Initial? then (if e.up then e.latency else latency)
                            else Sampled(latency, e.ok, e.latency);
            Recorded(t, log + [e], v', latency',
                     queries + (if e.Query? then 1 else 0),
                     fails + (if e.Query? && !e.ok then 1 else 0),
                     announced + (if v'.up == v.up then [] else [v'.up]))
  {
    VerdictStep(t, log, e);
    hide VerdictOf, Step;
    assert (log + [e])[..|log|] == log;
  }

  // ---------------------------------------------------------------- decisions and stores interleaved

  /** A verdict reached under the lock: its value, how many outcomes had been counted, and by which call. */
  datatype Decision = Decision(verdict: bool, at: nat, initial: bool)

  /**
   Decisions are taken under the endpoint's lock, but the flag is stored after it is released, so
   stores wait in `pending` and land in any order.  The last fields remember every decision in lock
   order, every store and announcement in the order they happened, and every outcome in lock order.
   */
  datatype Race = Race(
    up: bool, successes: nat, failures: nat,
    pending: seq<Decision>, decided: seq<Decision>, stored: seq<Decision>,
    announced: seq<bool>, history: seq<bool>)

  datatype RaceStep =
    | Decide(ok: bool)             // one report, under the lock
    | DecideInitial(verdict: bool) // one initial verdict, under the lock
    | Store(which: nat)            // some goroutine past its lock stores its decision and announces it

  const RACE_START := Race(false, 0, 0, [], [], [], [], [])

  ghost function Needed(t: Thresholds, b: bool): nat { if b then t.rise else t.fall }

  /** The counter of consecutive outcomes equal to b. */
  ghost function Count(r: Race, b: bool): nat { if b then r.successes else r.failures }

  /** The next report of b will find its run complete and the flag opposite. */
  ghost predicate Flips(t: Thresholds, r: Race, b: bool) {
    r.up != b && Count(r, b) + 1 >= Needed(t, b)
  }

  ghost function RaceNext(t: Thresholds, r: Race, s: RaceStep): Race {
    match s
    case Decide(ok) =>
      var h := r.history + [ok];
      var made := if Flips(t, r, ok) then [Decision(ok, |h|, false)] else [];
      r.(successes := if ok then r.successes + 1 else 0, failures := if ok then 0 else r.failures + 1,
         pending := r.pending + made, decided := r.decided + made, history := h)
    case DecideInitial(v) =>
      var h := r.history + Repeat(v, Needed(t, v));
      var d := Decision(v, |h|, true);
      r.(successes := if v then t.rise else 0, failures := if v then 0 else t.fall,
         pending := r.pending + [d], decided := r.decided + [d], history := h)
    case Store(k) =>
      if k < |r.pending| then
        var d := r.pending[k];
        r.(up := d.verdict, pending := Dropped(r.pending, k), stored := r.stored + [d],
           announced := r.announced + if d.initial && r.up == d.verdict then [] else [d.verdict])
      else r
  }

  ghost function Dropped<T>(s: seq<T>, k: nat): (r: seq<T>)
    requires k < |s|
    ensures |r| == |s| - 1
    ensures forall i :: 0 <= i < |r| ==> r[i] == s[if i < k then i else i + 1]
  {
    s[..k] + s[k + 1..]
  }

  ghost function RaceFrom(t: Thresholds, r: Race, steps: seq<RaceStep>): Race {
    if steps == [] then r
    else RaceNext(t, RaceFrom(t, r, steps[..|steps| - 1]), steps[|steps| - 1])
  }

  ghost function RaceRun(t: Thresholds, steps: seq<RaceStep>): Race {
    RaceFrom(t, RACE_START, steps)
  }

  lemma RaceSnoc(t: Thresholds, r: Race, steps: seq<RaceStep>, s: RaceStep)
    ensures RaceFrom(t, r, steps + [s]) == RaceNext(t, RaceFrom(t, r, steps), s)
  {
    assert (steps + [s])[..|steps|] == steps;
  }

  lemma {:induction false} RaceConcat(t: Thresholds, r: Race, a: seq<RaceStep>, b: seq<RaceStep>)
    ensures RaceFrom(t, r, a + b) == RaceFrom(t, RaceFrom(t, r, a), b)
    decreases |b|
  {
    if b == [] {
      assert a + b == a;
    } else {
      RaceConcat(t, r, a, b[..|b| - 1]);
      assert (a + b)[..|a + b| - 1] == a + b[..|b| - 1];
    }
  }

  // -- every verdict has its own run

  /** The run that led to this very decision ends where the decision was taken. */
  ghost predicate Backed(t: Thresholds, h: seq<bool>, d: Decision) {
    RunEnds(h, d.at, d.verdict, Needed(t, d.verdict))
  }

  /** Decisions are ordered by the outcomes that caused them, one per outcome at most. */
  ghost predicate Ordered(ds: seq<Decision>) {
    forall i, j :: 0 <= i < j < |ds| ==> ds[i].at < ds[j].at
  }

  ghost predicate RaceInv(t: Thresholds, r: Race) {
    && (r.successes == 0 || r.failures == 0)
    && RunEnds(r.history, |r.history|, true, r.successes)
    && RunEnds(r.history, |r.history|, false, r.failures)
    && Ordered(r.decided)
    && (forall i :: 0 <= i < |r.decided| ==> Backed(t, r.history, r.decided[i]))
    && multiset(r.stored) + multiset(r.pending) == multiset(r.decided)
    && r.up == (r.stored != [] && r.stored[|r.stored| - 1].verdict)
    && r.up == (r.announced != [] && r.announced[|r.announced| - 1])
  }

  /** More outcomes in lock order keep every backing and complete a run. */
  lemma HistoryGrows(t: Thresholds, h: seq<bool>, b: bool, n: nat, count: nat)
    requires RunEnds(h, |h|, b, count)
    ensures var g := h + Repeat(b, n);
            && RunEnds(g, |g|, b, count + n)
            && (count + n >= Needed(t, b) ==> RunEnds(g, |g|, b, Needed(t, b)))
            && forall d :: Backed(t, h, d) ==> Backed(t, g, d)
  {
    var g := h + Repeat(b, n);
    assert forall j :: |h| - count <= j < |h| ==> g[j] == b;
  }

  lemma DecisionsGrow(t: Thresholds, h: seq<bool>, g: seq<bool>, ds: seq<Decision>, made: seq<Decision>)
    requires Ordered(ds) && (forall i :: 0 <= i < |ds| ==> Backed(t, h, ds[i])) && |h| < |g|
    requires |made| <= 1 && forall i :: 0 <= i < |made| ==> Backed(t, g, made[i]) && made[i].at == |g|
    requires forall d :: Backed(t, h, d) ==> Backed(t, g, d)
    ensures Ordered(ds + made) && forall i :: 0 <= i < |ds + made| ==> Backed(t, g, (ds + made)[i])
  {
    forall i | 0 <= i < |ds| ensures ds[i].at <= |h| {
      assert Backed(t, h, ds[i]);
    }
  }

  lemma DecideKeepsInv(t: Thresholds, r: Race, ok: bool)
    requires t.Valid() && RaceInv(t, r)
    ensures RaceInv(t, RaceNext(t, r, Decide(ok)))
  {
    hide Ordered;
    var r' := RaceNext(t, r, Decide(ok));
    assert [ok] == Repeat(ok, 1);
    HistoryGrows(t, r.history, ok, 1, Count(r, ok));
    var made := if Flips(t, r, ok) then [Decision(ok, |r'.history|, false)] else [];
    DecisionsGrow(t, r.history, r'.history, r.decided, made);
    hide RunEnds;
    assert RunEnds(r'.history, |r'.history|, !ok, 0) by { NoRun(r'.history, !ok); }
  }

  lemma NoRun(h: seq<bool>, b: bool)
    ensures RunEnds(h, |h|, b, 0)
  {
  }

  lemma InitialKeepsInv(t: Thresholds, r: Race, v: bool)
    requires t.Valid() && RaceInv(t, r)
    ensures RaceInv(t, RaceNext(t, r, DecideInitial(v)))
  {
    hide Ordered;
    var r' := RaceNext(t, r, DecideInitial(v));
    NoRun(r.history, v);
    HistoryGrows(t, r.history, v, Needed(t, v), 0);
    DecisionsGrow(t, r.history, r'.history, r.decided, [Decision(v, |r'.history|, true)]);
    hide RunEnds;
    assert RunEnds(r'.history, |r'.history|, !v, 0) by { NoRun(r'.history, !v); }
  }

  lemma DroppedBag<T>(s: seq<T>, k: nat)
    requires k < |s|
    ensures multiset(s) == multiset(Dropped(s, k)) + multiset{s[k]}
  {
    assert s == s[..k] + ([s[k]] + s[k + 1..]);
    SplitBag(s[..k], s[k], s[k + 1..]);
  }

  lemma StoreKeepsInv(t: Thresholds, r: Race, k: nat)
    requires RaceInv(t, r)
    ensures RaceInv(t, RaceNext(t, r, Store(k)))
  {
    hide RunEnds, Ordered;
    if k < |r.pending| {
      DroppedBag(r.pending, k);
    }
  }

  lemma RaceKeepsInv(t: Thresholds, r: Race, s: RaceStep)
    requires t.Valid() && RaceInv(t, r)
    ensures RaceInv(t, RaceNext(t, r, s))
  {
    hide RaceInv, RaceNext;
    match s
    case Decide(ok) => DecideKeepsInv(t, r, ok);
    case DecideInitial(v) => InitialKeepsInv(t, r, v);
    case Store(k) => StoreKeepsInv(t, r, k);
  }

  lemma {:induction false} RaceAlwaysInv(t: Thresholds, steps: seq<RaceStep>)
    requires t.Valid()
    ensures RaceInv(t, RaceRun(t, steps))
    decreases |steps|
  {
    if steps == [] {
      assert RaceInv(t, RACE_START);
    } else {
      RaceAlwaysInv(t, steps[..|steps| - 1]);
      RaceKeepsInv(t, RaceRun(t, steps[..|steps| - 1]), steps[|steps| - 1]);
    }
  }

  lemma InBag<T>(a: seq<T>, b: seq<T>, c: seq<T>, x: T)
    requires multiset(a) + multiset(b) == multiset(c) && (x in a || x in b)
    ensures x in c
  {
    assert x in multiset(c);
  }

  /**
   In every interleaving of decisions and stores, each verdict stored or about to be stored ended a
   full run of `rise` successes or `fall` failures of its own, at the position where it was decided;
   the positions are all different, and stores are decisions, each stored once at most.  The flag is
   the verdict stored last.
   */
  lemma StoredVerdictsAreBacked(t: Thresholds, steps: seq<RaceStep>)
    requires t.Valid()
    ensures var r := RaceRun(t, steps);
            && Ordered(r.decided)
            && multiset(r.stored) + multiset(r.pending) == multiset(r.decided)
            && (forall d :: d in r.stored || d in r.pending ==>
                  d in r.decided && RunEnds(r.history, d.at, d.verdict, Needed(t, d.verdict)))
            && r.up == (r.stored != [] && r.stored[|r.stored| - 1].verdict)
            && r.up == (r.announced != [] && r.announced[|r.announced| - 1])
  {
    hide Ordered, RunEnds, RaceRun;
    RaceAlwaysInv(t, steps);
    var r := RaceRun(t, steps);
    forall d | d in r.stored || d in r.pending
      ensures d in r.decided && RunEnds(r.history, d.at, d.verdict, Needed(t, d.verdict))
    {
      InBag(r.stored, r.pending, r.decided, d);
      var i :| 0 <= i < |r.decided| && r.decided[i] == d;
      assert Backed(t, r.history, r.decided[i]);
    }
  }

  // -- agreement of flag and counters

  /** No full run contradicts the flag. */
  ghost predicate Agrees(t: Thresholds, r: Race) {
    && (r.successes >= t.rise ==> r.up)
    && (r.failures >= t.fall ==> !r.up)
  }

  /** Every decision is taken with no store outstanding. */
  ghost predicate Disciplined(t: Thresholds, steps: seq<RaceStep>) {
    forall i :: 0 <= i < |steps| && !steps[i].Store? ==> RaceRun(t, steps[..i]).pending == []
  }

  /** At most one store is outstanding, and it is the one the counters ask for. */
  ghost predicate Orderly(t: Thresholds, r: Race) {
    && |r.pending| <= 1
    && (r.successes == 0 || r.failures == 0)
    && (r.pending == [] ==> Agrees(t, r))
    && (r.pending != [] ==> Count(r, r.pending[0].verdict) >= Needed(t, r.pending[0].verdict))
  }

  lemma OrderlyStep(t: Thresholds, r: Race, s: RaceStep)
    requires t.Valid() && Orderly(t, r) && (!s.Store? ==> r.pending == [])
    ensures Orderly(t, RaceNext(t, r, s))
  {
  }

  /** If every store happens before the next decision, flag and counters agree at every quiet moment. */
  lemma {:induction false} DisciplinedRunAgrees(t: Thresholds, steps: seq<RaceStep>)
    requires t.Valid() && Disciplined(t, steps)
    ensures Orderly(t, RaceRun(t, steps))
    ensures RaceRun(t, steps).pending == [] ==> Agrees(t, RaceRun(t, steps))
    decreases |steps|
  {
    if steps != [] {
      var p, s := steps[..|steps| - 1], steps[|steps| - 1];
      forall i | 0 <= i < |p| && !p[i].Store? ensures RaceRun(t, p[..i]).pending == [] {
        assert p[..i] == steps[..i] && p[i] == steps[i];
      }
      DisciplinedRunAgrees(t, p);
      OrderlyStep(t, RaceRun(t, p), s);
    }
  }

  ghost predicate OnlyStores(steps: seq<RaceStep>) {
    forall i :: 0 <= i < |steps| ==> steps[i].Store?
  }

  /** The outstanding stores can land so that the one at k comes last; the counters do not move. */
  lemma {:induction false} StoreLast(t: Thresholds, r: Race, k: nat) returns (more: seq<RaceStep>)
    requires k < |r.pending|
    ensures OnlyStores(more)
    ensures var q := RaceFrom(t, r, more);
            q.pending == [] && q.up == r.pending[k].verdict && q.successes == r.successes && q.failures == r.failures
    decreases |r.pending|
  {
    var first := if |r.pending| == 1 || k > 0 then 0 else 1;
    var r' := RaceNext(t, r, Store(first));
    assert RaceFrom(t, r, [Store(first)]) == r' by {
      RaceSnoc(t, r, [], Store(first));
      assert [] + [Store(first)] == [Store(first)];
    }
    if |r.pending| == 1 {
      more := [Store(0)];
    } else {
      var rest := StoreLast(t, r', if k > 0 then k - 1 else 0);
      more := [Store(first)] + rest;
      RaceConcat(t, r, [Store(first)], rest);
    }
  }

  /** A verdict that no full run contradicts. */
  ghost predicate Fits(t: Thresholds, r: Race, b: bool) { Count(r, !b) < Needed(t, !b) }

  lemma {:induction false} FittingStoresAgree(t: Thresholds, r: Race, more: seq<RaceStep>)
    requires forall k :: 0 <= k < |r.pending| ==> Fits(t, r, r.pending[k].verdict)
    requires r.pending == [] ==> Fits(t, r, r.up)
    requires OnlyStores(more)
    ensures var q := RaceFrom(t, r, more);
            && (forall k :: 0 <= k < |q.pending| ==> Fits(t, q, q.pending[k].verdict))
            && (q.pending == [] ==> Agrees(t, q))
            && q.successes == r.successes && q.failures == r.failures
    decreases |more|
  {
    if more != [] {
      FittingStoresAgree(t, r, more[..|more| - 1]);
    }
  }

  /** No full run contradicts an outstanding verdict or, when none is outstanding, the flag. */
  ghost predicate AllFit(t: Thresholds, r: Race) {
    if r.pending == [] then Fits(t, r, r.up)
    else forall k :: 0 <= k < |r.pending| ==> Fits(t, r, r.pending[k].verdict)
  }

  /**
   The exact condition, in any state: whatever order the outstanding stores land in, flag and
   counters end in agreement, if and only if no full run contradicts an outstanding verdict (or, when
   none is outstanding, the flag).
   */
  lemma StoresAgreeExactly(t: Thresholds, r: Race)
    ensures (forall more :: OnlyStores(more) && RaceFrom(t, r, more).pending == [] ==> Agrees(t, RaceFrom(t, r, more)))
            <==> AllFit(t, r)
  {
    hide RaceFrom;
    if AllFit(t, r) {
      forall more | OnlyStores(more) && RaceFrom(t, r, more).pending == [] ensures Agrees(t, RaceFrom(t, r, more)) {
        FittingStoresAgree(t, r, more);
      }
    } else if r.pending == [] {
      NoSteps(t, r);
      assert OnlyStores([]) && !Agrees(t, RaceFrom(t, r, []));
    } else {
      var k :| 0 <= k < |r.pending| && !Fits(t, r, r.pending[k].verdict);
      var more := StoreLast(t, r, k);
      assert !Agrees(t, RaceFrom(t, r, more));
    }
  }

  lemma NoSteps(t: Thresholds, r: Race)
    ensures RaceFrom(t, r, []) == r
  {
  }

  ghost function Reports(b: bool, n: nat): seq<RaceStep> {
    seq(n, i => Decide(b))
  }

  /** A burst of equal reports leaves the flag and the outstanding stores where they are. */
  lemma {:induction false} Burst(t: Thresholds, r: Race, b: bool, n: nat)
    ensures var q := RaceFrom(t, r, Reports(b, n));
            && q.up == r.up && q.announced == r.announced && Count(q, b) >= n
            && |q.pending| >= |r.pending| && q.pending[..|r.pending|] == r.pending
            && (r.up != b && n > 0 && n >= Needed(t, b) ==>
                  && |q.pending| > |r.pending|
                  && q.pending[|q.pending| - 1].verdict == b && !q.pending[|q.pending| - 1].initial)
    decreases n
  {
    if n > 0 {
      Burst(t, r, b, n - 1);
      RaceSnoc(t, r, Reports(b, n - 1), Decide(b));
      assert Reports(b, n) == Reports(b, n - 1) + [Decide(b)];
    }
  }

  /**
   Discipline is needed, for all thresholds: from any state whatsoever with a store outstanding,
   reports of the opposite kind and then the outstanding stores, that one last, lead to a quiet state
   in which a full run contradicts the flag.
   */
  lemma LateStoreDisagrees(t: Thresholds, steps: seq<RaceStep>, k: nat) returns (more: seq<RaceStep>)
    requires t.Valid() && k < |RaceRun(t, steps).pending|
    ensures var r := RaceRun(t, steps + more); r.pending == [] && !Agrees(t, r)
    ensures var b := RaceRun(t, steps).pending[k].verdict;
            var n := Needed(t, !b);
            |more| >= n && more[..n] == Reports(!b, n) && OnlyStores(more[n..])
  {
    hide RaceFrom;
    var r := RaceRun(t, steps);
    var b := r.pending[k].verdict;
    var n := Needed(t, !b);
    Burst(t, r, !b, n);
    var q := RaceFrom(t, r, Reports(!b, n));
    assert q.pending[k] == q.pending[..|r.pending|][k];
    var last := StoreLast(t, q, k);
    more := Reports(!b, n) + last;
    RaceConcat(t, r, Reports(!b, n), last);
    RaceConcat(t, RACE_START, steps, more);
  }

  // -- alternation of announcements

  /** Never more than one store outstanding. */
  ghost predicate OneAtATime(t: Thresholds, steps: seq<RaceStep>) {
    forall i :: 0 <= i <= |steps| ==> |RaceRun(t, steps[..i]).pending| <= 1
  }

  ghost predicate Announcing(r: Race) {
    && Alternates(r.announced)
    && r.up == (r.announced != [] && r.announced[|r.announced| - 1])
    && (|r.pending| == 1 && !r.pending[0].initial ==> r.pending[0].verdict != r.up)
  }

  lemma AnnouncingStep(t: Thresholds, r: Race, s: RaceStep)
    requires Announcing(r) && |r.pending| <= 1 && |RaceNext(t, r, s).pending| <= 1
    ensures Announcing(RaceNext(t, r, s))
  {
  }

  /** With at most one store outstanding at any moment, announcements alternate, initial verdicts included. */
  lemma {:induction false} OneAtATimeAlternates(t: Thresholds, steps: seq<RaceStep>)
    requires OneAtATime(t, steps)
    ensures Announcing(RaceRun(t, steps))
    decreases |steps|
  {
    if steps != [] {
      var p := steps[..|steps| - 1];
      forall i | 0 <= i <= |p| ensures |RaceRun(t, p[..i]).pending| <= 1 {
        assert p[..i] == steps[..i];
      }
      OneAtATimeAlternates(t, p);
      assert p[..|p|] == p && steps[..|steps|] == steps;
      AnnouncingStep(t, RaceRun(t, p), steps[|steps| - 1]);
    }
  }

  /** Discipline keeps at most one store outstanding. */
  lemma DisciplinedIsOneAtATime(t: Thresholds, steps: seq<RaceStep>)
    requires t.Valid() && Disciplined(t, steps)
    ensures OneAtATime(t, steps)
  {
    hide RaceRun;
    forall i | 0 <= i <= |steps| ensures |RaceRun(t, steps[..i]).pending| <= 1 {
      var p := steps[..i];
      forall j | 0 <= j < |p| && !p[j].Store? ensures RaceRun(t, p[..j]).pending == [] {
        assert p[..j] == steps[..j] && p[j] == steps[j];
      }
      DisciplinedRunAgrees(t, p);
    }
  }

  /** Only reports, no initial verdict. */
  ghost predicate OnlyReports(steps: seq<RaceStep>) {
    forall i :: 0 <= i < |steps| ==> !steps[i].DecideInitial?
  }

  lemma {:induction false} ReportsPend(t: Thresholds, steps: seq<RaceStep>)
    requires OnlyReports(steps)
    ensures NoInitial(RaceRun(t, steps).pending)
    decreases |steps|
  {
    if steps != [] {
      ReportsPend(t, steps[..|steps| - 1]);
      assert !steps[|steps| - 1].DecideInitial?;
      ReportStep(t, RaceRun(t, steps[..|steps| - 1]), steps[|steps| - 1]);
    }
  }

  ghost predicate NoInitial(ds: seq<Decision>) {
    forall k :: 0 <= k < |ds| ==> !ds[k].initial
  }

  lemma ReportStep(t: Thresholds, r: Race, s: RaceStep)
    requires NoInitial(r.pending) && !s.DecideInitial?
    ensures NoInitial(RaceNext(t, r, s).pending)
  {
  }

  /** Announcing what was announced last, or "down" to begin with, breaks the alternation for good. */
  lemma RepeatBreaks(t: Thresholds, r: Race, k: nat)
    requires k < |r.pending| && !r.pending[k].initial && r.pending[k].verdict == r.up
    requires r.up == (r.announced != [] && r.announced[|r.announced| - 1])
    ensures !Alternates(RaceNext(t, r, Store(k)).announced)
  {
    var c, n := RaceNext(t, r, Store(k)).announced, |r.announced|;
    assert c == r.announced + [r.up];
    if n > 0 {
      assert c[n] == c[n - 1];
    } else {
      assert !c[0];
    }
  }

  /** Two reports' stores outstanding: landing in the wrong order, or at all, they repeat an announcement. */
  lemma TwoStoresRepeat(t: Thresholds, r: Race) returns (more: seq<RaceStep>)
    requires |r.pending| >= 2 && NoInitial(r.pending)
    requires r.up == (r.announced != [] && r.announced[|r.announced| - 1])
    ensures OnlyStores(more) && !Alternates(RaceFrom(t, r, more).announced)
  {
    var k := if r.pending[0].verdict == r.up then 0 else 1;
    if r.pending[k].verdict == r.up {
      more := [Store(k)];
      RaceSnoc(t, r, [], Store(k));
      NoSteps(t, r);
      assert [] + more == more;
      RepeatBreaks(t, r, k);
    } else {
      more := [Store(0), Store(0)];
      var q := RaceNext(t, r, Store(0));
      RaceSnoc(t, r, [], Store(0));
      NoSteps(t, r);
      assert [] + [Store(0)] == [Store(0)] && more == [Store(0)] + [Store(0)];
      RaceSnoc(t, r, [Store(0)], Store(0));
      RepeatBreaks(t, q, 0);
    }
  }

  /**
   The exact condition for reports: announcements alternate however the outstanding stores of any
   moment land, if and only if there is never more than one outstanding.
   */
  lemma AlternationExact(t: Thresholds, steps: seq<RaceStep>)
    requires t.Valid() && OnlyReports(steps)
    ensures OneAtATime(t, steps) <==>
            forall i, more :: 0 <= i <= |steps| && OnlyStores(more) ==>
              Alternates(RaceFrom(t, RaceRun(t, steps[..i]), more).announced)
  {
    hide RaceFrom, Alternates, Announcing;
    if OneAtATime(t, steps) {
      forall i, more | 0 <= i <= |steps| && OnlyStores(more)
        ensures Alternates(RaceFrom(t, RaceRun(t, steps[..i]), more).announced)
      {
        PrefixOneAtATime(t, steps, i);
        OneAtATimeAlternates(t, steps[..i]);
        assert steps[..i][..i] == steps[..i];
        StoresKeepAlternating(t, RaceRun(t, steps[..i]), more);
      }
    } else {
      var i :| 0 <= i <= |steps| && |RaceRun(t, steps[..i]).pending| > 1;
      RaceAlwaysInv(t, steps[..i]);
      ReportsPend(t, steps[..i]);
      var more := TwoStoresRepeat(t, RaceRun(t, steps[..i]));
    }
  }

  lemma PrefixOneAtATime(t: Thresholds, steps: seq<RaceStep>, i: nat)
    requires i <= |steps| && OneAtATime(t, steps)
    ensures OneAtATime(t, steps[..i]) && |RaceRun(t, steps[..i]).pending| <= 1
  {
    hide RaceRun;
    forall j | 0 <= j <= i ensures |RaceRun(t, steps[..i][..j]).pending| <= 1 {
      assert steps[..i][..j] == steps[..j];
    }
  }

  lemma {:induction false} StoresKeepAlternating(t: Thresholds, r: Race, more: seq<RaceStep>)
    requires Announcing(r) && |r.pending| <= 1 && OnlyStores(more)
    ensures var q := RaceFrom(t, r, more); Announcing(q) && |q.pending| <= 1 && Alternates(q.announced)
    decreases |more|
  {
    if more != [] {
      StoresKeepAlternating(t, r, more[..|more| - 1]);
      AnnouncingStep(t, RaceFrom(t, r, more[..|more| - 1]), more[|more| - 1]);
    }
  }

  // -- serial runs

  /** The steps of one report whose store happens at once. */
  ghost function ReportSteps(t: Thresholds, r: Race, ok: bool): seq<RaceStep> {
    [Decide(ok)] + if Flips(t, r, ok) then [Store(|r.pending|)] else []
  }

  /** The steps of one logged event, taken serially. */
  ghost function EventSteps(t: Thresholds, r: Race, e: Event): seq<RaceStep> {
    match e
    case Probe(ok, _) => ReportSteps(t, r, ok)
    case Query(ok, _) => if t.passive then ReportSteps(t, r, ok) else []
    case Initial(up, _) => [DecideInitial(up), Store(|r.pending|)]
  }

  ghost function SerialSteps(t: Thresholds, log: seq<Event>): seq<RaceStep> {
    if log == [] then []
    else
      var before := SerialSteps(t, log[..|log| - 1]);
      before + EventSteps(t, RaceRun(t, before), log[|log| - 1])
  }

  lemma TwoSteps(t: Thresholds, r: Race, a: RaceStep, b: RaceStep)
    ensures RaceFrom(t, r, [a]) == RaceNext(t, r, a)
    ensures RaceFrom(t, r, [a, b]) == RaceNext(t, RaceNext(t, r, a), b)
  {
    NoSteps(t, r);
    RaceSnoc(t, r, [], a);
    assert [] + [a] == [a] && [a, b] == [a] + [b];
    RaceSnoc(t, r, [a], b);
  }

  /**
   From any reachable state with no store outstanding, however wrong the flag, one more serial
   report leaves no store outstanding and makes verdict and counters agree.
   */
  lemma OneReportHeals(t: Thresholds, steps: seq<RaceStep>, ok: bool)
    requires t.Valid() && RaceRun(t, steps).pending == []
    ensures var r := RaceRun(t, steps + ReportSteps(t, RaceRun(t, steps), ok)); Agrees(t, r) && r.pending == []
  {
    hide RaceFrom;
    var r := RaceRun(t, steps);
    RaceConcat(t, RACE_START, steps, ReportSteps(t, r, ok));
    assert [Decide(ok)] + [] == [Decide(ok)] && [Decide(ok)] + [Store(0)] == [Decide(ok), Store(0)];
    TwoSteps(t, r, Decide(ok), Store(0));
  }

  /** What one serial event does to a quiet state that agrees with its counters. */
  lemma SerialEvent(t: Thresholds, r: Race, e: Event)
    requires t.Valid() && r.pending == [] && Settled(t, Verdict(r.up, r.successes, r.failures))
    ensures var r' := RaceFrom(t, r, EventSteps(t, r, e));
            var v, v' := Verdict(r.up, r.successes, r.failures), Verdict(r'.up, r'.successes, r'.failures);
            && r'.pending == []
            && r'.announced == r.announced + (if v.up == v'.up then [] else [v'.up])
            && v' == StepOf(t, v, e)
  {
    hide RaceFrom;
    match e
    case Initial(up, _) => TwoSteps(t, r, DecideInitial(up), Store(0));
    case Probe(ok, _) => SerialReport(t, r, ok);
    case Query(ok, _) => SerialReport(t, r, ok); NoSteps(t, r);
  }

  lemma SerialReport(t: Thresholds, r: Race, ok: bool)
    requires t.Valid() && r.pending == [] && Settled(t, Verdict(r.up, r.successes, r.failures))
    ensures var r' := RaceFrom(t, r, ReportSteps(t, r, ok));
            && r'.pending == []
            && r'.announced == r.announced + (if r.up == r'.up then [] else [r'.up])
            && Verdict(r'.up, r'.successes, r'.failures) == Step(t, Verdict(r.up, r.successes, r.failures), ok)
  {
    hide RaceFrom;
    TwoSteps(t, r, Decide(ok), Store(0));
    assert [Decide(ok)] + [] == [Decide(ok)] && [Decide(ok)] + [Store(0)] == [Decide(ok), Store(0)];
  }

  lemma VerdictSettled(t: Thresholds, log: seq<Event>)
    requires t.Valid()
    ensures Settled(t, VerdictOf(t, log))
  {
    VerdictClosedForm(t, Outcomes(t, log));
  }

  lemma NothingHappened(t: Thresholds)
    ensures SerialSteps(t, []) == [] && RaceFrom(t, RACE_START, []) == RACE_START
    ensures VerdictOf(t, []) == NEVER_SEEN && Callbacks(t, []) == []
  {
  }

  lemma OneMoreEvent(t: Thresholds, log: seq<Event>, e: Event)
    ensures SerialSteps(t, log + [e]) == SerialSteps(t, log) + EventSteps(t, RaceRun(t, SerialSteps(t, log)), e)
    ensures var before, now := VerdictOf(t, log).up, VerdictOf(t, log + [e]).up;
            Callbacks(t, log + [e]) == Callbacks(t, log) + if before == now then [] else [now]
  {
    hide EventSteps, VerdictOf;
    assert (log + [e])[..|log|] == log;
  }

  /**
   Run serially, the two-step machine is the one-step automaton: for every log of probes, queries
   and initial verdicts it ends in the same flag and counters with the same announcements.
   */
  lemma {:induction false} SerialRunIsReplay(t: Thresholds, log: seq<Event>)
    requires t.Valid()
    ensures var r := RaceRun(t, SerialSteps(t, log));
            && r.pending == []
            && Verdict(r.up, r.successes, r.failures) == VerdictOf(t, log)
            && r.announced == Callbacks(t, log)
    decreases |log|
  {
    hide RaceFrom, EventSteps, Settled, StepOf, VerdictOf, Callbacks, SerialSteps;
    NothingHappened(t);
    if log != [] {
      var p, e := log[..|log| - 1], log[|log| - 1];
      assert log == p + [e];
      SerialRunIsReplay(t, p);
      VerdictSettled(t, p);
      var s := SerialSteps(t, p);
      OneMoreEvent(t, p, e);
      RaceConcat(t, RACE_START, s, EventSteps(t, RaceRun(t, s), e));
      SerialEvent(t, RaceRun(t, s), e);
      VerdictStep(t, p, e);
    }
  }

  lemma DecisionFirst(t: Thresholds, r: Race, e: Event)
    ensures forall i :: 0 < i < |EventSteps(t, r, e)| ==> EventSteps(t, r, e)[i].Store?
  {
  }

  /** A serial run is disciplined, so the theorems about discipline apply to it. */
  lemma {:induction false} SerialRunIsDisciplined(t: Thresholds, log: seq<Event>)
    requires t.Valid()
    ensures Disciplined(t, SerialSteps(t, log))
    decreases |log|
  {
    hide RaceRun, SerialSteps, EventSteps, VerdictOf, Callbacks;
    NothingHappened(t);
    if log != [] {
      var p, e := log[..|log| - 1], log[|log| - 1];
      assert log == p + [e];
      SerialRunIsDisciplined(t, p);
      SerialRunIsReplay(t, p);
      OneMoreEvent(t, p, e);
      var s := SerialSteps(t, p);
      var all := SerialSteps(t, log);
      DecisionFirst(t, RaceRun(t, s), e);
      forall i | 0 <= i < |all| && !all[i].Store? ensures RaceRun(t, all[..i]).pending == [] {
        if i < |s| {
          assert all[i] == s[i] && all[..i] == s[..i];
        } else {
          assert i == |s| && all[..i] == s;
        }
      }
    }
  }
}
