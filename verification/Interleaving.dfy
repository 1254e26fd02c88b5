/**
 The same books when queries overlap.  Every counter is updated atomically, but the updates of
 different queries interleave freely: a query in flight has reported its attempts and perhaps its
 public answer, while its record is not filed yet.
 */
module Interleaving {
  import opened Basics
  import Ledger
  import Net
  import Plans
  import Stats
  import Wire

  /** A query in flight: attempts reported so far, the Pi-hole that answered, or a public answer. */
  datatype Flight = Flight(attempts: nat, winner: Option<string>, isPublic: bool)

  /** All counters, those of the paths grouped by Pi-hole. */
  datatype Books = Books(
    flights: map<nat, Flight>,
    tries: map<string, nat>, fails: map<string, nat>,
    publicOk: nat,
    total: nat, named: map<string, nat>, fallback: nat, failed: nat, retried: nat, attempted: nat)

  datatype Action =
    | Begin(id: nat)
    | Attempt(id: nat, upstream: string, ok: bool)
    | Ask(id: nat, ok: bool)
    | File(id: nat)

  const BLANK := Books(map[], map[], map[], 0, 0, map[], 0, 0, 0, 0)

  function Bump(m: map<string, nat>, k: string): map<string, nat> { m[k := GetOr(m, k) + 1] }

  /** An action a forwarder can take next; a query stops trying once it has an answer. */
  ghost predicate Enabled(b: Books, a: Action) {
    match a
    case Begin(id) => id !in b.flights
    case Attempt(id, _, _) => id in b.flights && b.flights[id].winner.None? && !b.flights[id].isPublic
    case Ask(id, _) => id in b.flights && b.flights[id].winner.None? && !b.flights[id].isPublic
    case File(id) => id in b.flights
  }

  ghost function Next(b: Books, a: Action): Books
    requires Enabled(b, a)
  {
    match a
    case Begin(id) => b.(flights := b.flights[id := Flight(0, None, false)])
    case Attempt(id, u, ok) =>
      var f := b.flights[id];
      b.(flights := b.flights[id := f.(attempts := f.attempts + 1, winner := if ok then Some(u) else None)],
         tries := Bump(b.tries, u), fails := if ok then b.fails else Bump(b.fails, u))
    case Ask(id, ok) =>
      b.(flights := b.flights[id := b.flights[id].(isPublic := ok)], publicOk := b.publicOk + if ok then 1 else 0)
    case File(id) =>
      var f := b.flights[id];
      b.(flights := b.flights - {id},
         total := b.total + 1,
         named := if f.winner.Some? then Bump(b.named, f.winner.value) else b.named,
         fallback := b.fallback + (if f.winner.None? && f.isPublic then 1 else 0),
         failed := b.failed + (if f.winner.None? && !f.isPublic then 1 else 0),
         retried := b.retried + (if f.attempts > 1 then f.attempts - 1 else 0),
         attempted := b.attempted + (if f.attempts > 0 then 1 else 0))
  }

  /** The books after an interleaving, if each of its actions was possible when taken. */
  ghost function After(actions: seq<Action>): Option<Books> {
    if actions == [] then Some(BLANK)
    else
      var b, a := After(actions[..|actions| - 1]), actions[|actions| - 1];
      if b.Some? && Enabled(b.value, a) then Some(Next(b.value, a)) else None
  }

  // ---------------------------------------------------------------- sums over queries in flight

  /** Total weight of the queries in flight. */
  ghost function Pending(m: map<nat, Flight>, w: Flight -> nat): nat {
    if m == map[] then 0
    else
      var k :| k in m;
      w(m[k]) + Pending(m - {k}, w)
  }

  lemma {:induction false} PendingPick(m: map<nat, Flight>, w: Flight -> nat, k: nat)
    requires k in m
    ensures Pending(m, w) == w(m[k]) + Pending(m - {k}, w)
    decreases |m|
  {
    var c :| c in m && Pending(m, w) == w(m[c]) + Pending(m - {c}, w);
    if c != k {
      PendingPick(m - {c}, w, k);
      PendingPick(m - {k}, w, c);
      assert m - {c} - {k} == m - {k} - {c};
    }
  }

  lemma PendingUpdate(m: map<nat, Flight>, w: Flight -> nat, k: nat, f: Flight)
    ensures Pending(m[k := f], w) == Pending(m - {k}, w) + w(f)
    ensures k in m ==> Pending(m, w) == Pending(m - {k}, w) + w(m[k])
    ensures k !in m ==> Pending(m - {k}, w) == Pending(m, w)
  {
    PendingPick(m[k := f], w, k);
    assert m[k := f] - {k} == m - {k};
    if k in m {
      PendingPick(m, w, k);
    } else {
      assert m - {k} == m;
    }
  }

  const ATTEMPTS: Flight -> nat := (f: Flight) => f.attempts
  const IS_PUBLIC: Flight -> nat := (f: Flight) => if f.isPublic then 1 else 0

  ghost function WonBy(u: string): Flight -> nat {
    (f: Flight) => if f.winner == Some(u) then 1 else 0
  }

  /** No query in flight has two answers. */
  ghost predicate OneAnswer(m: map<nat, Flight>) {
    forall k :: k in m ==> m[k].winner.None? || !m[k].isPublic
  }

  /** Per Pi-hole: attempts are failures, answers filed, and answers of queries still in flight. */
  ghost predicate NodeBalanced(b: Books, u: string) {
    GetOr(b.tries, u) == GetOr(b.fails, u) + GetOr(b.named, u) + Pending(b.flights, WonBy(u))
  }

  /** The books balance up to the queries in flight. */
  ghost predicate Balanced(b: Books) {
    && OneAnswer(b.flights)
    && b.total == MapSum(b.named) + b.fallback + b.failed
    && MapSum(b.tries) == b.retried + b.attempted + Pending(b.flights, ATTEMPTS)
    && (forall u :: NodeBalanced(b, u))
    && b.publicOk == b.fallback + Pending(b.flights, IS_PUBLIC)
  }

  /** What an action makes of its own query. */
  ghost function Made(b: Books, a: Action): Flight
    requires Enabled(b, a)
  {
    var b' := Next(b, a);
    if a.id in b'.flights then b'.flights[a.id] else Flight(0, None, false)
  }

  lemma NodeKept(b: Books, a: Action, u: string)
    requires Enabled(b, a) && NodeBalanced(b, u)
    ensures NodeBalanced(Next(b, a), u)
  {
    PendingUpdate(b.flights, WonBy(u), a.id, Made(b, a));
    hide Pending;
  }

  lemma TotalsKept(b: Books, a: Action)
    requires Enabled(b, a) && Balanced(b)
    ensures var b' := Next(b, a);
            && b'.total == MapSum(b'.named) + b'.fallback + b'.failed
            && MapSum(b'.tries) == b'.retried + b'.attempted + Pending(b'.flights, ATTEMPTS)
            && b'.publicOk == b'.fallback + Pending(b'.flights, IS_PUBLIC)
  {
    PendingUpdate(b.flights, ATTEMPTS, a.id, Made(b, a));
    PendingUpdate(b.flights, IS_PUBLIC, a.id, Made(b, a));
    if a.Attempt? {
      MapSumBump(b.tries, a.upstream);
    } else if a.File? && b.flights[a.id].winner.Some? {
      MapSumBump(b.named, b.flights[a.id].winner.value);
    }
    hide Pending, MapSum, NodeBalanced;
  }

  lemma ActionKeepsBalance(b: Books, a: Action)
    requires Balanced(b) && Enabled(b, a)
    ensures Balanced(Next(b, a))
  {
    hide Pending, MapSum, NodeBalanced;
    TotalsKept(b, a);
    forall u ensures NodeBalanced(Next(b, a), u) {
      NodeKept(b, a, u);
    }
  }

  /** In every interleaving, at every moment, the books balance up to the queries in flight. */
  lemma {:induction false} EveryInterleavingBalances(actions: seq<Action>)
    requires After(actions).Some?
    ensures Balanced(After(actions).value)
    decreases |actions|
  {
    if actions != [] {
      EveryInterleavingBalances(actions[..|actions| - 1]);
      ActionKeepsBalance(After(actions[..|actions| - 1]).value, actions[|actions| - 1]);
    }
  }

  /**
   Once no query is in flight, the identities are exact: total = answers + fallback + failed,
   attempts = retries + queries attempted, per Pi-hole attempts minus failures = answers filed, and
   public answers = fallback.
   */
  lemma QuietBooksBalance(actions: seq<Action>, u: string)
    requires After(actions).Some? && After(actions).value.flights == map[]
    ensures var b := After(actions).value;
            && b.total == MapSum(b.named) + b.fallback + b.failed
            && MapSum(b.tries) == b.retried + b.attempted
            && GetOr(b.tries, u) - GetOr(b.fails, u) == GetOr(b.named, u)
            && b.publicOk == b.fallback
  {
    EveryInterleavingBalances(actions);
    var b := After(actions).value;
    hide After;
    assert NodeBalanced(b, u);
  }

  // ---------------------------------------------------------------- interleavings query by query

  /** The actions of one query, in the order it takes them. */
  ghost function Own(actions: seq<Action>, id: nat): seq<Action> {
    if actions == [] then []
    else
      var rest, a := Own(actions[..|actions| - 1], id), actions[|actions| - 1];
      if a.id == id then rest + [a] else rest
  }

  /** Two states of the books show the same about one query in flight. */
  ghost predicate SameFlight(b: Books, c: Books, id: nat) {
    (id in b.flights <==> id in c.flights) && (id in b.flights ==> b.flights[id] == c.flights[id])
  }

  lemma AfterSnoc(actions: seq<Action>, a: Action)
    ensures After(actions + [a]).Some? <==> After(actions).Some? && Enabled(After(actions).value, a)
    ensures After(actions + [a]).Some? ==> After(actions + [a]) == Some(Next(After(actions).value, a))
  {
    assert (actions + [a])[..|actions|] == actions;
  }

  lemma OwnSnoc(actions: seq<Action>, a: Action, id: nat)
    ensures Own(actions + [a], id) == if a.id == id then Own(actions, id) + [a] else Own(actions, id)
  {
    assert (actions + [a])[..|actions|] == actions;
  }

  /** Whether an action is possible, and what it does to flights, depends on its own query alone. */
  lemma ActionIsLocal(b: Books, c: Books, a: Action, id: nat)
    requires SameFlight(b, c, a.id)
    ensures Enabled(b, a) <==> Enabled(c, a)
    ensures Enabled(b, a) && id == a.id ==> SameFlight(Next(b, a), Next(c, a), id)
    ensures Enabled(b, a) && id != a.id ==> SameFlight(Next(b, a), b, id)
  {
  }

  /** Every query is where its own actions alone would have taken it. */
  ghost predicate InStep(actions: seq<Action>) {
    && After(actions).Some?
    && forall id :: After(Own(actions, id)).Some? && SameFlight(After(actions).value, After(Own(actions, id)).value, id)
  }

  lemma InStepSnoc(actions: seq<Action>, a: Action)
    requires InStep(actions)
    requires After(Own(actions, a.id) + [a]).Some? || After(actions + [a]).Some?
    ensures InStep(actions + [a])
  {
    hide After, Own, Next, Enabled;
    var b := After(actions).value;
    AfterSnoc(actions, a);
    AfterSnoc(Own(actions, a.id), a);
    ActionIsLocal(b, After(Own(actions, a.id)).value, a, a.id);
    forall id
      ensures After(Own(actions + [a], id)).Some?
      ensures SameFlight(After(actions + [a]).value, After(Own(actions + [a], id)).value, id)
    {
      OwnSnoc(actions, a, id);
      ActionIsLocal(b, After(Own(actions, a.id)).value, a, id);
    }
  }

  lemma InStepNone()
    ensures InStep([])
  {
  }

  /** Query by query, the actions are possible. */
  ghost predicate EachPossible(actions: seq<Action>) {
    forall id: nat :: After(Own(actions, id)).Some?
  }

  lemma EachPrefixPossible(actions: seq<Action>, a: Action)
    requires EachPossible(actions + [a])
    ensures EachPossible(actions) && After(Own(actions, a.id) + [a]).Some?
  {
    hide After, Own;
    OwnSnoc(actions, a, a.id);
    forall id: nat ensures After(Own(actions, id)).Some? {
      OwnSnoc(actions, a, id);
      AfterSnoc(Own(actions, id), a);
    }
  }

  /**
   An interleaving is possible if and only if, query by query, each one's own actions are: whatever
   the others do in between, they cannot get in its way.
   */
  lemma {:induction false} InterleavingExact(actions: seq<Action>)
    ensures After(actions).Some? <==> EachPossible(actions)
    ensures After(actions).Some? ==> InStep(actions)
    decreases |actions|
  {
    hide After, Own, InStep, EachPossible;
    if actions == [] {
      InStepNone();
    } else if After(actions).Some? || EachPossible(actions) {
      var p, a := actions[..|actions| - 1], actions[|actions| - 1];
      assert actions == p + [a];
      AfterSnoc(p, a);
      if EachPossible(actions) {
        EachPrefixPossible(p, a);
      }
      InterleavingExact(p);
      InStepSnoc(p, a);
    }
    if InStep(actions) {
      InStepOwn(actions);
    }
  }

  lemma InStepOwn(actions: seq<Action>)
    requires InStep(actions)
    ensures After(actions).Some? && EachPossible(actions)
  {
  }

  // ---------------------------------------------------------------- counters add up

  datatype Counter =
    | Total | FallbackCounter | FailedCounter | RetriedCounter | AttemptedCounter | PublicCounter
    | TriesOf(u: string) | FailsOf(u: string) | NamedOf(u: string)

  ghost function Read(b: Books, c: Counter): nat {
    match c
    case Total => b.total
    case FallbackCounter => b.fallback
    case FailedCounter => b.failed
    case RetriedCounter => b.retried
    case AttemptedCounter => b.attempted
    case PublicCounter => b.publicOk
    case TriesOf(u) => GetOr(b.tries, u)
    case FailsOf(u) => GetOr(b.fails, u)
    case NamedOf(u) => GetOr(b.named, u)
  }

  /** What a counter would show after the actions of one query alone. */
  ghost function Share(actions: seq<Action>, id: nat, c: Counter): nat {
    var b := After(Own(actions, id));
    if b.Some? then Read(b.value, c) else 0
  }

  ghost function SumShares(actions: seq<Action>, ids: seq<nat>, c: Counter): nat {
    if ids == [] then 0 else SumShares(actions, ids[..|ids| - 1], c) + Share(actions, ids[|ids| - 1], c)
  }

  lemma BumpReads()
    ensures forall m: map<string, nat>, k, u :: GetOr(Bump(m, k), u) == GetOr(m, u) + if k == u then 1 else 0
  {
  }

  /** An action moves every counter by an amount that depends on its own query alone. */
  lemma MovesAlike(b: Books, d: Books, a: Action, c: Counter)
    requires SameFlight(b, d, a.id) && Enabled(b, a) && Enabled(d, a)
    ensures Read(Next(b, a), c) - Read(b, c) == Read(Next(d, a), c) - Read(d, c)
  {
    hide Bump, GetOr;
    BumpReads();
  }

  lemma {:induction false} SharesSnoc(actions: seq<Action>, a: Action, ids: seq<nat>, c: Counter)
    requires NoDup(ids) && InStep(actions + [a])
    ensures var b := After(Own(actions, a.id));
            && b.Some? && Enabled(b.value, a)
            && SumShares(actions + [a], ids, c) == SumShares(actions, ids, c)
               + if a.id in ids then Read(Next(b.value, a), c) - Read(b.value, c) else 0
    decreases |ids|
  {
    hide After, Own, Next, Enabled, Read;
    InStepOwn(actions + [a]);
    OwnSnoc(actions, a, a.id);
    AfterSnoc(Own(actions, a.id), a);
    if ids != [] {
      var p, id := ids[..|ids| - 1], ids[|ids| - 1];
      assert ids == p + [id] && id !in p;
      SharesSnoc(actions, a, p, c);
      OwnSnoc(actions, a, id);
    }
  }

  lemma {:induction false} NoShares(ids: seq<nat>, c: Counter)
    ensures SumShares([], ids, c) == 0
    decreases |ids|
  {
    if ids != [] {
      NoShares(ids[..|ids| - 1], c);
    }
  }

  /**
   The books after any interleaving are the sum of the books each query would have left alone, in
   every counter.
   */
  lemma {:induction false} BooksAddUp(actions: seq<Action>, ids: seq<nat>, c: Counter)
    requires After(actions).Some? && NoDup(ids)
    requires forall i :: 0 <= i < |actions| ==> actions[i].id in ids
    ensures Read(After(actions).value, c) == SumShares(actions, ids, c)
    decreases |actions|
  {
    if actions == [] {
      NoShares(ids, c);
    } else {
      hide After, SumShares, Next, Enabled, Read, Own;
      var p, a := actions[..|actions| - 1], actions[|actions| - 1];
      assert actions == p + [a] && a.id in ids;
      AfterSnoc(p, a);
      BooksAddUp(p, ids, c);
      InterleavingExact(p);
      InterleavingExact(actions);
      SharesSnoc(p, a, ids, c);
      MovesAlike(After(p).value, After(Own(p, a.id)).value, a, c);
    }
  }

  // ---------------------------------------------------------------- forwarded queries as actions

  /** What one forwarded query does: attempts at these Pi-holes, only the last perhaps good, then public ones. */
  datatype Trip = Trip(names: seq<string>, won: bool, asked: nat, isPublic: bool) {
    ghost predicate Possible() {
      && (won ==> names != [] && asked == 0)
      && (isPublic ==> !won && asked > 0)
    }
  }

  /** The actions of a trip: attempts, public servers asked, then its record. */
  ghost function ActionsOf(id: nat, q: Trip): seq<Action> {
    [Begin(id)] + Attempts(id, q, |q.names|) + Asks(id, q, q.asked) + [File(id)]
  }

  /** The first k attempts; only the very last may succeed. */
  ghost function Attempts(id: nat, q: Trip, k: nat): seq<Action>
    requires k <= |q.names|
  {
    seq(k, i requires 0 <= i < k => Attempt(id, q.names[i], q.won && i == |q.names| - 1))
  }

  ghost function Asks(id: nat, q: Trip, k: nat): seq<Action>
    requires k <= q.asked
  {
    seq(k, i requires 0 <= i < k => Ask(id, q.isPublic && i == q.asked - 1))
  }

  /** Only this query's flight and the path counters have changed. */
  ghost predicate Moved(b: Books, b': Books, id: nat, f: Flight) {
    && b'.flights == b.flights[id := f]
    && b'.total == b.total && b'.named == b.named && b'.fallback == b.fallback && b'.failed == b.failed
    && b'.retried == b.retried && b'.attempted == b.attempted
  }

  lemma AttemptsSnoc(actions: seq<Action>, id: nat, q: Trip, k: nat)
    requires k <= |q.names|
    ensures k == 0 ==> actions + Attempts(id, q, k) == actions
    ensures k > 0 ==> actions + Attempts(id, q, k)
                      == actions + Attempts(id, q, k - 1) + [Attempt(id, q.names[k - 1], q.won && k == |q.names|)]
  {
  }

  lemma {:induction false} AttemptsPossible(actions: seq<Action>, b: Books, id: nat, q: Trip, k: nat)
    requires After(actions).Some? && k <= |q.names|
    requires Moved(b, After(actions).value, id, Flight(0, None, false))
    ensures After(actions + Attempts(id, q, k)).Some?
    ensures Moved(b, After(actions + Attempts(id, q, k)).value, id,
                  Flight(k, if q.won && 0 < k == |q.names| then Some(q.names[k - 1]) else None, false))
    decreases k
  {
    hide After, Attempts;
    AttemptsSnoc(actions, id, q, k);
    if k > 0 {
      AttemptsPossible(actions, b, id, q, k - 1);
      AfterSnoc(actions + Attempts(id, q, k - 1), Attempt(id, q.names[k - 1], q.won && k == |q.names|));
    }
  }

  lemma AsksSnoc(actions: seq<Action>, id: nat, q: Trip, k: nat)
    requires k <= q.asked
    ensures k == 0 ==> actions + Asks(id, q, k) == actions
    ensures k > 0 ==>
              actions + Asks(id, q, k) == actions + Asks(id, q, k - 1) + [Ask(id, q.isPublic && k == q.asked)]
  {
  }

  lemma {:induction false} AsksPossible(actions: seq<Action>, b: Books, id: nat, n: nat, q: Trip, k: nat)
    requires After(actions).Some? && k <= q.asked
    requires Moved(b, After(actions).value, id, Flight(n, None, false))
    ensures After(actions + Asks(id, q, k)).Some?
    ensures Moved(b, After(actions + Asks(id, q, k)).value, id, Flight(n, None, q.isPublic && 0 < k == q.asked))
    decreases k
  {
    hide After, Asks;
    AsksSnoc(actions, id, q, k);
    if k > 0 {
      AsksPossible(actions, b, id, n, q, k - 1);
      AfterSnoc(actions + Asks(id, q, k - 1), Ask(id, q.isPublic && k == q.asked));
    }
  }

  /**
   A forwarded query's actions are possible wherever it begins, and they file it under exactly one of
   answered, fallback and failed.
   */
  lemma ForwardedQueryPossible(actions: seq<Action>, id: nat, q: Trip)
    requires After(actions).Some? && id !in After(actions).value.flights && q.Possible()
    ensures After(actions + ActionsOf(id, q)).Some?
    ensures var b, b' := After(actions).value, After(actions + ActionsOf(id, q)).value;
            && b'.flights == b.flights && b'.total == b.total + 1
            && b'.named == (if q.won then Bump(b.named, q.names[|q.names| - 1]) else b.named)
            && b'.fallback == b.fallback + (if q.isPublic then 1 else 0)
            && b'.failed == b.failed + (if !q.won && !q.isPublic then 1 else 0)
            && b'.retried == b.retried + (if |q.names| > 1 then |q.names| - 1 else 0)
            && b'.attempted == b.attempted + (if q.names != [] then 1 else 0)
  {
    hide After, Attempts, Asks;
    var b := After(actions).value;
    AfterSnoc(actions, Begin(id));
    var p := actions + [Begin(id)];
    AttemptsPossible(p, b, id, q, |q.names|);
    var r := p + Attempts(id, q, |q.names|);
    var s := r + Asks(id, q, q.asked);
    if q.asked > 0 {
      AsksPossible(r, b, id, |q.names|, q, q.asked);
    } else {
      AsksSnoc(r, id, q, 0);
    }
    AfterSnoc(s, File(id));
    assert actions + ActionsOf(id, q) == s + [File(id)];
    assert b.flights[id := After(s).value.flights[id]] - {id} == b.flights;
  }

  // ---------------------------------------------------------------- overlapping queries

  /** The record of a trip. */
  ghost predicate Recorded(r: Stats.Record, q: Trip) {
    && q.Possible()
    && r.attempts == |q.names| && r.fallback == q.isPublic && r.failed == (!q.won && !q.isPublic)
    && r.upstream == (if q.won then q.names[|q.names| - 1] else "") && (q.won ==> r.upstream != "")
  }

  /** Names the Pi-hole behind each path. */
  ghost predicate Naming(us: seq<Plans.Upstream>, tried: seq<Plans.Endpoint>, names: seq<string>) {
    && |names| == |tried|
    && forall i :: 0 <= i < |tried| ==>
         exists j :: 0 <= j < |us| && us[j].name == names[i] && tried[i] in us[j].endpoints
  }

  ghost function TripOf(names: seq<string>, o: Ledger.Outcome): Trip {
    Trip(names, o.source.Pihole?, |o.publicAnswers|, o.source.Public?)
  }

  /** Whatever the reference for forwarding prescribes is such a trip, with the record that was filed. */
  lemma OutcomeIsTrip(us: seq<Plans.Upstream>, names: seq<string>, world: Net.World, t: nat,
      plan: seq<Plans.Endpoint>, budget: int, order: seq<string>, retry: set<nat>, req: Wire.Bytes, o: Ledger.Outcome,
      resp: Option<Wire.Bytes>, r: Stats.Record)
    requires Ledger.ForwardRule(world, t, plan, budget, order, retry, req, o, resp)
    requires Ledger.Filed(r, o) && Ledger.OwnedBy(us, o) && Plans.Disjoint(us) && Naming(us, o.tried, names)
    ensures Recorded(r, TripOf(names, o))
    ensures o.source.Pihole? ==> names != [] && names[|names| - 1] == o.owner
  {
    hide Ledger.ForwardRule, Ledger.ReplyCode, Ledger.ReplyPath;
    Ledger.OutcomeShape(world, t, plan, budget, order, retry, req, o, resp);
    if o.source.Pihole? {
      var k := |o.tried| - 1;
      var i :| 0 <= i < |us| && us[i].name == o.owner && o.tried[k] in us[i].endpoints;
      var j :| 0 <= j < |us| && us[j].name == names[k] && o.tried[k] in us[j].endpoints;
      assert i == j;
    }
  }

  /** The actions are some merge of the actions of these queries, query i under number i. */
  ghost predicate Merges(actions: seq<Action>, trips: seq<Trip>) {
    forall id: nat :: Own(actions, id) == if id < |trips| then ActionsOf(id, trips[id]) else []
  }

  ghost function Indices(n: nat): seq<nat> {
    seq(n, i => i)
  }

  lemma {:induction false} OwnIds(actions: seq<Action>, n: nat)
    requires forall id :: id >= n ==> Own(actions, id) == []
    ensures forall i :: 0 <= i < |actions| ==> actions[i].id in Indices(n)
    decreases |actions|
  {
    if actions != [] {
      var p, a := actions[..|actions| - 1], actions[|actions| - 1];
      forall id | id >= n ensures Own(p, id) == [] {
        assert Own(actions, id) == [];
      }
      OwnIds(p, n);
      assert Own(actions, a.id) != [];
      assert Indices(n)[a.id] == a.id;
    }
  }

  lemma TripAlone(id: nat, q: Trip)
    requires q.Possible()
    ensures After(ActionsOf(id, q)).Some?
    ensures var b := After(ActionsOf(id, q)).value;
            && b.flights == map[] && b.total == 1
            && b.named == (if q.won then map[q.names[|q.names| - 1] := 1] else map[])
            && b.fallback == (if q.isPublic then 1 else 0)
            && b.failed == (if !q.won && !q.isPublic then 1 else 0)
            && b.retried == (if |q.names| > 1 then |q.names| - 1 else 0)
            && b.attempted == (if q.names != [] then 1 else 0)
  {
    hide ActionsOf;
    ForwardedQueryPossible([], id, q);
    assert [] + ActionsOf(id, q) == ActionsOf(id, q);
  }

  /** Any merge of such queries is possible, and when all are through none is in flight. */
  lemma MergePossible(actions: seq<Action>, trips: seq<Trip>)
    requires Merges(actions, trips) && forall i :: 0 <= i < |trips| ==> trips[i].Possible()
    ensures After(actions).Some? && After(actions).value.flights == map[]
  {
    hide ActionsOf;
    assert After([]) == Some(BLANK);
    hide After, Own;
    forall id: nat ensures After(Own(actions, id)).Some? && After(Own(actions, id)).value.flights == map[] {
      if id < |trips| {
        TripAlone(id, trips[id]);
      }
    }
    InterleavingExact(actions);
    var b := After(actions).value;
    forall id ensures id !in b.flights {
      assert SameFlight(b, After(Own(actions, id)).value, id);
    }
  }

  /** The counters that filing a record moves. */
  ghost predicate Filing(c: Counter) {
    !c.PublicCounter? && !c.TriesOf? && !c.FailsOf? && (c.NamedOf? ==> c.u != "")
  }

  /** What those counters come to over a serial log. */
  ghost function Expected(log: seq<Stats.Entry>, c: Counter): nat {
    match c
    case Total => |log|
    case FallbackCounter => Stats.FallbackCount(log)
    case FailedCounter => Stats.FailedCount(log)
    case RetriedCounter => Stats.RetryCount(log)
    case AttemptedCounter => Ledger.Attempted(log)
    case NamedOf(u) => Stats.NodeOf(Ledger.Records(log), u).queries
    case _ => 0
  }

  lemma NothingExpected(c: Counter)
    ensures Expected([], c) == 0
  {
  }

  lemma ExpectedSnoc(log: seq<Stats.Entry>, e: Stats.Entry, id: nat, q: Trip, c: Counter)
    requires Recorded(e.rec, q) && Filing(c)
    ensures After(ActionsOf(id, q)).Some?
    ensures Expected(log + [e], c) == Expected(log, c) + Read(After(ActionsOf(id, q)).value, c)
  {
    hide ActionsOf, After;
    TripAlone(id, q);
    assert (log + [e])[..|log|] == log;
    var recs := Ledger.Records(log + [e]);
    assert recs == Ledger.Records(log) + [e.rec] && recs[..|log|] == Ledger.Records(log);
  }

  lemma {:induction false} SharesExpected(actions: seq<Action>, trips: seq<Trip>, log: seq<Stats.Entry>, c: Counter,
      n: nat)
    requires Merges(actions, trips) && n <= |trips| == |log|
    requires forall i :: 0 <= i < |log| ==> Recorded(log[i].rec, trips[i])
    requires Filing(c)
    ensures SumShares(actions, Indices(n), c) == Expected(log[..n], c)
    decreases n
  {
    hide Expected, Read, After, ActionsOf, Recorded, Own;
    NothingExpected(c);
    if n > 0 {
      SharesExpected(actions, trips, log, c, n - 1);
      assert Indices(n)[..n - 1] == Indices(n - 1) && log[..n] == log[..n - 1] + [log[n - 1]];
      ExpectedSnoc(log[..n - 1], log[n - 1], n - 1, trips[n - 1], c);
      assert Own(actions, n - 1) == ActionsOf(n - 1, trips[n - 1]);
    }
  }

  lemma CounterExpected(actions: seq<Action>, trips: seq<Trip>, log: seq<Stats.Entry>, c: Counter)
    requires Merges(actions, trips) && |trips| == |log| && Filing(c)
    requires forall i :: 0 <= i < |log| ==> Recorded(log[i].rec, trips[i])
    ensures After(actions).Some? && After(actions).value.flights == map[]
    ensures Read(After(actions).value, c) == Expected(log, c)
  {
    forall i | 0 <= i < |trips| ensures trips[i].Possible() {
      assert Recorded(log[i].rec, trips[i]);
    }
    hide After, Own, Read, Expected, Recorded, SumShares, ActionsOf;
    MergePossible(actions, trips);
    OwnIds(actions, |trips|);
    BooksAddUp(actions, Indices(|trips|), c);
    SharesExpected(actions, trips, log, c, |log|);
    assert log[..|log|] == log;
  }

  /** The books, with nothing in flight, show what a serial log does; u stands for any Pi-hole. */
  ghost predicate ShowLog(b: Books, log: seq<Stats.Entry>, u: string) {
    && b.flights == map[]
    && b.total == |log| && b.fallback == Stats.FallbackCount(log) && b.failed == Stats.FailedCount(log)
    && b.retried == Stats.RetryCount(log) && b.attempted == Ledger.Attempted(log)
    && b.publicOk == Stats.FallbackCount(log) && MapSum(b.tries) == Stats.RetryCount(log) + Ledger.Attempted(log)
    && GetOr(b.named, u) == Stats.NodeOf(Ledger.Records(log), u).queries
    && GetOr(b.tries, u) - GetOr(b.fails, u) == Stats.NodeOf(Ledger.Records(log), u).queries
  }

  /**
   Overlap does not show in the end: however the actions of some queries are merged, once all are
   through the counters are those of the serial log of their records.
   */
  lemma OverlapEqualsSerial(actions: seq<Action>, trips: seq<Trip>, log: seq<Stats.Entry>, u: string)
    requires Merges(actions, trips) && |trips| == |log| && u != ""
    requires forall i :: 0 <= i < |log| ==> Recorded(log[i].rec, trips[i])
    ensures After(actions).Some? && ShowLog(After(actions).value, log, u)
  {
    hide After, Merges, Recorded, Stats.NodeOf, Stats.FallbackCount, Stats.FailedCount, Stats.RetryCount,
         Ledger.Attempted, Ledger.Records, MapSum, GetOr;
    CounterExpected(actions, trips, log, Total);
    CounterExpected(actions, trips, log, FallbackCounter);
    CounterExpected(actions, trips, log, FailedCounter);
    CounterExpected(actions, trips, log, RetriedCounter);
    CounterExpected(actions, trips, log, AttemptedCounter);
    CounterExpected(actions, trips, log, NamedOf(u));
    QuietBooksBalance(actions, u);
  }

  /** One forwarded query: its world and way, what it did, and the names of the Pi-holes it tried. */
  datatype Query = Query(
    world: Net.World, t: nat, plan: seq<Plans.Endpoint>, budget: int, order: seq<string>, retry: set<nat>,
    req: Wire.Bytes, o: Ledger.Outcome, resp: Option<Wire.Bytes>, names: seq<string>)

  /** The query went as the reference prescribes and was filed as r. */
  ghost predicate Done(us: seq<Plans.Upstream>, q: Query, r: Stats.Record) {
    && Ledger.ForwardRule(q.world, q.t, q.plan, q.budget, q.order, q.retry, q.req, q.o, q.resp)
    && Ledger.Filed(r, q.o) && Ledger.OwnedBy(us, q.o) && Naming(us, q.o.tried, q.names)
  }

  ghost function Trips(qs: seq<Query>): seq<Trip> {
    seq(|qs|, i requires 0 <= i < |qs| => TripOf(qs[i].names, qs[i].o))
  }

  /**
   Queries forwarded over one pool at the same time, however their steps interleave: every step is
   possible when its turn comes, and in the end the books are those of the serial log.
   */
  lemma ForwardedQueriesOverlap(us: seq<Plans.Upstream>, qs: seq<Query>, log: seq<Stats.Entry>, actions: seq<Action>,
      u: string)
    requires Plans.Disjoint(us) && |qs| == |log| && u != "" && Merges(actions, Trips(qs))
    requires forall i :: 0 <= i < |qs| ==> Done(us, qs[i], log[i].rec)
    ensures After(actions).Some? && ShowLog(After(actions).value, log, u)
  {
    hide ShowLog, Recorded, Merges, After;
    forall i | 0 <= i < |log| ensures Recorded(log[i].rec, Trips(qs)[i]) {
      var q := qs[i];
      assert Done(us, q, log[i].rec);
      OutcomeIsTrip(us, q.names, q.world, q.t, q.plan, q.budget, q.order, q.retry, q.req, q.o, q.resp, log[i].rec);
    }
    OverlapEqualsSerial(actions, Trips(qs), log, u);
  }

  /** At every earlier moment of such a merge the books balance up to the queries in flight. */
  lemma {:induction false} EveryMomentBalances(actions: seq<Action>, trips: seq<Trip>, k: nat)
    requires Merges(actions, trips) && (forall i :: 0 <= i < |trips| ==> trips[i].Possible()) && k <= |actions|
    ensures After(actions[..k]).Some? && Balanced(After(actions[..k]).value)
  {
    MergePossible(actions, trips);
    PrefixPossible(actions, k);
    EveryInterleavingBalances(actions[..k]);
  }

  lemma {:induction false} PrefixPossible(actions: seq<Action>, k: nat)
    requires After(actions).Some? && k <= |actions|
    ensures After(actions[..k]).Some?
    decreases |actions|
  {
    if k < |actions| {
      var p := actions[..|actions| - 1];
      PrefixPossible(p, k);
      assert p[..k] == actions[..k];
    } else {
      assert actions[..k] == actions;
    }
  }
}
