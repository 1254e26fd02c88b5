/**
 What one forwarded query did, the rule it has to obey, and the bookkeeping identities that hold over
 any run of such queries.
 */
module Ledger {
  import opened Basics
  import opened Fallback
  import opened Net
  import opened Plans
  import opened Wire
  import Health
  import Stats

  /** Who produced the reply. */
  datatype Source = Pihole | Public | LastError | Synthetic

  /** Paths tried with their answers, public servers tried with theirs, and where the reply came from. */
  datatype Outcome = Outcome(
    tried: seq<Endpoint>, answers: seq<Answer>,
    publicAnswers: seq<Answer>, publicResult: Result<(Bytes, string), ResolveError>,
    source: Source, owner: string)

  /** The last real message among the answers. */
  ghost function LastMessage(answers: seq<Answer>): Option<Bytes> {
    if answers == [] then None
    else if answers[|answers| - 1].Message? then Some(answers[|answers| - 1].bytes)
    else LastMessage(answers[..|answers| - 1])
  }

  /** Attempts allowed: the configured number, the plan's length, and a single one in a known outage. */
  function Budget(maxAttempts: int, planned: nat, enabled: bool, healthy: nat): int {
    var b := if maxAttempts > planned then planned else maxAttempts;
    if enabled && healthy == 0 && b > 1 then 1 else b
  }

  /** Attempts a budget allows; a configured number below zero allows none. */
  function Allowance(budget: int): nat { if budget < 0 then 0 else budget }

  /** The tick at which the public resolvers get their turn, after k rejected answers. */
  function Handover(t: nat, k: nat, budget: int): nat {
    t + 2 * k + if k < budget then 1 else 0
  }

  /** What the Pi-holes would answer from tick t on, one attempt after another. */
  ghost function FromPool(world: World, t: nat, budget: int, req: Bytes): seq<Answer> {
    world.Offered(req, t, Allowance(budget))
  }

  /** What the public servers would answer once every answer of the Pi-holes was rejected. */
  ghost function FromPublic(world: World, t: nat, budget: int, order: seq<string>, req: Bytes): (s: seq<Answer>)
    ensures |s| <= |order|
  {
    world.Offered(req, Handover(t, |FromPool(world, t, budget, req)|, budget), |order|)
  }

  /**
   The reference for one query, as a function of its world: the first good answer of the plan's
   prefix; failing that, the public reply; failing that, the last message a Pi-hole sent; failing
   that, a synthetic failure.  Cancellation shows only in how much is offered.
   */
  ghost predicate ForwardRule(world: World, t: nat, plan: seq<Endpoint>, budget: int, order: seq<string>,
      retry: set<nat>, req: Bytes, o: Outcome, resp: Option<Bytes>) {
    var asked, offered := FromPool(world, t, budget, req), FromPublic(world, t, budget, order, req);
    && budget <= |plan|
    && o.answers == Through(asked, retry) && |o.answers| <= |plan| && o.tried == plan[..|o.answers|]
    && if FirstGood(asked, retry) < |asked| then
         && o.source.Pihole? && resp == Some(asked[FirstGood(asked, retry)].bytes)
         && o.publicAnswers == [] && o.publicResult.Err?
       else
         && o.publicAnswers == Through(offered, retry) && o.publicResult == PublicReply(order, offered, retry)
         && FallbackSource(asked, o.publicResult, req, o.source, resp)
  }

  /** Where the reply comes from when no Pi-hole gave a good answer. */
  ghost predicate FallbackSource(asked: seq<Answer>, result: Result<(Bytes, string), ResolveError>, req: Bytes,
      source: Source, resp: Option<Bytes>) {
    if result.Ok? then source.Public? && resp == Some(result.value.0)
    else if LastMessage(asked).Some? then source.LastError? && resp == LastMessage(asked)
    else
      && source.Synthetic? && (resp.None? <==> Unanswerable(req))
      && (resp.Some? ==> IsErrorResponse(req, RCODE_SERVFAIL, resp.value))
  }

  // ---------------------------------------------------------------- consequences

  /** The shape of an outcome, whatever the world did. */
  lemma OutcomeShape(world: World, t: nat, plan: seq<Endpoint>, budget: int, order: seq<string>, retry: set<nat>,
      req: Bytes, o: Outcome, resp: Option<Bytes>)
    requires ForwardRule(world, t, plan, budget, order, retry, req, o, resp)
    ensures |o.tried| == |o.answers| <= |plan| && |o.publicAnswers| <= |order|
    ensures o.source.Pihole? ==> o.tried != [] && o.publicAnswers == []
    ensures o.source.Public? ==> o.publicAnswers != []
    ensures o.source.Public? <==> o.publicResult.Ok?
    ensures forall i :: 0 <= i < |o.answers| ==>
              (Rejected(o.answers[i], retry) <==> !(o.source.Pihole? && i == |o.answers| - 1))
  {
    hide Rejected, IsErrorResponse, Unanswerable, LastMessage, Validated;
    ReplySize(order, FromPublic(world, t, budget, order, req), retry);
    hide PublicReply;
  }

  /** Attempts end before the allowance is used up only with a good answer or on cancellation. */
  lemma EarlyStopIsCancellation(world: World, t: nat, plan: seq<Endpoint>, budget: int, order: seq<string>,
      retry: set<nat>, req: Bytes, o: Outcome, resp: Option<Bytes>)
    requires ForwardRule(world, t, plan, budget, order, retry, req, o, resp)
    ensures o.source.Pihole? || |o.answers| >= budget || world.CancelledAt(t + 2 * |o.answers|)
    ensures o.source.Pihole? || o.publicResult != Err(Canceled)
            || world.CancelledAt(Handover(t, |o.answers|, budget) + 2 * |o.publicAnswers|)
  {
    hide Rejected, Heard, Validated, IsErrorResponse, Unanswerable, LastMessage;
    PatienceEnds(world.cancelAt, t, Allowance(budget));
    PatienceEnds(world.cancelAt, Handover(t, |FromPool(world, t, budget, req)|, budget), |order|);
  }

  /**
   A query that is not cancelled while it runs.  The reply is the first good answer its attempts
   would get, if there is one.  Otherwise the whole budget is spent, and the reply is the first good
   answer of the public servers after that, or the last server's message; otherwise every server was
   tried, and it is the last message of a Pi-hole, or synthetic.
   */
  lemma UncancelledForward(world: World, t: nat, plan: seq<Endpoint>, budget: int, order: seq<string>, retry: set<nat>,
      req: Bytes, o: Outcome, resp: Option<Bytes>)
    requires ForwardRule(world, t, plan, budget, order, retry, req, o, resp)
    requires !world.CancelledAt(t + 2 * (Allowance(budget) + |order|))
    ensures var asked := Script(world.replies, req, t, Allowance(budget));
            var offered := Script(world.replies, req, t + 2 * Allowance(budget), |order|);
            var i, j := FirstGood(asked, retry), FirstGood(offered, retry);
            if i < |asked| then
              o.source.Pihole? && resp == Some(asked[i].bytes) && o.tried == plan[..i + 1] && o.publicAnswers == []
            else
              && o.tried == plan[..Allowance(budget)] && o.answers == asked
              && if j < |offered| then
                   o.source.Public? && resp == Some(offered[j].bytes) && o.publicAnswers == offered[..j + 1]
                 else
                   && o.publicAnswers == offered
                   && if offered != [] && offered[|offered| - 1].Message? then
                        o.source.Public? && resp == Some(offered[|offered| - 1].bytes)
                      else if LastMessage(asked).Some? then o.source.LastError? && resp == LastMessage(asked)
                      else
                        && o.source.Synthetic? && (resp.None? <==> Unanswerable(req))
                        && (resp.Some? ==> IsErrorResponse(req, RCODE_SERVFAIL, resp.value))
  {
    hide Rejected, Heard, Validated, IsErrorResponse, Unanswerable, LastMessage, Script;
    PatienceIs(world.cancelAt, t, Allowance(budget), Allowance(budget));
    PatienceIs(world.cancelAt, t + 2 * Allowance(budget), |order|, |order|);
  }

  /**
   The first good answer in the plan prefix is the reply, unchanged; no path after it is tried and no
   public server hears of the query.
   */
  lemma FirstGoodAnswerWins(world: World, t: nat, plan: seq<Endpoint>, budget: int, order: seq<string>,
      retry: set<nat>, req: Bytes, o: Outcome, resp: Option<Bytes>, i: nat)
    requires ForwardRule(world, t, plan, budget, order, retry, req, o, resp)
    requires i < |FromPool(world, t, budget, req)| && !Rejected(FromPool(world, t, budget, req)[i], retry)
    requires forall j :: 0 <= j < i ==> Rejected(FromPool(world, t, budget, req)[j], retry)
    ensures i < |plan| && o.tried == plan[..i + 1] && o.publicAnswers == [] && o.source.Pihole?
    ensures resp == Some(FromPool(world, t, budget, req)[i].bytes)
  {
    hide PublicReply, LastMessage, IsErrorResponse, Unanswerable, Rejected, Validated, World.Offered;
    var asked := FromPool(world, t, budget, req);
    assert FirstGood(asked, retry) == i;
  }

  /** A blocked name, answered NXDOMAIN, is never asked again unless NXDOMAIN is a retry code. */
  lemma BlockedStaysBlocked(world: World, t: nat, plan: seq<Endpoint>, budget: int, order: seq<string>,
      retry: set<nat>, req: Bytes, o: Outcome, resp: Option<Bytes>, i: nat)
    requires ForwardRule(world, t, plan, budget, order, retry, req, o, resp) && RCODE_NXDOMAIN !in retry
    requires i < |o.answers| && o.answers[i].Message? && RCodeOf(o.answers[i].bytes) == RCODE_NXDOMAIN
    ensures resp == Some(o.answers[i].bytes) && |o.tried| == i + 1 && o.publicAnswers == []
  {
    hide PublicReply, LastMessage, IsErrorResponse, Unanswerable, Validated, World.Offered, RCodeOf, FallbackSource;
    var asked := FromPool(world, t, budget, req);
    assert !Rejected(o.answers[i], retry) && o.answers[i] == asked[i];
    hide Rejected;
  }

  /** A public server is contacted only after the whole budget was spent and every answer rejected. */
  lemma PublicOnlyAfterBudget(world: World, t: nat, plan: seq<Endpoint>, budget: int, order: seq<string>,
      retry: set<nat>, req: Bytes, o: Outcome, resp: Option<Bytes>)
    requires ForwardRule(world, t, plan, budget, order, retry, req, o, resp) && o.publicAnswers != []
    ensures |o.tried| == Allowance(budget)
    ensures forall i :: 0 <= i < |o.answers| ==> Rejected(o.answers[i], retry)
  {
    OutcomeShape(world, t, plan, budget, order, retry, req, o, resp);
    hide PublicReply, LastMessage, IsErrorResponse, Unanswerable, Rejected, Validated, Heard;
    PatienceEnds(world.cancelAt, t, Allowance(budget));
  }

  /**
   Exactly when the public servers hear of a query: some are in use, the Pi-holes' answers within the
   budget are all rejected, and the client still waits at that point.
   */
  lemma PublicContactExact(world: World, t: nat, plan: seq<Endpoint>, budget: int, order: seq<string>,
      retry: set<nat>, req: Bytes, o: Outcome, resp: Option<Bytes>)
    requires ForwardRule(world, t, plan, budget, order, retry, req, o, resp)
    ensures var asked := FromPool(world, t, budget, req);
            o.publicAnswers != [] <==>
              && order != [] && FirstGood(asked, retry) == |asked|
              && !world.CancelledAt(Handover(t, |asked|, budget))
  {
    hide PublicReply, LastMessage, IsErrorResponse, Unanswerable, Rejected, Validated, Heard, Script, FallbackSource;
    var asked := FromPool(world, t, budget, req);
    var h := Handover(t, |asked|, budget);
    if order != [] && !world.CancelledAt(h) {
      PatienceIs(world.cancelAt, h, |order|, 1);
    } else {
      PatienceIs(world.cancelAt, h, |order|, 0);
    }
  }

  /**
   Whether every usable Pi-hole path is asked before a public server is: if and only if the configured
   attempts cover the plan and it is not a known outage with a second path left.
   */
  lemma WholePlanFirst(world: World, t: nat, plan: seq<Endpoint>, maxAttempts: int, healthy: nat, order: seq<string>,
      retry: set<nat>, req: Bytes, o: Outcome, resp: Option<Bytes>)
    requires ForwardRule(world, t, plan, Budget(maxAttempts, |plan|, true, healthy), order, retry, req, o, resp)
    requires o.publicAnswers != []
    ensures o.tried == plan <==> plan == [] || (maxAttempts >= |plan| && (healthy > 0 || |plan| == 1))
  {
    hide ForwardRule, Rejected;
    OutcomeShape(world, t, plan, Budget(maxAttempts, |plan|, true, healthy), order, retry, req, o, resp);
    PublicOnlyAfterBudget(world, t, plan, Budget(maxAttempts, |plan|, true, healthy), order, retry, req, o, resp);
    TriedPrefix(world, t, plan, Budget(maxAttempts, |plan|, true, healthy), order, retry, req, o, resp);
  }

  lemma TriedPrefix(world: World, t: nat, plan: seq<Endpoint>, budget: int, order: seq<string>,
      retry: set<nat>, req: Bytes, o: Outcome, resp: Option<Bytes>)
    requires ForwardRule(world, t, plan, budget, order, retry, req, o, resp)
    ensures |o.tried| <= |plan| && o.tried == plan[..|o.tried|]
  {
  }

  /** Attempts stay within the configured number, the plan, and a single one in a known outage with fallback. */
  ghost predicate WithinLimits(tried: nat, planned: nat, maxAttempts: int, enabled: bool, healthy: nat) {
    tried <= planned && (tried <= maxAttempts || tried == 0) && (enabled && healthy == 0 ==> tried <= 1)
  }

  /** One of those limits is reached. */
  ghost predicate LimitReached(tried: nat, planned: nat, maxAttempts: int, enabled: bool, healthy: nat) {
    tried == planned || tried >= maxAttempts || (enabled && healthy == 0 && tried == 1)
  }

  /**
   How many paths are tried: never more than the limits allow, and, without a good answer, as many as
   they allow unless the client gives up.
   */
  lemma AttemptsMade(world: World, t: nat, plan: seq<Endpoint>, maxAttempts: int, enabled: bool, healthy: nat,
      order: seq<string>, retry: set<nat>, req: Bytes, o: Outcome, resp: Option<Bytes>)
    requires ForwardRule(world, t, plan, Budget(maxAttempts, |plan|, enabled, healthy), order, retry, req, o, resp)
    ensures WithinLimits(|o.tried|, |plan|, maxAttempts, enabled, healthy)
    ensures o.source.Pihole? || LimitReached(|o.tried|, |plan|, maxAttempts, enabled, healthy)
            || world.CancelledAt(t + 2 * |o.tried|)
  {
    var budget := Budget(maxAttempts, |plan|, enabled, healthy);
    EarlyStopIsCancellation(world, t, plan, budget, order, retry, req, o, resp);
    hide Rejected, Heard, Validated, PublicReply, FallbackSource, Patience, Script;
    assert |o.answers| <= |FromPool(world, t, budget, req)| <= Allowance(budget);
  }

  /** A bare query, the answer to it, and a world in which the second attempt is the first to be answered. */
  const QUERY: Bytes := [0, 0, 0, 0, 0, 0, 0, 0, 0, 0, 0, 0]
  const ANSWER: Bytes := [0, 0, 0x80, 0, 0, 0, 0, 0, 0, 0, 0, 0]
  const SECOND_ANSWERS: nat -> Reply := (t: nat) => if t <= 1 then Lost(0) else Arrived(ANSWER, 0)

  /**
   The documented promise that public servers are used only when no Pi-hole answers, at a query where
   it fails: with two paths and one attempt the second path is never asked and a public server is.
   With two attempts the second path answers.
   */
  lemma BudgetCutsPlan(world: World, plan: seq<Endpoint>, server: string, owner: string)
    requires world.replies == SECOND_ANSWERS && world.cancelAt == None && |plan| == 2
    ensures ForwardRule(world, 0, plan, 1, [server], {}, QUERY,
                        Outcome(plan[..1], [NoAnswer(0)], [Message(ANSWER, 0)], Ok((ANSWER, server)), Public, ""),
                        Some(ANSWER))
    ensures ForwardRule(world, 0, plan, 2, [server], {}, QUERY,
                        Outcome(plan, [NoAnswer(0), Message(ANSWER, 0)], [], Err(Disabled), Pihole, owner),
                        Some(ANSWER))
  {
    PatienceIs(None, 0, 1, 1);
    PatienceIs(None, 0, 2, 2);
    PatienceIs(None, 2, 1, 1);
    var lost, good := NoAnswer(0), Message(ANSWER, 0);
    assert Heard(world.replies, QUERY, 1) == lost && Heard(world.replies, QUERY, 3) == good;
    assert world.Offered(QUERY, 0, 1) == [lost] && world.Offered(QUERY, 2, 1) == [good];
    assert world.Offered(QUERY, 0, 2) == [lost, good];
    assert FirstGood([lost], {}) == 1 && FirstGood([good], {}) == 0 && FirstGood([lost, good], {}) == 1;
    assert plan[..2] == plan;
  }

  /** The last message is a message, and nothing but silence follows it; there is none when all were silent. */
  lemma {:induction false} LastMessageIs(answers: seq<Answer>) returns (i: nat)
    ensures LastMessage(answers).None? ==> forall j :: 0 <= j < |answers| ==> answers[j].NoAnswer?
    ensures LastMessage(answers).Some? ==>
              && i < |answers| && answers[i].Message? && LastMessage(answers) == Some(answers[i].bytes)
              && forall j :: i < j < |answers| ==> answers[j].NoAnswer?
    decreases |answers|
  {
    i := 0;
    if answers != [] {
      var n := |answers| - 1;
      i := n;
      if answers[n].NoAnswer? {
        var p := answers[..n];
        i := LastMessageIs(p);
        assert forall j :: 0 <= j < n ==> p[j] == answers[j];
      }
    }
  }

  /**
   Which answers count as good: the reply of a Pi-hole carries a response code that is not a retry
   code, and every attempt before it brought nothing or a retry code.
   */
  lemma RetryCodesDecide(world: World, t: nat, plan: seq<Endpoint>, budget: int, order: seq<string>,
      retry: set<nat>, req: Bytes, o: Outcome, resp: Option<Bytes>)
    requires ForwardRule(world, t, plan, budget, order, retry, req, o, resp)
    ensures forall i :: 0 <= i < |o.answers| ==>
              (o.source.Pihole? && i == |o.answers| - 1 <==>
               o.answers[i].Message? && RCodeOf(o.answers[i].bytes) !in retry)
    ensures o.source.Pihole? ==> resp.Some? && RCodeOf(resp.value) !in retry
  {
    OutcomeShape(world, t, plan, budget, order, retry, req, o, resp);
    hide RCodeOf, FallbackSource, PublicReply, Validated, World.Offered;
  }

  lemma {:induction false} LastMessageValid(answers: seq<Answer>, req: Bytes)
    requires forall i :: 0 <= i < |answers| ==> Validated(answers[i], req)
    requires LastMessage(answers).Some?
    ensures ValidateResponse(LastMessage(answers).value, ID(req)).Ok?
    decreases |answers|
  {
    if !answers[|answers| - 1].Message? {
      LastMessageValid(answers[..|answers| - 1], req);
    }
  }

  /**
   Whichever path produced it, a reply to a query with a full header has a full header itself, the
   response bit set and the client's transaction id; there is no reply exactly when nobody answered
   and the question section cannot be read.
   */
  lemma ReplyShape(world: World, t: nat, plan: seq<Endpoint>, budget: int, order: seq<string>, retry: set<nat>,
      req: Bytes, o: Outcome, resp: Option<Bytes>)
    requires ForwardRule(world, t, plan, budget, order, retry, req, o, resp)
    requires |req| >= HEADER_LEN && req[2] < 128
    ensures resp.Some? ==> |resp.value| >= HEADER_LEN && resp.value[2] >= 128 && ID(resp.value) == ID(req)
    ensures resp.None? <==> o.source.Synthetic? && U16(req, 4) > 0 && ParseQuestion(req).Err?
  {
    hide ParseQuestion, World.Offered, RCodeOf;
    var asked, offered := FromPool(world, t, budget, req), FromPublic(world, t, budget, order, req);
    if o.source.LastError? {
      LastMessageValid(asked, req);
    } else if o.source.Public? {
      PublicReplyValid(order, offered, retry, req);
    } else if o.source.Pihole? {
      assert Validated(asked[FirstGood(asked, retry)], req);
    }
  }

  lemma PublicReplyValid(order: seq<string>, offered: seq<Answer>, retry: set<nat>, req: Bytes)
    requires |offered| <= |order| && forall i :: 0 <= i < |offered| ==> Validated(offered[i], req)
    ensures var r := PublicReply(order, offered, retry);
            r.Ok? ==> ValidateResponse(r.value.0, ID(req)).Ok?
  {
    hide ValidateResponse, RCodeOf;
  }

  // ---------------------------------------------------------------- counting over runs

  ghost function Tries(outs: seq<Outcome>, e: Endpoint): nat {
    if outs == [] then 0 else Tries(outs[..|outs| - 1], e) + if e in outs[|outs| - 1].tried then 1 else 0
  }

  /** This path gave the reply. */
  ghost predicate Served(o: Outcome, e: Endpoint) {
    o.source.Pihole? && o.tried != [] && o.tried[|o.tried| - 1] == e
  }

  ghost function Fails(outs: seq<Outcome>, e: Endpoint): nat {
    if outs == [] then 0
    else
      var o := outs[|outs| - 1];
      Fails(outs[..|outs| - 1], e) + if e in o.tried && !Served(o, e) then 1 else 0
  }

  ghost function TotalTries(outs: seq<Outcome>): nat {
    if outs == [] then 0 else TotalTries(outs[..|outs| - 1]) + |outs[|outs| - 1].tried|
  }

  ghost function PublicCount(outs: seq<Outcome>): nat {
    if outs == [] then 0 else PublicCount(outs[..|outs| - 1]) + if outs[|outs| - 1].source.Public? then 1 else 0
  }

  /** What is counted over a run: the queries that tried a path, those it failed, and those a public server answered. */
  lemma {:induction false} RunsCount(outs: seq<Outcome>, e: Endpoint)
    ensures Tries(outs, e) == Times(outs, (o: Outcome) => e in o.tried)
    ensures Fails(outs, e) == Times(outs, (o: Outcome) => e in o.tried && !Served(o, e))
    ensures PublicCount(outs) == Times(outs, (o: Outcome) => o.source.Public?)
    decreases |outs|
  {
    var tried, failed := (o: Outcome) => e in o.tried, (o: Outcome) => e in o.tried && !Served(o, e);
    var public := (o: Outcome) => o.source.Public?;
    hide Times, Served;
    if outs == [] {
      TimesNone(tried);
      TimesNone(failed);
      TimesNone(public);
    } else {
      var p, o := outs[..|outs| - 1], outs[|outs| - 1];
      assert outs == p + [o];
      RunsCount(p, e);
      TimesSnoc(p, o, tried);
      TimesSnoc(p, o, failed);
      TimesSnoc(p, o, public);
    }
  }

  /** A run over these paths: every query tried some of them, none twice. */
  ghost predicate RunOver(outs: seq<Outcome>, es: seq<Endpoint>) {
    forall i :: 0 <= i < |outs| ==> NoDup(outs[i].tried) && forall e :: e in outs[i].tried ==> e in es
  }

  ghost function SumTries(outs: seq<Outcome>, es: seq<Endpoint>): nat {
    if es == [] then 0 else SumTries(outs, es[..|es| - 1]) + Tries(outs, es[|es| - 1])
  }

  ghost function Hits(es: seq<Endpoint>, t: seq<Endpoint>): nat {
    if es == [] then 0 else Hits(es[..|es| - 1], t) + if es[|es| - 1] in t then 1 else 0
  }

  lemma {:induction false} HitsKeep(es: seq<Endpoint>, t: seq<Endpoint>)
    ensures Hits(es, t) == |Keep(es, Elements(t))|
    decreases |es|
  {
    if es != [] {
      HitsKeep(es[..|es| - 1], t);
      assert es[|es| - 1] in t <==> es[|es| - 1] in Elements(t);
    }
  }

  lemma ElementsSnoc(p: seq<Endpoint>, x: Endpoint)
    ensures Elements(p + [x]) == Elements(p) + {x}
    ensures x in Elements(p) <==> x in p
  {
    var s := p + [x];
    assert s[|p|] == x;
    forall y | y in Elements(p) ensures y in Elements(s) {
      var i :| 0 <= i < |p| && p[i] == y;
      assert s[i] == y;
    }
  }

  lemma {:induction false} ElementsCount(s: seq<Endpoint>)
    requires NoDup(s)
    ensures |Elements(s)| == |s|
    decreases |s|
  {
    if s != [] {
      var p, x := s[..|s| - 1], s[|s| - 1];
      ElementsCount(p);
      assert s == p + [x] && x !in p;
      ElementsSnoc(p, x);
    } else {
      assert Elements(s) == {};
    }
  }

  lemma {:induction false} KeepFacts(es: seq<Endpoint>, k: set<Endpoint>)
    requires NoDup(es)
    ensures NoDup(Keep(es, k))
    ensures forall e :: e in es && e in k ==> e in Keep(es, k)
    decreases |es|
  {
    if es != [] {
      var p, x := es[..|es| - 1], es[|es| - 1];
      KeepFacts(p, k);
      assert es == p + [x] && x !in p;
    }
  }

  /** A duplicate-free selection from a duplicate-free list hits it once per element. */
  lemma HitsAll(es: seq<Endpoint>, t: seq<Endpoint>)
    requires NoDup(es) && NoDup(t) && forall e :: e in t ==> e in es
    ensures Hits(es, t) == |t|
  {
    var k := Elements(t);
    HitsKeep(es, t);
    KeepFacts(es, k);
    ElementsCount(t);
    ElementsCount(Keep(es, k));
    assert Elements(Keep(es, k)) == k by {
      forall e | e in k ensures e in Elements(Keep(es, k)) {
        assert e in t;
        assert e in Keep(es, k);
      }
    }
  }

  lemma {:induction false} SumTriesStep(outs: seq<Outcome>, o: Outcome, es: seq<Endpoint>)
    ensures SumTries(outs + [o], es) == SumTries(outs, es) + Hits(es, o.tried)
    decreases |es|
  {
    if es != [] {
      SumTriesStep(outs, o, es[..|es| - 1]);
      assert (outs + [o])[..|outs|] == outs;
    }
  }

  lemma {:induction false} SumTriesNone(es: seq<Endpoint>)
    ensures SumTries([], es) == 0
    decreases |es|
  {
    if es != [] {
      SumTriesNone(es[..|es| - 1]);
    }
  }

  /** Attempts counted per path add up to attempts counted per query. */
  lemma {:induction false} TriesBalance(outs: seq<Outcome>, es: seq<Endpoint>)
    requires NoDup(es) && RunOver(outs, es)
    ensures SumTries(outs, es) == TotalTries(outs)
    decreases |outs|
  {
    if outs == [] {
      SumTriesNone(es);
    } else {
      var p, o := outs[..|outs| - 1], outs[|outs| - 1];
      assert outs == p + [o];
      TriesBalance(p, es);
      SumTriesStep(p, o, es);
      HitsAll(es, o.tried);
    }
  }

  /** Replies a set of paths gave. */
  ghost function ServedBy(outs: seq<Outcome>, es: seq<Endpoint>): nat {
    if outs == [] then 0
    else
      var o := outs[|outs| - 1];
      ServedBy(outs[..|outs| - 1], es)
      + if o.source.Pihole? && o.tried != [] && o.tried[|o.tried| - 1] in es then 1 else 0
  }

  /** Tries minus failures of a path are the replies it gave. */
  lemma {:induction false} TriesMinusFails(outs: seq<Outcome>, e: Endpoint)
    ensures Tries(outs, e) - Fails(outs, e) == ServedBy(outs, [e])
    decreases |outs|
  {
    if outs != [] {
      TriesMinusFails(outs[..|outs| - 1], e);
    }
  }

  ghost function SumServed(outs: seq<Outcome>, es: seq<Endpoint>): int {
    if es == [] then 0 else SumServed(outs, es[..|es| - 1]) + Tries(outs, es[|es| - 1]) - Fails(outs, es[|es| - 1])
  }

  lemma {:induction false} ServedSplit(outs: seq<Outcome>, es: seq<Endpoint>, e: Endpoint)
    requires e !in es
    ensures ServedBy(outs, es + [e]) == ServedBy(outs, es) + ServedBy(outs, [e])
    decreases |outs|
  {
    if outs != [] {
      ServedSplit(outs[..|outs| - 1], es, e);
    }
  }

  lemma {:induction false} ServedByNobody(outs: seq<Outcome>)
    ensures ServedBy(outs, []) == 0
    decreases |outs|
  {
    if outs != [] {
      ServedByNobody(outs[..|outs| - 1]);
    }
  }

  /** Summed over the paths of a Pi-hole, tries minus failures are the replies that Pi-hole gave. */
  lemma {:induction false} ServedBalance(outs: seq<Outcome>, es: seq<Endpoint>)
    requires NoDup(es)
    ensures SumServed(outs, es) == ServedBy(outs, es)
    decreases |es|
  {
    if es == [] {
      ServedByNobody(outs);
    } else {
      var p, e := es[..|es| - 1], es[|es| - 1];
      assert es == p + [e] && e !in p;
      ServedBalance(outs, p);
      TriesMinusFails(outs, e);
      ServedSplit(outs, p, e);
    }
  }

  // ---------------------------------------------------------------- outcomes and health logs

  type Logs = map<Endpoint, seq<Health.Event>>

  /** What one attempt reports to its path: whether the answer was good, and the measured round trip. */
  ghost function ReportOf(a: Answer, retry: set<nat>): Health.Event {
    Health.Query(!Rejected(a, retry), a.rtt)
  }

  ghost function WithReport(logs: Logs, e: Endpoint, x: Health.Event): (r: Logs)
    ensures r.Keys == logs.Keys
  {
    if e in logs then logs[e := logs[e] + [x]] else logs
  }

  /** The logs after these attempts, each reported to its own path and to no other. */
  ghost function Reported(logs: Logs, tried: seq<Endpoint>, answers: seq<Answer>, retry: set<nat>): (r: Logs)
    requires |tried| == |answers|
    ensures r.Keys == logs.Keys
  {
    if tried == [] then logs
    else
      var n := |tried| - 1;
      WithReport(Reported(logs, tried[..n], answers[..n], retry), tried[n], ReportOf(answers[n], retry))
  }

  lemma ReportedSnoc(logs: Logs, tried: seq<Endpoint>, answers: seq<Answer>, retry: set<nat>, e: Endpoint, a: Answer)
    requires |tried| == |answers|
    ensures Reported(logs, tried + [e], answers + [a], retry)
            == WithReport(Reported(logs, tried, answers, retry), e, ReportOf(a, retry))
  {
    assert (tried + [e])[..|tried|] == tried && (answers + [a])[..|answers|] == answers;
  }

  /** Each path tried gains exactly the report of its own attempt; every other log stands. */
  lemma {:induction false} ReportedExact(logs: Logs, tried: seq<Endpoint>, answers: seq<Answer>, retry: set<nat>,
      e: Endpoint)
    requires |tried| == |answers| && NoDup(tried) && e in logs
    ensures forall i :: 0 <= i < |tried| && tried[i] == e ==>
              var good := answers[i].Message? && RCodeOf(answers[i].bytes) !in retry;
              Reported(logs, tried, answers, retry)[e] == logs[e] + [Health.Query(good, answers[i].rtt)]
    ensures e !in tried ==> Reported(logs, tried, answers, retry)[e] == logs[e]
    decreases |tried|
  {
    hide RCodeOf;
    if tried != [] {
      var n := |tried| - 1;
      assert tried == tried[..n] + [tried[n]] && tried[n] !in tried[..n];
      ReportedExact(logs, tried[..n], answers[..n], retry, e);
      forall i | 0 <= i < |tried| && tried[i] == e
        ensures Reported(logs, tried, answers, retry)[e] == logs[e] + [ReportOf(answers[i], retry)]
      {
        if i < n {
          assert tried[..n][i] == e && answers[..n][i] == answers[i];
        }
      }
    }
  }

  /** Only the last answer may be good, and then a Pi-hole gave the reply. */
  ghost predicate Marked(o: Outcome, retry: set<nat>) {
    && |o.tried| == |o.answers|
    && forall i :: 0 <= i < |o.answers| ==>
         (Rejected(o.answers[i], retry) <==> !(o.source.Pihole? && i == |o.answers| - 1))
  }

  /** A path whose log counted its tries and failures so far counts those of one more query as well. */
  lemma CountsFollow(logs: Logs, outs: seq<Outcome>, o: Outcome, retry: set<nat>, e: Endpoint)
    requires Marked(o, retry) && NoDup(o.tried) && e in logs
    requires Health.QueryCount(logs[e]) == Tries(outs, e) && Health.QueryFails(logs[e]) == Fails(outs, e)
    ensures var log := Reported(logs, o.tried, o.answers, retry)[e];
            Health.QueryCount(log) == Tries(outs + [o], e) && Health.QueryFails(log) == Fails(outs + [o], e)
  {
    hide Reported, RCodeOf;
    assert (outs + [o])[..|outs|] == outs;
    ReportedExact(logs, o.tried, o.answers, retry, e);
    if e in o.tried {
      var i :| 0 <= i < |o.tried| && o.tried[i] == e;
      var x := ReportOf(o.answers[i], retry);
      assert (logs[e] + [x])[..|logs[e]|] == logs[e];
      assert Served(o, e) <==> o.source.Pihole? && i == |o.tried| - 1;
    }
  }

  // ---------------------------------------------------------------- outcomes and statistics

  /** Response code of the reply. */
  ghost function ReplyCode(o: Outcome): string {
    match o.source
    case Public => if o.publicResult.Ok? then RCodeName(RCodeOf(o.publicResult.value.0)) else ""
    case Synthetic => RCodeName(RCODE_SERVFAIL)
    case _ => if LastMessage(o.answers).Some? then RCodeName(RCodeOf(LastMessage(o.answers).value)) else ""
  }

  /** Name of the path, or address of the public server, that gave the reply. */
  ghost function ReplyPath(o: Outcome): string {
    if o.source.Pihole? && o.tried != [] then o.tried[|o.tried| - 1].name
    else if o.source.Public? && o.publicResult.Ok? then o.publicResult.value.1
    else ""
  }

  /** The record filed for an outcome. */
  ghost predicate Filed(r: Stats.Record, o: Outcome) {
    && r.attempts == |o.tried|
    && r.fallback == o.source.Public?
    && r.failed == (o.source.LastError? || o.source.Synthetic?)
    && r.upstream == (if o.source.Pihole? then o.owner else "")
    && (o.source.Pihole? ==> o.owner != "")
    && r.endpoint == ReplyPath(o) && r.rcode == ReplyCode(o)
  }

  ghost predicate AllFiled(log: seq<Stats.Entry>, outs: seq<Outcome>) {
    |log| == |outs| && forall i :: 0 <= i < |log| ==> Filed(log[i].rec, outs[i])
  }

  /** Records with at least one attempt. */
  ghost function Attempted(log: seq<Stats.Entry>): nat {
    if log == [] then 0 else Attempted(log[..|log| - 1]) + if log[|log| - 1].rec.attempts > 0 then 1 else 0
  }

  /** Records naming a Pi-hole. */
  ghost function Named(log: seq<Stats.Entry>): nat {
    if log == [] then 0 else Named(log[..|log| - 1]) + if log[|log| - 1].rec.upstream != "" then 1 else 0
  }

  /** The response code filed is that of the reply sent; the path or server filed is the one that gave it. */
  lemma RecordTellsReply(world: World, t: nat, plan: seq<Endpoint>, budget: int, order: seq<string>,
      retry: set<nat>, req: Bytes, o: Outcome, resp: Option<Bytes>, r: Stats.Record)
    requires ForwardRule(world, t, plan, budget, order, retry, req, o, resp) && Filed(r, o)
    ensures resp.Some? ==> r.rcode == RCodeName(RCodeOf(resp.value))
    ensures resp.None? ==> r.rcode == "SERVFAIL"
    ensures o.source.Pihole? ==> o.tried != [] && r.endpoint == o.tried[|o.tried| - 1].name
    ensures o.source.Public? ==> exists i :: 0 <= i < |order| && r.endpoint == order[i] && i == |o.publicAnswers| - 1
  {
    OutcomeShape(world, t, plan, budget, order, retry, req, o, resp);
    SyntheticCode(req, resp);
    ReplyFiled(world, t, plan, budget, order, retry, req, o, resp);
    hide ForwardRule, ReplyCode, Rejected;
  }

  lemma ReplyFiled(world: World, t: nat, plan: seq<Endpoint>, budget: int, order: seq<string>,
      retry: set<nat>, req: Bytes, o: Outcome, resp: Option<Bytes>)
    requires ForwardRule(world, t, plan, budget, order, retry, req, o, resp)
    ensures resp.Some? ==> ReplyCode(o) == RCodeName(RCodeOf(resp.value))
    ensures resp.None? ==> ReplyCode(o) == RCodeName(RCODE_SERVFAIL)
    ensures o.source.Public? ==>
              |o.publicAnswers| <= |order| && o.publicAnswers != [] && o.publicResult.Ok?
              && o.publicResult.value.1 == order[|o.publicAnswers| - 1]
  {
    SyntheticCode(req, resp);
    PublicAt(order, FromPublic(world, t, budget, order, req), retry);
    hide Validated, World.Offered, RCodeOf, RCodeName, IsErrorResponse, Unanswerable, PublicReply, Rejected;
    if o.source.Pihole? {
      var asked := FromPool(world, t, budget, req);
      var k := FirstGood(asked, retry);
      assert o.answers[|o.answers| - 1] == asked[k];
      GoodIsMessage(asked[k], retry);
    }
  }

  lemma GoodIsMessage(a: Answer, retry: set<nat>)
    requires !Rejected(a, retry)
    ensures a.Message?
  {
  }

  lemma PublicAt(order: seq<string>, offered: seq<Answer>, retry: set<nat>)
    requires |offered| <= |order|
    ensures var r, k := PublicReply(order, offered, retry), |Through(offered, retry)|;
            r.Ok? ==> 0 < k <= |order| && r.value.1 == order[k - 1]
  {
  }

  lemma SyntheticCode(req: Bytes, resp: Option<Bytes>)
    ensures RCodeName(RCODE_SERVFAIL) == "SERVFAIL"
    ensures resp.Some? && |req| >= HEADER_LEN && IsErrorResponse(req, RCODE_SERVFAIL, resp.value) ==>
              RCodeOf(resp.value) == RCODE_SERVFAIL
  {
    hide ParseQuestion, QuestionLen;
  }

  lemma FiledPrefix(log: seq<Stats.Entry>, outs: seq<Outcome>)
    requires AllFiled(log, outs) && outs != []
    ensures AllFiled(log[..|log| - 1], outs[..|outs| - 1]) && Filed(log[|log| - 1].rec, outs[|outs| - 1])
  {
  }

  /** Per query: attempts are retries plus one if there was any; and exactly one of three ends applies. */
  lemma {:induction false} RecordsBalance(log: seq<Stats.Entry>, outs: seq<Outcome>)
    requires AllFiled(log, outs)
    ensures TotalTries(outs) == Stats.RetryCount(log) + Attempted(log)
    ensures |log| == Named(log) + Stats.FallbackCount(log) + Stats.FailedCount(log)
    ensures PublicCount(outs) == Stats.FallbackCount(log)
    decreases |log|
  {
    if log != [] {
      FiledPrefix(log, outs);
      RecordsBalance(log[..|log| - 1], outs[..|outs| - 1]);
    }
  }

  ghost function Records(log: seq<Stats.Entry>): seq<Stats.Record> {
    seq(|log|, i requires 0 <= i < |log| => log[i].rec)
  }

  ghost function SumNodes(recs: seq<Stats.Record>, names: seq<string>): nat {
    if names == [] then 0 else SumNodes(recs, names[..|names| - 1]) + Stats.NodeOf(recs, names[|names| - 1]).queries
  }

  lemma {:induction false} SumNodesNone(names: seq<string>)
    ensures SumNodes([], names) == 0
    decreases |names|
  {
    if names != [] {
      SumNodesNone(names[..|names| - 1]);
    }
  }

  lemma {:induction false} SumNodesStep(recs: seq<Stats.Record>, r: Stats.Record, names: seq<string>)
    requires NoDup(names)
    ensures SumNodes(recs + [r], names) == SumNodes(recs, names) + if r.upstream in names then 1 else 0
    decreases |names|
  {
    if names != [] {
      var p, x := names[..|names| - 1], names[|names| - 1];
      assert names == p + [x] && x !in p;
      SumNodesStep(recs, r, p);
      assert (recs + [r])[..|recs|] == recs;
    }
  }

  /** Per-node answers add up to the records that name a node of the pool. */
  lemma {:induction false} NodesBalance(log: seq<Stats.Entry>, names: seq<string>)
    requires NoDup(names) && "" !in names
    requires forall i :: 0 <= i < |log| ==> log[i].rec.upstream == "" || log[i].rec.upstream in names
    ensures SumNodes(Records(log), names) == Named(log)
    decreases |log|
  {
    if log == [] {
      SumNodesNone(names);
    } else {
      var p, e := log[..|log| - 1], log[|log| - 1];
      NodesBalance(p, names);
      SumNodesStep(Records(p), e.rec, names);
      assert Records(log) == Records(p) + [e.rec];
    }
  }

  /** Which Pi-hole an answering path belongs to. */
  ghost predicate OwnedBy(us: seq<Upstream>, o: Outcome) {
    o.source.Pihole? ==>
      && o.tried != []
      && exists i :: 0 <= i < |us| && us[i].name == o.owner && o.tried[|o.tried| - 1] in us[i].endpoints
  }

  /** The replies a Pi-hole gave are the queries filed under its name. */
  lemma {:induction false} ServedIsNode(log: seq<Stats.Entry>, outs: seq<Outcome>, us: seq<Upstream>, j: nat)
    requires AllFiled(log, outs) && j < |us| && us[j].name != "" && Disjoint(us)
    requires forall i :: 0 <= i < |us| && i != j ==> us[i].name != us[j].name
    requires forall i :: 0 <= i < |outs| ==> OwnedBy(us, outs[i])
    ensures ServedBy(outs, us[j].endpoints) == Stats.NodeOf(Records(log), us[j].name).queries
    decreases |log|
  {
    hide Filed, OwnedBy;
    if log != [] {
      FiledPrefix(log, outs);
      var p, e := log[..|log| - 1], log[|log| - 1];
      ServedIsNode(p, outs[..|outs| - 1], us, j);
      assert Records(log) == Records(p) + [e.rec] && Records(log)[..|p|] == Records(p);
      ServedOne(e.rec, outs[|outs| - 1], us, j);
    }
  }

  /** A reply came over one of a Pi-hole's paths exactly when its record names that Pi-hole. */
  lemma ServedOne(r: Stats.Record, o: Outcome, us: seq<Upstream>, j: nat)
    requires Filed(r, o) && OwnedBy(us, o) && j < |us| && us[j].name != "" && Disjoint(us)
    requires forall i :: 0 <= i < |us| && i != j ==> us[i].name != us[j].name
    ensures (o.source.Pihole? && o.tried != [] && o.tried[|o.tried| - 1] in us[j].endpoints)
            <==> r.upstream == us[j].name
  {
    if o.source.Pihole? {
      var i :| 0 <= i < |us| && us[i].name == o.owner && o.tried[|o.tried| - 1] in us[i].endpoints;
      assert i == j <==> o.tried[|o.tried| - 1] in us[j].endpoints;
    }
  }
}
