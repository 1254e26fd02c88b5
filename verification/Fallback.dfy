/** The public-resolver fallback: a rotation over the configured servers, each tried at most once. */
module Fallback {
  import opened Arith
  import opened Basics
  import opened Net
  import opened Selection
  import opened Wire
  import Outage

  datatype ResolveError = Disabled | Canceled | AllFailed

  /**
   The reference: what a resolution over the servers in this order returns, given the answers they
   would give for as long as the client waits.  It is the first good answer; failing that, the last
   server's answer, whatever it says.
   */
  ghost function PublicReply(order: seq<string>, offered: seq<Answer>,
      retry: set<nat>): Result<(Bytes, string), ResolveError>
    requires |offered| <= |order|
  {
    var k, n := FirstGood(offered, retry), |order|;
    if n == 0 then Err(Disabled)
    else if k < |offered| then Ok((offered[k].bytes, order[k]))
    else if k < n then Err(Canceled)
    else if offered[n - 1].Message? then Ok((offered[n - 1].bytes, order[n - 1]))
    else Err(AllFailed)
  }

  /** What the tracker is told: one entry per exchange, a success only for the one returned. */
  ghost function Usage(order: seq<string>, k: nat, ok: bool): seq<Outage.Event>
    requires k <= |order|
  {
    seq(k, i requires 0 <= i < k => Outage.Used(order[i], ok && i == k - 1))
  }

  lemma NothingSent(order: seq<string>)
    ensures Usage(order, 0, false) == [] && Contacts(true, order[..0], []) == []
  {
  }

  lemma NobodyAsked(world: World, req: Bytes, t: nat, retry: set<nat>)
    ensures PublicReply([], world.Offered(req, t, 0), retry) == Err(Disabled)
    ensures Through(world.Offered(req, t, 0), retry) == []
  {
  }

  /** The points at which the scan stops are those of the reference. */
  lemma ScanStops(world: World, req: Bytes, t: nat, order: seq<string>, retry: set<nat>, answers: seq<Answer>,
      r: Result<(Bytes, string), ResolveError>)
    requires order != [] && |answers| <= |order| && answers == Script(world.replies, req, t, |answers|)
    requires answers != [] ==> !world.CancelledAt(t + 2 * (|answers| - 1))
    requires forall i :: 0 <= i < |answers| - 1 ==> Rejected(answers[i], retry)
    requires var k, n := |answers|, |order|;
             match r
             case Ok((resp, server)) =>
               && k > 0 && answers[k - 1].Message? && answers[k - 1].bytes == resp && server == order[k - 1]
               && (k == n || !Rejected(answers[k - 1], retry))
             case Err(e) =>
               && (k > 0 ==> Rejected(answers[k - 1], retry))
               && (e == if k == n then AllFailed else Canceled)
               && (if k == n then answers[k - 1].NoAnswer? else world.CancelledAt(t + 2 * k))
    ensures var offered := world.Offered(req, t, |order|);
            r == PublicReply(order, offered, retry) && answers == Through(offered, retry)
  {
    hide Rejected, Heard, Validated;
    world.OfferedThrough(req, t, |order|, retry, answers);
  }

  lemma NothingHeard(world: World, req: Bytes, t: nat)
    ensures Script(world.replies, req, t, 0) == []
  {
  }

  lemma UsageSnoc(order: seq<string>, k: nat, ok: bool)
    requires k < |order|
    ensures Usage(order, k, false) + [Outage.Used(order[k], ok)] == Usage(order, k + 1, ok)
  {
  }

  lemma UsedOnce(log: seq<Outage.Event>, server: string, ok: bool)
    ensures Outage.Answered(log + [Outage.Used(server, ok)]) == Outage.Answered(log) + if ok then 1 else 0
    ensures Outage.Uses(log + [Outage.Used(server, ok)]) == Outage.Uses(log) + 1
  {
    assert (log + [Outage.Used(server, ok)])[..|log|] == log;
  }

  /** Exactly one success is recorded when an answer is returned, none otherwise; one entry per exchange. */
  lemma {:induction false} UsageCounts(log: seq<Outage.Event>, order: seq<string>, k: nat, ok: bool)
    requires k <= |order| && (ok ==> k > 0)
    ensures Outage.Answered(log + Usage(order, k, ok)) == Outage.Answered(log) + if ok then 1 else 0
    ensures Outage.Uses(log + Usage(order, k, ok)) == Outage.Uses(log) + k
    decreases k
  {
    hide Usage, Outage.Answered, Outage.Uses;
    if k == 0 {
      NothingSent(order);
      assert log + [] == log;
    } else {
      UsageCounts(log, order, k - 1, false);
      UsageSnoc(order, k - 1, ok);
      var e := Outage.Used(order[k - 1], ok);
      assert log + (Usage(order, k - 1, false) + [e]) == log + Usage(order, k - 1, false) + [e];
      UsedOnce(log + Usage(order, k - 1, false), order[k - 1], ok);
    }
  }

  /** The server credited with an answer is the one that gave the reply, and no other is. */
  lemma CreditToAnswerer(order: seq<string>, offered: seq<Answer>, retry: set<nat>, i: nat)
    requires |offered| <= |order| && i < |Through(offered, retry)|
    ensures |Through(offered, retry)| <= |order|
    ensures var r, k := PublicReply(order, offered, retry), |Through(offered, retry)|;
            var e := Usage(order, k, r.Ok?)[i];
            && e.Used? && e.server == order[i]
            && (e.ok <==> r.Ok? && i == k - 1) && (e.ok ==> e.server == r.value.1)
  {
  }

  lemma ReplySize(order: seq<string>, offered: seq<Answer>, retry: set<nat>)
    requires |offered| <= |order|
    ensures |Through(offered, retry)| <= |order|
    ensures PublicReply(order, offered, retry).Ok? ==> Through(offered, retry) != []
  {
  }

  /**
   What each result means for every world.  A resolution that fails for want of answers has tried
   every server in vain; one that is cut short was cancelled by the time it stopped; and a reply is
   the first good answer of the rotation, or a bad one of the last server after everyone else failed.
   */
  lemma ResolveComplete(world: World, req: Bytes, t: nat, order: seq<string>, retry: set<nat>)
    ensures var offered := world.Offered(req, t, |order|);
            var answers := Through(offered, retry);
            match PublicReply(order, offered, retry)
            case Err(Disabled) => order == []
            case Err(AllFailed) =>
              && answers == Script(world.replies, req, t, |order|) && answers[|order| - 1].NoAnswer?
              && forall i :: 0 <= i < |order| ==> Rejected(answers[i], retry)
            case Err(Canceled) => |answers| < |order| && world.CancelledAt(t + 2 * |answers|)
            case Ok((resp, server)) =>
              exists k :: 0 <= k < |order| && k == |answers| - 1 && server == order[k]
                && Heard(world.replies, req, t + 2 * k + 1).Message?
                && resp == Heard(world.replies, req, t + 2 * k + 1).bytes
                && (forall i :: 0 <= i < k ==> Rejected(Heard(world.replies, req, t + 2 * i + 1), retry))
                && (Rejected(Heard(world.replies, req, t + 2 * k + 1), retry) ==> k == |order| - 1)
  {
    PatienceEnds(world.cancelAt, t, |order|);
    var offered := world.Offered(req, t, |order|);
    var answers := Through(offered, retry);
    hide Heard, Validated;
    if PublicReply(order, offered, retry).Ok? {
      var k := |answers| - 1;
      assert answers[k] == offered[k] == Heard(world.replies, req, t + 2 * k + 1);
      forall i | 0 <= i < k ensures Rejected(Heard(world.replies, req, t + 2 * i + 1), retry) {
        assert offered[i] == Heard(world.replies, req, t + 2 * i + 1);
      }
    }
  }

  /** One of a series of resolutions: when it began, the servers in its order, what they answered, the result. */
  datatype Round = Round(
    t: nat, order: seq<string>, answers: seq<Answer>, result: Result<(Bytes, string), ResolveError>)

  /** The round went as the reference prescribes. */
  ghost predicate RoundOk(round: Round, world: World, req: Bytes, retry: set<nat>) {
    var offered := world.Offered(req, round.t, |round.order|);
    && round.answers == Through(offered, retry) && |round.answers| <= |round.order|
    && round.result == PublicReply(round.order, offered, retry)
  }

  ghost function ContactsOf(round: Round): seq<Contact> {
    if |round.answers| > |round.order| then []
    else Contacts(true, round.order[..|round.answers|], round.answers)
  }

  ghost function UsageOf(round: Round): seq<Outage.Event> {
    if |round.answers| > |round.order| then [] else Usage(round.order, |round.answers|, round.result.Ok?)
  }

  /** The contacts of a series, round after round. */
  ghost function SentBy(rounds: seq<Round>): seq<Contact> {
    if rounds == [] then [] else SentBy(rounds[..|rounds| - 1]) + ContactsOf(rounds[|rounds| - 1])
  }

  ghost function UsedBy(rounds: seq<Round>): seq<Outage.Event> {
    if rounds == [] then [] else UsedBy(rounds[..|rounds| - 1]) + UsageOf(rounds[|rounds| - 1])
  }

  lemma NoRounds()
    ensures SentBy([]) == [] && UsedBy([]) == []
  {
  }

  lemma RoundsSnoc(rounds: seq<Round>, round: Round)
    ensures SentBy(rounds + [round]) == SentBy(rounds) + ContactsOf(round)
    ensures UsedBy(rounds + [round]) == UsedBy(rounds) + UsageOf(round)
  {
    assert (rounds + [round])[..|rounds|] == rounds;
  }

  /** Where round i stands among the contacts: after those of the rounds before it, its head first. */
  lemma {:induction false} RoundStands(rounds: seq<Round>, i: nat)
    requires i < |rounds| && rounds[i].answers != [] && |rounds[i].answers| <= |rounds[i].order|
    ensures var at := |SentBy(rounds[..i])|;
            at < |SentBy(rounds)| && SentBy(rounds)[at] == Contact(true, rounds[i].order[0], rounds[i].answers[0])
    decreases |rounds|
  {
    var n := |rounds| - 1;
    if i < n {
      RoundStands(rounds[..n], i);
      assert rounds[..n][..i] == rounds[..i] && rounds[..n][i] == rounds[i];
    }
  }

  /** The servers rotated by c, and the one that comes first. */
  ghost predicate TurnsTo(order: seq<string>, servers: seq<string>, c: nat, head: string) {
    servers != [] && order == Rotate(servers, c % |servers|) && order[0] == head
  }

  lemma TurnsToNext(servers: seq<string>, c: nat, half: Positive)
    requires servers != [] && CounterFits(c, half)
    ensures SafeTurn(c, |servers|, half) && TurnsTo(Turn(servers, c, half), servers, c, Turn(servers, c, half)[0])
  {
    TurnFits(servers, c, half);
  }

  lemma HeadsFair(heads: seq<string>, servers: seq<string>, c: nat, half: Positive)
    requires TurnHeads(heads, servers, c, half) && NoDup(servers)
    ensures forall r :: 0 <= r < |servers| ==>
              var m, n, k := |heads|, |servers|, multiset(heads)[servers[r]];
              k == m / n || k == (m + n - 1) / n
  {
    hide TurnHeads;
    forall r | 0 <= r < |servers|
      ensures var m, n, k := |heads|, |servers|, multiset(heads)[servers[r]]; k == m / n || k == (m + n - 1) / n
    {
      RotationServesAll(heads, servers, c, half, r);
    }
  }

  /** A client that never gives up gets at least one server asked. */
  lemma SomebodyAsked(round: Round, world: World, req: Bytes, retry: set<nat>)
    requires RoundOk(round, world, req, retry) && round.order != [] && world.cancelAt.None?
    ensures round.answers != []
  {
    PatienceEnds(world.cancelAt, round.t, |round.order|);
  }

  class Resolver {
    const retry: set<nat>
    /** int has 2*half values on the machine at hand. */
    const half: Positive
    const tracker: Outage.Tracker
    var servers: seq<string>
    var rr: Word

    constructor (enabled: bool, servers: seq<string>, retry: set<nat>, half: Positive, tracker: Outage.Tracker)
      ensures this.servers == (if enabled then servers else []) && rr == 0
      ensures this.retry == retry && this.half == half && this.tracker == tracker
    {
      this.retry, this.half, this.tracker, rr := retry, half, tracker, 0;
      this.servers := if enabled then servers else [];
    }

    predicate Enabled()
      reads this`servers
    {
      |servers| > 0
    }

    /** Replaces the list; disabling clears it. */
    method SetServers(enabled: bool, servers: seq<string>)
      modifies this`servers
      ensures this.servers == if enabled then servers else []
    {
      this.servers := if enabled then servers else [];
    }

    /** The next rotation does not index below zero. */
    ghost predicate Safe()
      reads this`servers, this`rr
    {
      SafeTurn(rr, |servers|, half)
    }

    /** The servers in the order the next resolution tries them. */
    ghost function NextOrder(): (order: seq<string>)
      requires Safe()
      reads this`servers, this`rr
      ensures |order| == |servers|
    {
      Turn(servers, rr, half)
    }

    /** The rotation counter after one more resolution. */
    ghost function NextCount(): nat
      reads this`servers, this`rr
    {
      if servers == [] then rr else (rr + 1) % U64
    }

    /** Tries each server in turn, from a rotating start, until one answers. */
    method Resolve(world: World, req: Bytes) returns (r: Result<(Bytes, string), ResolveError>,
        ghost answers: seq<Answer>)
      requires Safe() && tracker.Valid()
      modifies this`rr, tracker, world`tick, world`sent
      ensures tracker.Valid() && tracker.windows == old(tracker.windows)
      ensures var offered := world.Offered(req, old(world.tick), |servers|);
              r == PublicReply(old(NextOrder()), offered, retry) && answers == Through(offered, retry)
      ensures |answers| <= |servers| && (r.Ok? ==> answers != [])
      ensures world.sent == old(world.sent) + Contacts(true, old(NextOrder())[..|answers|], answers)
      ensures tracker.log == old(tracker.log) + Usage(old(NextOrder()), |answers|, r.Ok?)
      ensures rr == old(NextCount())
      ensures world.tick >= old(world.tick) + 2 * |answers|
    {
      hide Usage, Contacts, Outage.Kept, PublicReply, Through;
      answers := [];
      ghost var order := NextOrder();
      NothingSent(order);
      if |servers| == 0 {
        NobodyAsked(world, req, world.tick, retry);
        return Err(Disabled), answers;
      }
      var c, n := rr, |servers|;
      rr := (rr + 1) % U64;
      r, answers := Scan(world, RotationStart(c, n, half), req);
      ReplySize(order, world.Offered(req, old(world.tick), n), retry);
    }

    /** The loop over the rotation that begins at start. */
    method Scan(world: World, start: nat, req: Bytes) returns (r: Result<(Bytes, string), ResolveError>,
        ghost answers: seq<Answer>)
      requires start < |servers| && tracker.Valid()
      modifies tracker, world`tick, world`sent
      ensures tracker.Valid() && tracker.windows == old(tracker.windows)
      ensures var offered := world.Offered(req, old(world.tick), |servers|);
              r == PublicReply(Rotate(servers, start), offered, retry) && answers == Through(offered, retry)
      ensures |answers| <= |servers|
      ensures world.sent == old(world.sent) + Contacts(true, Rotate(servers, start)[..|answers|], answers)
      ensures tracker.log == old(tracker.log) + Usage(Rotate(servers, start), |answers|, r.Ok?)
      ensures world.tick >= old(world.tick) + 2 * |answers|
    {
      hide Usage, Contacts, RCodeOf, Outage.Kept, Rejected, TruncRem, PublicReply, Through, Script, Heard,
           Validated, World.Offered, Rotate;
      answers := [];
      var n := |servers|;
      ghost var order, t := Rotate(servers, start), world.tick;
      NothingSent(order);
      NothingHeard(world, req, t);
      for i := 0 to n
        invariant |answers| == i
        invariant tracker.Valid() && tracker.windows == old(tracker.windows)
        invariant forall j :: 0 <= j < i ==> Rejected(answers[j], retry)
        invariant i == n ==> answers[n - 1].NoAnswer?
        invariant world.sent == old(world.sent) + Contacts(true, order[..i], answers)
        invariant tracker.log == old(tracker.log) + Usage(order, i, false)
        invariant world.tick == t + 2 * i && answers == Script(world.replies, req, t, i)
        invariant i > 0 ==> !world.CancelledAt(t + 2 * (i - 1))
      {
        var stop := world.Cancelled();
        if stop {
          r := Err(Canceled);
          ScanStops(world, req, t, order, retry, answers, r);
          return;
        }
        WrapIndex(start, i, n);
        var server := servers[TruncRem(start + i, n)];
        assert server == order[i] && order[..i + 1] == order[..i] + [server];
        var a, taken := Try(world, server, req, i == n - 1);
        ContactsSnoc(true, order[..i], answers, server, a);
        UsageSnoc(order, i, taken);
        ScriptSnoc(world.replies, req, t, i);
        answers := answers + [a];
        if taken {
          r := Ok((a.bytes, server));
          ScanStops(world, req, t, order, retry, answers, r);
          return;
        }
      }
      r := Err(AllFailed);
      ScanStops(world, req, t, order, retry, answers, r);
    }

    /**
     Resolves queries in a row while the counter fits.  Round i follows the order rotated by i from where
     the counter stood; contacts and tracker entries are those of the rounds, one after another; and an
     outage spreads over the servers, each heading floor(m/n) or ceil(m/n) of the m rounds.
     */
    method ResolveRepeatedly(world: World, reqs: seq<Bytes>)
      returns (results: seq<Result<(Bytes, string), ResolveError>>, ghost rounds: seq<Round>, ghost heads: seq<string>)
      requires servers != [] && NoDup(servers) && tracker.Valid()
      requires rr + |reqs| <= half && rr + |reqs| < U64
      modifies this`rr, tracker, world`tick, world`sent
      ensures tracker.Valid() && tracker.windows == old(tracker.windows) && rr == old(rr) + |reqs|
      ensures |results| == |rounds| == |heads| == |reqs|
      ensures forall i :: 0 <= i < |reqs| ==>
                && RoundOk(rounds[i], world, reqs[i], retry) && rounds[i].result == results[i]
                && TurnsTo(rounds[i].order, servers, old(rr) + i, heads[i])
      ensures world.sent == old(world.sent) + SentBy(rounds)
      ensures tracker.log == old(tracker.log) + UsedBy(rounds)
      ensures forall r :: 0 <= r < |servers| ==>
                var m, n, k := |reqs|, |servers|, multiset(heads)[servers[r]];
                k == m / n || k == (m + n - 1) / n
    {
      hide Outage.Kept, TurnHeads, Turn, SafeTurn, RoundOk, ContactsOf, UsageOf, SentBy, UsedBy, TurnsTo, Rotate;
      NoRounds();
      results, rounds, heads := [], [], [];
      ghost var c := rr;
      NoHeads(servers, c, half);
      for i := 0 to |reqs|
        invariant tracker.Valid() && tracker.windows == old(tracker.windows)
        invariant |results| == |rounds| == |heads| == i && rr == c + i
        invariant TurnHeads(heads, servers, c, half)
        invariant forall j :: 0 <= j < i ==>
                    && RoundOk(rounds[j], world, reqs[j], retry) && rounds[j].result == results[j]
                    && TurnsTo(rounds[j].order, servers, c + j, heads[j])
        invariant world.sent == old(world.sent) + SentBy(rounds)
        invariant tracker.log == old(tracker.log) + UsedBy(rounds)
      {
        TurnHeadsSnoc(heads, servers, c, half);
        TurnsToNext(servers, c + i, half);
        var r; ghost var round;
        r, round := ResolveOnce(world, reqs[i]);
        RoundsSnoc(rounds, round);
        results, rounds, heads := results + [r], rounds + [round], heads + [round.order[0]];
      }
      HeadsFair(heads, servers, c, half);
    }

    /** One resolution as a round of a series. */
    method ResolveOnce(world: World, req: Bytes)
      returns (r: Result<(Bytes, string), ResolveError>, ghost round: Round)
      requires servers != [] && Safe() && tracker.Valid()
      modifies this`rr, tracker, world`tick, world`sent
      ensures tracker.Valid() && tracker.windows == old(tracker.windows) && rr == (old(rr) + 1) % U64
      ensures RoundOk(round, world, req, retry) && round.order == old(NextOrder()) && round.result == r
      ensures world.sent == old(world.sent) + ContactsOf(round) && tracker.log == old(tracker.log) + UsageOf(round)
    {
      hide Usage, Contacts, Outage.Kept, PublicReply, Through, World.Offered, SafeTurn, Turn;
      ghost var order, t := NextOrder(), world.tick;
      ghost var answers;
      r, answers := Resolve(world, req);
      round := Round(t, order, answers, r);
    }

    /** One exchange, and its entry with the tracker; the last server's answer is taken whatever it says. */
    method Try(world: World, server: string, req: Bytes, isLast: bool) returns (a: Answer, taken: bool)
      requires tracker.Valid()
      modifies tracker, world`tick, world`sent
      ensures tracker.Valid() && tracker.windows == old(tracker.windows)
      ensures tracker.log == old(tracker.log) + [Outage.Used(server, taken)]
      ensures world.sent == old(world.sent) + [Contact(true, server, a)]
      ensures world.tick == old(world.tick) + 1 && a == Heard(world.replies, req, old(world.tick))
      ensures taken <==> a.Message? && (isLast || !Rejected(a, retry))
      ensures !taken ==> Rejected(a, retry) && (isLast ==> a.NoAnswer?)
    {
      a := world.Exchange(true, server, req);
      taken := a.Message? && !(RCodeOf(a.bytes) in retry && !isLast);
      tracker.RecordQuery(server, taken);
    }
  }
}
