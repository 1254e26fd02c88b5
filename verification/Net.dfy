/**
 The outside world of one query: what comes back from each exchange and when the client gives up.

 Replies are an arbitrary script.  Time is counted in ticks, one per exchange or per look at the
 context; once cancelled, a context stays cancelled.
 */
module Net {
  import opened Basics
  import opened Wire

  /** What the socket layer delivers, before any check. */
  datatype Reply = Lost(rtt: int) | Arrived(bytes: Bytes, rtt: int)

  /** The result of an exchange: an error, or a response that passed validation. */
  datatype Answer = NoAnswer(rtt: int) | Message(bytes: Bytes, rtt: int)

  /** One exchange that took place. */
  datatype Contact = Contact(isPublic: bool, addr: string, answer: Answer)

  /** The answer is no answer, or one that says the server could not do its job. */
  predicate Rejected(a: Answer, retry: set<nat>) {
    a.NoAnswer? || RCodeOf(a.bytes) in retry
  }

  ghost predicate Validated(a: Answer, req: Bytes) {
    a.Message? ==> ValidateResponse(a.bytes, ID(req)).Ok?
  }

  // ---------------------------------------------------------------- what a series of attempts yields

  /** What an exchange at tick t yields: the bytes that arrived, untouched, if they pass validation. */
  ghost function Heard(replies: nat -> Reply, req: Bytes, t: nat): (a: Answer)
    ensures Validated(a, req)
  {
    var r := replies(t);
    if r.Arrived? && ValidateResponse(r.bytes, ID(req)).Ok? then Message(r.bytes, r.rtt) else NoAnswer(r.rtt)
  }

  /** What n attempts in a row yield from tick t on, each a look at the context and then an exchange. */
  ghost function Script(replies: nat -> Reply, req: Bytes, t: nat, n: nat): (s: seq<Answer>)
    ensures |s| == n
    ensures forall i :: 0 <= i < n ==> s[i] == Heard(replies, req, t + 2 * i + 1)
  {
    seq(n, i requires 0 <= i < n => Heard(replies, req, t + 2 * i + 1))
  }

  lemma ScriptSnoc(replies: nat -> Reply, req: Bytes, t: nat, n: nat)
    ensures Script(replies, req, t, n + 1) == Script(replies, req, t, n) + [Heard(replies, req, t + 2 * n + 1)]
  {
  }

  /** How many of n attempts from tick t on find the context not yet cancelled. */
  ghost function Patience(cancelAt: Option<nat>, t: nat, n: nat): (k: nat)
    ensures k <= n
    decreases n
  {
    if n == 0 || (cancelAt.Some? && cancelAt.value <= t) then 0 else 1 + Patience(cancelAt, t + 2, n - 1)
  }

  /** The attempts that find it not cancelled are those before the first that does. */
  lemma {:induction false} PatienceIs(cancelAt: Option<nat>, t: nat, n: nat, k: nat)
    requires k <= n && (k > 0 ==> cancelAt.None? || cancelAt.value > t + 2 * (k - 1))
    ensures Patience(cancelAt, t, n) >= k
    ensures k == n || (cancelAt.Some? && cancelAt.value <= t + 2 * k) ==> Patience(cancelAt, t, n) == k
    decreases k
  {
    if k > 0 {
      PatienceIs(cancelAt, t + 2, n - 1, k - 1);
    }
  }

  /** Attempts end early only because the context was cancelled by then. */
  lemma {:induction false} PatienceEnds(cancelAt: Option<nat>, t: nat, n: nat)
    ensures var k := Patience(cancelAt, t, n);
            k < n ==> cancelAt.Some? && cancelAt.value <= t + 2 * k
    decreases n
  {
    if n > 0 && !(cancelAt.Some? && cancelAt.value <= t) {
      PatienceEnds(cancelAt, t + 2, n - 1);
    }
  }

  /** Position of the first answer that is not rejected; the length when there is none. */
  ghost function FirstGood(answers: seq<Answer>, retry: set<nat>): (k: nat)
    ensures k <= |answers|
    ensures forall i :: 0 <= i < k ==> Rejected(answers[i], retry)
    ensures k < |answers| ==> !Rejected(answers[k], retry)
  {
    if answers == [] || !Rejected(answers[0], retry) then 0 else 1 + FirstGood(answers[1..], retry)
  }

  /** The answers up to and including the first that is not rejected. */
  ghost function Through(answers: seq<Answer>, retry: set<nat>): seq<Answer> {
    var k := FirstGood(answers, retry);
    if k < |answers| then answers[..k + 1] else answers
  }

  // ---------------------------------------------------------------- contacts

  ghost function Contacts(isPublic: bool, addrs: seq<string>, answers: seq<Answer>): (r: seq<Contact>)
    requires |addrs| == |answers|
    ensures |r| == |addrs|
  {
    seq(|addrs|, i requires 0 <= i < |addrs| => Contact(isPublic, addrs[i], answers[i]))
  }

  lemma ContactsSnoc(isPublic: bool, addrs: seq<string>, answers: seq<Answer>, addr: string, a: Answer)
    requires |addrs| == |answers|
    ensures Contacts(isPublic, addrs + [addr], answers + [a])
            == Contacts(isPublic, addrs, answers) + [Contact(isPublic, addr, a)]
  {
  }

  class World {
    const replies: nat -> Reply
    const cancelAt: Option<nat>
    var tick: nat
    ghost var sent: seq<Contact>

    constructor (replies: nat -> Reply, cancelAt: Option<nat>)
      ensures tick == 0 && sent == [] && this.replies == replies && this.cancelAt == cancelAt
    {
      this.replies, this.cancelAt, tick, sent := replies, cancelAt, 0, [];
    }

    predicate CancelledAt(t: nat) {
      cancelAt.Some? && cancelAt.value <= t
    }

    /** The answers that n attempts from tick t on would get, as far as the client waits for them. */
    ghost function Offered(req: Bytes, t: nat, n: nat): (s: seq<Answer>)
      ensures |s| <= n && forall i :: 0 <= i < |s| ==> Validated(s[i], req)
    {
      Script(replies, req, t, Patience(cancelAt, t, n))
    }

    /**
     A series of attempts that stops at its first good answer, or else when its allowance is used up
     or the context is found cancelled, has heard exactly what was offered up to there.
     */
    lemma OfferedThrough(req: Bytes, t: nat, n: nat, retry: set<nat>, answers: seq<Answer>)
      requires |answers| <= n && answers == Script(replies, req, t, |answers|)
      requires answers != [] ==> !CancelledAt(t + 2 * (|answers| - 1))
      requires forall i :: 0 <= i < |answers| - 1 ==> Rejected(answers[i], retry)
      requires answers == [] || Rejected(answers[|answers| - 1], retry) ==>
                 |answers| == n || CancelledAt(t + 2 * |answers|)
      ensures answers == Through(Offered(req, t, n), retry)
      ensures var k := FirstGood(Offered(req, t, n), retry);
              if answers != [] && !Rejected(answers[|answers| - 1], retry) then
                k == |answers| - 1 < |Offered(req, t, n)|
              else k == |Offered(req, t, n)|
    {
      hide Rejected, Heard, Validated;
      PatienceIs(cancelAt, t, n, |answers|);
      var all := Offered(req, t, n);
      assert all[..|answers|] == answers;
    }

    /** A look at the context. */
    method Cancelled() returns (b: bool)
      modifies this`tick
      ensures b == CancelledAt(old(tick)) && tick == old(tick) + 1
    {
      b := CancelledAt(tick);
      tick := tick + 1;
    }

    /** One request and its validated response. */
    method Exchange(ghost isPublic: bool, addr: string, req: Bytes) returns (a: Answer)
      modifies this`tick, this`sent
      ensures tick == old(tick) + 1
      ensures sent == old(sent) + [Contact(isPublic, addr, a)]
      ensures a == Heard(replies, req, old(tick)) && Validated(a, req)
      ensures var r := replies(old(tick));
              && a.rtt == r.rtt
              && (a.Message? <==> r.Arrived? && ValidateResponse(r.bytes, ID(req)).Ok?)
              && (a.Message? ==> a.bytes == r.bytes)
    {
      var r := replies(tick);
      tick := tick + 1;
      a := NoAnswer(r.rtt);
      if r.Arrived? && ValidateResponse(r.bytes, ID(req)).Ok? {
        a := Message(r.bytes, r.rtt);
      }
      sent := sent + [Contact(isPublic, addr, a)];
    }
  }
}
