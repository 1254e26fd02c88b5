/**
 Query statistics: totals, per-label tallies, and two ring buffers of history, an hour by the minute
 and a day by the hour.

 Times are nanoseconds since the zero time, which falls on an hour; a zone is a fixed offset from
 it.  The collector carries the plain log of what it was given, and everything it shows is judged
 against that log.
 */
module Stats {
  import opened Arith
  import opened Basics

  const MINUTE: int := 60_000_000_000
  const HOUR: int := 3_600_000_000_000

  const NXDOMAIN := "NXDOMAIN"

  /** One completed client query. */
  datatype Record = Record(
    proto: string, qtype: string, upstream: string, endpoint: string, rcode: string,
    attempts: nat, fallback: bool, failed: bool)

  datatype Entry = Entry(at: int, rec: Record)

  /** A ring slot: the start of its period, and the counts of that period. */
  datatype Bucket = Bucket(at: int, counts: Counts)

  datatype Counts = Counts(queries: nat, fallback: nat, failed: nat, blocked: nat)

  const ZERO := Counts(0, 0, 0, 0)
  const UNUSED := Bucket(0, ZERO)

  function One(b: bool): nat { if b then 1 else 0 }

  function AddTo(c: Counts, r: Record): Counts {
    Counts(c.queries + 1, c.fallback + One(r.fallback), c.failed + One(r.failed), c.blocked + One(r.rcode == NXDOMAIN))
  }

  // ---------------------------------------------------------------- periods and slots

  /** Index of the period of the given length that t falls in. */
  function Period(t: int, step: int): int
    requires step > 0
  {
    t / step
  }

  function Truncate(t: int, step: int): int
    requires step > 0
  {
    t - t % step
  }

  lemma TruncatePeriod(t: int, step: int)
    requires step > 0
    ensures Truncate(t, step) == Period(t, step) * step
  {
  }

  lemma PeriodStart(p: int, step: int)
    requires step > 0
    ensures Period(p * step, step) == p && Truncate(p * step, step) == p * step
  {
    RemOf(p * step, p, 0, step);
  }

  /** Ring slot of an instant: its local minute of the hour, or local hour of the day. */
  function Slot(t: int, step: int, n: nat, zone: int): nat
    requires step > 0 && n > 0
  {
    (t + zone) / step % n
  }

  /** With an offset of whole periods, the slot depends on the period only, and cycles with it. */
  lemma SlotOfPeriod(t: int, step: int, n: nat, zone: int)
    requires step > 0 && n > 0 && zone % step == 0
    ensures Slot(t, step, n, zone) == (Period(t, step) + zone / step) % n
  {
    var q, z := t / step, zone / step;
    DivRem(t, step);
    DivRem(zone, step);
    assert (q + z) * step == q * step + z * step;
    RemOf(t + zone, q + z, t % step, step);
  }

  // ---------------------------------------------------------------- the ring against the log

  /** What the log says about one period. */
  ghost function Tally(log: seq<Entry>, step: int, p: int): Counts
    requires step > 0
  {
    if log == [] then ZERO
    else
      var c, e := Tally(log[..|log| - 1], step, p), log[|log| - 1];
      if Period(e.at, step) == p then AddTo(c, e.rec) else c
  }

  ghost predicate Sorted(log: seq<Entry>) {
    forall i, j :: 0 <= i < j < |log| ==> log[i].at <= log[j].at
  }

  /** A slot holds the counts of the latest logged period that maps to it. */
  ghost predicate SlotOk(b: Bucket, slot: nat, step: int, n: nat, z: int, log: seq<Entry>)
    requires step > 0 && n > 0
  {
    || (b == UNUSED && forall i :: 0 <= i < |log| ==> (Period(log[i].at, step) + z) % n != slot)
    || (exists p :: HoldsPeriod(b, p, slot, step, n, z, log))
  }

  ghost predicate HoldsPeriod(b: Bucket, p: int, slot: nat, step: int, n: nat, z: int, log: seq<Entry>)
    requires step > 0 && n > 0
  {
    && b == Bucket(p * step, Tally(log, step, p))
    && (p + z) % n == slot
    && (exists i :: 0 <= i < |log| && Period(log[i].at, step) == p)
    && forall i :: 0 <= i < |log| && (Period(log[i].at, step) + z) % n == slot ==> Period(log[i].at, step) <= p
  }

  /** The ring describes the log. */
  ghost predicate Describes(ring: seq<Bucket>, step: int, n: nat, z: int, log: seq<Entry>)
    requires step > 0 && n > 0
  {
    |ring| == n && forall s :: 0 <= s < n ==> SlotOk(ring[s], s, step, n, z, log)
  }

  /**
   What the counts of a period are: how many logged records fall in it, and how many of those carry the
   fallback mark, the failure mark and the code of a blocked name.
   */
  lemma {:induction false} TallyCounts(log: seq<Entry>, step: int, p: int)
    requires step > 0
    ensures var c := Tally(log, step, p);
            && c.queries == Times(log, (e: Entry) => Period(e.at, step) == p)
            && c.fallback == Times(log, (e: Entry) => Period(e.at, step) == p && e.rec.fallback)
            && c.failed == Times(log, (e: Entry) => Period(e.at, step) == p && e.rec.failed)
            && c.blocked == Times(log, (e: Entry) => Period(e.at, step) == p && e.rec.rcode == "NXDOMAIN")
    decreases |log|
  {
    var all, fallback := (e: Entry) => Period(e.at, step) == p, (e: Entry) => Period(e.at, step) == p && e.rec.fallback;
    var failed := (e: Entry) => Period(e.at, step) == p && e.rec.failed;
    var blocked := (e: Entry) => Period(e.at, step) == p && e.rec.rcode == "NXDOMAIN";
    hide Times;
    if log == [] {
      TimesNone(all);
      TimesNone(fallback);
      TimesNone(failed);
      TimesNone(blocked);
    } else {
      var q, e := log[..|log| - 1], log[|log| - 1];
      assert log == q + [e];
      TallyCounts(q, step, p);
      TimesSnoc(q, e, all);
      TimesSnoc(q, e, fallback);
      TimesSnoc(q, e, failed);
      TimesSnoc(q, e, blocked);
    }
  }

  lemma {:induction false} TallyAbsent(log: seq<Entry>, step: int, p: int)
    requires step > 0
    requires forall i :: 0 <= i < |log| ==> Period(log[i].at, step) != p
    ensures Tally(log, step, p) == ZERO
    decreases |log|
  {
    if log != [] {
      TallyAbsent(log[..|log| - 1], step, p);
    }
  }

  /** What adding one record does to a slot: stale history is reset, the present period is extended. */
  function Refresh(b: Bucket, start: int, r: Record): Bucket {
    Bucket(start, AddTo(if b.at == start then b.counts else ZERO, r))
  }

  lemma OtherSlotKept(b: Bucket, slot: nat, step: int, n: nat, z: int, log: seq<Entry>, e: Entry)
    requires step > 0 && n > 0 && SlotOk(b, slot, step, n, z, log)
    requires (Period(e.at, step) + z) % n != slot
    ensures SlotOk(b, slot, step, n, z, log + [e])
  {
    var l := log + [e];
    assert l[..|log|] == log && l[|log|] == e;
    assert forall i :: 0 <= i < |log| ==> l[i] == log[i];
    if b == UNUSED && forall i :: 0 <= i < |log| ==> (Period(log[i].at, step) + z) % n != slot {
    } else {
      var p :| HoldsPeriod(b, p, slot, step, n, z, log);
      var i :| 0 <= i < |log| && Period(log[i].at, step) == p;
      assert Period(l[i].at, step) == p;
      assert HoldsPeriod(b, p, slot, step, n, z, l);
    }
  }

  lemma OwnSlotRefreshed(b: Bucket, step: int, n: nat, z: int, log: seq<Entry>, e: Entry)
    requires step > 0 && n > 0
    requires forall i :: 0 <= i < |log| ==> log[i].at <= e.at
    requires var q := Period(e.at, step); SlotOk(b, (q + z) % n, step, n, z, log)
    ensures var q := Period(e.at, step); SlotOk(Refresh(b, q * step, e.rec), (q + z) % n, step, n, z, log + [e])
  {
    var q := Period(e.at, step);
    var slot := (q + z) % n;
    var l := log + [e];
    assert l[..|log|] == log && l[|log|] == e;
    forall i | 0 <= i < |l| ensures Period(l[i].at, step) <= q {
      if i < |log| {
        DivMonotone(log[i].at, e.at, step);
        assert l[i] == log[i];
      }
    }
    var c := if b.at == q * step then b.counts else ZERO;
    assert c == Tally(log, step, q) by { OwnCounts(b, q, slot, step, n, z, log); }
    assert Tally(l, step, q) == AddTo(Tally(log, step, q), e.rec);
    assert Period(l[|log|].at, step) == q;
    assert HoldsPeriod(Refresh(b, q * step, e.rec), q, slot, step, n, z, l);
  }

  /** Whatever the slot held, the counts carried over are those of the present period. */
  lemma OwnCounts(b: Bucket, q: int, slot: nat, step: int, n: nat, z: int, log: seq<Entry>)
    requires step > 0 && n > 0 && SlotOk(b, slot, step, n, z, log) && (q + z) % n == slot
    requires forall i :: 0 <= i < |log| ==> Period(log[i].at, step) <= q
    ensures (if b.at == q * step then b.counts else ZERO) == Tally(log, step, q)
  {
    if exists p :: HoldsPeriod(b, p, slot, step, n, z, log) {
      var p :| HoldsPeriod(b, p, slot, step, n, z, log);
      PeriodStart(p, step);
      PeriodStart(q, step);
      if p != q {
        assert b.at != q * step;
        TallyAbsent(log, step, q);
      }
    } else {
      TallyAbsent(log, step, q);
    }
  }

  /** Adding a record keeps the ring a description of the log. */
  lemma RecordKeepsDescribes(ring: seq<Bucket>, step: int, n: nat, zone: int, log: seq<Entry>, e: Entry)
    requires step > 0 && n > 0 && zone % step == 0
    requires Describes(ring, step, n, zone / step, log)
    requires forall i :: 0 <= i < |log| ==> log[i].at <= e.at
    ensures var s := Slot(e.at, step, n, zone);
            && s < n
            && Describes(ring[s := Refresh(ring[s], Truncate(e.at, step), e.rec)], step, n, zone / step, log + [e])
  {
    hide SlotOk;
    var z, q := zone / step, Period(e.at, step);
    SlotOfPeriod(e.at, step, n, zone);
    TruncatePeriod(e.at, step);
    var s := Slot(e.at, step, n, zone);
    OwnSlotRefreshed(ring[s], step, n, z, log, e);
    forall k | 0 <= k < n && k != s ensures SlotOk(ring[k], k, step, n, z, log + [e]) {
      OtherSlotKept(ring[k], k, step, n, z, log, e);
    }
  }

  /** What the history shows for a period. */
  ghost function Shown(ring: seq<Bucket>, step: int, n: nat, zone: int, p: int): Counts
    requires step > 0 && n > 0 && |ring| == n
  {
    var b := ring[Slot(p * step, step, n, zone)];
    if b.at == p * step then b.counts else ZERO
  }

  /** Reading a slot for a period within the last lap gives exactly what the log says. */
  lemma SlotReads(ring: seq<Bucket>, step: int, n: nat, zone: int, log: seq<Entry>, now: int, p: int)
    requires step > 0 && n > 0 && zone % step == 0 && |ring| == n
    requires Describes(ring, step, n, zone / step, log)
    requires forall i :: 0 <= i < |log| ==> log[i].at <= now
    requires Period(now, step) - n < p <= Period(now, step)
    ensures Shown(ring, step, n, zone, p) == Tally(log, step, p)
  {
    var z := zone / step;
    SlotOfPeriod(p * step, step, n, zone);
    PeriodStart(p, step);
    var s := Slot(p * step, step, n, zone);
    PeriodReads(ring[s], s, step, n, z, log, Period(now, step), p) by {
      forall i | 0 <= i < |log| ensures Period(log[i].at, step) <= Period(now, step) {
        DivMonotone(log[i].at, now, step);
      }
    }
  }

  lemma PeriodReads(b: Bucket, s: nat, step: int, n: nat, z: int, log: seq<Entry>, top: int, p: int)
    requires step > 0 && n > 0 && SlotOk(b, s, step, n, z, log) && (p + z) % n == s
    requires forall i :: 0 <= i < |log| ==> Period(log[i].at, step) <= top
    requires top - n < p <= top
    ensures (if b.at == p * step then b.counts else ZERO) == Tally(log, step, p)
  {
    hide Tally;
    if exists q :: HoldsPeriod(b, q, s, step, n, z, log) {
      var q :| HoldsPeriod(b, q, s, step, n, z, log);
      PeriodStart(q, step);
      PeriodStart(p, step);
      if p <= q {
        SameRem(q + z, p + z, n);
      } else {
        assert b.at != p * step;
        TallyAbsent(log, step, p);
      }
    } else {
      TallyAbsent(log, step, p);
    }
  }

  datatype Point = Point(at: int, counts: Counts)

  /** Unrolls a ring into oldest-to-newest points, empty periods included. */
  method Series(ring: seq<Bucket>, now: int, step: int, n: nat, zone: int) returns (out: seq<Point>)
    requires step > 0 && n > 0 && |ring| == n
    ensures |out| == n
    ensures forall k :: 0 <= k < n ==>
              var p := Period(now, step) - (n - 1 - k); out[k] == Point(p * step, Shown(ring, step, n, zone, p))
  {
    out := [];
    var newest := Truncate(now, step);
    TruncatePeriod(now, step);
    ghost var top := Period(now, step);
    var i := n - 1;
    while i >= 0
      invariant -1 <= i < n && |out| == n - 1 - i
      invariant forall k :: 0 <= k < |out| ==>
                  out[k] == Point((top - (n - 1 - k)) * step, Shown(ring, step, n, zone, top - (n - 1 - k)))
    {
      var at := newest - i * step;
      assert at == (top - i) * step by { assert (top - i) * step == top * step - i * step; }
      var b := ring[Slot(at, step, n, zone)];
      out := out + [Point(at, if b.at == at then b.counts else ZERO)];
      i := i - 1;
    }
  }

  // ---------------------------------------------------------------- which zones the history is right in

  ghost function FreshRing(n: nat): (r: seq<Bucket>)
    ensures |r| == n && forall i :: 0 <= i < n ==> r[i] == UNUSED
  {
    seq(n, i => UNUSED)
  }

  lemma FreshDescribes(ring: seq<Bucket>, step: int, n: nat, z: int)
    requires step > 0 && n > 0 && |ring| == n && forall i :: 0 <= i < n ==> ring[i] == UNUSED
    ensures Describes(ring, step, n, z, [])
  {
  }

  /** The ring after recording a log, one slot refreshed per record. */
  ghost function RingOf(log: seq<Entry>, step: int, n: nat, zone: int): (r: seq<Bucket>)
    requires step > 0 && n > 0
    ensures |r| == n
  {
    if log == [] then FreshRing(n)
    else
      var r, e := RingOf(log[..|log| - 1], step, n, zone), log[|log| - 1];
      var s := Slot(e.at, step, n, zone);
      r[s := Refresh(r[s], Truncate(e.at, step), e.rec)]
  }

  /** For one log and one period of the last lap, the history shows what the log says. */
  ghost predicate ExactFor(step: int, n: nat, zone: int, log: seq<Entry>, now: int, p: int)
    requires step > 0 && n > 0
  {
    Sorted(log) && (log != [] ==> log[|log| - 1].at <= now) && Period(now, step) - n < p <= Period(now, step)
    ==> Shown(RingOf(log, step, n, zone), step, n, zone, p) == Tally(log, step, p)
  }

  lemma {:induction false} RingDescribes(log: seq<Entry>, step: int, n: nat, zone: int)
    requires step > 0 && n > 0 && zone % step == 0 && Sorted(log)
    ensures Describes(RingOf(log, step, n, zone), step, n, zone / step, log)
    decreases |log|
  {
    if log != [] {
      var p, e := log[..|log| - 1], log[|log| - 1];
      RingDescribes(p, step, n, zone);
      assert log == p + [e];
      hide Describes;
      RecordKeepsDescribes(RingOf(p, step, n, zone), step, n, zone, p, e);
    }
  }

  /**
   A lone record is shown in its period, whichever that is, if and only if it falls before the point
   where the local period parts from the absolute one; after it, the record is filed where nobody
   looks.
   */
  lemma LoneRecordShown(step: int, n: nat, zone: int, t: int, r: Record)
    requires step > 0 && n >= 2
    ensures Shown(RingOf([Entry(t, r)], step, n, zone), step, n, zone, Period(t, step))
            == if t % step + zone % step < step then AddTo(ZERO, r) else ZERO
  {
    hide RingOf, Slot, Truncate;
    var q := t / step + zone / step;
    PeriodSlots(step, n, zone, t);
    TruncatePeriod(t, step);
    LoneSlot(Entry(t, r), step, n, zone);
    if t % step + zone % step >= step {
      assert Slot(t, step, n, zone) != q % n by { NextSlot(q, n); }
      SingleRecord(Entry(t, r), step, n, zone, q % n);
    }
  }

  /** The slot of a period's start, and of an instant in it: the same one, or the next. */
  lemma PeriodSlots(step: int, n: nat, zone: int, t: int)
    requires step > 0 && n > 0
    ensures var q := t / step + zone / step;
            && Slot(t / step * step, step, n, zone) == q % n
            && Slot(t, step, n, zone) == (if t % step + zone % step < step then q else q + 1) % n
  {
    var f, z, g, p := zone % step, zone / step, t % step, t / step;
    DivRem(zone, step);
    DivRem(t, step);
    var q := p + z;
    assert q * step == p * step + z * step && (q + 1) * step == q * step + step;
    RemOf(p * step + zone, q, f, step);
    if g + f < step {
      RemOf(t + zone, q, g + f, step);
    } else {
      RemOf(t + zone, q + 1, g + f - step, step);
    }
  }

  lemma NextSlot(q: int, n: nat)
    requires n >= 2
    ensures (q + 1) % n != q % n
  {
    if (q + 1) % n == q % n {
      SameRem(q + 1, q, n);
    }
  }

  lemma LoneSlot(e: Entry, step: int, n: nat, zone: int)
    requires step > 0 && n > 0
    ensures RingOf([e], step, n, zone)[Slot(e.at, step, n, zone)] == Bucket(Truncate(e.at, step), AddTo(ZERO, e.rec))
  {
    assert [e][..0] == [];
  }

  /** With any other offset, every period has instants whose record its history does not show. */
  lemma PartialOffsetMisfiles(step: int, n: nat, zone: int, r: Record, p: int)
    requires step > 0 && n >= 2 && zone % step != 0
    ensures var t := (p + 1) * step - zone % step;
            Period(t, step) == p && !ExactFor(step, n, zone, [Entry(t, r)], t, p)
  {
    hide RingOf, Shown;
    var f := zone % step;
    var t := (p + 1) * step - f;
    assert t == p * step + (step - f);
    RemOf(t, p, step - f, step);
    LoneRecordShown(step, n, zone, t, r);
    SingleRecord(Entry(t, r), step, n, zone, if Slot(t, step, n, zone) == 0 then 1 else 0);
  }

  lemma SingleRecord(e: Entry, step: int, n: nat, zone: int, k: nat)
    requires step > 0 && n > 0 && k < n && k != Slot(e.at, step, n, zone)
    ensures RingOf([e], step, n, zone)[k] == UNUSED
    ensures Tally([e], step, Period(e.at, step)) == AddTo(ZERO, e.rec)
  {
    assert [e][..0] == [];
  }

  /**
   The history agrees with the log in every run, for every period of the last lap, if and only if
   the zone's offset is a whole number of periods.  Whole hours do; half-hour zones lose part of
   each hour.
   */
  lemma HistoryExact(step: int, n: nat, zone: int)
    requires step > 0 && n >= 2
    ensures (forall log, now, p :: ExactFor(step, n, zone, log, now, p)) <==> zone % step == 0
  {
    hide ExactFor;
    if zone % step == 0 {
      forall log: seq<Entry>, now: int, p: int ensures ExactFor(step, n, zone, log, now, p) {
        WholeOffsetExact(step, n, zone, log, now, p);
      }
    } else {
      PartialOffsetMisfiles(step, n, zone, Record("", "", "", "", "", 0, false, false), 0);
    }
  }

  lemma WholeOffsetExact(step: int, n: nat, zone: int, log: seq<Entry>, now: int, p: int)
    requires step > 0 && n > 0 && zone % step == 0
    ensures ExactFor(step, n, zone, log, now, p)
  {
    hide Describes, Tally, RingOf;
    if Sorted(log) && (log != [] ==> log[|log| - 1].at <= now) && Period(now, step) - n < p <= Period(now, step) {
      RingDescribes(log, step, n, zone);
      SlotReads(RingOf(log, step, n, zone), step, n, zone, log, now, p);
    }
  }

  // ---------------------------------------------------------------- totals and tallies

  ghost function FailedCount(log: seq<Entry>): nat {
    if log == [] then 0 else FailedCount(log[..|log| - 1]) + One(log[|log| - 1].rec.failed)
  }

  /** A failed query counts as failed even if it also carries the fallback mark. */
  ghost function FallbackCount(log: seq<Entry>): nat {
    if log == [] then 0
    else
      var r := log[|log| - 1].rec;
      FallbackCount(log[..|log| - 1]) + One(r.fallback && !r.failed)
  }

  function RetriesOf(r: Record): nat { if r.attempts > 1 then r.attempts - 1 else 0 }

  ghost function RetryCount(log: seq<Entry>): nat {
    if log == [] then 0 else RetryCount(log[..|log| - 1]) + RetriesOf(log[|log| - 1].rec)
  }

  /**
   What the totals are: records that failed, records answered by a public server and not failed, and
   over all records the attempts beyond each one's first.
   */
  lemma {:induction false} TotalsCount(log: seq<Entry>)
    ensures FailedCount(log) == Times(log, (e: Entry) => e.rec.failed)
    ensures FallbackCount(log) == Times(log, (e: Entry) => e.rec.fallback && !e.rec.failed)
    ensures RetryCount(log) + Times(log, (e: Entry) => e.rec.attempts > 0) == Attempts(log)
    decreases |log|
  {
    var failed, fallback, tried := (e: Entry) => e.rec.failed, (e: Entry) => e.rec.fallback && !e.rec.failed,
                                   (e: Entry) => e.rec.attempts > 0;
    hide Times;
    if log == [] {
      TimesNone(failed);
      TimesNone(fallback);
      TimesNone(tried);
    } else {
      var p, e := log[..|log| - 1], log[|log| - 1];
      assert log == p + [e];
      TotalsCount(p);
      TimesSnoc(p, e, failed);
      TimesSnoc(p, e, fallback);
      TimesSnoc(p, e, tried);
    }
  }

  ghost function Attempts(log: seq<Entry>): nat {
    if log == [] then 0 else Attempts(log[..|log| - 1]) + log[|log| - 1].rec.attempts
  }

  ghost function Labels(log: seq<Entry>, pick: Record -> string): seq<string> {
    seq(|log|, i requires 0 <= i < |log| => pick(log[i].rec))
  }

  /** A label map counts the occurrences of each label, blank ones aside. */
  ghost predicate IsTally(m: map<string, nat>, labels: seq<string>) {
    forall k :: (k in m <==> k != "" && k in labels) && (k in m ==> m[k] == multiset(labels)[k])
  }

  function Bump(m: map<string, nat>, k: string): map<string, nat> {
    if k == "" then m else m[k := GetOr(m, k) + 1]
  }

  /** What a label map shows for a label: how many records carry it. */
  lemma {:induction false} LabelTimes(log: seq<Entry>, pick: Record -> string, k: string)
    ensures multiset(Labels(log, pick))[k] == Times(log, (e: Entry) => pick(e.rec) == k)
    decreases |log|
  {
    var own := (e: Entry) => pick(e.rec) == k;
    hide Times;
    if log == [] {
      TimesNone(own);
    } else {
      var p, e := log[..|log| - 1], log[|log| - 1];
      assert log == p + [e] && Labels(log, pick) == Labels(p, pick) + [pick(e.rec)];
      LabelTimes(p, pick, k);
      TimesSnoc(p, e, own);
    }
  }

  lemma BumpTallies(m: map<string, nat>, labels: seq<string>, k: string)
    requires IsTally(m, labels)
    ensures IsTally(Bump(m, k), labels + [k])
  {
    assert multiset(labels + [k]) == multiset(labels) + multiset{k};
    forall x ensures x in labels + [k] <==> x in labels || x == k {}
    if k !in m && k != "" {
      assert multiset(labels)[k] == 0;
    }
  }

  datatype NodeStat = NodeStat(queries: nat, retries: nat)

  ghost function NodeOf(recs: seq<Record>, name: string): NodeStat {
    if recs == [] then NodeStat(0, 0)
    else
      var s, r := NodeOf(recs[..|recs| - 1], name), recs[|recs| - 1];
      if r.upstream == name then NodeStat(s.queries + 1, s.retries + RetriesOf(r)) else s
  }

  /** What a node's counters are: the records under its name, and their attempts beyond the first. */
  lemma {:induction false} NodeCounts(recs: seq<Record>, name: string)
    ensures NodeOf(recs, name).queries == Times(recs, (r: Record) => r.upstream == name)
    ensures NodeOf(recs, name).retries + Times(recs, (r: Record) => r.upstream == name && r.attempts > 0)
            == AttemptsUnder(recs, name)
    decreases |recs|
  {
    var own, tried := (r: Record) => r.upstream == name, (r: Record) => r.upstream == name && r.attempts > 0;
    hide Times;
    if recs == [] {
      TimesNone(own);
      TimesNone(tried);
    } else {
      var p, r := recs[..|recs| - 1], recs[|recs| - 1];
      assert recs == p + [r];
      NodeCounts(p, name);
      TimesSnoc(p, r, own);
      TimesSnoc(p, r, tried);
    }
  }

  ghost function AttemptsUnder(recs: seq<Record>, name: string): nat {
    if recs == [] then 0
    else
      var r := recs[|recs| - 1];
      AttemptsUnder(recs[..|recs| - 1], name) + if r.upstream == name then r.attempts else 0
  }

  ghost predicate Answers(recs: seq<Record>, name: string) {
    exists i :: 0 <= i < |recs| && recs[i].upstream == name
  }

  /** Each Pi-hole that answered has its own counters. */
  ghost predicate NodesOk(m: map<string, NodeStat>, recs: seq<Record>) {
    forall k :: (k in m <==> k != "" && Answers(recs, k)) && (k in m ==> m[k] == NodeOf(recs, k))
  }

  function BumpNode(m: map<string, NodeStat>, r: Record): map<string, NodeStat> {
    if r.upstream == "" then m
    else
      var s := if r.upstream in m then m[r.upstream] else NodeStat(0, 0);
      m[r.upstream := NodeStat(s.queries + 1, s.retries + RetriesOf(r))]
  }

  lemma {:induction false} SilentNode(recs: seq<Record>, name: string)
    requires !Answers(recs, name)
    ensures NodeOf(recs, name) == NodeStat(0, 0)
    decreases |recs|
  {
    if recs != [] {
      var p := recs[..|recs| - 1];
      assert forall i :: 0 <= i < |p| ==> p[i] == recs[i];
      SilentNode(p, name);
    }
  }

  lemma AnswersSnoc(recs: seq<Record>, r: Record, k: string)
    ensures Answers(recs + [r], k) <==> Answers(recs, k) || r.upstream == k
  {
    var l := recs + [r];
    assert l[|recs|] == r && forall i :: 0 <= i < |recs| ==> l[i] == recs[i];
    if Answers(recs, k) {
      var i :| 0 <= i < |recs| && recs[i].upstream == k;
      assert l[i].upstream == k;
    }
  }

  lemma BumpNodes(m: map<string, NodeStat>, recs: seq<Record>, r: Record)
    requires NodesOk(m, recs)
    ensures NodesOk(BumpNode(m, r), recs + [r])
  {
    var l := recs + [r];
    assert l[..|recs|] == recs;
    forall k
      ensures k in BumpNode(m, r) <==> k != "" && Answers(l, k)
      ensures k in BumpNode(m, r) ==> BumpNode(m, r)[k] == NodeOf(l, k)
    {
      AnswersSnoc(recs, r, k);
      if k == r.upstream && k !in m && k != "" {
        SilentNode(recs, k);
      }
    }
  }

  /** The records that are not about one upstream. */
  ghost function NotOf(recs: seq<Record>, name: string): seq<Record> {
    if recs == [] then []
    else
      var p, r := NotOf(recs[..|recs| - 1], name), recs[|recs| - 1];
      if r.upstream == name then p else p + [r]
  }

  lemma {:induction false} ForgetOne(recs: seq<Record>, name: string, k: string)
    ensures Answers(NotOf(recs, name), k) <==> k != name && Answers(recs, k)
    ensures k != name ==> NodeOf(NotOf(recs, name), k) == NodeOf(recs, k)
    decreases |recs|
  {
    if recs != [] {
      var p, r := recs[..|recs| - 1], recs[|recs| - 1];
      ForgetOne(p, name, k);
      assert recs == p + [r];
      AnswersSnoc(p, r, k);
      AnswersSnoc(NotOf(p, name), r, k);
      assert (NotOf(p, name) + [r])[..|NotOf(p, name)|] == NotOf(p, name);
    }
  }

  lemma ForgetNodes(m: map<string, NodeStat>, recs: seq<Record>, name: string)
    requires NodesOk(m, recs)
    ensures NodesOk(m - {name}, NotOf(recs, name))
  {
    forall k
      ensures k in m - {name} <==> k != "" && Answers(NotOf(recs, name), k)
      ensures k in m - {name} ==> (m - {name})[k] == NodeOf(NotOf(recs, name), k)
    {
      ForgetOne(recs, name, k);
    }
  }

  const PROTO: Record -> string := (r: Record) => r.proto
  const QTYPE: Record -> string := (r: Record) => r.qtype
  const RCODE: Record -> string := (r: Record) => r.rcode

  ghost predicate TotalsOk(total: nat, fallback: nat, failed: nat, retried: nat, log: seq<Entry>) {
    total == |log| && fallback == FallbackCount(log) && failed == FailedCount(log) && retried == RetryCount(log)
  }

  lemma TotalsSnoc(total: nat, fallback: nat, failed: nat, retried: nat, log: seq<Entry>, e: Entry)
    requires TotalsOk(total, fallback, failed, retried, log)
    ensures TotalsOk(total + 1, fallback + One(e.rec.fallback && !e.rec.failed), failed + One(e.rec.failed),
                     retried + RetriesOf(e.rec), log + [e])
  {
    assert (log + [e])[..|log|] == log;
  }

  lemma TallySnoc(m: map<string, nat>, log: seq<Entry>, pick: Record -> string, e: Entry)
    requires IsTally(m, Labels(log, pick))
    ensures IsTally(Bump(m, pick(e.rec)), Labels(log + [e], pick))
  {
    BumpTallies(m, Labels(log, pick), pick(e.rec));
    assert Labels(log + [e], pick) == Labels(log, pick) + [pick(e.rec)];
  }

  lemma NothingTallied()
    ensures TotalsOk(0, 0, 0, 0, []) && NodesOk(map[], [])
    ensures forall pick: Record -> string :: IsTally(map[], Labels([], pick))
  {
  }

  // ---------------------------------------------------------------- the collector

  class Collector {
    const zone: int
    var total: nat
    var fallback: nat
    var failed: nat
    var retried: nat
    var byProto: map<string, nat>
    var byQType: map<string, nat>
    var byRCode: map<string, nat>
    var byUpstream: map<string, NodeStat>
    const minutes: array<Bucket>
    const hours: array<Bucket>

    /** Everything recorded since the last reset, and the part of it not forgotten per node. */
    ghost var log: seq<Entry>
    ghost var nodeLog: seq<Record>

    ghost predicate HistoryOk()
      reads this`log, minutes, hours
    {
      && minutes.Length == 60 && hours.Length == 24 && minutes != hours
      && Sorted(log)
      && (zone % MINUTE == 0 ==> Describes(minutes[..], MINUTE, 60, zone / MINUTE, log))
      && (zone % HOUR == 0 ==> Describes(hours[..], HOUR, 24, zone / HOUR, log))
    }

    ghost predicate Valid()
      reads this, minutes, hours
    {
      && HistoryOk()
      && TotalsOk(total, fallback, failed, retried, log)
      && IsTally(byProto, Labels(log, PROTO)) && IsTally(byQType, Labels(log, QTYPE))
      && IsTally(byRCode, Labels(log, RCODE))
      && NodesOk(byUpstream, nodeLog)
    }

    /** The clock has not run backwards since the last record. */
    ghost predicate NotBefore(now: int)
      reads this`log
    {
      log != [] ==> log[|log| - 1].at <= now
    }

    constructor (zone: int)
      ensures Valid() && log == [] && nodeLog == [] && this.zone == zone && fresh(minutes) && fresh(hours)
    {
      this.zone := zone;
      total, fallback, failed, retried := 0, 0, 0, 0;
      byProto, byQType, byRCode, byUpstream := map[], map[], map[], map[];
      minutes := new Bucket[60](i => UNUSED);
      hours := new Bucket[24](i => UNUSED);
      log, nodeLog := [], [];
    }

    /** Adds one query to the tally and to both histories. */
    method Record(now: int, r: Record)
      requires Valid() && NotBefore(now)
      modifies this, minutes, hours
      ensures Valid() && log == old(log) + [Entry(now, r)] && nodeLog == old(nodeLog) + [r]
    {
      hide TotalsOk, IsTally, NodesOk, Labels, HistoryOk, Describes, BumpNode;
      ghost var e := Entry(now, r);
      TotalsSnoc(total, fallback, failed, retried, log, e);
      TallySnoc(byProto, log, PROTO, e);
      TallySnoc(byQType, log, QTYPE, e);
      TallySnoc(byRCode, log, RCODE, e);
      BumpNodes(byUpstream, nodeLog, r);
      Count(r);
      AddHistory(now, r);
      nodeLog := nodeLog + [r];
    }

    /** The plain counters. */
    method Count(r: Record)
      modifies this`total, this`retried, this`failed, this`fallback
      modifies this`byProto, this`byQType, this`byRCode, this`byUpstream
      ensures total == old(total) + 1 && retried == old(retried) + RetriesOf(r)
      ensures failed == old(failed) + One(r.failed) && fallback == old(fallback) + One(r.fallback && !r.failed)
      ensures byProto == Bump(old(byProto), r.proto) && byQType == Bump(old(byQType), r.qtype)
      ensures byRCode == Bump(old(byRCode), r.rcode)
      ensures byUpstream == BumpNode(old(byUpstream), r)
    {
      total := total + 1;
      byProto := Bump(byProto, r.proto);
      byQType := Bump(byQType, r.qtype);
      byRCode := Bump(byRCode, r.rcode);
      if r.attempts > 1 {
        retried := retried + (r.attempts - 1);
      }
      if r.failed {
        failed := failed + 1;
      } else if r.fallback {
        fallback := fallback + 1;
      }
      byUpstream := BumpNode(byUpstream, r);
    }

    /** Files the record under its local minute and its local hour. */
    method AddHistory(now: int, r: Record)
      requires HistoryOk() && NotBefore(now)
      modifies this`log, minutes, hours
      ensures HistoryOk() && log == old(log) + [Entry(now, r)]
    {
      ghost var e := Entry(now, r);
      hide Describes;
      if zone % MINUTE == 0 {
        RecordKeepsDescribes(minutes[..], MINUTE, 60, zone, log, e);
      }
      if zone % HOUR == 0 {
        RecordKeepsDescribes(hours[..], HOUR, 24, zone, log, e);
      }
      AddToBucket(minutes, Slot(now, MINUTE, 60, zone), Truncate(now, MINUTE), r);
      AddToBucket(hours, Slot(now, HOUR, 24, zone), Truncate(now, HOUR), r);
      log := log + [e];
    }

    /** Adds to a slot in place, clearing it first when it belongs to an older period. */
    static method AddToBucket(ring: array<Bucket>, slot: nat, start: int, r: Record)
      requires slot < ring.Length
      modifies ring
      ensures ring[..] == old(ring[..])[slot := Refresh(old(ring[slot]), start, r)]
    {
      if ring[slot].at != start {
        ring[slot] := Bucket(start, ZERO);
      }
      ring[slot] := Bucket(start, AddTo(ring[slot].counts, r));
    }

    /** Drops a removed Pi-hole's counters. */
    method ForgetUpstream(name: string)
      requires Valid()
      modifies this`byUpstream, this`nodeLog
      ensures Valid() && nodeLog == NotOf(old(nodeLog), name)
      ensures byUpstream == old(byUpstream) - {name}
    {
      hide TotalsOk, IsTally, NodesOk, HistoryOk;
      ForgetNodes(byUpstream, nodeLog, name);
      byUpstream := byUpstream - {name};
      nodeLog := NotOf(nodeLog, name);
    }

    static method ClearRing(ring: array<Bucket>)
      modifies ring
      ensures forall i :: 0 <= i < ring.Length ==> ring[..][i] == UNUSED
    {
      forall i | 0 <= i < ring.Length {
        ring[i] := UNUSED;
      }
    }

    method ClearHistory()
      requires log == [] && minutes.Length == 60 && hours.Length == 24 && minutes != hours
      modifies minutes, hours
      ensures HistoryOk()
    {
      ClearRing(minutes);
      ClearRing(hours);
      FreshDescribes(minutes[..], MINUTE, 60, zone / MINUTE);
      FreshDescribes(hours[..], HOUR, 24, zone / HOUR);
    }

    /** Clears every counter and the history. */
    method Reset()
      requires Valid()
      modifies this, minutes, hours
      ensures Valid() && log == [] && nodeLog == []
    {
      hide Describes, IsTally, NodesOk, TotalsOk, Labels;
      assert minutes.Length == 60 && hours.Length == 24 && minutes != hours;
      hide HistoryOk;
      total, fallback, failed, retried := 0, 0, 0, 0;
      byProto, byQType, byRCode, byUpstream := map[], map[], map[], map[];
      log, nodeLog := [], [];
      ClearHistory();
      NothingTallied();
    }

    /**
     The last hour by the minute and the last day by the hour: each point is what the log says about
     its period, in zones whose offset is a whole number of minutes, respectively hours.
     */
    method History(now: int) returns (lastHour: seq<Point>, lastDay: seq<Point>)
      requires Valid() && NotBefore(now)
      ensures |lastHour| == 60 && |lastDay| == 24
      ensures zone % MINUTE == 0 ==> forall k :: 0 <= k < 60 ==>
                var p := Period(now, MINUTE) - (59 - k); lastHour[k] == Point(p * MINUTE, Tally(log, MINUTE, p))
      ensures zone % HOUR == 0 ==> forall k :: 0 <= k < 24 ==>
                var p := Period(now, HOUR) - (23 - k); lastDay[k] == Point(p * HOUR, Tally(log, HOUR, p))
    {
      hide TotalsOk, IsTally, NodesOk, Labels, Describes, Tally, Shown;
      lastHour := Series(minutes[..], now, MINUTE, 60, zone);
      lastDay := Series(hours[..], now, HOUR, 24, zone);
      if zone % MINUTE == 0 {
        forall k | 0 <= k < 60
          ensures var p := Period(now, MINUTE) - (59 - k); lastHour[k] == Point(p * MINUTE, Tally(log, MINUTE, p))
        {
          SlotReads(minutes[..], MINUTE, 60, zone, log, now, Period(now, MINUTE) - (59 - k));
        }
      }
      if zone % HOUR == 0 {
        forall k | 0 <= k < 24
          ensures var p := Period(now, HOUR) - (23 - k); lastDay[k] == Point(p * HOUR, Tally(log, HOUR, p))
        {
          SlotReads(hours[..], HOUR, 24, zone, log, now, Period(now, HOUR) - (23 - k));
        }
      }
    }
  }

  /** The label maps of a collector count, for each label, the records with that protocol, type and code. */
  lemma LabelsCounted(c: Collector, k: string)
    requires c.Valid() && k != ""
    ensures GetOr(c.byProto, k) == Times(c.log, (e: Entry) => e.rec.proto == k)
    ensures GetOr(c.byQType, k) == Times(c.log, (e: Entry) => e.rec.qtype == k)
    ensures GetOr(c.byRCode, k) == Times(c.log, (e: Entry) => e.rec.rcode == k)
  {
    hide Times, TotalsOk, NodesOk, Describes, IsTally, GetOr;
    LabelShown(c.byProto, c.log, PROTO, k);
    LabelShown(c.byQType, c.log, QTYPE, k);
    LabelShown(c.byRCode, c.log, RCODE, k);
    TimesSame(c.log, (e: Entry) => PROTO(e.rec) == k, (e: Entry) => e.rec.proto == k);
    TimesSame(c.log, (e: Entry) => QTYPE(e.rec) == k, (e: Entry) => e.rec.qtype == k);
    TimesSame(c.log, (e: Entry) => RCODE(e.rec) == k, (e: Entry) => e.rec.rcode == k);
  }

  lemma LabelShown(m: map<string, nat>, log: seq<Entry>, pick: Record -> string, k: string)
    requires IsTally(m, Labels(log, pick)) && k != ""
    ensures GetOr(m, k) == Times(log, (e: Entry) => pick(e.rec) == k)
  {
    LabelTimes(log, pick, k);
    hide Times;
    if k !in m {
      assert k !in multiset(Labels(log, pick));
    }
  }
}
