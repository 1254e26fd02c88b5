/** Small shared vocabulary: optional values, results, sums and counting over finite collections. */
module Basics {

  datatype Option<+T> = None | Some(value: T)

  datatype Result<+T, +E> = Ok(value: T) | Err(error: E)

  ghost predicate NoDup<T>(s: seq<T>) {
    forall i, j :: 0 <= i < j < |s| ==> s[i] != s[j]
  }

  /** Finds the head of one sequence in a permutation of it; the remainders are permutations too. */
  lemma PullHead<T>(a: seq<T>, b: seq<T>) returns (k: nat)
    requires multiset(a) == multiset(b) && a != []
    ensures k < |b| && b[k] == a[0]
    ensures b == b[..k] + ([a[0]] + b[k + 1..])
    ensures multiset(a[1..]) == multiset(b[..k] + b[k + 1..])
  {
    var x := a[0];
    assert x in multiset(b);
    k :| 0 <= k < |b| && b[k] == x;
    var p, q := b[..k], b[k + 1..];
    assert b == p + ([x] + q) && a == [x] + a[1..];
    assert multiset(a) == multiset{x} + multiset(a[1..]);
    SplitBag(p, x, q);
    Cancel(x, multiset(a[1..]), multiset(p + q));
  }

  lemma SplitBag<T>(p: seq<T>, x: T, q: seq<T>)
    ensures multiset(p + ([x] + q)) == multiset{x} + multiset(p + q)
  {
  }

  lemma Cancel<T>(x: T, a: multiset<T>, b: multiset<T>)
    requires multiset{x} + a == multiset{x} + b
    ensures a == b
  {
    assert a == multiset{x} + a - multiset{x};
    assert b == multiset{x} + b - multiset{x};
  }

  // ---------------------------------------------------------------- counting positions

  /** The whole numbers from a up to, not including, b. */
  ghost function Interval(a: int, b: int): (r: set<int>)
    requires a <= b
    ensures forall n :: n in r <==> a <= n < b
    ensures |r| == b - a
    decreases b - a
  {
    if a == b then {} else Interval(a, b - 1) + {b - 1}
  }

  /** How many positions of s hold an element with the property. */
  ghost function Times<T>(s: seq<T>, p: T -> bool): nat {
    |set i | 0 <= i < |s| && p(s[i])|
  }

  lemma TimesNone<T>(p: T -> bool)
    ensures Times([], p) == 0
  {
    var s: seq<T> := [];
    assert (set i | 0 <= i < |s| && p(s[i])) == {};
  }

  lemma TimesSnoc<T>(s: seq<T>, x: T, p: T -> bool)
    ensures Times(s + [x], p) == Times(s, p) + if p(x) then 1 else 0
  {
    var l := s + [x];
    var before, now := set i | 0 <= i < |s| && p(s[i]), set i | 0 <= i < |l| && p(l[i]);
    assert forall i :: 0 <= i < |s| ==> l[i] == s[i];
    if p(x) {
      assert now == before + {|s|};
    } else {
      assert now == before;
    }
  }

  lemma {:induction false} TimesSame<T>(s: seq<T>, p: T -> bool, q: T -> bool)
    requires forall x :: p(x) == q(x)
    ensures Times(s, p) == Times(s, q)
    decreases |s|
  {
    hide Times;
    if s == [] {
      TimesNone(p);
      TimesNone(q);
    } else {
      var t, x := s[..|s| - 1], s[|s| - 1];
      assert s == t + [x];
      TimesSame(t, p, q);
      TimesSnoc(t, x, p);
      TimesSnoc(t, x, q);
    }
  }

  // ---------------------------------------------------------------- filtering by a set

  ghost function Elements<T>(s: seq<T>): set<T> {
    set i | 0 <= i < |s| :: s[i]
  }

  /** The elements of s that lie in k, in order. */
  ghost function Keep<T>(s: seq<T>, k: set<T>): (r: seq<T>)
    ensures forall x :: x in r ==> x in s && x in k
  {
    if s == [] then []
    else
      var r := Keep(s[..|s| - 1], k);
      if s[|s| - 1] in k then r + [s[|s| - 1]] else r
  }

  /** The elements of s that do not lie in k, in order. */
  ghost function Drop<T>(s: seq<T>, k: set<T>): (r: seq<T>)
    ensures forall x :: x in r ==> x in s && x !in k
  {
    if s == [] then []
    else
      var r := Drop(s[..|s| - 1], k);
      if s[|s| - 1] in k then r else r + [s[|s| - 1]]
  }

  lemma KeepDropSnoc<T>(s: seq<T>, x: T, k: set<T>)
    ensures Keep(s + [x], k) == if x in k then Keep(s, k) + [x] else Keep(s, k)
    ensures Drop(s + [x], k) == if x in k then Drop(s, k) else Drop(s, k) + [x]
  {
    assert (s + [x])[..|s|] == s;
  }

  /** The positions at are exactly those of s whose element lies in k, increasing, and r is what stands there. */
  ghost predicate Picks<T>(at: seq<nat>, s: seq<T>, k: set<T>, r: seq<T>) {
    && |at| == |r|
    && (forall i :: 0 <= i < |at| ==> at[i] < |s| && r[i] == s[at[i]])
    && (forall i, j :: 0 <= i < j < |at| ==> at[i] < at[j])
    && (forall i :: 0 <= i < |s| && s[i] in k ==> i in at)
  }

  lemma PicksSnoc<T>(at: seq<nat>, s: seq<T>, k: set<T>, r: seq<T>, x: T)
    requires Picks(at, s, k, r)
    ensures x in k ==> Picks(at + [|s|], s + [x], k, r + [x])
    ensures x !in k ==> Picks(at, s + [x], k, r)
  {
    var l, n := s + [x], |s|;
    assert l[n] == x && forall i :: 0 <= i < n ==> l[i] == s[i];
    if x in k {
      var more := at + [n];
      assert more[|at|] == n;
      forall i | 0 <= i < |l| && l[i] in k ensures i in more {
        if i < n {
          assert s[i] in k && i in at;
        }
      }
    }
  }

  /** Keeping keeps the order. */
  lemma {:induction false} KeepInOrder<T>(s: seq<T>, k: set<T>) returns (at: seq<nat>)
    ensures Picks(at, s, k, Keep(s, k))
    decreases |s|
  {
    at := [];
    if s == [] {
      NothingKept(k);
    } else {
      hide Keep, Picks;
      var n := |s| - 1;
      var p, x := s[..n], s[n];
      assert s == p + [x];
      at := KeepInOrder(p, k);
      PicksSnoc(at, p, k, Keep(p, k), x);
      KeepDropSnoc(p, x, k);
      if x in k {
        at := at + [n];
      }
    }
  }

  lemma NothingKept<T>(k: set<T>)
    ensures Picks([], [], k, Keep([], k))
  {
  }

  /** What is kept first is the first element that lies in k. */
  lemma KeepFirst<T>(s: seq<T>, k: set<T>, i: nat)
    requires i < |s| && s[i] in k && forall j :: 0 <= j < i ==> s[j] !in k
    ensures Keep(s, k) != [] && Keep(s, k)[0] == s[i]
  {
    var at := KeepInOrder(s, k);
    var m :| 0 <= m < |at| && at[m] == i;
    assert at[0] <= at[m] && Keep(s, k)[0] in Keep(s, k) && s[at[0]] in k;
  }

  lemma {:induction false} KeepOrDrop<T>(s: seq<T>, k: set<T>)
    ensures multiset(Keep(s, k)) + multiset(Drop(s, k)) == multiset(s)
    decreases |s|
  {
    if s != [] {
      var p, x := s[..|s| - 1], s[|s| - 1];
      assert s == p + [x];
      KeepOrDrop(p, k);
    }
  }

  lemma {:induction false} DropConcat<T>(a: seq<T>, b: seq<T>, k: set<T>)
    ensures Drop(a + b, k) == Drop(a, k) + Drop(b, k)
    decreases |b|
  {
    hide Drop;
    if b == [] {
      assert a + b == a;
      DropNone(b, k);
    } else {
      var p, x := b[..|b| - 1], b[|b| - 1];
      assert a + b == a + p + [x] && b == p + [x];
      DropConcat(a, p, k);
      KeepDropSnoc(a + p, x, k);
      KeepDropSnoc(p, x, k);
    }
  }

  lemma {:induction false} DropNone<T>(s: seq<T>, k: set<T>)
    requires forall x :: x in s ==> x !in k
    ensures Drop(s, k) == s
    decreases |s|
  {
    if s != [] {
      var p := s[..|s| - 1];
      DropNone(p, k);
      assert s == p + [s[|s| - 1]] && s[|s| - 1] in s;
    }
  }

  lemma {:induction false} KeepNone<T>(s: seq<T>, k: set<T>)
    requires forall x :: x in s ==> x !in k
    ensures Keep(s, k) == []
    decreases |s|
  {
    if s != [] {
      KeepNone(s[..|s| - 1], k);
      assert s[|s| - 1] in s;
    }
  }

  lemma {:induction false} DropAll<T>(s: seq<T>, k: set<T>)
    requires forall x :: x in s ==> x in k
    ensures Drop(s, k) == []
    decreases |s|
  {
    if s != [] {
      DropAll(s[..|s| - 1], k);
      assert s[|s| - 1] in s;
    }
  }

  /** Splitting off one kept element of a duplicate-free list. */
  lemma {:induction false} KeepSplit<T>(s: seq<T>, k: set<T>, a: T)
    requires NoDup(s) && a in s && a in k
    ensures multiset(Keep(s, k)) == multiset{a} + multiset(Keep(s, k - {a}))
    decreases |s|
  {
    var p, x := s[..|s| - 1], s[|s| - 1];
    if x == a {
      assert a !in p;
      KeepSame(p, k, a);
    } else {
      assert a in p;
      KeepSplit(p, k, a);
    }
  }

  lemma {:induction false} KeepSame<T>(s: seq<T>, k: set<T>, a: T)
    requires a !in s
    ensures Keep(s, k - {a}) == Keep(s, k)
    decreases |s|
  {
    if s != [] {
      var x := s[|s| - 1];
      assert x in s && x != a;
      KeepSame(s[..|s| - 1], k, a);
    }
  }

  /** A duplicate-free list stays so under permutation. */
  lemma NoDupBag<T>(s: seq<T>)
    ensures NoDup(s) <==> forall x :: x in s ==> multiset(s)[x] == 1
  {
    if s != [] {
      var p, x := s[..|s| - 1], s[|s| - 1];
      assert s == p + [x];
      NoDupBag(p);
      assert multiset(s) == multiset(p) + multiset{x};
      if NoDup(s) {
        assert x !in p;
        forall y | y in s ensures multiset(s)[y] == 1 {
          assert y in p || y == x;
        }
      }
      if forall y :: y in s ==> multiset(s)[y] == 1 {
        forall y | y in p ensures multiset(p)[y] == 1 {
          assert y in s;
          assert multiset(p)[y] >= 1;
        }
        assert x in s && multiset(p)[x] == 0;
        forall i, j | 0 <= i < j < |s| ensures s[i] != s[j] {
          if j == |s| - 1 {
            assert s[i] in p;
          } else {
            assert p[i] != p[j];
          }
        }
      }
    }
  }

  ghost function Sum(s: seq<int>): int {
    if s == [] then 0 else Sum(s[..|s| - 1]) + s[|s| - 1]
  }

  /** Total of the counters in a label map. */
  ghost function MapSum(m: map<string, nat>): nat {
    if m == map[] then 0
    else
      var k :| k in m;
      m[k] + MapSum(m - {k})
  }

  /** The total does not depend on the order in which the labels are visited. */
  lemma {:induction false} MapSumPick(m: map<string, nat>, k: string)
    requires k in m
    ensures MapSum(m) == m[k] + MapSum(m - {k})
    decreases |m|
  {
    var c :| c in m && MapSum(m) == m[c] + MapSum(m - {c});
    if c != k {
      MapSumPick(m - {c}, k);
      MapSumPick(m - {k}, c);
      assert m - {c} - {k} == m - {k} - {c};
    }
  }

  function GetOr(m: map<string, nat>, k: string): nat {
    if k in m then m[k] else 0
  }

  /** Incrementing one label raises the total by one. */
  lemma MapSumBump(m: map<string, nat>, k: string)
    ensures MapSum(m[k := GetOr(m, k) + 1]) == MapSum(m) + 1
  {
    var m' := m[k := GetOr(m, k) + 1];
    MapSumPick(m', k);
    assert m' - {k} == m - {k};
    if k in m {
      MapSumPick(m, k);
    } else {
      assert m - {k} == m;
    }
  }

  /** Decimal digits of a natural number, as formatted by the %d verb. */
  function Decimal(n: nat): string {
    if n < 10 then [DIGITS[n]] else Decimal(n / 10) + [DIGITS[n % 10]]
  }

  const DIGITS: string := "0123456789"

  function DigitValue(c: char): int {
    c as int - '0' as int
  }

  /** The number a string of digits stands for. */
  function ValueOf(s: string): int {
    if s == "" then 0 else ValueOf(s[..|s| - 1]) * 10 + DigitValue(s[|s| - 1])
  }

  /** A formatted number stands for itself, in digits only, so different numbers never look alike. */
  lemma {:induction false} DecimalReads(n: nat)
    ensures ValueOf(Decimal(n)) == n
    ensures forall i :: 0 <= i < |Decimal(n)| ==> '0' <= Decimal(n)[i] <= '9'
    decreases n
  {
    assert forall d :: 0 <= d < 10 ==> DigitValue(DIGITS[d]) == d && '0' <= DIGITS[d] <= '9';
    if n < 10 {
      assert Decimal(n)[..0] == "";
    } else {
      DecimalReads(n / 10);
      var p := Decimal(n / 10);
      assert (p + [DIGITS[n % 10]])[..|p|] == p;
    }
  }
}
