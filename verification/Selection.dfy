/**
 The orderings a pool can put its healthy upstreams in: rotation, weighted draw, stable sort by
 latency, and the shuffles in between.  Randomness is an arbitrary stream of numbers, so whatever
 is proved here holds for every sequence of draws.
 */
module Selection {
  import opened Arith
  import opened Basics

  /** The number below n drawn at a position of the stream. */
  function DrawAt(stream: nat -> nat, pos: nat, n: nat): (k: nat)
    requires n > 0
    ensures k < n
  {
    stream(pos) % n
  }

  /** Where a stream stands. */
  datatype Dice = Dice(stream: nat -> nat, pos: nat) {
    ghost function Later(n: nat): Dice { this.(pos := pos + n) }
  }

  /** An arbitrary source of draws; every sequence of in-range draws is some stream. */
  class Rand {
    const stream: nat -> nat
    var pos: nat

    constructor (stream: nat -> nat)
      ensures pos == 0 && this.stream == stream
    {
      this.stream := stream;
      pos := 0;
    }

    ghost function Now(): Dice
      reads this`pos
    {
      Dice(stream, pos)
    }

    method IntN(n: nat) returns (k: nat)
      requires n > 0
      modifies this`pos
      ensures k == DrawAt(stream, old(pos), n) && pos == old(pos) + 1
    {
      k := DrawAt(stream, pos, n);
      pos := pos + 1;
    }
  }

  // ---------------------------------------------------------------- shuffle

  function Swapped<T>(s: seq<T>, i: nat, j: nat): (r: seq<T>)
    requires i < |s| && j < |s|
    ensures |r| == |s|
  {
    s[i := s[j]][j := s[i]]
  }

  /** One draw for each position from the last down to the second, each below the positions left. */
  ghost predicate InRange(draws: seq<nat>, n: nat) {
    |draws| == ShuffleDraws(n) && forall k :: 0 <= k < |draws| ==> draws[k] < n - k
  }

  /** How many numbers a shuffle of n elements takes. */
  function ShuffleDraws(n: nat): nat { if n == 0 then 0 else n - 1 }

  /** The shuffle these draws lead to: the first one fills the last position, and so on down. */
  ghost function Shuffled<T>(s: seq<T>, draws: seq<nat>): (r: seq<T>)
    requires InRange(draws, |s|)
    ensures |r| == |s|
    decreases |s|
  {
    if |s| <= 1 then s
    else
      var n := |s| - 1;
      var t := Swapped(s, n, draws[0]);
      Shuffled(t[..n], draws[1..]) + [t[n]]
  }

  /** The draws a stream supplies for n elements from a position on. */
  ghost function DrawsFrom(stream: nat -> nat, pos: nat, n: nat): (draws: seq<nat>)
    ensures InRange(draws, n)
    decreases n
  {
    if n <= 1 then [] else [DrawAt(stream, pos, n)] + DrawsFrom(stream, pos + 1, n - 1)
  }

  /** The shuffle that the dice at hand lead to. */
  ghost function Mixed<T>(s: seq<T>, dice: Dice): (r: seq<T>)
    ensures |r| == |s|
  {
    Shuffled(s, DrawsFrom(dice.stream, dice.pos, |s|))
  }

  /** Swap-based shuffle, from the last position down. */
  method Shuffle<T>(s: seq<T>, rng: Rand) returns (r: seq<T>)
    modifies rng`pos
    ensures multiset(r) == multiset(s)
    ensures r == Mixed(s, old(rng.Now())) && rng.Now() == old(rng.Now()).Later(ShuffleDraws(|s|))
  {
    ShufflePermutes(s, DrawsFrom(rng.stream, rng.pos, |s|));
    r := Deal(s, rng);
  }

  method Deal<T>(s: seq<T>, rng: Rand) returns (r: seq<T>)
    modifies rng`pos
    ensures r == Shuffled(s, DrawsFrom(rng.stream, old(rng.pos), |s|))
    ensures rng.pos == old(rng.pos) + ShuffleDraws(|s|)
  {
    r := s;
    var n: nat := |s|;
    ghost var stream, start := rng.stream, rng.pos;
    NothingDone(s, stream, start);
    hide Shuffled, DrawsFrom, Remaining, DrawAt, InRange, Swapped;
    while n > 1
      invariant |r| == |s| && n <= |s|
      invariant rng.pos == start + ShuffleDraws(|s|) - ShuffleDraws(n)
      invariant Remaining(r, n, stream, rng.pos) == Shuffled(s, DrawsFrom(stream, start, |s|))
    {
      var i := n - 1;
      var j := rng.IntN(n);
      ShuffleStep(r, i, stream, rng.pos - 1, j);
      r := Swapped(r, i, j);
      n := i;
    }
    ShuffleEnds(r, n, stream, rng.pos);
  }

  /** What is still to come of a shuffle that has dealt with all but the first n positions. */
  ghost function Remaining<T>(r: seq<T>, n: nat, stream: nat -> nat, pos: nat): seq<T>
    requires n <= |r|
  {
    Shuffled(r[..n], DrawsFrom(stream, pos, n)) + r[n..]
  }

  lemma NothingDone<T>(s: seq<T>, stream: nat -> nat, pos: nat)
    ensures Remaining(s, |s|, stream, pos) == Shuffled(s, DrawsFrom(stream, pos, |s|))
  {
    assert s[..|s|] == s;
  }

  lemma ShuffleStep<T>(s: seq<T>, i: nat, stream: nat -> nat, pos: nat, j: nat)
    requires 0 < i < |s| && j == DrawAt(stream, pos, i + 1)
    ensures Remaining(Swapped(s, i, j), i, stream, pos + 1) == Remaining(s, i + 1, stream, pos)
  {
    var r, p, draws := Swapped(s, i, j), s[..i + 1], DrawsFrom(stream, pos, i + 1);
    var rest := DrawsFrom(stream, pos + 1, i);
    assert draws[0] == j && draws[1..] == rest;
    var t := Swapped(p, i, j);
    assert t[..i] == r[..i] && t[i] == r[i] && s[i + 1..] == r[i + 1..];
    hide Swapped, DrawsFrom;
    var x := Shuffled(r[..i], rest);
    assert Shuffled(p, draws) == x + [r[i]];
    assert x + [r[i]] + r[i + 1..] == x + r[i..];
  }

  /** Nothing is left to shuffle among fewer than two. */
  lemma ShuffleEnds<T>(r: seq<T>, n: nat, stream: nat -> nat, pos: nat)
    requires n <= |r| && n <= 1
    ensures Remaining(r, n, stream, pos) == r
  {
  }

  lemma SwapKeeps<T>(s: seq<T>, i: nat, j: nat)
    requires i < |s| && j < |s|
    ensures multiset(Swapped(s, i, j)) == multiset(s)
  {
  }

  lemma {:induction false} ShufflePermutes<T>(s: seq<T>, draws: seq<nat>)
    requires InRange(draws, |s|)
    ensures multiset(Shuffled(s, draws)) == multiset(s)
    decreases |s|
  {
    if |s| > 1 {
      var n := |s| - 1;
      var t := Swapped(s, n, draws[0]);
      SwapKeeps(s, n, draws[0]);
      ShufflePermutes(t[..n], draws[1..]);
      assert t == t[..n] + [t[n]];
    }
  }

  lemma SameLength<T>(s: seq<T>, r: seq<T>)
    requires multiset(r) == multiset(s)
    ensures |r| == |s|
  {
    assert |multiset(r)| == |r| && |multiset(s)| == |s|;
  }

  lemma Locate<T>(s: seq<T>, r: seq<T>, n: nat) returns (j: nat)
    requires multiset(r) == multiset(s) && n < |r|
    ensures j < |s| && s[j] == r[n]
  {
    assert r[n] in multiset(s);
    j :| 0 <= j < |s| && s[j] == r[n];
  }

  lemma SamePrefix<T>(r: seq<T>, t: seq<T>, n: nat)
    requires multiset(r) == multiset(t) && |r| == |t| == n + 1 && r[n] == t[n]
    ensures multiset(r[..n]) == multiset(t[..n])
  {
    var x := r[n];
    assert r == r[..n] + [x] && t == t[..n] + [x];
    assert multiset(r) == multiset{x} + multiset(r[..n]) && multiset(t) == multiset{x} + multiset(t[..n]);
    Cancel(x, multiset(r[..n]), multiset(t[..n]));
  }

  /** Every order of the elements comes out of some draws. */
  lemma {:induction false} ShuffleReaches<T>(s: seq<T>, r: seq<T>) returns (draws: seq<nat>)
    requires multiset(r) == multiset(s)
    ensures InRange(draws, |s|) && Shuffled(s, draws) == r
    decreases |s|
  {
    SameLength(s, r);
    if |s| <= 1 {
      draws := [];
      if |s| == 1 {
        var _ := Locate(s, r, 0);
      }
      assert r == s;
    } else {
      var n := |s| - 1;
      var j := Locate(s, r, n);
      var t := Swapped(s, n, j);
      SwapKeeps(s, n, j);
      SamePrefix(r, t, n);
      hide Swapped;
      var rest := ShuffleReaches(t[..n], r[..n]);
      draws := [j] + rest;
      assert draws[1..] == rest;
    }
  }

  /** Any draws in range are those of some stream, which is free beyond them. */
  lemma {:induction false} DrawsSupplied(draws: seq<nat>, n: nat, stream: nat -> nat, pos: nat)
    requires InRange(draws, n) && forall k :: 0 <= k < |draws| ==> stream(pos + k) == draws[k]
    ensures DrawsFrom(stream, pos, n) == draws
    decreases n
  {
    if n > 1 {
      assert stream(pos + 0) == draws[0];
      SmallRem(draws[0], n);
      var rest := draws[1..];
      forall k | 0 <= k < |rest| ensures stream(pos + 1 + k) == rest[k] {
        assert rest[k] == draws[k + 1] && stream(pos + (k + 1)) == draws[k + 1];
      }
      DrawsSupplied(rest, n - 1, stream, pos + 1);
      assert draws == [draws[0]] + rest;
    }
  }

  /** Of distinct elements, different draws give different orders: each of the n! comes out of exactly one. */
  lemma {:induction false} ShuffleUnique<T>(s: seq<T>, a: seq<nat>, b: seq<nat>)
    requires NoDup(s) && InRange(a, |s|) && InRange(b, |s|) && Shuffled(s, a) == Shuffled(s, b)
    ensures a == b
    decreases |s|
  {
    if |s| > 1 {
      var n := |s| - 1;
      var t, u := Swapped(s, n, a[0]), Swapped(s, n, b[0]);
      assert Shuffled(s, a)[n] == t[n] && Shuffled(s, b)[n] == u[n];
      assert a[0] == b[0];
      assert Shuffled(s, a)[..n] == Shuffled(t[..n], a[1..]) && Shuffled(s, b)[..n] == Shuffled(t[..n], b[1..]);
      ShuffleUnique(t[..n], a[1..], b[1..]);
      assert a == [a[0]] + a[1..] && b == [b[0]] + b[1..];
    }
  }

  // ---------------------------------------------------------------- rotation

  const U64 := 0x1_0000_0000_0000_0000

  /** An unsigned 64-bit word. */
  type Word = c: int | 0 <= c < U64

  type Positive = n: int | n > 0 witness 1

  function Rotate<T>(s: seq<T>, k: nat): (r: seq<T>)
    requires k <= |s|
    ensures |r| == |s|
    ensures forall i :: 0 <= i < |s| ==> r[i] == s[if k + i < |s| then k + i else k + i - |s|]
  {
    s[k..] + s[..k]
  }

  lemma RotatePermutes<T>(s: seq<T>, k: nat)
    requires k <= |s|
    ensures multiset(Rotate(s, k)) == multiset(s)
  {
    assert s == s[..k] + s[k..];
  }

  /** Conversion of an unsigned counter to a signed int of 2*half values. */
  function ToInt(c: nat, half: nat): int
    requires half > 0
  {
    var m := c % (2 * half);
    if m < half then m else m - 2 * half
  }

  /** Remainder that takes the sign of the dividend. */
  function TruncRem(a: int, n: nat): (r: int)
    requires n > 0
    ensures 0 < r + n && r < n && (a >= 0 ==> r >= 0)
  {
    if a >= 0 then a % n else -((-a) % n)
  }

  function RotationStart(c: nat, n: nat, half: nat): (r: int)
    requires n > 0 && half > 0
    ensures 0 < r + n && r < n
  {
    TruncRem(ToInt(c, half), n)
  }

  /** The i-th index the rotation reads. */
  function RotationIndex(c: nat, n: nat, half: nat, i: nat): int
    requires n > 0 && half > 0
  {
    TruncRem(RotationStart(c, n, half) + i, n)
  }

  /** The conversion keeps the low bits: the result is in the range of int and differs by whole wraps. */
  lemma ToIntWraps(c: nat, half: nat)
    requires half > 0
    ensures 0 <= ToInt(c, half) + half && ToInt(c, half) < half
    ensures exists q :: c == ToInt(c, half) + q * (2 * half)
  {
    DivRem(c, 2 * half);
    var q := c / (2 * half);
    if c % (2 * half) < half {
      assert c == ToInt(c, half) + q * (2 * half);
    } else {
      assert (q + 1) * (2 * half) == q * (2 * half) + 2 * half;
      assert c == ToInt(c, half) + (q + 1) * (2 * half);
    }
  }

  /** The remainder is short of n either way, has the sign of the dividend, and leaves a multiple of n. */
  lemma TruncRemIs(a: int, n: nat)
    requires n > 0
    ensures 0 < TruncRem(a, n) + n && TruncRem(a, n) < n
    ensures (a >= 0 ==> TruncRem(a, n) >= 0) && (a <= 0 ==> TruncRem(a, n) <= 0)
    ensures exists q :: a == q * n + TruncRem(a, n)
  {
    if a >= 0 {
      DivRem(a, n);
      assert a == a / n * n + TruncRem(a, n);
    } else {
      DivRem(-a, n);
      var q := (-a) / n;
      assert (-q) * n == -(q * n);
      assert a == (-q) * n + TruncRem(a, n);
    }
  }

  /** The counter still fits the positive range of int. */
  ghost predicate CounterFits(c: nat, half: nat) { c < half }

  /** No index the rotation reads is negative: the converted counter does not lead below zero. */
  ghost predicate SafeTurn(c: nat, n: nat, half: Positive) {
    n > 0 ==> RotationStart(c, n, half) >= 0
  }

  /** The candidates in the order a rotation puts them, the counter being at c. */
  ghost function Turn<T>(s: seq<T>, c: nat, half: Positive): (r: seq<T>)
    requires SafeTurn(c, |s|, half)
    ensures |r| == |s|
  {
    if s == [] then [] else Rotate(s, RotationStart(c, |s|, half))
  }

  /**
   Every index the rotation uses is in range exactly when the converted counter is not negative or
   is a multiple of the number of candidates; in particular while the counter fits.
   */
  lemma RotationInRange(c: nat, n: nat, half: nat)
    requires n > 0 && half > 0
    ensures (forall i :: 0 <= i < n ==> 0 <= RotationIndex(c, n, half, i) < n)
            <==> (ToInt(c, half) >= 0 || (-ToInt(c, half)) % n == 0)
    ensures SafeTurn(c, n, half) <==> (ToInt(c, half) >= 0 || (-ToInt(c, half)) % n == 0)
    ensures CounterFits(c, half) ==> ToInt(c, half) == c && RotationStart(c, n, half) == c % n
  {
    var a := ToInt(c, half);
    var start := RotationStart(c, n, half);
    if a < 0 && (-a) % n != 0 {
      assert start == -((-a) % n) && 0 < -start < n;
      SmallRem(-start, n);
      assert RotationIndex(c, n, half, 0) < 0;
    } else {
      assert 0 <= start < n;
    }
    if CounterFits(c, half) {
      SmallRem(c, 2 * half);
    }
  }

  /** On a 32-bit machine the 2^31st rotation over three candidates begins below zero. */
  lemma RotationFails()
    ensures !SafeTurn(0x8000_0000, 3, 0x8000_0000) && RotationIndex(0x8000_0000, 3, 0x8000_0000, 0) < 0
  {
    var c := 0x8000_0000;
    SmallRem(c, 2 * c);
    assert ToInt(c, c) == -c;
    RemOf(c, 715_827_882, 2, 3);
    RotationInRange(c, 3, c);
  }

  lemma WrapIndex(start: nat, i: nat, n: nat)
    requires start < n && i < n
    ensures TruncRem(start + i, n) == if start + i < n then start + i else start + i - n
  {
    if start + i < n {
      RemOf(start + i, 0, start + i, n);
    } else {
      RemOf(start + i, 1, start + i - n, n);
    }
  }

  /** How many of the m calls that find the counter at c, c+1, ... put candidate r first. */
  ghost function Wins(c: nat, m: nat, n: nat, r: nat): nat
    requires n > 0
  {
    if m == 0 then 0 else Wins(c, m - 1, n, r) + if (c + m - 1) % n == r then 1 else 0
  }

  lemma {:induction false} WinsShort(c: nat, m: nat, n: nat, r: nat)
    requires n > 0 && r < n && m <= n
    ensures Wins(c, m, n, r) == if (r + n - c % n) % n < m then 1 else 0
    decreases m
  {
    if m > 0 {
      WinsShort(c, m - 1, n, r);
      OffsetRem(c, m - 1, n, r);
    }
  }

  /** Within one lap, the call at offset d serves r exactly when d is r's distance from the start. */
  lemma OffsetRem(c: nat, d: nat, n: nat, r: nat)
    requires n > 0 && r < n && d < n
    ensures (c + d) % n == r <==> (r + n - c % n) % n == d
  {
    var q, s := c / n, c % n;
    assert c == q * n + s;
    if s + d < n {
      RemOf(c + d, q, s + d, n);
    } else {
      assert c + d == (q + 1) * n + (s + d - n);
      RemOf(c + d, q + 1, s + d - n, n);
    }
    if r >= s {
      RemOf(r + n - s, 1, r - s, n);
    } else {
      RemOf(r + n - s, 0, r + n - s, n);
    }
  }

  lemma {:induction false} WinsSplit(c: nat, a: nat, b: nat, n: nat, r: nat)
    requires n > 0
    ensures Wins(c, a + b, n, r) == Wins(c, a, n, r) + Wins(c + a, b, n, r)
    decreases b
  {
    if b > 0 {
      WinsSplit(c, a, b - 1, n, r);
    }
  }

  lemma {:induction false} WinsLaps(c: nat, q: nat, s: nat, n: nat, r: nat)
    requires n > 0 && r < n && s < n
    ensures q <= Wins(c, q * n + s, n, r) <= q + 1
    ensures s == 0 ==> Wins(c, q * n + s, n, r) == q
    decreases q
  {
    if q == 0 {
      WinsShort(c, s, n, r);
    } else {
      WinsSplit(c, n, (q - 1) * n + s, n, r);
      assert n + ((q - 1) * n + s) == q * n + s;
      WinsShort(c, n, n, r);
      SmallOffset(c, n, r);
      WinsLaps(c + n, q - 1, s, n, r);
    }
  }

  lemma SmallOffset(c: nat, n: nat, r: nat)
    requires n > 0 && r < n
    ensures 0 <= (r + n - c % n) % n < n
  {
  }

  /** Fairness: m consecutive calls put each of n candidates first floor(m/n) or ceil(m/n) times. */
  lemma RotationFair(c: nat, m: nat, n: nat, r: nat)
    requires n > 0 && r < n
    ensures Wins(c, m, n, r) == m / n || Wins(c, m, n, r) == (m + n - 1) / n
  {
    hide Wins;
    var q, s := m / n, m % n;
    DivRem(m, n);
    WinsLaps(c, q, s, n, r);
    CeilOf(m, q, s, n);
  }

  /** While the counter fits, the rotation starts at the counter modulo the number of candidates. */
  lemma TurnFits<T>(s: seq<T>, c: nat, half: Positive)
    requires CounterFits(c, half)
    ensures SafeTurn(c, |s|, half)
    ensures s != [] ==> Turn(s, c, half) == Rotate(s, c % |s|) && Turn(s, c, half)[0] == s[c % |s|]
  {
    if s != [] {
      RotationInRange(c, |s|, half);
    }
  }

  /** One step of the counter turns the order on by one. */
  lemma TurnsOn<T>(s: seq<T>, c: nat, half: Positive)
    requires s != [] && CounterFits(c + 1, half)
    ensures SafeTurn(c, |s|, half) && SafeTurn(c + 1, |s|, half)
    ensures Turn(s, c + 1, half) == Rotate(Turn(s, c, half), 1)
  {
    TurnFits(s, c, half);
    TurnFits(s, c + 1, half);
    var n := |s|;
    var k := c % n;
    DivRem(c, n);
    if k + 1 < n {
      RemOf(c + 1, c / n, k + 1, n);
    } else {
      assert (c / n + 1) * n == c / n * n + n;
      RemOf(c + 1, c / n + 1, 0, n);
    }
  }

  /** The first of each of a series of consecutive rotations of the same candidates. */
  ghost predicate TurnHeads<T>(heads: seq<T>, s: seq<T>, c: nat, half: Positive) {
    && s != [] && c + |heads| <= half
    && forall i {:trigger heads[i]} :: 0 <= i < |heads| ==> heads[i] == s[(c + i) % |s|]
  }

  lemma {:induction false} HeadsAreWins<T>(heads: seq<T>, s: seq<T>, c: nat, half: Positive, r: nat)
    requires TurnHeads(heads, s, c, half) && NoDup(s) && r < |s|
    ensures multiset(heads)[s[r]] == Wins(c, |heads|, |s|, r)
    decreases |heads|
  {
    if heads != [] {
      var p, x := heads[..|heads| - 1], heads[|heads| - 1];
      assert heads == p + [x];
      HeadsAreWins(p, s, c, half, r);
      assert x == s[(c + |p|) % |s|];
    }
  }

  /**
   With an unchanged set of candidates and a counter that fits, m consecutive rotations put each
   candidate first floor(m/n) or ceil(m/n) times.
   */
  lemma RotationServesAll<T>(heads: seq<T>, s: seq<T>, c: nat, half: Positive, r: nat)
    requires TurnHeads(heads, s, c, half) && NoDup(s) && r < |s|
    ensures var m, n, k := |heads|, |s|, multiset(heads)[s[r]];
            k == m / n || k == (m + n - 1) / n
  {
    HeadsAreWins(heads, s, c, half, r);
    RotationFair(c, |heads|, |s|, r);
  }

  lemma NoHeads<T>(s: seq<T>, c: nat, half: Positive)
    requires s != [] && c <= half
    ensures TurnHeads([], s, c, half)
  {
  }

  lemma TurnHeadsSnoc<T>(heads: seq<T>, s: seq<T>, c: nat, half: Positive)
    requires TurnHeads(heads, s, c, half) && CounterFits(c + |heads|, half)
    ensures SafeTurn(c + |heads|, |s|, half)
    ensures TurnHeads(heads + [Turn(s, c + |heads|, half)[0]], s, c, half)
  {
    TurnFits(s, c + |heads|, half);
  }

  lemma CeilOf(m: nat, q: nat, s: nat, n: nat)
    requires n > 0 && s < n && m == q * n + s
    ensures s > 0 ==> (m + n - 1) / n == q + 1
  {
    if s > 0 {
      var x := (q + 1) * n;
      assert x == q * n + n;
      RemOf(m + n - 1, q + 1, s - 1, n);
    }
  }

  // ---------------------------------------------------------------- weighted draw

  /** Index the subtraction loop stops at; the length when no weight brings n below zero. */
  ghost function Pick(ws: seq<int>, n: int): nat {
    if ws == [] then 0 else if n < ws[0] then 0 else 1 + Pick(ws[1..], n - ws[0])
  }

  ghost predicate NonNegative(ws: seq<int>) {
    forall i :: 0 <= i < |ws| ==> ws[i] >= 0
  }

  ghost function Before(ws: seq<int>, i: nat): int
    requires i <= |ws|
  {
    if i == 0 then 0 else ws[0] + Before(ws[1..], i - 1)
  }

  /** A draw selects i exactly when it falls in the interval of length ws[i] reserved for i. */
  lemma {:induction false} PickInterval(ws: seq<int>, n: int, i: nat)
    requires NonNegative(ws) && i < |ws| && n >= 0
    ensures Pick(ws, n) == i <==> Before(ws, i) <= n < Before(ws, i) + ws[i]
    ensures 0 <= Before(ws, i) && Before(ws, i) + ws[i] <= Before(ws, |ws|)
    decreases |ws|
  {
    var rest := ws[1..];
    if i > 0 {
      if n >= ws[0] {
        PickInterval(rest, n - ws[0], i - 1);
      } else {
        PickInterval(rest, 0, i - 1);
      }
    } else {
      BeforeGrows(rest);
    }
  }

  lemma {:induction false} BeforeGrows(ws: seq<int>)
    requires NonNegative(ws)
    ensures Before(ws, |ws|) >= 0
    decreases |ws|
  {
    if ws != [] {
      BeforeGrows(ws[1..]);
    }
  }

  /** The trailing return of the draw is unreachable: an in-range draw always selects. */
  lemma {:induction false} PickSelects(ws: seq<int>, n: int)
    requires NonNegative(ws) && 0 <= n < Before(ws, |ws|)
    ensures Pick(ws, n) < |ws|
    decreases |ws|
  {
    if ws != [] && n >= ws[0] {
      PickSelects(ws[1..], n - ws[0]);
    }
  }

  ghost function Draws(ws: seq<int>, i: nat): set<int> {
    set n | 0 <= n < Before(ws, |ws|) && Pick(ws, n) == i
  }

  lemma DrawsExact(ws: seq<int>, i: nat)
    requires NonNegative(ws) && i < |ws|
    ensures |Draws(ws, i)| == ws[i]
  {
    PickInterval(ws, 0, i);
    var lo := Before(ws, i);
    forall n | 0 <= n ensures Pick(ws, n) == i <==> lo <= n < lo + ws[i] {
      PickInterval(ws, n, i);
    }
    assert Draws(ws, i) == Interval(lo, lo + ws[i]);
  }

  /**
   The draw is exactly proportional, each index being selected by as many of the total draws as its
   weight says, if and only if no weight is negative.
   */
  lemma DrawProportional(ws: seq<int>)
    ensures (forall i :: 0 <= i < |ws| ==> |Draws(ws, i)| == ws[i]) <==> NonNegative(ws)
  {
    if NonNegative(ws) {
      forall i | 0 <= i < |ws| ensures |Draws(ws, i)| == ws[i] {
        DrawsExact(ws, i);
      }
    } else {
      var i :| 0 <= i < |ws| && ws[i] < 0;
      assert |Draws(ws, i)| >= 0;
    }
  }

  ghost function Weights<T>(s: seq<T>, weight: T -> int): seq<int> {
    seq(|s|, i requires 0 <= i < |s| => weight(s[i]))
  }

  lemma {:induction false} TotalOfParts<T>(a: seq<T>, b: seq<T>, weight: T -> int)
    ensures Before(Weights(a + b, weight), |a| + |b|)
            == Before(Weights(a, weight), |a|) + Before(Weights(b, weight), |b|)
    decreases |a|
  {
    if a == [] {
      assert a + b == b;
    } else {
      TotalOfParts(a[1..], b, weight);
      assert (a + b)[1..] == a[1..] + b;
      assert Weights(a + b, weight)[1..] == Weights((a + b)[1..], weight);
      assert Weights(a, weight)[1..] == Weights(a[1..], weight);
    }
  }

  /** The total does not depend on the order of the candidates. */
  lemma {:induction false} TotalPermutes<T>(a: seq<T>, b: seq<T>, weight: T -> int)
    requires multiset(a) == multiset(b)
    ensures Before(Weights(a, weight), |a|) == Before(Weights(b, weight), |b|)
    decreases |a|
  {
    if a == [] {
      assert multiset(b) == multiset{} && |b| == |multiset(b)|;
    } else {
      hide Before, Weights;
      var k := PullHead(a, b);
      var x, p, q := a[0], b[..k], b[k + 1..];
      assert a == [x] + a[1..];
      TotalPermutes(a[1..], p + q, weight);
      TotalOfParts([x], a[1..], weight);
      TotalOfParts(p, [x] + q, weight);
      TotalOfParts([x], q, weight);
      TotalOfParts(p, q, weight);
    }
  }

  ghost function DrawsFor<T>(order: seq<T>, weight: T -> int, u: T): set<int> {
    set n | 0 <= n < Before(Weights(order, weight), |order|) && Pick(Weights(order, weight), n) < |order|
            && order[Pick(Weights(order, weight), n)] == u
  }

  /**
   For every shuffle of the candidates, exactly weight(u) of the draws select u, out of a total
   that is the same for every shuffle.
   */
  lemma ShuffledDrawProportional<T>(candidates: seq<T>, shuffled: seq<T>, weight: T -> int, u: T)
    requires multiset(shuffled) == multiset(candidates) && NoDup(shuffled)
    requires u in candidates
    requires forall x :: x in candidates ==> weight(x) >= 0
    ensures |DrawsFor(shuffled, weight, u)| == weight(u)
    ensures Before(Weights(shuffled, weight), |shuffled|) == Before(Weights(candidates, weight), |candidates|)
  {
    TotalPermutes(shuffled, candidates, weight);
    assert u in multiset(shuffled);
    var ws := Weights(shuffled, weight);
    forall i | 0 <= i < |ws| ensures ws[i] >= 0 {
      assert shuffled[i] in multiset(candidates);
    }
    var i :| 0 <= i < |shuffled| && shuffled[i] == u;
    DrawsExact(ws, i);
    forall n | 0 <= n < Before(ws, |ws|)
      ensures Pick(ws, n) < |shuffled| && (shuffled[Pick(ws, n)] == u <==> Pick(ws, n) == i)
    {
      PickSelects(ws, n);
    }
    assert DrawsFor(shuffled, weight, u) == Draws(ws, i);
  }

  /** The index the dice at hand select. */
  ghost function Selected(ws: seq<int>, dice: Dice): (k: nat)
    requires ws != []
    ensures k < |ws|
  {
    var total := Before(ws, |ws|);
    if total <= 0 then DrawAt(dice.stream, dice.pos, |ws|)
    else
      var k := Pick(ws, DrawAt(dice.stream, dice.pos, total));
      if k < |ws| then k else |ws| - 1
  }

  /** The draw itself: sum the weights, draw below the total, and subtract until negative. */
  method WeightedPick(ws: seq<int>, rng: Rand) returns (k: nat)
    requires |ws| > 0
    modifies rng`pos
    ensures k == Selected(ws, old(rng.Now())) && rng.Now() == old(rng.Now()).Later(1)
  {
    var total := 0;
    for i := 0 to |ws|
      invariant total + Before(ws[i..], |ws| - i) == Before(ws, |ws|)
    {
      assert ws[i..][1..] == ws[i + 1..];
      total := total + ws[i];
    }
    if total <= 0 {
      k := rng.IntN(|ws|);
      return;
    }
    var n: int := rng.IntN(total);
    ghost var drawn := n;
    for i := 0 to |ws|
      invariant n >= 0
      invariant Pick(ws, drawn) == i + Pick(ws[i..], n)
    {
      assert ws[i..][1..] == ws[i + 1..];
      n := n - ws[i];
      if n < 0 {
        return i;
      }
    }
    return |ws| - 1;
  }

  // ---------------------------------------------------------------- stable sort

  /** Inserts x after every element whose key does not exceed its own. */
  function Insert<T>(key: T -> int, s: seq<T>, x: T): seq<T> {
    if s == [] || key(x) < key(s[0]) then [x] + s else [s[0]] + Insert(key, s[1..], x)
  }

  function StableSort<T>(key: T -> int, s: seq<T>): seq<T> {
    if s == [] then [] else Insert(key, StableSort(key, s[..|s| - 1]), s[|s| - 1])
  }

  ghost predicate Ascending<T>(key: T -> int, s: seq<T>) {
    forall i, j :: 0 <= i < j < |s| ==> key(s[i]) <= key(s[j])
  }

  /** The elements of one key, in their order of appearance. */
  ghost function Class<T>(key: T -> int, s: seq<T>, k: int): seq<T> {
    if s == [] then [] else (if key(s[0]) == k then [s[0]] else []) + Class(key, s[1..], k)
  }

  lemma {:induction false} InsertPermutes<T>(key: T -> int, s: seq<T>, x: T)
    ensures multiset(Insert(key, s, x)) == multiset(s) + multiset{x}
    decreases |s|
  {
    if !(s == [] || key(x) < key(s[0])) {
      InsertPermutes(key, s[1..], x);
      assert s == [s[0]] + s[1..];
    }
  }

  lemma {:induction false} InsertSorted<T>(key: T -> int, s: seq<T>, x: T)
    requires Ascending(key, s)
    ensures Ascending(key, Insert(key, s, x))
    decreases |s|
  {
    if !(s == [] || key(x) < key(s[0])) {
      var rest := s[1..];
      InsertSorted(key, rest, x);
      InsertPermutes(key, rest, x);
      var t := Insert(key, rest, x);
      forall i | 0 <= i < |t| ensures key(s[0]) <= key(t[i]) {
        assert t[i] in multiset(t);
        assert t[i] in rest || t[i] == x;
      }
    }
  }

  lemma {:induction false} InsertStable<T>(key: T -> int, s: seq<T>, x: T, k: int)
    requires Ascending(key, s)
    ensures Class(key, Insert(key, s, x), k) == Class(key, s, k) + if key(x) == k then [x] else []
    decreases |s|
  {
    if s == [] || key(x) < key(s[0]) {
      assert ([x] + s)[1..] == s;
      if key(x) == k {
        ClassAbove(key, s, k);
      }
    } else {
      InsertStable(key, s[1..], x, k);
      assert ([s[0]] + Insert(key, s[1..], x))[1..] == Insert(key, s[1..], x);
    }
  }

  lemma {:induction false} ClassAbove<T>(key: T -> int, s: seq<T>, k: int)
    requires forall i :: 0 <= i < |s| ==> key(s[i]) > k
    ensures Class(key, s, k) == []
    decreases |s|
  {
    if s != [] {
      ClassAbove(key, s[1..], k);
    }
  }

  lemma ClassHead<T>(key: T -> int, s: seq<T>, k: int)
    ensures Class(key, s, k) == if s == [] then [] else (if key(s[0]) == k then [s[0]] else []) + Class(key, s[1..], k)
  {
  }

  lemma {:induction false} ClassSnoc<T>(key: T -> int, s: seq<T>, x: T, k: int)
    ensures Class(key, s + [x], k) == Class(key, s, k) + if key(x) == k then [x] else []
    decreases |s|
  {
    hide Class;
    var l := s + [x];
    ClassHead(key, s, k);
    ClassHead(key, l, k);
    if s == [] {
      assert l[1..] == [];
      ClassHead(key, l[1..], k);
    } else {
      assert l[0] == s[0] && l[1..] == s[1..] + [x];
      ClassSnoc(key, s[1..], x, k);
    }
  }

  /** Sorting permutes, puts smaller keys first, and keeps the order of equal keys. */
  lemma {:induction false} StableSortCorrect<T>(key: T -> int, s: seq<T>, k: int)
    ensures multiset(StableSort(key, s)) == multiset(s)
    ensures Ascending(key, StableSort(key, s))
    ensures Class(key, StableSort(key, s), k) == Class(key, s, k)
    decreases |s|
  {
    if s != [] {
      var p, x := s[..|s| - 1], s[|s| - 1];
      assert s == p + [x];
      StableSortCorrect(key, p, k);
      InsertPermutes(key, StableSort(key, p), x);
      InsertSorted(key, StableSort(key, p), x);
      InsertStable(key, StableSort(key, p), x, k);
      ClassSnoc(key, p, x, k);
    }
  }

  lemma {:induction false} InsertCongruent<T>(k: T -> int, m: T -> int, s: seq<T>, x: T)
    requires k(x) == m(x) && forall i :: 0 <= i < |s| ==> k(s[i]) == m(s[i])
    ensures Insert(k, s, x) == Insert(m, s, x)
    decreases |s|
  {
    if s != [] {
      InsertCongruent(k, m, s[1..], x);
    }
  }

  /** Sorting looks at nothing but the keys of the elements it is given. */
  lemma {:induction false} SortCongruent<T>(k: T -> int, m: T -> int, s: seq<T>)
    requires forall x :: x in s ==> k(x) == m(x)
    ensures StableSort(k, s) == StableSort(m, s)
    decreases |s|
  {
    if s != [] {
      var p := s[..|s| - 1];
      SortCongruent(k, m, p);
      StableSortCorrect(k, p, 0);
      var t := StableSort(k, p);
      forall i | 0 <= i < |t| ensures k(t[i]) == m(t[i]) {
        assert t[i] in multiset(t) && t[i] in p;
      }
      InsertCongruent(k, m, t, s[|s| - 1]);
    }
  }
}
