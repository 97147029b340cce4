/** The difficulty retarget: a linearly weighted average of recent solve times. */
module Lwma {
  import opened Basics

  const TWO128: nat := 0x1_0000_0000_0000_0000_0000_0000_0000_0000
  const MAX_SOLVE: nat := 6

  /** Bounds the configuration enforces. */
  const MAX_BLOCK_TIME: nat := 86400
  const MAX_WINDOW: nat := 1000

  function W128(x: nat): nat { x % TWO128 }

  function Clamp(v: nat, lo: nat, hi: nat): nat {
    var a, b := if lo > hi then hi else lo, if lo > hi then lo else hi;
    if v < a then a else if v > b then b else v
  }

  /** The time block `j` took; nothing if its timestamp is not later. */
  function Gap(ts: seq<nat>, j: nat): nat
    requires 1 <= j < |ts|
  {
    if ts[j] > ts[j - 1] then ts[j] - ts[j - 1] else 0
  }

  /** The solve time counted, at most six block times. */
  function Solve(ts: seq<nat>, t: nat, j: nat): (d: nat)
    requires 1 <= j < |ts|
    ensures d <= t * MAX_SOLVE
  {
    if Gap(ts, j) > t * MAX_SOLVE then t * MAX_SOLVE else Gap(ts, j)
  }

  /** Every block of `us` took at least as long as that of `ts`. */
  predicate Slower(ts: seq<nat>, us: seq<nat>) {
    |ts| == |us| && forall j :: 1 <= j < |ts| ==> Gap(ts, j) <= Gap(us, j)
  }

  /** Later blocks weigh more. */
  function Weighted(ts: seq<nat>, t: nat, n: nat): nat
    requires n < |ts|
  {
    if n == 0 then 0 else Weighted(ts, t, n - 1) + Solve(ts, t, n) * n
  }

  function Total(tg: seq<nat>, n: nat): nat
    requires n < |tg|
  {
    if n == 0 then 0 else Total(tg, n - 1) + tg[n]
  }

  /** 1 + 2 + ... + n. */
  function Triangle(n: nat): nat { if n == 0 then 0 else Triangle(n - 1) + n }

  lemma {:induction false} TriangleIs(n: nat)
    ensures Triangle(n) == n * (n + 1) / 2
  {
    if n > 0 { TriangleIs(n - 1); assert n * (n + 1) == (n - 1) * n + 2 * n; }
  }

  function Quotient(a: nat, b: nat): nat
    requires b > 0
  {
    a / b
  }

  /** The average target scaled by the weighted time over the expected. */
  function Scaled(avg: nat, weighted: nat, expected: nat): nat
    requires expected > 0
  {
    Quotient(avg * weighted, expected)
  }

  /** At most a halving or a doubling, and never zero. */
  function Limited(next: nat, prev: nat): nat {
    var a := if next < prev / 2 then prev / 2 else next;
    var b := if a > prev * 2 then prev * 2 else a;
    if b == 0 then 1 else b
  }

  lemma {:induction false} TriangleGrows(n: nat)
    ensures Triangle(n) >= n
  {
    if n > 0 { TriangleGrows(n - 1); }
  }

  /** The retarget on equally long lists of at least two entries. */
  function Retarget(ts: seq<nat>, tg: seq<nat>, t: nat, lo: nat, hi: nat): nat
    requires |ts| == |tg| >= 2 && t > 0
  {
    var n := |ts| - 1;
    var expected := Expected(t, n);
    Clamp(Limited(Scaled(Quotient(Total(tg, n), n), Max(Weighted(ts, t, n), expected / 10), expected), tg[n]), lo, hi)
  }

  function Expected(t: nat, n: nat): (e: nat)
    requires t > 0 && n > 0
    ensures e > 0
  {
    TriangleGrows(n);
    assert Triangle(n) * t >= 1 by { MulMono(1, Triangle(n), t); }
    Triangle(n) * t
  }

  function NextTarget(timestamps: seq<nat>, targets: seq<nat>, t: nat, lo: nat, hi: nat, fallback: nat): nat {
    var count := if |timestamps| <= |targets| then |timestamps| else |targets|;
    if count < 2 || t == 0 then Clamp(fallback, lo, hi)
    else Retarget(timestamps[|timestamps| - count..], targets[|targets| - count..], t, lo, hi)
  }

  // ------------------------------------------------------------------------ arithmetic

  lemma QuotientMono(a: nat, b: nat, d: nat)
    requires a <= b && d > 0
    ensures Quotient(a, d) <= Quotient(b, d)
  {
    var x, y := a / d, b / d;
    assert x * d <= a && b < (y + 1) * d;
    if x > y { MulMono(y + 1, x, d); }
  }

  lemma QuotientExact(a: nat, d: nat)
    requires d > 0
    ensures Quotient(a * d, d) == a
  {
    var x := a * d / d;
    assert x * d <= a * d < (x + 1) * d;
    if x < a { MulMono(x + 1, a, d); }
    if x > a { MulMono(a + 1, x, d); }
  }

  lemma {:induction false} WeightedBound(ts: seq<nat>, t: nat, n: nat)
    requires n < |ts|
    ensures Weighted(ts, t, n) <= 6 * (Triangle(n) * t)
  {
    hide Solve;
    if n > 0 {
      WeightedBound(ts, t, n - 1);
      MulMono(Solve(ts, t, n), t * MAX_SOLVE, n);
      Sixfold(Triangle(n - 1), n, t);
    }
  }

  lemma Sixfold(k: nat, n: nat, t: nat)
    ensures 6 * ((k + n) * t) == 6 * (k * t) + t * MAX_SOLVE * n
  {
    assert (k + n) * t == k * t + n * t;
    assert t * 6 * n == 6 * (n * t);
  }

  lemma {:induction false} TotalBound(tg: seq<nat>, n: nat)
    requires n < |tg| && forall j :: 0 <= j < |tg| ==> tg[j] < TWO64
    ensures Total(tg, n) <= n * (TWO64 - 1)
  {
    if n > 0 { TotalBound(tg, n - 1); assert n * (TWO64 - 1) == (n - 1) * (TWO64 - 1) + (TWO64 - 1); }
  }

  // ------------------------------------------------------------------ what it promises

  /** The result stays within the configured bounds, in whichever order they are given. */
  lemma WithinClamps(timestamps: seq<nat>, targets: seq<nat>, t: nat, lo: nat, hi: nat, fallback: nat)
    ensures var r := NextTarget(timestamps, targets, t, lo, hi, fallback);
            (if lo <= hi then lo else hi) <= r <= (if lo <= hi then hi else lo)
  {
    hide Limited, Scaled, Weighted, Total, Quotient;
  }

  lemma SteadySolve(ts: seq<nat>, t: nat, n: nat)
    requires 1 <= n < |ts| && ts[n] == ts[n - 1] + t
    ensures Solve(ts, t, n) == t
  {
  }

  lemma Spread(k: nat, n: nat, t: nat)
    ensures (k + n) * t == k * t + t * n
  {
  }

  lemma {:induction false} SteadyWeighted(ts: seq<nat>, t: nat, n: nat)
    requires n < |ts| && Steady(ts, t)
    ensures Weighted(ts, t, n) == Triangle(n) * t
  {
    hide Solve;
    if n > 0 {
      SteadyWeighted(ts, t, n - 1);
      SteadySolve(ts, t, n);
      Spread(Triangle(n - 1), n, t);
    }
  }

  lemma {:induction false} SteadyTotal(tg: seq<nat>, g: nat, n: nat)
    requires n < |tg| && Uniform(tg, g)
    ensures Total(tg, n) == g * n
  {
    if n > 0 { SteadyTotal(tg, g, n - 1); assert g * n == g * (n - 1) + g; }
  }

  /** Every block took exactly the block time. */
  predicate Steady(ts: seq<nat>, t: nat) { forall j :: 1 <= j < |ts| ==> ts[j] == ts[j - 1] + t }

  predicate Uniform(tg: seq<nat>, g: nat) { forall j :: 0 <= j < |tg| ==> tg[j] == g }

  /** Blocks exactly on time at one target keep it: a fixed point, for every target within
      the bounds except zero, which is never returned unless the bounds force it. Only the
      latest entries count that both lists have. */
  lemma FixedPoint(ts: seq<nat>, tg: seq<nat>, t: nat, lo: nat, hi: nat, fallback: nat, g: nat)
    requires t > 0 && lo <= g <= hi
    requires var count := if |ts| <= |tg| then |ts| else |tg|;
             count >= 2 && Steady(ts[|ts| - count..], t) && Uniform(tg[|tg| - count..], g)
    ensures NextTarget(ts, tg, t, lo, hi, fallback) == if g > 0 then g else Clamp(1, lo, hi)
  {
    hide Retarget, NextTarget;
    var count := if |ts| <= |tg| then |ts| else |tg|;
    NextIs(ts, tg, t, lo, hi, fallback, count);
    SteadyRetarget(ts[|ts| - count..], tg[|tg| - count..], t, lo, hi, g);
  }

  lemma SteadyRetarget(ts: seq<nat>, tg: seq<nat>, t: nat, lo: nat, hi: nat, g: nat)
    requires |ts| == |tg| >= 2 && t > 0 && Steady(ts, t) && Uniform(tg, g) && lo <= g <= hi
    ensures Retarget(ts, tg, t, lo, hi) == if g > 0 then g else Clamp(1, lo, hi)
  {
    hide Weighted, Total, Scaled, Quotient, Expected;
    var n := |ts| - 1;
    SteadyTotal(tg, g, n);
    SteadyWeighted(ts, t, n);
    QuotientExact(g, n);
    ExpectedIs(t, n);
    var e := Expected(t, n);
    ScaledExact(g, e);
    assert Max(e, e / 10) == e;
  }

  /** The time expected of `n` blocks, block `j` counted `j` times. */
  lemma ExpectedIs(t: nat, n: nat)
    requires t > 0 && n > 0
    ensures Expected(t, n) == Triangle(n) * t == n * (n + 1) / 2 * t
  {
    TriangleIs(n);
  }

  lemma QuotientFloor(a: nat, b: nat)
    requires b > 0
    ensures Quotient(a, b) * b <= a < (Quotient(a, b) + 1) * b
  {
  }

  lemma ScaledExact(g: nat, e: nat)
    requires e > 0
    ensures Scaled(g, e, e) == g
  {
    hide Quotient;
    QuotientExact(g, e);
  }

  lemma {:induction false} SlowerWeighted(ts: seq<nat>, us: seq<nat>, t: nat, n: nat)
    requires Slower(ts, us) && n < |ts|
    ensures Weighted(ts, t, n) <= Weighted(us, t, n)
  {
    if n > 0 {
      SlowerWeighted(ts, us, t, n - 1);
      assert Gap(ts, n) <= Gap(us, n);
      MulMono(Solve(ts, t, n), Solve(us, t, n), n);
    }
  }

  lemma SlowerSuffix(ts: seq<nat>, us: seq<nat>, k: nat)
    requires Slower(ts, us) && k <= |ts|
    ensures Slower(ts[k..], us[k..])
  {
    var a, b := ts[k..], us[k..];
    forall j | 1 <= j < |a| ensures Gap(a, j) <= Gap(b, j) { assert Gap(ts, k + j) <= Gap(us, k + j); }
  }

  lemma ScaledMono(avg: nat, a: nat, b: nat, e: nat)
    requires a <= b && e > 0
    ensures Scaled(avg, a, e) <= Scaled(avg, b, e)
  {
    hide Quotient;
    MulMono(a, b, avg);
    QuotientMono(avg * a, avg * b, e);
  }

  lemma LimitedMono(a: nat, b: nat, prev: nat)
    requires a <= b
    ensures Limited(a, prev) <= Limited(b, prev)
  {
  }

  lemma SlowerSize(ts: seq<nat>, us: seq<nat>)
    requires Slower(ts, us)
    ensures |ts| == |us|
  {
  }

  lemma ClampMono(a: nat, b: nat, lo: nat, hi: nat)
    requires a <= b
    ensures Clamp(a, lo, hi) <= Clamp(b, lo, hi)
  {
  }

  lemma RetargetMono(a: seq<nat>, b: seq<nat>, g: seq<nat>, t: nat, lo: nat, hi: nat)
    requires Slower(a, b) && |a| == |b| == |g| >= 2 && t > 0
    ensures Retarget(a, g, t, lo, hi) <= Retarget(b, g, t, lo, hi)
  {
    hide Weighted, Total, Scaled, Quotient, Limited, Expected, Slower, Clamp;
    var n := |a| - 1;
    var e := Expected(t, n);
    var avg := Quotient(Total(g, n), n);
    SlowerWeighted(a, b, t, n);
    var x, y := Max(Weighted(a, t, n), e / 10), Max(Weighted(b, t, n), e / 10);
    ScaledMono(avg, x, y, e);
    LimitedMono(Scaled(avg, x, e), Scaled(avg, y, e), g[n]);
    ClampMono(Limited(Scaled(avg, x, e), g[n]), Limited(Scaled(avg, y, e), g[n]), lo, hi);
  }

  /** Slower blocks never make the next target harder. */
  lemma Monotone(ts: seq<nat>, us: seq<nat>, tg: seq<nat>, t: nat, lo: nat, hi: nat, fallback: nat)
    requires Slower(ts, us)
    ensures NextTarget(ts, tg, t, lo, hi, fallback) <= NextTarget(us, tg, t, lo, hi, fallback)
  {
    hide Retarget, Slower, Clamp, NextTarget;
    SlowerSize(ts, us);
    var count := if |ts| <= |tg| then |ts| else |tg|;
    NextIs(ts, tg, t, lo, hi, fallback, count);
    NextIs(us, tg, t, lo, hi, fallback, count);
    if count >= 2 && t > 0 {
      SlowerSuffix(ts, us, |ts| - count);
      RetargetMono(ts[|ts| - count..], us[|us| - count..], tg[|tg| - count..], t, lo, hi);
    }
  }

  lemma NextIs(ts: seq<nat>, tg: seq<nat>, t: nat, lo: nat, hi: nat, fallback: nat, count: nat)
    requires count == if |ts| <= |tg| then |ts| else |tg|
    ensures NextTarget(ts, tg, t, lo, hi, fallback) ==
            if count < 2 || t == 0 then Clamp(fallback, lo, hi)
                else Retarget(ts[|ts| - count..], tg[|tg| - count..], t, lo, hi)
  {
    hide Retarget, Clamp;
  }

  // ------------------------------------------------------------------- what it computes

  /** f(1) + ... + f(n). */
  function SumUp(f: nat -> nat, n: nat): nat { if n == 0 then 0 else SumUp(f, n - 1) + f(n) }

  /** The time block `j` took, at most six block times, counted `j` times. */
  function Weights(ts: seq<nat>, t: nat): nat -> nat {
    (j: nat) => if !(1 <= j < |ts|) || ts[j] <= ts[j - 1] then 0 else j * Min(6 * t, ts[j] - ts[j - 1])
  }

  function Entries(tg: seq<nat>): nat -> nat { (j: nat) => if j < |tg| then tg[j] else 0 }

  lemma {:induction false} WeightedIs(ts: seq<nat>, t: nat, n: nat)
    requires n < |ts|
    ensures Weighted(ts, t, n) == SumUp(Weights(ts, t), n)
  {
    hide Solve, Weights;
    if n > 0 { WeightedIs(ts, t, n - 1); WeightIs(ts, t, n); }
  }

  lemma WeightIs(ts: seq<nat>, t: nat, n: nat)
    requires 1 <= n < |ts|
    ensures Solve(ts, t, n) * n == Weights(ts, t)(n)
  {
    var d := if ts[n] <= ts[n - 1] then 0 else Min(6 * t, ts[n] - ts[n - 1]);
    assert Solve(ts, t, n) == d;
  }

  lemma {:induction false} TotalIs(tg: seq<nat>, n: nat)
    requires n < |tg|
    ensures Total(tg, n) == SumUp(Entries(tg), n)
  {
    if n > 0 { TotalIs(tg, n - 1); }
  }

  /** The average target times the weighted time over the expected time, each rounded down; a
      weighted time under a tenth of the expected counts as a tenth. */
  function Proposed(ts: seq<nat>, tg: seq<nat>, t: nat): nat
    requires |ts| == |tg| >= 2 && t > 0
  {
    var n := |ts| - 1;
    var expected := Expected(t, n);
    Quotient(Quotient(SumUp(Entries(tg), n), n) * Max(SumUp(Weights(ts, t), n), expected / 10), expected)
  }

  /** The next target: what is proposed from the latest entries both lists have, but at least
      half and at most double the last target, at least one, and within the bounds. */
  lemma NextTargetIs(ts: seq<nat>, tg: seq<nat>, t: nat, lo: nat, hi: nat, fallback: nat)
    ensures var n := Min(|ts|, |tg|);
            var r := NextTarget(ts, tg, t, lo, hi, fallback);
            var wanted :=
              if n < 2 || t == 0 then fallback
              else
                var v, last := Proposed(ts[|ts| - n..], tg[|tg| - n..], t), tg[|tg| - 1];
                Max(1, if v < last / 2 then last / 2 else if v > 2 * last then 2 * last else v);
            r == if wanted < Min(lo, hi) then Min(lo, hi) else if wanted > Max(lo, hi) then Max(lo, hi) else wanted
  {
    hide Retarget, NextTarget, Proposed;
    var n := Min(|ts|, |tg|);
    NextIs(ts, tg, t, lo, hi, fallback, n);
    if n >= 2 && t > 0 { RetargetIs(ts[|ts| - n..], tg[|tg| - n..], t, lo, hi); }
  }

  lemma RetargetIs(ts: seq<nat>, tg: seq<nat>, t: nat, lo: nat, hi: nat)
    requires |ts| == |tg| >= 2 && t > 0
    ensures Retarget(ts, tg, t, lo, hi) == Clamp(Limited(Proposed(ts, tg, t), tg[|tg| - 1]), lo, hi)
  {
    hide Weighted, Total, Expected, SumUp, Limited, Clamp, Weights, Entries;
    var n := |ts| - 1;
    WeightedIs(ts, t, n);
    TotalIs(tg, n);
    ExpectedIs(t, n);
  }

  // ---------------------------------------------------------------- the program's loop

  lemma W128Small(x: nat)
    requires x < TWO128
    ensures W128(x) == x
  {
  }

  lemma {:induction false} TriangleBound(n: nat)
    requires n <= MAX_WINDOW
    ensures Triangle(n) <= MAX_WINDOW * n
  {
    if n > 0 { TriangleBound(n - 1); }
  }

  lemma ExpectedBound(t: nat, n: nat)
    requires 0 < n <= MAX_WINDOW && 0 < t <= MAX_BLOCK_TIME
    ensures Triangle(n) * t <= 86_400_000_000
  {
    TriangleBound(n);
    MulMono(Triangle(n), MAX_WINDOW * MAX_WINDOW, t);
  }

  /** The accumulating loop, every sum and product taken modulo 2^128. */
  method Accumulate(ts: seq<nat>, tg: seq<nat>, offTs: nat, offTg: nat, t: nat, n: nat) returns (weighted: nat,
      total: nat)
    requires offTs + n < |ts| && offTg + n < |tg| && 0 < n <= MAX_WINDOW && 0 < t <= MAX_BLOCK_TIME
    requires forall j :: 0 <= j < |tg| ==> tg[j] < TWO64
    ensures weighted == Weighted(ts[offTs..], t, n) && total == Total(tg[offTg..], n)
  {
    hide W128, Solve;
    weighted, total := 0, 0;
    var j := 1;
    while j <= n
      invariant 1 <= j <= n + 1
      invariant weighted == Weighted(ts[offTs..], t, j - 1) && total == Total(tg[offTg..], j - 1)
    {
      StepFits(ts[offTs..], tg[offTg..], t, j);
      weighted := W128(weighted + W128(Solve(ts[offTs..], t, j) * j));
      total := W128(total + tg[offTg + j]);
      j := j + 1;
    }
  }

  lemma StepFits(ts: seq<nat>, tg: seq<nat>, t: nat, j: nat)
    requires 1 <= j <= MAX_WINDOW && j < |ts| && j < |tg| && 0 < t <= MAX_BLOCK_TIME && forall i :: 0 <= i < |tg| ==>
             tg[i] < TWO64
    ensures W128(Weighted(ts, t, j - 1) + W128(Solve(ts, t, j) * j)) == Weighted(ts, t, j)
    ensures W128(Total(tg, j - 1) + tg[j]) == Total(tg, j)
  {
    hide W128, Solve;
    WeightedBound(ts, t, j);
    ExpectedBound(t, j);
    TotalBound(tg, j);
    TotalFits(j, Total(tg, j));
    W128Small(Weighted(ts, t, j));
    W128Small(Solve(ts, t, j) * j);
    W128Small(Total(tg, j));
  }

  lemma TotalFits(j: nat, total: nat)
    requires j <= MAX_WINDOW && total <= j * (TWO64 - 1)
    ensures total < TWO128
  {
    MulMono(j, MAX_WINDOW, TWO64 - 1);
  }

  /** For every block time and window the configuration accepts, no 128-bit operation of
      the retarget overflows: computed modulo 2^128 it is the exact retarget. */
  method LwmaNextTarget(timestamps: seq<nat>, targets: seq<nat>, t: nat, lo: nat, hi: nat,
      fallback: nat) returns (r: nat)
    requires t <= MAX_BLOCK_TIME && |timestamps| <= MAX_WINDOW + 1 && forall j :: 0 <= j < |targets| ==>
             targets[j] < TWO64
    ensures r == NextTarget(timestamps, targets, t, lo, hi, fallback)
  {
    hide W128, Weighted, Total, Limited, Clamp, Expected, Quotient;
    var count := if |timestamps| <= |targets| then |timestamps| else |targets|;
    if count < 2 || t == 0 { return Clamp(fallback, lo, hi); }
    var offTs, offTg, n := |timestamps| - count, |targets| - count, count - 1;
    var weighted, total := Accumulate(timestamps, targets, offTs, offTg, t, n);
    var k := Halve(n, t);
    var expected := W128(k * t);
    FinalFits(timestamps[offTs..], targets[offTg..], t, n);
    weighted := Max(weighted, expected / 10);
    var next := Quotient(W128(Quotient(total, n) * weighted), expected);
    r := Clamp(Limited(next, targets[offTg..][n]), lo, hi);
  }

  method Halve(n: nat, t: nat) returns (k: nat)
    requires 0 < n <= MAX_WINDOW && 0 < t <= MAX_BLOCK_TIME
    ensures k == Triangle(n) && W128(k * t) == Expected(t, n) == k * t
  {
    hide W128;
    TriangleIs(n);
    MulMono(n, MAX_WINDOW, n + 1);
    W128Small(n * (n + 1));
    k := W128(n * (n + 1)) / 2;
    ExpectedBound(t, n);
    W128Small(k * t);
  }

  lemma FinalFits(ts: seq<nat>, tg: seq<nat>, t: nat, n: nat)
    requires |ts| == |tg| == n + 1 && 0 < n <= MAX_WINDOW && 0 < t <= MAX_BLOCK_TIME && forall j :: 0 <= j < |tg| ==>
             tg[j] < TWO64
    ensures var avg, w := Quotient(Total(tg, n), n), Max(Weighted(ts, t, n), Expected(t, n) / 10);
            W128(avg * w) == avg * w
  {
    hide W128, Weighted, Total, Expected, Quotient;
    WeightedBound(ts, t, n);
    ExpectedBound(t, n);
    ExpectedIs(t, n);
    TotalBound(tg, n);
    AverageFits(Total(tg, n), n);
    var avg, w := Quotient(Total(tg, n), n), Max(Weighted(ts, t, n), Expected(t, n) / 10);
    MulMono(avg, TWO64, w);
    MulMono(w, 518_400_000_000, TWO64);
    W128Small(avg * w);
  }

  lemma AverageFits(total: nat, n: nat)
    requires n > 0 && total <= n * (TWO64 - 1)
    ensures Quotient(total, n) < TWO64
  {
    var q := total / n;
    assert q * n <= total;
    if q >= TWO64 { MulMono(TWO64, q, n); }
  }
}
