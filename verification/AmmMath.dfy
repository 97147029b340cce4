/** The integer arithmetic of the constant-product pools. */
module AmmMath {
  import opened Basics

  // --------------------------------------------------------------- square root

  /** One Newton step in 64-bit arithmetic; a zero divisor is a crash. */
  function NewtonStep(x: nat, r: nat): nat
    requires r > 0
  {
    W(r + x / r) / 2
  }

  /** The `i`-th value of the loop variable, or 0 once the division has crashed. */
  function Newton(x: nat, i: nat): nat {
    if i == 0 then x
    else
      var r := Newton(x, i - 1);
      if r == 0 then 0 else NewtonStep(x, r)
  }

  predicate IsSqrt(x: nat, r: nat) { r * r <= x < (r + 1) * (r + 1) }

  predicate OneBelowSquare(x: nat) { exists k :: 2 <= k <= x + 1 && k * k == x + 1 }

  lemma DivBounds(x: nat, r: nat)
    requires r > 0
    ensures (x / r) * r <= x < (x / r + 1) * r
  {
  }

  /** A divisor above the root has its quotient below it, and the two straddle. */
  lemma QuotientBelow(x: nat, r: nat, q: nat, s: nat)
    requires q * r <= x < (q + 1) * r && IsSqrt(x, s) && s < r
    ensures q < r
  {
    if q >= r {
      MulMono(r, q, r);
      MulMono(s + 1, r, r);
      MulMono(s + 1, r, s + 1);
    }
  }

  lemma Straddle(x: nat, r: nat, q: nat, s: nat)
    requires q * r <= x < (q + 1) * r && IsSqrt(x, s) && s < r
    ensures 2 * s <= r + q
  {
    if r + q < 2 * s {
      MulMono(q + 1, 2 * s - r, r);
      Difference(s, r);
    }
  }

  lemma Difference(s: nat, r: nat)
    ensures (2 * s - r) * r <= s * s
  {
    var d := s - r;
    assert (2 * s - r) * r == s * s - d * d;
    assert d * d >= 0;
  }

  lemma SumBelow(x: nat, r: nat, q: nat)
    requires q * r <= x && 1 <= q && 1 <= r
    ensures r + q <= x + 1
  {
    assert (q - 1) * (r - 1) == q * r - q - r + 1;
  }

  /** Above the root the step goes strictly down but never below it. */
  lemma StepDown(x: nat, r: nat, s: nat)
    requires x < MAX64 && IsSqrt(x, s) && s < r <= x
    ensures s <= NewtonStep(x, r) < r
  {
    hide IsSqrt, NewtonStep;
    var q := x / r;
    DivBounds(x, r);
    QuotientBelow(x, r, q, s);
    Straddle(x, r, q, s);
    if q > 0 { SumBelow(x, r, q); }
    StepIs(x, r, q);
    Between(s, q, r);
  }

  lemma StepIs(x: nat, r: nat, q: nat)
    requires r > 0 && q == x / r && r + q <= MAX64
    ensures NewtonStep(x, r) == (r + q) / 2
  {
  }

  lemma Between(s: nat, q: nat, r: nat)
    requires 2 * s <= r + q && q < r
    ensures s <= (r + q) / 2 < r
  {
  }

  /** The quotient at the root. */
  lemma QuotientAtRoot(x: nat, s: nat, q: nat)
    requires q * s <= x < (q + 1) * s && IsSqrt(x, s) && s > 0
    ensures s <= q <= s + 2 && (q == s + 2 <==> x + 1 == (s + 1) * (s + 1))
  {
    assert (s + 1) * (s + 1) == s * s + 2 * s + 1;
    assert (s + 2) * s == s * s + 2 * s && (s + 3) * s == s * s + 3 * s;
    if q < s { MulMono(q + 1, s, s); }
    if q > s + 2 { MulMono(s + 3, q, s); }
    if q == s + 1 { assert (q + 1) * s == s * s + 2 * s; }
    if q == s { assert (q + 1) * s == s * s + s; }
  }

  /** At the root the step stays put, unless `x + 1` is a square; then it goes up. */
  lemma StepAtRoot(x: nat, s: nat)
    requires x < MAX64 && IsSqrt(x, s) && s > 0
    ensures NewtonStep(x, s) == if x + 1 == (s + 1) * (s + 1) then s + 1 else s
  {
    hide IsSqrt, NewtonStep;
    var q := x / s;
    DivBounds(x, s);
    QuotientAtRoot(x, s, q);
    SumBelow(x, s, q);
    StepValue(x, s, q);
  }

  lemma StepValue(x: nat, s: nat, q: nat)
    requires s > 0 && q == x / s && s + q <= MAX64 && s <= q <= s + 2
    ensures NewtonStep(x, s) == if q == s + 2 then s + 1 else s
  {
  }

  lemma SqrtUnique(x: nat, r: nat, s: nat)
    requires IsSqrt(x, r) && IsSqrt(x, s)
    ensures r == s
  {
    if r < s { MulMono(r + 1, s, r + 1); MulMono(r + 1, s, s); }
    if s < r { MulMono(s + 1, r, s + 1); MulMono(s + 1, r, r); }
  }

  lemma {:induction false} SqrtExists(x: nat) returns (s: nat)
    ensures IsSqrt(x, s) && s <= x && (x > 0 ==> s > 0)
  {
    if x == 0 { return 0; }
    s := SqrtExists(x - 1);
    if (s + 1) * (s + 1) <= x {
      s := s + 1;
      assert (s + 1) * (s + 1) == s * s + 2 * s + 1;
    }
    if s > x { MulMono(x + 1, s, s); }
  }

  /** When `x + 1` is the square of `s + 1`, the loop runs down to `s` and then
      alternates between `s` and `s + 1` for ever. */
  lemma {:induction false} NewtonStays(x: nat, s: nat, i: nat)
    requires 0 < x < MAX64 && s > 0 && x + 1 == (s + 1) * (s + 1)
    ensures s <= Newton(x, i) <= x && Newton(x, i) != Newton(x, i + 1)
  {
    assert IsSqrt(x, s) && s < x by { assert (s + 1) * (s + 1) == s * s + 2 * s + 1; }
    if i > 0 { NewtonStays(x, s, i - 1); }
    var r := if i == 0 then x else Newton(x, i - 1);
    if i > 0 { if r > s { StepDown(x, r, s); } else { StepAtRoot(x, s); } }
    var now := Newton(x, i);
    if now > s { StepDown(x, now, s); } else { StepAtRoot(x, s); }
  }

  /** The largest word divides by zero at the second step. */
  lemma NewtonCrashes()
    ensures Newton(MAX64, 1) == 0
  {
    assert MAX64 / MAX64 == 1;
    assert Newton(MAX64, 0) == MAX64;
  }

  /** The Newton loop, started at `x`, until a step changes nothing. */
  method NewtonLoop(x: nat) returns (r: nat)
    requires 0 < x < MAX64 && !OneBelowSquare(x)
    ensures IsSqrt(x, r)
  {
    hide IsSqrt, NewtonStep;
    ghost var s := SqrtExists(x);
    r := x;
    var prev := 0;
    while r != prev
      invariant 0 < s <= r <= x && IsSqrt(x, s)
      invariant r == prev ==> r == s
      decreases r - s, if r == prev then 0 else 1
    {
      NotSquare(x, s);
      if r > s { StepDown(x, r, s); } else { StepAtRoot(x, s); }
      prev := r;
      r := NewtonStep(x, r);
    }
  }

  method CorrectUp(x: nat, r0: nat) returns (r: nat)
    requires x <= MAX64 && r0 * r0 <= x
    ensures IsSqrt(x, r)
  {
    r := r0;
    while r + 1 <= MAX64 / (r + 1) && (r + 1) * (r + 1) <= x
      invariant r * r <= x
      decreases x - r
    {
      MulMono(1, r + 1, r + 1);
      r := r + 1;
    }
    DivBounds(MAX64, r + 1);
    if r + 1 > MAX64 / (r + 1) { MulMono(MAX64 / (r + 1) + 1, r + 1, r + 1); }
  }

  method CorrectDown(x: nat, r0: nat) returns (r: nat)
    requires x < (r0 + 1) * (r0 + 1)
    ensures IsSqrt(x, r)
  {
    r := r0;
    while r * r > x
      invariant x < (r + 1) * (r + 1)
      decreases r
    {
      r := r - 1;
    }
  }

  /** The program's square root: Newton from above, then two correcting loops. It
      returns only when `x + 1` is not a perfect square. */
  method Isqrt(x: nat) returns (r: nat)
    requires x <= MAX64 && !OneBelowSquare(x)
    ensures IsSqrt(x, r)
  {
    if x == 0 { return 0; }
    NotLargest(x);
    r := NewtonLoop(x);
    r := CorrectUp(x, r);
    r := CorrectDown(x, r);
  }

  lemma NotSquare(x: nat, s: nat)
    requires !OneBelowSquare(x) && s > 0
    ensures x + 1 != (s + 1) * (s + 1)
  {
    if x + 1 == (s + 1) * (s + 1) { MulMono(1, s + 1, s + 1); }
  }

  lemma NotLargest(x: nat)
    requires x <= MAX64 && !OneBelowSquare(x)
    ensures x < MAX64
  {
    assert 0x1_0000_0000 * 0x1_0000_0000 == MAX64 + 1;
  }

  /** The loop leaves at step `i`: a step changed nothing, and no division crashed. */
  predicate Settled(x: nat, i: nat) { 0 < Newton(x, i) == Newton(x, i + 1) }

  /** From any value above the root the loop settles. */
  lemma {:induction false} NewtonSettles(x: nat, s: nat, i: nat) returns (j: nat)
    requires 0 < x < MAX64 && !OneBelowSquare(x) && IsSqrt(x, s) && 0 < s <= Newton(x, i) <= x
    ensures Settled(x, j)
    decreases Newton(x, i) - s
  {
    NotSquare(x, s);
    if Newton(x, i) == s {
      StepAtRoot(x, s);
      j := i;
    } else {
      StepDown(x, Newton(x, i), s);
      j := NewtonSettles(x, s, i + 1);
    }
  }

  /** The Newton loop ends exactly when `x + 1` is not a perfect square. */
  lemma LoopEndsIff(x: nat)
    requires 0 < x <= MAX64
    ensures (exists i: nat :: Settled(x, i)) <==> !OneBelowSquare(x)
  {
    hide Newton, IsSqrt;
    if !OneBelowSquare(x) {
      NotLargest(x);
      var s := SqrtExists(x);
      NewtonStarts(x);
      var j := NewtonSettles(x, s, 0);
    } else if x == MAX64 {
      forall i: nat ensures !Settled(x, i) { StaysCrashed(i); }
    } else {
      var k :| 2 <= k <= x + 1 && k * k == x + 1;
      forall i: nat ensures !Settled(x, i) { NewtonStays(x, k - 1, i); }
    }
  }

  lemma NewtonStarts(x: nat)
    ensures Newton(x, 0) == x
  {
  }

  lemma {:induction false} StaysCrashed(i: nat)
    ensures !Settled(MAX64, i)
  {
    NewtonCrashes();
    if i == 0 { assert Newton(MAX64, 0) == MAX64; } else { CrashedFrom(i); }
  }

  lemma {:induction false} CrashedFrom(i: nat)
    requires i > 0
    ensures Newton(MAX64, i) == 0
  {
    NewtonCrashes();
    if i > 1 { CrashedFrom(i - 1); }
  }

  function Sqrt(x: nat): (r: nat)
    ensures IsSqrt(x, r)
  {
    if x == 0 then 0
    else
      var s := Sqrt(x - 1);
      assert (s + 2) * (s + 2) == (s + 1) * (s + 1) + 2 * s + 3;
      if (s + 1) * (s + 1) <= x then s + 1 else s
  }

  // ------------------------------------------------------- the product of reserves

  lemma MulLe(a: nat, b: nat, c: nat, d: nat)
    requires a <= b && c <= d
    ensures a * c <= b * d
  {
    MulMono(a, b, c);
    MulMono(c, d, b);
  }

  lemma Cancel(a: int, b: int, c: nat)
    requires c > 0 && a * c <= b * c
    ensures a <= b
  {
    if a > b { MulMono(b + 1, a, c); }
  }

  lemma Distrib(x: int, y: int, z: int)
    ensures x * (y + z) == x * y + x * z
  {
  }

  lemma Assoc(x: int, y: int, z: int)
    ensures (x * y) * z == x * (y * z)
  {
  }

  /** The reserve paid out, at the old price, against the input at most. */
  lemma PaidOut(rin: nat, p: nat, out: nat, left: nat)
    requires out * (rin * 10000 + p) <= p * (left + out)
    ensures (out * rin) * 10000 <= p * left
  {
    Distrib(out, rin * 10000, p);
    Assoc(out, rin, 10000);
    Distrib(p, left, out);
  }

  lemma FeeShrinks(a: nat, fm: nat, left: nat)
    requires fm <= 10000
    ensures (a * fm) * left <= (a * left) * 10000
  {
    MulMono(fm, 10000, a * left);
    Assoc(a, fm, left);
    Assoc(a, left, fm);
  }

  /** A swap at a fee never lowers the product of the reserves. */
  lemma SwapKeepsProduct(rin: nat, rout: nat, a: nat, fm: nat, out: nat)
    requires fm <= 10000 && out <= rout && out * (rin * 10000 + a * fm) <= a * fm * rout
    ensures rin * rout <= (rin + a) * (rout - out)
  {
    var left := rout - out;
    PaidOut(rin, a * fm, out, left);
    FeeShrinks(a, fm, left);
    Cancel(out * rin, a * left, 10000);
    Distrib(left, rin, a);
    Distrib(rin, left, out);
  }

  /** Minting no more than the pool's share keeps the square of the LP supply below the
      product. */
  lemma MintKeepsProduct(lp: nat, r0: nat, r1: nat, a0: nat, a1: nat, m: nat)
    requires lp * lp <= r0 * r1 && 0 < r0 && 0 < r1 && m * r0 <= a0 * lp && m * r1 <= a1 * lp
    ensures (lp + m) * (lp + m) <= (r0 + a0) * (r1 + a1)
  {
    var s0, s1, t := r0 + a0, r1 + a1, lp + m;
    assert t * r0 <= lp * s0;
    assert t * r1 <= lp * s1;
    MulLe(t * r0, lp * s0, t * r1, lp * s1);
    Regroup(t, r0, r1);
    Regroup4(lp, s0, s1);
    MulMono(lp * lp, r0 * r1, s0 * s1);
    assert (t * t) * (r0 * r1) <= (s0 * s1) * (r0 * r1);
    Positive(r0, r1);
    Cancel(t * t, s0 * s1, r0 * r1);
  }

  lemma Regroup(t: nat, r0: nat, r1: nat)
    ensures (t * r0) * (t * r1) == (t * t) * (r0 * r1)
  {
  }

  lemma Regroup4(lp: nat, s0: nat, s1: nat)
    ensures (lp * s0) * (lp * s1) == (lp * lp) * (s0 * s1)
  {
  }

  lemma Positive(a: nat, b: nat)
    requires a > 0 && b > 0
    ensures a * b > 0
  {
  }

  /** What is left after taking at most a share is at least the share left. */
  lemma LeftShare(total: nat, l: nat, r: nat, t: nat)
    requires l <= total && t <= r && t * total <= r * l
    ensures r * (total - l) <= total * (r - t)
  {
    assert r * (total - l) == r * total - r * l;
    assert total * (r - t) == r * total - t * total;
  }

  /** Withdrawing no more than the share burnt keeps it too. */
  lemma BurnKeepsProduct(total: nat, l: nat, r0: nat, r1: nat, t0: nat, t1: nat)
    requires total * total <= r0 * r1 && l <= total && 0 < total && t0 <= r0 && t1 <= r1
    requires t0 * total <= r0 * l && t1 * total <= r1 * l
    ensures (total - l) * (total - l) <= (r0 - t0) * (r1 - t1)
  {
    var d, x, y := total - l, r0 - t0, r1 - t1;
    LeftShare(total, l, r0, t0);
    LeftShare(total, l, r1, t1);
    MulLe(r0 * d, total * x, r1 * d, total * y);
    Regroup(d, r0, r1);
    Regroup4(total, x, y);
    MulMono(total * total, r0 * r1, d * d);
    assert (d * d) * (total * total) <= (x * y) * (total * total);
    Positive(total, total);
    Cancel(d * d, x * y, total * total);
  }

  /** A share computed from a product that wrapped is at most the true share. */
  lemma ShareBelow(a: nat, b: nat, c: nat)
    requires c > 0
    ensures (W(a * b) / c) * c <= a * b
  {
    DivBounds(W(a * b), c);
    assert W(a * b) <= a * b;
  }
}
