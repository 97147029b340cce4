/** The emission schedule: a halving subsidy with a floor, clipped at a hard cap. */
module Emission {
  import opened Basics

  const TWO63: nat := 0x8000_0000_0000_0000

  datatype Schedule = Schedule(maxSupply: nat, reward: nat, interval: nat, floor: nat)

  /** A schedule whose figures are 64-bit words. */
  predicate Words(s: Schedule) { s.maxSupply < TWO64 && s.reward < TWO64 && s.interval < TWO64 && s.floor < TWO64 }

  /** `r` shifted right by `e`. */
  function Halved(r: nat, e: nat): nat { if e == 0 then r else Halved(r, e - 1) / 2 }

  function FloorRate(s: Schedule): nat { Min(s.floor, s.reward) }

  /** The rate of era `e`. */
  function Rate(s: Schedule, e: nat): nat { Max(if e >= 64 then 0 else Halved(s.reward, e), FloorRate(s)) }

  function Subsidy(s: Schedule, height: nat): nat {
    if s.interval == 0 then s.reward else Rate(s, height / s.interval)
  }

  function MaxMintable(s: Schedule, height: nat, emitted: nat): nat {
    Min(Subsidy(s, height), if s.maxSupply > emitted then s.maxSupply - emitted else 0)
  }

  /** What the blocks 1 to `height` mint when each takes all it may. */
  function Emitted(s: Schedule, height: nat): nat {
    if height == 0 then 0 else Emitted(s, height - 1) + MaxMintable(s, height, Emitted(s, height - 1))
  }

  /** The same without the cap. */
  function Unclipped(s: Schedule, height: nat): nat {
    if height == 0 then 0 else Unclipped(s, height - 1) + Subsidy(s, height)
  }

  lemma {:induction false} Clipped(s: Schedule, h: nat)
    ensures Emitted(s, h) == Min(s.maxSupply, Unclipped(s, h))
  {
    hide Subsidy;
    if h > 0 { Clipped(s, h - 1); }
  }

  lemma {:induction false} UnclippedGrows(s: Schedule, h: nat, g: nat)
    requires h <= g
    ensures Unclipped(s, h) <= Unclipped(s, g)
    decreases g
  {
    hide Subsidy;
    if h < g { UnclippedGrows(s, h, g - 1); }
  }

  // ---------------------------------------------------------------------- rates

  lemma {:induction false} HalvedShrinks(r: nat, e: nat, f: nat)
    requires e <= f
    ensures Halved(r, f) <= Halved(r, e)
    decreases f
  {
    if e < f { HalvedShrinks(r, e, f - 1); }
  }

  lemma {:induction false} Pow2Add(a: nat, b: nat)
    ensures Pow2(a + b) == Pow2(a) * Pow2(b)
  {
    if a > 0 { Pow2Add(a - 1, b); assert Pow2(a) * Pow2(b) == 2 * (Pow2(a - 1) * Pow2(b)); }
  }

  lemma Pow64()
    ensures Pow2(64) == TWO64
  {
    assert Pow2(4) == 16 by { assert Pow2(1) == 2 && Pow2(2) == 4 && Pow2(3) == 8; }
    Pow2Add(4, 4);
    Pow2Add(8, 8);
    Pow2Add(16, 16);
    Pow2Add(32, 32);
  }

  lemma {:induction false} HalvedBelow(r: nat, e: nat)
    requires e <= 64 && r < TWO64
    ensures Halved(r, e) < Pow2(64 - e)
  {
    if e > 0 { HalvedBelow(r, e - 1); assert Pow2(64 - (e - 1)) == 2 * Pow2(64 - e); }
    else { Pow64(); }
  }

  /** Once halving has met the floor the rate stays at the floor. */
  lemma FloorStays(s: Schedule, e: nat, f: nat)
    requires e <= f && e < 64 && Halved(s.reward, e) <= FloorRate(s)
    ensures Rate(s, f) == FloorRate(s)
  {
    hide Halved;
    if f < 64 { HalvedShrinks(s.reward, e, f); }
  }

  lemma RateShrinks(s: Schedule, e: nat, f: nat)
    requires e <= f
    ensures Rate(s, f) <= Rate(s, e)
  {
    hide Halved;
    HalvedShrinks(s.reward, e, f);
  }

  lemma HalvedZero(r: nat)
    ensures Halved(r, 0) == r
  {
  }

  /** `q` is `r / d`. */
  predicate Divides(r: nat, d: nat, q: nat) { d * q <= r < d * q + d }

  lemma HalfOf(r: nat, d: nat, q: nat)
    requires Divides(r, d, q)
    ensures Divides(r, 2 * d, q / 2)
  {
    var h := q / 2;
    assert q == 2 * h || q == 2 * h + 1;
    assert d * (2 * h) == 2 * d * h;
    assert d * (2 * h + 1) == 2 * d * h + d;
  }

  lemma {:induction false} HalvedIs(r: nat, e: nat)
    ensures Pow2(e) > 0 && Divides(r, Pow2(e), Halved(r, e))
  {
    if e > 0 {
      HalvedIs(r, e - 1);
      HalfOf(r, Pow2(e - 1), Halved(r, e - 1));
    }
  }

  /** The subsidy at a height: with `q` the reward divided by two to the number of halvings, all
      of them, `q` or the floor, whichever is greater, the floor being at most the reward; and
      never more than what is left to the cap. */
  lemma SubsidyIs(s: Schedule, height: nat, emitted: nat, q: nat)
    requires Words(s) && s.interval > 0 && Divides(s.reward, Pow2(height / s.interval), q)
    ensures Subsidy(s, height) == Max(q, Min(s.floor, s.reward))
    ensures MaxMintable(s, height, emitted) ==
            if emitted >= s.maxSupply then 0 else Min(Subsidy(s, height), s.maxSupply - emitted)
  {
    hide Divides, Halved;
    var e := height / s.interval;
    HalvedIs(s.reward, e);
    OneQuotient(s.reward, Pow2(e), q, Halved(s.reward, e));
    if e >= 64 { LateZero(s.reward, e); }
  }

  lemma OneQuotient(r: nat, d: nat, p: nat, q: nat)
    requires d > 0 && Divides(r, d, p) && Divides(r, d, q)
    ensures p == q
  {
    if p < q { MulMono(p + 1, q, d); }
    if q < p { MulMono(q + 1, p, d); }
  }

  lemma LateZero(r: nat, e: nat)
    requires r < TWO64 && e >= 64
    ensures Halved(r, e) == 0
  {
    hide Halved;
    HalvedBelow(r, 64);
    HalvedShrinks(r, 64, e);
  }

  // ------------------------------------------------------------------- one era

  lemma QuotientIs(h: nat, d: nat, q: nat)
    requires d > 0 && q * d <= h < (q + 1) * d
    ensures h / d == q
  {
    var k := h / d;
    assert k * d <= h < (k + 1) * d;
    if k < q { MulMono(k + 1, q, d); }
    if k > q { MulMono(q + 1, k, d); }
  }

  lemma QuotientAtLeast(h: nat, d: nat, q: nat)
    requires d > 0 && q * d <= h
    ensures h / d >= q
  {
    var k := h / d;
    assert h < (k + 1) * d;
    if k < q { MulMono(k + 1, q, d); }
  }

  /** A stretch of constant rate adds rate times length. */
  lemma {:induction false} ConstantRun(s: Schedule, from: nat, n: nat, r: nat)
    requires forall h :: from < h <= from + n ==> Subsidy(s, h) == r
    ensures Unclipped(s, from + n) == Unclipped(s, from) + r * n
    decreases n
  {
    hide Subsidy;
    if n > 0 { ConstantRun(s, from, n - 1, r); }
  }

  /** The blocks of era `e`. */
  lemma EraRate(s: Schedule, e: nat, h: nat)
    requires s.interval > 0 && e * s.interval <= h < (e + 1) * s.interval
    ensures Subsidy(s, h) == Rate(s, e)
  {
    hide Rate;
    QuotientIs(h, s.interval, e);
  }

  lemma FloorEraRate(s: Schedule, e: nat, h: nat)
    requires s.interval > 0 && e < 64 && e * s.interval <= h && Halved(s.reward, e) <= FloorRate(s)
    ensures Subsidy(s, h) == Rate(s, e)
  {
    hide Rate, Halved, FloorRate;
    QuotientAtLeast(h, s.interval, e);
    FloorStays(s, e, h / s.interval);
    FloorStays(s, e, e);
  }

  /** Where era `e` starts; genesis mints nothing. */
  function First(s: Schedule, e: nat): nat { if e == 0 then 1 else e * s.interval }

  /** How many blocks the program counts in era `e`. */
  function Length(s: Schedule, e: nat): nat
    requires s.interval > 0 && e < 64
  {
    if FloorEra(s, e) then if First(s, e) < TWO63 then TWO63 - First(s, e) else 0
    else if e == 0 then s.interval - 1 else s.interval
  }

  predicate FloorEra(s: Schedule, e: nat) { FloorRate(s) > 0 && Halved(s.reward, e) <= FloorRate(s) }

  lemma EraRun(s: Schedule, e: nat, k: nat)
    requires s.interval > 0 && e < 64 && k <= Length(s, e)
    ensures Unclipped(s, First(s, e) - 1 + k) == Unclipped(s, First(s, e) - 1) + Rate(s, e) * k
  {
    hide Subsidy, Rate, Halved, FloorRate;
    assert (e + 1) * s.interval == e * s.interval + s.interval;
    FirstAtLeast(s, e);
    forall h | First(s, e) - 1 < h <= First(s, e) - 1 + k ensures Subsidy(s, h) == Rate(s, e) {
      if FloorEra(s, e) { FloorEraRate(s, e, h); } else { EraRate(s, e, h); }
    }
    ConstantRun(s, First(s, e) - 1, k, Rate(s, e));
  }

  lemma FirstAtLeast(s: Schedule, e: nat)
    requires s.interval > 0
    ensures 1 <= First(s, e) && e * s.interval <= First(s, e)
  {
    if e > 0 { MulMono(1, e, s.interval); }
  }

  // ---------------------------------------------------------- what the result means

  /** `total` is where the clipped emission ends up. */
  ghost predicate Limit(s: Schedule, total: nat) {
    (forall h: nat :: Emitted(s, h) <= total) && (exists h: nat :: Emitted(s, h) == total)
  }

  /** `cap` is the first height at which the cap is reached. */
  ghost predicate FirstAtCap(s: Schedule, cap: nat) {
    Emitted(s, cap) == s.maxSupply && forall h: nat :: h < cap ==> Emitted(s, h) < s.maxSupply
  }

  lemma ReachedIsLimit(s: Schedule, cap: nat)
    requires Emitted(s, cap) == s.maxSupply
    ensures Limit(s, s.maxSupply)
  {
    forall h: nat ensures Emitted(s, h) <= s.maxSupply { Clipped(s, h); }
  }

  /** A height just short of which the unclipped sum is below the cap is the first. */
  lemma FirstReached(s: Schedule, cap: nat)
    requires cap > 0 && Unclipped(s, cap - 1) < s.maxSupply <= Unclipped(s, cap)
    ensures FirstAtCap(s, cap)
  {
    hide Unclipped, Emitted;
    Clipped(s, cap);
    forall h: nat | h < cap ensures Emitted(s, h) < s.maxSupply {
      UnclippedGrows(s, h, cap - 1);
      Clipped(s, h);
    }
  }

  lemma FirstUnique(s: Schedule, a: nat, b: nat)
    requires FirstAtCap(s, a) && FirstAtCap(s, b)
    ensures a == b
  {
    hide Emitted;
  }

  /** Nothing more is minted from `from` on. */
  lemma SilentIsLimit(s: Schedule, from: nat)
    requires (forall h :: h > from ==> Subsidy(s, h) == 0) && Unclipped(s, from) < s.maxSupply
    ensures Limit(s, Unclipped(s, from)) && forall h: nat :: Emitted(s, h) < s.maxSupply
  {
    hide Unclipped, Emitted, Subsidy;
    Clipped(s, from);
    forall h: nat ensures Emitted(s, h) <= Unclipped(s, from) {
      Clipped(s, h);
      if h <= from { UnclippedGrows(s, h, from); }
      else { ConstantRun(s, from, h - from, 0); }
    }
  }

  /** Rounding up a quotient picks the first multiple that is enough. */
  lemma CeilIsFirst(need: nat, r: nat)
    requires need > 0 && r > 0
    ensures var q := (need + r - 1) / r; q > 0 && r * (q - 1) < need <= r * q
  {
    var q := (need + r - 1) / r;
    assert q * r <= need + r - 1 < (q + 1) * r;
  }

  lemma CeilAtMost(need: nat, r: nat, n: nat)
    requires need > 0 && r > 0 && need <= r * n
    ensures (need + r - 1) / r <= n
  {
    var q := (need + r - 1) / r;
    CeilIsFirst(need, r);
    if q > n { MulMono(n, q - 1, r); }
  }

  /** The cap falls in era `e`, `q` blocks in. */
  lemma CapInEra(s: Schedule, e: nat, total: nat, q: nat)
    requires s.interval > 0 && e < 64 && total == Unclipped(s, First(s, e) - 1) < s.maxSupply
    requires 0 < q <= Length(s, e) && Rate(s, e) * (q - 1) < s.maxSupply - total <= Rate(s, e) * q
    ensures FirstAtCap(s, First(s, e) - 1 + q) && Limit(s, s.maxSupply)
  {
    hide Unclipped, Emitted, Rate, Length, FirstAtCap, Limit;
    FirstAtLeast(s, e);
    EraRun(s, e, q);
    EraRun(s, e, q - 1);
    FirstReached(s, First(s, e) - 1 + q);
    AtCap(s, First(s, e) - 1 + q);
    ReachedIsLimit(s, First(s, e) - 1 + q);
  }

  lemma AtCap(s: Schedule, cap: nat)
    requires FirstAtCap(s, cap)
    ensures Emitted(s, cap) == s.maxSupply
  {
  }

  // --------------------------------------------------------------- the program's loop

  /** What the loop knows when it enters era `e`. */
  ghost predicate Entering(s: Schedule, e: nat, total: nat)
    requires s.interval > 0
  {
    && total == Unclipped(s, First(s, e) - 1)
    && (e > 0 ==> total < s.maxSupply && e * s.interval <= total + 1)
    && forall f :: 0 <= f < e ==> !FloorEra(s, f)
  }

  lemma EnteringFirst(s: Schedule)
    requires s.interval > 0
    ensures Entering(s, 0, 0)
  {
  }

  function LastWord(s: Schedule, e: nat): nat { if FloorEra(s, e) then TWO63 - 1 else W(W((e + 1) * s.interval) - 1) }

  function FirstWord(s: Schedule, e: nat): nat { if e == 0 then 1 else W(e * s.interval) }

  /** The floor era that the loop cuts off at height 2^63 - 1 reaches the cap by then. */
  ghost predicate FloorInTime(s: Schedule) { FloorRate(s) == 0 || Unclipped(s, TWO63 - 1) >= s.maxSupply }

  /** It does for every cap below 2^63. */
  lemma SmallCapInTime(s: Schedule)
    requires s.maxSupply < TWO63
    ensures FloorInTime(s)
  {
    hide Subsidy;
    if FloorRate(s) > 0 {
      forall h: nat ensures Subsidy(s, h) >= 1 { AtLeastFloor(s, h); }
      AtLeastHeight(s, TWO63 - 1);
    }
  }

  lemma AtLeastFloor(s: Schedule, h: nat)
    ensures Subsidy(s, h) >= FloorRate(s)
  {
  }

  lemma {:induction false} AtLeastHeight(s: Schedule, h: nat)
    requires forall k: nat :: Subsidy(s, k) >= 1
    ensures Unclipped(s, h) >= h
  {
    hide Subsidy;
    if h > 0 { AtLeastHeight(s, h - 1); }
  }

  /** A cut floor era is entered before its end. */
  lemma FloorEntered(s: Schedule, e: nat, total: nat)
    requires s.interval > 0 && FloorInTime(s) && Entering(s, e, total) && FloorEra(s, e)
    ensures First(s, e) < TWO63
  {
    hide Unclipped;
    if First(s, e) >= TWO63 { UnclippedGrows(s, TWO63 - 1, First(s, e) - 1); }
  }

  /** The indices of an era are right although they are computed in 64 bits. */
  lemma NoWrap(s: Schedule, e: nat, total: nat)
    requires Words(s) && s.interval > 0 && FloorInTime(s) && e < 64 && Entering(s, e, total)
    ensures FirstWord(s, e) == First(s, e) && W(LastWord(s, e) - FirstWord(s, e) + 1) == Length(s, e)
  {
    hide FloorEra, Unclipped, FloorInTime, W;
    assert (e + 1) * s.interval == e * s.interval + s.interval;
    FirstAtLeast(s, e);
    if e > 0 { WSmall(e * s.interval); }
    if FloorEra(s, e) {
      FloorEntered(s, e, total);
      WSmall(Length(s, e));
    } else {
      var first := if e == 0 then 1 else e * s.interval;
      WLength((e + 1) * s.interval, first);
      WSmall(Length(s, e));
    }
  }

  lemma WLength(end: nat, first: nat)
    ensures W(W(W(end) - 1) - first + 1) == W(end - first)
  {
    WPlus(end, -1);
    WPlus(end - 1, 1 - first);
  }

  lemma WPlus(x: int, y: int)
    ensures W(W(x) + y) == W(x + y)
  {
  }

  lemma NextEra(s: Schedule, e: nat, total: nat)
    requires s.interval > 0 && e < 64 && Entering(s, e, total) && !FloorEra(s, e) && Rate(s, e) > 0
    requires total + Rate(s, e) * Length(s, e) < s.maxSupply
    ensures Entering(s, e + 1, total + Rate(s, e) * Length(s, e))
  {
    hide Rate, FloorEra, Unclipped;
    EraRun(s, e, Length(s, e));
    assert (e + 1) * s.interval == e * s.interval + s.interval;
    assert First(s, e + 1) - 1 == First(s, e) - 1 + Length(s, e);
    MulMono(1, Rate(s, e), Length(s, e));
  }

  lemma SilentFrom(s: Schedule, e: nat, total: nat)
    requires Words(s) && s.interval > 0 && Entering(s, e, total) && Rate(s, e) == 0
    ensures s.maxSupply > total ==> Limit(s, total) && forall h: nat :: Emitted(s, h) < s.maxSupply
  {
    hide Rate, Unclipped, Emitted, Limit, FloorEra;
    FirstAtLeast(s, e);
    forall h | h > First(s, e) - 1 ensures Subsidy(s, h) == 0 {
      QuotientAtLeast(h, s.interval, e);
      RateShrinks(s, e, h / s.interval);
    }
    if s.maxSupply > total { SilentIsLimit(s, First(s, e) - 1); }
  }

  lemma SilentAtEnd(s: Schedule, total: nat)
    requires Words(s) && s.interval > 0 && Entering(s, 64, total)
    ensures Rate(s, 64) == 0
  {
    hide Unclipped, Halved;
    HalvedBelow(s.reward, 63);
    assert Pow2(1) == 2;
    assert !FloorEra(s, 63);
  }

  /** The cap height as the program computes it, in 64 bits. */
  function CapWord(s: Schedule, e: nat, need: nat): nat
    requires Rate(s, e) > 0
  {
    W(FirstWord(s, e) + W(need + Rate(s, e) - 1) / Rate(s, e) - 1)
  }

  lemma FirstRate(s: Schedule, e: nat)
    requires s.interval > 0
    ensures e > 0 ==> Rate(s, e) <= Subsidy(s, 1)
    ensures Rate(s, 0) == s.reward && Subsidy(s, 1) <= s.reward
  {
    hide Halved;
    assert 1 / s.interval <= 1;
    HalvedZero(s.reward);
    RateShrinks(s, 1 / s.interval, if e > 0 then e else 1);
    RateShrinks(s, 0, 1 / s.interval);
  }

  /** In era 0 the first block exists unless every block is its own era. */
  lemma EraZero(s: Schedule)
    requires s.interval > 0 && 0 < Length(s, 0)
    ensures Subsidy(s, 1) == s.reward
  {
    hide Halved;
    HalvedZero(s.reward);
    if FloorEra(s, 0) { FloorEraRate(s, 0, 1); } else { QuotientIs(1, s.interval, 0); }
  }

  /** The era where the cap falls: the height is right unless `need + r - 1` wraps. */
  lemma CapHeight(s: Schedule, e: nat, total: nat)
    requires Words(s) && s.interval > 0 && FloorInTime(s) && e < 64 && Entering(s, e, total)
    requires Rate(s, e) > 0 && 0 < s.maxSupply - total <= Rate(s, e) * Length(s, e)
    ensures Limit(s, s.maxSupply)
    ensures FirstAtCap(s, CapWord(s, e, s.maxSupply - total)) <==> s.maxSupply - total + Rate(s, e) <= TWO64
  {
    hide Rate, Unclipped, Emitted, Limit, FirstAtCap, Length, FloorEra, Entering, W, First, FirstWord, Subsidy,
        FloorInTime;
    var need, r := s.maxSupply - total, Rate(s, e);
    var q := (need + r - 1) / r;
    NoWrap(s, e, total);
    CeilIsFirst(need, r);
    CeilAtMost(need, r, Length(s, e));
    EnteringTotal(s, e, total);
    CapInEra(s, e, total, q);
    FirstAtLeast(s, e);
    CeilSmall(need, r, q);
    RateWord(s, e);
    FirstSoFar(s, e, total);
    if need + r <= TWO64 {
      WSmall(need + r - 1);
      WSmall(First(s, e) + q - 1);
    } else {
      Wrapped(need, r);
      WSmall(First(s, e) - 1);
      if FirstAtCap(s, CapWord(s, e, need)) { FirstUnique(s, CapWord(s, e, need), First(s, e) - 1 + q); }
    }
  }

  lemma FirstSoFar(s: Schedule, e: nat, total: nat)
    requires s.interval > 0 && Entering(s, e, total)
    ensures First(s, e) <= total + 1
  {
  }

  lemma NoQuotient(x: nat, r: nat)
    requires x < r
    ensures x / r == 0
  {
  }

  lemma Wrapped(need: nat, r: nat)
    requires need + r > TWO64 && r < TWO64 && need < TWO64
    ensures W(need + r - 1) / r == 0
  {
    hide W;
    WOver(need + r - 1);
    NoQuotient(need + r - 1 - TWO64, r);
  }

  lemma CeilSmall(need: nat, r: nat, q: nat)
    requires need > 0 && r > 0 && q == (need + r - 1) / r && r * (q - 1) < need
    ensures 0 < q <= need
  {
    CeilIsFirst(need, r);
    MulMono(1, r, q - 1);
  }

  lemma EnteringTotal(s: Schedule, e: nat, total: nat)
    requires s.interval > 0 && Entering(s, e, total)
    ensures total == Unclipped(s, First(s, e) - 1)
  {
  }

  lemma RateWord(s: Schedule, e: nat)
    requires Words(s)
    ensures Rate(s, e) < TWO64
  {
    HalvedShrinks(s.reward, 0, e);
  }

  /** Whether the wrap happens can be told from the first block's subsidy. */
  lemma WrapsIff(s: Schedule, e: nat, total: nat)
    requires Words(s) && s.interval > 0 && s.maxSupply < TWO63 && e < 64 && Entering(s, e, total)
    requires Rate(s, e) > 0 && 0 < s.maxSupply - total <= Rate(s, e) * Length(s, e)
    ensures s.maxSupply - total + Rate(s, e) <= TWO64 <==> s.maxSupply + Subsidy(s, 1) <= TWO64
  {
    hide Rate, Length, FloorEra, Halved;
    FirstRate(s, e);
    if e == 0 {
      EnteringZero(s, total);
      EraZero(s);
    } else {
      if s.maxSupply + Subsidy(s, 1) > TWO64 {
        NotReached(s, e, total);
      }
    }
  }

  lemma EnteringZero(s: Schedule, total: nat)
    requires s.interval > 0 && Entering(s, 0, total)
    ensures total == 0
  {
  }

  /** If the first block alone reaches the cap, no later era than its own is entered. */
  lemma NotReached(s: Schedule, e: nat, total: nat)
    requires s.interval > 0 && s.maxSupply < TWO63 && e > 0 && Entering(s, e, total) &&
             s.maxSupply + Subsidy(s, 1) > TWO64
    ensures total == 0 && Rate(s, e) == Subsidy(s, 1)
  {
    hide Rate, FloorEra, Halved, Subsidy, Unclipped;
    NothingYet(s);
    FirstAtLeast(s, e);
    if First(s, e) > 1 {
      FirstBlock(s);
      UnclippedGrows(s, 1, First(s, e) - 1);
    } else {
      MulMono(1, e, s.interval);
      OneBlockEra(s, e);
    }
  }

  lemma FirstBlock(s: Schedule)
    ensures Unclipped(s, 1) == Subsidy(s, 1)
  {
    hide Subsidy;
    assert Unclipped(s, 0) == 0;
  }

  lemma NothingYet(s: Schedule)
    ensures Unclipped(s, 0) == 0
  {
  }

  lemma OneBlockEra(s: Schedule, e: nat)
    requires s.interval > 0 && e * s.interval == 1
    ensures e == 1 && Subsidy(s, 1) == Rate(s, e)
  {
    hide Rate;
    if e > 1 { MulMono(2, e, s.interval); }
    if s.interval > 1 { MulMono(2, s.interval, e); }
  }

  /** What has been minted before era `e`. */
  function Before(s: Schedule, e: nat): nat
    requires s.interval > 0
  {
    FirstAtLeast(s, e);
    Unclipped(s, First(s, e) - 1)
  }

  /** The cap is reached in era `e`. */
  predicate FallsIn(s: Schedule, e: nat)
    requires s.interval > 0
  {
    e < 64 && Before(s, e) < s.maxSupply <= Before(s, e) + Rate(s, e) * Length(s, e)
  }

  /** What era `e` has left to mint, rounded up to whole blocks, fits a word. */
  predicate RoundingFits(s: Schedule, e: nat)
    requires s.interval > 0
  {
    s.maxSupply - Before(s, e) + Rate(s, e) <= TWO64
  }

  /** What era `e` adds, as the program counts it. */
  function EraAdds(s: Schedule, e: nat): nat { Rate(s, e) * W(LastWord(s, e) - FirstWord(s, e) + 1) }

  /** What the program's loop returns from era `e` on. */
  function Eras(s: Schedule, e: nat, total: nat): (nat, nat)
    requires total <= s.maxSupply
    decreases 64 - e
  {
    if e >= 64 || Rate(s, e) == 0 then (total, 0)
    else
      var add := EraAdds(s, e);
      if total + add >= s.maxSupply then (s.maxSupply, CapWord(s, e, s.maxSupply - total))
      else Eras(s, e + 1, total + add)
  }

  lemma ErasStep(s: Schedule, e: nat, total: nat)
    requires total <= s.maxSupply
    ensures e >= 64 || Rate(s, e) == 0 ==> Eras(s, e, total) == (total, 0)
    ensures e < 64 && Rate(s, e) > 0 ==>
            var add := EraAdds(s, e);
            Eras(s, e, total) == if total + add >= s.maxSupply then (s.maxSupply, CapWord(s, e, s.maxSupply - total))
                                 else Eras(s, e + 1, total + add)
  {
    hide Rate, EraAdds, CapWord;
  }

  /** The closed form agrees with block-by-block emission, for every reward, interval and
      floor, whenever a floor era reaches the cap by height 2^63 - 1, as it does for every
      cap below 2^63. The height is the first at the cap exactly when the rounding addition
      in the era of the cap fits a word: for caps below 2^63, when cap plus first subsidy
      does. */
  method ScheduledTotal(s: Schedule) returns (total: nat, cap: nat, ghost era: nat)
    requires Words(s)
    ensures (total, cap) == if s.interval == 0 then (0, 0) else Eras(s, 0, 0)
    ensures s.maxSupply < TWO63 ==> FloorInTime(s)
    ensures s.interval > 0 && FloorInTime(s) ==> Limit(s, total)
    ensures s.interval > 0 && FloorInTime(s) && total == s.maxSupply > 0 ==>
            FallsIn(s, era) && (FirstAtCap(s, cap) <==> RoundingFits(s, era))
    ensures s.interval > 0 && total == s.maxSupply < TWO63 ==>
            (FirstAtCap(s, cap) <==> s.maxSupply == 0 || s.maxSupply + Subsidy(s, 1) <= TWO64)
    ensures s.interval > 0 && FloorInTime(s) && total != s.maxSupply ==>
            cap == 0 && forall h: nat :: Emitted(s, h) < s.maxSupply
  {
    hide Limit, FirstAtCap, Rate, Emitted, Subsidy, Entering, Halved, Length, W, CapWord, FloorEra, FirstWord,
        LastWord, First, FloorInTime, Unclipped, FallsIn, RoundingFits, Eras;
    total, cap, era := 0, 0, 0;
    if s.maxSupply < TWO63 { SmallCapInTime(s); }
    if s.interval == 0 { return; }
    if s.maxSupply == 0 { NothingToMint(s); }
    EnteringFirst(s);
    var e := 0;
    while e < 64
      invariant e <= 64 && cap == 0 && total <= s.maxSupply && if e == 0 then total == 0 else total < s.maxSupply
      invariant Eras(s, e, total) == Eras(s, 0, 0) && (FloorInTime(s) ==> Entering(s, e, total))
    {
      var r := Rate(s, e);
      ErasStep(s, e, total);
      if r == 0 { break; }
      var first := FirstWord(s, e);
      var n := W(LastWord(s, e) - first + 1);
      if total + r * n >= s.maxSupply {
        cap, era := CapWord(s, e, s.maxSupply - total), e;
        if FloorInTime(s) { Falls(s, e, total); }
        return s.maxSupply, cap, era;
      }
      if FloorInTime(s) { Continues(s, e, total); }
      total := total + r * n;
      e := e + 1;
    }
    ErasStep(s, e, total);
    if FloorInTime(s) {
      if e == 64 { SilentAtEnd(s, total); }
      SilentFrom(s, e, total);
    }
  }

  /** The cap falls in era `e`. */
  lemma Falls(s: Schedule, e: nat, total: nat)
    requires Words(s) && s.interval > 0 && FloorInTime(s) && e < 64 && Entering(s, e, total) && Rate(s, e) > 0
    requires total + EraAdds(s, e) >= s.maxSupply >= total
    requires e > 0 ==> total < s.maxSupply
    ensures Limit(s, s.maxSupply)
    ensures var cap := CapWord(s, e, s.maxSupply - total);
            && (s.maxSupply > 0 ==> FallsIn(s, e) && (FirstAtCap(s, cap) <==> RoundingFits(s, e)))
            && (s.maxSupply < TWO63 ==>
                 (FirstAtCap(s, cap) <==> s.maxSupply == 0 || s.maxSupply + Subsidy(s, 1) <= TWO64))
  {
    hide Limit, FirstAtCap, Rate, Emitted, Subsidy, Entering, Halved, Length, W, CapWord, FloorEra, FirstWord,
        LastWord, First, FloorInTime, Unclipped;
    EraStart(s, e, total);
    NoWrap(s, e, total);
    EnteringTotal(s, e, total);
    if s.maxSupply == 0 {
      NothingToMint(s);
      RateWord(s, e);
      NoNeed(s, Rate(s, e));
    } else {
      CapHeight(s, e, total);
      if s.maxSupply < TWO63 { WrapsIff(s, e, total); }
    }
  }

  /** It does not, and a later era is entered. */
  lemma Continues(s: Schedule, e: nat, total: nat)
    requires Words(s) && s.interval > 0 && FloorInTime(s) && e < 64 && Entering(s, e, total) && Rate(s, e) > 0
    requires total + EraAdds(s, e) < s.maxSupply
    ensures Entering(s, e + 1, total + EraAdds(s, e))
  {
    hide Rate, Emitted, Subsidy, Entering, Halved, Length, W, FirstWord, LastWord, First, FloorInTime, Unclipped,
        FloorEra;
    NoWrap(s, e, total);
    if FloorEra(s, e) { FloorReaches(s, e, total); }
    NextEra(s, e, total);
  }

  lemma EraStart(s: Schedule, e: nat, total: nat)
    requires s.interval > 0 && Entering(s, e, total)
    ensures total <= s.maxSupply && (e == 0 ==> total == 0)
  {
  }

  /** A floor era lasts long enough to reach the cap. */
  lemma FloorReaches(s: Schedule, e: nat, total: nat)
    requires s.interval > 0 && FloorInTime(s) && e < 64 && Entering(s, e, total) && FloorEra(s, e)
    ensures total + Rate(s, e) * Length(s, e) >= s.maxSupply
  {
    hide Rate, Unclipped, Halved, FloorRate;
    FloorEntered(s, e, total);
    EraRun(s, e, Length(s, e));
    assert First(s, e) - 1 + Length(s, e) == TWO63 - 1;
    FloorPositive(s, e);
  }

  lemma FloorPositive(s: Schedule, e: nat)
    requires FloorEra(s, e)
    ensures FloorRate(s) > 0
  {
  }

  lemma NothingToMint(s: Schedule)
    requires s.maxSupply == 0
    ensures Limit(s, 0) && FirstAtCap(s, 0)
  {
    ReachedIsLimit(s, 0);
  }

  lemma NoNeed(s: Schedule, r: nat)
    requires 0 < r < TWO64 && Rate(s, 0) == r
    ensures CapWord(s, 0, 0) == 0
  {
    hide Rate, W;
    WSmall(r - 1);
    WSmall(0);
    assert (r - 1) / r == 0;
  }

  /** With no halving interval the closed form reports nothing, and that is right only
      when nothing is ever minted. */
  lemma NoInterval(s: Schedule)
    requires s.interval == 0
    ensures Limit(s, 0) <==> s.reward == 0 || s.maxSupply == 0
  {
    Clipped(s, 1);
    assert Unclipped(s, 1) == Unclipped(s, 0) + Subsidy(s, 1);
    if s.reward == 0 || s.maxSupply == 0 {
      forall h: nat ensures Emitted(s, h) <= 0 {
        Clipped(s, h);
        if s.reward == 0 { ConstantRun(s, 0, h, 0); }
      }
      assert Emitted(s, 0) == 0;
    }
  }

  /** A cap of 2 with the largest reward: the first block reaches it, and the program
      reports height 0. */
  lemma CapHeightOffByOne()
    ensures var s := Schedule(2, MAX64, 2, 0); FirstAtCap(s, 1) && Eras(s, 0, 0) == (2, 0)
  {
    hide W, Eras;
    var s := Schedule(2, MAX64, 2, 0);
    HalvedZero(s.reward);
    Clipped(s, 1);
    Clipped(s, 0);
    FirstBlock(s);
    WOver(2 + MAX64 - 1);
    WSmall(0);
    WSmall(1);
    WSmall(2);
    assert 1 / s.interval == 0;
    ErasStep(s, 0, 0);
  }

  /** One coin a block for ever reaches the cap at the height of its own figure. */
  lemma OneABlock(cap: nat, interval: nat)
    requires cap > 0 && interval > 0
    ensures FirstAtCap(Schedule(cap, 1, interval, 1), cap)
  {
    hide Unclipped, FirstAtCap, Rate;
    var s := Schedule(cap, 1, interval, 1);
    forall h: nat ensures Subsidy(s, h) == 1 { OneRate(s, h / interval); }
    NothingYet(s);
    ConstantRun(s, 0, cap, 1);
    ConstantRun(s, 0, cap - 1, 1);
    FirstReached(s, cap);
  }

  lemma OneRate(s: Schedule, e: nat)
    requires s.reward == 1 == s.floor
    ensures Rate(s, e) == 1
  {
    HalvedShrinks(1, 0, e);
    assert Halved(1, 0) == 1;
  }

  /** When a floor era is cut off before the cap, the later eras count the same blocks
      again: a schedule that reaches its cap at height 2^64 - 1 is reported to do so at
      height 2. */
  lemma FloorCutOff()
    ensures var s := Schedule(MAX64, 1, 1, 1);
            !FloorInTime(s) && Eras(s, 0, 0) == (MAX64, 2) && FirstAtCap(s, MAX64)
  {
    hide Rate, FirstAtCap, Eras, Unclipped;
    var s := Schedule(MAX64, 1, 1, 1);
    OneABlock(MAX64, 1);
    NotInTime(s);
    OneRates(s, 2);
    ErasStep(s, 0, 0);
    ErasStep(s, 1, TWO63 - 1);
    ErasStep(s, 2, TWO64 - 2);
  }

  /** Counting twice can also cancel out, so no condition on the cut-off era alone decides
      whether the height is right. */
  lemma FloorCutOffYetRight()
    ensures var s := Schedule(MAX64, 1, 0x4000_0000_0000_0000, 1);
            !FloorInTime(s) && Eras(s, 0, 0) == (MAX64, MAX64) && FirstAtCap(s, MAX64)
  {
    hide Rate, FirstAtCap, Eras, Unclipped;
    var s := Schedule(MAX64, 1, 0x4000_0000_0000_0000, 1);
    OneABlock(MAX64, s.interval);
    NotInTime(s);
    OneRates(s, 3);
    ErasStep(s, 0, 0);
    ErasStep(s, 1, TWO63 - 1);
    ErasStep(s, 2, 3 * s.interval - 1);
    ErasStep(s, 3, 3 * s.interval - 1);
  }

  lemma OneRates(s: Schedule, n: nat)
    requires s.reward == 1 == s.floor
    ensures forall e :: 0 <= e <= n ==> Rate(s, e) == 1 && FloorEra(s, e)
  {
    hide Rate;
    forall e | 0 <= e <= n ensures Rate(s, e) == 1 && FloorEra(s, e) {
      OneRate(s, e);
      HalvedShrinks(1, 0, e);
      assert Halved(1, 0) == 1;
    }
  }

  lemma NotInTime(s: Schedule)
    requires s.maxSupply == MAX64 && s.reward == 1 == s.floor && s.interval > 0
    ensures !FloorInTime(s)
  {
    hide Unclipped, Rate;
    forall h: nat ensures Subsidy(s, h) == 1 { OneRate(s, h / s.interval); }
    NothingYet(s);
    ConstantRun(s, 0, TWO63 - 1, 1);
  }
}
