/** Liquidity and swaps keep the engine's invariant, and succeed exactly when the
    caller's own figures allow it: every overflow check in them is unreachable. */
module TokenPools {
  import opened Basics
  import opened AmmMath
  import opened Sums
  import opened Text
  import opened TokenEngine
  import opened TokenInvariant

  lemma PoolFacts(e: Engine, k: PoolKey)
    requires Inv(e) && k in e.pools
    ensures var p := e.pools[k];
            && k == (p.token0, p.token1) && p.token0 != p.token1 && p.token0 in e.tokens && p.token1 in e.tokens
            && p.feeBps < FEE_DENOM && PoolOk(p)
  {
    hide PoolOk, Funded;
    assert KeyedRight(e, k);
    LessTotal(k.0, k.1);
  }

  /** A wallet's balance together with one pool's reserve of the same token fits 64 bits. */
  lemma HoldingsFit(e: Engine, k: PoolKey, t: string, who: string)
    requires Inv(e) && k in e.pools && t in e.tokens
    ensures Bal(e, t, who) + Part(e.pools[k], t) <= MAX64
  {
    hide PoolOk, Sum;
    assert Funded(e, t);
    SumAtLeast(e.tokens[t].balances, who);
    PartBelow(e.pools, k, t);
  }

  // ------------------------------------------------------------------------ deposit

  lemma ShareIsBelow(a: nat, b: nat, c: nat)
    requires c > 0
    ensures Share(a, b, c) * c <= a * b
  {
    ShareBelow(a, b, c);
  }

  lemma MintedLpBelow(p: Pool, add0: nat, add1: nat)
    requires add1 > 0 && MintedLp(p, add0, add1).Some? && p.lpTotal > 0
    ensures var m := MintedLp(p, add0, add1).value;
            p.reserve0 > 0 && p.reserve1 > 0 && m * p.reserve0 <= add0 * p.lpTotal && m * p.reserve1 <= add1 * p.lpTotal
  {
    hide Share, ProductFits, Times;
    var m := MintedLp(p, add0, add1).value;
    var lp0, lp1 := Share(add0, p.lpTotal, p.reserve0), Share(add1, p.lpTotal, p.reserve1);
    ShareIsBelow(add0, p.lpTotal, p.reserve0);
    ShareIsBelow(add1, p.lpTotal, p.reserve1);
    MulMono(m, lp0, p.reserve0);
    MulMono(m, lp1, p.reserve1);
  }

  lemma FirstLp(p: Pool, add0: nat, add1: nat)
    requires add1 > 0 && MintedLp(p, add0, add1).Some? && p.lpTotal == 0
    ensures var m := MintedLp(p, add0, add1).value; m * m <= add0 * add1
  {
    var m := MintedLp(p, add0, add1).value;
    assert IsSqrt(add0 * add1, m);
  }

  lemma GrowsProduct(r0: nat, r1: nat, a0: nat, a1: nat)
    ensures a0 * a1 <= (r0 + a0) * (r1 + a1)
  {
    MulLe(a0, r0 + a0, a1, r1 + a1);
  }

  /** The LP supply's square stays below the product even where a share product wraps. */
  lemma DepositProduct(p: Pool, add0: nat, add1: nat)
    requires p.lpTotal * p.lpTotal <= p.reserve0 * p.reserve1 && add1 > 0 && MintedLp(p, add0, add1).Some?
    ensures var m := MintedLp(p, add0, add1).value;
            (p.lpTotal + m) * (p.lpTotal + m) <= (p.reserve0 + add0) * (p.reserve1 + add1)
  {
    hide MintedLp;
    var m := MintedLp(p, add0, add1).value;
    if p.lpTotal == 0 {
      FirstLp(p, add0, add1);
      GrowsProduct(p.reserve0, p.reserve1, add0, add1);
    } else {
      MintedLpBelow(p, add0, add1);
      MintKeepsProduct(p.lpTotal, p.reserve0, p.reserve1, add0, add1, m);
    }
  }

  lemma RootFits(l: nat, x: nat, y: nat)
    requires l * l <= x * y && x <= MAX64 && y <= MAX64
    ensures l <= MAX64
  {
    if l > MAX64 {
      MulLe(x, MAX64, y, MAX64);
      MulLe(MAX64 + 1, l, MAX64 + 1, l);
    }
  }

  lemma DepositOk(p: Pool, who: string, add0: nat, add1: nat)
    requires PoolOk(p) && add1 > 0 && MintedLp(p, add0, add1).Some?
    ensures PoolOk(Deposited(p, who, add0, add1, MintedLp(p, add0, add1).value))
  {
    hide MintedLp;
    var m := MintedLp(p, add0, add1).value;
    DepositProduct(p, add0, add1);
    SumUpdate(p.lpBalances, who, Get(p.lpBalances, who) + m);
  }

  lemma DepositFitsAlways(p: Pool, who: string, add0: nat, add1: nat, m: nat)
    requires PoolOk(Deposited(p, who, add0, add1, m)) && p.reserve0 + add0 <= MAX64 && p.reserve1 + add1 <= MAX64
    ensures DepositFits(p, who, add0, add1, m)
  {
    var q := Deposited(p, who, add0, add1, m);
    RootFits(q.lpTotal, q.reserve0, q.reserve1);
    SumAtLeast(q.lpBalances, who);
  }

  /** A deposit that the pair's pool accepts. */
  predicate CanDeposit(e: Engine, a: string, b: string, who: string, amountA: nat, amountB: nat) {
    && who != "" && amountA > 0 && amountB > 0 && KeyOf(a, b).Some? && KeyOf(a, b).value in e.pools
    && Bal(e, a, who) >= amountA && Bal(e, b, who) >= amountB
    && var p := e.pools[KeyOf(a, b).value];
       var m := if a == p.token0 then MintedLp(p, amountA, amountB) else MintedLp(p, amountB, amountA);
       m.Some? && m.value > 0
  }

  lemma KeyTokens(a: string, b: string)
    requires KeyOf(a, b).Some?
    ensures KeyOf(a, b).value in {(a, b), (b, a)} && a != b
  {
  }

  lemma AddLiquidityKeeps(e: Engine, a: string, b: string, who: string, amountA: nat, amountB: nat)
    requires Inv(e)
    ensures Inv(AddLiquidity(e, a, b, who, amountA, amountB).0)
    ensures AddLiquidity(e, a, b, who, amountA, amountB).1 <==> CanDeposit(e, a, b, who, amountA, amountB)
  {
    hide Inv, MintedLp, Settle, KeyOf, DepositFits, Bal, Deposited;
    var k := KeyOf(a, b);
    if who != "" && amountA > 0 && amountB > 0 && k.Some? && k.value in e.pools {
      var p := e.pools[k.value];
      PoolFacts(e, k.value);
      KeyTokens(a, b);
      var add0, add1 := if a == p.token0 then amountA else amountB, if a == p.token0 then amountB else amountA;
      var m := MintedLp(p, add0, add1);
      if m.Some? && m.value > 0 && Bal(e, p.token0, who) >= add0 && Bal(e, p.token1, who) >= add1 {
        DepositedKeeps(e, k.value, who, add0, add1);
      }
    }
  }

  lemma DepositedKeeps(e: Engine, k: PoolKey, who: string, add0: nat, add1: nat)
    requires Inv(e) && k in e.pools && add1 > 0
    requires Bal(e, e.pools[k].token0, who) >= add0 && Bal(e, e.pools[k].token1, who) >= add1
    requires MintedLp(e.pools[k], add0, add1).Some?
    ensures var p := e.pools[k];
            var m := MintedLp(p, add0, add1).value;
            && p.token0 in e.tokens && p.token1 in e.tokens && p.token0 != p.token1
            && DepositFits(p, who, add0, add1, m) && Inv(Settle(e, k, Deposited(p, who, add0, add1, m), who))
  {
    hide Inv, MintedLp, Settle, DepositFits, Bal, PoolOk;
    var p := e.pools[k];
    var m := MintedLp(p, add0, add1).value;
    PoolFacts(e, k);
    DepositOk(p, who, add0, add1);
    HoldingsFit(e, k, p.token0, who);
    HoldingsFit(e, k, p.token1, who);
    DepositFitsAlways(p, who, add0, add1, m);
    SettleKeeps(e, k, Deposited(p, who, add0, add1, m), who);
  }

  // --------------------------------------------------------------------- withdrawal

  lemma ShareOfReserve(r: nat, l: nat, total: nat)
    requires l <= total && total > 0
    ensures Share(r, l, total) <= r
  {
    ShareIsBelow(r, l, total);
    MulMono(l, total, r);
    Cancel(Share(r, l, total), r, total);
  }

  /** When its product does not wrap, a share is the exact proportion, rounded down. */
  lemma ShareExact(a: nat, b: nat, c: nat)
    requires c > 0 && a * b <= MAX64
    ensures Share(a, b, c) * c <= a * b < (Share(a, b, c) + 1) * c
  {
    assert W(Times(a, b)) == a * b;
    DivBounds(a * b, c);
  }

  /** A withdrawal is refused only for lack of shares or because a share rounds to nothing. */
  predicate CanWithdraw(p: Pool, who: string, lp: nat) {
    Get(p.lpBalances, who) >= lp && p.lpTotal > 0 && Share(p.reserve0, lp, p.lpTotal) > 0 &&
        Share(p.reserve1, lp, p.lpTotal) > 0
  }

  lemma WithdrawnIff(p: Pool, who: string, lp: nat)
    requires PoolOk(p)
    ensures Withdrawn(p, who, lp).Some? <==> CanWithdraw(p, who, lp)
  {
    hide Share;
    SumAtLeast(p.lpBalances, who);
    if Get(p.lpBalances, who) >= lp && p.lpTotal > 0 {
      ShareOfReserve(p.reserve0, lp, p.lpTotal);
      ShareOfReserve(p.reserve1, lp, p.lpTotal);
    }
  }

  lemma WithdrawnOk(p: Pool, who: string, lp: nat)
    requires PoolOk(p) && Withdrawn(p, who, lp).Some?
    ensures PoolOk(Withdrawn(p, who, lp).value)
  {
    hide Share, Sum;
    var t0, t1 := Share(p.reserve0, lp, p.lpTotal), Share(p.reserve1, lp, p.lpTotal);
    ShareIsBelow(p.reserve0, lp, p.lpTotal);
    ShareIsBelow(p.reserve1, lp, p.lpTotal);
    BurnKeepsProduct(p.lpTotal, lp, p.reserve0, p.reserve1, t0, t1);
    SumUpdate(p.lpBalances, who, Get(p.lpBalances, who) - lp);
  }

  lemma WithdrawnShape(p: Pool, who: string, lp: nat)
    requires Withdrawn(p, who, lp).Some?
    ensures var q := Withdrawn(p, who, lp).value;
            && q.token0 == p.token0 && q.token1 == p.token1 && q.feeBps == p.feeBps
            && q.reserve0 < p.reserve0 && q.reserve1 < p.reserve1
  {
    hide Share;
  }

  lemma RemoveLiquidityKeeps(e: Engine, a: string, b: string, who: string, lp: nat)
    requires Inv(e)
    ensures Inv(RemoveLiquidity(e, a, b, who, lp).0)
    ensures RemoveLiquidity(e, a, b, who, lp).1.Some? <==>
            who != "" && lp > 0 && KeyOf(a, b).Some? && KeyOf(a, b).value in e.pools &&
                CanWithdraw(e.pools[KeyOf(a, b).value], who, lp)
  {
    hide Inv, Withdrawn, Settle, KeyOf, Bal, PoolOk, CanWithdraw;
    var k := KeyOf(a, b);
    if who != "" && lp > 0 && k.Some? && k.value in e.pools {
      var p := e.pools[k.value];
      PoolFacts(e, k.value);
      WithdrawnIff(p, who, lp);
      var q := Withdrawn(p, who, lp);
      if q.Some? {
        WithdrawnOk(p, who, lp);
        WithdrawnShape(p, who, lp);
        HoldingsFit(e, k.value, p.token0, who);
        HoldingsFit(e, k.value, p.token1, who);
        SettleKeeps(e, k.value, q.value, who);
      }
    }
  }

  // --------------------------------------------------------------------------- swap

  lemma PriceFacts(rin: nat, rout: nat, mult: nat, a: nat)
    requires Price(rin, rout, mult, a).Some?
    ensures var out := Price(rin, rout, mult, a).value;
            0 < out < rout && out * (rin * 10000 + a * mult) <= a * mult * rout
  {
    hide ProductFits;
    var out := Price(rin, rout, mult, a).value;
    DivBounds(Times(Times(a, mult), rout), rin * FEE_DENOM + Times(a, mult));
  }

  /** One unit more would break the constant product: the price is the largest there is. */
  lemma PriceLargest(rin: nat, rout: nat, mult: nat, a: nat)
    requires Price(rin, rout, mult, a).Some?
    ensures a * mult * rout < (Price(rin, rout, mult, a).value + 1) * (rin * 10000 + a * mult)
  {
    hide ProductFits;
    DivBounds(Times(Times(a, mult), rout), rin * FEE_DENOM + Times(a, mult));
  }

  lemma SwapOk(p: Pool, in0: bool, a: nat)
    requires PoolOk(p) && QuotePool(p, in0, a).Some?
    ensures var out := QuotePool(p, in0, a).value;
            && 0 < out < (if in0 then p.reserve1 else p.reserve0)
            && PoolOk(Swapped(p, in0, a, out))
  {
    hide Price, Sum;
    var out := QuotePool(p, in0, a).value;
    var rin, rout := if in0 then p.reserve0 else p.reserve1, if in0 then p.reserve1 else p.reserve0;
    PriceFacts(rin, rout, FEE_DENOM - p.feeBps, a);
    SwapKeepsProduct(rin, rout, a, FEE_DENOM - p.feeBps, out);
  }

  /** A swap succeeds exactly when its quote meets the caller's minimum and the caller
      can pay, and then pays the quote. */
  lemma SwapKeeps(e: Engine, tin: string, tout: string, who: string, a: nat, minOut: nat)
    requires Inv(e)
    ensures Inv(Swap(e, tin, tout, who, a, minOut).0)
    ensures Swap(e, tin, tout, who, a, minOut).1 ==
            if who != "" && Quote(e, tin, tout, a).Some? && Quote(e, tin, tout, a).value >= minOut &&
                Bal(e, tin, who) >= a
            then Quote(e, tin, tout, a) else None
  {
    hide Inv, QuotePool, Settle, KeyOf, Bal, PoolOk;
    var q := Quote(e, tin, tout, a);
    if who != "" && q.Some? && q.value >= minOut {
      var k, out := KeyOf(tin, tout).value, q.value;
      var p := e.pools[k];
      var in0 := tin == p.token0;
      PoolFacts(e, k);
      KeyTokens(tin, tout);
      SwapOk(p, in0, a);
      HoldingsFit(e, k, p.token0, who);
      HoldingsFit(e, k, p.token1, who);
      if Bal(e, tin, who) >= a {
        SettleKeeps(e, k, Swapped(p, in0, a, out), who);
      }
    }
  }

  lemma KeyOrdered(a: string, b: string)
    requires KeyOf(a, b).Some?
    ensures Less(KeyOf(a, b).value.0, KeyOf(a, b).value.1)
  {
    hide Less, NameOk;
    LessTotal(a, b);
  }

  lemma EmptyPoolOk(p: Pool)
    requires p.lpTotal == 0 && p.lpBalances == map[]
    ensures PoolOk(p)
  {
    EmptySum();
  }

  lemma CreatePoolKeeps(e: Engine, a: string, b: string, feeBps: nat)
    requires Inv(e)
    ensures Inv(CreatePool(e, a, b, feeBps).0)
  {
    hide Sum, KeyOf, Less, PoolOk, InPools;
    var r := CreatePool(e, a, b, feeBps);
    if r.1 {
      var k := KeyOf(a, b).value;
      KeyOrdered(a, b);
      EmptyPoolOk(r.0.pools[k]);
      forall t | t in e.tokens ensures Funded(r.0, t) {
        assert Funded(e, t);
        InPoolsUpdate(e.pools, k, r.0.pools[k], t);
      }
      forall j | j in r.0.pools ensures KeyedRight(r.0, j) &&
          PoolOk(r.0.pools[j]) { if j != k { assert KeyedRight(e, j); } }
    }
  }
}
