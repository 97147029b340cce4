/** What each operation of the token engine does to every balance, reserve and share, and
    exactly when it succeeds. */
module TokenEffects {
  import opened Basics
  import opened AmmMath
  import opened Sums
  import opened Text
  import opened TokenEngine
  import opened TokenInvariant
  import opened TokenPools

  // ------------------------------------------------------------------------ pool keys

  /** A pair has a pool key if and only if the names differ, are not empty and contain no
      separator; the key holds both names, the smaller first. */
  lemma KeyIff(a: string, b: string)
    ensures KeyOf(a, b).Some? <==>
            && a != b && a != "" && b != ""
            && forall c :: c in a + b ==> c != '|' && c != '\n' && c != '\r' && c != ' ' && c != '\t'
    ensures KeyOf(a, b).Some? ==> KeyOf(a, b) == Some(if Less(a, b) then (a, b) else (b, a))
  {
    assert forall c :: c in a + b <==> c in a || c in b;
  }

  // ------------------------------------------------------------------------- settling

  function ReserveOf(p: Pool, t: string): nat { if t == p.token0 then p.reserve0 else p.reserve1 }

  /** `who` gains `da` of `a` and `db` of `b`, the pool of the pair loses as much, and nothing
      else changes but that pool's shares. */
  ghost predicate Trades(e: Engine, f: Engine, k: PoolKey, who: string, a: string, da: int, b: string, db: int) {
    && (forall t, w :: Bal(f, t, w) == Bal(e, t, w) +
         if w != who then 0 else if t == a then da else if t == b then db else 0)
    && f.tokens.Keys == e.tokens.Keys
    && (forall t :: t in e.tokens ==> f.tokens[t].(balances := map[]) == e.tokens[t].(balances := map[]))
    && f.pools.Keys == e.pools.Keys && (forall j :: j in e.pools && j != k ==> f.pools[j] == e.pools[j])
    && k in e.pools
    && var p, q := e.pools[k], f.pools[k];
       && q.token0 == p.token0 && q.token1 == p.token1 && q.feeBps == p.feeBps
       && ReserveOf(q, a) == ReserveOf(p, a) - da && ReserveOf(q, b) == ReserveOf(p, b) - db
  }

  lemma SettleTrades(e: Engine, k: PoolKey, p: Pool, who: string, a: string, b: string)
    requires k in e.pools && p.token0 == e.pools[k].token0 && p.token1 == e.pools[k].token1 && p.token0 != p.token1
    requires p.token0 in e.tokens && p.token1 in e.tokens && p.feeBps == e.pools[k].feeBps
    requires p.reserve0 <= Bal(e, p.token0, who) + e.pools[k].reserve0 &&
             p.reserve1 <= Bal(e, p.token1, who) + e.pools[k].reserve1
    requires (a, b) == (p.token0, p.token1) || (b, a) == (p.token0, p.token1)
    ensures var o := e.pools[k];
            Trades(e, Settle(e, k, p, who), k, who, a, ReserveOf(o, a) - ReserveOf(p, a), b,
                   ReserveOf(o, b) - ReserveOf(p, b))
  {
    var f, o := Settle(e, k, p, who), e.pools[k];
    var da, db := ReserveOf(o, a) - ReserveOf(p, a), ReserveOf(o, b) - ReserveOf(p, b);
    forall t, w
      ensures Bal(f, t, w) == Bal(e, t, w) + if w != who then 0 else if t == a then da else if t == b then db else 0
    {
    }
  }

  /** Shares of pool `k`: `who` gains `d`, nobody else does, and the supply with it. */
  ghost predicate SharesMove(e: Engine, f: Engine, k: PoolKey, who: string, d: int) {
    && k in e.pools && k in f.pools && f.pools[k].lpTotal == e.pools[k].lpTotal + d
    && forall w :: Get(f.pools[k].lpBalances, w) == Get(e.pools[k].lpBalances, w) + if w == who then d else 0
  }

  // -------------------------------------------------------------------------- withdrawal

  /** `x` is `r * lp / total`, rounded down, with the product taken in 64 bits. */
  predicate ShareIs(x: nat, r: nat, lp: nat, total: nat) {
    var m := r * lp % 0x1_0000_0000_0000_0000; x * total <= m < (x + 1) * total
  }

  lemma ShareFloor(r: nat, lp: nat, total: nat)
    requires total > 0
    ensures ShareIs(Share(r, lp, total), r, lp, total)
  {
    DivBounds(W(r * lp), total);
  }

  lemma ShareOnly(x: nat, y: nat, r: nat, lp: nat, total: nat)
    requires total > 0 && ShareIs(x, r, lp, total) && ShareIs(y, r, lp, total)
    ensures x == y
  {
    if x < y { MulMono(x + 1, y, total); }
    if y < x { MulMono(y + 1, x, total); }
  }

  ghost predicate Withdrew(e: Engine, f: Engine, k: PoolKey, a: string, b: string, who: string, lp: nat, x: nat,
      y: nat) {
    && k in e.pools
    && ShareIs(x, ReserveOf(e.pools[k], a), lp, e.pools[k].lpTotal)
    && ShareIs(y, ReserveOf(e.pools[k], b), lp, e.pools[k].lpTotal)
    && Trades(e, f, k, who, a, x, b, y) && SharesMove(e, f, k, who, 0 - lp)
  }

  /** A withdrawal pays the provider the two shares of the reserves, in the order the tokens
      were named, out of the reserves, and burns the shares given. */
  lemma WithdrawalPays(e: Engine, a: string, b: string, who: string, lp: nat)
    requires Inv(e) && RemoveLiquidity(e, a, b, who, lp).1.Some?
    ensures var (f, out) := RemoveLiquidity(e, a, b, who, lp);
            KeyOf(a, b).Some? && Withdrew(e, f, KeyOf(a, b).value, a, b, who, lp, out.value.0, out.value.1)
  {
    hide Inv, Settle, KeyOf, Bal, PoolOk, Share, ShareIs, Trades;
    var k := KeyOf(a, b).value;
    var p := e.pools[k];
    PoolFacts(e, k);
    KeyTokens(a, b);
    RemoveLiquidityKeeps(e, a, b, who, lp);
    WithdrawnIff(p, who, lp);
    var q := Withdrawn(p, who, lp).value;
    ShareFloor(p.reserve0, lp, p.lpTotal);
    ShareFloor(p.reserve1, lp, p.lpTotal);
    SettleTrades(e, k, q, who, a, b);
    SettlePool(e, k, q, who);
  }

  lemma SettlePool(e: Engine, k: PoolKey, p: Pool, who: string)
    requires k in e.pools && p.token0 == e.pools[k].token0 && p.token1 == e.pools[k].token1 && p.token0 != p.token1
    requires p.token0 in e.tokens && p.token1 in e.tokens
    requires p.reserve0 <= Bal(e, p.token0, who) + e.pools[k].reserve0 &&
             p.reserve1 <= Bal(e, p.token1, who) + e.pools[k].reserve1
    ensures k in Settle(e, k, p, who).pools && Settle(e, k, p, who).pools[k] == p
  {
  }

  /** It succeeds if and only if the provider holds the shares and both payments come to
      something. */
  lemma WithdrawalIff(e: Engine, a: string, b: string, who: string, lp: nat)
    requires Inv(e)
    ensures RemoveLiquidity(e, a, b, who, lp).1.Some? <==>
            && who != "" && lp > 0 && KeyOf(a, b).Some? && KeyOf(a, b).value in e.pools
            && var p := e.pools[KeyOf(a, b).value];
               && Get(p.lpBalances, who) >= lp && p.lpTotal > 0
               && W(p.reserve0 * lp) >= p.lpTotal && W(p.reserve1 * lp) >= p.lpTotal
    ensures RemoveLiquidity(e, a, b, who, lp).1.None? ==> RemoveLiquidity(e, a, b, who, lp).0 == e
  {
    hide Inv, KeyOf, W, Withdrawn;
    RemoveLiquidityKeeps(e, a, b, who, lp);
    if KeyOf(a, b).Some? && KeyOf(a, b).value in e.pools {
      var p := e.pools[KeyOf(a, b).value];
      if p.lpTotal > 0 {
        ShareSome(p.reserve0, lp, p.lpTotal);
        ShareSome(p.reserve1, lp, p.lpTotal);
      }
    }
  }

  lemma ShareSome(r: nat, lp: nat, total: nat)
    requires total > 0
    ensures Share(r, lp, total) > 0 <==> W(r * lp) >= total
  {
    DivBounds(W(r * lp), total);
  }

  // ----------------------------------------------------------------------------- deposit

  /** The shares for a deposit of `x` of one token and `y` of the other: at first the integer
      square root of the product, which must fit 64 bits and have a root the program can
      find; then the smaller proportion of the supply, for amounts in the ratio of the
      reserves whose products fit. */
  ghost predicate MintIs(m: nat, total: nat, rx: nat, ry: nat, x: nat, y: nat) {
    if total == 0 then x * y <= MAX64 && !OneBelowSquare(x * y) && m * m <= x * y < (m + 1) * (m + 1)
    else
      && rx > 0 && ry > 0 && x * ry == y * rx <= MAX64
      && exists i: nat, j: nat :: ShareIs(i, x, total, rx) && ShareIs(j, y, total, ry) && m == if i <= j then i else j
  }

  lemma FitsIff(a: nat, b: nat)
    requires b > 0
    ensures ProductFits(a, b) <==> a * b <= MAX64
  {
    DivBounds(MAX64, b);
    if a <= MAX64 / b { MulMono(a, MAX64 / b, b); }
    if a > MAX64 / b { MulMono(MAX64 / b + 1, a, b); }
  }

  lemma MintedIs(p: Pool, add0: nat, add1: nat)
    requires add1 > 0
    ensures MintedLp(p, add0, add1).Some? ==>
            MintIs(MintedLp(p, add0, add1).value, p.lpTotal, p.reserve0, p.reserve1, add0, add1)
  {
    hide Share, ProductFits, OneBelowSquare, W, ShareIs;
    if p.lpTotal == 0 {
      FitsIff(add0, add1);
    } else if p.reserve0 > 0 && p.reserve1 > 0 {
      FitsIff(add0, p.reserve1);
      ShareFloor(add0, p.lpTotal, p.reserve0);
      ShareFloor(add1, p.lpTotal, p.reserve1);
    }
  }

  lemma MintsWhen(p: Pool, add0: nat, add1: nat, m: nat)
    requires add1 > 0 && MintIs(m, p.lpTotal, p.reserve0, p.reserve1, add0, add1)
    ensures MintedLp(p, add0, add1) == Some(m)
  {
    hide Share, ProductFits, OneBelowSquare, W, ShareIs;
    if p.lpTotal == 0 {
      FitsIff(add0, add1);
      SqrtUnique(Times(add0, add1), m, Sqrt(Times(add0, add1)));
    } else {
      FitsIff(add0, p.reserve1);
      FitsIff(p.reserve0, add1);
      var i: nat, j: nat :| ShareIs(i, add0, p.lpTotal, p.reserve0) && ShareIs(j, add1, p.lpTotal, p.reserve1) &&
          m == if i <= j then i else j;
      ShareFloor(add0, p.lpTotal, p.reserve0);
      ShareFloor(add1, p.lpTotal, p.reserve1);
      ShareOnly(i, Share(add0, p.lpTotal, p.reserve0), add0, p.lpTotal, p.reserve0);
      ShareOnly(j, Share(add1, p.lpTotal, p.reserve1), add1, p.lpTotal, p.reserve1);
    }
  }

  lemma MintSymmetric(m: nat, total: nat, rx: nat, ry: nat, x: nat, y: nat)
    requires MintIs(m, total, rx, ry, x, y)
    ensures MintIs(m, total, ry, rx, y, x)
  {
    hide OneBelowSquare, ShareIs;
    assert x * y == y * x;
    if total > 0 {
      var i: nat, j: nat :| ShareIs(i, x, total, rx) && ShareIs(j, y, total, ry) && m == if i <= j then i else j;
      assert ShareIs(j, y, total, ry) && ShareIs(i, x, total, rx) && m == if j <= i then j else i;
    }
  }

  /** What a deposit of `x` of `a` and `y` of `b` mints, in terms of the tokens as named. */
  lemma MintedFor(p: Pool, a: string, b: string, x: nat, y: nat)
    requires (a, b) == (p.token0, p.token1) || (b, a) == (p.token0, p.token1)
    requires x > 0 && y > 0 && a != b
    ensures var m := if a == p.token0 then MintedLp(p, x, y) else MintedLp(p, y, x);
            && (m.Some? ==> MintIs(m.value, p.lpTotal, ReserveOf(p, a), ReserveOf(p, b), x, y))
            && forall n: nat :: MintIs(n, p.lpTotal, ReserveOf(p, a), ReserveOf(p, b), x, y) ==> m == Some(n)
  {
    hide MintedLp, MintIs;
    var rx, ry := ReserveOf(p, a), ReserveOf(p, b);
    var m := if a == p.token0 then MintedLp(p, x, y) else MintedLp(p, y, x);
    if a == p.token0 { MintedIs(p, x, y); }
    else { MintedIs(p, y, x); if m.Some? { MintSymmetric(m.value, p.lpTotal, ry, rx, y, x); } }
    forall n: nat | MintIs(n, p.lpTotal, rx, ry, x, y) ensures m == Some(n) {
      if a == p.token0 { MintsWhen(p, x, y, n); }
      else { MintSymmetric(n, p.lpTotal, rx, ry, x, y); MintsWhen(p, y, x, n); }
    }
  }

  ghost predicate Deposits(e: Engine, f: Engine, k: PoolKey, a: string, b: string, who: string, x: nat, y: nat,
      m: nat) {
    && k in e.pools && m > 0
    && MintIs(m, e.pools[k].lpTotal, ReserveOf(e.pools[k], a), ReserveOf(e.pools[k], b), x, y)
    && Trades(e, f, k, who, a, 0 - x, b, 0 - y) && SharesMove(e, f, k, who, m)
  }

  /** A deposit succeeds if and only if the provider has both amounts and shares can be
      minted for them; it then takes exactly these amounts into the reserves and gives the
      provider the shares. */
  lemma DepositTakes(e: Engine, a: string, b: string, who: string, x: nat, y: nat)
    requires Inv(e)
    ensures var (f, ok) := AddLiquidity(e, a, b, who, x, y);
            && (ok <==>
                 && who != "" && x > 0 && y > 0 && KeyOf(a, b).Some? && KeyOf(a, b).value in e.pools
                 && Bal(e, a, who) >= x && Bal(e, b, who) >= y
                 && var p := e.pools[KeyOf(a, b).value];
                    exists m: nat :: m > 0 && MintIs(m, p.lpTotal, ReserveOf(p, a), ReserveOf(p, b), x, y))
            && (ok ==> KeyOf(a, b).Some? && exists m: nat :: Deposits(e, f, KeyOf(a, b).value, a, b, who, x, y, m))
            && (!ok ==> f == e)
  {
    hide Inv, Settle, KeyOf, Bal, PoolOk, MintedLp, Deposited, Trades, SharesMove, MintIs, DepositFits;
    AddLiquidityKeeps(e, a, b, who, x, y);
    var k := KeyOf(a, b);
    if who != "" && x > 0 && y > 0 && k.Some? && k.value in e.pools {
      var p := e.pools[k.value];
      PoolFacts(e, k.value);
      KeyTokens(a, b);
      MintedFor(p, a, b, x, y);
      if AddLiquidity(e, a, b, who, x, y).1 { DepositDone(e, a, b, who, x, y); }
    }
  }

  lemma DepositDone(e: Engine, a: string, b: string, who: string, x: nat, y: nat)
    requires Inv(e) && AddLiquidity(e, a, b, who, x, y).1
    ensures var f := AddLiquidity(e, a, b, who, x, y).0;
            KeyOf(a, b).Some? && exists m: nat :: Deposits(e, f, KeyOf(a, b).value, a, b, who, x, y, m)
  {
    hide Inv, Settle, KeyOf, Bal, PoolOk, MintedLp, Trades, MintIs, DepositFits;
    var k := KeyOf(a, b).value;
    var p := e.pools[k];
    PoolFacts(e, k);
    KeyTokens(a, b);
    MintedFor(p, a, b, x, y);
    var add0, add1 := if a == p.token0 then x else y, if a == p.token0 then y else x;
    var m := MintedLp(p, add0, add1).value;
    DepositedKeeps(e, k, who, add0, add1);
    SettleTrades(e, k, Deposited(p, who, add0, add1, m), who, a, b);
    SettlePool(e, k, Deposited(p, who, add0, add1, m), who);
    assert Deposits(e, AddLiquidity(e, a, b, who, x, y).0, k, a, b, who, x, y, m);
  }

  // -------------------------------------------------------------------------------- swap

  /** `out` is what `a` buys: the largest amount that keeps the product of the reserves, the
      fee taken off `a`, with every product within 64 bits. */
  predicate PriceIs(out: nat, rin: nat, rout: nat, feeBps: nat, a: nat) {
    && feeBps < 10000 && 0 < out < rout
    && var net := a * (10000 - feeBps);
       && net * rout <= MAX64 && rin * 10000 + net <= MAX64
       && rin > 0 && out * (rin * 10000 + net) <= net * rout < (out + 1) * (rin * 10000 + net)
  }

  lemma PriceIff(rin: nat, rout: nat, feeBps: nat, a: nat, out: nat)
    requires feeBps < 10000
    ensures Price(rin, rout, 10000 - feeBps, a) == Some(out) <==> PriceIs(out, rin, rout, feeBps, a)
  {
    hide ProductFits, Quotient;
    var mult := 10000 - feeBps;
    var net := a * mult;
    if rin > 0 && rout > 0 {
      FitsIff(a, mult);
      FitsIff(rin, FEE_DENOM);
      FitsIff(net, rout);
      NetFits(net, rout);
      if net > 0 { QuotientIff(net * rout, rin * 10000 + net, out); }
      if PriceIs(out, rin, rout, feeBps, a) && net == 0 { MulMono(1, out, rin * 10000); }
    }
  }

  lemma NetFits(net: nat, rout: nat)
    requires rout > 0
    ensures net * rout <= MAX64 ==> net <= MAX64
  {
    MulMono(1, rout, net);
  }

  lemma QuotientIff(n: nat, d: nat, q: nat)
    requires d > 0
    ensures Quotient(n, d) == q <==> q * d <= n < (q + 1) * d
  {
    DivBounds(n, d);
    if q < n / d { MulMono(q + 1, n / d, d); }
    if q > n / d { MulMono(n / d + 1, q, d); }
  }

  /** The quote of the pair's pool. */
  lemma QuoteIff(e: Engine, tin: string, tout: string, a: nat, out: nat)
    requires Inv(e)
    ensures Quote(e, tin, tout, a) == Some(out) <==>
            && a > 0 && KeyOf(tin, tout).Some? && KeyOf(tin, tout).value in e.pools
            && var p := e.pools[KeyOf(tin, tout).value];
               PriceIs(out, ReserveOf(p, tin), ReserveOf(p, tout), p.feeBps, a)
  {
    hide Inv, KeyOf, Price, PriceIs, PoolOk;
    var k := KeyOf(tin, tout);
    if k.Some? && k.value in e.pools {
      var p := e.pools[k.value];
      PoolFacts(e, k.value);
      KeyTokens(tin, tout);
      PriceIff(ReserveOf(p, tin), ReserveOf(p, tout), p.feeBps, a, out);
    }
  }

  /** A swap that the trader can pay for and that meets the minimum takes `a` from the trader
      into the pool and pays the quote out of it; shares stay as they are, and any other swap
      changes nothing. */
  lemma SwapTrades(e: Engine, tin: string, tout: string, who: string, a: nat, minOut: nat)
    requires Inv(e)
    ensures var (f, out) := Swap(e, tin, tout, who, a, minOut);
            && (out.Some? <==>
                 && who != "" && Bal(e, tin, who) >= a
                 && Quote(e, tin, tout, a).Some? && Quote(e, tin, tout, a).value >= minOut)
            && (out.Some? ==>
                 && out == Quote(e, tin, tout, a) && KeyOf(tin, tout).Some?
                 && Trades(e, f, KeyOf(tin, tout).value, who, tin, 0 - a, tout, out.value)
                 && SharesMove(e, f, KeyOf(tin, tout).value, who, 0))
            && (out.None? ==> f == e)
  {
    hide Inv, KeyOf, QuotePool, PoolOk, Settle, Bal, Trades;
    SwapKeeps(e, tin, tout, who, a, minOut);
    var out := Swap(e, tin, tout, who, a, minOut).1;
    if out.Some? {
      var k := KeyOf(tin, tout).value;
      var p := e.pools[k];
      PoolFacts(e, k);
      KeyTokens(tin, tout);
      SwapOk(p, tin == p.token0, a);
      var q := Swapped(p, tin == p.token0, a, out.value);
      SettleTrades(e, k, q, who, tin, tout);
      SettlePool(e, k, q, who);
    }
  }

  // ---------------------------------------------------------------------------- transfers

  /** A policy's cut of an amount, the product taken in 64 bits. */
  predicate CutIs(x: nat, amount: nat, bps: nat) {
    var m := amount * bps % 0x1_0000_0000_0000_0000; x * 10000 <= m < (x + 1) * 10000
  }

  lemma FeeIs(amount: nat, bps: nat)
    ensures CutIs(Fee(amount, bps), amount, bps)
  {
  }

  /** One token changes, every balance of it by `delta`, its supply by `supply`. */
  ghost predicate Reassigns(e: Engine, f: Engine, symbol: string, delta: string -> int, supply: int) {
    && symbol in e.tokens && f.tokens.Keys == e.tokens.Keys && f.pools == e.pools
    && (forall t :: t in e.tokens && t != symbol ==> f.tokens[t] == e.tokens[t])
    && (forall w :: Bal(f, symbol, w) == Bal(e, symbol, w) + delta(w))
    && f.tokens[symbol].(balances := map[], totalSupply := 0) == e.tokens[symbol].(balances := map[], totalSupply := 0)
    && f.tokens[symbol].totalSupply == e.tokens[symbol].totalSupply + supply
  }

  /** The sender is down the amount, the receiver up what is left of it after both cuts, the
      treasury up its cut if there is one; the burnt cut leaves the supply. Who is two of
      these gets both. */
  function TransferDelta(p: Policy, from: string, to: string, amount: nat, fee: nat, burnt: nat): string -> int {
    (w: string) => (if w == from then 0 - amount else 0) + (if w == to then amount - fee - burnt else 0) +
                   if w == p.treasury && p.treasury != "" then fee else 0
  }

  /** The cuts of a transfer: none if either side is exempt. */
  predicate CutsAre(p: Policy, from: string, to: string, amount: nat, fee: nat, burnt: nat) {
    if from in p.exempt || to in p.exempt then fee == 0 == burnt
    else CutIs(fee, amount, p.feeBps) && CutIs(burnt, amount, p.burnBps)
  }

  lemma CutsUnique(p: Policy, from: string, to: string, amount: nat, f: nat, b: nat)
    requires CutsAre(p, from, to, amount, f, b)
    ensures var free := from in p.exempt || to in p.exempt;
            f == (if free then 0 else Fee(amount, p.feeBps)) && b == (if free then 0 else Fee(amount, p.burnBps))
  {
  }

  lemma TransferMoves(e: Engine, symbol: string, from: string, to: string, amount: nat, fee: nat, burnt: nat)
    requires symbol in e.tokens && CutsAre(e.tokens[symbol].policy, from, to, amount, fee, burnt)
    ensures var (g, ok) := Transfer(e, symbol, from, to, amount);
            && (ok ==> Reassigns(e, g, symbol,
                         TransferDelta(e.tokens[symbol].policy, from, to, amount, fee, burnt), 0 - burnt))
            && (!ok ==> g == e)
  {
    hide CutsAre, Fee;
    CutsUnique(e.tokens[symbol].policy, from, to, amount, fee, burnt);
  }

  /** Exactly which transfers go through, in an engine that keeps its invariant. */
  lemma TransferIff(e: Engine, symbol: string, from: string, to: string, amount: nat, fee: nat, burnt: nat)
    requires Inv(e) && symbol in e.tokens && CutsAre(e.tokens[symbol].policy, from, to, amount, fee, burnt)
    ensures var p := e.tokens[symbol].policy;
            Transfer(e, symbol, from, to, amount).1 <==>
                && from != "" && to != "" && amount > 0 && !p.paused && from !in p.blacklist && to !in p.blacklist
                && (p.maxTx > 0 ==> amount <= p.maxTx) && fee + burnt <= amount && Bal(e, symbol, from) >= amount
                && (p.maxWallet > 0 ==>
                     Bal(e, symbol, to) - (if to == from then amount else 0) + amount - fee - burnt <= p.maxWallet)
  {
    hide CutsAre, Fee, Inv;
    CutsUnique(e.tokens[symbol].policy, from, to, amount, fee, burnt);
    var t := e.tokens[symbol];
    if Get(t.balances, from) >= amount {
      TransferFits(e, symbol, from, to);
      TransferFits(e, symbol, from, t.policy.treasury);
      TransferFits(e, symbol, to, t.policy.treasury);
      ThreeFit(e, symbol, from, to, t.policy.treasury);
    }
  }

  lemma TransferFits(e: Engine, symbol: string, a: string, b: string)
    requires Inv(e) && symbol in e.tokens
    ensures var bal, sup := e.tokens[symbol].balances, e.tokens[symbol].totalSupply;
            && Get(bal, a) <= sup <= MAX64 && (a != b ==> Get(bal, a) + Get(bal, b) <= sup)
  {
    hide Sum, PoolOk;
    assert Funded(e, symbol);
    var bal := e.tokens[symbol].balances;
    SumAtLeast(bal, a);
    if a in bal && a != b { SumOne(bal, a); SumAtLeast(bal - {a}, b); }
    else { SumAtLeast(bal, b); }
  }

  lemma ThreeFit(e: Engine, symbol: string, a: string, b: string, c: string)
    requires Inv(e) && symbol in e.tokens
    ensures var bal, sup := e.tokens[symbol].balances, e.tokens[symbol].totalSupply;
            a != b && b != c && a != c ==> Get(bal, a) + Get(bal, b) + Get(bal, c) <= sup
  {
    hide Sum, PoolOk;
    assert Funded(e, symbol);
    var bal := e.tokens[symbol].balances;
    TransferFits(e, symbol, a, b);
    TransferFits(e, symbol, a, c);
    TransferFits(e, symbol, b, c);
    if a in bal && b in bal && a != b && b != c && a != c {
      SumOne(bal, a);
      SumOne(bal - {a}, b);
      SumAtLeast(bal - {a} - {b}, c);
    }
  }

  // ------------------------------------------------------------------- supply and pools

  /** Minting: by the owner alone and within the maximum, all of it to the receiver. */
  lemma MintGives(e: Engine, symbol: string, caller: string, to: string, amount: nat)
    requires Inv(e)
    ensures var (f, ok) := Mint(e, symbol, caller, to, amount);
            && (ok <==>
                 && symbol in e.tokens && caller == e.tokens[symbol].owner && to != "" && amount > 0
                 && e.tokens[symbol].totalSupply + amount <= e.tokens[symbol].maxSupply)
            && (ok ==> Reassigns(e, f, symbol, (w: string) => if w == to then amount else 0, amount))
            && (!ok ==> f == e)
  {
    hide Inv;
    if symbol in e.tokens { TransferFits(e, symbol, to, to); MaxFits(e, symbol); }
  }

  lemma MaxFits(e: Engine, symbol: string)
    requires Inv(e) && symbol in e.tokens
    ensures e.tokens[symbol].totalSupply <= e.tokens[symbol].maxSupply <= MAX64
  {
    hide Sum, PoolOk;
    assert Funded(e, symbol);
  }

  /** Burning: of a burnable token, out of the holder's own balance. */
  lemma BurnTakes(e: Engine, symbol: string, from: string, amount: nat)
    requires Inv(e)
    ensures var (f, ok) := Burn(e, symbol, from, amount);
            && (ok <==>
                 && symbol in e.tokens && e.tokens[symbol].burnable && from != "" && amount > 0
                 && Bal(e, symbol, from) >= amount)
            && (ok ==> Reassigns(e, f, symbol, (w: string) => if w == from then 0 - amount else 0, 0 - amount))
            && (!ok ==> f == e)
  {
    hide Inv;
    if symbol in e.tokens { TransferFits(e, symbol, from, from); }
  }

  /** A new token: named, new, with a supply of the two first amounts, which go to the owner
      and the developer and to nobody else. */
  lemma CreateGives(e: Engine, symbol: string, name: string, owner: string, maxSupply: nat, initial: nat,
      decimals: nat, burnable: bool, devWallet: string, dev: nat)
    requires maxSupply <= MAX64
    ensures var (f, ok) := CreateToken(e, symbol, name, owner, maxSupply, initial, decimals, burnable, devWallet, dev);
            && (ok <==>
                 && symbol != "" && name != "" && owner != "" && decimals <= 30 && maxSupply > 0 && symbol !in e.tokens
                 && initial + dev <= maxSupply && (dev > 0 ==> devWallet != ""))
            && (ok ==>
                 && f.pools == e.pools && f.tokens.Keys == e.tokens.Keys + {symbol}
                 && (forall t :: t in e.tokens ==> f.tokens[t] == e.tokens[t])
                 && var t := f.tokens[symbol];
                    && t.owner == owner && t.burnable == burnable && t.maxSupply == maxSupply
                    && t.totalSupply == initial + dev
                    && t.policy == Policy("", 0, 0, false, 0, 0, {}, {})
                    && forall w :: Get(t.balances, w) ==
                         (if w == owner then initial else 0) + if w == devWallet then dev else 0)
            && (!ok ==> f == e)
  {
  }

  /** A new pool: of two tokens there are, for a pair without one, empty. */
  lemma CreatePoolGives(e: Engine, a: string, b: string, feeBps: nat)
    ensures var (f, ok) := CreatePool(e, a, b, feeBps);
            && (ok <==>
                 && KeyOf(a, b).Some? && KeyOf(a, b).value !in e.pools && a in e.tokens && b in e.tokens
                 && feeBps < 10000)
            && (ok ==>
                 var k := KeyOf(a, b).value;
                 f == e.(pools := e.pools[k := Pool(k.0, k.1, 0, 0, feeBps, 0, map[])]))
            && (!ok ==> f == e)
  {
    hide NameOk, Less;
  }
}
