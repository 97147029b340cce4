/** The token engine as an object: balances, reserves and LP shares change in place, and
    each method does to the fields what its function says. */
module TokenObject {
  import opened Basics
  import opened AmmMath
  import opened Sums
  import opened TokenEngine
  import opened TokenInvariant
  import opened TokenPools
  import opened TokenRoute

  /** The square root taken by a first deposit returns. */
  predicate RootReturns(e: Engine, a: string, b: string, x: nat, y: nat) {
    KeyOf(a, b).Some? && KeyOf(a, b).value in e.pools && e.pools[KeyOf(a, b).value].lpTotal == 0 ==>
        !OneBelowSquare(x * y)
  }

  method MintLp(p: Pool, add0: nat, add1: nat) returns (m: Option<nat>)
    requires add0 > 0 && add1 > 0 && (p.lpTotal == 0 ==> !OneBelowSquare(add0 * add1))
    ensures m == MintedLp(p, add0, add1)
  {
    hide OneBelowSquare, IsSqrt, Share;
    if p.lpTotal == 0 {
      if !ProductFits(add0, add1) { return None; }
      FitsBelow(add0, add1);
      var r := Isqrt(Times(add0, add1));
      SqrtUnique(Times(add0, add1), r, Sqrt(Times(add0, add1)));
      return Some(r);
    }
    if p.reserve0 == 0 || p.reserve1 == 0 { return None; }
    if !ProductFits(add0, p.reserve1) || !ProductFits(p.reserve0, add1) { return None; }
    if Times(add0, p.reserve1) != Times(add1, p.reserve0) { return None; }
    var lp0 := Share(add0, p.lpTotal, p.reserve0);
    var lp1 := Share(add1, p.lpTotal, p.reserve1);
    m := Some(if lp0 <= lp1 then lp0 else lp1);
  }

  lemma FitsBelow(a: nat, b: nat)
    requires b > 0 && ProductFits(a, b)
    ensures Times(a, b) <= MAX64
  {
    DivBounds(MAX64, b);
    MulMono(a, MAX64 / b, b);
  }

  class Tokens {
    var tokens: map<string, Token>
    var pools: map<PoolKey, Pool>

    function State(): Engine
      reads this
    {
      Engine(tokens, pools)
    }

    ghost predicate Valid()
      reads this
    {
      Inv(State())
    }

    constructor ()
      ensures Valid() && State() == Engine(map[], map[])
    {
      tokens, pools := map[], map[];
    }

    method Balance(t: string, who: string) returns (b: nat)
      ensures b == Bal(State(), t, who)
    {
      b := 0;
      if t in tokens && who in tokens[t].balances { b := tokens[t].balances[who]; }
    }

    method SetBalance(t: string, who: string, v: nat)
      requires t in tokens
      modifies this`tokens
      ensures State() == SetBal(old(State()), t, who, v)
    {
      tokens := tokens[t := tokens[t].(balances := tokens[t].balances[who := v])];
    }

    method MintTo(symbol: string, caller: string, to: string, amount: nat) returns (ok: bool)
      requires Valid()
      modifies this
      ensures Valid() && (State(), ok) == Mint(old(State()), symbol, caller, to, amount)
    {
      hide Inv;
      MintKeeps(State(), symbol, caller, to, amount);
      if symbol !in tokens { return false; }
      var t := tokens[symbol];
      if caller != t.owner || to == "" || amount == 0 { return false; }
      if t.totalSupply > MAX64 - amount || t.totalSupply + amount > t.maxSupply { return false; }
      if Get(t.balances, to) > MAX64 - amount { return false; }
      tokens := tokens[symbol := t.(totalSupply := t.totalSupply + amount,
          balances := t.balances[to := Get(t.balances, to) + amount])];
      return true;
    }

    /** The balances are changed step by step and put back when a later check refuses; the
        last check, the one that would not put them back, never refuses. */
    method TransferTo(symbol: string, from: string, to: string, amount: nat) returns (ok: bool)
      requires Valid()
      modifies this
      ensures Valid() && (State(), ok) == Transfer(old(State()), symbol, from, to, amount)
    {
      hide Inv, Fee;
      TransferKeeps(State(), symbol, from, to, amount);
      if symbol !in tokens { return false; }
      var t := tokens[symbol];
      var p := t.policy;
      if from == "" || to == "" || amount == 0 { return false; }
      if p.paused || from in p.blacklist || to in p.blacklist { return false; }
      if p.maxTx > 0 && amount > p.maxTx { return false; }
      var free := from in p.exempt || to in p.exempt;
      var fee, burnt := 0, 0;
      if !free { fee, burnt := Fee(amount, p.feeBps), Fee(amount, p.burnBps); }
      if fee + burnt > amount { return false; }
      var received := amount - fee - burnt;
      var bal := t.balances;
      if Get(bal, from) < amount { return false; }
      SupplyChecksDead(State(), symbol, from, amount);
      bal := bal[from := Get(bal, from) - amount];
      if Get(bal, to) > MAX64 - received { return false; }
      bal := bal[to := Get(bal, to) + received];
      if p.maxWallet > 0 && bal[to] > p.maxWallet { return false; }
      if fee > 0 && p.treasury != "" {
        if Get(bal, p.treasury) > MAX64 - fee { return false; }
        bal := bal[p.treasury := Get(bal, p.treasury) + fee];
      }
      tokens := tokens[symbol := t.(balances := bal, totalSupply := t.totalSupply - burnt)];
      return true;
    }

    method BurnFrom(symbol: string, from: string, amount: nat) returns (ok: bool)
      requires Valid()
      modifies this
      ensures Valid() && (State(), ok) == Burn(old(State()), symbol, from, amount)
    {
      hide Inv;
      BurnKeeps(State(), symbol, from, amount);
      if symbol !in tokens { return false; }
      var t := tokens[symbol];
      if !t.burnable || from == "" || amount == 0 || Get(t.balances, from) < amount { return false; }
      SupplyChecksDead(State(), symbol, from, amount);
      tokens := tokens[symbol := t.(totalSupply := t.totalSupply - amount,
          balances := t.balances[from := Get(t.balances, from) - amount])];
      return true;
    }

    method Add(a: string, b: string, who: string, amountA: nat, amountB: nat) returns (ok: bool)
      requires Valid() && RootReturns(State(), a, b, amountA, amountB)
      modifies this
      ensures Valid() && (State(), ok) == AddLiquidity(old(State()), a, b, who, amountA, amountB)
    {
      hide Inv, KeyOf, MintedLp, OneBelowSquare, DepositFits, Settle, Bal, PoolOk;
      AddLiquidityKeeps(State(), a, b, who, amountA, amountB);
      if who == "" || amountA == 0 || amountB == 0 { return false; }
      var key := KeyOf(a, b);
      if key.None? || key.value !in pools { return false; }
      var p := pools[key.value];
      PoolFacts(State(), key.value);
      var add0, add1 := amountB, amountA;
      if a == p.token0 { add0, add1 := amountA, amountB; }
      var b0 := Balance(p.token0, who);
      var b1 := Balance(p.token1, who);
      if b0 < add0 || b1 < add1 { return false; }
      var m := MintLp(p, add0, add1);
      if m.None? || m.value == 0 { return false; }
      DepositedKeeps(State(), key.value, who, add0, add1);
      SettleIn(State(), key.value, Deposited(p, who, add0, add1, m.value), who);
      SetBalance(p.token0, who, b0 - add0);
      SetBalance(p.token1, who, b1 - add1);
      pools := pools[key.value := Deposited(p, who, add0, add1, m.value)];
      return true;
    }

    method Remove(a: string, b: string, who: string, lp: nat) returns (out: Option<(nat, nat)>)
      requires Valid()
      modifies this
      ensures Valid() && (State(), out) == RemoveLiquidity(old(State()), a, b, who, lp)
    {
      hide Inv, KeyOf, Share, PoolOk, Bal, Settle;
      RemoveLiquidityKeeps(State(), a, b, who, lp);
      if who == "" || lp == 0 { return None; }
      var key := KeyOf(a, b);
      if key.None? || key.value !in pools { return None; }
      var p := pools[key.value];
      PoolFacts(State(), key.value);
      WithdrawnIff(p, who, lp);
      if Get(p.lpBalances, who) < lp || p.lpTotal == 0 { return None; }
      var take0 := Share(p.reserve0, lp, p.lpTotal);
      var take1 := Share(p.reserve1, lp, p.lpTotal);
      if take0 == 0 || take1 == 0 { return None; }
      var p2 := Withdrawn(p, who, lp).value;
      var b0 := Balance(p.token0, who);
      var b1 := Balance(p.token1, who);
      HoldingsFit(State(), key.value, p.token0, who);
      HoldingsFit(State(), key.value, p.token1, who);
      SettleIn(State(), key.value, p2, who);
      pools := pools[key.value := p2];
      SetBalance(p.token0, who, b0 + take0);
      SetBalance(p.token1, who, b1 + take1);
      return Some(if a == p.token0 then (take0, take1) else (take1, take0));
    }

    method QuoteIn(tin: string, tout: string, a: nat) returns (out: Option<nat>)
      ensures out == Quote(State(), tin, tout, a)
    {
      hide QuotePool, KeyOf;
      var key := KeyOf(tin, tout);
      if a == 0 || key.None? || key.value !in pools { return None; }
      out := QuotePool(pools[key.value], tin == pools[key.value].token0, a);
    }

    method SwapIn(tin: string, tout: string, who: string, a: nat, minOut: nat) returns (out: Option<nat>)
      requires Valid()
      modifies this
      ensures Valid() && (State(), out) == Swap(old(State()), tin, tout, who, a, minOut)
    {
      hide Inv, QuotePool, KeyOf, PoolOk, Settle, Bal;
      SwapKeeps(State(), tin, tout, who, a, minOut);
      if who == "" { return None; }
      out := QuoteIn(tin, tout, a);
      if out.None? { return; }
      if out.value < minOut { return None; }
      var key := KeyOf(tin, tout).value;
      var p := pools[key];
      PoolFacts(State(), key);
      KeyTokens(tin, tout);
      SwapOk(p, tin == p.token0, a);
      var bin := Balance(tin, who);
      if bin < a { return None; }
      var bout := Balance(tout, who);
      var p2 := Swapped(p, tin == p.token0, a, out.value);
      SettleIn(State(), key, p2, who);
      SetBalance(tin, who, bin - a);
      SetBalance(tout, who, bout + out.value);
      pools := pools[key := p2];
    }

    method QuoteRouteIn(route: seq<string>, a: nat) returns (out: Option<nat>)
      ensures out == QuoteRoute(State(), route, a)
    {
      hide Quote;
      if |route| < 2 || a == 0 { return None; }
      var running := a;
      var i := 0;
      assert route[0..] == route;
      while i + 1 < |route|
        invariant i < |route| && QuoteAlong(State(), route[i..], running) == QuoteAlong(State(), route, a)
      {
        var hop := QuoteIn(route[i], route[i + 1], running);
        assert route[i..][1..] == route[i + 1..];
        if hop.None? { return None; }
        running := hop.value;
        i := i + 1;
      }
      return Some(running);
    }

    /** Swap hop by hop, stopping at the first that fails. */
    method Hops(route: seq<string>, who: string, a: nat, minOut: nat) returns (out: Option<nat>)
      requires Valid() && |route| > 0
      modifies this
      ensures Valid() && out == SwapAlong(old(State()), route, who, a, minOut).1
      ensures out.Some? ==> State() == SwapAlong(old(State()), route, who, a, minOut).0
    {
      hide Inv, Swap, SwapAlong;
      var running := a;
      var i := 0;
      assert route[0..] == route;
      while i + 1 < |route|
        invariant i < |route| && Valid()
        invariant SwapAlong(State(), route[i..], who, running, minOut) == SwapAlong(old(State()), route, who, a, minOut)
      {
        SwapAlongStep(State(), route, i, who, running, minOut);
        var hop := SwapIn(route[i], route[i + 1], who, running, if i + 2 == |route| then minOut else 1);
        if hop.None? { return None; }
        running := hop.value;
        i := i + 1;
      }
      SwapAlongEnd(State(), route[i..], who, running, minOut);
      return Some(running);
    }

    /** A failing hop restores the pools and tokens saved before the first. */
    method SwapRouteIn(route: seq<string>, who: string, a: nat, minOut: nat) returns (out: Option<nat>)
      requires Valid()
      modifies this
      ensures Valid() && (State(), out) == SwapRoute(old(State()), route, who, a, minOut)
      ensures out.None? ==> tokens == old(tokens) && pools == old(pools)
    {
      hide Inv, Swap, Bal, QuoteAlong, SwapAlong;
      SwapRoutePaysQuote(State(), route, who, a, minOut);
      if who == "" { return None; }
      var quoted := QuoteRouteIn(route, a);
      if quoted.None? || quoted.value < minOut { return None; }
      var have := Balance(route[0], who);
      if have < a { return None; }
      var poolsBefore, tokensBefore := pools, tokens;
      out := Hops(route, who, a, minOut);
      if out.None? { pools, tokens := poolsBefore, tokensBefore; }
    }
  }

  lemma SwapAlongStep(e: Engine, route: seq<string>, i: nat, who: string, a: nat, minOut: nat)
    requires i + 1 < |route|
    ensures var r := Swap(e, route[i], route[i + 1], who, a, if i + 2 == |route| then minOut else 1);
            SwapAlong(e, route[i..], who, a, minOut) ==
            if r.1.None? then r else SwapAlong(r.0, route[i + 1..], who, r.1.value, minOut)
  {
    hide Swap;
    assert route[i..][1..] == route[i + 1..];
  }

  lemma SwapAlongEnd(e: Engine, route: seq<string>, who: string, a: nat, minOut: nat)
    requires |route| == 1
    ensures SwapAlong(e, route, who, a, minOut) == (e, Some(a))
  {
    hide Swap;
  }

  /** Settling, written as two balance updates in either order. */
  lemma SettleIn(e: Engine, k: PoolKey, p: Pool, who: string)
    requires k in e.pools && p.token0 == e.pools[k].token0 && p.token1 == e.pools[k].token1 && p.token0 != p.token1
    requires p.token0 in e.tokens && p.token1 in e.tokens
    requires p.reserve0 <= Bal(e, p.token0, who) + e.pools[k].reserve0 &&
             p.reserve1 <= Bal(e, p.token1, who) + e.pools[k].reserve1
    ensures var v0, v1 := Bal(e, p.token0, who) + e.pools[k].reserve0 - p.reserve0,
            Bal(e, p.token1, who) + e.pools[k].reserve1 - p.reserve1;
            && Settle(e, k, p, who).pools == e.pools[k := p]
            && Settle(e, k, p, who).tokens == SetBal(SetBal(e, p.token0, who, v0), p.token1, who, v1).tokens
            && Settle(e, k, p, who).tokens == SetBal(SetBal(e, p.token1, who, v1), p.token0, who, v0).tokens
  {
  }
}
