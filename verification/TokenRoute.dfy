/** Multi-hop quotes and swaps. */
module TokenRoute {
  import opened Basics
  import opened AmmMath
  import opened Sums
  import opened TokenEngine
  import opened TokenInvariant
  import opened TokenPools

  function QuoteAlong(e: Engine, route: seq<string>, a: nat): Option<nat> {
    if |route| <= 1 then Some(a)
    else
      var q := Quote(e, route[0], route[1], a);
      if q.None? then None else QuoteAlong(e, route[1..], q.value)
  }

  function QuoteRoute(e: Engine, route: seq<string>, a: nat): Option<nat> {
    if |route| < 2 || a == 0 then None else QuoteAlong(e, route, a)
  }

  function SwapAlong(e: Engine, route: seq<string>, who: string, a: nat, minOut: nat): (Engine, Option<nat>)
    decreases |route|
  {
    hide Swap;
    if |route| <= 1 then (e, Some(a))
    else
      var r := Swap(e, route[0], route[1], who, a, if |route| == 2 then minOut else 1);
      if r.1.None? then r else SwapAlong(r.0, route[1..], who, r.1.value, minOut)
  }

  /** A failing hop puts back the tokens and pools saved before the first. */
  function SwapRoute(e: Engine, route: seq<string>, who: string, a: nat, minOut: nat): (Engine, Option<nat>) {
    var q := QuoteRoute(e, route, a);
    if who == "" || q.None? || q.value < minOut || Bal(e, route[0], who) < a then (e, None)
    else
      var r := SwapAlong(e, route, who, a, minOut);
      if r.1.None? then (e, None) else r
  }

  /** No two hops use the same pool. */
  predicate PoolsDistinct(route: seq<string>) {
    forall i, j :: 0 <= i < j < |route| - 1 ==> KeyOf(route[i], route[i + 1]) != KeyOf(route[j], route[j + 1])
  }

  // ---------------------------------------------------------------- one hop's effect

  /** The change a swap of `a` for `out` makes to one wallet's holding of one token. */
  function Moved(tin: string, tout: string, a: nat, out: nat, t: string): int {
    (if t == tout then out else 0) - (if t == tin then a else 0)
  }

  lemma SwapEffect(e: Engine, tin: string, tout: string, who: string, a: nat, minOut: nat, t: string, w: string)
    requires Inv(e) && Swap(e, tin, tout, who, a, minOut).1.Some?
    ensures var r := Swap(e, tin, tout, who, a, minOut);
            && Bal(r.0, t, w) == Bal(e, t, w) + (if w == who then Moved(tin, tout, a, r.1.value, t) else 0)
            && KeyOf(tin, tout).Some? && r.0.pools.Keys == e.pools.Keys
            && forall k :: k in e.pools && k != KeyOf(tin, tout).value ==> r.0.pools[k] == e.pools[k]
  {
    hide QuotePool, KeyOf, Inv;
    PoolFacts(e, KeyOf(tin, tout).value);
    KeyTokens(tin, tout);
  }

  /** Only the swapped pair's quotes change. */
  lemma QuoteFrame(e: Engine, f: Engine, k: PoolKey, s: string, t: string, a: nat)
    requires e.pools.Keys == f.pools.Keys && forall j :: j in e.pools && j != k ==> f.pools[j] == e.pools[j]
    requires KeyOf(s, t) != Some(k)
    ensures Quote(f, s, t, a) == Quote(e, s, t, a)
  {
    hide QuotePool, KeyOf;
  }

  lemma {:induction false} QuoteAlongFrame(e: Engine, f: Engine, k: PoolKey, route: seq<string>, a: nat)
    requires e.pools.Keys == f.pools.Keys && forall j :: j in e.pools && j != k ==> f.pools[j] == e.pools[j]
    requires forall i :: 0 <= i < |route| - 1 ==> KeyOf(route[i], route[i + 1]) != Some(k)
    ensures QuoteAlong(f, route, a) == QuoteAlong(e, route, a)
    decreases |route|
  {
    hide Quote, KeyOf;
    if |route| > 1 {
      QuoteFrame(e, f, k, route[0], route[1], a);
      var q := Quote(e, route[0], route[1], a);
      if q.Some? {
        var tail := route[1..];
        forall i | 0 <= i < |tail| - 1 ensures KeyOf(tail[i], tail[i + 1]) != Some(k) {
          assert KeyOf(route[i + 1], route[i + 1 + 1]) != Some(k);
        }
        QuoteAlongFrame(e, f, k, route[1..], q.value);
      }
    }
  }

  // ------------------------------------------------------------------- whole routes

  lemma {:induction false} SwapAlongKeeps(e: Engine, route: seq<string>, who: string, a: nat, minOut: nat)
    requires Inv(e)
    ensures Inv(SwapAlong(e, route, who, a, minOut).0)
    decreases |route|
  {
    hide Inv, Swap;
    if |route| > 1 {
      var m := if |route| == 2 then minOut else 1;
      SwapKeeps(e, route[0], route[1], who, a, m);
      var r := Swap(e, route[0], route[1], who, a, m);
      if r.1.Some? { SwapAlongKeeps(r.0, route[1..], who, r.1.value, minOut); }
    }
  }

  /** Whatever the route, even one that passes a pool twice: a successful swap takes
      `a` of the first token, gives the final amount of the last, touches no other
      wallet and pays at least the minimum. */
  lemma {:induction false} SwapAlongMoves(e: Engine, route: seq<string>, who: string, a: nat, minOut: nat, t: string,
      w: string)
    requires Inv(e) && |route| > 0 && SwapAlong(e, route, who, a, minOut).1.Some?
    ensures var r := SwapAlong(e, route, who, a, minOut);
            && Bal(r.0, t, w) == Bal(e, t, w) +
                 (if w == who then Moved(route[0], route[|route| - 1], a, r.1.value, t) else 0)
            && (|route| > 1 ==> r.1.value >= minOut)
    decreases |route|
  {
    hide Inv, Swap, Bal;
    if |route| > 1 {
      var m := if |route| == 2 then minOut else 1;
      SwapKeeps(e, route[0], route[1], who, a, m);
      SwapEffect(e, route[0], route[1], who, a, m, t, w);
      var r := Swap(e, route[0], route[1], who, a, m);
      SwapAlongMoves(r.0, route[1..], who, r.1.value, minOut, t, w);
      assert route[1..][|route[1..]| - 1] == route[|route| - 1];
    }
  }

  /** Along distinct pools the hops pay exactly what was quoted before the first. */
  lemma {:induction false} SwapAlongPaysQuote(e: Engine, route: seq<string>, who: string, a: nat, minOut: nat)
    requires Inv(e) && |route| > 1 && PoolsDistinct(route) && who != "" && Bal(e, route[0], who) >= a
    requires QuoteAlong(e, route, a).Some? && QuoteAlong(e, route, a).value >= minOut
    ensures SwapAlong(e, route, who, a, minOut).1 == QuoteAlong(e, route, a)
    decreases |route|
  {
    hide Inv, Swap, Bal, QuotePool, KeyOf;
    var m := if |route| == 2 then minOut else 1;
    QuotePositive(e, route[0], route[1], a);
    if |route| == 2 {
      assert QuoteAlong(e, route[1..], Quote(e, route[0], route[1], a).value) == Quote(e, route[0], route[1], a);
    }
    SwapKeeps(e, route[0], route[1], who, a, m);
    var r := Swap(e, route[0], route[1], who, a, m);
    assert r.1 == Quote(e, route[0], route[1], a);
    if |route| > 2 {
      SwapEffect(e, route[0], route[1], who, a, m, route[1], who);
      HopPair(e, route[0], route[1], a);
      TailDistinct(route);
      QuoteAlongFrame(e, r.0, KeyOf(route[0], route[1]).value, route[1..], r.1.value);
      SwapAlongPaysQuote(r.0, route[1..], who, r.1.value, minOut);
    }
  }

  lemma TailDistinct(route: seq<string>)
    requires |route| > 1 && PoolsDistinct(route)
    ensures PoolsDistinct(route[1..])
    ensures forall i :: 0 <= i < |route[1..]| - 1 ==>
            KeyOf(route[1..][i], route[1..][i + 1]) != KeyOf(route[0], route[1])
  {
    hide KeyOf;
    var tail := route[1..];
    assert forall i :: 0 <= i < |tail| ==> tail[i] == route[i + 1];
    forall i, j | 0 <= i < j < |tail| - 1 ensures KeyOf(tail[i], tail[i + 1]) != KeyOf(tail[j], tail[j + 1]) {
      assert KeyOf(route[i + 1], route[i + 1 + 1]) != KeyOf(route[j + 1], route[j + 1 + 1]);
    }
    forall i | 0 <= i < |tail| - 1 ensures KeyOf(tail[i], tail[i + 1]) != KeyOf(route[0], route[1]) {
      assert KeyOf(route[0], route[0 + 1]) != KeyOf(route[i + 1], route[i + 1 + 1]);
    }
  }

  lemma HopPair(e: Engine, s: string, t: string, a: nat)
    requires Quote(e, s, t, a).Some?
    ensures KeyOf(s, t).Some? && s != t && a > 0
  {
    hide QuotePool;
  }

  lemma QuotePositive(e: Engine, s: string, t: string, a: nat)
    requires Inv(e)
    ensures Quote(e, s, t, a).Some? ==> Quote(e, s, t, a).value > 0
  {
    hide KeyOf, Inv, Price;
    if Quote(e, s, t, a).Some? {
      var p := e.pools[KeyOf(s, t).value];
      PriceFacts(if s == p.token0 then p.reserve0 else p.reserve1, if s == p.token0 then p.reserve1
          else p.reserve0, FEE_DENOM - p.feeBps, a);
    }
  }

  /** The law of a routed swap: it is all or nothing, and on distinct pools it succeeds
      exactly when the quote meets the minimum and the trader can pay, paying the quote. */
  lemma SwapRoutePaysQuote(e: Engine, route: seq<string>, who: string, a: nat, minOut: nat)
    requires Inv(e)
    ensures var r := SwapRoute(e, route, who, a, minOut);
            && Inv(r.0)
            && (r.1.None? ==> r.0 == e)
            && (r.1.Some? ==> r.1.value >= minOut)
            && (PoolsDistinct(route) ==>
                  r.1 == if who != "" && QuoteRoute(e, route, a).Some? && QuoteRoute(e, route, a).value >= minOut &&
                      Bal(e, route[0], who) >= a
                         then QuoteRoute(e, route, a) else None)
  {
    hide Inv, QuoteAlong, SwapAlong, Bal, PoolsDistinct;
    var q := QuoteRoute(e, route, a);
    if who != "" && q.Some? && q.value >= minOut && Bal(e, route[0], who) >= a {
      SwapAlongKeeps(e, route, who, a, minOut);
      if PoolsDistinct(route) { SwapAlongPaysQuote(e, route, who, a, minOut); }
      if SwapAlong(e, route, who, a, minOut).1.Some? { SwapAlongMoves(e, route, who, a, minOut, "", ""); }
    }
  }

  // -------------------------------------------------------------------------- runs

  /** One call into the engine. Policy changes are arbitrary; an owner never
      changes. */
  datatype Call =
    | NewToken(symbol: string, name: string, owner: string, maxSupply: nat, initial: nat, decimals: nat,
        burnable: bool, devWallet: string, dev: nat)
    | MintCall(symbol: string, caller: string, to: string, amount: nat)
    | TransferCall(symbol: string, from: string, to: string, amount: nat)
    | BurnCall(symbol: string, from: string, amount: nat)
    | PolicyCall(symbol: string, policy: Policy)
    | NewPool(a: string, b: string, feeBps: nat)
    | AddCall(a: string, b: string, who: string, amountA: nat, amountB: nat)
    | RemoveCall(a: string, b: string, who: string, lp: nat)
    | SwapCall(tin: string, tout: string, who: string, amount: nat, minOut: nat)
    | RouteCall(route: seq<string>, who: string, amount: nat, minOut: nat)

  function Do(e: Engine, c: Call): Engine {
    match c
    case NewToken(s, n, o, max, init, dec, bn, dw, dev) => CreateToken(e, s, n, o, max, init, dec, bn, dw, dev).0
    case MintCall(s, caller, to, amount) => Mint(e, s, caller, to, amount).0
    case TransferCall(s, from, to, amount) => Transfer(e, s, from, to, amount).0
    case BurnCall(s, from, amount) => Burn(e, s, from, amount).0
    case PolicyCall(s, policy) => if s in e.tokens then e.(tokens := e.tokens[s := e.tokens[s].(policy := policy)])
        else e
    case NewPool(a, b, feeBps) => CreatePool(e, a, b, feeBps).0
    case AddCall(a, b, who, x, y) => AddLiquidity(e, a, b, who, x, y).0
    case RemoveCall(a, b, who, lp) => RemoveLiquidity(e, a, b, who, lp).0
    case SwapCall(tin, tout, who, amount, minOut) => Swap(e, tin, tout, who, amount, minOut).0
    case RouteCall(route, who, amount, minOut) => SwapRoute(e, route, who, amount, minOut).0
  }

  function Played(calls: seq<Call>): Engine {
    if calls == [] then Engine(map[], map[]) else Do(Played(calls[..|calls| - 1]), calls[|calls| - 1])
  }

  lemma PolicyKeeps(e: Engine, s: string, p: Policy)
    requires Inv(e) && s in e.tokens
    ensures Inv(e.(tokens := e.tokens[s := e.tokens[s].(policy := p)]))
  {
    hide Sum, InPools, PoolOk;
    assert Funded(e, s);
    TokenKeeps(e, s, e.tokens[s].(policy := p));
  }

  lemma DoKeeps(e: Engine, c: Call)
    requires Inv(e) && (c.NewToken? ==> c.maxSupply <= MAX64)
    ensures Inv(Do(e, c))
  {
    hide Inv, CreateToken, Mint, Transfer, Burn, CreatePool, AddLiquidity, RemoveLiquidity, Swap, SwapRoute;
    match c
    case NewToken(s, n, o, max, init, dec, bn, dw, dev) => CreateTokenKeeps(e, s, n, o, max, init, dec, bn, dw, dev);
    case MintCall(s, caller, to, amount) => MintKeeps(e, s, caller, to, amount);
    case TransferCall(s, from, to, amount) => TransferKeeps(e, s, from, to, amount);
    case BurnCall(s, from, amount) => BurnKeeps(e, s, from, amount);
    case PolicyCall(s, policy) => if s in e.tokens { PolicyKeeps(e, s, policy); }
    case NewPool(a, b, feeBps) => CreatePoolKeeps(e, a, b, feeBps);
    case AddCall(a, b, who, x, y) => AddLiquidityKeeps(e, a, b, who, x, y);
    case RemoveCall(a, b, who, lp) => RemoveLiquidityKeeps(e, a, b, who, lp);
    case SwapCall(tin, tout, who, amount, minOut) => SwapKeeps(e, tin, tout, who, amount, minOut);
    case RouteCall(route, who, amount, minOut) => SwapRoutePaysQuote(e, route, who, amount, minOut);
  }

  lemma {:induction false} PlayedInv(calls: seq<Call>)
    requires forall c :: c in calls && c.NewToken? ==> c.maxSupply <= MAX64
    ensures Inv(Played(calls))
  {
    hide Do;
    if calls == [] { assert Inv(Engine(map[], map[])); }
    else { PlayedInv(calls[..|calls| - 1]); DoKeeps(Played(calls[..|calls| - 1]), calls[|calls| - 1]); }
  }

  /** Over every run: LP shares are backed, LP balances add up to the LP supply, and
      each token's wallets and reserves together never exceed its supply, nor that its cap. */
  lemma EveryRun(calls: seq<Call>)
    requires forall c :: c in calls && c.NewToken? ==> c.maxSupply <= MAX64
    ensures var e := Played(calls);
            && (forall k :: k in e.pools ==>
                  && e.pools[k].lpTotal * e.pools[k].lpTotal <= e.pools[k].reserve0 * e.pools[k].reserve1
                  && Sum(e.pools[k].lpBalances) == e.pools[k].lpTotal)
            && (forall t :: t in e.tokens ==>
                  Sum(e.tokens[t].balances) + InPools(e.pools, t) <= e.tokens[t].totalSupply <= e.tokens[t].maxSupply)
  {
    hide Played, Sum, InPools;
    PlayedInv(calls);
    var e := Played(calls);
    forall k | k in e.pools ensures PoolOk(e.pools[k]) { }
    forall t | t in e.tokens
      ensures Held(e, t) <= e.tokens[t].totalSupply <= e.tokens[t].maxSupply
    {
      assert Funded(e, t);
    }
  }

  /** The supply checks inside burning and transferring can never fire. */
  lemma SupplyChecksDead(e: Engine, s: string, who: string, amount: nat)
    requires Inv(e) && s in e.tokens && Get(e.tokens[s].balances, who) >= amount
    ensures e.tokens[s].totalSupply >= amount
  {
    hide PoolOk, Sum, InPools;
    assert Funded(e, s);
    SumAtLeast(e.tokens[s].balances, who);
  }
}
