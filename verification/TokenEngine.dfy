/** Tokens, constant-product pools and LP shares, as functions on the engine's state. */
module TokenEngine {
  import opened Basics
  import opened AmmMath
  import opened Sums
  import opened Text

  const FEE_DENOM: nat := 10000

  /** The owner-set rules of a token; none of them is constrained here. */
  datatype Policy = Policy(treasury: string, feeBps: nat, burnBps: nat, paused: bool, maxTx: nat, maxWallet: nat,
                           blacklist: set<string>, exempt: set<string>)

  datatype Token = Token(owner: string, burnable: bool, policy: Policy, maxSupply: nat, totalSupply: nat,
                         balances: map<string, nat>)

  datatype Pool = Pool(token0: string, token1: string, reserve0: nat, reserve1: nat, feeBps: nat, lpTotal: nat,
                       lpBalances: map<string, nat>)

  type PoolKey = (string, string)

  datatype Engine = Engine(tokens: map<string, Token>, pools: map<PoolKey, Pool>)

  // ------------------------------------------------------------------- pool keys

  predicate NameOk(s: string) { s != [] && forall c :: c in s ==> c !in {'|', '\n', '\r', ' ', '\t'} }

  /** The canonical key of a pair, the same for both orders. */
  function KeyOf(a: string, b: string): Option<PoolKey> {
    if !NameOk(a) || !NameOk(b) || a == b then None
    else if Less(a, b) then Some((a, b))
    else Some((b, a))
  }

  lemma KeySymmetric(a: string, b: string)
    ensures KeyOf(a, b) == KeyOf(b, a)
  {
    LessTotal(a, b);
  }

  // -------------------------------------------------------------------- balances

  function Bal(e: Engine, t: string, who: string): nat { if t in e.tokens then Get(e.tokens[t].balances, who) else 0 }

  function SetBal(e: Engine, t: string, who: string, v: nat): Engine
    requires t in e.tokens
  {
    e.(tokens := e.tokens[t := e.tokens[t].(balances := e.tokens[t].balances[who := v])])
  }

  // ---------------------------------------------------------------------- supply

  function CreateToken(e: Engine, symbol: string, name: string, owner: string, maxSupply: nat, initial: nat,
                       decimals: nat, burnable: bool, devWallet: string, dev: nat): (Engine, bool) {
    if symbol == "" || owner == "" || name == "" || decimals > 30 || maxSupply == 0 || dev > maxSupply then (e, false)
    else if dev > 0 && devWallet == "" then (e, false)
    else if initial > MAX64 - dev || initial + dev > maxSupply || symbol in e.tokens then (e, false)
    else
      var b0 := if initial > 0 then map[owner := initial] else map[];
      var b1 := if dev > 0 then b0[devWallet := Get(b0, devWallet) + dev] else b0;
      (e.(tokens := e.tokens[symbol := Token(owner, burnable, Policy("", 0, 0, false, 0, 0, {}, {}), maxSupply,
          initial + dev, b1)]), true)
  }

  function Mint(e: Engine, symbol: string, caller: string, to: string, amount: nat): (Engine, bool) {
    if symbol !in e.tokens then (e, false)
    else
      var t := e.tokens[symbol];
      if caller != t.owner || to == "" || amount == 0 || t.totalSupply > MAX64 - amount ||
          t.totalSupply + amount > t.maxSupply
         || Get(t.balances, to) > MAX64 - amount then (e, false)
      else (e.(tokens := e.tokens[symbol := t.(totalSupply := t.totalSupply + amount,
                                               balances := t.balances[to := Get(t.balances, to) + amount])]), true)
  }

  function Fee(amount: nat, bps: nat): nat { W(amount * bps) / FEE_DENOM }

  /** What a transfer does to the balances, or nothing if it is refused. */
  function Transferred(t: Token, from: string, to: string, amount: nat): Option<Token> {
    var p := t.policy;
    var free := from in p.exempt || to in p.exempt;
    var fee, burnt := if free then 0 else Fee(amount, p.feeBps), if free then 0 else Fee(amount, p.burnBps);
    if from == "" || to == "" || amount == 0 || p.paused || from in p.blacklist || to in p.blacklist then None
    else if (p.maxTx > 0 && amount > p.maxTx) || fee + burnt > amount || Get(t.balances, from) < amount then None
    else
      var received := amount - fee - burnt;
      var b0 := t.balances[from := Get(t.balances, from) - amount];
      if Get(b0, to) > MAX64 - received then None
      else
        var b1 := b0[to := Get(b0, to) + received];
        if p.maxWallet > 0 && b1[to] > p.maxWallet then None
        else if fee > 0 && p.treasury != "" && Get(b1, p.treasury) > MAX64 - fee then None
        else
          var b2 := if fee > 0 && p.treasury != "" then b1[p.treasury := Get(b1, p.treasury) + fee] else b1;
          if t.totalSupply < burnt then None else Some(t.(balances := b2, totalSupply := t.totalSupply - burnt))
  }

  function Transfer(e: Engine, symbol: string, from: string, to: string, amount: nat): (Engine, bool) {
    if symbol !in e.tokens then (e, false)
    else
      var t := Transferred(e.tokens[symbol], from, to, amount);
      if t.None? then (e, false) else (e.(tokens := e.tokens[symbol := t.value]), true)
  }

  function Burn(e: Engine, symbol: string, from: string, amount: nat): (Engine, bool) {
    if symbol !in e.tokens then (e, false)
    else
      var t := e.tokens[symbol];
      if !t.burnable || from == "" || amount == 0 || Get(t.balances, from) < amount ||
          t.totalSupply < amount then (e, false)
      else (e.(tokens := e.tokens[symbol := t.(totalSupply := t.totalSupply - amount,
                                               balances := t.balances[from := Get(t.balances, from) - amount])]), true)
  }

  // ----------------------------------------------------------------------- pools

  function Times(a: nat, b: nat): nat { a * b }

  function Quotient(n: nat, d: nat): nat
    requires d > 0
  {
    n / d
  }

  /** A proportional share; the product is 64-bit and may wrap. */
  function Share(a: nat, b: nat, c: nat): nat
    requires c > 0
  {
    W(Times(a, b)) / c
  }

  /** The product of `a` and `b` fits 64 bits, asked the way the program asks it. */
  predicate ProductFits(a: nat, b: nat)
    requires b > 0
  {
    a <= MAX64 / b
  }

  function CreatePool(e: Engine, a: string, b: string, feeBps: nat): (Engine, bool) {
    var k := KeyOf(a, b);
    if k.None? || k.value.0 !in e.tokens || k.value.1 !in e.tokens || feeBps >= FEE_DENOM ||
        k.value in e.pools then (e, false)
    else (e.(pools := e.pools[k.value := Pool(k.value.0, k.value.1, 0, 0, feeBps, 0, map[])]), true)
  }

  /** Pool `k` becomes `p`; what its reserves lose goes to `who` and what they gain
      comes from `who`. */
  function Settle(e: Engine, k: PoolKey, p: Pool, who: string): Engine
    requires k in e.pools && p.token0 == e.pools[k].token0 && p.token1 == e.pools[k].token1 && p.token0 != p.token1
    requires p.token0 in e.tokens && p.token1 in e.tokens
    requires p.reserve0 <= Bal(e, p.token0, who) + e.pools[k].reserve0 &&
             p.reserve1 <= Bal(e, p.token1, who) + e.pools[k].reserve1
  {
    var old_ := e.pools[k];
    var e1 := SetBal(e, p.token0, who, Bal(e, p.token0, who) + old_.reserve0 - p.reserve0);
    SetBal(e1, p.token1, who, Bal(e, p.token1, who) + old_.reserve1 - p.reserve1).(pools := e.pools[k := p])
  }

  /** LP shares for a deposit; the products are 64-bit and may wrap. A first deposit on which
      the square root does not return never mints any. */
  function MintedLp(p: Pool, add0: nat, add1: nat): Option<nat>
    requires add1 > 0
  {
    if p.lpTotal == 0 then
      if !ProductFits(add0, add1) || OneBelowSquare(Times(add0, add1)) then None else Some(Sqrt(Times(add0, add1)))
    else if p.reserve0 == 0 || p.reserve1 == 0 || !ProductFits(add0, p.reserve1) ||
        !ProductFits(p.reserve0, add1) then None
    else if Times(add0, p.reserve1) != Times(add1, p.reserve0) then None
    else
      var lp0, lp1 := Share(add0, p.lpTotal, p.reserve0), Share(add1, p.lpTotal, p.reserve1);
      Some(if lp0 <= lp1 then lp0 else lp1)
  }

  function Deposited(p: Pool, who: string, add0: nat, add1: nat, m: nat): Pool {
    p.(reserve0 := p.reserve0 + add0, reserve1 := p.reserve1 + add1, lpTotal := p.lpTotal + m,
       lpBalances := p.lpBalances[who := Get(p.lpBalances, who) + m])
  }

  predicate DepositFits(p: Pool, who: string, add0: nat, add1: nat, m: nat) {
    && p.reserve0 + add0 <= MAX64 && p.reserve1 + add1 <= MAX64 && p.lpTotal + m <= MAX64
    && Get(p.lpBalances, who) + m <= MAX64
  }

  function AddLiquidity(e: Engine, a: string, b: string, who: string, amountA: nat, amountB: nat): (Engine, bool) {
    var k := KeyOf(a, b);
    if who == "" || amountA == 0 || amountB == 0 || k.None? || k.value !in e.pools then (e, false)
    else
      var p := e.pools[k.value];
      var add0, add1 := if a == p.token0 then amountA else amountB, if a == p.token0 then amountB else amountA;
      if p.token0 !in e.tokens || p.token1 !in e.tokens || p.token0 == p.token1 then (e, false)
      else if Bal(e, p.token0, who) < add0 || Bal(e, p.token1, who) < add1 then (e, false)
      else
        var m := MintedLp(p, add0, add1);
        if m.None? || m.value == 0 || !DepositFits(p, who, add0, add1, m.value) then (e, false)
        else (Settle(e, k.value, Deposited(p, who, add0, add1, m.value), who), true)
  }

  function Withdrawn(p: Pool, who: string, lp: nat): Option<Pool> {
    if Get(p.lpBalances, who) < lp || p.lpTotal == 0 || lp > p.lpTotal then None
    else
      var t0, t1 := Share(p.reserve0, lp, p.lpTotal), Share(p.reserve1, lp, p.lpTotal);
      if t0 == 0 || t1 == 0 || t0 > p.reserve0 || t1 > p.reserve1 then None
      else Some(p.(reserve0 := p.reserve0 - t0, reserve1 := p.reserve1 - t1, lpTotal := p.lpTotal - lp,
                   lpBalances := p.lpBalances[who := Get(p.lpBalances, who) - lp]))
  }

  /** The amounts are returned in the order the tokens were named. */
  function RemoveLiquidity(e: Engine, a: string, b: string, who: string, lp: nat): (Engine, Option<(nat, nat)>) {
    var k := KeyOf(a, b);
    if who == "" || lp == 0 || k.None? || k.value !in e.pools then (e, None)
    else
      var p := e.pools[k.value];
      var q := Withdrawn(p, who, lp);
      if p.token0 !in e.tokens || p.token1 !in e.tokens || p.token0 == p.token1 || q.None? then (e, None)
      else
        var t0, t1 := p.reserve0 - q.value.reserve0, p.reserve1 - q.value.reserve1;
        if t0 < 0 || t1 < 0 || Bal(e, p.token0, who) > MAX64 - t0 || Bal(e, p.token1, who) > MAX64 - t1 then (e, None)
        else (Settle(e, k.value, q.value, who), Some(if a == p.token0 then (t0, t1) else (t1, t0)))
  }

  // ----------------------------------------------------------------------- swaps

  /** The constant-product price; every product is checked against 64 bits. */
  function Price(rin: nat, rout: nat, mult: nat, a: nat): Option<nat> {
    if rin == 0 || rout == 0 || mult == 0 || !ProductFits(a, mult) then None else PriceNet(rin, rout, Times(a, mult))
  }

  function PriceNet(rin: nat, rout: nat, paid: nat): Option<nat>
    requires rout > 0
  {
    if paid == 0 || !ProductFits(paid, rout) || !ProductFits(rin, FEE_DENOM) || rin * FEE_DENOM > MAX64 - paid then None
    else
      var out := Quotient(Times(paid, rout), rin * FEE_DENOM + paid);
      if out == 0 || out >= rout then None else Some(out)
  }

  /** What a pool pays for `a` of its first (`in0`) or second token. */
  function QuotePool(p: Pool, in0: bool, a: nat): Option<nat> {
    if p.feeBps >= FEE_DENOM then None
    else if in0 then Price(p.reserve0, p.reserve1, FEE_DENOM - p.feeBps, a)
    else Price(p.reserve1, p.reserve0, FEE_DENOM - p.feeBps, a)
  }

  function Quote(e: Engine, tin: string, tout: string, a: nat): Option<nat> {
    var k := KeyOf(tin, tout);
    if a == 0 || k.None? || k.value !in e.pools then None
    else QuotePool(e.pools[k.value], tin == e.pools[k.value].token0, a)
  }

  function Swapped(p: Pool, in0: bool, a: nat, out: nat): Pool
    requires out <= if in0 then p.reserve1 else p.reserve0
  {
    if in0 then p.(reserve0 := p.reserve0 + a, reserve1 := p.reserve1 - out)
    else p.(reserve0 := p.reserve0 - out, reserve1 := p.reserve1 + a)
  }

  function Swap(e: Engine, tin: string, tout: string, who: string, a: nat, minOut: nat): (Engine, Option<nat>) {
    var q := Quote(e, tin, tout, a);
    if who == "" || q.None? || q.value < minOut then (e, None)
    else
      var k, out := KeyOf(tin, tout).value, q.value;
      var p := e.pools[k];
      var in0 := tin == p.token0;
      if p.token0 !in e.tokens || p.token1 !in e.tokens || p.token0 == p.token1 || tin !in {p.token0, p.token1} ||
          tout !in {p.token0, p.token1}
      then (e, None)
      else if Bal(e, tin, who) < a || (if in0 then p.reserve1 else p.reserve0) <= out then (e, None)
      else if Bal(e, tout, who) > MAX64 - out || (if in0 then p.reserve0 else p.reserve1) > MAX64 - a then (e, None)
      else (Settle(e, k, Swapped(p, in0, a, out), who), Some(out))
  }
}
