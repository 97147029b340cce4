/** What every operation of the token engine keeps: nothing is created outside minting,
    and no pool owes more LP shares than its reserves back. */
module TokenInvariant {
  import opened Basics
  import opened AmmMath
  import opened Sums
  import opened Text
  import opened TokenEngine

  // -------------------------------------------------------------------- invariant

  function Part(p: Pool, t: string): nat {
    (if p.token0 == t then p.reserve0 else 0) + (if p.token1 == t then p.reserve1 else 0)
  }

  function Parts(pools: map<PoolKey, Pool>, t: string): map<PoolKey, nat> { map k | k in pools :: Part(pools[k], t) }

  /** All of token `t` held by pools. */
  ghost function InPools(pools: map<PoolKey, Pool>, t: string): nat { Sum(Parts(pools, t)) }

  ghost predicate PoolOk(p: Pool) {
    p.lpTotal * p.lpTotal <= p.reserve0 * p.reserve1 && Sum(p.lpBalances) == p.lpTotal
  }

  predicate KeyedRight(e: Engine, k: PoolKey) {
    k in e.pools ==>
      && k == (e.pools[k].token0, e.pools[k].token1)
      && Less(k.0, k.1) && k.0 in e.tokens && k.1 in e.tokens && e.pools[k].feeBps < FEE_DENOM
  }

  /** All balances of `t`, in wallets and in pools. */
  ghost function Held(e: Engine, t: string): nat
    requires t in e.tokens
  {
    Sum(e.tokens[t].balances) + InPools(e.pools, t)
  }

  ghost predicate Funded(e: Engine, t: string) {
    t in e.tokens ==> Held(e, t) <= e.tokens[t].totalSupply <= e.tokens[t].maxSupply <= MAX64
  }

  ghost predicate Inv(e: Engine) {
    && (forall k :: k in e.pools ==> KeyedRight(e, k) && PoolOk(e.pools[k]))
    && (forall t :: t in e.tokens ==> Funded(e, t))
  }

  // ----------------------------------------------------------------- sums of parts

  lemma InPoolsUpdate(pools: map<PoolKey, Pool>, k: PoolKey, p: Pool, t: string)
    ensures InPools(pools[k := p], t) == InPools(pools, t) - (if k in pools then Part(pools[k], t) else 0) + Part(p, t)
  {
    assert Parts(pools[k := p], t) == Parts(pools, t)[k := Part(p, t)];
    SumUpdate(Parts(pools, t), k, Part(p, t));
  }

  lemma PartBelow(pools: map<PoolKey, Pool>, k: PoolKey, t: string)
    requires k in pools
    ensures Part(pools[k], t) <= InPools(pools, t)
  {
    SumAtLeast(Parts(pools, t), k);
  }

  lemma {:induction false} NoParts(pools: map<PoolKey, Pool>, t: string)
    requires forall k :: k in pools ==> pools[k].token0 != t && pools[k].token1 != t
    ensures InPools(pools, t) == 0
    decreases pools
  {
    if pools != map[] {
      var k :| k in pools;
      NoParts(pools - {k}, t);
      SumOne(Parts(pools, t), k);
      assert Parts(pools, t) - {k} == Parts(pools - {k}, t);
    }
  }

  /** Moving coins between one wallet and one pool leaves all holdings as they were. */
  lemma SettleHolds(e: Engine, k: PoolKey, p: Pool, who: string, t: string)
    requires t in e.tokens
    requires k in e.pools && p.token0 == e.pools[k].token0 && p.token1 == e.pools[k].token1 && p.token0 != p.token1
    requires p.token0 in e.tokens && p.token1 in e.tokens
    requires p.reserve0 <= Bal(e, p.token0, who) + e.pools[k].reserve0 &&
             p.reserve1 <= Bal(e, p.token1, who) + e.pools[k].reserve1
    ensures var e2 := Settle(e, k, p, who);
            && e2.tokens.Keys == e.tokens.Keys && e2.pools == e.pools[k := p] && Held(e2, t) == Held(e, t)
            && e2.tokens[t].totalSupply == e.tokens[t].totalSupply && e2.tokens[t].maxSupply == e.tokens[t].maxSupply
  {
    hide Sum;
    var e2 := Settle(e, k, p, who);
    InPoolsUpdate(e.pools, k, p, t);
    if t == p.token0 {
      SumUpdate(e.tokens[t].balances, who, Bal(e, t, who) + e.pools[k].reserve0 - p.reserve0);
    } else if t == p.token1 {
      SumUpdate(e.tokens[t].balances, who, Bal(e, t, who) + e.pools[k].reserve1 - p.reserve1);
    }
  }

  lemma SettleKeeps(e: Engine, k: PoolKey, p: Pool, who: string)
    requires Inv(e) && PoolOk(p)
    requires k in e.pools && p.token0 == e.pools[k].token0 && p.token1 == e.pools[k].token1 &&
             p.feeBps == e.pools[k].feeBps
    requires p.token0 in e.tokens && p.token1 in e.tokens && p.token0 != p.token1
    requires p.reserve0 <= Bal(e, p.token0, who) + e.pools[k].reserve0 &&
             p.reserve1 <= Bal(e, p.token1, who) + e.pools[k].reserve1
    ensures Inv(Settle(e, k, p, who))
  {
    hide PoolOk, Held, Settle, Less;
    var e2 := Settle(e, k, p, who);
    forall t | t in e.tokens
      ensures t in e2.tokens && Funded(e2, t) && e2.pools == e.pools[k := p] && e2.tokens.Keys == e.tokens.Keys
    {
      SettleHolds(e, k, p, who, t);
      assert Funded(e, t);
    }
    SettleHolds(e, k, p, who, p.token0);
    forall j | j in e2.pools
      ensures KeyedRight(e2, j) && PoolOk(e2.pools[j])
    {
      assert KeyedRight(e, k); assert j in e.pools; assert KeyedRight(e, j);
    }
  }

  /** Replacing one token's record, when what it holds stays covered. */
  lemma TokenKeeps(e: Engine, s: string, t: Token)
    requires Inv(e)
    requires Sum(t.balances) + InPools(e.pools, s) <= t.totalSupply <= t.maxSupply <= MAX64
    ensures Inv(e.(tokens := e.tokens[s := t]))
  {
    hide PoolOk, Sum, InPools, Less;
    var e2 := e.(tokens := e.tokens[s := t]);
    forall u | u in e2.tokens ensures Funded(e2, u) { if u != s { assert Funded(e, u); } }
    forall j | j in e2.pools ensures KeyedRight(e2, j) && PoolOk(e2.pools[j]) { assert KeyedRight(e, j); }
  }

  // ------------------------------------------------------------------------ supply

  lemma NoPoolYet(e: Engine, s: string)
    requires Inv(e) && s !in e.tokens
    ensures InPools(e.pools, s) == 0
  {
    forall k | k in e.pools ensures e.pools[k].token0 != s && e.pools[k].token1 != s { assert KeyedRight(e, k); }
    NoParts(e.pools, s);
  }

  lemma CreateTokenKeeps(e: Engine, symbol: string, name: string, owner: string, maxSupply: nat, initial: nat,
                         decimals: nat, burnable: bool, devWallet: string, dev: nat)
    requires Inv(e) && maxSupply <= MAX64
    ensures Inv(CreateToken(e, symbol, name, owner, maxSupply, initial, decimals, burnable, devWallet, dev).0)
  {
    hide Inv, Sum, InPools;
    var r := CreateToken(e, symbol, name, owner, maxSupply, initial, decimals, burnable, devWallet, dev);
    if r.1 {
      NoPoolYet(e, symbol);
      EmptySum();
      SumUpdate(map[], owner, initial);
      assert map[][owner := initial] == map[owner := initial];
      var b0: map<string, nat> := if initial > 0 then map[owner := initial] else map[];
      SumUpdate(b0, devWallet, Get(b0, devWallet) + dev);
      TokenKeeps(e, symbol, r.0.tokens[symbol]);
    }
  }

  lemma EmptySum()
    ensures Sum<string>(map[]) == 0
  {
  }

  lemma MintKeeps(e: Engine, s: string, caller: string, to: string, amount: nat)
    requires Inv(e)
    ensures Inv(Mint(e, s, caller, to, amount).0)
  {
    hide Sum, InPools, PoolOk;
    var r := Mint(e, s, caller, to, amount);
    if r.1 {
      assert Funded(e, s);
      SumUpdate(e.tokens[s].balances, to, Get(e.tokens[s].balances, to) + amount);
      TokenKeeps(e, s, r.0.tokens[s]);
    }
  }

  lemma BurnKeeps(e: Engine, s: string, from: string, amount: nat)
    requires Inv(e)
    ensures Inv(Burn(e, s, from, amount).0)
  {
    hide Sum, InPools, PoolOk;
    var r := Burn(e, s, from, amount);
    if r.1 {
      assert Funded(e, s);
      SumUpdate(e.tokens[s].balances, from, Get(e.tokens[s].balances, from) - amount);
      TokenKeeps(e, s, r.0.tokens[s]);
    }
  }

  /** A transfer burns its burn fee and never creates; without a treasury the fee stays
      with nobody. */
  lemma TransferredSums(t: Token, from: string, to: string, amount: nat)
    requires Transferred(t, from, to, amount).Some?
    ensures var u := Transferred(t, from, to, amount).value;
            Sum(u.balances) + t.totalSupply <= Sum(t.balances) + u.totalSupply && u.maxSupply == t.maxSupply &&
                u.totalSupply <= t.totalSupply
  {
    hide Sum;
    var p := t.policy;
    var free := from in p.exempt || to in p.exempt;
    var fee, burnt := if free then 0 else Fee(amount, p.feeBps), if free then 0 else Fee(amount, p.burnBps);
    hide Fee;
    var received := amount - fee - burnt;
    var b0 := t.balances[from := Get(t.balances, from) - amount];
    SumUpdate(t.balances, from, Get(t.balances, from) - amount);
    var b1 := b0[to := Get(b0, to) + received];
    SumUpdate(b0, to, Get(b0, to) + received);
    SumUpdate(b1, p.treasury, Get(b1, p.treasury) + fee);
  }

  lemma TransferKeeps(e: Engine, s: string, from: string, to: string, amount: nat)
    requires Inv(e)
    ensures Inv(Transfer(e, s, from, to, amount).0)
  {
    hide Sum, InPools, PoolOk, Transferred;
    var r := Transfer(e, s, from, to, amount);
    if r.1 {
      assert Funded(e, s);
      TransferredSums(e.tokens[s], from, to, amount);
      TokenKeeps(e, s, r.0.tokens[s]);
    }
  }
}
