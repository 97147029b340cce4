/** The route search: a depth-first walk over simple paths that keeps the best route. */
module TokenSearch {
  import opened Basics
  import opened AmmMath
  import opened Sums
  import opened TokenEngine
  import opened TokenInvariant
  import opened TokenPools
  import opened TokenRoute

  const HOP_PENALTY: nat := 7

  datatype Query = Query(tokenIn: string, tokenOut: string, amount: nat, maxHops: nat)

  /** The best route so far; all zero and empty at the start. */
  datatype Best = Best(score: nat, out: nat, liquidity: nat, route: seq<string>)

  function SetOf(s: seq<string>): set<string> { set t | t in s }

  const NONE: Best := Best(0, 0, 0, [])

  /** Lexicographic on score, output and bottleneck. */
  predicate AtMost(x: Best, y: Best) {
    x.score < y.score || (x.score == y.score && (x.out < y.out || (x.out == y.out && x.liquidity <= y.liquidity)))
  }

  predicate Simple(r: seq<string>) { forall i, j :: 0 <= i < j < |r| ==> r[i] != r[j] }

  /** A route the query may choose. */
  predicate Viable(e: Engine, q: Query, r: seq<string>) {
    && 2 <= |r| <= q.maxHops + 1 && r[0] == q.tokenIn && r[|r| - 1] == q.tokenOut && Simple(r)
    && QuoteAlong(e, r, q.amount).Some?
  }

  // ------------------------------------------------------------------------- ranking

  function Penalty(hops: nat): nat
    requires hops > 0
  {
    if HOP_PENALTY * (hops - 1) > 9999 then 9999 else HOP_PENALTY * (hops - 1)
  }

  /** The score as the program computes it, in 64 bits. */
  function Score(out: nat, hops: nat): nat
    requires hops > 0
  {
    W(out * (10000 - Penalty(hops))) / 10000
  }

  function ReserveIn(e: Engine, s: string, t: string): nat {
    var k := KeyOf(s, t);
    if k.None? || k.value !in e.pools then 0
    else if s == e.pools[k.value].token0 then e.pools[k.value].reserve0 else e.pools[k.value].reserve1
  }

  /** The smallest input reserve along a route. */
  function Bottleneck(e: Engine, r: seq<string>): (m: nat)
    ensures m <= MAX64
  {
    if |r| < 2 then MAX64 else Min(ReserveIn(e, r[0], r[1]), Bottleneck(e, r[1..]))
  }

  function RankOf(e: Engine, q: Query, r: seq<string>): Best {
    var out := QuoteAlong(e, r, q.amount);
    if |r| < 2 || out.None? then NONE else Best(Score(out.value, |r| - 1), out.value, Bottleneck(e, r), r)
  }

  // ------------------------------------------------------------------------- quoting

  lemma {:induction false} QuoteAlongSnoc(e: Engine, c: seq<string>, x: string, a: nat)
    requires |c| > 0
    ensures QuoteAlong(e, c + [x], a) ==
            if QuoteAlong(e, c, a).None? then None else Quote(e, c[|c| - 1], x, QuoteAlong(e, c, a).value)
    decreases |c|
  {
    hide Quote;
    if |c| == 1 {
      assert c + [x] == [c[0], x];
    } else {
      var q := Quote(e, c[0], c[1], a);
      assert (c + [x])[1..] == c[1..] + [x];
      if q.Some? { QuoteAlongSnoc(e, c[1..], x, q.value); }
    }
  }

  lemma {:induction false} QuotePrefix(e: Engine, r: seq<string>, n: nat, a: nat)
    requires 1 <= n <= |r| && QuoteAlong(e, r, a).Some?
    ensures QuoteAlong(e, r[..n], a).Some?
    decreases |r|
  {
    hide QuoteAlong;
    if n < |r| {
      var c := r[..|r| - 1];
      assert r == c + [r[|r| - 1]];
      QuoteAlongSnoc(e, c, r[|r| - 1], a);
      QuotePrefix(e, c, n, a);
      assert c[..n] == r[..n];
    } else {
      assert r[..n] == r;
    }
  }

  /** The hop out of a prefix of a quotable route is quotable, into a token that exists. */
  lemma NextHop(e: Engine, r: seq<string>, n: nat, a: nat)
    requires Inv(e) && 1 <= n < |r| && QuoteAlong(e, r, a).Some?
    ensures QuoteAlong(e, r[..n], a).Some?
    ensures Quote(e, r[n - 1], r[n], QuoteAlong(e, r[..n], a).value).Some? && r[n] in e.tokens
  {
    hide QuoteAlong, Inv, QuotePool, KeyOf;
    QuotePrefix(e, r, n, a);
    QuotePrefix(e, r, n + 1, a);
    assert r[..n + 1] == r[..n] + [r[n]];
    QuoteAlongSnoc(e, r[..n], r[n], a);
    var k := KeyOf(r[n - 1], r[n]).value;
    PoolFacts(e, k);
    KeyTokens(r[n - 1], r[n]);
  }

  // ----------------------------------------------------------- the score's arithmetic

  lemma PriceBounded(rin: nat, rout: nat, mult: nat, a: nat)
    requires Price(rin, rout, mult, a).Some?
    ensures Price(rin, rout, mult, a).value * 10000 <= MAX64
  {
    hide Price;
    var out := Price(rin, rout, mult, a).value;
    PriceFacts(rin, rout, mult, a);
    PriceProduct(rin, rout, mult, a);
    DenAtLeast(rin, a, mult);
    MulMono(10000, rin * 10000 + a * mult, out);
  }

  lemma DenAtLeast(rin: nat, a: nat, mult: nat)
    requires rin > 0
    ensures rin * 10000 + a * mult >= 10000
  {
  }

  lemma PriceProduct(rin: nat, rout: nat, mult: nat, a: nat)
    requires Price(rin, rout, mult, a).Some?
    ensures rin > 0 && a * mult * rout <= MAX64
  {
    var paid := Times(a, mult);
    assert ProductFits(paid, rout);
    DivBounds(MAX64, rout);
    MulMono(paid, MAX64 / rout, rout);
  }

  lemma QuoteBounded(e: Engine, s: string, t: string, a: nat)
    requires Quote(e, s, t, a).Some?
    ensures Quote(e, s, t, a).value * 10000 <= MAX64
  {
    hide Price, KeyOf;
    var p := e.pools[KeyOf(s, t).value];
    PriceBounded(if s == p.token0 then p.reserve0 else p.reserve1, if s == p.token0 then p.reserve1
        else p.reserve0, FEE_DENOM - p.feeBps, a);
  }

  /** Scoring a quoted route never overflows 64 bits. */
  lemma ScoreExact(e: Engine, r: seq<string>, a: nat)
    requires |r| >= 2 && QuoteAlong(e, r, a).Some?
    ensures var out := QuoteAlong(e, r, a).value;
            Score(out, |r| - 1) == out * (10000 - Penalty(|r| - 1)) / 10000
  {
    hide QuoteAlong, Quote, Score, Penalty;
    var c := r[..|r| - 1];
    assert r == c + [r[|r| - 1]];
    QuoteAlongSnoc(e, c, r[|r| - 1], a);
    QuoteBounded(e, c[|c| - 1], r[|r| - 1], QuoteAlong(e, c, a).value);
    ScoreFits(QuoteAlong(e, r, a).value, |r| - 1);
  }

  lemma ScoreFits(out: nat, hops: nat)
    requires hops > 0 && out * 10000 <= MAX64
    ensures Score(out, hops) == out * (10000 - Penalty(hops)) / 10000
  {
    var keep: nat := 10000 - Penalty(hops);
    MulMono(keep, 10000, out);
    assert W(out * keep) == out * keep;
  }

  /** A viable route always beats the empty start. */
  lemma ViablePositive(e: Engine, q: Query, r: seq<string>)
    requires Inv(e) && Viable(e, q, r)
    ensures QuoteAlong(e, r, q.amount).value > 0
  {
    hide QuoteAlong, Quote, Inv;
    var c := r[..|r| - 1];
    assert r == c + [r[|r| - 1]];
    QuoteAlongSnoc(e, c, r[|r| - 1], q.amount);
    QuotePositive(e, c[|c| - 1], r[|r| - 1], QuoteAlong(e, c, q.amount).value);
  }

  // -------------------------------------------------------------------------- search

  predicate Extends(r: seq<string>, c: seq<string>) { |c| <= |r| && r[..|c|] == c }

  /** The routes still to be covered from `c`: viable, and going on through one of `next`. */
  predicate Through(e: Engine, q: Query, c: seq<string>, next: set<string>, r: seq<string>) {
    Viable(e, q, r) && Extends(r, c) && |c| < |r| && r[|c|] in next
  }

  /** `b` is what the search held before, or the rank of a viable route, and no worse. */
  ghost predicate Improves(e: Engine, q: Query, before: Best, b: Best) {
    AtMost(before, b) && (b == before || (Viable(e, q, b.route) && b == RankOf(e, q, b.route)))
  }

  lemma ImprovesTrans(e: Engine, q: Query, x: Best, y: Best, z: Best)
    requires Improves(e, q, x, y) && Improves(e, q, y, z)
    ensures Improves(e, q, x, z)
  {
    hide Viable, RankOf;
  }

  lemma SimplePrefixEnds(r: seq<string>, c: seq<string>)
    requires Simple(r) && Extends(r, c) && |c| > 0 && c[|c| - 1] == r[|r| - 1]
    ensures r == c
  {
    assert c[|c| - 1] == r[|c| - 1];
    assert r[..|r|] == r;
  }

  predicate Walk(e: Engine, q: Query, c: seq<string>, running: nat) {
    && |c| > 0 && c[0] == q.tokenIn && Simple(c) && QuoteAlong(e, c, q.amount) == Some(running)
  }

  lemma WalkOn(e: Engine, q: Query, c: seq<string>, running: nat, x: string)
    requires Walk(e, q, c, running) && x !in c && Quote(e, c[|c| - 1], x, running).Some?
    ensures Walk(e, q, c + [x], Quote(e, c[|c| - 1], x, running).value)
  {
    hide Quote, QuoteAlong;
    QuoteAlongSnoc(e, c, x, q.amount);
  }

  /** A next token that is already used, or cannot be quoted, leads to no viable route. */
  lemma DeadEnd(e: Engine, q: Query, c: seq<string>, running: nat, x: string, r: seq<string>)
    requires Inv(e) && Walk(e, q, c, running) && (x in c || Quote(e, c[|c| - 1], x, running).None?)
    ensures !Through(e, q, c, {x}, r)
  {
    hide QuoteAlong, Quote, Inv;
    if Through(e, q, c, {x}, r) {
      NextHop(e, r, |c|, q.amount);
    }
  }

  lemma ThroughExtends(e: Engine, q: Query, c: seq<string>, x: string, r: seq<string>)
    requires Through(e, q, c, {x}, r)
    ensures Extends(r, c + [x])
  {
    hide Viable;
    assert r[..|c| + 1] == r[..|c|] + [r[|c|]];
  }

  /** From a walk that has not arrived, every viable route goes on through some token. */
  lemma GoesOn(e: Engine, q: Query, c: seq<string>, running: nat, r: seq<string>)
    requires Inv(e) && Walk(e, q, c, running) && Viable(e, q, r) && Extends(r, c)
    requires !(c[|c| - 1] == q.tokenOut && |c| >= 2)
    ensures |c| < |r| && Through(e, q, c, e.tokens.Keys, r)
  {
    hide QuoteAlong, Inv;
    NextHop(e, r, |c|, q.amount);
  }

  /** The state of one search: the path being walked, its tokens, and the best route. */
  class RouteSearch {
    const e: Engine
    const q: Query
    const allTokens: seq<string>
    var current: seq<string>
    var used: set<string>
    var best: Best

    constructor (e: Engine, q: Query, allTokens: seq<string>)
      ensures this.e == e && this.q == q && this.allTokens == allTokens
      ensures current == [q.tokenIn] && used == {q.tokenIn} && best == NONE
    {
      this.e, this.q, this.allTokens := e, q, allTokens;
      current, used, best := [q.tokenIn], {q.tokenIn}, NONE;
    }

    ghost predicate Valid(running: nat)
      reads this
    {
      && Inv(e) && Walk(e, q, current, running) && used == SetOf(current)
      && SetOf(allTokens) == e.tokens.Keys
    }

    method BottleneckOf(r: seq<string>) returns (m: nat)
      requires |r| >= 1
      ensures m == Bottleneck(e, r)
    {
      m := MAX64;
      var i := 0;
      assert r[0..] == r;
      while i + 1 < |r|
        invariant 0 <= i < |r|
        invariant m <= MAX64 && Min(m, Bottleneck(e, r[i..])) == Bottleneck(e, r)
      {
        var k := KeyOf(r[i], r[i + 1]);
        assert r[i..][0] == r[i] && r[i..][1] == r[i + 1] && r[i..][1..] == r[i + 1..];
        if k.None? || k.value !in e.pools { return 0; }
        m := Min(m, ReserveIn(e, r[i], r[i + 1]));
        i := i + 1;
      }
      assert |r[i..]| == 1;
    }

    /** The walk has reached the wanted token: keep it if it is better. */
    method Arrive(running: nat)
      requires Valid(running) && current[|current| - 1] == q.tokenOut && 2 <= |current| <= q.maxHops + 1
      modifies this`best
      ensures Improves(e, q, old(best), best)
      ensures forall r :: Viable(e, q, r) && Extends(r, current) ==> AtMost(RankOf(e, q, r), best)
    {
      hide Inv, QuoteAlong, Bottleneck;
      var score := Score(running, |current| - 1);
      var m := BottleneckOf(current);
      var better := score > best.score || (score == best.score && running > best.out)
                    || (score == best.score && running == best.out && m > best.liquidity);
      assert Best(score, running, m, current) == RankOf(e, q, current);
      if better { best := Best(score, running, m, current); }
      forall r | Viable(e, q, r) && Extends(r, current) ensures r == current {
        SimplePrefixEnds(r, current);
      }
    }

    /** One level of the walk: on return the path is as it was, and the best route beats
        every viable route that extends it. */
    method Dfs(depth: nat, running: nat)
      requires Valid(running) && depth == |current| - 1 <= q.maxHops
      modifies this
      ensures current == old(current) && used == old(used)
      ensures Improves(e, q, old(best), best)
      ensures forall r :: Viable(e, q, r) && Extends(r, current) ==> AtMost(RankOf(e, q, r), best)
      decreases q.maxHops - depth, 1
    {
      hide Inv, Quote, QuoteAlong, RankOf, Simple;
      if current[|current| - 1] == q.tokenOut && |current| >= 2 {
        Arrive(running);
        return;
      }
      forall r | Viable(e, q, r) && Extends(r, current) ensures |current| < |r| &&
          Through(e, q, current, e.tokens.Keys, r) {
        GoesOn(e, q, current, running, r);
      }
      if depth >= q.maxHops { return; }
      EachNext(depth, running);
      assert SetOf(allTokens) == e.tokens.Keys;
    }

    method EachNext(depth: nat, running: nat)
      requires Valid(running) && depth == |current| - 1 < q.maxHops
      modifies this
      ensures current == old(current) && used == old(used)
      ensures Improves(e, q, old(best), best)
      ensures forall r :: Through(e, q, current, SetOf(allTokens), r) ==> AtMost(RankOf(e, q, r), best)
      decreases q.maxHops - depth, 0
    {
      hide Inv, Quote, QuoteAlong, RankOf, Viable, Extends, Walk, AtMost, Improves;
      NoChange(e, q, best);
      var i := 0;
      while i < |allTokens|
        invariant i <= |allTokens|
        invariant current == old(current) && used == old(used)
        invariant Improves(e, q, old(best), best)
        invariant forall r :: Through(e, q, current, SetOf(allTokens[..i]), r) ==> AtMost(RankOf(e, q, r), best)
      {
        ghost var before := best;
        TryNext(depth, running, allTokens[i]);
        ImprovesTrans(e, q, old(best), before, best);
        forall r | Through(e, q, current, SetOf(allTokens[..i + 1]), r) ensures AtMost(RankOf(e, q, r), best) {
          SplitThrough(e, q, current, allTokens, i, r);
          if Through(e, q, current, SetOf(allTokens[..i]), r) { StillAtMost(e, q, RankOf(e, q, r), before, best); }
        }
        i := i + 1;
      }
      assert allTokens[..i] == allTokens;
    }

    method TryNext(depth: nat, running: nat, nxt: string)
      requires Valid(running) && depth == |current| - 1 < q.maxHops
      modifies this
      ensures current == old(current) && used == old(used)
      ensures Improves(e, q, old(best), best)
      ensures forall r :: Through(e, q, current, {nxt}, r) ==> AtMost(RankOf(e, q, r), best)
      decreases q.maxHops - depth - 1, 2
    {
      hide Inv, Quote, QuoteAlong, RankOf, Viable, Extends, Walk, AtMost, Improves;
      NoChange(e, q, best);
      WalkNonEmpty(e, q, current, running);
      var hop := Quote(e, current[|current| - 1], nxt, running);
      if nxt in used || hop.None? {
        forall r ensures !Through(e, q, current, {nxt}, r) { DeadEnd(e, q, current, running, nxt, r); }
        return;
      }
      WalkOn(e, q, current, running, nxt);
      used, current := used + {nxt}, current + [nxt];
      Dfs(depth + 1, hop.value);
      current, used := current[..|current| - 1], used - {nxt};
      forall r | Through(e, q, current, {nxt}, r) ensures AtMost(RankOf(e, q, r), best) {
        ThroughExtends(e, q, current, nxt, r);
      }
    }
  }

  lemma NoChange(e: Engine, q: Query, b: Best)
    ensures Improves(e, q, b, b)
  {
  }

  lemma WalkNonEmpty(e: Engine, q: Query, c: seq<string>, running: nat)
    requires Walk(e, q, c, running)
    ensures |c| > 0
  {
  }

  lemma SplitThrough(e: Engine, q: Query, c: seq<string>, all: seq<string>, i: nat, r: seq<string>)
    requires i < |all| && Through(e, q, c, SetOf(all[..i + 1]), r)
    ensures Through(e, q, c, SetOf(all[..i]), r) || Through(e, q, c, {all[i]}, r)
  {
    hide Viable, Extends;
    assert all[..i + 1] == all[..i] + [all[i]];
  }

  lemma StillAtMost(e: Engine, q: Query, x: Best, before: Best, b: Best)
    requires AtMost(x, before) && Improves(e, q, before, b)
    ensures AtMost(x, b)
  {
    hide RankOf, Viable;
  }

  method Keys(e: Engine) returns (all: seq<string>)
    ensures SetOf(all) == e.tokens.Keys
  {
    var rest := e.tokens.Keys;
    all := [];
    while rest != {}
      invariant rest <= e.tokens.Keys && SetOf(all) == e.tokens.Keys - rest
      decreases rest
    {
      var t :| t in rest;
      assert SetOf(all + [t]) == SetOf(all) + {t};
      all := all + [t];
      rest := rest - {t};
    }
  }

  function Clamp(maxHops: nat): nat { if maxHops < 1 then 1 else if maxHops > 4 then 4 else maxHops }

  /** The best route between two tokens: the lexicographic maximum over every viable
      simple route, and a failure only when there is none. */
  method BestRoute(e: Engine, tokenIn: string, tokenOut: string, amount: nat,
      maxHops: nat) returns (r: Option<(seq<string>, nat)>)
    requires Inv(e)
    ensures var q := Query(tokenIn, tokenOut, amount, Clamp(maxHops));
            && (r.Some? ==>
                  && Viable(e, q, r.value.0) && QuoteRoute(e, r.value.0, amount) == Some(r.value.1)
                  && forall s :: Viable(e, q, s) ==> AtMost(RankOf(e, q, s), RankOf(e, q, r.value.0)))
            && (r.None? ==> forall s :: !Viable(e, q, s))
  {
    hide Inv, QuoteAlong, RankOf;
    var q := Query(tokenIn, tokenOut, amount, Clamp(maxHops));
    if tokenIn == "" || tokenOut == "" || tokenIn == tokenOut || amount == 0 {
      forall s ensures !Viable(e, q, s) { NoRoute(e, q, s); }
      return None;
    }
    var all := Keys(e);
    var search := new RouteSearch(e, q, all);
    assert QuoteAlong(e, [tokenIn], amount) == Some(amount) by { StartQuote(e, tokenIn, amount); }
    search.Dfs(0, amount);
    forall s | Viable(e, q, s) ensures AtMost(RankOf(e, q, s), search.best) && RankOf(e, q, s).out > 0 {
      assert Extends(s, [tokenIn]);
      ViablePositive(e, q, s);
      RankOut(e, q, s);
    }
    if search.best.route == [] || search.best.out == 0 { return None; }
    RankOut(e, q, search.best.route);
    return Some((search.best.route, search.best.out));
  }

  lemma StartQuote(e: Engine, t: string, a: nat)
    ensures QuoteAlong(e, [t], a) == Some(a)
  {
  }

  lemma RankOut(e: Engine, q: Query, r: seq<string>)
    requires Viable(e, q, r)
    ensures RankOf(e, q, r).out == QuoteAlong(e, r, q.amount).value && RankOf(e, q, r).route == r
  {
    hide QuoteAlong;
  }

  lemma NoRoute(e: Engine, q: Query, s: seq<string>)
    requires q.tokenIn == "" || q.tokenOut == "" || q.tokenIn == q.tokenOut || q.amount == 0
    ensures !Viable(e, q, s)
  {
    hide QuoteAlong, Quote, KeyOf;
    if Viable(e, q, s) {
      FirstHop(e, s, q.amount);
      LastHop(e, s, q.amount);
    }
  }

  lemma FirstHop(e: Engine, s: seq<string>, a: nat)
    requires |s| >= 2 && QuoteAlong(e, s, a).Some?
    ensures a > 0 && s[0] != ""
  {
  }

  lemma LastHop(e: Engine, s: seq<string>, a: nat)
    requires |s| >= 2 && QuoteAlong(e, s, a).Some?
    ensures s[|s| - 1] != ""
  {
    hide QuoteAlong;
    var c := s[..|s| - 1];
    assert s == c + [s[|s| - 1]];
    QuoteAlongSnoc(e, c, s[|s| - 1], a);
  }
}
