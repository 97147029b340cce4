/** Fetching transactions for a block: best fee first, then each signer's transactions put
    back in nonce order within the places they hold. */
module MempoolFetch {
  import opened Basics
  import opened Seqs
  import opened Text
  import opened Ledger
  import opened Mempool

  /** Higher fee, then fewer outputs, then lower nonce. */
  predicate FeeLe(a: Tx, b: Tx) {
    a.fee > b.fee || (a.fee == b.fee &&
        (|a.outputs| < |b.outputs| || (|a.outputs| == |b.outputs| && a.nonce <= b.nonce)))
  }

  predicate NonceLe(a: Tx, b: Tx) { a.nonce <= b.nonce }

  // ------------------------------------------------------------- a signer's own places

  /** The transactions of one signer, in order. */
  function Own(p: seq<Tx>, who: string): seq<Tx> {
    if p == [] then [] else (if p[0].signer == who then [p[0]] else []) + Own(p[1..], who)
  }

  /** The same list with the places of one signer filled from `txs`. */
  function Refill(p: seq<Tx>, who: string, txs: seq<Tx>): seq<Tx>
    requires |txs| == |Own(p, who)|
  {
    if p == [] then []
    else if p[0].signer == who then [txs[0]] + Refill(p[1..], who, txs[1..])
    else [p[0]] + Refill(p[1..], who, txs)
  }

  lemma {:induction false} RefillShape(p: seq<Tx>, who: string, txs: seq<Tx>)
    requires |txs| == |Own(p, who)| && forall t :: t in txs ==> t.signer == who
    ensures var q := Refill(p, who, txs);
            |q| == |p| && (forall i :: 0 <= i < |p| ==> q[i].signer == p[i].signer) && Own(q, who) == txs
    decreases |p|
  {
    if p != [] {
      if p[0].signer == who {
        assert txs == [txs[0]] + txs[1..];
        RefillShape(p[1..], who, txs[1..]);
      } else {
        RefillShape(p[1..], who, txs);
      }
    }
  }

  lemma {:induction false} RefillMultiset(p: seq<Tx>, who: string, txs: seq<Tx>)
    requires |txs| == |Own(p, who)|
    ensures multiset(Refill(p, who, txs)) + multiset(Own(p, who)) == multiset(p) + multiset(txs)
    decreases |p|
  {
    if p != [] {
      var own, rest := Own(p[1..], who), p[1..];
      assert p == [p[0]] + rest;
      MultisetCons(p[0], rest);
      if p[0].signer == who {
        var tail, more := txs[1..], Refill(rest, who, txs[1..]);
        RefillMultiset(rest, who, tail);
        assert txs == [txs[0]] + tail && Own(p, who) == [p[0]] + own && Refill(p, who, txs) == [txs[0]] + more;
        MultisetCons(txs[0], tail);
        MultisetCons(p[0], own);
        MultisetCons(txs[0], more);
        Exchange(multiset(more), multiset(own), multiset(rest), multiset(tail), p[0], txs[0]);
      } else {
        var more := Refill(rest, who, txs);
        RefillMultiset(rest, who, txs);
        assert Own(p, who) == own && Refill(p, who, txs) == [p[0]] + more;
        MultisetCons(p[0], more);
        Carry(multiset(more), multiset(own), multiset(rest), multiset(txs), p[0]);
      }
    }
  }

  lemma Exchange(a: multiset<Tx>, b: multiset<Tx>, c: multiset<Tx>, d: multiset<Tx>, x: Tx, y: Tx)
    requires a + b == c + d
    ensures (multiset{y} + a) + (multiset{x} + b) == (multiset{x} + c) + (multiset{y} + d)
  {
    calc {
      (multiset{y} + a) + (multiset{x} + b);
      (multiset{x} + multiset{y}) + (a + b);
      (multiset{x} + c) + (multiset{y} + d);
    }
  }

  lemma Carry(a: multiset<Tx>, b: multiset<Tx>, c: multiset<Tx>, d: multiset<Tx>, x: Tx)
    requires a + b == c + d
    ensures (multiset{x} + a) + b == (multiset{x} + c) + d
  {
    calc {
      (multiset{x} + a) + b;
      multiset{x} + (a + b);
      (multiset{x} + c) + d;
    }
  }

  lemma CancelParts(a: multiset<Tx>, b: multiset<Tx>, m: multiset<Tx>)
    requires a + m == b + m
    ensures a == b
  {
    forall t ensures a[t] == b[t] { assert (a + m)[t] == (b + m)[t]; }
  }

  lemma {:induction false} RefillOthers(p: seq<Tx>, who: string, txs: seq<Tx>, other: string)
    requires |txs| == |Own(p, who)| && other != who && forall t :: t in txs ==> t.signer == who
    ensures Own(Refill(p, who, txs), other) == Own(p, other)
    decreases |p|
  {
    if p != [] {
      if p[0].signer == who {
        assert txs[0] in txs;
        RefillOthers(p[1..], who, txs[1..], other);
      } else {
        RefillOthers(p[1..], who, txs, other);
      }
    }
  }

  lemma {:induction false} OwnSigner(p: seq<Tx>, who: string)
    ensures forall t :: t in Own(p, who) <==> t in p && t.signer == who
  {
    if p != [] { OwnSigner(p[1..], who); assert p == [p[0]] + p[1..]; }
  }

  /** One signer's transactions put in nonce order, in the places they hold. */
  function Reorder(p: seq<Tx>, who: string): seq<Tx> {
    var own := Own(p, who);
    var txs := Sort(NonceLe, own);
    if |txs| != |own| then p else Refill(p, who, txs)
  }

  lemma ReorderFacts(p: seq<Tx>, who: string)
    ensures var q := Reorder(p, who);
            && |q| == |p| && (forall i :: 0 <= i < |p| ==> q[i].signer == p[i].signer) && multiset(q) == multiset(p)
            && Ordered(NonceLe, Own(q, who)) && (forall other :: other != who ==> Own(q, other) == Own(p, other))
            && forall i :: 0 <= i < |p| && p[i].signer != who ==> q[i] == p[i]
  {
    hide Refill, Own, Ordered, Sort;
    SortFacts(NonceLe, Own(p, who));
    var txs := Sort(NonceLe, Own(p, who));
    OwnSigner(p, who);
    forall t | t in txs ensures t.signer == who { assert t in multiset(Own(p, who)); }
    RefillShape(p, who, txs);
    RefillMultiset(p, who, txs);
    RefillKeeps(p, who, txs);
    CancelParts(multiset(Refill(p, who, txs)), multiset(p), multiset(txs));
    forall other | other != who
      ensures Own(Reorder(p, who), other) == Own(p, other)
    {
      RefillOthers(p, who, txs, other);
    }
  }

  /** Every signer's transactions stand in rising nonce order. */
  ghost predicate NoncesRise(p: seq<Tx>) {
    forall i, j :: 0 <= i < j < |p| && p[i].signer == p[j].signer != "" ==> p[i].nonce < p[j].nonce
  }

  lemma OrderedTail(p: seq<Tx>, who: string)
    requires p != [] && Ordered(NonceLe, Own(p, who))
    ensures Ordered(NonceLe, Own(p[1..], who))
  {
    var own, rest := Own(p, who), Own(p[1..], who);
    if p[0].signer == who {
      assert own == [p[0]] + rest;
      assert forall k {:trigger rest[k]} :: 0 <= k < |rest| ==> rest[k] == own[k + 1];
    } else {
      assert own == rest;
    }
  }

  lemma {:induction false} OwnAt(p: seq<Tx>, who: string, i: nat, j: nat)
    requires i < j < |p| && p[i].signer == who && p[j].signer == who && Ordered(NonceLe, Own(p, who))
    ensures p[i].nonce <= p[j].nonce
    decreases |p|
  {
    var own, rest := Own(p, who), Own(p[1..], who);
    OrderedTail(p, who);
    if i == 0 {
      OwnSigner(p[1..], who);
      assert p[j] == p[1..][j - 1];
      var k :| 0 <= k < |rest| && rest[k] == p[j];
      assert own[0] == p[0] && own[k + 1] == p[j];
      assert NonceLe(own[0], own[k + 1]);
    } else {
      OwnAt(p[1..], who, i - 1, j - 1);
    }
  }

  lemma DistinctNonces(v: Env, p: seq<Tx>, i: nat, j: nat)
    requires AllApart(v, p) && i < j < |p| && HasNonce(p[i]) && HasNonce(p[j]) && p[i].signer == p[j].signer
    ensures p[i].nonce != p[j].nonce
  {
    hide SpendKeys;
    assert Apart(v, p[i], p[j]);
    assert NonceKey(p[i]) in NonceKeys(p[i]) && NonceKey(p[j]) in NonceKeys(p[j]);
  }

  /** Sorted per signer, and no two pending share a signer and nonce: strictly rising. */
  lemma RisesFromOwn(v: Env, p: seq<Tx>)
    requires AllApart(v, p) && (forall t :: t in p ==> LooksSpendable(v, t)) && forall who :: who != "" ==>
             Ordered(NonceLe, Own(p, who))
    ensures NoncesRise(p)
  {
    hide Own, Ordered, AllApart;
    forall i, j | 0 <= i < j < |p| && p[i].signer == p[j].signer != "" ensures p[i].nonce < p[j].nonce {
      OwnAt(p, p[i].signer, i, j);
      assert p[i] in p && p[j] in p;
      DistinctNonces(v, p, i, j);
    }
  }

  // ---------------------------------------------------------------------------- fetch

  /** Fees fall; among equal fees the numbers of outputs rise, and among these the nonces. */
  ghost predicate BestFirst(p: seq<Tx>) {
    forall i, j :: 0 <= i < j < |p| ==>
      && p[i].fee >= p[j].fee && (p[i].fee == p[j].fee ==> |p[i].outputs| <= |p[j].outputs|)
      && (p[i].fee == p[j].fee && |p[i].outputs| == |p[j].outputs| ==> p[i].nonce <= p[j].nonce)
  }

  lemma BestFirstIs(p: seq<Tx>)
    requires Ordered(FeeLe, p)
    ensures BestFirst(p)
  {
    forall i, j | 0 <= i < j < |p| ensures FeeLe(p[i], p[j]) { }
  }

  /** `q` is `p` rearranged for a fetch: best first, then each signer's transactions back in
      nonce order in the places that signer holds. */
  ghost predicate Arranged(p: seq<Tx>, q: seq<Tx>) {
    multiset(q) == multiset(p) && NoncesRise(q) && exists mid: seq<Tx> :: ArrangedFrom(p, mid, q)
  }

  ghost predicate ArrangedFrom(p: seq<Tx>, mid: seq<Tx>, q: seq<Tx>) {
    multiset(mid) == multiset(p) && BestFirst(mid) && SamePlaces(mid, q)
  }

  /** Every place belongs to the same signer, and those of nobody are untouched. */
  ghost predicate SamePlaces(mid: seq<Tx>, q: seq<Tx>) {
    && |mid| == |q|
    && forall i :: 0 <= i < |q| ==> q[i].signer == mid[i].signer && (mid[i].signer == "" ==> q[i] == mid[i])
  }

  lemma ReorderPlaces(mid: seq<Tx>, p: seq<Tx>, w: string)
    requires SamePlaces(mid, p) && w != ""
    ensures SamePlaces(mid, Reorder(p, w))
  {
    hide Reorder, Ordered, Own;
    ReorderFacts(p, w);
  }

  lemma {:induction false} RefillKeeps(p: seq<Tx>, who: string, txs: seq<Tx>)
    requires |txs| == |Own(p, who)| && |Refill(p, who, txs)| == |p|
    ensures forall i :: 0 <= i < |p| && p[i].signer != who ==> Refill(p, who, txs)[i] == p[i]
    decreases |p|
  {
    if p != [] {
      if p[0].signer == who { RefillKeeps(p[1..], who, txs[1..]); } else { RefillKeeps(p[1..], who, txs); }
    }
  }

  lemma Preorders()
    ensures Preorder(FeeLe) && Preorder(NonceLe)
  {
  }

  method Signers(p: seq<Tx>) returns (ws: set<string>)
    ensures forall w :: w in ws <==> w != "" && exists t :: t in p && t.signer == w
  {
    ws := set t | t in p && t.signer != "" :: t.signer;
  }

  /** The two passes over the pending list. */
  method Arrange(v: Env, pending: seq<Tx>) returns (p: seq<Tx>)
    requires AllApart(v, pending) && forall t :: t in pending ==> LooksSpendable(v, t)
    ensures Arranged(pending, p)
  {
    hide Own, Ordered, Sort, Reorder, AllApart, LooksSpendable, FeeLe, NonceLe, BestFirst, SamePlaces;
    Preorders();
    p := Sort(FeeLe, pending);
    SortFacts(FeeLe, pending);
    BestFirstIs(p);
    ghost var mid := p;
    OwnPlaces(mid);
    var todo := Signers(p);
    ghost var ws := todo;
    while todo != {}
      invariant todo <= ws && SamePlaces(mid, p) && multiset(p) == multiset(pending)
      invariant forall w :: w in ws && w !in todo ==> Ordered(NonceLe, Own(p, w))
      decreases todo
    {
      var w :| w in todo;
      ReorderFacts(p, w);
      ReorderPlaces(mid, p, w);
      p := Reorder(p, w);
      todo := todo - {w};
    }
    forall w | w != "" ensures Ordered(NonceLe, Own(p, w)) { if w !in ws { NoneOwn(p, mid, w); } }
    ApartPermutes(v, pending, p);
    forall t | t in p ensures LooksSpendable(v, t) { assert t in multiset(pending); }
    RisesFromOwn(v, p);
    assert ArrangedFrom(pending, mid, p);
  }

  lemma OwnPlaces(p: seq<Tx>)
    ensures SamePlaces(p, p)
  {
  }

  lemma Elsewhere(p: seq<Tx>, mid: seq<Tx>, w: string, i: nat)
    requires i < |p| == |mid| && p[i].signer == mid[i].signer && forall t :: t in mid ==> t.signer != w
    ensures p[i].signer != w
  {
    assert mid[i] in mid;
  }

  lemma NoneOwn(p: seq<Tx>, mid: seq<Tx>, w: string)
    requires SamePlaces(mid, p) && forall t :: t in mid ==> t.signer != w
    ensures Ordered(NonceLe, Own(p, w))
  {
    OwnSigner(p, w);
    if Own(p, w) != [] {
      var t := Own(p, w)[0];
      assert t in Own(p, w);
      var i :| 0 <= i < |p| && p[i] == t;
      Elsewhere(p, mid, w, i);
    }
  }

  class PoolObj {
    const env: Env
    var pending: seq<Tx>
    var txids: set<string>
    var nonces: set<string>
    var reserved: set<string>

    function Value(): Pool
      reads this
    {
      Pool(pending, txids, nonces, reserved)
    }

    predicate Valid()
      reads this
    {
      PoolInv(env, Value())
    }

    constructor (env: Env)
      ensures this.env == env && Valid() && pending == []
    {
      this.env := env;
      pending, txids, nonces, reserved := [], {}, {}, {};
    }

    /** Claim the id and nonce first, and give them back if a spend conflicts. */
    method Add(tx: Tx) returns (ok: bool)
      requires Valid()
      modifies this
      ensures Valid() && (Value(), ok) == Submit(env, old(Value()), tx)
    {
      hide PoolInv, LooksSpendable, SpendKeys, NonceKeys;
      SubmitKeeps(env, Value(), tx);
      if !LooksSpendable(env, tx) { return false; }
      var id := env.txid(tx);
      if id in txids { return false; }
      txids := txids + {id};
      if !(NonceKeys(tx) !! nonces) {
        GiveBack(old(txids), id);
        txids := txids - {id};
        return false;
      }
      GiveBackAll(nonces, NonceKeys(tx));
      nonces := nonces + NonceKeys(tx);
      if !(SpendKeys(env, tx) !! reserved) {
        GiveBack(old(txids), id);
        txids := txids - {id};
        nonces := nonces - NonceKeys(tx);
        return false;
      }
      reserved := reserved + SpendKeys(env, tx);
      pending := pending + [tx];
      return true;
    }

    method Forget(tx: Tx)
      modifies this`txids, this`nonces, this`reserved
      ensures Value() == Unindex(env, old(Value()), tx)
    {
      txids := txids - {env.txid(tx)};
      nonces := nonces - NonceKeys(tx);
      reserved := reserved - SpendKeys(env, tx);
    }

    /** Take the best transactions: what is taken and what is left together are the old
        list rearranged, so each signer's nonces rise through what is taken and everything
        left for that signer is higher still. */
    method Fetch(max: nat) returns (out: seq<Tx>)
      requires Valid()
      modifies this
      ensures Valid() && Arranged(old(pending), out + pending)
      ensures |out| == if max < |old(pending)| then max else |old(pending)|
    {
      hide PoolInv, Arranged, Unindex, LooksSpendable, AllApart;
      InvParts(env, Value());
      ghost var before := Value();
      pending := Arrange(env, pending);
      ghost var q := pending;
      ArrangedSize(before.pending, q);
      var n := if max < |pending| then max else |pending|;
      ghost var held := Value();
      out := [];
      var i := 0;
      while i < n
        invariant i <= n <= |q| && pending == q && out == q[..i] && Value() == UnindexAll(env, held, q[..i])
      {
        assert q[..i + 1][..i] == q[..i] && q[..i + 1][i] == q[i];
        Forget(pending[i]);
        out := out + [pending[i]];
        i := i + 1;
      }
      pending := pending[n..];
      assert out + pending == q;
      assert multiset(out) + multiset(pending) == multiset(q);
      ArrangedInv(env, before, q);
      DropKeeps(env, held, out, pending);
    }

    /** Drop what a block confirmed or contradicts. */
    method Remove(block: seq<Tx>) returns (removed: nat)
      requires Valid()
      modifies this
      ensures Valid() && Value() == RemoveConfirmed(env, old(Value()), block)
      ensures removed == |old(pending)| - |pending|
    {
      hide PoolInv, Unindex, UnindexAll, Confirmed, Kept;
      KeptNone(env, block, Value());
      RemoveConfirmedKeeps(env, Value(), block);
      ghost var before := Value();
      var keep: seq<Tx> := [];
      removed := 0;
      var i := 0;
      while i < |pending|
        invariant i <= |pending| && pending == before.pending && keep == Kept(env, block, pending[..i], false)
        invariant Value() == UnindexAll(env, before, Kept(env, block, pending[..i], true)) && removed + |keep| == i
      {
        KeptSnoc(env, block, pending, i);
        if Confirmed(env, block, pending[i]) {
          UnindexSnoc(env, before, Kept(env, block, pending[..i], true), pending[i]);
          Forget(pending[i]);
          removed := removed + 1;
        } else {
          keep := keep + [pending[i]];
        }
        i := i + 1;
      }
      assert pending[..i] == pending;
      pending := keep;
    }
  }

  lemma KeptSnoc(v: Env, block: seq<Tx>, ts: seq<Tx>, i: nat)
    requires i < |ts|
    ensures forall c :: Kept(v, block, ts[..i + 1], c) == if Confirmed(v, block, ts[i]) == c
            then Kept(v, block, ts[..i], c) + [ts[i]] else Kept(v, block, ts[..i], c)
  {
    hide Confirmed;
    assert ts[..i + 1][..i] == ts[..i] && ts[..i + 1][i] == ts[i];
  }

  lemma KeptNone(v: Env, block: seq<Tx>, p: Pool)
    ensures Kept(v, block, p.pending[..0], true) == [] && Kept(v, block, p.pending[..0], false) == [] &&
            UnindexAll(v, p, []) == p
  {
  }

  lemma UnindexSnoc(v: Env, p: Pool, gone: seq<Tx>, t: Tx)
    ensures UnindexAll(v, p, gone + [t]) == Unindex(v, UnindexAll(v, p, gone), t)
  {
    hide Unindex;
    assert (gone + [t])[..|gone|] == gone;
  }

  lemma GiveBack(s: set<string>, x: string)
    requires x !in s
    ensures s + {x} - {x} == s
  {
  }

  lemma GiveBackAll(s: set<string>, t: set<string>)
    requires t !! s
    ensures s + t - t == s
  {
  }

  lemma InvParts(v: Env, p: Pool)
    requires PoolInv(v, p)
    ensures AllApart(v, p.pending) && forall t :: t in p.pending ==> LooksSpendable(v, t)
  {
  }

  lemma ArrangedSize(p: seq<Tx>, q: seq<Tx>)
    requires Arranged(p, q)
    ensures |q| == |p| && multiset(q) == multiset(p)
  {
    assert |q| == |multiset(q)| && |p| == |multiset(p)|;
  }

  lemma ArrangedInv(v: Env, p: Pool, q: seq<Tx>)
    requires PoolInv(v, p) && multiset(q) == multiset(p.pending)
    ensures PoolInv(v, p.(pending := q))
  {
    hide LooksSpendable, NonceKeys, SpendKeys, Apart;
    ApartPermutes(v, p.pending, q);
    SameMembers(p.pending, q, []);
  }

  /** What a fetch promises, signer by signer. */
  lemma FetchOrder(p: seq<Tx>, out: seq<Tx>, left: seq<Tx>)
    requires Arranged(p, out + left)
    ensures forall i, j :: 0 <= i < j < |out| && out[i].signer == out[j].signer != "" ==> out[i].nonce < out[j].nonce
    ensures forall a, b :: a in out && b in left && a.signer == b.signer != "" ==> a.nonce < b.nonce
  {
    var q := out + left;
    assert NoncesRise(q);
    assert forall i {:trigger out[i]} :: 0 <= i < |out| ==> q[i] == out[i];
    forall a, b | a in out && b in left && a.signer == b.signer != "" ensures a.nonce < b.nonce {
      var i :| 0 <= i < |out| && out[i] == a;
      var j :| 0 <= j < |left| && left[j] == b;
      assert q[i] == a && q[|out| + j] == b;
    }
  }
}
