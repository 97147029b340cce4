/** The pool of pending transactions: three indexes that mirror the pending list, and a
    fetch that keeps every signer's nonces in order. */
module Mempool {
  import opened Basics
  import opened Seqs
  import opened Text
  import opened Ledger

  /** Transaction ids, and the nullifiers of a shielded field if it parses. */
  datatype Env = Env(txid: Tx -> string, nullifiers: string -> Option<seq<string>>)

  // ---------------------------------------------------------------------------- keys

  predicate HasNonce(tx: Tx) { tx.inputs != [] && tx.signer != "" }

  function NonceKey(tx: Tx): string { tx.signer + "#" + Decimal(tx.nonce) }

  function NonceKeys(tx: Tx): set<string> { if HasNonce(tx) then {NonceKey(tx)} else {} }

  function NfKeys(v: Env, tx: Tx): set<string> {
    if tx.shielded != "" && v.nullifiers(tx.shielded).Some?
        then set n | n in v.nullifiers(tx.shielded).value :: "nf:" + n else {}
  }

  /** What a transaction spends: outpoints and nullifiers. */
  function SpendKeys(v: Env, tx: Tx): set<string> { (set i | i in tx.inputs :: Key(i)) + NfKeys(v, tx) }

  predicate LooksSpendable(v: Env, tx: Tx) {
    if tx.inputs == [] && tx.shielded != "" then
      tx.signer == "" && tx.signature == "" && v.nullifiers(tx.shielded).Some? && v.nullifiers(tx.shielded).value != []
    else if tx.inputs == [] || tx.outputs == [] then false
    else if tx.signer == "" && tx.pubkey == "" && tx.signature == "" then forall i :: i in tx.inputs ==> i.unlock != ""
    else tx.signer != "" && PqPrefix(tx.signature)
  }

  // ----------------------------------------------------------------------- the pool

  datatype Pool = Pool(pending: seq<Tx>, txids: set<string>, nonces: set<string>, reserved: set<string>)

  function Ids(v: Env, ts: seq<Tx>): set<string> { set t | t in ts :: v.txid(t) }

  function AllNonces(ts: seq<Tx>): set<string> { set t, k | t in ts && k in NonceKeys(t) :: k }

  function AllSpends(v: Env, ts: seq<Tx>): set<string> { set t, k | t in ts && k in SpendKeys(v, t) :: k }

  /** Two pending transactions that share no key. */
  predicate Apart(v: Env, a: Tx, b: Tx) {
    v.txid(a) != v.txid(b) && NonceKeys(a) !! NonceKeys(b) && SpendKeys(v, a) !! SpendKeys(v, b)
  }

  predicate AllApart(v: Env, ts: seq<Tx>) { forall i, j :: 0 <= i < j < |ts| ==> Apart(v, ts[i], ts[j]) }

  /** The indexes describe exactly the pending list, and no two entries share a key. */
  predicate PoolInv(v: Env, p: Pool) {
    && (forall t :: t in p.pending ==> LooksSpendable(v, t)) && AllApart(v, p.pending)
    && p.txids == Ids(v, p.pending) && p.nonces == AllNonces(p.pending) && p.reserved == AllSpends(v, p.pending)
  }

  /** A transaction the pool would take. */
  predicate Fits(v: Env, p: Pool, tx: Tx) {
    LooksSpendable(v, tx) && v.txid(tx) !in p.txids && NonceKeys(tx) !! p.nonces && SpendKeys(v, tx) !! p.reserved
  }

  function Submit(v: Env, p: Pool, tx: Tx): (Pool, bool) {
    if !Fits(v, p, tx) then (p, false)
    else (Pool(p.pending + [tx], p.txids + {v.txid(tx)}, p.nonces + NonceKeys(tx), p.reserved + SpendKeys(v, tx)), true)
  }

  /** The transaction shares no key with any pending one. */
  predicate Unrelated(v: Env, p: Pool, tx: Tx) { forall t :: t in p.pending ==> Apart(v, t, tx) }

  /** A submission is taken exactly when it is well-formed and shares no key with a pending
      transaction, and the indexes stay exact. */
  lemma SubmitKeeps(v: Env, p: Pool, tx: Tx)
    requires PoolInv(v, p)
    ensures PoolInv(v, Submit(v, p, tx).0)
    ensures Submit(v, p, tx).1 <==> LooksSpendable(v, tx) && Unrelated(v, p, tx)
  {
    hide LooksSpendable, NonceKeys, SpendKeys;
    if Fits(v, p, tx) {
      forall t | t in p.pending ensures Apart(v, t, tx) {
        assert v.txid(t) in p.txids && NonceKeys(t) <= p.nonces && SpendKeys(v, t) <= p.reserved;
      }
      IndexSnoc(v, p.pending, tx);
      ApartSnoc(v, p.pending, tx);
    }
  }

  lemma IndexSnoc(v: Env, ts: seq<Tx>, tx: Tx)
    ensures Ids(v, ts + [tx]) == Ids(v, ts) + {v.txid(tx)}
    ensures AllNonces(ts + [tx]) == AllNonces(ts) + NonceKeys(tx) &&
            AllSpends(v, ts + [tx]) == AllSpends(v, ts) + SpendKeys(v, tx)
  {
    hide NonceKeys, SpendKeys;
    assert forall t :: t in ts + [tx] <==> t in ts || t == tx;
    assert tx in ts + [tx];
  }

  lemma ApartSnoc(v: Env, ts: seq<Tx>, tx: Tx)
    requires AllApart(v, ts) && forall t :: t in ts ==> Apart(v, t, tx)
    ensures AllApart(v, ts + [tx])
  {
    hide Apart;
    var us := ts + [tx];
    forall i, j | 0 <= i < j < |us| ensures Apart(v, us[i], us[j]) { if j == |ts| { assert ts[i] in ts; }
        else { assert us[j] == ts[j]; } }
  }

  // ------------------------------------------------------------------------- dropping

  /** Take one transaction's keys out of the indexes. */
  function Unindex(v: Env, p: Pool, tx: Tx): Pool {
    p.(txids := p.txids - {v.txid(tx)}, nonces := p.nonces - NonceKeys(tx), reserved := p.reserved - SpendKeys(v, tx))
  }

  function UnindexAll(v: Env, p: Pool, ts: seq<Tx>): Pool {
    if ts == [] then p else Unindex(v, UnindexAll(v, p, ts[..|ts| - 1]), ts[|ts| - 1])
  }

  lemma {:induction false} UnindexAllSets(v: Env, p: Pool, ts: seq<Tx>)
    ensures var q := UnindexAll(v, p, ts);
            && q.pending == p.pending && q.txids == p.txids - Ids(v, ts) && q.nonces == p.nonces - AllNonces(ts)
            && q.reserved == p.reserved - AllSpends(v, ts)
  {
    hide NonceKeys, SpendKeys;
    if ts != [] {
      UnindexAllSets(v, p, ts[..|ts| - 1]);
      assert ts == ts[..|ts| - 1] + [ts[|ts| - 1]];
      IndexSnoc(v, ts[..|ts| - 1], ts[|ts| - 1]);
    }
  }

  /** `gone` and `left` together are the list, in some order. */
  predicate Divides(ts: seq<Tx>, gone: seq<Tx>, left: seq<Tx>) { multiset(gone) + multiset(left) == multiset(ts) }

  lemma ApartPermutes(v: Env, ts: seq<Tx>, us: seq<Tx>)
    requires AllApart(v, ts) && multiset(ts) == multiset(us)
    ensures AllApart(v, us)
  {
    hide Apart;
    forall i, j | 0 <= i < j < |us| ensures Apart(v, us[i], us[j]) {
      var a, b := PlacesOf(ts, us, i, j);
      ApartSymmetric(v, ts[a], ts[b]);
    }
  }

  lemma ApartSymmetric(v: Env, a: Tx, b: Tx)
    ensures Apart(v, a, b) <==> Apart(v, b, a)
  {
    hide NonceKeys, SpendKeys;
  }

  lemma ApartSplit(v: Env, gone: seq<Tx>, left: seq<Tx>)
    requires AllApart(v, gone + left)
    ensures AllApart(v, left) && forall g, t :: g in gone && t in left ==> Apart(v, g, t)
  {
    hide Apart;
    var ts := gone + left;
    assert forall i {:trigger left[i]} :: 0 <= i < |left| ==> left[i] == ts[|gone| + i];
    forall g, t | g in gone && t in left ensures Apart(v, g, t) {
      var i :| 0 <= i < |gone| && gone[i] == g;
      var j :| 0 <= j < |left| && left[j] == t;
      assert ts[i] == g && ts[|gone| + j] == t;
    }
  }

  /** Dropping some of the pending list, in any order, keeps the indexes exact. */
  lemma DropKeeps(v: Env, p: Pool, gone: seq<Tx>, left: seq<Tx>)
    requires PoolInv(v, p) && Divides(p.pending, gone, left)
    ensures PoolInv(v, UnindexAll(v, p, gone).(pending := left))
  {
    hide LooksSpendable, NonceKeys, SpendKeys, UnindexAll, Apart;
    assert multiset(gone + left) == multiset(p.pending);
    ApartPermutes(v, p.pending, gone + left);
    ApartSplit(v, gone, left);
    UnindexAllSets(v, p, gone);
    SameMembers(p.pending, gone, left);
    IndexParts(v, p.pending, gone, left);
    forall t | t in left ensures LooksSpendable(v, t) { assert t in p.pending; }
  }

  lemma SameMembers(ts: seq<Tx>, gone: seq<Tx>, left: seq<Tx>)
    requires Divides(ts, gone, left)
    ensures forall t :: t in ts <==> t in gone || t in left
  {
    forall t ensures t in ts <==> t in gone || t in left {
      assert t in ts <==> t in multiset(ts);
      assert t in gone <==> t in multiset(gone);
      assert t in left <==> t in multiset(left);
    }
  }

  lemma IndexParts(v: Env, ts: seq<Tx>, gone: seq<Tx>, left: seq<Tx>)
    requires (forall t :: t in ts <==> t in gone || t in left) && forall g, t :: g in gone && t in left ==>
             Apart(v, g, t)
    ensures Ids(v, ts) - Ids(v, gone) == Ids(v, left)
    ensures AllNonces(ts) - AllNonces(gone) == AllNonces(left) &&
            AllSpends(v, ts) - AllSpends(v, gone) == AllSpends(v, left)
  {
    hide NonceKeys, SpendKeys;
  }

  // -------------------------------------------------------------- removing confirmed

  /** The pending transaction is in the block or conflicts with it. */
  predicate Confirmed(v: Env, block: seq<Tx>, t: Tx) {
    v.txid(t) in Ids(v, block) || !(NonceKeys(t) !! AllNonces(block)) || !(SpendKeys(v, t) !! AllSpends(v, block))
  }

  function Kept(v: Env, block: seq<Tx>, ts: seq<Tx>, confirmed: bool): seq<Tx> {
    if ts == [] then []
    else Kept(v, block, ts[..|ts| - 1], confirmed) + if Confirmed(v, block, ts[|ts| - 1]) == confirmed
        then [ts[|ts| - 1]] else []
  }

  lemma {:induction false} KeptDivides(v: Env, block: seq<Tx>, ts: seq<Tx>)
    ensures Divides(ts, Kept(v, block, ts, true), Kept(v, block, ts, false))
  {
    hide Confirmed;
    if ts != [] {
      var front, t := ts[..|ts| - 1], ts[|ts| - 1];
      KeptDivides(v, block, front);
      assert ts == front + [t];
      var yes, no := Kept(v, block, front, true), Kept(v, block, front, false);
      MultisetSnoc(front, t);
      MultisetSnoc(yes, t);
      MultisetSnoc(no, t);
      OneMore(multiset(yes), multiset(no), multiset(front), t);
      assert yes + [] == yes && no + [] == no;
    }
  }

  lemma {:induction false} KeptSorts(v: Env, block: seq<Tx>, ts: seq<Tx>, confirmed: bool)
    ensures forall t :: t in Kept(v, block, ts, confirmed) ==> Confirmed(v, block, t) == confirmed
  {
    hide Confirmed;
    if ts != [] { KeptSorts(v, block, ts[..|ts| - 1], confirmed); }
  }

  function RemoveConfirmed(v: Env, p: Pool, block: seq<Tx>): Pool {
    UnindexAll(v, p, Kept(v, block, p.pending, true)).(pending := Kept(v, block, p.pending, false))
  }

  lemma RemoveConfirmedKeeps(v: Env, p: Pool, block: seq<Tx>)
    requires PoolInv(v, p)
    ensures var q := RemoveConfirmed(v, p, block);
            PoolInv(v, q) && forall t :: t in q.pending <==> t in p.pending && !Confirmed(v, block, t)
  {
    hide PoolInv, Confirmed, UnindexAll, Kept;
    KeptDivides(v, block, p.pending);
    KeptSorts(v, block, p.pending, true);
    KeptSorts(v, block, p.pending, false);
    DropKeeps(v, p, Kept(v, block, p.pending, true), Kept(v, block, p.pending, false));
    SameMembers(p.pending, Kept(v, block, p.pending, true), Kept(v, block, p.pending, false));
  }
}
