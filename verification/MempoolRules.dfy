/** Which transactions the pool takes, and which of them conflict, written out. */
module MempoolRules {
  import opened Basics
  import opened Text
  import opened Ledger
  import opened Mempool

  /** Purely shielded: unsigned, with nullifiers. */
  predicate PurelyShielded(v: Env, tx: Tx) {
    && tx.inputs == [] && tx.shielded != "" && tx.signer == "" && tx.signature == ""
    && v.nullifiers(tx.shielded).Some? && |v.nullifiers(tx.shielded).value| > 0
  }

  /** By script: no signer, key or signature, but a witness on every input. */
  predicate ByScript(tx: Tx) {
    && |tx.inputs| > 0 && |tx.outputs| > 0 && tx.signer == "" && tx.pubkey == "" && tx.signature == ""
    && forall i :: 0 <= i < |tx.inputs| ==> tx.inputs[i].unlock != ""
  }

  /** By a signer, with a post-quantum signature. */
  predicate BySigner(tx: Tx) {
    |tx.inputs| > 0 && |tx.outputs| > 0 && tx.signer != "" && |tx.signature| >= 3 && tx.signature[..3] == "pq="
  }

  /** The pool takes exactly these three kinds. */
  lemma LooksIff(v: Env, tx: Tx)
    ensures LooksSpendable(v, tx) <==> PurelyShielded(v, tx) || ByScript(tx) || BySigner(tx)
  {
    if tx.inputs != [] && LooksSpendable(v, tx) {
      forall i | 0 <= i < |tx.inputs| ensures tx.inputs[i] in tx.inputs { }
    }
  }

  // ---------------------------------------------------------------------------- conflicts

  function NullifiersOf(v: Env, tx: Tx): seq<string> {
    if tx.shielded != "" && v.nullifiers(tx.shielded).Some? then v.nullifiers(tx.shielded).value else []
  }

  predicate SameNonce(a: Tx, b: Tx) {
    a.inputs != [] && b.inputs != [] && a.signer == b.signer != "" && a.nonce == b.nonce
  }

  predicate SharedInput(a: Tx, b: Tx) {
    exists i, j :: 0 <= i < |a.inputs| && 0 <= j < |b.inputs| &&
      a.inputs[i].txid == b.inputs[j].txid && a.inputs[i].index == b.inputs[j].index
  }

  predicate SharedNullifier(v: Env, a: Tx, b: Tx) {
    exists i, j :: 0 <= i < |NullifiersOf(v, a)| && 0 <= j < |NullifiersOf(v, b)| &&
      NullifiersOf(v, a)[i] == NullifiersOf(v, b)[j]
  }

  /** An input of `a` is named like a nullifier of `b`, which takes an id `nf`. */
  predicate Mistaken(v: Env, a: Tx, b: Tx) {
    exists i, j :: 0 <= i < |a.inputs| && 0 <= j < |NullifiersOf(v, b)| &&
      a.inputs[i].txid + ":" + Decimal(a.inputs[i].index) == "nf:" + NullifiersOf(v, b)[j]
  }

  lemma NonceKeyInjective(a: string, i: nat, b: string, j: nat)
    ensures a + "#" + Decimal(i) == b + "#" + Decimal(j) <==> a == b && i == j
  {
    hide Decimal;
    NoHash(i);
    NoHash(j);
    var s, t := a + "#" + Decimal(i), b + "#" + Decimal(j);
    if s == t {
      assert s[|a|] == '#' && t[|b|] == '#';
      assert a == s[..|a|] && b == t[..|b|];
      assert Decimal(i) == s[|a| + 1..] && Decimal(j) == t[|b| + 1..];
      DecimalInjective(i, j);
    }
  }

  lemma {:induction false} NoHash(n: nat)
    ensures '#' !in Decimal(n)
  {
    if n >= 10 { NoHash(n / 10); }
  }

  lemma NfInjective(m: string, n: string)
    ensures "nf:" + m == "nf:" + n <==> m == n
  {
    assert ("nf:" + m)[3..] == m && ("nf:" + n)[3..] == n;
  }

  lemma NonceIff(a: Tx, b: Tx)
    ensures NonceKeys(a) !! NonceKeys(b) <==> !SameNonce(a, b)
  {
    NonceKeyInjective(a.signer, a.nonce, b.signer, b.nonce);
    if HasNonce(a) && HasNonce(b) { assert NonceKey(a) in NonceKeys(a) && NonceKey(b) in NonceKeys(b); }
  }

  lemma InputKeysIff(a: Tx, b: Tx)
    ensures ((set i | i in a.inputs :: Key(i)) !! (set i | i in b.inputs :: Key(i))) <==> !SharedInput(a, b)
  {
    hide Outpoint;
    var s, t := set i | i in a.inputs :: Key(i), set i | i in b.inputs :: Key(i);
    if SharedInput(a, b) {
      var i, j :| 0 <= i < |a.inputs| && 0 <= j < |b.inputs| &&
        a.inputs[i].txid == b.inputs[j].txid && a.inputs[i].index == b.inputs[j].index;
      assert Key(a.inputs[i]) in s && Key(b.inputs[j]) in t;
    }
    if k :| k in s && k in t {
      var x :| x in a.inputs && Key(x) == k;
      var y :| y in b.inputs && Key(y) == k;
      OutpointInjective(x.txid, x.index, y.txid, y.index);
      var i :| 0 <= i < |a.inputs| && a.inputs[i] == x;
      var j :| 0 <= j < |b.inputs| && b.inputs[j] == y;
    }
  }

  lemma NfKeysAre(v: Env, tx: Tx)
    ensures NfKeys(v, tx) == set n | n in NullifiersOf(v, tx) :: "nf:" + n
  {
  }

  lemma NfKeysIff(v: Env, a: Tx, b: Tx)
    ensures NfKeys(v, a) !! NfKeys(v, b) <==> !SharedNullifier(v, a, b)
  {
    hide NfKeys;
    NfKeysAre(v, a);
    NfKeysAre(v, b);
    var m, n := NullifiersOf(v, a), NullifiersOf(v, b);
    if SharedNullifier(v, a, b) {
      var i, j :| 0 <= i < |m| && 0 <= j < |n| && m[i] == n[j];
      assert "nf:" + m[i] in NfKeys(v, a) && "nf:" + n[j] in NfKeys(v, b);
    }
    if k :| k in NfKeys(v, a) && k in NfKeys(v, b) {
      var x :| x in m && "nf:" + x == k;
      var y :| y in n && "nf:" + y == k;
      NfInjective(x, y);
      var i :| 0 <= i < |m| && m[i] == x;
      var j :| 0 <= j < |n| && n[j] == y;
    }
  }

  lemma MistakenIff(v: Env, a: Tx, b: Tx)
    ensures ((set i | i in a.inputs :: Key(i)) !! NfKeys(v, b)) <==> !Mistaken(v, a, b)
  {
    hide Decimal, NfKeys;
    NfKeysAre(v, b);
    var s, n := set i | i in a.inputs :: Key(i), NullifiersOf(v, b);
    if Mistaken(v, a, b) {
      var i, j :| 0 <= i < |a.inputs| && 0 <= j < |n| &&
        a.inputs[i].txid + ":" + Decimal(a.inputs[i].index) == "nf:" + n[j];
      assert Key(a.inputs[i]) in s && "nf:" + n[j] in NfKeys(v, b);
    }
    if k :| k in s && k in NfKeys(v, b) {
      var x :| x in a.inputs && Key(x) == k;
      var y :| y in n && "nf:" + y == k;
      var i :| 0 <= i < |a.inputs| && a.inputs[i] == x;
      var j :| 0 <= j < |n| && n[j] == y;
    }
  }

  /** Two transactions can be pending together if and only if they differ in id, do not use one
      nonce of one signer, and spend no output and no nullifier in common; the one false alarm
      is an output named like a nullifier. */
  lemma ApartIff(v: Env, a: Tx, b: Tx)
    ensures Apart(v, a, b) <==>
            && v.txid(a) != v.txid(b) && !SameNonce(a, b) && !SharedInput(a, b) && !SharedNullifier(v, a, b)
            && !Mistaken(v, a, b) && !Mistaken(v, b, a)
  {
    hide NonceKeys, NfKeys, SameNonce, SharedInput, SharedNullifier, Mistaken, Key;
    NonceIff(a, b);
    InputKeysIff(a, b);
    NfKeysIff(v, a, b);
    MistakenIff(v, a, b);
    MistakenIff(v, b, a);
    FourParts(set i | i in a.inputs :: Key(i), NfKeys(v, a), set i | i in b.inputs :: Key(i), NfKeys(v, b));
  }

  lemma FourParts(p: set<string>, q: set<string>, x: set<string>, y: set<string>)
    ensures p + q !! x + y <==> p !! x && p !! y && q !! x && q !! y
  {
  }

  /** A block drops exactly the pending transactions that could not be pending together with
      one of its own. */
  lemma ConfirmedIff(v: Env, block: seq<Tx>, t: Tx)
    ensures Confirmed(v, block, t) <==> exists b :: b in block && !Apart(v, b, t)
  {
    hide NonceKeys, SpendKeys;
    if Confirmed(v, block, t) {
      if v.txid(t) in Ids(v, block) { var b :| b in block && v.txid(b) == v.txid(t); }
      else if !(NonceKeys(t) !! AllNonces(block)) {
        var k :| k in NonceKeys(t) && k in AllNonces(block);
        var b :| b in block && k in NonceKeys(b);
      } else {
        var k :| k in SpendKeys(v, t) && k in AllSpends(v, block);
        var b :| b in block && k in SpendKeys(v, b);
      }
    }
  }
}
