/** What applying transactions does to the coins in existence, to the balance index and
    to the tickets. */
module LedgerInvariant {
  import opened Basics
  import opened Sums
  import opened Text
  import opened Emission
  import opened Ledger
  import Staking

  // ------------------------------------------------------------------ coins in outputs

  /** What an output is worth to `who` (to anybody, if `None`). */
  function Value(u: Utxo, who: Option<string>): nat {
    if u.spent || (who.Some? && u.owner != who.value) then 0 else u.amount
  }

  function Values(utxos: map<string, Utxo>, who: Option<string>): map<string, nat> {
    map k | k in utxos :: Value(utxos[k], who)
  }

  /** The unspent coins of `who`, or of everybody. */
  ghost function Coins(utxos: map<string, Utxo>, who: Option<string>): nat { Sum(Values(utxos, who)) }

  lemma CoinsUpdate(utxos: map<string, Utxo>, k: string, u: Utxo, who: Option<string>)
    ensures Coins(utxos[k := u], who) == Coins(utxos, who) - (if k in utxos then Value(utxos[k], who) else 0) +
            Value(u, who)
  {
    assert Values(utxos[k := u], who) == Values(utxos, who)[k := Value(u, who)];
    SumUpdate(Values(utxos, who), k, Value(u, who));
  }

  lemma ValueBelow(utxos: map<string, Utxo>, k: string, who: Option<string>)
    requires k in utxos
    ensures Value(utxos[k], who) <= Coins(utxos, who)
  {
    SumAtLeast(Values(utxos, who), k);
  }

  /** The index never understates a balance. */
  ghost predicate Covers(s: State) { forall o :: Coins(s.utxos, Some(o)) <= Get(s.index, o) }

  /** Tickets are exactly the unspent stake outputs. */
  predicate IsTicket(s: State, k: string) { k in s.utxos && !s.utxos[k].spent && s.utxos[k].owner == STAKE }

  ghost predicate Known(s: State, k: string) { exists t, i: nat :: t in s.seen && k == Outpoint(t, i) }

  ghost predicate Exact(s: State) {
    && (forall o :: Coins(s.utxos, Some(o)) == Get(s.index, o))
    && (forall k :: k in s.tickets <==> IsTicket(s, k))
    && (forall k :: k in s.utxos ==> Known(s, k))
  }

  // ------------------------------------------------------------------------ spending

  lemma SpendOneCoins(s: State, k: string)
    requires k in s.utxos && !s.utxos[k].spent
    ensures Coins(SpendOne(s, k).utxos, None) == Coins(s.utxos, None) - s.utxos[k].amount
  {
    hide Sum, Coins;
    CoinsUpdate(s.utxos, k, s.utxos[k].(spent := true), None);
  }

  /** The subtraction that stops at zero never stops. */
  lemma SpendOneCovers(s: State, k: string)
    requires Covers(s) && k in s.utxos && !s.utxos[k].spent
    ensures Covers(SpendOne(s, k)) && Get(s.index, s.utxos[k].owner) >= s.utxos[k].amount
  {
    hide Coins;
    var u, t := s.utxos[k], SpendOne(s, k);
    ValueBelow(s.utxos, k, Some(u.owner));
    assert Coins(s.utxos, Some(u.owner)) <= Get(s.index, u.owner);
    forall o ensures Coins(t.utxos, Some(o)) <= Get(t.index, o) {
      CoinsUpdate(s.utxos, k, u.(spent := true), Some(o));
      assert Coins(s.utxos, Some(o)) <= Get(s.index, o);
    }
  }

  lemma SpendOneExact(s: State, k: string)
    requires Exact(s) && k in s.utxos && !s.utxos[k].spent
    ensures Exact(SpendOne(s, k))
  {
    hide Coins, Known;
    var u, t := s.utxos[k], SpendOne(s, k);
    ValueBelow(s.utxos, k, Some(u.owner));
    forall o ensures Coins(t.utxos, Some(o)) == Get(t.index, o) {
      CoinsUpdate(s.utxos, k, u.(spent := true), Some(o));
      assert Coins(s.utxos, Some(o)) == Get(s.index, o);
    }
    forall j ensures j in t.tickets <==> IsTicket(t, j) { assert j in s.tickets <==> IsTicket(s, j); }
    forall j | j in t.utxos ensures Known(t, j) { KnownFrame(s, t, j); }
  }

  lemma KnownFrame(s: State, t: State, k: string)
    requires Known(s, k) && s.seen <= t.seen
    ensures Known(t, k)
  {
    var x, i: nat :| x in s.seen && k == Outpoint(x, i);
  }

  /** Fields that spending and creating leave alone. */
  predicate SameFrame(s: State, t: State) {
    && t.blocks == s.blocks && t.seen == s.seen && t.nonces == s.nonces && t.registry == s.registry &&
         t.emitted == s.emitted
    && t.slashed == s.slashed && t.pool == s.pool && t.target == s.target && t.work == s.work && t.fees == s.fees
  }

  /** Spending only marks outputs. */
  lemma {:induction false} SpendFacts(s: State, ins: seq<Input>)
    requires Spend(s, ins).Some?
    ensures var t := Spend(s, ins).value.0;
            && SameFrame(s, t) && t.utxos.Keys == s.utxos.Keys
            && (forall k :: k in s.utxos ==>
                 t.utxos[k].amount == s.utxos[k].amount && t.utxos[k].owner == s.utxos[k].owner)
            && Coins(t.utxos, None) == Coins(s.utxos, None) - Worth(s.utxos, ins)
            && (Covers(s) ==> Covers(t)) && (Exact(s) ==> Exact(t))
    decreases |ins|
  {
    hide Coins, Covers, Exact;
    if ins != [] {
      SpendFacts(s, ins[..|ins| - 1]);
      var p, k := Spend(s, ins[..|ins| - 1]).value.0, Key(ins[|ins| - 1]);
      SpendOneCoins(p, k);
      if Covers(p) { SpendOneCovers(p, k); }
      if Exact(p) { SpendOneExact(p, k); }
    }
  }

  // ------------------------------------------------------------------------ creating

  lemma CreateOneCoins(r: Rules, s: State, tx: Tx, txid: string, i: nat, unlocking: bool)
    requires i < |tx.outputs|
    ensures var t := CreateOne(r, s, tx, txid, i, unlocking);
            && SameFrame(s, t) && Coins(t.utxos, None) <= Coins(s.utxos, None) + tx.outputs[i].amount
            && (Covers(s) ==> Covers(t))
  {
    hide Coins, TicketKey, Outpoint;
    var t, k := CreateOne(r, s, tx, txid, i, unlocking), Outpoint(txid, i);
    CoinsUpdate(s.utxos, k, t.utxos[k], None);
    if Covers(s) {
      forall o ensures Coins(t.utxos, Some(o)) <= Get(t.index, o) {
        CoinsUpdate(s.utxos, k, t.utxos[k], Some(o));
        assert Coins(s.utxos, Some(o)) <= Get(s.index, o);
      }
    }
  }

  /** Everything an exact state promises, except that the outputs of `txid` are not yet
      among the seen. */
  ghost predicate ExactWith(s: State, txid: string, n: nat) {
    && (forall o :: Coins(s.utxos, Some(o)) == Get(s.index, o))
    && (forall k :: k in s.tickets <==> IsTicket(s, k))
    && (forall k :: k in s.utxos ==> Known(s, k) || exists i :: 0 <= i < n && k == Outpoint(txid, i))
  }

  lemma NewKey(s: State, txid: string, n: nat)
    requires ExactWith(s, txid, n) && txid !in s.seen
    ensures Outpoint(txid, n) !in s.utxos
  {
    hide Coins, Outpoint, IsTicket;
    var k := Outpoint(txid, n);
    if k in s.utxos {
      if Known(s, k) {
        var t, i: nat :| t in s.seen && k == Outpoint(t, i);
        OutpointInjective(t, i, txid, n);
      } else {
        var i :| 0 <= i < n && k == Outpoint(txid, i);
        OutpointInjective(txid, i, txid, n);
      }
    }
  }

  lemma CreateOneExact(r: Rules, s: State, tx: Tx, txid: string, i: nat, unlocking: bool)
    requires i < |tx.outputs| && ExactWith(s, txid, i) && txid !in s.seen
    ensures ExactWith(CreateOne(r, s, tx, txid, i, unlocking), txid, i + 1)
  {
    hide Coins, TicketKey, Outpoint;
    var t, k := CreateOne(r, s, tx, txid, i, unlocking), Outpoint(txid, i);
    NewKey(s, txid, i);
    forall o ensures Coins(t.utxos, Some(o)) == Get(t.index, o) {
      CoinsUpdate(s.utxos, k, t.utxos[k], Some(o));
      assert Coins(s.utxos, Some(o)) == Get(s.index, o);
    }
    forall j ensures j in t.tickets <==> IsTicket(t, j) { assert j in s.tickets <==> IsTicket(s, j); }
    forall j | j in t.utxos ensures Known(t, j) || exists m :: 0 <= m < i + 1 && j == Outpoint(txid, m) {
      if j != k {
        assert j in s.utxos;
        if Known(s, j) { KnownFrame(s, t, j); }
      }
    }
  }

  lemma {:induction false} CreateFacts(r: Rules, s: State, tx: Tx, txid: string, n: nat, unlocking: bool)
    requires n <= |tx.outputs| && Create(r, s, tx, txid, n, unlocking).Some?
    ensures var t := Create(r, s, tx, txid, n, unlocking).value;
            && SameFrame(s, t) && Coins(t.utxos, None) <= Coins(s.utxos, None) + Paid(tx.outputs[..n])
            && (Covers(s) ==> Covers(t)) && (ExactWith(s, txid, 0) && txid !in s.seen ==> ExactWith(t, txid, n))
  {
    hide Coins, Covers, ExactWith, CreateOne;
    if n > 0 {
      CreateFacts(r, s, tx, txid, n - 1, unlocking);
      var p := Create(r, s, tx, txid, n - 1, unlocking).value;
      CreateOneCoins(r, p, tx, txid, n - 1, unlocking);
      if ExactWith(p, txid, n - 1) && txid !in s.seen { CreateOneExact(r, p, tx, txid, n - 1, unlocking); }
      assert tx.outputs[..n][..n - 1] == tx.outputs[..n - 1];
    }
  }

  // ---------------------------------------------------------------- one transaction

  /** Coins a transaction moves into the shielded pool, less those it takes out. */
  function Inflow(r: Rules, tx: Tx): int {
    if tx.shielded != "" && r.parse(tx.shielded).Some?
        then r.parse(tx.shielded).value.vpubIn - r.parse(tx.shielded).value.vpubOut else 0
  }

  lemma FinishExact(r: Rules, s: State, tx: Tx, txid: string, n: nat)
    requires ExactWith(s, txid, n)
    ensures Exact(Finish(r, s, tx, txid))
  {
    hide Coins, Outpoint;
    var t := Finish(r, s, tx, txid);
    forall k | k in t.utxos ensures Known(t, k) {
      if Known(s, k) { KnownFrame(s, t, k); }
      else { var i :| 0 <= i < n && k == Outpoint(txid, i); assert txid in t.seen && k == Outpoint(txid, i); }
    }
    forall k ensures k in t.tickets <==> IsTicket(t, k) { assert k in s.tickets <==> IsTicket(s, k); }
  }

  lemma ExactWithNone(s: State, txid: string)
    requires Exact(s)
    ensures ExactWith(s, txid, 0)
  {
    hide Coins;
  }

  lemma CoversFrame(s: State, t: State)
    requires Covers(s) && s.utxos == t.utxos && s.index == t.index
    ensures Covers(t)
  {
    hide Coins;
    forall o ensures Coins(t.utxos, Some(o)) <= Get(t.index, o) { assert Coins(s.utxos, Some(o)) <= Get(s.index, o); }
  }

  /** Applying a transaction: what it creates is what it was given. */
  lemma ApplyTxFacts(r: Rules, s: State, tx: Tx)
    requires ApplyTx(r, s, tx).Some?
    ensures var t := ApplyTx(r, s, tx).value;
            && t.blocks == s.blocks && t.emitted == s.emitted && t.slashed == s.slashed && t.work == s.work &&
                 t.target == s.target
            && t.seen == s.seen + {r.txid(tx)}
            && (tx.inputs != [] || tx.shielded != "" ==>
                 Coins(t.utxos, None) + tx.fee + Inflow(r, tx) <= Coins(s.utxos, None))
            && (tx.inputs == [] && tx.shielded == "" ==>
                 Coins(t.utxos, None) <= Coins(s.utxos, None) + Paid(tx.outputs))
            && (Covers(s) ==> Covers(t))
            && (Exact(s) && r.txid(tx) !in s.seen ==> Exact(t))
  {
    hide Coins, Covers, Exact, ExactWith, Authorised, StakeOutputsOk, ShieldedOk, InputsOk, OutputsOk, Spend, Create,
        Paid, Worth;
    var p := Spend(s, tx.inputs).value;
    var q := Create(r, p.0, tx, r.txid(tx), |tx.outputs|, p.1).value;
    SpendFacts(s, tx.inputs);
    CreateFacts(r, p.0, tx, r.txid(tx), |tx.outputs|, p.1);
    assert tx.outputs[..|tx.outputs|] == tx.outputs;
    if tx.inputs == [] { NothingSpent(s); }
    if Covers(s) { CoversFrame(q, ApplyTx(r, s, tx).value); }
    if Exact(s) && r.txid(tx) !in s.seen {
      ExactWithNone(p.0, r.txid(tx));
      FinishExact(r, q, tx, r.txid(tx), |tx.outputs|);
    }
  }

  lemma NothingSpent(s: State)
    ensures Worth(s.utxos, []) == 0
  {
  }
}
