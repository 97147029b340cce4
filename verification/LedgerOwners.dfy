/** Who may spend what: over every run, what each transaction of the chain spends, and by
    whose leave, read off the chain's own transactions. */
module LedgerOwners {
  import opened Basics
  import opened Seqs
  import opened Text
  import opened Emission
  import opened Ledger
  import opened LedgerInvariant
  import opened LedgerSafety
  import opened Chain
  import opened ChainRun
  import Staking

  // ------------------------------------------------------------ a chain's transactions

  /** A transaction and the height of its block. */
  datatype Placed = Placed(tx: Tx, height: nat)

  function Place(txs: seq<Tx>, h: nat): seq<Placed> { seq(|txs|, i requires 0 <= i < |txs| => Placed(txs[i], h)) }

  function Bare(pl: seq<Placed>): seq<Tx> { seq(|pl|, i requires 0 <= i < |pl| => pl[i].tx) }

  /** All transactions of a block list with their heights, in order. */
  function PlacedTxs(bs: seq<Block>): seq<Placed> {
    if bs == [] then [] else PlacedTxs(bs[..|bs| - 1]) + Place(bs[|bs| - 1].txs, bs[|bs| - 1].header.height)
  }

  /** Input `x` names an output of transaction `i`. */
  predicate Names(r: Rules, pl: seq<Placed>, x: Input, i: nat) {
    i < |pl| && r.txid(pl[i].tx) == x.txid && x.index < |pl[i].tx.outputs|
  }

  function Named(r: Rules, pl: seq<Placed>, x: Input, i: nat): Output
    requires Names(r, pl, x, i)
  {
    pl[i].tx.outputs[x.index]
  }

  /** Transaction `j` takes back stake. */
  predicate Unstakes(r: Rules, pl: seq<Placed>, j: nat) {
    && j < |pl|
    && exists m, i :: 0 <= m < |pl[j].tx.inputs| && 0 <= i < j && Names(r, pl, pl[j].tx.inputs[m], i) &&
         Named(r, pl, pl[j].tx.inputs[m], i).to == STAKE
  }

  /** Transaction `j` may spend what input `x` names, an output of the earlier transaction
      `i`: it was paid to the signer, or staked by the signer, or, without a signer, its
      script was satisfied at these heights; and what came out of stake has rested. */
  predicate MaySpend(r: Rules, pl: seq<Placed>, j: nat, x: Input, i: nat) {
    && i < j < |pl| && Names(r, pl, x, i)
    && var tx, to := pl[j].tx, Named(r, pl, x, i).to;
       && (tx.signer != "" ==> to == tx.signer || (to == STAKE && pl[i].tx.signer == tx.signer))
       && (tx.signer == "" ==> r.scriptOk(to, x.unlock, tx, pl[j].height, pl[i].height))
       && (Unstakes(r, pl, i) ==> pl[j].height >= pl[i].height + r.unbondDelay)
  }

  /** What the latest transaction with the id pays in the output named, if any. */
  function WorthOf(r: Rules, pl: seq<Placed>, x: Input): nat {
    if pl == [] then 0
    else
      var last := pl[|pl| - 1].tx;
      if r.txid(last) == x.txid then if x.index < |last.outputs| then last.outputs[x.index].amount else 0
      else WorthOf(r, pl[..|pl| - 1], x)
  }

  function WorthOfAll(r: Rules, pl: seq<Placed>, ins: seq<Input>): nat {
    if ins == [] then 0 else WorthOfAll(r, pl, ins[..|ins| - 1]) + WorthOf(r, pl, ins[|ins| - 1])
  }

  /** What a transaction pays and gives up comes out of what it spends. */
  predicate Covered(r: Rules, pl: seq<Placed>, j: nat)
    requires j < |pl|
  {
    var tx := pl[j].tx;
    var worth := WorthOfAll(r, pl[..j], tx.inputs);
    if tx.shielded != "" then
      && r.parse(tx.shielded).Some?
      && var p := r.parse(tx.shielded).value; worth + p.vpubOut == Paid(tx.outputs) + tx.fee + p.vpubIn
    else tx.inputs != [] ==> worth >= Paid(tx.outputs) + tx.fee
  }

  /** The rules for transaction `j` of a chain. */
  predicate Lawful(r: Rules, pl: seq<Placed>, j: nat) {
    && j < |pl|
    && var tx := pl[j].tx;
       && (forall x :: x in tx.inputs ==> exists i :: 0 <= i < j && MaySpend(r, pl, j, x, i))
       && Covered(r, pl, j)
       && (tx.inputs != [] || tx.shielded != "" ==> tx.fee >= r.minFee)
       && (forall o :: o in tx.outputs ==> o.to != "" && o.amount > 0)
       && (tx.inputs != [] ==> forall o :: o in tx.outputs && o.to == STAKE ==>
             pl[j].height >= r.stakeFrom && o.amount >= r.stakeMin && !Unstakes(r, pl, j))
  }

  /** Appending transactions changes nothing about earlier ones. */
  lemma LawfulStays(r: Rules, pl: seq<Placed>, more: seq<Placed>, j: nat)
    requires j < |pl|
    ensures Lawful(r, pl + more, j) <==> Lawful(r, pl, j)
    ensures Unstakes(r, pl + more, j) <==> Unstakes(r, pl, j)
  {
    hide Paid;
    var qs := pl + more;
    assert qs[..j] == pl[..j];
    assert forall i :: 0 <= i < |pl| ==> qs[i] == pl[i];
    assert forall x, i :: 0 <= i < |pl| ==> (Names(r, qs, x, i) <==> Names(r, pl, x, i));
    forall i | 0 <= i <= j ensures Unstakes(r, qs, i) <==> Unstakes(r, pl, i) { UnstakesStays(r, pl, more, i); }
    forall x, i | 0 <= i < j ensures MaySpend(r, qs, j, x, i) <==> MaySpend(r, pl, j, x, i) { }
  }

  lemma UnstakesStays(r: Rules, pl: seq<Placed>, more: seq<Placed>, j: nat)
    requires j < |pl|
    ensures Unstakes(r, pl + more, j) <==> Unstakes(r, pl, j)
  {
    var qs := pl + more;
    assert forall i :: 0 <= i < |pl| ==> qs[i] == pl[i];
    assert forall x, i :: 0 <= i < |pl| ==> (Names(r, qs, x, i) <==> Names(r, pl, x, i));
  }

  // ----------------------------------------------------------------- where outputs come from

  /** A ticket of transaction `i`: its signer's, from the height of its block, with the key that
      came with it or else one that is the signer's, if there is one. */
  predicate TicketOf(r: Rules, t: Staking.Ticket, p: Placed) {
    && t.owner == p.tx.signer && t.lockHeight == p.height && (t.pubkey == "" || r.binds(t.owner, t.pubkey))
    && (p.tx.pubkey != "" ==> t.pubkey == p.tx.pubkey)
  }

  /** Output `k` was made by transaction `i` as its output `n`, and if it is a ticket, it is one
      of that transaction. */
  predicate OriginAt(r: Rules, s: State, pl: seq<Placed>, k: string, i: nat, n: nat)
    requires k in s.utxos
  {
    && i < |pl| && n < |pl[i].tx.outputs| && k == Outpoint(r.txid(pl[i].tx), n)
    && (k in s.tickets ==> TicketOf(r, s.tickets[k], pl[i]))
    && var u, o := s.utxos[k], pl[i].tx.outputs[n];
       && u.owner == o.to && u.amount == o.amount && u.height == pl[i].height
       && u.spendable == (if Unstakes(r, pl, i) then pl[i].height + r.unbondDelay else 0)
  }

  ghost predicate Owned(r: Rules, s: State, pl: seq<Placed>) {
    && (forall k :: k in s.utxos ==> exists i: nat, n: nat :: OriginAt(r, s, pl, k, i, n))
    && (forall a :: a in s.registry ==> r.binds(a, s.registry[a]))
  }

  lemma OriginStays(r: Rules, s: State, t: State, pl: seq<Placed>, more: seq<Placed>, k: string)
    requires k in s.utxos && k in t.utxos && t.utxos[k].(spent := true) == s.utxos[k].(spent := true)
    requires k in t.tickets ==> k in s.tickets && t.tickets[k] == s.tickets[k]
    requires exists i: nat, n: nat :: OriginAt(r, s, pl, k, i, n)
    ensures exists i: nat, n: nat :: OriginAt(r, t, pl + more, k, i, n)
  {
    hide Outpoint, Unstakes;
    var i: nat, n: nat :| OriginAt(r, s, pl, k, i, n);
    UnstakesStays(r, pl, more, i);
    assert (pl + more)[i] == pl[i];
    assert OriginAt(r, t, pl + more, k, i, n);
  }

  lemma OwnedMore(r: Rules, s: State, pl: seq<Placed>, more: seq<Placed>)
    requires Owned(r, s, pl)
    ensures Owned(r, s, pl + more)
  {
    hide OriginAt;
    forall k | k in s.utxos ensures exists i: nat, n: nat :: OriginAt(r, s, pl + more, k, i, n) {
      OriginStays(r, s, s, pl, more, k);
    }
  }

  lemma SpendOneOwned(r: Rules, s: State, pl: seq<Placed>, k: string)
    requires Owned(r, s, pl) && k in s.utxos
    ensures Owned(r, SpendOne(s, k), pl)
  {
    hide OriginAt;
    var t := SpendOne(s, k);
    assert pl + [] == pl;
    forall j | j in t.utxos ensures exists i: nat, n: nat :: OriginAt(r, t, pl, j, i, n) {
      OriginStays(r, s, t, pl, [], j);
    }
  }

  lemma {:induction false} SpendOwned(r: Rules, s: State, pl: seq<Placed>, ins: seq<Input>)
    requires Owned(r, s, pl) && Spend(s, ins).Some?
    ensures Owned(r, Spend(s, ins).value.0, pl)
    decreases |ins|
  {
    hide Owned, SpendOne;
    if ins != [] {
      SpendOwned(r, s, pl, ins[..|ins| - 1]);
      SpendOneOwned(r, Spend(s, ins[..|ins| - 1]).value.0, pl, Key(ins[|ins| - 1]));
    }
  }

  /** Who locks stake with a key locks it with a key of the signer. */
  predicate KeyFine(r: Rules, tx: Tx) {
    tx.pubkey == "" || r.binds(tx.signer, tx.pubkey) || forall o :: o in tx.outputs ==> o.to != STAKE
  }

  /** The last transaction of `pl` creates its output `i`. */
  lemma CreateOneOwned(r: Rules, s: State, pl: seq<Placed>, i: nat, unlocking: bool)
    requires pl != [] && Owned(r, s, pl) && i < |pl[|pl| - 1].tx.outputs| && Height(s) + 1 == pl[|pl| - 1].height
    requires unlocking == Unstakes(r, pl, |pl| - 1) && KeyFine(r, pl[|pl| - 1].tx)
    requires Outpoint(r.txid(pl[|pl| - 1].tx), i) !in s.tickets
    ensures var tx := pl[|pl| - 1].tx; Owned(r, CreateOne(r, s, tx, r.txid(tx), i, unlocking), pl)
  {
    hide OriginAt, Outpoint, TicketKey, Unstakes;
    var tx := pl[|pl| - 1].tx;
    var t, k := CreateOne(r, s, tx, r.txid(tx), i, unlocking), Outpoint(r.txid(tx), i);
    assert pl + [] == pl;
    forall j | j in t.utxos ensures exists m: nat, n: nat :: OriginAt(r, t, pl, j, m, n) {
      if j == k { CreatedOrigin(r, s, pl, i, unlocking); } else { OriginStays(r, s, t, pl, [], j); }
    }
  }

  lemma CreatedOrigin(r: Rules, s: State, pl: seq<Placed>, i: nat, unlocking: bool)
    requires pl != [] && i < |pl[|pl| - 1].tx.outputs| && Height(s) + 1 == pl[|pl| - 1].height
    requires unlocking == Unstakes(r, pl, |pl| - 1) && KeyFine(r, pl[|pl| - 1].tx)
    requires Outpoint(r.txid(pl[|pl| - 1].tx), i) !in s.tickets
    requires forall a :: a in s.registry ==> r.binds(a, s.registry[a])
    ensures var tx := pl[|pl| - 1].tx;
            var k := Outpoint(r.txid(tx), i);
            OriginAt(r, CreateOne(r, s, tx, r.txid(tx), i, unlocking), pl, k, |pl| - 1, i)
  {
    hide Outpoint, Unstakes;
    assert pl[|pl| - 1].tx.outputs[i] in pl[|pl| - 1].tx.outputs;
  }

  lemma {:induction false} CreateOwned(r: Rules, s: State, pl: seq<Placed>, n: nat, unlocking: bool)
    requires pl != [] && Owned(r, s, pl) && Height(s) + 1 == pl[|pl| - 1].height
    requires unlocking == Unstakes(r, pl, |pl| - 1) && KeyFine(r, pl[|pl| - 1].tx)
    requires var tx := pl[|pl| - 1].tx;
             && n <= |tx.outputs| && Create(r, s, tx, r.txid(tx), n, unlocking).Some?
             && ExactWith(s, r.txid(tx), 0) && r.txid(tx) !in s.seen
    ensures var tx := pl[|pl| - 1].tx; Owned(r, Create(r, s, tx, r.txid(tx), n, unlocking).value, pl)
  {
    hide Owned, ExactWith, CreateOne, Outpoint, Unstakes, Height, Covers, Paid, Coins, KeyFine;
    var tx := pl[|pl| - 1].tx;
    if n > 0 {
      CreateOwned(r, s, pl, n - 1, unlocking);
      CreateFacts(r, s, tx, r.txid(tx), n - 1, unlocking);
      var p := Create(r, s, tx, r.txid(tx), n - 1, unlocking).value;
      SameHeight(s, p);
      NoTicketYet(p, r.txid(tx), n - 1);
      CreateOneOwned(r, p, pl, n - 1, unlocking);
    }
  }

  lemma SameHeight(s: State, t: State)
    requires s.blocks == t.blocks
    ensures Height(s) == Height(t)
  {
  }

  lemma NoTicketYet(s: State, txid: string, n: nat)
    requires ExactWith(s, txid, n) && txid !in s.seen
    ensures Outpoint(txid, n) !in s.tickets
  {
    hide Coins, Outpoint, Known;
    NewKey(s, txid, n);
    assert Outpoint(txid, n) in s.tickets <==> IsTicket(s, Outpoint(txid, n));
  }

  // ------------------------------------------------------------------ one transaction

  /** What the inputs of a valid transaction may be spent by. */
  lemma InputsMay(r: Rules, s: State, pl: seq<Placed>, tx: Tx, x: Input)
    requires Owned(r, s, pl) && x in tx.inputs && ValidTx(r, s, tx, true)
    ensures var qs := pl + [Placed(tx, Height(s) + 1)]; exists i :: 0 <= i < |pl| && MaySpend(r, qs, |pl|, x, i)
  {
    hide OriginAt, OutputsOk, ShieldedOk, StakeOutputsOk, Balanced, Height, Unstakes, Outpoint, Paid, Worth, Distinct;
    assert Live(s.utxos, Key(x), Height(s) + 1);
    var i: nat, n: nat :| OriginAt(r, s, pl, Key(x), i, n);
    InputFrom(r, s, pl, tx, x, i, n);
  }

  lemma InputFrom(r: Rules, s: State, pl: seq<Placed>, tx: Tx, x: Input, i: nat, n: nat)
    requires x in tx.inputs && Live(s.utxos, Key(x), Height(s) + 1) && OriginAt(r, s, pl, Key(x), i, n)
    requires Authorised(r, s, tx, false)
    ensures MaySpend(r, pl + [Placed(tx, Height(s) + 1)], |pl|, x, i)
  {
    hide Height, Unstakes, Outpoint;
    var more := [Placed(tx, Height(s) + 1)];
    OutpointInjective(x.txid, x.index, r.txid(pl[i].tx), n);
    UnstakesStays(r, pl, more, i);
    assert (pl + more)[i] == pl[i] && (pl + more)[|pl|] == more[0];
    if tx.signer != "" { assert Owns(s, tx.signer, Key(x)); }
  }

  /** Whether a ticket is spent can be told from the state before. */
  lemma {:induction false} SpendUnlocks(s: State, ins: seq<Input>)
    requires Spend(s, ins).Some?
    ensures Spend(s, ins).value.1 <==> exists m :: 0 <= m < |ins| && Key(ins[m]) in s.tickets
    ensures Spend(s, ins).value.0.tickets == s.tickets - (set k | k in Keys(ins))
    decreases |ins|
  {
    hide Key;
    if ins == [] {
      assert s.tickets - (set k | k in Keys(ins)) == s.tickets;
    } else {
      var n := |ins| - 1;
      SpendUnlocks(s, ins[..n]);
      SpendMarks(s, ins[..n]);
      KeysSnoc(ins);
      var p, k := Spend(s, ins[..n]).value.0, Key(ins[n]);
      assert k !in Keys(ins[..n]);
      assert forall m :: 0 <= m < n ==> ins[..n][m] == ins[m];
      assert (set j | j in Keys(ins)) == (set j | j in Keys(ins[..n])) + {k};
    }
  }

  lemma SameTx(r: Rules, pl: seq<Placed>, i: nat, j: nat)
    requires i < |pl| && j < |pl| && r.txid(pl[i].tx) == r.txid(pl[j].tx) && Distinct(Txids(r, Bare(pl)))
    ensures i == j
  {
    var ids := Txids(r, Bare(pl));
    assert ids[i] == ids[j];
  }

  /** The flag that freezes the outputs is set exactly if stake is taken back. */
  lemma UnlocksIff(r: Rules, s: State, pl: seq<Placed>, tx: Tx, h: nat)
    requires Owned(r, s, pl) && Exact(s) && Spend(s, tx.inputs).Some? && Distinct(Txids(r, Bare(pl)))
    ensures Spend(s, tx.inputs).value.1 <==> Unstakes(r, pl + [Placed(tx, h)], |pl|)
  {
    hide Spend, OriginAt, Exact, Outpoint, Distinct, Txids;
    var qs, ins := pl + [Placed(tx, h)], tx.inputs;
    SpendUnlocks(s, ins);
    SpendMarks(s, ins);
    assert qs[|pl|].tx == tx;
    assert forall m :: 0 <= m < |ins| ==> Keys(ins)[m] == Key(ins[m]) && Keys(ins)[m] in Keys(ins);
    forall m | 0 <= m < |ins|
      ensures Key(ins[m]) in s.tickets <==>
              exists i :: 0 <= i < |pl| && Names(r, qs, ins[m], i) && Named(r, qs, ins[m], i).to == STAKE
    {
      StakeNamed(r, s, pl, qs, ins[m]);
    }
  }

  lemma StakeNamed(r: Rules, s: State, pl: seq<Placed>, qs: seq<Placed>, x: Input)
    requires Owned(r, s, pl) && Exact(s) && Distinct(Txids(r, Bare(pl))) && pl <= qs
    requires Key(x) in s.utxos && !s.utxos[Key(x)].spent
    ensures Key(x) in s.tickets <==>
            exists i :: 0 <= i < |pl| && Names(r, qs, x, i) && Named(r, qs, x, i).to == STAKE
  {
    hide OriginAt, Outpoint, Distinct, Txids, Coins, Known;
    var i: nat, n: nat :| OriginAt(r, s, pl, Key(x), i, n);
    OriginNames(r, s, pl, x, i, n);
    assert Names(r, qs, x, i) && Named(r, qs, x, i) == Named(r, pl, x, i);
    assert Key(x) in s.tickets <==> IsTicket(s, Key(x));
    forall j | 0 <= j < |pl| && Names(r, qs, x, j) ensures j == i { assert qs[j] == pl[j]; SameTx(r, pl, i, j); }
  }

  lemma OriginNames(r: Rules, s: State, pl: seq<Placed>, x: Input, i: nat, n: nat)
    requires Key(x) in s.utxos && OriginAt(r, s, pl, Key(x), i, n)
    ensures Names(r, pl, x, i) && n == x.index
    ensures s.utxos[Key(x)].owner == Named(r, pl, x, i).to && s.utxos[Key(x)].amount == Named(r, pl, x, i).amount
  {
    hide Outpoint;
    OutpointInjective(x.txid, x.index, r.txid(pl[i].tx), n);
  }

  lemma {:induction false} WorthOfIs(r: Rules, pl: seq<Placed>, x: Input, i: nat)
    requires Names(r, pl, x, i) && Distinct(Txids(r, Bare(pl)))
    ensures WorthOf(r, pl, x) == Named(r, pl, x, i).amount
    decreases |pl|
  {
    hide Distinct, Txids;
    var n := |pl| - 1;
    if i < n {
      if r.txid(pl[n].tx) == x.txid { SameTx(r, pl, i, n); }
      DistinctFront(r, pl);
      WorthOfIs(r, pl[..n], x, i);
    }
  }

  lemma DistinctFront(r: Rules, pl: seq<Placed>)
    requires pl != [] && Distinct(Txids(r, Bare(pl)))
    ensures Distinct(Txids(r, Bare(pl[..|pl| - 1])))
  {
    var n := |pl| - 1;
    assert forall i :: 0 <= i < n ==> Txids(r, Bare(pl[..n]))[i] == Txids(r, Bare(pl))[i];
  }

  lemma {:induction false} WorthAgrees(r: Rules, s: State, pl: seq<Placed>, ins: seq<Input>)
    requires Owned(r, s, pl) && Distinct(Txids(r, Bare(pl))) && forall x :: x in ins ==> Key(x) in s.utxos
    ensures Worth(s.utxos, ins) == WorthOfAll(r, pl, ins)
    decreases |ins|
  {
    hide OriginAt, Distinct, Txids, Key;
    if ins != [] {
      var x := ins[|ins| - 1];
      WorthAgrees(r, s, pl, ins[..|ins| - 1]);
      var i: nat, n: nat :| OriginAt(r, s, pl, Key(x), i, n);
      OriginNames(r, s, pl, x, i, n);
      WorthOfIs(r, pl, x, i);
    }
  }

  lemma ValidParts(r: Rules, s: State, tx: Tx)
    requires ValidTx(r, s, tx, true)
    ensures forall o :: o in tx.outputs ==> o.to != "" && o.amount > 0
    ensures tx.inputs != [] || tx.shielded != "" ==> tx.fee >= r.minFee
    ensures tx.inputs == [] && tx.shielded != "" ==> Balanced(r, tx, 0)
    ensures tx.inputs != [] ==>
            && Authorised(r, s, tx, false) && StakeOutputsOk(r, s, tx) && Balanced(r, tx, Worth(s.utxos, tx.inputs))
            && forall x :: x in tx.inputs ==> Key(x) in s.utxos
  {
    hide Authorised, StakeOutputsOk, Balanced, ShieldedOk, Worth, Paid, Distinct;
    if tx.inputs != [] {
      forall x | x in tx.inputs ensures Key(x) in s.utxos { assert Live(s.utxos, Key(x), Height(s) + 1); }
    }
  }

  /** An applied transaction obeys the rules. */
  lemma ApplyTxLawful(r: Rules, s: State, pl: seq<Placed>, tx: Tx)
    requires Owned(r, s, pl) && Exact(s) && ApplyTx(r, s, tx).Some? && Distinct(Txids(r, Bare(pl)))
    ensures Lawful(r, pl + [Placed(tx, Height(s) + 1)], |pl|)
  {
    hide Owned, Exact, ValidTx, Spend, Create, MaySpend, Unstakes, Height, Authorised, Balanced, Paid, Worth,
        WorthOfAll, Distinct, Txids, Key, STAKE;
    var qs := pl + [Placed(tx, Height(s) + 1)];
    assert qs[..|pl|] == pl && qs[|pl|] == Placed(tx, Height(s) + 1);
    ValidParts(r, s, tx);
    forall x | x in tx.inputs ensures exists i :: 0 <= i < |pl| && MaySpend(r, qs, |pl|, x, i) {
      InputsMay(r, s, pl, tx, x);
    }
    WorthAgrees(r, s, pl, tx.inputs);
    NothingWorth(r, pl);
    if tx.inputs != [] || tx.shielded != "" { CoveredBy(r, tx, WorthOfAll(r, pl, tx.inputs)); }
    UnlocksIff(r, s, pl, tx, Height(s) + 1);
    SpendUnlocks(s, tx.inputs);
    if tx.inputs != [] { StakeRules(r, s, tx); }
  }

  lemma NothingWorth(r: Rules, pl: seq<Placed>)
    ensures WorthOfAll(r, pl, []) == 0
  {
  }

  lemma CoveredBy(r: Rules, tx: Tx, worth: nat)
    requires Balanced(r, tx, worth)
    ensures if tx.shielded != "" then
              && r.parse(tx.shielded).Some?
              && var p := r.parse(tx.shielded).value; worth + p.vpubOut == Paid(tx.outputs) + tx.fee + p.vpubIn
            else worth >= Paid(tx.outputs) + tx.fee
  {
    hide Paid;
  }

  lemma StakeRules(r: Rules, s: State, tx: Tx)
    requires StakeOutputsOk(r, s, tx) && Spend(s, tx.inputs).Some? && tx.inputs != []
    ensures forall o :: o in tx.outputs && o.to == STAKE ==>
            Height(s) + 1 >= r.stakeFrom && o.amount >= r.stakeMin && !Spend(s, tx.inputs).value.1
  {
    hide Spend, Key, Height;
    SpendUnlocks(s, tx.inputs);
  }

  lemma ApplyTxOwned(r: Rules, s: State, pl: seq<Placed>, tx: Tx)
    requires Owned(r, s, pl) && Exact(s) && ApplyTx(r, s, tx).Some? && r.txid(tx) !in s.seen
    requires Distinct(Txids(r, Bare(pl)))
    ensures Owned(r, ApplyTx(r, s, tx).value, pl + [Placed(tx, Height(s) + 1)])
  {
    hide Owned, Exact, ExactWith, ValidTx, Spend, Create, Unstakes, Height, Distinct, Txids, Bare;
    var qs := pl + [Placed(tx, Height(s) + 1)];
    var p := Spend(s, tx.inputs).value;
    SpendOwned(r, s, pl, tx.inputs);
    OwnedMore(r, p.0, pl, [Placed(tx, Height(s) + 1)]);
    UnlocksIff(r, s, pl, tx, Height(s) + 1);
    SpendFacts(s, tx.inputs);
    SameHeight(s, p.0);
    ExactWithNone(p.0, r.txid(tx));
    ValidKey(r, s, tx);
    CreateOwned(r, p.0, qs, |tx.outputs|, p.1);
    var q := Create(r, p.0, tx, r.txid(tx), |tx.outputs|, p.1).value;
    CreateFacts(r, p.0, tx, r.txid(tx), |tx.outputs|, p.1);
    FinishOwned(r, s, q, qs, tx);
  }

  /** Only keys that belong to their signer are registered. */
  lemma FinishOwned(r: Rules, s: State, q: State, pl: seq<Placed>, tx: Tx)
    requires Owned(r, q, pl) && ValidTx(r, s, tx, true)
    ensures Owned(r, Finish(r, q, tx, r.txid(tx)), pl)
  {
    hide OriginAt, ValidTx;
    var t := Finish(r, q, tx, r.txid(tx));
    if tx.inputs != [] && tx.signer != "" && tx.pubkey != "" { KeyBound(r, s, tx); }
    assert pl + [] == pl;
    forall k | k in t.utxos ensures exists i: nat, n: nat :: OriginAt(r, t, pl, k, i, n) {
      OriginStays(r, q, t, pl, [], k);
    }
  }

  lemma ValidKey(r: Rules, s: State, tx: Tx)
    requires ValidTx(r, s, tx, true)
    ensures KeyFine(r, tx)
  {
    hide OutputsOk, StakeOutputsOk, Balanced, InputsOk, Paid, Worth, ScriptsOk;
  }

  lemma KeyBound(r: Rules, s: State, tx: Tx)
    requires ValidTx(r, s, tx, true) && tx.inputs != [] && tx.signer != "" && tx.pubkey != ""
    ensures r.binds(tx.signer, tx.pubkey)
  {
    hide OutputsOk, ShieldedOk, StakeOutputsOk, Balanced, InputsOk, Paid, Worth;
  }

  // ------------------------------------------------------------------------ whole blocks

  lemma PlaceSnoc(txs: seq<Tx>, h: nat)
    requires txs != []
    ensures Place(txs, h) == Place(txs[..|txs| - 1], h) + [Placed(txs[|txs| - 1], h)]
  {
  }

  ghost predicate AllLawful(r: Rules, pl: seq<Placed>) { forall j :: 0 <= j < |pl| ==> Lawful(r, pl, j) }

  lemma LawfulSnoc(r: Rules, pl: seq<Placed>, p: Placed)
    requires AllLawful(r, pl) && Lawful(r, pl + [p], |pl|)
    ensures AllLawful(r, pl + [p])
  {
    hide Lawful;
    forall j | 0 <= j < |pl| + 1 ensures Lawful(r, pl + [p], j) { if j < |pl| { LawfulStays(r, pl, [p], j); } }
  }

  lemma {:induction false} ApplyAllOwned(r: Rules, s: State, pl: seq<Placed>, txs: seq<Tx>)
    requires Owned(r, s, pl) && AllLawful(r, pl) && Exact(s) && ApplyAll(r, s, txs).Some? && Fresh(r, s, txs)
    requires Distinct(Txids(r, Bare(pl + Place(txs, Height(s) + 1))))
    ensures var t, qs := ApplyAll(r, s, txs).value, pl + Place(txs, Height(s) + 1);
            Owned(r, t, qs) && AllLawful(r, qs) && Exact(t) && t.blocks == s.blocks
    ensures ApplyAll(r, s, txs).value.seen == s.seen + (set tx | tx in txs :: r.txid(tx))
    decreases |txs|
  {
    hide Owned, AllLawful, Exact, ApplyTx, Fresh, Distinct, Txids, Bare, Height, Place, Lawful;
    var h := Height(s) + 1;
    if txs == [] {
      NoPlace(pl, h);
    } else {
      var front, last := txs[..|txs| - 1], txs[|txs| - 1];
      PlaceSnoc(txs, h);
      var qs := pl + Place(front, h);
      assert pl + Place(txs, h) == qs + [Placed(last, h)];
      FreshSplit(r, s, txs);
      SeenStep(r, txs);
      DistinctLess(r, qs, Placed(last, h));
      ApplyAllOwned(r, s, pl, front);
      var p := ApplyAll(r, s, front).value;
      SameHeight(s, p);
      ApplyTxLawful(r, p, qs, last);
      ApplyTxOwned(r, p, qs, last);
      LawfulSnoc(r, qs, Placed(last, h));
      ApplyTxFacts(r, p, last);
    }
  }

  lemma NoPlace(pl: seq<Placed>, h: nat)
    ensures pl + Place([], h) == pl
  {
  }

  lemma DistinctLess(r: Rules, pl: seq<Placed>, p: Placed)
    requires Distinct(Txids(r, Bare(pl + [p])))
    ensures Distinct(Txids(r, Bare(pl)))
  {
    assert (pl + [p])[..|pl|] == pl;
    DistinctFront(r, pl + [p]);
  }

  lemma {:induction false} SlashOwned(r: Rules, s: State, pl: seq<Placed>, es: seq<Evidence>)
    requires Owned(r, s, pl)
    ensures Owned(r, Slash(s, es), pl)
    decreases |es|
  {
    hide Owned;
    if es != [] {
      SlashOwned(r, s, pl, es[..|es| - 1]);
      SlashOneOwned(r, Slash(s, es[..|es| - 1]), pl, es[|es| - 1].a.ticket);
    }
  }

  lemma SlashOneOwned(r: Rules, s: State, pl: seq<Placed>, k: string)
    requires Owned(r, s, pl)
    ensures Owned(r, SlashOne(s, k), pl)
  {
    hide Owned, SpendOne;
    if k in s.tickets {
      if k in s.utxos && !s.utxos[k].spent {
        SpendOneOwned(r, s, pl, k);
        OwnedFrame(r, SpendOne(s, k), SlashOne(s, k), pl);
      } else {
        OwnedFrame(r, s, SlashOne(s, k), pl);
      }
    }
  }

  lemma OwnedFrame(r: Rules, s: State, t: State, pl: seq<Placed>)
    requires Owned(r, s, pl) && t.utxos == s.utxos && t.registry == s.registry
    requires forall k :: k in t.tickets ==> k in s.tickets && t.tickets[k] == s.tickets[k]
    ensures Owned(r, t, pl)
  {
    hide OriginAt;
    assert pl + [] == pl;
    forall k | k in t.utxos ensures exists i: nat, n: nat :: OriginAt(r, t, pl, k, i, n) {
      OriginStays(r, s, t, pl, [], k);
    }
  }

  lemma AddBlockOwned(r: Rules, s: State, pl: seq<Placed>, b: Block)
    requires Owned(r, s, pl) && AllLawful(r, pl) && Exact(s) && AddBlock(r, s, b, true).1 && Fresh(r, s, b.txs)
    requires Distinct(Txids(r, Bare(pl + Place(b.txs, b.header.height))))
    ensures Owned(r, AddBlock(r, s, b, true).0, pl + Place(b.txs, b.header.height))
    ensures AllLawful(r, pl + Place(b.txs, b.header.height))
  {
    hide Owned, AllLawful, Exact, AddBlock, CoinbaseOk, ApplyAll, Slash, Fees, Minted, Fresh, Distinct, Txids, Bare,
        Height, Place;
    AddBlockShape(r, s, b, true);
    var p, qs := ApplyAll(r, s, b.txs).value, pl + Place(b.txs, b.header.height);
    ApplyAllOwned(r, s, pl, b.txs);
    var q := p.(fees := Fees(b.txs[1..]));
    OwnedFrame(r, p, q, qs);
    SlashOwned(r, q, qs, b.slashes);
    OwnedFrame(r, Slash(q, b.slashes), AddBlock(r, s, b, true).0, qs);
  }

  lemma {:induction false} BareTxs(bs: seq<Block>)
    ensures Bare(PlacedTxs(bs)) == AllTxs(bs)
  {
    if bs != [] { BareTxs(bs[..|bs| - 1]); }
  }

  lemma {:induction false} ReplayOwned(r: Rules, bs: seq<Block>)
    requires Accepted(r, bs) && Distinct(Txids(r, AllTxs(bs)))
    ensures Owned(r, Replay(r, bs), PlacedTxs(bs)) && AllLawful(r, PlacedTxs(bs))
  {
    hide Owned, AllLawful, AddBlock, Exact, Fresh, Distinct, Txids, Bare, Place;
    BareTxs(bs);
    if |bs| == 1 {
      NothingOwned(r, bs);
    } else {
      var front, b := bs[..|bs| - 1], bs[|bs| - 1];
      DistinctPrefix(r, AllTxs(front), b.txs);
      ReplayOwned(r, front);
      ReplayExact(r, front);
      FreshFromDistinct(r, Replay(r, front), AllTxs(front), b.txs);
      AddBlockOwned(r, Replay(r, front), PlacedTxs(front), b);
    }
  }

  lemma NothingOwned(r: Rules, bs: seq<Block>)
    requires |bs| == 1 && bs[0] == Genesis(r)
    ensures Owned(r, Reset(r), PlacedTxs(bs)) && AllLawful(r, PlacedTxs(bs))
  {
    assert bs[..0] == [] && PlacedTxs(bs) == [];
  }

  /** Over every run in which no id repeats, every transaction of the chain obeys the rules:
      it spends only outputs of earlier transactions that were paid to its signer, staked by
      its signer, or locked by a script it satisfies, none out of stake before its time, and
      pays out no more than these are worth. */
  lemma SpendersOwn(r: Rules, es: seq<Event>)
    requires Distinct(Txids(r, AllTxs(Run(r, es).blocks)))
    ensures var pl := PlacedTxs(Run(r, es).blocks); forall j :: 0 <= j < |pl| ==> Lawful(r, pl, j)
  {
    hide Run, Replay, Accepted, Distinct, Txids, AllTxs, PlacedTxs, Owned;
    RunReplays(r, es);
    ReplayOwned(r, Run(r, es).blocks);
  }

  /** Over every such run each ticket is the signer's of the transaction that locked its
      output, from that height on. */
  lemma TicketsOwned(r: Rules, es: seq<Event>)
    requires Distinct(Txids(r, AllTxs(Run(r, es).blocks)))
    ensures var s, pl := Run(r, es), PlacedTxs(Run(r, es).blocks);
            forall k :: k in s.tickets ==> exists i: nat, n: nat ::
              && i < |pl| && n < |pl[i].tx.outputs| && k == Outpoint(r.txid(pl[i].tx), n)
              && pl[i].tx.outputs[n].to == STAKE && TicketOf(r, s.tickets[k], pl[i])
  {
    hide Run, Replay, Accepted, Distinct, Txids, AllTxs, PlacedTxs, Outpoint, TicketOf, Coins, Known;
    RunReplays(r, es);
    var s, pl := Run(r, es), PlacedTxs(Run(r, es).blocks);
    ReplayOwned(r, s.blocks);
    ReplayExact(r, s.blocks);
    forall k | k in s.tickets
      ensures exists i: nat, n: nat ::
                && i < |pl| && n < |pl[i].tx.outputs| && k == Outpoint(r.txid(pl[i].tx), n)
                && pl[i].tx.outputs[n].to == STAKE && TicketOf(r, s.tickets[k], pl[i])
    {
      assert IsTicket(s, k);
      var i: nat, n: nat :| OriginAt(r, s, pl, k, i, n);
    }
  }

  // --------------------------------------------------------------------------- signatures

  /** Signed under a key that belongs to the signer, with a post-quantum signature. */
  ghost predicate WellSigned(r: Rules, tx: Tx) {
    && |tx.signature| >= 3 && tx.signature[..3] == "pq="
    && exists key :: r.binds(tx.signer, key) && r.sigOk(key, tx)
  }

  predicate RegistryBound(r: Rules, m: map<string, string>) { forall a :: a in m ==> r.binds(a, m[a]) }

  lemma {:induction false} PrefixApplied(r: Rules, s: State, txs: seq<Tx>, i: nat)
    requires ApplyAll(r, s, txs).Some? && i < |txs|
    ensures ApplyAll(r, s, txs[..i]).Some? && ApplyTx(r, ApplyAll(r, s, txs[..i]).value, txs[i]).Some?
    decreases |txs|
  {
    hide ApplyTx;
    if i < |txs| - 1 {
      PrefixApplied(r, s, txs[..|txs| - 1], i);
      assert txs[..|txs| - 1][..i] == txs[..i];
    }
  }

  ghost predicate SomewhereValid(r: Rules, tx: Tx) { exists s :: ValidTx(r, s, tx, true) }

  lemma BlockValid(r: Rules, s: State, txs: seq<Tx>)
    requires ApplyAll(r, s, txs).Some?
    ensures forall tx :: tx in txs ==> SomewhereValid(r, tx)
  {
    hide ApplyAll, ValidTx;
    forall tx | tx in txs ensures SomewhereValid(r, tx) {
      var i :| 0 <= i < |txs| && txs[i] == tx;
      PrefixApplied(r, s, txs, i);
      AppliedValid(r, ApplyAll(r, s, txs[..i]).value, tx);
    }
  }

  lemma AppliedValid(r: Rules, s: State, tx: Tx)
    requires ApplyTx(r, s, tx).Some?
    ensures ValidTx(r, s, tx, true)
  {
    hide ValidTx, Spend, Create;
  }

  lemma SomewhereBound(r: Rules, tx: Tx)
    requires SomewhereValid(r, tx) && tx.inputs != [] && tx.signer != "" && tx.pubkey != ""
    ensures r.binds(tx.signer, tx.pubkey)
  {
    hide ValidTx;
    var s :| ValidTx(r, s, tx, true);
    KeyBound(r, s, tx);
  }

  /** Keys registered earlier in the same block belong to their signers too. */
  lemma {:induction false} OverlayBound(r: Rules, s: State, txs: seq<Tx>)
    requires forall tx :: tx in txs ==> SomewhereValid(r, tx)
    ensures RegistryBound(r, Overlay(s, txs))
    decreases |txs|
  {
    hide SomewhereValid;
    if txs != [] {
      var tx := txs[|txs| - 1];
      OverlayBound(r, s, txs[..|txs| - 1]);
      assert tx in txs;
      if tx.inputs != [] && tx.signer != "" && tx.pubkey != "" { SomewhereBound(r, tx); }
    }
  }

  lemma BlockSigned(r: Rules, s: State, b: Block)
    requires RegistryBound(r, s.registry) && AddBlock(r, s, b, true).1
    ensures forall tx :: tx in b.txs && tx.inputs != [] && tx.signer != "" ==> WellSigned(r, tx)
  {
    hide AddBlock, CoinbaseOk, ApplyAll, Overlay, SomewhereValid, SignedOk, RegistryBound, WellSigned;
    BlockParts(r, s, b);
    BlockValid(r, s, b.txs);
    forall tx | tx in b.txs && tx.inputs != [] && tx.signer != "" ensures WellSigned(r, tx) {
      var i :| 0 <= i < |b.txs| && b.txs[i] == tx;
      assert i > 0;
      var before := b.txs[1..i];
      forall u | u in before ensures u in b.txs { }
      OverlayBound(r, s, before);
      SignedWell(r, s, tx, Overlay(s, before));
    }
  }

  lemma BlockParts(r: Rules, s: State, b: Block)
    requires AddBlock(r, s, b, true).1
    ensures SignaturesOk(r, s, b.txs) && b.txs != [] && b.txs[0].inputs == [] && ApplyAll(r, s, b.txs).Some?
  {
    hide StakingOk, ShieldedBlockOk, SnapAll, SignaturesOk, ApplyAll, Slash, Seal, HeaderOk, MaxMintable, Subsidy, Fees,
        Paid, Minted, OutputsOk;
  }

  lemma SignedWell(r: Rules, s: State, tx: Tx, overlay: map<string, string>)
    requires SignedOk(r, s, tx, overlay) && RegistryBound(r, s.registry) && RegistryBound(r, overlay)
    requires tx.inputs != [] && tx.signer != ""
    ensures WellSigned(r, tx)
  {
    var k := if tx.pubkey == "" && tx.signer in overlay then Some(overlay[tx.signer]) else PubkeyOf(r, s, tx);
    assert r.binds(tx.signer, k.value) && r.sigOk(k.value, tx);
  }

  lemma ApplyTxBound(r: Rules, s: State, tx: Tx)
    requires RegistryBound(r, s.registry) && ApplyTx(r, s, tx).Some?
    ensures RegistryBound(r, ApplyTx(r, s, tx).value.registry)
  {
    hide ValidTx, Spend, Create;
    var p := Spend(s, tx.inputs).value;
    SpendFacts(s, tx.inputs);
    CreateFacts(r, p.0, tx, r.txid(tx), |tx.outputs|, p.1);
    if tx.inputs != [] && tx.signer != "" && tx.pubkey != "" { KeyBound(r, s, tx); }
  }

  lemma {:induction false} ApplyAllBound(r: Rules, s: State, txs: seq<Tx>)
    requires RegistryBound(r, s.registry) && ApplyAll(r, s, txs).Some?
    ensures RegistryBound(r, ApplyAll(r, s, txs).value.registry)
    decreases |txs|
  {
    hide ApplyTx, RegistryBound;
    if txs != [] {
      ApplyAllBound(r, s, txs[..|txs| - 1]);
      ApplyTxBound(r, ApplyAll(r, s, txs[..|txs| - 1]).value, txs[|txs| - 1]);
    }
  }

  lemma {:induction false} SlashRegistry(s: State, es: seq<Evidence>)
    ensures Slash(s, es).registry == s.registry
    decreases |es|
  {
    if es != [] { SlashRegistry(s, es[..|es| - 1]); }
  }

  lemma {:induction false} ReplaySigned(r: Rules, bs: seq<Block>)
    requires Accepted(r, bs)
    ensures RegistryBound(r, Replay(r, bs).registry)
    ensures forall tx :: tx in AllTxs(bs) && tx.inputs != [] && tx.signer != "" ==> WellSigned(r, tx)
  {
    hide AddBlock, RegistryBound, WellSigned, ApplyAll, Slash, CoinbaseOk;
    if |bs| == 1 {
      GenesisTxs(r, bs);
      assert RegistryBound(r, Reset(r).registry) by { NoKeys(r); }
    } else {
      var front, b := bs[..|bs| - 1], bs[|bs| - 1];
      var s := Replay(r, front);
      ReplaySigned(r, front);
      BlockSigned(r, s, b);
      AddBlockShape(r, s, b, true);
      ApplyAllBound(r, s, b.txs);
      SlashRegistry(ApplyAll(r, s, b.txs).value.(fees := Fees(b.txs[1..])), b.slashes);
    }
  }

  lemma NoKeys(r: Rules)
    ensures RegistryBound(r, Reset(r).registry)
  {
  }

  /** Over every run, whoever spends as a signer has signed, under a key that belongs to that
      name. */
  lemma SpendersSign(r: Rules, es: seq<Event>)
    ensures forall tx :: tx in AllTxs(Run(r, es).blocks) && tx.inputs != [] && tx.signer != "" ==> WellSigned(r, tx)
  {
    hide Run, Replay, Accepted, AllTxs, WellSigned;
    RunReplays(r, es);
    ReplaySigned(r, Run(r, es).blocks);
  }

  // ---------------------------------------------------------------------------- registry

  predicate Brings(tx: Tx, a: string) { tx.inputs != [] && tx.signer == a != "" && tx.pubkey != "" }

  /** The key of the first transaction that brings one for `a`. */
  function FirstBrought(txs: seq<Tx>, a: string): Option<string> {
    if txs == [] then None
    else
      var before := FirstBrought(txs[..|txs| - 1], a);
      if before.Some? then before
      else if Brings(txs[|txs| - 1], a) then Some(txs[|txs| - 1].pubkey) else None
  }

  ghost predicate RegistryFollows(s: State, txs: seq<Tx>) {
    forall a :: FirstBrought(txs, a) == if a in s.registry then Some(s.registry[a]) else None
  }

  lemma RegistryStep(r: Rules, s: State, txs: seq<Tx>, tx: Tx)
    requires RegistryFollows(s, txs) && ApplyTx(r, s, tx).Some?
    ensures RegistryFollows(ApplyTx(r, s, tx).value, txs + [tx])
  {
    hide ValidTx, Spend, Create;
    var p, t := Spend(s, tx.inputs).value, ApplyTx(r, s, tx).value;
    SpendFacts(s, tx.inputs);
    CreateFacts(r, p.0, tx, r.txid(tx), |tx.outputs|, p.1);
    assert (txs + [tx])[..|txs|] == txs;
    forall a ensures FirstBrought(txs + [tx], a) == if a in t.registry then Some(t.registry[a]) else None {
      assert FirstBrought(txs, a) == if a in s.registry then Some(s.registry[a]) else None;
    }
  }

  lemma {:induction false} RegistryBlock(r: Rules, s: State, past: seq<Tx>, txs: seq<Tx>)
    requires RegistryFollows(s, past) && ApplyAll(r, s, txs).Some?
    ensures RegistryFollows(ApplyAll(r, s, txs).value, past + txs)
    decreases |txs|
  {
    hide ApplyTx, RegistryFollows;
    if txs == [] {
      assert past + txs == past;
    } else {
      var front, last := txs[..|txs| - 1], txs[|txs| - 1];
      RegistryBlock(r, s, past, front);
      RegistryStep(r, ApplyAll(r, s, front).value, past + front, last);
      assert past + txs == past + front + [last];
    }
  }

  lemma {:induction false} ReplayRegistry(r: Rules, bs: seq<Block>)
    requires Accepted(r, bs)
    ensures RegistryFollows(Replay(r, bs), AllTxs(bs))
  {
    hide AddBlock, RegistryFollows, ApplyAll, Slash, CoinbaseOk;
    if |bs| == 1 {
      GenesisTxs(r, bs);
      NothingBrought(r);
    } else {
      var front, b := bs[..|bs| - 1], bs[|bs| - 1];
      var s := Replay(r, front);
      ReplayRegistry(r, front);
      AddBlockShape(r, s, b, true);
      RegistryBlock(r, s, AllTxs(front), b.txs);
      SlashRegistry(ApplyAll(r, s, b.txs).value.(fees := Fees(b.txs[1..])), b.slashes);
      RegistryFrame(ApplyAll(r, s, b.txs).value, Replay(r, bs), AllTxs(bs));
    }
  }

  lemma RegistryFrame(s: State, t: State, txs: seq<Tx>)
    requires RegistryFollows(s, txs) && t.registry == s.registry
    ensures RegistryFollows(t, txs)
  {
    hide FirstBrought;
  }

  lemma NothingBrought(r: Rules)
    ensures RegistryFollows(Reset(r), [])
  {
  }

  /** Over every run the registry holds, for every name, the key of the first transaction of
      the chain that brought one, and no other. */
  lemma FirstKeyWins(r: Rules, es: seq<Event>)
    ensures var s := Run(r, es);
            forall a :: FirstBrought(AllTxs(s.blocks), a) == if a in s.registry then Some(s.registry[a]) else None
  {
    hide Run, Replay, Accepted, AllTxs, FirstBrought;
    RunReplays(r, es);
    ReplayRegistry(r, Run(r, es).blocks);
  }
}
