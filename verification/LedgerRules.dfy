/** The rules of the ledger written out: exactly which transactions apply, and exactly which
    blocks are added. */
module LedgerRules {
  import opened Basics
  import opened Seqs
  import opened Sums
  import opened Text
  import opened Emission
  import opened Ledger
  import opened LedgerInvariant
  import opened LedgerSafety
  import opened Chain
  import opened ChainRun
  import Mining
  import Staking
  import CommitmentTree
  import Shielded

  // ------------------------------------------------------------------------ amounts

  lemma {:induction false} FeesAdd(a: seq<Tx>, b: seq<Tx>)
    ensures Fees(a + b) == Fees(a) + Fees(b)
    decreases |b|
  {
    if b == [] {
      assert a + b == a;
    } else {
      FeesAdd(a, b[..|b| - 1]);
      assert (a + b)[..|a + b| - 1] == a + b[..|b| - 1];
    }
  }

  lemma {:induction false} WorthAdds(utxos: map<string, Utxo>, a: seq<Input>, b: seq<Input>)
    ensures Worth(utxos, a + b) == Worth(utxos, a) + Worth(utxos, b)
    decreases |b|
  {
    hide Key;
    if b == [] {
      assert a + b == a;
    } else {
      WorthAdds(utxos, a, b[..|b| - 1]);
      assert (a + b)[..|a + b| - 1] == a + b[..|b| - 1];
    }
  }

  /** What outputs pay, inputs are worth and transactions give in fees: the sum over the list,
      whatever its order. */
  lemma SumsAre(utxos: map<string, Utxo>, o: Output, x: Input, tx: Tx, outs: seq<Output>, ins: seq<Input>, txs: seq<Tx>)
    ensures Paid([]) == 0 && Paid([o] + outs) == o.amount + Paid(outs) && Paid(outs + [o]) == Paid(outs) + o.amount
    ensures Fees([]) == 0 && Fees([tx] + txs) == tx.fee + Fees(txs) && Fees(txs + [tx]) == Fees(txs) + tx.fee
    ensures var k := Outpoint(x.txid, x.index);
            var w := if k in utxos then utxos[k].amount else 0;
            Worth(utxos, []) == 0 && Worth(utxos, [x] + ins) == w + Worth(utxos, ins) == Worth(utxos, ins + [x])
  {
    hide Outpoint;
    assert [o][..0] == [] && [x][..0] == [] && [tx][..0] == [];
    Mining.PaidSum([o], outs);
    Mining.PaidSum(outs, [o]);
    FeesAdd([tx], txs);
    FeesAdd(txs, [tx]);
    WorthAdds(utxos, [x], ins);
    WorthAdds(utxos, ins, [x]);
  }

  // ------------------------------------------------------------------ a transaction

  predicate WellPaid(outs: seq<Output>) {
    (forall o :: o in outs ==> o.to != "" && o.amount > 0) && Paid(outs) < 0x1_0000_0000_0000_0000
  }

  /** The shielded part parses, matches the transaction and passes the pool's check. */
  predicate ShieldedFine(r: Rules, s: State, tx: Tx, pending: set<string>) {
    && r.shieldedOn && r.parse(tx.shielded).Some?
    && Shielded.Check(s.pool, r.parse(tx.shielded).value.bundle, pending) == Shielded.Fine
    && (tx.inputs == [] ==>
          && tx.signer == "" && tx.signature == "" && tx.pubkey == ""
          && r.parse(tx.shielded).value.vpubIn == 0 && r.parse(tx.shielded).value.bundle.nullifiers != [])
  }

  /** What goes in covers what comes out; with a shielded part, exactly. */
  predicate Adds(r: Rules, tx: Tx, worth: nat) {
    if tx.shielded == "" then worth >= Paid(tx.outputs) + tx.fee
    else
      && r.parse(tx.shielded).Some?
      && worth + r.parse(tx.shielded).value.vpubOut == Paid(tx.outputs) + tx.fee + r.parse(tx.shielded).value.vpubIn
  }

  /** Every input is an output that is there, unspent, not frozen and named once. */
  predicate Spendable(s: State, ins: seq<Input>) {
    && (forall i, j :: 0 <= i < j < |ins| ==>
          Outpoint(ins[i].txid, ins[i].index) != Outpoint(ins[j].txid, ins[j].index))
    && (forall i :: 0 <= i < |ins| ==>
          var k := Outpoint(ins[i].txid, ins[i].index);
          k in s.utxos && !s.utxos[k].spent && s.utxos[k].spendable <= Height(s) + 1)
  }

  /** A signer who owns every input, has a known key and uses a nonce above the last. */
  predicate BySigner(r: Rules, s: State, tx: Tx) {
    && tx.signature != "" && (r.strictPq ==> |tx.signature| >= 3 && tx.signature[..3] == "pq=")
    && (if tx.pubkey != "" then r.binds(tx.signer, tx.pubkey) else tx.signer in s.registry)
    && (tx.signer in s.nonces ==> tx.nonce > s.nonces[tx.signer])
    && forall i :: 0 <= i < |tx.inputs| ==>
         var k := Outpoint(tx.inputs[i].txid, tx.inputs[i].index);
         && tx.inputs[i].unlock == "" && k in s.utxos && !s.utxos[k].spent
         && (if s.utxos[k].owner == "@stake" then k in s.tickets && s.tickets[k].owner == tx.signer
             else s.utxos[k].owner == tx.signer)
  }

  /** No signer, but a witness that satisfies the script of every input. */
  predicate ByScript(r: Rules, s: State, tx: Tx) {
    && tx.signature == "" && tx.pubkey == ""
    && forall i :: 0 <= i < |tx.inputs| ==>
         var k := Outpoint(tx.inputs[i].txid, tx.inputs[i].index);
         && k in s.utxos && !s.utxos[k].spent
         && r.scriptOk(s.utxos[k].owner, tx.inputs[i].unlock, tx, Height(s) + 1, s.utxos[k].height)
  }

  /** New stake: from the staking height on, of at least the minimum, and not out of stake. */
  predicate StakeFine(r: Rules, s: State, tx: Tx) {
    (exists o :: o in tx.outputs && o.to == "@stake") ==>
      && Height(s) + 1 >= r.stakeFrom && (forall o :: o in tx.outputs && o.to == "@stake" ==> o.amount >= r.stakeMin)
      && forall i :: 0 <= i < |tx.inputs| ==> Outpoint(tx.inputs[i].txid, tx.inputs[i].index) !in s.tickets
  }

  /** The rules for a transaction inside a block. */
  predicate TxRules(r: Rules, s: State, tx: Tx) {
    && WellPaid(tx.outputs) && (tx.shielded != "" ==> ShieldedFine(r, s, tx, {}))
    && if tx.inputs != [] then
         && (tx.outputs == [] ==> tx.shielded != "") && tx.fee >= r.minFee
         && (if tx.signer == "" then ByScript(r, s, tx) else BySigner(r, s, tx))
         && Spendable(s, tx.inputs) && StakeFine(r, s, tx)
         && Worth(s.utxos, tx.inputs) < 0x1_0000_0000_0000_0000
         && Paid(tx.outputs) + tx.fee < 0x1_0000_0000_0000_0000 && Adds(r, tx, Worth(s.utxos, tx.inputs))
       else if tx.shielded != "" then tx.fee >= r.minFee && Adds(r, tx, 0)
       else tx.signer == "" && tx.signature == "" && forall o :: o in tx.outputs ==> o.to != "@stake"
  }

  lemma SpendableIff(s: State, ins: seq<Input>)
    ensures Spendable(s, ins) && Worth(s.utxos, ins) <= MAX64 <==> InputsOk(s, ins, Height(s) + 1)
  {
    hide Outpoint, Worth, Height;
    var ks := Keys(ins);
    assert forall i :: 0 <= i < |ins| ==> ks[i] == Outpoint(ins[i].txid, ins[i].index);
    if InputsOk(s, ins, Height(s) + 1) {
      forall i | 0 <= i < |ins| ensures Live(s.utxos, Outpoint(ins[i].txid, ins[i].index), Height(s) + 1) {
        assert ins[i] in ins;
      }
      forall i, j | 0 <= i < j < |ins|
        ensures Outpoint(ins[i].txid, ins[i].index) != Outpoint(ins[j].txid, ins[j].index)
      {
        assert ks[i] != ks[j];
      }
    }
    if Spendable(s, ins) {
      forall x | x in ins ensures Live(s.utxos, Key(x), Height(s) + 1) { var i :| 0 <= i < |ins| && ins[i] == x; }
    }
  }

  lemma AuthorisedIff(r: Rules, s: State, tx: Tx)
    ensures Authorised(r, s, tx, false) <==> if tx.signer == "" then ByScript(r, s, tx) else BySigner(r, s, tx)
  {
    hide Outpoint, Height;
    if Authorised(r, s, tx, false) {
      forall i | 0 <= i < |tx.inputs| ensures tx.inputs[i] in tx.inputs { }
    }
    if tx.signer != "" && BySigner(r, s, tx) {
      forall x | x in tx.inputs ensures x.unlock == "" && Owns(s, tx.signer, Key(x)) {
        var i :| 0 <= i < |tx.inputs| && tx.inputs[i] == x;
      }
    }
    if tx.signer == "" && ByScript(r, s, tx) {
      forall x | x in tx.inputs
        ensures Key(x) in s.utxos && !s.utxos[Key(x)].spent &&
                r.scriptOk(s.utxos[Key(x)].owner, x.unlock, tx, Height(s) + 1, s.utxos[Key(x)].height)
      {
        var i :| 0 <= i < |tx.inputs| && tx.inputs[i] == x;
      }
    }
  }

  lemma StakeIff(r: Rules, s: State, tx: Tx)
    ensures StakeOutputsOk(r, s, tx) <==> StakeFine(r, s, tx)
  {
    hide Outpoint, Height;
    if StakeOutputsOk(r, s, tx) {
      forall i | 0 <= i < |tx.inputs| ensures tx.inputs[i] in tx.inputs { }
    }
    if StakeFine(r, s, tx) {
      forall o, x | o in tx.outputs && o.to == STAKE && x in tx.inputs ensures Key(x) !in s.tickets {
        var i :| 0 <= i < |tx.inputs| && tx.inputs[i] == x;
      }
    }
  }

  lemma ShieldedIff(r: Rules, s: State, tx: Tx, pending: set<string>)
    ensures ShieldedOk(r, s, tx, pending, false) <==> ShieldedFine(r, s, tx, pending)
    ensures ShieldedOk(r, s, tx, pending, true) <==> ShieldedFine(r, s, tx, pending) && r.proofOk(tx)
  {
    hide Shielded.Check;
  }

  /** A transaction is valid inside a block if and only if it obeys the rules. */
  lemma ValidIff(r: Rules, s: State, tx: Tx)
    ensures ValidTx(r, s, tx, true) <==> TxRules(r, s, tx)
  {
    hide Outpoint, Height, Paid, Worth, InputsOk, Authorised, StakeOutputsOk, ShieldedOk, Spendable, ByScript, BySigner,
        StakeFine, ShieldedFine;
    SpendableIff(s, tx.inputs);
    AuthorisedIff(r, s, tx);
    StakeIff(r, s, tx);
    ShieldedIff(r, s, tx, {});
  }

  /** What is asked of a transaction outside a block besides: its signature and its shielded
      proof are checked, and one that takes nothing in pays something, within the first reward. */
  predicate PoolRules(r: Rules, s: State, tx: Tx) {
    && TxRules(r, s, tx) && (tx.shielded != "" ==> r.proofOk(tx))
    && (tx.inputs != [] && tx.signer != "" && tx.pubkey != "" ==> r.sigOk(tx.pubkey, tx))
    && (tx.inputs != [] && tx.signer in s.registry && tx.signer != "" && tx.pubkey == "" ==>
          r.sigOk(s.registry[tx.signer], tx))
    && (tx.inputs == [] && tx.shielded == "" ==>
          tx.outputs != [] && Paid(tx.outputs) <= (r.schedule.reward + tx.fee) % 0x1_0000_0000_0000_0000)
  }

  lemma CryptoIff(r: Rules, s: State, tx: Tx)
    ensures Authorised(r, s, tx, true) <==>
            && Authorised(r, s, tx, false)
            && (tx.signer != "" && tx.pubkey != "" ==> r.sigOk(tx.pubkey, tx))
            && (tx.signer in s.registry && tx.signer != "" && tx.pubkey == "" ==> r.sigOk(s.registry[tx.signer], tx))
  {
    hide Owns, ScriptsOk, PqPrefix, Key;
  }

  /** A transaction is valid for the next block, before it is in one, if and only if it obeys
      these rules. */
  lemma PooledIff(r: Rules, s: State, tx: Tx)
    ensures ValidTx(r, s, tx, false) <==> PoolRules(r, s, tx)
  {
    hide Outpoint, Height, Paid, Worth, InputsOk, Authorised, StakeOutputsOk, ShieldedOk, Spendable, ByScript, BySigner,
        StakeFine, ShieldedFine;
    SpendableIff(s, tx.inputs);
    AuthorisedIff(r, s, tx);
    CryptoIff(r, s, tx);
    StakeIff(r, s, tx);
    ShieldedIff(r, s, tx, {});
  }

  // ------------------------------------------------------------------------ applying it

  /** The index after paying the outputs, if no entry leaves 64 bits on the way. */
  function Credited(index: map<string, nat>, outs: seq<Output>): Option<map<string, nat>> {
    if outs == [] then Some(index)
    else
      var m, o := Credited(index, outs[..|outs| - 1]), outs[|outs| - 1];
      if m.None? || Get(m.value, o.to) + o.amount >= 0x1_0000_0000_0000_0000 then None
      else Some(m.value[o.to := Get(m.value, o.to) + o.amount])
  }

  lemma {:induction false} CreateIff(r: Rules, s: State, tx: Tx, txid: string, n: nat, unlocking: bool)
    requires n <= |tx.outputs|
    ensures var c, m := Create(r, s, tx, txid, n, unlocking), Credited(s.index, tx.outputs[..n]);
            (c.Some? <==> m.Some?) && (c.Some? ==> c.value.index == m.value)
  {
    hide CreateOne;
    if n > 0 {
      CreateIff(r, s, tx, txid, n - 1, unlocking);
      assert tx.outputs[..n][..n - 1] == tx.outputs[..n - 1];
      var p := Create(r, s, tx, txid, n - 1, unlocking);
      if p.Some? { OneCredited(r, p.value, tx, txid, n - 1, unlocking); }
    }
  }

  lemma OneCredited(r: Rules, s: State, tx: Tx, txid: string, i: nat, unlocking: bool)
    requires i < |tx.outputs|
    ensures var o := tx.outputs[i];
            CreateOne(r, s, tx, txid, i, unlocking).index == s.index[o.to := Get(s.index, o.to) + o.amount]
  {
  }

  lemma {:induction false} SpendWorks(s: State, ins: seq<Input>)
    requires Spendable(s, ins)
    ensures Spend(s, ins).Some?
    decreases |ins|
  {
    hide Outpoint, SpendOne;
    if ins != [] {
      var n := |ins| - 1;
      assert Spendable(s, ins[..n]);
      SpendWorks(s, ins[..n]);
      SpendFacts(s, ins[..n]);
      SpendTouches(s, ins[..n]);
      var k := Key(ins[n]);
      forall j | 0 <= j < n ensures Keys(ins[..n])[j] != k { }
    }
  }

  lemma {:induction false} SpendTouches(s: State, ins: seq<Input>)
    requires Spend(s, ins).Some?
    ensures forall k :: k in s.utxos && k !in Keys(ins) ==>
            k in Spend(s, ins).value.0.utxos && Spend(s, ins).value.0.utxos[k] == s.utxos[k]
    decreases |ins|
  {
    hide Key;
    if ins != [] {
      SpendTouches(s, ins[..|ins| - 1]);
      KeysSnoc(ins);
    }
  }

  /** The index once the inputs are taken out of it. */
  function Debited(s: State, tx: Tx): map<string, nat>
    requires Spend(s, tx.inputs).Some?
  {
    Spend(s, tx.inputs).value.0.index
  }

  /** A transaction applies if and only if it obeys the rules and every balance it raises stays
      within 64 bits. */
  lemma AppliesIff(r: Rules, s: State, tx: Tx)
    ensures ApplyTx(r, s, tx).Some? <==>
            && TxRules(r, s, tx) && Spend(s, tx.inputs).Some? && Credited(Debited(s, tx), tx.outputs).Some?
    ensures TxRules(r, s, tx) ==> Spend(s, tx.inputs).Some?
  {
    hide ValidTx, TxRules, Spend, Create, Credited;
    ValidIff(r, s, tx);
    if TxRules(r, s, tx) { RulesSpend(r, s, tx); }
    if Spend(s, tx.inputs).Some? {
      var p := Spend(s, tx.inputs).value;
      CreateIff(r, p.0, tx, r.txid(tx), |tx.outputs|, p.1);
      assert tx.outputs[..|tx.outputs|] == tx.outputs;
    }
  }

  lemma RulesSpend(r: Rules, s: State, tx: Tx)
    requires TxRules(r, s, tx)
    ensures Spend(s, tx.inputs).Some?
  {
    hide Spendable, ByScript, BySigner, StakeFine, ShieldedFine, Worth, Paid;
    if tx.inputs != [] { SpendWorks(s, tx.inputs); }
  }

  // --------------------------------------------------------------- the check before applying

  /** `p` agrees with `a` on outputs and balances, and freezes none for longer. */
  predicate Shadows(a: State, p: State) {
    && p.utxos.Keys == a.utxos.Keys && p.index == a.index
    && forall k :: k in a.utxos ==>
         && p.utxos[k].owner == a.utxos[k].owner && p.utxos[k].amount == a.utxos[k].amount
         && p.utxos[k].spent == a.utxos[k].spent && p.utxos[k].spendable <= a.utxos[k].spendable
  }

  lemma {:induction false} ShadowSpend(a: State, p: State, ins: seq<Input>)
    requires Shadows(a, p) && Spend(a, ins).Some?
    ensures Spend(p, ins).Some? && Shadows(Spend(a, ins).value.0, Spend(p, ins).value.0)
    decreases |ins|
  {
    hide Key;
    if ins != [] { ShadowSpend(a, p, ins[..|ins| - 1]); }
  }

  lemma {:induction false} ShadowCreate(r: Rules, a: State, p: State, tx: Tx, txid: string, n: nat, unlocking: bool)
    requires Shadows(a, p) && n <= |tx.outputs| && Create(r, a, tx, txid, n, unlocking).Some?
    ensures Create(r, p, tx, txid, n, false).Some?
    ensures Shadows(Create(r, a, tx, txid, n, unlocking).value, Create(r, p, tx, txid, n, false).value)
  {
    hide CreateOne, Shadows;
    if n > 0 {
      ShadowCreate(r, a, p, tx, txid, n - 1, unlocking);
      ShadowOne(r, Create(r, a, tx, txid, n - 1, unlocking).value, Create(r, p, tx, txid, n - 1, false).value, tx, txid,
                n - 1, unlocking);
    }
  }

  lemma ShadowOne(r: Rules, a: State, p: State, tx: Tx, txid: string, i: nat, unlocking: bool)
    requires Shadows(a, p) && i < |tx.outputs|
    ensures p.index == a.index
    ensures Shadows(CreateOne(r, a, tx, txid, i, unlocking), CreateOne(r, p, tx, txid, i, false))
  {
    hide Outpoint, TicketKey, Height;
  }

  lemma {:induction false} ShadowWorth(a: State, p: State, ins: seq<Input>)
    requires Shadows(a, p)
    ensures Worth(p.utxos, ins) == Worth(a.utxos, ins)
    decreases |ins|
  {
    hide Key;
    if ins != [] { ShadowWorth(a, p, ins[..|ins| - 1]); }
  }

  lemma ShadowTx(r: Rules, a: State, p: State, tx: Tx, emptyOk: bool, h: nat)
    requires Shadows(a, p) && ApplyTx(r, a, tx).Some? && h == Height(a) + 1
    requires tx.outputs == [] && tx.shielded == "" ==> emptyOk
    ensures SnapTx(r, p, tx, emptyOk, h).Some? && Shadows(ApplyTx(r, a, tx).value, SnapTx(r, p, tx, emptyOk, h).value)
  {
    hide Spend, Create, Paid, Worth, Authorised, StakeOutputsOk, ShieldedOk, Height, Key, Shadows, Balanced, OutputsOk;
    var q := Spend(a, tx.inputs).value;
    ShadowSpend(a, p, tx.inputs);
    ShadowWorth(a, p, tx.inputs);
    NothingSpent(a);
    ShadowCreate(r, q.0, Spend(p, tx.inputs).value.0, tx, r.txid(tx), |tx.outputs|, q.1);
    forall x | x in tx.inputs ensures Live(p.utxos, Key(x), h) { ShadowLive(a, p, Key(x), h); }
    ShadowFinish(r, Create(r, q.0, tx, r.txid(tx), |tx.outputs|, q.1).value, tx,
                 Create(r, Spend(p, tx.inputs).value.0, tx, r.txid(tx), |tx.outputs|, false).value);
  }

  lemma ShadowLive(a: State, p: State, k: string, h: nat)
    requires Shadows(a, p) && Live(a.utxos, k, h)
    ensures Live(p.utxos, k, h)
  {
  }

  lemma ShadowFinish(r: Rules, a: State, tx: Tx, p: State)
    requires Shadows(a, p)
    ensures Shadows(Finish(r, a, tx, r.txid(tx)), p)
  {
  }

  lemma {:induction false} ShadowAll(r: Rules, s: State, txs: seq<Tx>, total: nat, h: nat)
    requires ApplyAll(r, s, txs).Some? && h == Height(s) + 1
    requires forall i :: 0 <= i < |txs| && txs[i].outputs == [] && txs[i].shielded == "" ==> i == 0 && total == 0
    ensures SnapAll(r, s, txs, total, h).Some? && Shadows(ApplyAll(r, s, txs).value, SnapAll(r, s, txs, total, h).value)
    ensures ApplyAll(r, s, txs).value.blocks == s.blocks
    decreases |txs|
  {
    hide ApplyTx, SnapTx, Height, Shadows;
    if txs == [] {
      ShadowsSelf(s);
    } else {
      var front, last := txs[..|txs| - 1], txs[|txs| - 1];
      ShadowAll(r, s, front, total, h);
      var a := ApplyAll(r, s, front).value;
      assert Height(a) == Height(s) by { SameTip(s, a); }
      ApplyTxFacts(r, a, last);
      ShadowTx(r, a, SnapAll(r, s, front, total, h).value, last, |txs| == 1 && total == 0, h);
    }
  }

  lemma ShadowsSelf(s: State)
    ensures Shadows(s, s)
  {
  }

  lemma SameTip(s: State, t: State)
    requires s.blocks == t.blocks
    ensures Height(s) == Height(t)
  {
  }

  /** The pass over a copy that comes before a block is applied never refuses a block that
      would apply. */
  lemma SnapRedundant(r: Rules, s: State, b: Block)
    requires CoinbaseOk(r, s, b) && ApplyAll(r, s, b.txs).Some? && b.header.height == Height(s) + 1
    ensures SnapAll(r, s, b.txs, Paid(b.txs[0].outputs), b.header.height).Some?
  {
    hide ApplyAll, SnapAll, Paid, Fees, Minted, MaxMintable, Subsidy, Height;
    forall i | 0 <= i < |b.txs| && b.txs[i].outputs == [] && b.txs[i].shielded == ""
      ensures i == 0 && Paid(b.txs[0].outputs) == 0
    {
      if i > 0 { SpendsPay(r, s, b.txs, i); } else { NonePaid(); }
    }
    ShadowAll(r, s, b.txs, Paid(b.txs[0].outputs), b.header.height);
  }

  lemma NonePaid()
    ensures Paid([]) == 0
  {
  }

  lemma {:induction false} SpendsPay(r: Rules, s: State, txs: seq<Tx>, i: nat)
    requires ApplyAll(r, s, txs).Some? && i < |txs| && txs[i].inputs != [] && txs[i].shielded == ""
    ensures txs[i].outputs != []
    decreases |txs|
  {
    hide Spend, Create, Authorised, StakeOutputsOk, ShieldedOk, InputsOk, OutputsOk, Balanced;
    if i < |txs| - 1 {
      assert txs[..|txs| - 1][i] == txs[i];
      SpendsPay(r, s, txs[..|txs| - 1], i);
    }
  }

  // ------------------------------------------------------------------------------ blocks

  /** The header: on top of the tip, not earlier, in time, at the target due, with work done. */
  predicate HeaderRules(r: Rules, s: State, b: Block, timely: bool) {
    && s.blocks != []
    && var tip, h := s.blocks[|s.blocks| - 1].header, b.header;
       && h.height == tip.height + 1 && h.previous == r.headerHash(tip) && h.root == r.commitment(b)
       && h.timestamp >= tip.timestamp && timely && h.target == s.target
       && h.target >= r.minTarget && h.target <= r.maxTarget && r.meets(r.headerHash(h), h.target)
  }

  /** The coinbase comes first and alone, spends nothing and pays at most the subsidy and the
      fees; what it pays beyond the fees is within what may still be minted. */
  predicate CoinbaseRules(r: Rules, s: State, b: Block) {
    && b.txs != [] && b.txs[0].inputs == [] && b.txs[0].shielded == "" && WellPaid(b.txs[0].outputs)
    && (forall i :: 1 <= i < |b.txs| ==> b.txs[i].inputs != [] || b.txs[i].shielded != "")
    && var paid, fees, sub := Paid(b.txs[0].outputs), Fees(b.txs[1..]), Subsidy(r.schedule, b.header.height);
       var left := if r.schedule.maxSupply > s.emitted then r.schedule.maxSupply - s.emitted else 0;
       && sub + fees < 0x1_0000_0000_0000_0000 && paid <= sub + fees
       && (paid > fees ==> paid - fees <= sub && paid - fees <= left)
       && (b.txs[0].outputs == [] ==> r.allowZeroReward || sub == 0 || left == 0)
  }

  /** A vote: on the parent, by a ticket drawn for it, signed with the ticket's key or, if it
      has none, the key registered for its owner. */
  predicate VoteRules(r: Rules, s: State, b: Block, v: Vote) {
    && b.header.height >= 1 && v.height == b.header.height - 1 && v.hash == b.header.previous
    && v.ticket in SelectedAt(r, s, b.header.height - 1, b.header.previous) && SignedBy(r, s, v)
  }

  predicate SignedBy(r: Rules, s: State, v: Vote) {
    && v.ticket in s.tickets
    && var t := s.tickets[v.ticket];
       r.voteOk(if t.pubkey != "" then t.pubkey else if t.owner in s.registry then s.registry[t.owner] else "", v)
  }

  /** Two different signed votes of one ticket for one height. */
  predicate DoubleVote(r: Rules, s: State, e: Evidence) {
    && e.a.ticket == e.b.ticket && e.a.height == e.b.height && (e.a.hash != e.b.hash || e.a.approve != e.b.approve)
    && SignedBy(r, s, e.a) && SignedBy(r, s, e.b)
  }

  /** The approving votes, in order. */
  function Approving(vs: seq<Vote>): seq<Vote> {
    if vs == [] then [] else (if vs[0].approve then [vs[0]] else []) + Approving(vs[1..])
  }

  /** Votes and evidence: none before staking starts; then valid and of different tickets, with
      a quorum once enough tickets are live, and each approving voter paid the same share of
      the pot at the end of the coinbase. */
  predicate StakingRules(r: Rules, s: State, b: Block)
    requires b.txs != [] && b.header.height >= 1
  {
    var h, ap, outs := b.header.height, Approving(b.votes), b.txs[0].outputs;
    if h < r.stakeFrom then b.votes == [] && b.slashes == []
    else
      && (forall i :: 0 <= i < |b.slashes| ==> DoubleVote(r, s, b.slashes[i]))
      && (forall i, j :: 0 <= i < j < |b.slashes| ==> b.slashes[i].a.ticket != b.slashes[j].a.ticket)
      && (forall i :: 0 <= i < |b.votes| ==> VoteRules(r, s, b, b.votes[i]))
      && (forall i, j :: 0 <= i < j < |b.votes| ==> b.votes[i].ticket != b.votes[j].ticket)
      && (|EligibleAt(r, s, h - 1)| >= r.minLive ==> |ap| >= r.quorum)
      && var per := Staking.PerVote(Pot(r, s, h, b.txs[1..]), r.rewardBps, |ap|);
         per > 0 ==>
           && |outs| >= |ap|
           && forall k :: 0 <= k < |ap| && ap[k].ticket in s.tickets ==>
                outs[|outs| - |ap| + k] == Output(s.tickets[ap[k].ticket].owner, per)
  }

  lemma HeaderIff(r: Rules, s: State, b: Block, timely: bool)
    ensures HeaderOk(r, s, b, timely) <==> HeaderRules(r, s, b, timely)
  {
  }

  lemma CoinbaseIff(r: Rules, s: State, b: Block)
    ensures CoinbaseOk(r, s, b) <==> CoinbaseRules(r, s, b)
  {
    hide Paid, Fees, Subsidy;
  }

  lemma SignedIff(r: Rules, s: State, v: Vote)
    ensures VoteSigned(r, s, v) <==> SignedBy(r, s, v)
  {
  }

  lemma SlashIff(r: Rules, s: State, e: Evidence)
    ensures SlashOk(r, s, e) <==> DoubleVote(r, s, e)
  {
    hide VoteSigned, SignedBy;
    SignedIff(r, s, e.a);
    SignedIff(r, s, e.b);
  }

  lemma SlashesIff(r: Rules, s: State, es: seq<Evidence>)
    ensures ((forall e :: e in es ==> SlashOk(r, s, e)) && Distinct(SlashedIds(es))) <==>
            && (forall i :: 0 <= i < |es| ==> DoubleVote(r, s, es[i]))
            && (forall i, j :: 0 <= i < j < |es| ==> es[i].a.ticket != es[j].a.ticket)
  {
    hide SlashOk, DoubleVote;
    forall i | 0 <= i < |es| ensures SlashOk(r, s, es[i]) <==> DoubleVote(r, s, es[i]) { SlashIff(r, s, es[i]); }
    assert forall i :: 0 <= i < |es| ==> SlashedIds(es)[i] == es[i].a.ticket && es[i] in es;
    if forall i, j :: 0 <= i < j < |es| ==> es[i].a.ticket != es[j].a.ticket { assert Distinct(SlashedIds(es)); }
    if Distinct(SlashedIds(es)) {
      forall i, j | 0 <= i < j < |es| ensures es[i].a.ticket != es[j].a.ticket {
        assert SlashedIds(es)[i] != SlashedIds(es)[j];
      }
    }
  }

  lemma VotesIff(r: Rules, s: State, b: Block)
    requires b.header.height >= 1
    ensures var h, vs := b.header.height - 1, b.votes;
            VotesOk(r, s, vs, h, b.header.previous, SelectedAt(r, s, h, b.header.previous)) <==>
                && (forall i :: 0 <= i < |vs| ==> VoteRules(r, s, b, vs[i]))
                && (forall i, j :: 0 <= i < j < |vs| ==> vs[i].ticket != vs[j].ticket)
  {
    hide VoteSigned, SignedBy, SelectedAt;
    var h, vs := b.header.height - 1, b.votes;
    var sel, ids := SelectedAt(r, s, h, b.header.previous), VoterIds(vs);
    forall i | 0 <= i < |vs| ensures VoteSigned(r, s, vs[i]) <==> SignedBy(r, s, vs[i]) { SignedIff(r, s, vs[i]); }
    assert forall i :: 0 <= i < |vs| ==> ids[i] == vs[i].ticket && vs[i] in vs;
    if VotesOk(r, s, vs, h, b.header.previous, sel) {
      forall i, j | 0 <= i < j < |vs| ensures vs[i].ticket != vs[j].ticket { assert ids[i] != ids[j]; }
    }
    if (forall i :: 0 <= i < |vs| ==> VoteRules(r, s, b, vs[i])) &&
        (forall i, j :: 0 <= i < j < |vs| ==> vs[i].ticket != vs[j].ticket) {
      assert Distinct(ids);
      Mining.Pigeonhole(ids, sel);
    }
  }

  lemma {:induction false} ApprovingSnoc(vs: seq<Vote>, v: Vote)
    ensures Approving(vs + [v]) == Approving(vs) + if v.approve then [v] else []
  {
    if vs == [] {
      assert vs + [v] == [v] && [v][1..] == [] && Approving([]) == [];
    } else {
      ApprovingSnoc(vs[1..], v);
      assert (vs + [v])[1..] == vs[1..] + [v];
    }
  }

  lemma {:induction false} ApproversAre(s: State, vs: seq<Vote>)
    requires forall i :: 0 <= i < |vs| ==> vs[i].ticket in s.tickets
    ensures |Approvers(s, vs)| == |Approving(vs)|
    ensures forall k :: 0 <= k < |Approving(vs)| ==>
            Approving(vs)[k].ticket in s.tickets && Approvers(s, vs)[k] == s.tickets[Approving(vs)[k].ticket].owner
    decreases |vs|
  {
    hide Approving;
    if vs == [] {
      assert Approving([]) == [] by { NoneApproves(); }
    } else {
      var n := |vs| - 1;
      ApproversAre(s, vs[..n]);
      assert vs == vs[..n] + [vs[n]];
      ApprovingSnoc(vs[..n], vs[n]);
    }
  }

  lemma NoneApproves()
    ensures Approving([]) == []
  {
  }

  lemma StakingIff(r: Rules, s: State, b: Block)
    requires b.txs != [] && b.header.height >= 1
    ensures StakingOk(r, s, b) <==> StakingRules(r, s, b)
  {
    hide SelectedAt, EligibleAt, Pot, Approving, Approvers, VotesOk, SlashOk, DoubleVote, VoteRules, Distinct;
    SlashesIff(r, s, b.slashes);
    VotesIff(r, s, b);
    if forall i :: 0 <= i < |b.votes| ==> VoteRules(r, s, b, b.votes[i]) {
      forall i | 0 <= i < |b.votes| ensures b.votes[i].ticket in s.tickets { VoterKnown(r, s, b, b.votes[i]); }
      ApproversAre(s, b.votes);
      RewardsIff(r, s, b);
    }
  }

  lemma VoterKnown(r: Rules, s: State, b: Block, v: Vote)
    requires VoteRules(r, s, b, v)
    ensures v.ticket in s.tickets
  {
    hide SelectedAt;
  }

  lemma RewardsIff(r: Rules, s: State, b: Block)
    requires b.txs != []
    requires var ap, ow := Approving(b.votes), Approvers(s, b.votes);
             && |ow| == |ap|
             && forall k :: 0 <= k < |ap| ==> ap[k].ticket in s.tickets && ow[k] == s.tickets[ap[k].ticket].owner
    ensures var ap, outs := Approving(b.votes), b.txs[0].outputs;
            var per := Staking.PerVote(Pot(r, s, b.header.height, b.txs[1..]), r.rewardBps, |ap|);
            RewardsOk(r, s, b, Approvers(s, b.votes)) <==>
                (per > 0 ==>
                  && |outs| >= |ap|
                  && forall k :: 0 <= k < |ap| && ap[k].ticket in s.tickets ==>
                       outs[|outs| - |ap| + k] == Output(s.tickets[ap[k].ticket].owner, per))
  {
    hide Pot, Approving, Approvers;
  }

  /** The commitments and the nullifiers of one transaction. */
  function Notes(r: Rules, tx: Tx): seq<CommitmentTree.Hash> {
    if tx.shielded == "" then []
    else match r.parse(tx.shielded)
      case None => []
      case Some(p) => p.bundle.commitments
  }

  function Marks(r: Rules, tx: Tx): seq<string> {
    if tx.shielded == "" then []
    else match r.parse(tx.shielded)
      case None => []
      case Some(p) => p.bundle.nullifiers
  }

  /** No commitment comes twice, in one transaction or in two. */
  predicate NoteOnce(r: Rules, txs: seq<Tx>) {
    && (forall t :: 0 <= t < |txs| ==>
          forall i, j :: 0 <= i < j < |Notes(r, txs[t])| ==> Notes(r, txs[t])[i] != Notes(r, txs[t])[j])
    && (forall t, u :: 0 <= t < u < |txs| ==> forall c :: c in Notes(r, txs[t]) ==> c !in Notes(r, txs[u]))
  }

  lemma DistinctJoin<T>(a: seq<T>, b: seq<T>)
    ensures Distinct(a + b) <==> Distinct(a) && Distinct(b) && forall c :: c in a ==> c !in b
  {
    var all := a + b;
    if Distinct(all) {
      forall i, j | 0 <= i < j < |b| ensures b[i] != b[j] { assert all[|a| + i] != all[|a| + j]; }
      forall i, j | 0 <= i < j < |a| ensures a[i] != a[j] { assert all[i] != all[j]; }
      forall c | c in a ensures c !in b {
        var i :| 0 <= i < |a| && a[i] == c;
        forall j | 0 <= j < |b| ensures b[j] != c { assert all[i] != all[|a| + j]; }
      }
    } else {
      var i, j :| 0 <= i < j < |all| && all[i] == all[j];
      if j < |a| { assert a[i] == a[j]; }
      else if i >= |a| { assert b[i - |a|] == b[j - |a|]; }
      else { assert a[i] in a && b[j - |a|] in b; }
    }
  }

  lemma {:induction false} NotesAre(r: Rules, txs: seq<Tx>)
    ensures forall c :: c in Commitments(r, txs) <==> exists t :: 0 <= t < |txs| && c in Notes(r, txs[t])
    ensures Distinct(Commitments(r, txs)) <==> NoteOnce(r, txs)
    decreases |txs|
  {
    hide Distinct, Notes;
    if txs == [] {
      assert Distinct(Commitments(r, txs)) by { NothingTwice(r); }
    } else {
      var n := |txs| - 1;
      var front, last := txs[..n], Notes(r, txs[n]);
      NotesAre(r, front);
      NotesSnoc(r, txs);
      DistinctJoin(Commitments(r, front), last);
      NoteOnceSnoc(r, txs);
      forall c
        ensures (exists t :: 0 <= t < |txs| && c in Notes(r, txs[t])) <==>
                (exists t :: 0 <= t < n && c in Notes(r, front[t])) || c in last
      {
        if c in last { assert c in Notes(r, txs[n]); }
        if t :| 0 <= t < n && c in Notes(r, front[t]) { assert c in Notes(r, txs[t]); }
        if t :| 0 <= t < |txs| && c in Notes(r, txs[t]) { if t < n { assert c in Notes(r, front[t]); } }
      }
    }
  }

  lemma NothingTwice(r: Rules)
    ensures Distinct(Commitments(r, []))
  {
  }

  lemma NotesSnoc(r: Rules, txs: seq<Tx>)
    requires txs != []
    ensures Commitments(r, txs) == Commitments(r, txs[..|txs| - 1]) + Notes(r, txs[|txs| - 1])
  {
  }

  lemma NoteOnceSnoc(r: Rules, txs: seq<Tx>)
    requires txs != []
    ensures var n := |txs| - 1;
            NoteOnce(r, txs) <==>
            && NoteOnce(r, txs[..n]) && Distinct(Notes(r, txs[n]))
            && forall t :: 0 <= t < n ==> forall c :: c in Notes(r, txs[..n][t]) ==> c !in Notes(r, txs[n])
  {
    hide Notes;
    var n := |txs| - 1;
    if NoteOnce(r, txs) {
      forall t | 0 <= t < n ensures txs[..n][t] == txs[t] { }
    }
  }

  lemma MarksAre(r: Rules, txs: seq<Tx>)
    ensures Nullifiers(r, txs) == set t, n | 0 <= t < |txs| && n in Marks(r, txs[t]) :: n
  {
    forall n | n in Nullifiers(r, txs) ensures exists t :: 0 <= t < |txs| && n in Marks(r, txs[t]) {
      var tx :| tx in txs && tx.shielded != "" && r.parse(tx.shielded).Some? &&
        n in r.parse(tx.shielded).value.bundle.nullifiers;
      var t :| 0 <= t < |txs| && txs[t] == tx;
      assert n in Marks(r, txs[t]);
    }
    forall t, n | 0 <= t < |txs| && n in Marks(r, txs[t]) ensures n in Nullifiers(r, txs) { assert txs[t] in txs; }
  }

  /** The rules for the shielded parts of a block: each passes against the state before, with
      the nullifiers of the earlier ones taken and its proof good, and no commitment comes
      twice. */
  predicate ShieldedRules(r: Rules, s: State, txs: seq<Tx>) {
    && (forall i :: 0 <= i < |txs| && txs[i].shielded != "" ==>
          && ShieldedFine(r, s, txs[i], set t, n | 0 <= t < i && n in Marks(r, txs[..i][t]) :: n)
          && r.proofOk(txs[i]))
    && NoteOnce(r, txs)
  }

  lemma ShieldedBlockIff(r: Rules, s: State, txs: seq<Tx>)
    ensures ShieldedBlockOk(r, s, txs) <==> ShieldedRules(r, s, txs)
  {
    hide ShieldedOk, ShieldedFine, Nullifiers, Commitments, Marks, NoteOnce, Distinct;
    NotesAre(r, txs);
    forall i | 0 <= i < |txs|
      ensures ShieldedOk(r, s, txs[i], Nullifiers(r, txs[..i]), true) <==>
              && ShieldedFine(r, s, txs[i], set t, n | 0 <= t < i && n in Marks(r, txs[..i][t]) :: n)
              && r.proofOk(txs[i])
    {
      ShieldedIff(r, s, txs[i], Nullifiers(r, txs[..i]));
      MarksAre(r, txs[..i]);
    }
  }

  // -------------------------------------------------------------------------- signatures

  /** The key the first of these transactions brings for `a`, if `a` has none yet. */
  function FirstKey(s: State, txs: seq<Tx>, a: string): Option<string> {
    if txs == [] || a == "" || a in s.registry then None
    else if txs[0].signer == a && txs[0].pubkey != "" && txs[0].inputs != [] then Some(txs[0].pubkey)
    else FirstKey(s, txs[1..], a)
  }

  lemma {:induction false} FirstKeySnoc(s: State, txs: seq<Tx>, tx: Tx, a: string)
    ensures FirstKey(s, txs + [tx], a) ==
            if FirstKey(s, txs, a).Some? then FirstKey(s, txs, a)
            else if a != "" && a !in s.registry && tx.signer == a && tx.pubkey != "" && tx.inputs != []
            then Some(tx.pubkey) else None
  {
    if txs == [] {
      assert txs + [tx] == [tx] && [tx][1..] == [];
      assert FirstKey(s, [], a) == None;
    } else {
      FirstKeySnoc(s, txs[1..], tx, a);
      assert (txs + [tx])[1..] == txs[1..] + [tx];
    }
  }

  lemma {:induction false} OverlayIs(s: State, txs: seq<Tx>, a: string)
    ensures FirstKey(s, txs, a) == if a in Overlay(s, txs) then Some(Overlay(s, txs)[a]) else None
    decreases |txs|
  {
    hide FirstKey;
    if txs == [] {
      assert FirstKey(s, [], a) == None by { NoFirstKey(s, a); }
    } else {
      var n := |txs| - 1;
      OverlayIs(s, txs[..n], a);
      assert txs == txs[..n] + [txs[n]];
      FirstKeySnoc(s, txs[..n], txs[n], a);
    }
  }

  lemma NoFirstKey(s: State, a: string)
    ensures FirstKey(s, [], a) == None
  {
  }

  /** Whose key must have signed transaction `i`: its own if it is the signer's, else one that
      an earlier transaction of the block brings, else the one registered. */
  function KeyDue(r: Rules, s: State, txs: seq<Tx>, i: nat): Option<string>
    requires 1 <= i < |txs|
  {
    var tx := txs[i];
    if tx.pubkey != "" then if r.binds(tx.signer, tx.pubkey) then Some(tx.pubkey) else None
    else if FirstKey(s, txs[1..i], tx.signer).Some? then FirstKey(s, txs[1..i], tx.signer)
    else if tx.signer in s.registry then Some(s.registry[tx.signer]) else None
  }

  /** Every transaction but the coinbase is signed, unless it is purely shielded or bears no
      signer, signature or key at all. */
  predicate SignatureRules(r: Rules, s: State, txs: seq<Tx>) {
    forall i :: 1 <= i < |txs| ==>
      var tx := txs[i];
      || (tx.inputs == [] && tx.shielded != "") || (tx.signer == "" && tx.signature == "" && tx.pubkey == "")
      || (&& tx.signer != "" && |tx.signature| >= 3 && tx.signature[..3] == "pq="
          && KeyDue(r, s, txs, i).Some? && r.sigOk(KeyDue(r, s, txs, i).value, tx))
  }

  lemma SignaturesIff(r: Rules, s: State, txs: seq<Tx>)
    ensures SignaturesOk(r, s, txs) <==> SignatureRules(r, s, txs)
  {
    hide Overlay, FirstKey;
    forall i | 1 <= i < |txs| ensures FirstKey(s, txs[1..i], txs[i].signer) ==
        if txs[i].signer in Overlay(s, txs[1..i]) then Some(Overlay(s, txs[1..i])[txs[i].signer]) else None {
      OverlayIs(s, txs[1..i], txs[i].signer);
    }
    if SignatureRules(r, s, txs) {
      forall i | 1 <= i < |txs| ensures SignedOk(r, s, txs[i], Overlay(s, txs[1..i])) { }
    }
  }

  // ------------------------------------------------------------------------- eligibility

  predicate Ripe(r: Rules, t: Staking.Ticket, height: nat) { t.lockHeight + r.maturity <= height }

  /** The keys of the tickets that have rested long enough. */
  function RipeKeys(r: Rules, m: map<string, Staking.Ticket>, height: nat): set<string> {
    set k | k in m && Ripe(r, m[k], height)
  }

  lemma {:induction false} MatureMembers(ts: seq<Staking.Ticket>, r: Rules, height: nat)
    ensures forall t :: t in Mature(ts, r, height) <==> t in ts && Ripe(r, t, height)
  {
    if ts != [] {
      MatureMembers(ts[1..], r, height);
      assert forall t :: t in ts <==> t == ts[0] || t in ts[1..];
    }
  }

  lemma InOrderStep(m: map<string, Staking.Ticket>)
    requires m != map[]
    ensures var k := Least(m.Keys); InOrder(m) == [m[k]] + InOrder(m - {k}) && (m - {k}).Keys == m.Keys - {k}
  {
    var k := Least(m.Keys);
    assert (m - {k}).Keys == m.Keys - {k};
  }

  lemma {:induction false} InOrderMembers(m: map<string, Staking.Ticket>)
    ensures forall t :: t in InOrder(m) <==> exists k :: k in m && m[k] == t
    decreases |m.Keys|
  {
    if m != map[] {
      var k := Least(m.Keys);
      InOrderStep(m);
      InOrderMembers(m - {k});
      forall t ensures t in InOrder(m) <==> exists j :: j in m && m[j] == t {
        if t in InOrder(m - {k}) { var j :| j in m - {k} && (m - {k})[j] == t; assert j in m && m[j] == t; }
        if j :| j in m && m[j] == t && j != k { assert j in m - {k} && (m - {k})[j] == t; }
      }
    }
  }

  lemma {:induction false} RipeCount(m: map<string, Staking.Ticket>, r: Rules, height: nat)
    ensures |Mature(InOrder(m), r, height)| == |RipeKeys(r, m, height)|
    decreases |m.Keys|
  {
    hide Ripe;
    if m == map[] {
      assert RipeKeys(r, m, height) == {};
    } else {
      var k := Least(m.Keys);
      InOrderStep(m);
      RipeCount(m - {k}, r, height);
      assert ([m[k]] + InOrder(m - {k}))[1..] == InOrder(m - {k});
      RipeStep(m, r, height, k);
      MatureStep(m[k], InOrder(m - {k}), r, height);
    }
  }

  lemma MatureStep(t: Staking.Ticket, ts: seq<Staking.Ticket>, r: Rules, height: nat)
    ensures Mature([t] + ts, r, height) == (if Ripe(r, t, height) then [t] else []) + Mature(ts, r, height)
  {
    assert ([t] + ts)[1..] == ts;
  }

  lemma RipeStep(m: map<string, Staking.Ticket>, r: Rules, height: nat, k: string)
    requires k in m
    ensures |RipeKeys(r, m, height)| == |RipeKeys(r, m - {k}, height)| + if Ripe(r, m[k], height) then 1 else 0
  {
    var a := RipeKeys(r, m - {k}, height);
    assert RipeKeys(r, m, height) == if Ripe(r, m[k], height) then a + {k} else a;
  }

  /** The tickets that may be drawn are exactly those that have rested, each once. */
  lemma EligibleAre(r: Rules, s: State, height: nat)
    ensures forall t :: t in EligibleAt(r, s, height) <==>
            Ripe(r, t, height) && exists k :: k in s.tickets && s.tickets[k] == t
    ensures |EligibleAt(r, s, height)| == |RipeKeys(r, s.tickets, height)|
  {
    hide Ripe, InOrder, Mature, RipeKeys;
    InOrderMembers(s.tickets);
    MatureMembers(InOrder(s.tickets), r, height);
    RipeCount(s.tickets, r, height);
  }

  /** A block is added if and only if it obeys the rules for its header, weight, coinbase,
      shielded parts, signatures, votes and evidence, and its transactions apply in turn. */
  lemma AddedIff(r: Rules, s: State, b: Block, timely: bool)
    ensures AddBlock(r, s, b, timely).1 <==>
            && HeaderRules(r, s, b, timely) && r.weight(b) <= r.maxWeight && CoinbaseRules(r, s, b)
            && ShieldedRules(r, s, b.txs[1..]) && SignatureRules(r, s, b.txs) && StakingRules(r, s, b)
            && ApplyAll(r, s, b.txs).Some?
  {
    hide AddBlock, CoinbaseOk, CoinbaseRules, ShieldedBlockOk, ShieldedRules, SignaturesOk, SignatureRules, StakingOk,
        StakingRules, ApplyAll, SnapAll;
    SignaturesIff(r, s, b.txs);
    AddBlockAllOrNothing(r, s, b, timely);
    HeaderIff(r, s, b, timely);
    CoinbaseIff(r, s, b);
    if CoinbaseRules(r, s, b) {
      CoinbaseShape(r, s, b);
      ShieldedBlockIff(r, s, b.txs[1..]);
      if b.header.height >= 1 { StakingIff(r, s, b); }
      if ApplyAll(r, s, b.txs).Some? && b.header.height == Height(s) + 1 { SnapRedundant(r, s, b); }
    }
  }

  // ------------------------------------------------------------- draws, rewards and work

  /** Which tickets are drawn depends on the ripe tickets alone, in whatever order they are
      listed, and on the numbers drawn from the hash. */
  lemma SelectedBy(r: Rules, s: State, height: nat, hash: string, listed: seq<Staking.Ticket>)
    requires Staking.DistinctIds(EligibleAt(r, s, height)) && Staking.DistinctIds(listed)
    requires multiset(listed) == multiset(EligibleAt(r, s, height))
    ensures SelectedAt(r, s, height, hash) == Staking.Selected(listed, n => r.draw(hash, n), r.votesPerBlock)
  {
    hide EligibleAt, Staking.Selected;
    Staking.SelectedExact(EligibleAt(r, s, height), n => r.draw(hash, n), r.votesPerBlock);
  }

  /** Each approving voter gets the same share, rounded down, of the pot's fraction, rounded
      down; the pot is what may be minted and the fees, in 64 bits. */
  lemma RewardIs(r: Rules, s: State, h: nat, txs: seq<Tx>, votes: nat)
    requires votes > 0
    ensures var pot, per := Pot(r, s, h, txs), Staking.PerVote(Pot(r, s, h, txs), r.rewardBps, votes);
            && pot == (MaxMintable(r.schedule, h, s.emitted) + Fees(txs)) % 0x1_0000_0000_0000_0000
            && exists part: nat ::
                 && part * 10000 <= pot * Min(r.rewardBps, 10000) < (part + 1) * 10000
                 && per * votes <= part < (per + 1) * votes
  {
    hide Pot, MaxMintable, Fees;
    var pot := Pot(r, s, h, txs);
    PotIs(r, s, h, txs);
    var part := Staking.RewardPool(pot, r.rewardBps);
    PerIs(pot, r.rewardBps, votes);
  }

  lemma PotIs(r: Rules, s: State, h: nat, txs: seq<Tx>)
    ensures Pot(r, s, h, txs) == (MaxMintable(r.schedule, h, s.emitted) + Fees(txs)) % 0x1_0000_0000_0000_0000
  {
    hide MaxMintable, Fees;
    Modular(MaxMintable(r.schedule, h, s.emitted), Fees(txs));
  }

  lemma Modular(a: nat, b: nat)
    ensures W(a + W(b)) == W(a + b)
  {
  }

  lemma PerIs(pot: nat, bps: nat, votes: nat)
    requires votes > 0
    ensures var part, per := Staking.RewardPool(pot, bps), Staking.PerVote(pot, bps, votes);
            && part * 10000 <= pot * Min(bps, 10000) < (part + 1) * 10000
            && per * votes <= part < (per + 1) * votes
  {
    var part := Staking.RewardPool(pot, bps);
    assert part == pot * Min(bps, 10000) / 10000;
    var per := part / votes;
    assert per * votes <= part < (per + 1) * votes;
  }

  /** The work of a target: how often it goes into the largest word. */
  lemma WorkIs(target: nat)
    ensures target == 0 ==> WorkFor(target) == 0xffff_ffff_ffff_ffff
    ensures target > 0 ==> WorkFor(target) * target <= 0xffff_ffff_ffff_ffff < (WorkFor(target) + 1) * target
  {
    if target > 0 {
      var w := MAX64 / target;
      assert w * target <= MAX64 < (w + 1) * target;
    }
  }
}
