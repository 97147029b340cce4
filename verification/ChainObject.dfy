/** The chain as an object: its maps and counters change in place, with a saved copy put
    back when a block or a whole chain is refused. */
module ChainObject {
  import opened Basics
  import opened Seqs
  import opened Sums
  import opened Text
  import opened Emission
  import opened Ledger
  import opened LedgerInvariant
  import opened Chain
  import opened ChainRun
  import Staking
  import Shielded

  // ------------------------------------------------------------------ checking loops

  /** The total of the outputs, or nothing if one is malformed or the sum overflows. */
  method OutputsTotal(outs: seq<Output>) returns (total: Option<nat>)
    ensures total == if OutputsOk(outs) then Some(Paid(outs)) else None
  {
    var sum := 0;
    var i := 0;
    while i < |outs|
      invariant i <= |outs| && sum == Paid(outs[..i]) <= MAX64
      invariant forall o :: o in outs[..i] ==> o.to != "" && o.amount > 0
    {
      PrefixPaid(outs, i);
      PaidGrows(outs, i + 1);
      assert outs[i] in outs;
      if outs[i].to == "" || outs[i].amount == 0 { return None; }
      if sum > MAX64 - outs[i].amount { return None; }
      assert outs[..i + 1] == outs[..i] + [outs[i]];
      sum := sum + outs[i].amount;
      i := i + 1;
    }
    assert outs[..i] == outs;
    return Some(sum);
  }

  lemma PrefixPaid(outs: seq<Output>, i: nat)
    requires i < |outs|
    ensures Paid(outs[..i + 1]) == Paid(outs[..i]) + outs[i].amount
  {
    assert outs[..i + 1][..i] == outs[..i];
  }

  lemma {:induction false} PaidGrows(outs: seq<Output>, i: nat)
    requires i <= |outs|
    ensures Paid(outs[..i]) <= Paid(outs)
    decreases |outs| - i
  {
    if i == |outs| { assert outs[..i] == outs; }
    else { PrefixPaid(outs, i); PaidGrows(outs, i + 1); }
  }

  /** The total of the inputs, or nothing if one repeats, is missing, spent or frozen, or
      the sum overflows. */
  method InputsTotal(s: State, ins: seq<Input>, h: nat) returns (total: Option<nat>)
    ensures total == if InputsOk(s, ins, h) then Some(Worth(s.utxos, ins)) else None
  {
    var sum := 0;
    var seen: set<string> := {};
    var i := 0;
    while i < |ins|
      invariant i <= |ins| && sum == Worth(s.utxos, ins[..i]) <= MAX64
      invariant seen == (set j | 0 <= j < i :: Key(ins[j])) && Distinct(Keys(ins[..i]))
      invariant forall x :: x in ins[..i] ==> Live(s.utxos, Key(x), h)
    {
      hide Live;
      var k := Key(ins[i]);
      PrefixWorth(s.utxos, ins, i);
      WorthGrows(s.utxos, ins, i + 1);
      assert ins[i] in ins;
      if k in seen { RepeatedKey(ins, i); return None; }
      if !Live(s.utxos, k, h) { return None; }
      LiveKey(s.utxos, k, h);
      if sum > MAX64 - s.utxos[k].amount { return None; }
      DistinctKeysStep(ins, i);
      assert ins[..i + 1] == ins[..i] + [ins[i]];
      sum := sum + s.utxos[k].amount;
      seen := seen + {k};
      i := i + 1;
    }
    assert ins[..i] == ins;
    return Some(sum);
  }

  lemma LiveKey(utxos: map<string, Utxo>, k: string, h: nat)
    requires Live(utxos, k, h)
    ensures k in utxos
  {
  }

  lemma RepeatedKey(ins: seq<Input>, i: nat)
    requires i < |ins| && exists j :: 0 <= j < i && Key(ins[j]) == Key(ins[i])
    ensures !Distinct(Keys(ins))
  {
    var j :| 0 <= j < i && Key(ins[j]) == Key(ins[i]);
    assert Keys(ins)[j] == Keys(ins)[i];
  }

  lemma DistinctKeysStep(ins: seq<Input>, i: nat)
    requires i < |ins| && Distinct(Keys(ins[..i])) && forall j :: 0 <= j < i ==> Key(ins[j]) != Key(ins[i])
    ensures Distinct(Keys(ins[..i + 1]))
  {
    var ks := Keys(ins[..i + 1]);
    assert forall j :: 0 <= j < i ==> ks[j] == Keys(ins[..i])[j];
  }

  lemma PrefixWorth(utxos: map<string, Utxo>, ins: seq<Input>, i: nat)
    requires i < |ins|
    ensures Worth(utxos, ins[..i + 1]) == Worth(utxos, ins[..i]) + if Key(ins[i]) in utxos
            then utxos[Key(ins[i])].amount else 0
  {
    assert ins[..i + 1][..i] == ins[..i];
  }

  lemma {:induction false} WorthGrows(utxos: map<string, Utxo>, ins: seq<Input>, i: nat)
    requires i <= |ins|
    ensures Worth(utxos, ins[..i]) <= Worth(utxos, ins)
    decreases |ins| - i
  {
    if i == |ins| { assert ins[..i] == ins; }
    else { PrefixWorth(utxos, ins, i); WorthGrows(utxos, ins, i + 1); }
  }

  // ------------------------------------------------------------------------ the object

  class Node {
    const rules: Rules
    var blocks: seq<Block>
    var utxos: map<string, Utxo>
    var index: map<string, nat>
    var nonces: map<string, nat>
    var seen: set<string>
    var registry: map<string, string>
    var target: nat
    var emitted: nat
    var fees: nat
    var work: nat
    var tickets: map<string, Staking.Ticket>
    var slashed: nat
    var pool: Shielded.Pool

    function Value(): State
      reads this
    {
      State(blocks, utxos, index, nonces, seen, registry, target, emitted, fees, work, tickets, slashed, pool)
    }

    ghost predicate Valid()
      reads this
    {
      Replays(rules, Value())
    }

    constructor (r: Rules)
      ensures rules == r && Value() == Reset(r) && Valid()
    {
      rules := r;
      var s := Reset(r);
      blocks, utxos, index, nonces, seen := s.blocks, s.utxos, s.index, s.nonces, s.seen;
      registry, target, emitted, fees, work := s.registry, s.target, s.emitted, s.fees, s.work;
      tickets, slashed, pool := s.tickets, s.slashed, s.pool;
      new;
      ResetReplays(r);
    }

    /** Put a saved copy back. */
    method Restore(s: State)
      modifies this
      ensures Value() == s
    {
      RestoreBooks(s);
      blocks := s.blocks;
      target := s.target;
      work := s.work;
      fees := s.fees;
      pool := s.pool;
      assert Value() == State(s.blocks, s.utxos, s.index, s.nonces, s.seen, s.registry, s.target, s.emitted, s.fees,
          s.work, s.tickets, s.slashed, s.pool);
    }

    method RestoreBooks(s: State)
      modifies this`utxos, this`index, this`nonces, this`seen, this`registry, this`emitted, this`tickets, this`slashed
      ensures utxos == s.utxos && index == s.index && nonces == s.nonces && seen == s.seen
      ensures registry == s.registry && emitted == s.emitted && tickets == s.tickets && slashed == s.slashed
    {
      utxos := s.utxos;
      index := s.index;
      nonces := s.nonces;
      seen := s.seen;
      registry := s.registry;
      emitted := s.emitted;
      tickets := s.tickets;
      slashed := s.slashed;
    }

    method SpendKey(k: string)
      requires k in utxos
      modifies this`utxos, this`index, this`tickets
      ensures Value() == SpendOne(old(Value()), k)
    {
      var u := utxos[k];
      utxos := utxos[k := u.(spent := true)];
      if Get(index, u.owner) >= u.amount { index := index[u.owner := Get(index, u.owner) - u.amount]; }
      else { index := index[u.owner := 0]; }
      tickets := tickets - {k};
    }

    method SpendInputs(ins: seq<Input>) returns (ok: bool, unlocking: bool)
      modifies this`utxos, this`index, this`tickets
      ensures ok <==> Spend(old(Value()), ins).Some?
      ensures ok ==> Spend(old(Value()), ins) == Some((Value(), unlocking))
    {
      hide SpendOne, Key;
      unlocking := false;
      var i := 0;
      while i < |ins|
        invariant i <= |ins| && Spend(old(Value()), ins[..i]) == Some((Value(), unlocking))
      {
        var k := Key(ins[i]);
        assert ins[..i + 1][..i] == ins[..i];
        if k !in utxos || utxos[k].spent {
          SpendStops(old(Value()), ins, i + 1);
          return false, unlocking;
        }
        if k in tickets { unlocking := true; }
        SpendKey(k);
        i := i + 1;
      }
      assert ins[..i] == ins;
      ok := true;
    }

    method CreateOutput(tx: Tx, txid: string, i: nat, unlocking: bool)
      requires i < |tx.outputs|
      modifies this`utxos, this`index, this`tickets
      ensures Value() == CreateOne(rules, old(Value()), tx, txid, i, unlocking)
    {
      var o, k, h := tx.outputs[i], Outpoint(txid, i), Height(Value()) + 1;
      var key := TicketKey(Value(), tx);
      if o.to == STAKE { tickets := tickets[k := Staking.Ticket(k, tx.signer, key, o.amount, h)]; }
      utxos := utxos[k := Utxo(o.to, o.amount, false, if unlocking then h + rules.unbondDelay else 0, h)];
      index := index[o.to := Get(index, o.to) + o.amount];
    }

    method CreateOutputs(tx: Tx, txid: string, unlocking: bool) returns (ok: bool)
      modifies this`utxos, this`index, this`tickets
      ensures ok <==> Create(rules, old(Value()), tx, txid, |tx.outputs|, unlocking).Some?
      ensures ok ==> Create(rules, old(Value()), tx, txid, |tx.outputs|, unlocking) == Some(Value())
    {
      hide CreateOne;
      var i := 0;
      while i < |tx.outputs|
        invariant i <= |tx.outputs| && Create(rules, old(Value()), tx, txid, i, unlocking) == Some(Value())
      {
        if Get(index, tx.outputs[i].to) > MAX64 - tx.outputs[i].amount {
          CreateStops(rules, old(Value()), tx, txid, i + 1, unlocking);
          return false;
        }
        CreateOutput(tx, txid, i, unlocking);
        i := i + 1;
      }
      ok := true;
    }

    /** The signer's nonce, and its key the first time it is seen. */
    method NoteSigner(tx: Tx)
      modifies this`nonces, this`registry
      ensures var signed := tx.inputs != [] && tx.signer != "";
              && nonces == (if signed then old(nonces)[tx.signer := tx.nonce] else old(nonces))
              && registry == (if signed && tx.pubkey != "" && tx.signer !in old(registry)
                              then old(registry)[tx.signer := tx.pubkey] else old(registry))
    {
      if tx.inputs != [] && tx.signer != "" {
        nonces := nonces[tx.signer := tx.nonce];
        if tx.pubkey != "" && tx.signer !in registry { registry := registry[tx.signer := tx.pubkey]; }
      }
    }

    method FinishTx(tx: Tx, txid: string)
      modifies this`nonces, this`registry, this`pool, this`seen
      ensures Value() == Finish(rules, old(Value()), tx, txid)
    {
      NoteSigner(tx);
      if tx.shielded != "" && rules.parse(tx.shielded).Some? {
        pool := Shielded.Apply(pool, rules.parse(tx.shielded).value.bundle);
      }
      seen := seen + {txid};
    }

    method ApplyTransaction(tx: Tx) returns (ok: bool)
      modifies this
      ensures ok <==> ApplyTx(rules, old(Value()), tx).Some?
      ensures ok ==> ApplyTx(rules, old(Value()), tx) == Some(Value())
    {
      hide ValidTx, Spend, Create, Finish;
      if !ValidTx(rules, Value(), tx, true) { return false; }
      var unlocking;
      ok, unlocking := SpendInputs(tx.inputs);
      if !ok { return; }
      ok := CreateOutputs(tx, rules.txid(tx), unlocking);
      if !ok { return; }
      FinishTx(tx, rules.txid(tx));
    }

    method ApplyTransactions(txs: seq<Tx>) returns (ok: bool)
      modifies this
      ensures ok <==> ApplyAll(rules, old(Value()), txs).Some?
      ensures ok ==> ApplyAll(rules, old(Value()), txs) == Some(Value())
    {
      hide ApplyTx;
      var i := 0;
      while i < |txs|
        invariant i <= |txs| && ApplyAll(rules, old(Value()), txs[..i]) == Some(Value())
      {
        assert txs[..i + 1][..i] == txs[..i];
        ok := ApplyTransaction(txs[i]);
        if !ok { ApplyStops(rules, old(Value()), txs, i + 1); return; }
        i := i + 1;
      }
      assert txs[..i] == txs;
      ok := true;
    }

    method SlashKey(k: string)
      modifies this`utxos, this`index, this`tickets, this`slashed
      ensures Value() == SlashOne(old(Value()), k)
    {
      hide SpendOne;
      if k in tickets {
        if k in utxos && !utxos[k].spent {
          var amount := utxos[k].amount;
          SpendKey(k);
          slashed := slashed + amount;
        } else {
          tickets := tickets - {k};
        }
      }
    }

    method SlashAll(es: seq<Evidence>)
      modifies this`utxos, this`index, this`tickets, this`slashed
      ensures Value() == Slash(old(Value()), es)
    {
      hide SlashOne;
      var i := 0;
      while i < |es|
        invariant i <= |es| && Value() == Slash(old(Value()), es[..i])
      {
        assert es[..i + 1][..i] == es[..i];
        SlashKey(es[i].a.ticket);
        i := i + 1;
      }
      assert es[..i] == es;
    }

    /** Add a block, or leave everything as it was. */
    method Add(b: Block, timely: bool) returns (ok: bool)
      requires Valid()
      modifies this
      ensures (Value(), ok) == AddBlock(rules, old(Value()), b, timely)
      ensures Valid() && (!ok ==> Value() == old(Value()))
    {
      hide BlockOk, ApplyAll, Slash, Seal, Minted, MaxMintable, Replays, CoinbaseOk, Fees, Paid;
      AddBlockReplays(rules, Value(), b, timely);
      AddBlockAllOrNothing(rules, Value(), b, timely);
      if !BlockOk(rules, Value(), b, timely) { return false; }
      var saved := Value();
      CheckedBlock(rules, saved, b, timely);
      ok := ApplyTransactions(b.txs);
      if !ok { Restore(saved); return; }
      ApplyAllFacts(rules, saved, b.txs);
      Settle(b);
    }

    /** What follows the transactions: fees, burnt tickets, emission, and the new tip. */
    method Settle(b: Block)
      requires b.txs != []
      modifies this
      ensures var t := Slash(old(Value()).(fees := Fees(b.txs[1..])), b.slashes);
              Value() == Seal(rules, t.(emitted := t.emitted + Minted(b)), b)
    {
      hide Slash, Fees, Minted, Paid, Seal;
      fees := Fees(b.txs[1..]);
      SlashAll(b.slashes);
      emitted := emitted + Minted(b);
      PutOnTop(b);
    }

    method PutOnTop(b: Block)
      modifies this`target, this`work, this`blocks
      ensures Value() == Seal(rules, old(Value()), b)
    {
      target := rules.retarget(blocks + [b], target);
      work := W(work + WorkFor(b.header.target));
      blocks := blocks + [b];
    }

    /** Replace the chain by a heavier one, or leave everything as it was. */
    method ReplaceWith(candidate: seq<Block>, clock: Block -> bool) returns (ok: bool)
      requires Valid()
      modifies this
      ensures (Value(), ok) == Replace(rules, old(Value()), candidate, clock)
      ensures Valid() && (!ok ==> Value() == old(Value())) && (ok ==> work > old(work))
    {
      hide AddBlock, Replays, Reset;
      ReplaceAllOrNothing(rules, Value(), candidate, clock);
      if candidate == [] || blocks == [] ||
          rules.headerHash(candidate[0].header) != rules.headerHash(blocks[0].header) {
        return false;
      }
      var saved := Value();
      Restore(Reset(rules));
      ResetReplays(rules);
      var bs := candidate[1..];
      var i := 0;
      while i < |bs|
        invariant i <= |bs| && Valid() && AddAll(rules, Reset(rules), bs[..i], clock) == (Value(), true)
      {
        assert bs[..i + 1][..i] == bs[..i];
        ok := Add(bs[i], clock(bs[i]));
        if !ok {
          AddAllStops(rules, Reset(rules), bs, i + 1, clock);
          Restore(saved);
          return;
        }
        i := i + 1;
      }
      assert bs[..i] == bs;
      ok := work > saved.work;
      if !ok { Restore(saved); }
    }
  }

  lemma CheckedBlock(r: Rules, s: State, b: Block, timely: bool)
    requires BlockOk(r, s, b, timely)
    ensures b.txs != [] && OneCoinbase(b.txs)
    ensures Fees(b.txs[1..]) <= MAX64 && Paid(b.txs[0].outputs) <= MAX64 &&
            Minted(b) <= MaxMintable(r.schedule, b.header.height, s.emitted)
  {
    hide CoinbaseOk, StakingOk, ShieldedBlockOk, SignaturesOk, SnapAll, HeaderOk;
    CoinbaseShape(r, s, b);
  }

  lemma {:induction false} SpendStops(s: State, ins: seq<Input>, n: nat)
    requires n <= |ins| && Spend(s, ins[..n]).None?
    ensures Spend(s, ins).None?
    decreases |ins| - n
  {
    hide SpendOne, Key;
    if n == |ins| { assert ins[..n] == ins; }
    else { assert ins[..n + 1][..n] == ins[..n]; SpendStops(s, ins, n + 1); }
  }

  lemma {:induction false} CreateStops(r: Rules, s: State, tx: Tx, txid: string, n: nat, unlocking: bool)
    requires n <= |tx.outputs| && Create(r, s, tx, txid, n, unlocking).None?
    ensures Create(r, s, tx, txid, |tx.outputs|, unlocking).None?
    decreases |tx.outputs| - n
  {
    if n < |tx.outputs| { CreateStops(r, s, tx, txid, n + 1, unlocking); }
  }

  lemma {:induction false} ApplyStops(r: Rules, s: State, txs: seq<Tx>, n: nat)
    requires n <= |txs| && ApplyAll(r, s, txs[..n]).None?
    ensures ApplyAll(r, s, txs).None?
    decreases |txs| - n
  {
    hide ApplyTx;
    if n == |txs| { assert txs[..n] == txs; }
    else { assert txs[..n + 1][..n] == txs[..n]; ApplyStops(r, s, txs, n + 1); }
  }

  lemma {:induction false} AddAllStops(r: Rules, s: State, bs: seq<Block>, n: nat, clock: Block -> bool)
    requires n <= |bs| && !AddAll(r, s, bs[..n], clock).1
    ensures !AddAll(r, s, bs, clock).1
    decreases |bs| - n
  {
    hide AddBlock;
    if n == |bs| { assert bs[..n] == bs; }
    else { assert bs[..n + 1][..n] == bs[..n]; AddAllStops(r, s, bs, n + 1, clock); }
  }
}
