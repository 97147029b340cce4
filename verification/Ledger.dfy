/** The ledger: outputs, balances, tickets and supply, as functions on the chain's state.

    Hashing, signatures, scripts, proofs, serialised size and the retarget rule are
    arbitrary functions, fixed by `Rules`. */
module Ledger {
  import opened Basics
  import opened Seqs
  import opened Sums
  import opened Text
  import opened Emission
  import Staking
  import CommitmentTree
  import Shielded

  const STAKE: string := "@stake"

  datatype Input = Input(txid: string, index: nat, unlock: string)

  datatype Output = Output(to: string, amount: nat)

  datatype Tx = Tx(inputs: seq<Input>, outputs: seq<Output>, signer: string, pubkey: string, signature: string,
                   fee: nat, nonce: nat, shielded: string)

  datatype Header = Header(height: nat, previous: string, timestamp: nat, nonce: nat, target: nat, root: string)

  datatype Vote = Vote(ticket: string, height: nat, hash: string, approve: bool, signature: string)

  datatype Evidence = Evidence(a: Vote, b: Vote)

  datatype Block = Block(header: Header, txs: seq<Tx>, votes: seq<Vote>, slashes: seq<Evidence>)

  datatype Utxo = Utxo(owner: string, amount: nat, spent: bool, spendable: nat, height: nat)

  /** A transaction's shielded part. */
  datatype Part = Part(bundle: Shielded.Bundle, vpubIn: nat, vpubOut: nat)

  datatype Rules = Rules(
    schedule: Schedule, minFee: nat, maxWeight: nat, allowZeroReward: bool, shieldedOn: bool, strictPq: bool,
    minTarget: nat, maxTarget: nat, initialTarget: nat,
    unbondDelay: nat, stakeMin: nat, stakeFrom: nat, maturity: nat, votesPerBlock: nat, quorum: nat, minLive: nat,
        rewardBps: nat,
    genesisHash: string, genesisTime: nat, treeDepth: nat,
    txid: Tx -> string, headerHash: Header -> string, commitment: Block -> string, weight: Block -> nat,
    meets: (string, nat) -> bool, parse: string -> Option<Part>, proofOk: Tx -> bool,
    binds: (string, string) -> bool, sigOk: (string, Tx) -> bool, scriptOk: (string, string, Tx, nat, nat) -> bool,
    voteOk: (string, Vote) -> bool, draw: (string, nat) -> nat, retarget: (seq<Block>, nat) -> nat)

  datatype State = State(
    blocks: seq<Block>, utxos: map<string, Utxo>, index: map<string, nat>, nonces: map<string, nat>, seen: set<string>,
    registry: map<string, string>, target: nat, emitted: nat, fees: nat, work: nat,
    tickets: map<string, Staking.Ticket>, slashed: nat, pool: Shielded.Pool)

  function Height(s: State): nat { if s.blocks == [] then 0 else s.blocks[|s.blocks| - 1].header.height }

  function Key(i: Input): string { Outpoint(i.txid, i.index) }

  function Keys(ins: seq<Input>): seq<string> { seq(|ins|, j requires 0 <= j < |ins| => Key(ins[j])) }

  function WorkFor(target: nat): nat { if target == 0 then MAX64 else MAX64 / target }

  function Genesis(r: Rules): Block {
    Block(Header(0, r.genesisHash, r.genesisTime, 0, r.initialTarget,
        r.commitment(Block(Header(0, "", 0, 0, 0, ""), [], [], []))), [], [], [])
  }

  function Reset(r: Rules): State {
    State([Genesis(r)], map[], map[], map[], {}, map[], r.initialTarget, 0, 0, WorkFor(r.initialTarget), map[], 0,
          Shielded.Genesis(r.treeDepth))
  }

  // ----------------------------------------------------------------------- amounts

  function Paid(outs: seq<Output>): nat { if outs == [] then 0 else Paid(outs[..|outs| - 1]) + outs[|outs| - 1].amount }

  function Worth(utxos: map<string, Utxo>, ins: seq<Input>): nat {
    if ins == [] then 0
    else Worth(utxos, ins[..|ins| - 1]) + if Key(ins[|ins| - 1]) in utxos then utxos[Key(ins[|ins| - 1])].amount else 0
  }

  predicate OutputsOk(outs: seq<Output>) {
    (forall o :: o in outs ==> o.to != "" && o.amount > 0) && Paid(outs) <= MAX64
  }

  predicate Live(utxos: map<string, Utxo>, k: string, h: nat) {
    k in utxos && !utxos[k].spent && utxos[k].spendable <= h
  }

  predicate InputsOk(s: State, ins: seq<Input>, h: nat) {
    Distinct(Keys(ins)) && (forall i :: i in ins ==> Live(s.utxos, Key(i), h)) && Worth(s.utxos, ins) <= MAX64
  }

  // ------------------------------------------------------------------ authorisation

  function PubkeyOf(r: Rules, s: State, tx: Tx): Option<string> {
    if tx.pubkey != "" then if r.binds(tx.signer, tx.pubkey) then Some(tx.pubkey) else None
    else if tx.signer in s.registry then Some(s.registry[tx.signer]) else None
  }

  predicate PqPrefix(sig: string) { |sig| >= 3 && sig[..3] == "pq=" }

  predicate Owns(s: State, signer: string, k: string) {
    && k in s.utxos && !s.utxos[k].spent
    && (if s.utxos[k].owner == STAKE then k in s.tickets &&
         s.tickets[k].owner == signer else s.utxos[k].owner == signer)
  }

  predicate SignatureOk(r: Rules, s: State, tx: Tx, crypto: bool) {
    && (r.strictPq ==> PqPrefix(tx.signature)) && tx.signature != "" && PubkeyOf(r, s, tx).Some?
    && (forall i :: i in tx.inputs ==> Owns(s, tx.signer, Key(i)))
    && (crypto ==> r.sigOk(PubkeyOf(r, s, tx).value, tx))
  }

  predicate ScriptsOk(r: Rules, s: State, tx: Tx) {
    forall i :: i in tx.inputs ==>
      && Key(i) in s.utxos && !s.utxos[Key(i)].spent
      && r.scriptOk(s.utxos[Key(i)].owner, i.unlock, tx, Height(s) + 1, s.utxos[Key(i)].height)
  }

  /** A script spend has no signer and a witness per input; any other spend has a signer
      in control of every input, a rising nonce and no witness. */
  predicate Authorised(r: Rules, s: State, tx: Tx, crypto: bool) {
    if tx.signer == "" then tx.signature == "" && tx.pubkey == "" && ScriptsOk(r, s, tx)
    else
      && (forall i :: i in tx.inputs ==> i.unlock == "") && SignatureOk(r, s, tx, crypto)
      && (tx.signer in s.nonces ==> tx.nonce > s.nonces[tx.signer])
  }

  // --------------------------------------------------------------- one transaction

  predicate ShieldedOk(r: Rules, s: State, tx: Tx, pending: set<string>, proof: bool) {
    && r.shieldedOn && r.parse(tx.shielded).Some?
    && var p := r.parse(tx.shielded).value;
       && (tx.inputs == [] ==>
             && tx.signer == "" && tx.signature == "" && tx.pubkey == ""
             && p.vpubIn == 0 && p.bundle.nullifiers != [])
       && Shielded.Check(s.pool, p.bundle, pending) == Shielded.Fine
       && (proof ==> r.proofOk(tx))
  }

  predicate StakeOutputsOk(r: Rules, s: State, tx: Tx) {
    forall o :: o in tx.outputs && o.to == STAKE ==>
      && (forall i :: i in tx.inputs ==> Key(i) !in s.tickets)
      && Height(s) + 1 >= r.stakeFrom && o.amount >= r.stakeMin
  }

  /** Coins in and coins out, shielded value included. */
  predicate Balanced(r: Rules, tx: Tx, worth: nat) {
    if tx.shielded != "" then r.parse(tx.shielded).Some? &&
        worth + r.parse(tx.shielded).value.vpubOut == Paid(tx.outputs) + tx.fee + r.parse(tx.shielded).value.vpubIn
    else worth >= Paid(tx.outputs) + tx.fee
  }

  /** Validation of one transaction, for the next block or (`inBlock`) inside it. */
  predicate ValidTx(r: Rules, s: State, tx: Tx, inBlock: bool) {
    var shielded := tx.shielded != "";
    && (shielded ==> ShieldedOk(r, s, tx, {}, !inBlock))
    && (tx.outputs == [] ==> shielded || (tx.inputs == [] && inBlock))
    && OutputsOk(tx.outputs)
    && if tx.inputs == [] && shielded then tx.fee >= r.minFee && Balanced(r, tx, 0)
       else if tx.inputs == [] then
         && tx.signer == "" && tx.signature == "" && (forall o :: o in tx.outputs ==> o.to != STAKE)
         && (inBlock || Paid(tx.outputs) <= W(r.schedule.reward + tx.fee))
       else
         && tx.fee >= r.minFee && Authorised(r, s, tx, !inBlock) && InputsOk(s, tx.inputs, Height(s) + 1)
         && StakeOutputsOk(r, s, tx) && Paid(tx.outputs) + tx.fee <= MAX64 && Balanced(r, tx, Worth(s.utxos, tx.inputs))
  }

  /** Subtraction that stops at zero. */
  function Less0(a: nat, b: nat): nat { if a >= b then a - b else 0 }

  /** Mark one output spent. */
  function SpendOne(s: State, k: string): State
    requires k in s.utxos
  {
    var u := s.utxos[k];
    s.(utxos := s.utxos[k := u.(spent := true)], index := s.index[u.owner := Less0(Get(s.index, u.owner), u.amount)],
       tickets := s.tickets - {k})
  }

  /** The state after the inputs are spent, and whether a ticket was among them. */
  function Spend(s: State, ins: seq<Input>): Option<(State, bool)> {
    if ins == [] then Some((s, false))
    else
      var p := Spend(s, ins[..|ins| - 1]);
      var k := Key(ins[|ins| - 1]);
      if p.None? || k !in p.value.0.utxos || p.value.0.utxos[k].spent then None
      else Some((SpendOne(p.value.0, k), p.value.1 || k in p.value.0.tickets))
  }

  function TicketKey(s: State, tx: Tx): string {
    if tx.pubkey != "" then tx.pubkey else if tx.signer in s.registry then s.registry[tx.signer] else ""
  }

  function CreateOne(r: Rules, s: State, tx: Tx, txid: string, i: nat, unlocking: bool): State
    requires i < |tx.outputs|
  {
    var o, k, h := tx.outputs[i], Outpoint(txid, i), Height(s) + 1;
    s.(utxos := s.utxos[k := Utxo(o.to, o.amount, false, if unlocking then h + r.unbondDelay else 0, h)],
       tickets := if o.to == STAKE then s.tickets[k := Staking.Ticket(k, tx.signer, TicketKey(s, tx), o.amount, h)]
           else s.tickets,
       index := s.index[o.to := Get(s.index, o.to) + o.amount])
  }

  /** The state after the first `n` outputs are created. */
  function Create(r: Rules, s: State, tx: Tx, txid: string, n: nat, unlocking: bool): Option<State>
    requires n <= |tx.outputs|
  {
    if n == 0 then Some(s)
    else
      var p := Create(r, s, tx, txid, n - 1, unlocking);
      var o := tx.outputs[n - 1];
      if p.None? || Get(p.value.index, o.to) > MAX64 - o.amount then None
      else Some(CreateOne(r, p.value, tx, txid, n - 1, unlocking))
  }

  /** Nonce, key registry, shielded pool and seen set. */
  function Finish(r: Rules, s: State, tx: Tx, txid: string): State {
    var signed := tx.inputs != [] && tx.signer != "";
    s.(nonces := if signed then s.nonces[tx.signer := tx.nonce] else s.nonces,
       registry := if signed && tx.pubkey != "" &&
           tx.signer !in s.registry then s.registry[tx.signer := tx.pubkey] else s.registry,
       pool := if tx.shielded != "" &&
           r.parse(tx.shielded).Some? then Shielded.Apply(s.pool, r.parse(tx.shielded).value.bundle) else s.pool,
       seen := s.seen + {txid})
  }

  /** Apply one transaction of a block. */
  function ApplyTx(r: Rules, s: State, tx: Tx): Option<State> {
    if !ValidTx(r, s, tx, true) then None
    else
      var p := Spend(s, tx.inputs);
      if p.None? then None
      else
        var q := Create(r, p.value.0, tx, r.txid(tx), |tx.outputs|, p.value.1);
        if q.None? then None else Some(Finish(r, q.value, tx, r.txid(tx)))
  }

  function ApplyAll(r: Rules, s: State, txs: seq<Tx>): Option<State> {
    if txs == [] then Some(s)
    else
      var p := ApplyAll(r, s, txs[..|txs| - 1]);
      if p.None? then None else ApplyTx(r, p.value, txs[|txs| - 1])
  }

  // ---------------------------------------------------------------------- one block

  function Fees(txs: seq<Tx>): nat { if txs == [] then 0 else Fees(txs[..|txs| - 1]) + txs[|txs| - 1].fee }

  function Minted(b: Block): nat
    requires b.txs != []
  {
    Less0(Paid(b.txs[0].outputs), Fees(b.txs[1..]))
  }

  predicate HeaderOk(r: Rules, s: State, b: Block, timely: bool) {
    && s.blocks != []
    && var tip := s.blocks[|s.blocks| - 1].header;
       && b.header.height == tip.height + 1 && b.header.previous == r.headerHash(tip) &&
            b.header.root == r.commitment(b)
       && b.header.timestamp >= tip.timestamp && timely
       && r.minTarget <= b.header.target <= r.maxTarget && b.header.target == s.target
       && r.meets(r.headerHash(b.header), b.header.target)
  }

  predicate CoinbaseOk(r: Rules, s: State, b: Block) {
    && b.txs != []
    && var cb, fees, h := b.txs[0], Fees(b.txs[1..]), b.header.height;
       && cb.shielded == "" && cb.inputs == []
       && (cb.outputs == [] ==> r.allowZeroReward || MaxMintable(r.schedule, h, s.emitted) == 0)
       && OutputsOk(cb.outputs)
       && (forall i :: 1 <= i < |b.txs| ==> b.txs[i].inputs != [] || b.txs[i].shielded != "")
       && fees <= MAX64 && Subsidy(r.schedule, h) + fees <= MAX64 && Paid(cb.outputs) <= Subsidy(r.schedule, h) + fees
       && Minted(b) <= MaxMintable(r.schedule, h, s.emitted)
  }

  /** The nullifiers and commitments of the shielded parts of `txs`. */
  function Nullifiers(r: Rules, txs: seq<Tx>): set<string> {
    set tx, n | tx in txs && tx.shielded != "" && r.parse(tx.shielded).Some? &&
        n in r.parse(tx.shielded).value.bundle.nullifiers :: n
  }

  function Commitments(r: Rules, txs: seq<Tx>): seq<CommitmentTree.Hash> {
    if txs == [] then []
    else
      var tx := txs[|txs| - 1];
      Commitments(r, txs[..|txs| - 1]) +
      if tx.shielded != "" && r.parse(tx.shielded).Some? then r.parse(tx.shielded).value.bundle.commitments else []
  }

  /** Shielded parts are checked against the state before the block, with nullifiers and
      commitments unique across it. */
  predicate ShieldedBlockOk(r: Rules, s: State, txs: seq<Tx>) {
    && (forall i :: 0 <= i < |txs| && txs[i].shielded != "" ==> ShieldedOk(r, s, txs[i], Nullifiers(r, txs[..i]), true))
    && Distinct(Commitments(r, txs))
  }

  /** One transaction against the running copy of outputs and balances. */
  function SnapTx(r: Rules, s: State, tx: Tx, emptyOk: bool, h: nat): Option<State> {
    var p := Spend(s, tx.inputs);
    if tx.outputs == [] && tx.shielded == "" && !emptyOk then None
    else if !OutputsOk(tx.outputs) || p.None? then None
    else if (exists i :: i in tx.inputs && !Live(s.utxos, Key(i), h)) || Worth(s.utxos, tx.inputs) > MAX64 then None
    else if tx.inputs != [] && Paid(tx.outputs) + tx.fee > MAX64 then None
    else if (tx.shielded != "" || tx.inputs != []) && !Balanced(r, tx, Worth(s.utxos, tx.inputs)) then None
    else Create(r, p.value.0, tx, r.txid(tx), |tx.outputs|, false)
  }

  function SnapAll(r: Rules, s: State, txs: seq<Tx>, coinbaseTotal: nat, h: nat): Option<State> {
    if txs == [] then Some(s)
    else
      var p := SnapAll(r, s, txs[..|txs| - 1], coinbaseTotal, h);
      if p.None? then None else SnapTx(r, p.value, txs[|txs| - 1], |txs| == 1 && coinbaseTotal == 0, h)
  }

  /** Keys that earlier transactions of the same block register. */
  function Overlay(s: State, txs: seq<Tx>): map<string, string> {
    if txs == [] then map[]
    else
      var o, tx := Overlay(s, txs[..|txs| - 1]), txs[|txs| - 1];
      if tx.signer != "" && tx.pubkey != "" && tx.inputs != [] && tx.signer !in s.registry &&
          tx.signer !in o then o[tx.signer := tx.pubkey] else o
  }

  predicate SignedOk(r: Rules, s: State, tx: Tx, overlay: map<string, string>) {
    if (tx.inputs == [] && tx.shielded != "") || (tx.signer == "" && tx.signature == "" && tx.pubkey == "") then true
    else
      && tx.signer != "" && PqPrefix(tx.signature)
      && var k := if tx.pubkey == "" && tx.signer in overlay then Some(overlay[tx.signer]) else PubkeyOf(r, s, tx);
         k.Some? && r.sigOk(k.value, tx)
  }

  predicate SignaturesOk(r: Rules, s: State, txs: seq<Tx>) {
    forall i :: 1 <= i < |txs| ==> SignedOk(r, s, txs[i], Overlay(s, txs[1..i]))
  }

  predicate TxsOk(r: Rules, s: State, b: Block) {
    && r.weight(b) <= r.maxWeight && CoinbaseOk(r, s, b) && ShieldedBlockOk(r, s, b.txs[1..])
    && SnapAll(r, s, b.txs, Paid(b.txs[0].outputs), b.header.height).Some?
    && SignaturesOk(r, s, b.txs)
  }

  /** Burn one ticket, if it is there. */
  function SlashOne(s: State, k: string): State {
    if k !in s.tickets then s
    else if k in s.utxos && !s.utxos[k].spent then SpendOne(s, k).(slashed := s.slashed + s.utxos[k].amount)
    else s.(tickets := s.tickets - {k})
  }

  /** Burn the tickets of proven double voters. */
  function Slash(s: State, slashes: seq<Evidence>): State {
    if slashes == [] then s
    else SlashOne(Slash(s, slashes[..|slashes| - 1]), slashes[|slashes| - 1].a.ticket)
  }

  /** The block on top, its work, and the next target. */
  function Seal(r: Rules, s: State, b: Block): State {
    s.(blocks := s.blocks + [b], work := W(s.work + WorkFor(b.header.target)),
        target := r.retarget(s.blocks + [b], s.target))
  }
}
