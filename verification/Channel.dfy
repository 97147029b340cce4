/** The two-party payment channel: commitments, validation, commit/revoke steps and
    the penalty transaction, as functions on channel values. `ChannelObject` runs the
    same operations on an object and is proved against these functions. */
module Channel {
  import opened Basics
  import opened Symbols

  datatype Htlc = Htlc(id: nat, offeredByA: bool, amount: nat, paymentHash: Digest, expiry: nat)

  datatype State = State(n: nat, balA: nat, balB: nat, htlcs: seq<Htlc>, nextHtlcId: nat)

  /** `addrA` is the funder, who pays the commitment fee. */
  datatype Info = Info(addrA: string, addrB: string, capacity: nat, funding: OutPoint, toSelfDelay: nat, fee: nat)

  const MAX_HTLCS: nat := 16

  // ---------------------------------------------------------------- scripts

  function FundingScript(a: string, b: string): Script {
    And(Pk(a), Pk(b))
  }

  function ToLocalScript(holder: string, other: string, rh: Digest, delay: nat): Script {
    Or(And(Pk(other), HashLock(rh)), And(Pk(holder), Older(delay)))
  }

  function HtlcScript(revoker: string, offerer: string, receiver: string, rh: Digest, ph: Digest, expiry: nat): Script {
    Or(And(Pk(revoker), HashLock(rh)), Or(And(Pk(receiver), HashLock(ph)), And(Pk(offerer), After(expiry))))
  }

  function Bal(s: State, isA: bool): nat { if isA then s.balA else s.balB }

  function HtlcSum(hs: seq<Htlc>): nat {
    if hs == [] then 0 else hs[0].amount + HtlcSum(hs[1..])
  }

  // ------------------------------------------------------------ commitments

  function Holder(info: Info, holderA: bool): string { if holderA then info.addrA else info.addrB }

  function HtlcOutput(info: Info, revoker: string, rh: Digest, h: Htlc): Output {
    var offerer := if h.offeredByA then info.addrA else info.addrB;
    var receiver := if h.offeredByA then info.addrB else info.addrA;
    Output(ScriptHash(HtlcScript(revoker, offerer, receiver, rh, h.paymentHash, h.expiry)), h.amount)
  }

  function HtlcOutputs(info: Info, revoker: string, rh: Digest, hs: seq<Htlc>): (outs: seq<Output>)
    ensures |outs| == |hs|
    ensures forall i :: 0 <= i < |hs| ==> outs[i] == HtlcOutput(info, revoker, rh, hs[i])
  {
    seq(|hs|, i requires 0 <= i < |hs| => HtlcOutput(info, revoker, rh, hs[i]))
  }

  function HolderAmount(info: Info, holderA: bool, s: State): nat {
    if holderA then WrapSub(s.balA, info.fee) else s.balB
  }

  function ToLocalOutputs(info: Info, holderA: bool, s: State, rh: Digest): (outs: seq<Output>)
    ensures |outs| == if HolderAmount(info, holderA, s) != 0 then 1 else 0
  {
    var amount := HolderAmount(info, holderA, s);
    var holder, other := Holder(info, holderA), Holder(info, !holderA);
    if amount != 0 then [Output(ScriptHash(ToLocalScript(holder, other, rh, info.toSelfDelay)), amount)] else []
  }

  function ToRemoteOutputs(info: Info, holderA: bool, s: State): (outs: seq<Output>)
    ensures |outs| == if HolderAmount(info, !holderA, s) != 0 then 1 else 0
  {
    var amount := HolderAmount(info, !holderA, s);
    if amount != 0 then [Output(Plain(Holder(info, !holderA)), amount)] else []
  }

  /** The commitment held by A (`holderA`) or B for state `s`, revocable with the
      preimage of `rh`: to-local, to-remote, then one output per HTLC. */
  function CommitmentTx(info: Info, holderA: bool, s: State, rh: Digest): TxBody {
    TxBody([info.funding],
           ToLocalOutputs(info, holderA, s, rh) + ToRemoteOutputs(info, holderA, s) +
           HtlcOutputs(info, Holder(info, !holderA), rh, s.htlcs),
           info.fee, s.n)
  }

  // ---------------------------------------------------------------- channel

  /** What never changes during the life of a channel on one side. */
  datatype Config = Config(isA: bool, info: Info, key: string, remoteKey: string, seed: string) {
    function Local(): string { Holder(info, isA) }
    function Remote(): string { Holder(info, !isA) }
    function RevSecretAt(n: nat): Preimage { RevSecret(seed, n) }
    function RevHash(n: nat): Digest { HashPreimage(RevSecretAt(n)) }
  }

  datatype Revoke = Revoke(revokedN: nat, secret: Preimage, nextHash: Digest)

  datatype ChanError =
    | InFlight | BadNumber | AwaitingRemote | FunderFee | TooManyHtlcs | Unbalanced | BadHtlc
    | BadSignature | SecretMismatch | BadNextHash

  datatype Outcome = Ok | Err(error: ChanError)

  datatype Chan = Chan(
    cfg: Config,
    cur: State,
    pending: Option<State>,
    sigCur: Option<Sig>,
    sigPending: Option<Sig>,
    hashes: map<nat, Digest>,
    secrets: map<nat, Preimage>,
    history: map<nat, State>,
    abandoned: seq<State>)

  predicate Awaiting(c: Chan) { c.cur.n + 1 !in c.hashes }

  function ValidateNext(c: Chan, next: State): Outcome {
    if c.pending.Some? then Err(InFlight)
    else if next.n != c.cur.n + 1 then Err(BadNumber)
    else if next.n !in c.hashes then Err(AwaitingRemote)
    else if next.balA < c.cfg.info.fee then Err(FunderFee)
    else if |next.htlcs| > MAX_HTLCS then Err(TooManyHtlcs)
    else if next.balA + next.balB + HtlcSum(next.htlcs) != c.cfg.info.capacity then Err(Unbalanced)
    else if exists i :: 0 <= i < |next.htlcs| && BadHtlcEntry(next.htlcs[i]) then Err(BadHtlc)
    else Ok
  }

  predicate BadHtlcEntry(h: Htlc) { h.amount == 0 || h.paymentHash.Size() != 128 }

  function SignRemoteCommitment(c: Chan, next: State): Sig {
    var rh := if next.n in c.hashes then c.hashes[next.n] else Text(seq(128, _ => '0'));
    Sig(c.cfg.key, CommitmentTx(c.cfg.info, !c.cfg.isA, next, rh))
  }

  /** The commitment this side would publish for `s`. */
  function OwnCommitment(cfg: Config, s: State): TxBody {
    CommitmentTx(cfg.info, cfg.isA, s, cfg.RevHash(s.n))
  }

  /** `sigN` is the state number sent beside the signature. */
  function ReceiveCommitSig(c: Chan, next: State, sigN: nat, sig: Sig): (Chan, Outcome) {
    var initial := next.n == 0 && c.sigCur.None?;
    var v := ValidateNext(c, next);
    if !initial && v.Err? then (c, v)
    else if sigN != next.n || !Verifies(c.cfg.remoteKey, OwnCommitment(c.cfg, next), sig) then (c, Err(BadSignature))
    else if initial then (c.(cur := next, sigCur := Some(sig)), Ok)
    else (c.(pending := Some(next), sigPending := Some(sig)), Ok)
  }

  function RevokeAndAdvance(c: Chan): (Chan, Revoke)
    requires c.pending.Some?
  {
    (c.(history := c.history[c.cur.n := c.cur], cur := c.pending.value, sigCur := c.sigPending,
        pending := None, sigPending := None),
     Revoke(c.cur.n, c.cfg.RevSecretAt(c.cur.n), c.cfg.RevHash(c.cur.n + 2)))
  }

  function LastRevoke(c: Chan): Revoke {
    var n := if c.cur.n == 0 then 0 else c.cur.n - 1;
    Revoke(n, c.cfg.RevSecretAt(n), c.cfg.RevHash(n + 2))
  }

  function NoteAbandoned(c: Chan, s: State): Chan { c.(abandoned := c.abandoned + [s]) }

  function DropPending(c: Chan): Chan {
    var c' := if c.pending.Some? then NoteAbandoned(c, c.pending.value) else c;
    c'.(pending := None, sigPending := None)
  }

  function ReceiveRevoke(c: Chan, r: Revoke): (Chan, Outcome) {
    if r.revokedN !in c.hashes || HashPreimage(r.secret) != c.hashes[r.revokedN] then (c, Err(SecretMismatch))
    else if r.nextHash.Size() != 128 then (c, Err(BadNextHash))
    else (c.(secrets := c.secrets[r.revokedN := r.secret], hashes := c.hashes[r.revokedN + 2 := r.nextHash]), Ok)
  }

  predicate HasRemoteSecret(c: Chan, n: nat, secret: Preimage) { n in c.secrets && c.secrets[n] == secret }

  /** The unilateral close: the current commitment with both signatures, A's first. */
  function SignedLocalCommitment(c: Chan): Tx
    requires c.sigCur.Some?
  {
    var body := OwnCommitment(c.cfg, c.cur);
    var mine := (c.cfg.key, Sig(c.cfg.key, body));
    var theirs := (c.cfg.remoteKey, c.sigCur.value);
    var script := FundingScript(c.cfg.info.addrA, c.cfg.info.addrB);
    Tx(body, [Witness(script, if c.cfg.isA then [mine, theirs] else [theirs, mine], [])])
  }

  // ---------------------------------------------------------------- penalty

  /** The states this side may have signed for number `n`, in the order tried. */
  function Candidates(c: Chan, n: nat): seq<State> {
    (if n in c.history then [c.history[n]] else []) + Numbered(c.abandoned, n)
  }

  function Numbered(ss: seq<State>, n: nat): (r: seq<State>)
    ensures forall s :: s in r <==> s in ss && s.n == n
  {
    if ss == [] then []
    else (if ss[0].n == n then [ss[0]] else []) + Numbered(ss[1..], n)
  }

  function FirstMatch(cfg: Config, rh: Digest, cands: seq<State>, b: TxBody): Option<State> {
    if cands == [] then None
    else if CommitmentTx(cfg.info, !cfg.isA, cands[0], rh) == b then Some(cands[0])
    else FirstMatch(cfg, rh, cands[1..], b)
  }

  datatype Claim = Claim(vout: nat, script: Script)

  /** The revocable outputs of the peer's commitment for `s`, by position: to-local
      first when it exists, then the HTLCs after the optional to-remote output. */
  function RevocableClaims(cfg: Config, s: State, rh: Digest): seq<Claim> {
    ToLocalClaims(cfg, s, rh) + HtlcClaims(cfg, s, rh)
  }

  function ToLocalClaims(cfg: Config, s: State, rh: Digest): (r: seq<Claim>)
    ensures |r| == |ToLocalOutputs(cfg.info, !cfg.isA, s, rh)|
  {
    if HolderAmount(cfg.info, !cfg.isA, s) == 0 then []
    else [Claim(0, ToLocalScript(cfg.Remote(), cfg.Local(), rh, cfg.info.toSelfDelay))]
  }

  function HtlcClaims(cfg: Config, s: State, rh: Digest): (r: seq<Claim>)
    ensures |r| == |s.htlcs|
    ensures var a, b := |ToLocalOutputs(cfg.info, !cfg.isA, s, rh)|, |ToRemoteOutputs(cfg.info, !cfg.isA, s)|;
            forall i :: 0 <= i < |s.htlcs| ==> r[i] == Claim(a + b + i, HtlcClaimScript(cfg, rh, s.htlcs[i]))
  {
    var base := |ToLocalOutputs(cfg.info, !cfg.isA, s, rh)| + |ToRemoteOutputs(cfg.info, !cfg.isA, s)|;
    seq(|s.htlcs|, i requires 0 <= i < |s.htlcs| => Claim(base + i, HtlcClaimScript(cfg, rh, s.htlcs[i])))
  }

  function HtlcClaimScript(cfg: Config, rh: Digest, h: Htlc): Script {
    HtlcScript(cfg.Local(),
               if h.offeredByA then cfg.info.addrA else cfg.info.addrB,
               if h.offeredByA then cfg.info.addrB else cfg.info.addrA,
               rh, h.paymentHash, h.expiry)
  }

  function ClaimedTotal(b: TxBody, outs: seq<Claim>): nat
    requires forall i :: 0 <= i < |outs| ==> outs[i].vout < |b.outputs|
  {
    if outs == [] then 0 else ClaimedTotal(b, outs[..|outs| - 1]) + b.outputs[outs[|outs| - 1].vout].amount
  }

  const PENALTY_NONCE_BASE: nat := 0x200_0000_0000

  /** The transaction that spends every output in `outs` with the revealed secret. */
  function PenaltyTx(cfg: Config, b: TxBody, outs: seq<Claim>, secret: Preimage): Tx
    requires forall i :: 0 <= i < |outs| ==> outs[i].vout < |b.outputs|
    requires ClaimedTotal(b, outs) > cfg.info.fee
  {
    var body := TxBody(seq(|outs|, i requires 0 <= i < |outs| => OutPoint(IdOf(b), outs[i].vout)),
                       [Output(Plain(cfg.Local()), ClaimedTotal(b, outs) - cfg.info.fee)],
                       cfg.info.fee, PENALTY_NONCE_BASE + b.nonce);
    Tx(body, seq(|outs|, i requires 0 <= i < |outs| =>
                   Witness(outs[i].script, [(cfg.key, Sig(cfg.key, body))], [secret])))
  }

  /** Every claim points at an output of `b` that pays to the claim's script. */
  predicate ClaimsFit(b: TxBody, outs: seq<Claim>) {
    forall i :: 0 <= i < |outs| ==>
        outs[i].vout < |b.outputs| && b.outputs[outs[i].vout].to == ScriptHash(outs[i].script)
  }

  lemma ThirdPart<T>(x: seq<T>, y: seq<T>, z: seq<T>, i: nat)
    requires i < |z|
    ensures (x + y + z)[|x| + |y| + i] == z[i]
  {
  }

  /** Where the outputs of a commitment sit: to-local, to-remote, ... */
  lemma CommitmentHead(info: Info, holderA: bool, s: State, rh: Digest)
    ensures var outs := CommitmentTx(info, holderA, s, rh).outputs;
            var a, b := ToLocalOutputs(info, holderA, s, rh), ToRemoteOutputs(info, holderA, s);
            && |outs| == |a| + |b| + |s.htlcs|
            && (|a| == 1 ==> outs[0] == a[0])
            && (|b| == 1 ==> outs[|a|] == b[0])
  {
  }

  /** ... then the HTLCs in state order. */
  lemma {:induction false} CommitmentHtlc(info: Info, holderA: bool, s: State, rh: Digest, i: nat)
    requires i < |s.htlcs|
    ensures var outs := CommitmentTx(info, holderA, s, rh).outputs;
            var a, b := |ToLocalOutputs(info, holderA, s, rh)|, |ToRemoteOutputs(info, holderA, s)|;
            a + b + i < |outs| && outs[a + b + i] == HtlcOutput(info, Holder(info, !holderA), rh, s.htlcs[i])
  {
    CommitmentHead(info, holderA, s, rh);
    ThirdPart(ToLocalOutputs(info, holderA, s, rh), ToRemoteOutputs(info, holderA, s),
              HtlcOutputs(info, Holder(info, !holderA), rh, s.htlcs), i);
  }

  lemma {:induction false} HtlcClaimFits(cfg: Config, s: State, rh: Digest, i: nat)
    requires i < |s.htlcs|
    ensures var b, claim := CommitmentTx(cfg.info, !cfg.isA, s, rh), HtlcClaims(cfg, s, rh)[i];
            claim.vout < |b.outputs| && b.outputs[claim.vout].to == ScriptHash(claim.script)
  {
    CommitmentHtlc(cfg.info, !cfg.isA, s, rh, i);
  }

  lemma {:induction false} RevocableClaimsFit(cfg: Config, s: State, rh: Digest)
    ensures ClaimsFit(CommitmentTx(cfg.info, !cfg.isA, s, rh), RevocableClaims(cfg, s, rh))
  {
    var b := CommitmentTx(cfg.info, !cfg.isA, s, rh);
    assert ClaimsFit(b, ToLocalClaims(cfg, s, rh)) by { CommitmentHead(cfg.info, !cfg.isA, s, rh); }
    assert ClaimsFit(b, HtlcClaims(cfg, s, rh)) by {
      forall i | 0 <= i < |s.htlcs| { HtlcClaimFits(cfg, s, rh, i); }
    }
  }

  /** The penalty for a published commitment `b`: nothing unless the peer revoked that
      number and `b` is a commitment this side signed; otherwise one transaction that
      spends every revocable output, unless they are not worth the fee. */
  function PenaltyFor(c: Chan, b: TxBody): Option<Tx> {
    if b.nonce !in c.secrets || b.nonce !in c.hashes then None
    else
      var rh := c.hashes[b.nonce];
      var found := FirstMatch(c.cfg, rh, Candidates(c, b.nonce), b);
      if found.None? then None
      else
        FirstMatchSound(c.cfg, rh, Candidates(c, b.nonce), b);
        RevocableClaimsFit(c.cfg, found.value, rh);
        var outs := RevocableClaims(c.cfg, found.value, rh);
        if ClaimedTotal(b, outs) <= c.cfg.info.fee then None
        else Some(PenaltyTx(c.cfg, b, outs, c.secrets[b.nonce]))
  }

  lemma FirstMatchSound(cfg: Config, rh: Digest, cands: seq<State>, b: TxBody)
    ensures var m := FirstMatch(cfg, rh, cands, b);
            if m.Some? then m.value in cands && CommitmentTx(cfg.info, !cfg.isA, m.value, rh) == b
            else forall s :: s in cands ==> CommitmentTx(cfg.info, !cfg.isA, s, rh) != b
  {
    if cands != [] {
      FirstMatchSound(cfg, rh, cands[1..], b);
      assert forall s :: s in cands ==> s == cands[0] || s in cands[1..];
    }
  }
}
