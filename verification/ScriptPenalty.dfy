/** The penalty of a channel as the chain sees it: its transaction in the texts the node
    writes, and when the chain's check of its inputs lets it through. */
module ScriptPenalty {
  import opened Basics
  import opened Text
  import opened Witness
  import opened Script
  import opened ScriptExact
  import opened ScriptSpend
  import opened ScriptChannel
  import S = Symbols
  import C = Channel
  import P = ChannelPenalty

  // ---------------------------------------------------------------------- the texts

  /** How digests, secrets, keys, signatures and transactions are written. */
  datatype Form = Form(cr: Crypto, hash: S.Preimage -> string, pre: S.Preimage -> string, pub: string -> string,
                       sig: S.Sig -> string, sighash: S.TxBody -> string)

  /** Digests are hashes, a secret hashes to its digest, and signatures verify. */
  ghost predicate Proper(f: Form) {
    && (forall p :: HashOk(f.hash(p)))
    && (forall p: S.Preimage :: !p.NotHex? ==> f.cr.sha3(f.pre(p)) == f.hash(p) && ';' !in f.pre(p))
    && (forall seed, n :: HexOk(f.pre(S.RevSecret(seed, n))))
    && (forall k, b :: f.cr.verifies(f.pub(k), f.sighash(b), f.sig(S.Sig(k, b))))
    && (forall k :: ':' !in f.pub(k) && ';' !in f.pub(k)) && (forall g :: ';' !in f.sig(g))
    && (forall t :: IsScriptAddress(f.cr.address(t)))
  }

  /** No other script text has the address of one of these outputs. */
  ghost predicate Unshared(f: Form, b: S.TxBody) {
    forall o :: o in b.outputs && o.to.ScriptHash? ==> NoCollision(f.cr, OwnerOf(f, o), NodeOf(f, o.to.script))
  }

  function HashText(f: Form, d: S.Digest): string {
    match d
    case Sha3(p) => f.hash(p)
    case Text(t) => t
  }

  function NodeOf(f: Form, s: S.Script): Node {
    match s
    case Pk(a) => Pk(a)
    case HashLock(d) => Sha3(HashText(f, d))
    case After(h) => After(h)
    case Older(d) => Older(d)
    case And(a, b) => And(NodeOf(f, a), NodeOf(f, b))
    case Or(a, b) => Or(NodeOf(f, a), NodeOf(f, b))
  }

  function OwnerOf(f: Form, o: S.Output): string {
    match o.to
    case Plain(a) => a
    case ScriptHash(s) => f.cr.address(Show(NodeOf(f, s)))
  }

  function SpendOf(f: Form, w: S.Witness): Spend {
    Spend(Show(NodeOf(f, w.script)),
          seq(|w.sigs|, i requires 0 <= i < |w.sigs| => (f.pub(w.sigs[i].0), f.sig(w.sigs[i].1))),
          seq(|w.preimages|, i requires 0 <= i < |w.preimages| => f.pre(w.preimages[i])))
  }

  /** Input `i` of `t`, which spends an output of `b`, passes the chain's check. */
  ghost predicate InputPasses(f: Form, b: S.TxBody, t: S.Tx, i: nat, spendHeight: nat, utxoHeight: nat)
    requires i < |t.body.inputs| == |t.witnesses| && t.body.inputs[i].vout < |b.outputs|
  {
    Spends(f.cr, OwnerOf(f, b.outputs[t.body.inputs[i].vout]), SpendOf(f, t.witnesses[i]),
           Context(f.sighash(t.body), spendHeight, utxoHeight))
  }

  ghost predicate AllPass(f: Form, b: S.TxBody, t: S.Tx, spendHeight: nat, utxoHeight: nat) {
    && |t.body.inputs| == |t.witnesses|
    && forall i :: 0 <= i < |t.body.inputs| ==>
         t.body.inputs[i].vout < |b.outputs| && InputPasses(f, b, t, i, spendHeight, utxoHeight)
  }

  // ---------------------------------------------------------------- one revoked output

  /** A script with a revocation alternative for `local`, its figures of any value. */
  predicate Shaped(f: Form, s: S.Script, local: string, rh: S.Digest) {
    && s.Or? && s.left == S.And(S.Pk(local), S.HashLock(rh))
    && var n := NodeOf(f, s);
       && Sized(n.b) && Size(n) <= MAX_NODES && Depth(n) <= MAX_DEPTH
       && (WellFormed(n) ==> |Show(n)| <= MAX_SCRIPT_BYTES)
  }

  lemma {:induction false} ShowClean(n: Node)
    requires WellFormed(n)
    ensures ';' !in Show(n)
  {
    hide Decimal, HashOk, Show;
    ShowHead(n);
    if IsLeaf(n) { LeafClean(n); } else { ShowClean(n.a); ShowClean(n.b); }
  }

  lemma LeafClean(n: Node)
    requires WellFormed(n) && IsLeaf(n)
    ensures ';' !in Show(n)
  {
    hide Decimal, HashOk, Show, Opcode, WellFormed;
    OpcodeFacts(n);
  }

  /** The witness of a penalty for one output. */
  function Taking(f: Form, n: Node, key: string, body: S.TxBody, secret: S.Preimage): Spend {
    OneSig(n, (f.pub(key), f.sig(S.Sig(key, body))), [f.pre(secret)])
  }

  lemma TakingFields(f: Form, n: Node, key: string, body: S.TxBody, secret: S.Preimage)
    requires Proper(f) && !secret.NotHex? && ';' !in Show(n)
    ensures var w := Taking(f, n, key, body, secret);
            && (Carried(w) <==> HexOk(f.pre(secret))) && (Decode(Encode(w)).Some? ==> HexOk(f.pre(secret)))
  {
    hide Show, HexOk, HashOk, Cut, Join, Decimal, IsScriptAddress;
    var w := Taking(f, n, key, body, secret);
    assert Carried(w) <==> HexOk(f.pre(secret)) by { assert w.sigs[0] in w.sigs && w.preimages[0] in w.preimages; }
    var ps := Fields(w);
    FieldsAt(w);
    assert SigFields(w.sigs)[0] == SigField(w.sigs[0]) == ps[2..3][0] == ps[2];
    assert ps[4] == ps[4..][0];
    DigitCount(1);
    CleanDigit();
    forall p | p in ps ensures ';' !in p { var i :| 0 <= i < |ps| && ps[i] == p; }
    JoinCuts(ps);
  }

  lemma CleanDigit()
    ensures ';' !in Decimal(1)
  {
  }

  lemma RevokingHolds(cr: Crypto, cx: Context, w: Spend, r: string, rh: string, c: Node)
    requires HasSig(cr, cx, w, r) && HasPre(cr, w, rh)
    ensures Holds(cr, cx, w, Revoking(r, rh, c))
    ensures Pk(r) in Leaves(Revoking(r, rh, c)) && Sha3(rh) in Leaves(Revoking(r, rh, c))
  {
    hide Signs;
    var a := And(Pk(r), Sha3(rh));
    assert Holds(cr, cx, w, a);
    assert Leaves(a) == Leaves(Pk(r)) + Leaves(Sha3(rh));
  }

  /** Taking a revoked output passes the check at any height if and only if its script is
      well-formed and the secret is written as a witness must write it. */
  lemma OutputTaken(f: Form, n: Node, local: string, key: string, body: S.TxBody, secret: S.Preimage, cx: Context)
    requires Proper(f) && !secret.NotHex? && Address(local) && f.cr.binds(local, f.pub(key))
    requires n.Or? && n == Revoking(local, f.hash(secret), n.b) && Sized(n.b)
    requires Size(n) <= MAX_NODES && Depth(n) <= MAX_DEPTH
    requires (WellFormed(n) ==> |Show(n)| <= MAX_SCRIPT_BYTES) && cx.sighash == f.sighash(body)
    requires NoCollision(f.cr, f.cr.address(Show(n)), n)
    ensures Spends(f.cr, f.cr.address(Show(n)), Taking(f, n, key, body, secret), cx) <==>
            WellFormed(n) && HexOk(f.pre(secret))
  {
    hide Show, WellFormed, Size, Depth, Sized, HashOk, HexOk, Spends, Taking, AtomOk, NoCollision;
    if WellFormed(n) && HexOk(f.pre(secret)) { TakenIf(f, n, local, key, body, secret, cx); }
    if Spends(f.cr, f.cr.address(Show(n)), Taking(f, n, key, body, secret), cx) {
      TakenOnlyIf(f, n, local, key, body, secret, cx);
    }
  }

  lemma TakenIf(f: Form, n: Node, local: string, key: string, body: S.TxBody, secret: S.Preimage, cx: Context)
    requires Proper(f) && !secret.NotHex? && f.cr.binds(local, f.pub(key)) && cx.sighash == f.sighash(body)
    requires n.Or? && n == Revoking(local, f.hash(secret), n.b)
    requires Size(n) <= MAX_NODES && Depth(n) <= MAX_DEPTH
    requires WellFormed(n) && |Show(n)| <= MAX_SCRIPT_BYTES && HexOk(f.pre(secret))
    ensures Spends(f.cr, f.cr.address(Show(n)), Taking(f, n, key, body, secret), cx)
  {
    hide Show, WellFormed, Size, Depth, HashOk, HexOk, Spends, Holds, Leaves, Encode, Decode, Carried, FirstSig,
        FirstPre, IsScriptAddress;
    var w := Taking(f, n, key, body, secret);
    assert w.sigs[0] in w.sigs && w.preimages[0] in w.preimages;
    assert Signs(f.cr, cx, local, w.sigs[0]);
    ShowClean(n);
    TakingFields(f, n, key, body, secret);
    RevokingHolds(f.cr, cx, w, local, f.hash(secret), n.b);
    OneSigSpare(f.cr, cx, w, n, local);
    OnePreSpare(f.cr, w, n, f.hash(secret));
    JudgedBy(f.cr, f.cr.address(Show(n)), n, w, cx);
  }

  lemma TakenOnlyIf(f: Form, n: Node, local: string, key: string, body: S.TxBody, secret: S.Preimage, cx: Context)
    requires Proper(f) && !secret.NotHex? && Address(local)
    requires n.Or? && n == Revoking(local, f.hash(secret), n.b) && Sized(n.b)
    requires NoCollision(f.cr, f.cr.address(Show(n)), n)
    requires Spends(f.cr, f.cr.address(Show(n)), Taking(f, n, key, body, secret), cx)
    ensures WellFormed(n) && HexOk(f.pre(secret))
  {
    hide Show, WellFormed, Size, Depth, Sized, HashOk, HexOk, Holds, Encode, Decode, NothingSpare, AtomOk, Taking,
        IsScriptAddress;
    var w := Taking(f, n, key, body, secret);
    var v, m :| MaySpend(f.cr, f.cr.address(Show(n)), Encode(w), cx, v, m);
    assert Show(m) == Show(n) == v.script;
    RevokingReadable(m, local, f.hash(secret), n.b);
    TakingFields(f, n, key, body, secret);
    SpendDecodes(f.cr, f.cr.address(Show(n)), Encode(w), cx, v, m);
  }

  // ------------------------------------------------------------- a revoked commitment

  predicate HtlcEnforceable(f: Form, h: C.Htlc) { HashOk(HashText(f, h.paymentHash)) && h.expiry < NUMBER_LIMIT }

  /** A revealed secret that a witness can carry. */
  predicate SecretOk(f: Form, secret: S.Preimage) { !secret.NotHex? && HexOk(f.pre(secret)) }

  /** The figures of the peer's commitment to `x` are in order. */
  predicate Enforceable(f: Form, cfg: C.Config, x: C.State) {
    && (C.HolderAmount(cfg.info, !cfg.isA, x) != 0 ==> cfg.info.toSelfDelay < NUMBER_LIMIT)
    && forall h :: h in x.htlcs ==> HtlcEnforceable(f, h)
  }

  /** What a channel assures of the states it signs: payment hashes have their length. */
  predicate Lengths(x: C.State) { forall h :: h in x.htlcs ==> h.paymentHash.Size() == 128 }

  predicate Addresses(cfg: C.Config) { Address(cfg.info.addrA) && Address(cfg.info.addrB) }

  lemma HashLength(f: Form, d: S.Digest)
    requires Proper(f) && d.Size() == 128
    ensures |HashText(f, d)| == 128
  {
  }

  lemma NodeOfKeyed(f: Form, a: string, s: S.Script)
    ensures NodeOf(f, S.And(S.Pk(a), s)) == And(Pk(a), NodeOf(f, s))
  {
  }

  lemma HtlcShaped(f: Form, cfg: C.Config, rh: S.Digest, h: C.Htlc)
    requires Proper(f) && Addresses(cfg) && h.paymentHash.Size() == 128
    ensures var s := C.HtlcClaimScript(cfg, rh, h);
            Shaped(f, s, cfg.Local(), rh) &&
                (WellFormed(NodeOf(f, s)) <==> HashOk(HashText(f, rh)) && HtlcEnforceable(f, h))
  {
    hide WellFormed, Size, Depth, Show, AtomOk, IsScriptAddress;
    var s, l := C.HtlcClaimScript(cfg, rh, h), cfg.Local();
    var off := if h.offeredByA then cfg.info.addrA else cfg.info.addrB;
    var rcv := if h.offeredByA then cfg.info.addrB else cfg.info.addrA;
    var ph := HashText(f, h.paymentHash);
    HashLength(f, h.paymentHash);
    NodeOfKeyed(f, l, S.HashLock(rh));
    NodeOfKeyed(f, rcv, S.HashLock(h.paymentHash));
    NodeOfKeyed(f, off, S.After(h.expiry));
    assert NodeOf(f, s.right) == Claiming(off, rcv, ph, h.expiry);
    assert NodeOf(f, s) == Htlc(l, off, rcv, HashText(f, rh), ph, h.expiry);
    HtlcWell(l, off, rcv, HashText(f, rh), ph, h.expiry);
    SizedClaim(off, rcv, ph, h.expiry);
  }

  lemma SizedClaim(offerer: string, receiver: string, ph: string, expiry: nat)
    requires Address(offerer) && Address(receiver) && |ph| <= 128
    ensures Sized(Claiming(offerer, receiver, ph, expiry))
  {
    hide AtomOk;
    assert Sized(Pk(receiver)) && Sized(Sha3(ph)) && Sized(Pk(offerer)) && Sized(After(expiry));
    assert Sized(And(Pk(receiver), Sha3(ph))) && Sized(And(Pk(offerer), After(expiry)));
  }

  lemma ToLocalShaped(f: Form, cfg: C.Config, rh: S.Digest)
    requires Proper(f) && Addresses(cfg)
    ensures var s := C.ToLocalScript(cfg.Remote(), cfg.Local(), rh, cfg.info.toSelfDelay);
            Shaped(f, s, cfg.Local(), rh) &&
                (WellFormed(NodeOf(f, s)) <==> HashOk(HashText(f, rh)) && cfg.info.toSelfDelay < NUMBER_LIMIT)
  {
    hide WellFormed, Size, Depth, Show, AtomOk, IsScriptAddress;
    var s, l, d := C.ToLocalScript(cfg.Remote(), cfg.Local(), rh, cfg.info.toSelfDelay), cfg.Local(),
        cfg.info.toSelfDelay;
    NodeOfKeyed(f, l, S.HashLock(rh));
    NodeOfKeyed(f, cfg.Remote(), S.Older(d));
    assert NodeOf(f, s) == ToLocal(cfg.Remote(), l, HashText(f, rh), d);
    ToLocalWell(cfg.Remote(), l, HashText(f, rh), d);
    assert Sized(Pk(cfg.Remote())) && Sized(Older(d)) && Sized(And(Pk(cfg.Remote()), Older(d)));
  }

  /** A commitment's revocable output `k`: to-local first, then the HTLCs. */
  predicate OutputFine(f: Form, cfg: C.Config, x: C.State, rh: S.Digest, k: nat) {
    var a, b := |C.ToLocalOutputs(cfg.info, !cfg.isA, x, rh)|, |C.ToRemoteOutputs(cfg.info, !cfg.isA, x)|;
    if k < a then cfg.info.toSelfDelay < NUMBER_LIMIT
    else a + b <= k < a + b + |x.htlcs| && HtlcEnforceable(f, x.htlcs[k - a - b])
  }

  lemma CommitmentScripts(cfg: C.Config, x: C.State, rh: S.Digest, k: nat)
    requires k < |C.CommitmentTx(cfg.info, !cfg.isA, x, rh).outputs|
    ensures var to := C.CommitmentTx(cfg.info, !cfg.isA, x, rh).outputs[k].to;
            var a, b := |C.ToLocalOutputs(cfg.info, !cfg.isA, x, rh)|, |C.ToRemoteOutputs(cfg.info, !cfg.isA, x)|;
            && k < a + b + |x.htlcs|
            && (k < a ==> to == S.ScriptHash(C.ToLocalScript(cfg.Remote(), cfg.Local(), rh, cfg.info.toSelfDelay)))
            && (a + b <= k ==> to == S.ScriptHash(C.HtlcClaimScript(cfg, rh, x.htlcs[k - a - b])))
  {
    hide C.CommitmentTx;
    var a, b := |C.ToLocalOutputs(cfg.info, !cfg.isA, x, rh)|, |C.ToRemoteOutputs(cfg.info, !cfg.isA, x)|;
    C.CommitmentHead(cfg.info, !cfg.isA, x, rh);
    if a + b <= k { C.CommitmentHtlc(cfg.info, !cfg.isA, x, rh, k - a - b); }
  }

  lemma OutputKind(f: Form, cfg: C.Config, x: C.State, rh: S.Digest, k: nat)
    requires Proper(f) && Addresses(cfg) && Lengths(x)
    requires var outs := C.CommitmentTx(cfg.info, !cfg.isA, x, rh).outputs;
             k < |outs| && P.Revocable(outs[k], cfg.Local(), rh)
    ensures var s := C.CommitmentTx(cfg.info, !cfg.isA, x, rh).outputs[k].to.script;
            && Shaped(f, s, cfg.Local(), rh)
            && (WellFormed(NodeOf(f, s)) <==> HashOk(HashText(f, rh)) && OutputFine(f, cfg, x, rh, k))
  {
    hide Proper, Shaped, WellFormed, HashOk, NodeOf, HtlcEnforceable, C.CommitmentTx, C.HtlcClaimScript,
        C.ToLocalScript, Addresses;
    var a, b := |C.ToLocalOutputs(cfg.info, !cfg.isA, x, rh)|, |C.ToRemoteOutputs(cfg.info, !cfg.isA, x)|;
    P.RevocableAt(cfg, x, rh, k);
    CommitmentScripts(cfg, x, rh, k);
    if k < a {
      ToLocalShaped(f, cfg, rh);
    } else {
      assert x.htlcs[k - a - b] in x.htlcs;
      HtlcShaped(f, cfg, rh, x.htlcs[k - a - b]);
    }
  }

  /** No secret takes an output whose revocation hash is no hash. */
  lemma NeverTaken(f: Form, n: Node, w: Spend, cx: Context, local: string, rh: string)
    requires Proper(f) && Address(local) && n.Or? && n == Revoking(local, rh, n.b) && Sized(n.b)
    requires NoCollision(f.cr, f.cr.address(Show(n)), n)
    requires Spends(f.cr, f.cr.address(Show(n)), w, cx)
    ensures WellFormed(n)
  {
    hide Show, WellFormed, Size, Depth, Sized, HashOk, HexOk, Holds, Encode, Decode, NothingSpare, AtomOk,
        IsScriptAddress;
    var v, m :| MaySpend(f.cr, f.cr.address(Show(n)), Encode(w), cx, v, m);
    assert Show(m) == Show(n);
    RevokingReadable(m, local, rh, n.b);
  }

  lemma SpendIsTaking(f: Form, s: S.Script, key: string, body: S.TxBody, secret: S.Preimage)
    ensures SpendOf(f, S.Witness(s, [(key, S.Sig(key, body))], [secret])) == Taking(f, NodeOf(f, s), key, body, secret)
  {
    hide Show, NodeOf;
  }

  /** One input of a penalty. */
  lemma InputTaken(f: Form, cfg: C.Config, b: S.TxBody, rh: S.Digest, secret: S.Preimage, t: S.Tx, i: nat,
      spendHeight: nat, utxoHeight: nat)
    requires Proper(f) && Addresses(cfg) && f.cr.binds(cfg.Local(), f.pub(cfg.key)) && S.HashPreimage(secret) == rh
    requires P.SpendsWithSecret(cfg, b, rh, secret, t) && i < |t.body.inputs| && Unshared(f, b)
    requires Shaped(f, b.outputs[t.body.inputs[i].vout].to.script, cfg.Local(), rh)
    ensures InputPasses(f, b, t, i, spendHeight, utxoHeight) <==>
            SecretOk(f, secret) && WellFormed(NodeOf(f, b.outputs[t.body.inputs[i].vout].to.script))
  {
    hide Proper, WellFormed, Size, Depth, Sized, Show, HashOk, HexOk, Spends, AtomOk, SpendOf, NoCollision;
    assert b.outputs[t.body.inputs[i].vout] in b.outputs;
    var s := b.outputs[t.body.inputs[i].vout].to.script;
    var n, cx := NodeOf(f, s), Context(f.sighash(t.body), spendHeight, utxoHeight);
    NodeOfKeyed(f, cfg.Local(), S.HashLock(rh));
    assert n == Revoking(cfg.Local(), HashText(f, rh), n.b);
    SpendIsTaking(f, s, cfg.key, t.body, secret);
    if secret.NotHex? {
      if InputPasses(f, b, t, i, spendHeight, utxoHeight) {
        NeverTaken(f, n, SpendOf(f, t.witnesses[i]), cx, cfg.Local(), "");
        EmptyNoHash(cfg.Local(), n.b);
      }
    } else {
      OutputTaken(f, n, cfg.Local(), cfg.key, t.body, secret, cx);
    }
  }

  lemma EmptyNoHash(r: string, c: Node)
    ensures !WellFormed(Revoking(r, "", c))
  {
    assert !WellFormed(Sha3(""));
    assert !WellFormed(And(Pk(r), Sha3("")));
  }

  // --------------------------------------------------------------------- the penalty

  lemma {:induction false} SomeRevocable(outs: seq<S.Output>, local: string, rh: S.Digest) returns (k: nat)
    requires P.RevocableTotal(outs, local, rh) > 0
    ensures k < |outs| && P.Revocable(outs[k], local, rh)
  {
    hide P.Revocable;
    if P.Revocable(outs[|outs| - 1], local, rh) { return |outs| - 1; }
    k := SomeRevocable(outs[..|outs| - 1], local, rh);
  }

  /** Output `k` of `b` is what input `i` of `t` spends. */
  lemma InputFor(cfg: C.Config, b: S.TxBody, rh: S.Digest, ins: seq<S.OutPoint>, k: nat) returns (i: nat)
    requires P.CoversRevocable(cfg, b, rh, ins) && k < |b.outputs| && P.Revocable(b.outputs[k], cfg.Local(), rh)
    ensures i < |ins| && ins[i].vout == k
  {
    assert S.OutPoint(S.IdOf(b), k) in ins;
    i :| 0 <= i < |ins| && ins[i] == S.OutPoint(S.IdOf(b), k);
  }

  /** All inputs of a penalty pass if and only if the secret can be carried and every
      revocable output is fine. */
  lemma AllTaken(f: Form, cfg: C.Config, x: C.State, rh: S.Digest, secret: S.Preimage, t: S.Tx, spendHeight: nat,
      utxoHeight: nat)
    requires Proper(f) && Addresses(cfg) && f.cr.binds(cfg.Local(), f.pub(cfg.key)) && Lengths(x)
    requires var b := C.CommitmentTx(cfg.info, !cfg.isA, x, rh);
             P.PenaltyExact(cfg, b, rh, secret, Some(t)) && Unshared(f, b)
    ensures var b := C.CommitmentTx(cfg.info, !cfg.isA, x, rh);
            AllPass(f, b, t, spendHeight, utxoHeight) <==>
                && SecretOk(f, secret)
                && forall k :: 0 <= k < |b.outputs| && P.Revocable(b.outputs[k], cfg.Local(), rh) ==>
                     OutputFine(f, cfg, x, rh, k)
  {
    hide Proper, Addresses, P.Revocable, Shaped, WellFormed, NodeOf, OutputFine, InputPasses, SecretOk, C.CommitmentTx,
        P.RevocableTotal, P.Ascending, P.CoversRevocable, Lengths, HashOk, Unshared;
    var b := C.CommitmentTx(cfg.info, !cfg.isA, x, rh);
    forall i | 0 <= i < |t.body.inputs|
      ensures InputPasses(f, b, t, i, spendHeight, utxoHeight) <==>
              SecretOk(f, secret) && OutputFine(f, cfg, x, rh, t.body.inputs[i].vout)
    {
      OutputKind(f, cfg, x, rh, t.body.inputs[i].vout);
      InputTaken(f, cfg, b, rh, secret, t, i, spendHeight, utxoHeight);
      if SecretOk(f, secret) { SecretHash(f, secret); }
    }
    if AllPass(f, b, t, spendHeight, utxoHeight) {
      var k := SomeRevocable(b.outputs, cfg.Local(), rh);
      var i := InputFor(cfg, b, rh, t.body.inputs, k);
      forall k | 0 <= k < |b.outputs| && P.Revocable(b.outputs[k], cfg.Local(), rh)
        ensures OutputFine(f, cfg, x, rh, k)
      {
        var i := InputFor(cfg, b, rh, t.body.inputs, k);
      }
    }
  }

  lemma SecretHash(f: Form, secret: S.Preimage)
    requires Proper(f) && SecretOk(f, secret)
    ensures HashOk(HashText(f, S.HashPreimage(secret)))
  {
  }

  lemma FineIsEnforceable(f: Form, cfg: C.Config, x: C.State, rh: S.Digest)
    ensures var b := C.CommitmentTx(cfg.info, !cfg.isA, x, rh);
            (forall k :: 0 <= k < |b.outputs| && P.Revocable(b.outputs[k], cfg.Local(), rh) ==>
               OutputFine(f, cfg, x, rh, k)) <==> Enforceable(f, cfg, x)
  {
    hide P.Revocable, HtlcEnforceable, C.CommitmentTx;
    var outs := C.CommitmentTx(cfg.info, !cfg.isA, x, rh).outputs;
    var a, b := |C.ToLocalOutputs(cfg.info, !cfg.isA, x, rh)|, |C.ToRemoteOutputs(cfg.info, !cfg.isA, x)|;
    C.CommitmentHead(cfg.info, !cfg.isA, x, rh);
    forall k | 0 <= k < |outs| ensures P.Revocable(outs[k], cfg.Local(), rh) <==> k < a || a + b <= k {
      P.RevocableAt(cfg, x, rh, k);
    }
    if forall k :: 0 <= k < |outs| && P.Revocable(outs[k], cfg.Local(), rh) ==> OutputFine(f, cfg, x, rh, k) {
      assert a > 0 ==> OutputFine(f, cfg, x, rh, 0);
      forall h | h in x.htlcs ensures HtlcEnforceable(f, h) {
        var j :| 0 <= j < |x.htlcs| && x.htlcs[j] == h;
        assert OutputFine(f, cfg, x, rh, a + b + j);
      }
    }
  }

  /** The penalty for a revoked commitment passes the chain's check of its inputs, at any
      height, if and only if the figures of the commitment are in order and the revealed
      secret can be carried: one HTLC that nobody can spend spoils the whole penalty. */
  lemma PenaltyPasses(f: Form, c: C.Chan, x: C.State, spendHeight: nat, utxoHeight: nat)
    requires Proper(f) && Addresses(c.cfg) && f.cr.binds(c.cfg.Local(), f.pub(c.cfg.key)) && Lengths(x)
    requires x.n in c.secrets && x.n in c.hashes && S.HashPreimage(c.secrets[x.n]) == c.hashes[x.n]
    requires x in C.Candidates(c, x.n) && Unshared(f, C.CommitmentTx(c.cfg.info, !c.cfg.isA, x, c.hashes[x.n]))
    ensures var b := C.CommitmentTx(c.cfg.info, !c.cfg.isA, x, c.hashes[x.n]);
            var t := C.PenaltyFor(c, b);
            t.Some? ==> (AllPass(f, b, t.value, spendHeight, utxoHeight) <==>
                           SecretOk(f, c.secrets[x.n]) && Enforceable(f, c.cfg, x))
  {
    hide Proper, Addresses, AllPass, SecretOk, Enforceable, C.CommitmentTx, C.PenaltyFor, Lengths, S.HashPreimage,
        P.PenaltyExact, P.Revocable, OutputFine, C.Candidates, Unshared;
    var rh := c.hashes[x.n];
    var b := C.CommitmentTx(c.cfg.info, !c.cfg.isA, x, rh);
    var t := C.PenaltyFor(c, b);
    P.PenaltyIsExact(c, x);
    if t.Some? {
      AllTaken(f, c.cfg, x, rh, c.secrets[x.n], t.value, spendHeight, utxoHeight);
      FineIsEnforceable(f, c.cfg, x, rh);
    }
  }

  /** There are such forms: every hash a row of zeros, and one address kept for `n`. */
  lemma FormExists(n: Node) returns (f: Form)
    ensures Proper(f) && NoCollision(f.cr, f.cr.address(Show(n)), n)
  {
    var row: string := seq(128, _ => '0');
    var one: string := "sh1" + row[..127] + "1";
    var text := Show(n);
    f := Form(Crypto((a: string, k: string) => true, (k: string, m: string, s: string) => true, (s: string) => row,
                     (s: string) => if s == text then one else "sh1" + row),
              (p: S.Preimage) => row, (p: S.Preimage) => "00", (k: string) => "k", (g: S.Sig) => "s",
              (b: S.TxBody) => "m");
    assert ("sh1" + row)[130] == '0' && one[130] == '1';
    assert one[..3] == "sh1" && ("sh1" + row)[..3] == "sh1";
  }
}
