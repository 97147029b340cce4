/** Spending a script output: evaluation, the rule that nothing in a witness is unused,
    and what the channel scripts let whom do when. */
module ScriptSpend {
  import opened Basics
  import opened Text
  import opened Witness
  import opened Script

  /** Keys, signatures and hashes, as arbitrary functions: whether a key belongs to an
      address, whether a signature verifies, the hash of a preimage, and the address of a
      script text. */
  datatype Crypto = Crypto(binds: (string, string) -> bool, verifies: (string, string, string) -> bool,
                           sha3: string -> string, address: string -> string)

  datatype Context = Context(sighash: string, spendHeight: nat, utxoHeight: nat)

  predicate IsScriptAddress(a: string) { |a| == 131 && a[..3] == "sh1" }

  // ------------------------------------------------------------------------- meaning

  predicate SigValid(cr: Crypto, cx: Context, s: (string, string)) { cr.verifies(s.0, cx.sighash, s.1) }

  predicate Signs(cr: Crypto, cx: Context, addr: string, s: (string, string)) {
    cr.binds(addr, s.0) && SigValid(cr, cx, s)
  }

  /** The first signature for `addr`, or the number of signatures. */
  function FirstSig(cr: Crypto, cx: Context, addr: string, sigs: seq<(string, string)>): (k: nat)
    ensures k <= |sigs| && (k < |sigs| ==> Signs(cr, cx, addr, sigs[k]))
    ensures forall j :: 0 <= j < k ==> !Signs(cr, cx, addr, sigs[j])
  {
    if sigs == [] || Signs(cr, cx, addr, sigs[0]) then 0 else 1 + FirstSig(cr, cx, addr, sigs[1..])
  }

  function FirstPre(cr: Crypto, hash: string, pres: seq<string>): (k: nat)
    ensures k <= |pres| && (k < |pres| ==> cr.sha3(pres[k]) == hash)
    ensures forall j :: 0 <= j < k ==> cr.sha3(pres[j]) != hash
  {
    if pres == [] || cr.sha3(pres[0]) == hash then 0 else 1 + FirstPre(cr, hash, pres[1..])
  }

  /** The condition a script states, as read off its tree. */
  predicate Holds(cr: Crypto, cx: Context, w: Spend, n: Node) {
    match n
    case Pk(a) => exists s :: s in w.sigs && Signs(cr, cx, a, s)
    case Sha3(h) => exists p :: p in w.preimages && cr.sha3(p) == h
    case After(k) => cx.spendHeight >= k
    case Older(k) => cx.spendHeight - cx.utxoHeight >= k
    case And(a, b) => Holds(cr, cx, w, a) && Holds(cr, cx, w, b)
    case Or(a, b) => Holds(cr, cx, w, a) || Holds(cr, cx, w, b)
  }

  function Leaves(n: Node): set<Node> {
    match n
    case And(a, b) => Leaves(a) + Leaves(b)
    case Or(a, b) => Leaves(a) + Leaves(b)
    case _ => {n}
  }

  /** Signature `k` is the first for some address the script names. */
  ghost predicate SigNeeded(cr: Crypto, cx: Context, w: Spend, n: Node, k: nat) {
    exists a :: Pk(a) in Leaves(n) && FirstSig(cr, cx, a, w.sigs) == k
  }

  ghost predicate PreNeeded(cr: Crypto, w: Spend, n: Node, k: nat) {
    exists h :: Sha3(h) in Leaves(n) && FirstPre(cr, h, w.preimages) == k
  }

  ghost predicate NothingSpare(cr: Crypto, cx: Context, w: Spend, n: Node) {
    && (forall k :: 0 <= k < |w.sigs| ==> SigNeeded(cr, cx, w, n, k))
    && (forall k :: 0 <= k < |w.preimages| ==> PreNeeded(cr, w, n, k))
  }

  /** `script` is the canonical text of `m`, within the limits. */
  predicate Readable(m: Node, script: string) {
    && WellFormed(m) && Show(m) == script
    && Size(m) <= MAX_NODES && Depth(m) <= MAX_DEPTH && |script| <= MAX_SCRIPT_BYTES
  }

  /** The declarative reading of a valid spend. */
  ghost predicate MaySpend(cr: Crypto, owner: string, text: string, cx: Context, w: Spend, n: Node) {
    && IsScriptAddress(owner) && owner == cr.address(Show(n))
    && text == Encode(w) && Carried(w) && Readable(n, w.script)
    && Holds(cr, cx, w, n) && NothingSpare(cr, cx, w, n)
  }

  // ------------------------------------------------------------------------ evaluation

  /** One evaluation: which items were used, and a cache of checked signatures. */
  class Eval {
    const cr: Crypto
    const cx: Context
    const w: Spend
    const preHash: seq<string>
    var sigUsed: seq<bool>
    var sigOk: seq<bool>
    var sigChecked: seq<bool>
    var preUsed: seq<bool>

    ghost predicate Valid()
      reads this
    {
      && |sigUsed| == |sigOk| == |sigChecked| == |w.sigs| && |preUsed| == |preHash| == |w.preimages|
      && (forall k :: 0 <= k < |w.sigs| && sigChecked[k] ==> sigOk[k] == SigValid(cr, cx, w.sigs[k]))
      && (forall k :: 0 <= k < |preHash| ==> preHash[k] == cr.sha3(w.preimages[k]))
    }

    constructor (cr: Crypto, cx: Context, w: Spend)
      ensures Valid() && this.cr == cr && this.cx == cx && this.w == w
      ensures (forall k :: 0 <= k < |sigUsed| ==> !sigUsed[k]) && (forall k :: 0 <= k < |preUsed| ==> !preUsed[k])
    {
      this.cr, this.cx, this.w := cr, cx, w;
      preHash := seq(|w.preimages|, i requires 0 <= i < |w.preimages| => cr.sha3(w.preimages[i]));
      sigUsed := seq(|w.sigs|, _ => false);
      sigOk := seq(|w.sigs|, _ => false);
      sigChecked := seq(|w.sigs|, _ => false);
      preUsed := seq(|w.preimages|, _ => false);
    }

    method CheckSig(k: nat) returns (ok: bool)
      requires Valid() && k < |w.sigs|
      modifies this`sigOk, this`sigChecked
      ensures Valid() && ok == SigValid(cr, cx, w.sigs[k])
    {
      if !sigChecked[k] {
        sigChecked := sigChecked[k := true];
        sigOk := sigOk[k := SigValid(cr, cx, w.sigs[k])];
      }
      ok := sigOk[k];
    }

    method EvalPk(a: string) returns (ok: bool)
      requires Valid()
      modifies this`sigUsed, this`sigOk, this`sigChecked
      ensures Valid() && ok == (FirstSig(cr, cx, a, w.sigs) < |w.sigs|)
      ensures forall k :: 0 <= k < |w.sigs| ==> sigUsed[k] == (old(sigUsed)[k] || FirstSig(cr, cx, a, w.sigs) == k)
    {
      var k := 0;
      while k < |w.sigs|
        invariant k <= |w.sigs| && Valid() && sigUsed == old(sigUsed)
        invariant forall j :: 0 <= j < k ==> !Signs(cr, cx, a, w.sigs[j])
      {
        if cr.binds(a, w.sigs[k].0) {
          var valid := CheckSig(k);
          if valid {
            sigUsed := sigUsed[k := true];
            return true;
          }
        }
        k := k + 1;
      }
      ok := false;
    }

    method EvalHash(h: string) returns (ok: bool)
      requires Valid()
      modifies this`preUsed
      ensures Valid() && ok == (FirstPre(cr, h, w.preimages) < |w.preimages|)
      ensures forall k :: 0 <= k < |w.preimages| ==>
              preUsed[k] == (old(preUsed)[k] || FirstPre(cr, h, w.preimages) == k)
    {
      var k := 0;
      while k < |preHash|
        invariant k <= |preHash| && Valid() && preUsed == old(preUsed)
        invariant forall j :: 0 <= j < k ==> cr.sha3(w.preimages[j]) != h
      {
        if preHash[k] == h {
          preUsed := preUsed[k := true];
          return true;
        }
        k := k + 1;
      }
      ok := false;
    }

    /** Both arguments of a pair are always evaluated, so what is used does not depend on
        which alternative holds. */
    method Run(n: Node) returns (ok: bool)
      requires Valid()
      modifies this
      ensures Valid() && ok == Holds(cr, cx, w, n)
      ensures forall k :: 0 <= k < |w.sigs| ==> sigUsed[k] == (old(sigUsed)[k] || SigNeeded(cr, cx, w, n, k))
      ensures forall k :: 0 <= k < |w.preimages| ==> preUsed[k] == (old(preUsed)[k] || PreNeeded(cr, w, n, k))
      decreases n
    {
      hide FirstSig, FirstPre, SigNeeded, PreNeeded, Signs;
      LeafNeeds(cr, cx, w, n);
      match n
      case Pk(a) => ok := EvalPk(a); PkHolds(cr, cx, w, a);
      case Sha3(h) => ok := EvalHash(h); HashHolds(cr, cx, w, h);
      case After(k) => ok := cx.spendHeight >= k;
      case Older(k) => ok := cx.spendHeight >= cx.utxoHeight && cx.spendHeight - cx.utxoHeight >= k;
      case And(a, b) =>
        var x := Run(a);
        var y := Run(b);
        ok := x && y;
      case Or(a, b) =>
        var x := Run(a);
        var y := Run(b);
        ok := x || y;
    }
  }

  lemma PkHolds(cr: Crypto, cx: Context, w: Spend, a: string)
    ensures FirstSig(cr, cx, a, w.sigs) < |w.sigs| <==> Holds(cr, cx, w, Pk(a))
  {
    hide Signs;
    var k := FirstSig(cr, cx, a, w.sigs);
    if k < |w.sigs| { assert w.sigs[k] in w.sigs; }
  }

  lemma HashHolds(cr: Crypto, cx: Context, w: Spend, h: string)
    ensures FirstPre(cr, h, w.preimages) < |w.preimages| <==> Holds(cr, cx, w, Sha3(h))
  {
    var k := FirstPre(cr, h, w.preimages);
    if k < |w.preimages| { assert w.preimages[k] in w.preimages; }
  }

  ghost predicate SigParts(cr: Crypto, cx: Context, w: Spend, n: Node, k: nat) {
    (n.Pk? && FirstSig(cr, cx, n.addr, w.sigs) == k) ||
        ((n.And? || n.Or?) && (SigNeeded(cr, cx, w, n.a, k) || SigNeeded(cr, cx, w, n.b, k)))
  }

  ghost predicate PreParts(cr: Crypto, cx: Context, w: Spend, n: Node, k: nat) {
    (n.Sha3? && FirstPre(cr, n.hash, w.preimages) == k) ||
        ((n.And? || n.Or?) && (PreNeeded(cr, w, n.a, k) || PreNeeded(cr, w, n.b, k)))
  }

  /** What a node needs is what its parts need. */
  lemma LeafNeeds(cr: Crypto, cx: Context, w: Spend, n: Node)
    ensures forall k: nat :: SigNeeded(cr, cx, w, n, k) <==> SigParts(cr, cx, w, n, k)
    ensures forall k: nat :: PreNeeded(cr, w, n, k) <==> PreParts(cr, cx, w, n, k)
  {
    hide FirstSig, FirstPre;
  }

  /** Verification of one input agrees with the declarative reading: it accepts exactly
      when the witness text is the encoding of a witness for the canonical text of a
      script that hashes to the output, whose condition holds, with nothing to spare. */
  method VerifyInput(cr: Crypto, owner: string, text: string, cx: Context) returns (ok: bool)
    ensures ok <==> exists w, n :: MaySpend(cr, owner, text, cx, w, n)
  {
    hide Decode, Parse, Holds, SigNeeded, PreNeeded, Show, Encode, Carried, WellFormed;
    if !IsScriptAddress(owner) { return false; }
    var d := Decode(text);
    if d.None? { NoWitness(cr, owner, text, cx); return false; }
    var w := d.value;
    Unique(cr, owner, text, cx, w);
    if cr.address(w.script) != owner { return false; }
    var p := ParseText(w.script);
    if p.None? { NoScript(cr, owner, text, cx, w); return false; }
    var n := p.value;
    UniqueNode(w.script, n);
    DecodeIff(text, w);
    ParseIff(w.script, n);
    var e := new Eval(cr, cx, w);
    ok := e.Run(n);
    if !ok { return; }
    if exists k :: 0 <= k < |e.sigUsed| && !e.sigUsed[k] { return false; }
    if exists k :: 0 <= k < |e.preUsed| && !e.preUsed[k] { return false; }
    assert MaySpend(cr, owner, text, cx, w, n);
  }

  lemma NoWitness(cr: Crypto, owner: string, text: string, cx: Context)
    requires Decode(text).None?
    ensures forall w, n :: !MaySpend(cr, owner, text, cx, w, n)
  {
    forall w, n ensures !MaySpend(cr, owner, text, cx, w, n) { DecodeIff(text, w); }
  }

  lemma Unique(cr: Crypto, owner: string, text: string, cx: Context, w: Spend)
    requires Decode(text) == Some(w)
    ensures forall v, n :: MaySpend(cr, owner, text, cx, v, n) ==> v == w
  {
    forall v, n | MaySpend(cr, owner, text, cx, v, n) ensures v == w { DecodeIff(text, v); }
  }

  lemma UniqueNode(script: string, n: Node)
    requires Parse(script) == Some(n)
    ensures forall m :: Readable(m, script) ==> m == n
  {
    hide Parse, WellFormed, Show;
    forall m | Readable(m, script) ensures m == n { ParseIff(script, m); }
  }

  lemma NoScript(cr: Crypto, owner: string, text: string, cx: Context, w: Spend)
    requires Decode(text) == Some(w) && Parse(w.script).None?
    ensures forall v, n :: !MaySpend(cr, owner, text, cx, v, n)
  {
    hide Decode, Parse, Show, Encode, Carried, WellFormed, NothingSpare, Holds;
    forall v, n ensures !MaySpend(cr, owner, text, cx, v, n) {
      DecodeIff(text, v);
      ParseIff(w.script, n);
    }
  }
}
