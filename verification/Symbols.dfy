/** Symbolic cryptography and transactions shared by the channel modules.

    Hashes, signatures and script addresses are injective constructors: two digests
    are equal only if their preimages are, and a signature verifies only under the
    key and for the transaction body it was made with. */
module Symbols {
  import opened Basics

  /** `a - b` on 64-bit unsigned words. */
  function WrapSub(a: nat, b: nat): nat {
    if b <= a then a - b else (a - b) % TWO64
  }

  /** What can be hashed: a derived revocation secret, an arbitrary byte string, or a
      text that is not hex at all (its hash is the empty string in the source). */
  datatype Preimage = RevSecret(seed: string, n: nat) | Raw(bytes: string) | NotHex(text: string)

  /** A hex string in a hash position: a real digest, or some other text. */
  datatype Digest = Sha3(of: Preimage) | Text(text: string) {
    function Size(): nat {
      match this
      case Sha3(_) => 128
      case Text(t) => |t|
    }
  }

  function HashPreimage(p: Preimage): Digest {
    if p.NotHex? then Text("") else Sha3(p)
  }

  /** Spend scripts, as trees. */
  datatype Script =
    | Pk(addr: string)
    | HashLock(digest: Digest)
    | After(height: nat)
    | Older(delay: nat)
    | And(left: Script, right: Script)
    | Or(left: Script, right: Script)

  datatype Recipient = Plain(addr: string) | ScriptHash(script: Script)

  datatype Output = Output(to: Recipient, amount: nat)

  datatype TxId = Named(name: string) | IdOf(body: TxBody)

  datatype OutPoint = OutPoint(txid: TxId, vout: nat)

  /** A transaction without its witnesses; this is what a transaction id and a
      signature commit to. */
  datatype TxBody = TxBody(inputs: seq<OutPoint>, outputs: seq<Output>, fee: nat, nonce: nat)

  datatype Sig = Sig(signer: string, body: TxBody) | Junk(text: string)

  predicate Verifies(key: string, body: TxBody, sig: Sig) {
    sig == Sig(key, body)
  }

  datatype Witness = Witness(script: Script, sigs: seq<(string, Sig)>, preimages: seq<Preimage>)

  /** A transaction with one witness per input. */
  datatype Tx = Tx(body: TxBody, witnesses: seq<Witness>)
}
