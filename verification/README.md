# ADDITION: a verified model of the node's core

ADDITION is a layer-1 node with payment channels, onion-routed HTLCs, a KEM-ratchet
messenger, a shielded pool, a staked UTXO ledger and a token engine with
constant-product pools. This project models the logic of those parts in Dafny and
proves what they promise over every input and every run.
`dafny verify dfyconfig.toml` checks everything.

How the project is laid out, part by part. Pure code is modelled by functions; code
that changes things in place by classes and loops, each proved against a function, and
the properties are proved about the functions.

| part | modules |
|---|---|
| payment channels | `Symbols`, `Channel`, `ChannelPenalty`, `ChannelNode`, `ChannelPayout`, `ChannelClassify`, `ChannelIds`, `ChannelUpdates`, `ChannelProtocol`, `ChannelRace`, `ChannelRecover`, `ChannelAlone`, `ChannelObject`, `NodeObject`, `ChannelPair`, `ChannelRoute`, `ChannelRouteLaw`, `ChannelRouteRules`, `ChannelEnforce`, `ChannelUnspendable` |
| onion packets | `Onion`, `OnionRoute`, `OnionSafety` |
| ratchet sessions | `Ratchet`, `RatchetRun`, `RatchetLate`, `RatchetSecrecy` |
| shielded pool | `CommitmentTree`, `Shielded` |
| ledger | `Ledger`, `LedgerInvariant`, `Chain`, `ChainRun`, `LedgerRepeat`, `LedgerRuns`, `LedgerTickets`, `LedgerOwners`, `LedgerRules`, `LedgerHistory`, `LedgerSafety`, `LedgerKeys`, `ChainObject`, `Staking`, `Mining`, `Emission`, `Lwma`, `Mempool`, `MempoolFetch`, `MempoolRules` |
| spend scripts | `Witness`, `Script`, `ScriptExact`, `ScriptSpend`, `ScriptChannel`, `ScriptPenalty` |
| token engine | `AmmMath`, `TokenEngine`, `TokenInvariant`, `TokenPools`, `TokenEffects`, `TokenRoute`, `TokenSearch`, `TokenObject` |
| shared | `Basics`, `Seqs`, `Text`, `Sums` |

## What is taken as given

- **Cryptography.** In the channel modules hashes, signatures and addresses are injective
  constructors; in the ratchet, decapsulation inverts encapsulation (sections 7.2 and 7.3
  of FIPS 203) and a sealed message opens only with its own key, nonce and associated
  data; keys are derived forward only (`RatchetSecrecy.Knows`). In the ledger, scripts and mempool they are arbitrary functions, fixed by `Rules`,
  `Crypto` and `Env`, and nothing is assumed of them except: in `ScriptChannel` and
  `ScriptPenalty`, that the address of an output at hand has no second script text and that
  channel addresses are names of at most 128 characters, as is every address a key can belong
  to (128 hex digits: src/crypto.cpp:495-504); in `ScriptPenalty`, that a digest is written in
  128 lower-case hex digits and that signatures verify; in `LedgerTickets`, that a
  transaction id fixes the outputs (the hashed text separates them by `:` and `;`, which a
  recipient must then not contain: src/block.cpp:21-24); and, in `Mining`, that no vote
  verifies under an empty key (it has no bytes, so no scheme: src/crypto.cpp:162-176).
- **Channel transport.** Both nodes run this code. A request or its reply may be lost at any
  point and a reply may be used late, but no request is handled after its sender has moved
  on. A stale UPD handled later would break agreement, because REV carries no state.
  Only `ChannelAlone` allows any request and any reply at any time.
- **Time and randomness** are inputs: block timeliness, KEM coins, padding, nonces, the
  tickets' draw.
- **Integers.** Where 64- or 128-bit arithmetic matters it is written out (token engine,
  emission, retarget, ledger sums). Channel amounts are unbounded, as the capacity check
  would otherwise wrap; ratchet counters and configured delays are unbounded too.

## What the code does not do as one might expect

- `isqrt_u64` never returns when its argument plus one is a perfect square, and divides by
  zero for the largest word; a first deposit with such a product hangs.
  `AmmMath.LoopEndsIff` gives the exact condition.
- `scheduled_total_emission` reports a cap height one too low when the cap plus the first
  subsidy exceeds 2^64 (`Emission.ScheduledTotal`, `Emission.CapHeightOffByOne`), and ends a
  floor era at height 2^63 - 1, which for larger caps can count blocks twice
  (`Emission.FloorCutOff`). Without a halving interval it reports no emission at all
  although blocks then mint the full reward for ever (`Emission.NoInterval`); both
  configuration readers refuse such an interval (src/config.cpp:352-359, 1165-1172), so only
  a direct call meets it.
- A channel leader can lose its phase: the operator's rollback waits for its ABORT without
  holding the busy flag, so it can clear the outbox under a driver that then advances, and
  the next drive takes the empty outbox for a corrupt one. Safety is unaffected.
  `ChannelRace.LeaderLosesPhase` is the run; `ChannelProtocol.Agreement` and
  `ChannelProtocol.LeaderStep` say exactly when it happens.
- An onion channel name with a zero byte is cut short on the way: `OnionRoute.RouteServed`.
  Names given in a payment command have none (`safe_token`, src/rpc_rchannel.cpp:51-57).
- A channel takes any 128 characters for a payment hash and any expiry
  (src/channel.cpp:78, 561), but the chain reads only scripts with lower-case hex hashes and
  numbers below 10^12 (src/script.cpp:48-55). An HTLC outside these bounds is agreed to
  (`ChannelEnforce.AnyHtlcAccepted`), nobody can spend its output
  (`ScriptChannel.HtlcSpendable`), and since a penalty claims all outputs in one transaction,
  a revoked state with such an HTLC has a penalty that the chain refuses:
  `ChannelUnspendable.PenaltyRefused` is the run, `ChannelEnforce.PenaltyEnforced` and
  `ScriptPenalty.PenaltyPasses` say exactly when it happens. The latter also covers a revealed
  secret written in upper case or longer than 64 bytes, which matches its hash but fits no
  witness.
- HTLC ids need not stay distinct: a payment may move part of the payer's balance into an
  entry under an id already in use (`ChannelIds.HiddenHtlc`). Otherwise they do
  (`ChannelIds.IdsStayDistinct`).
- A transaction id that repeats an unspent output makes the balance index overstate its
  owner, and the validator does not refuse one: the program's miner numbers its coinbases by
  height (src/chain.cpp:634), but two blocks with the same coinbase are both accepted.
  `LedgerRuns.SameCoinbaseTwice` is the run; `LedgerRepeat.BooksExactIff` says exactly when
  the index is right. Overstating is the only error possible (`ChainRun.SupplyBound`).
- Total work wraps at 2^64, and past that a chain with less work can replace one with more:
  `LedgerRuns.LessWorkWins`, `ChainRun.ReplaceWorkGrows`.

## Model

| member | source | states |
|---|---|---|
| `ChannelProtocol.Agreement` | src/rpc_rchannel.cpp:357-545 | In every run of two nodes with lost requests, lost replies, retries, conflicts, aborts and rollbacks: state numbers differ by at most one, equal numbers mean the same balances and HTLC list, the laggard holds nothing pending or exactly the leader's state, both states add up to the capacity; the leader is in phase Rev if and only if its driver was not started on an empty outbox since it advanced, and its outbox is empty if and only if a rollback resumed during the wait for that very signature with no proposal after it |
| `ChannelProtocol.LeaderStep` | src/rpc_rchannel.cpp:470-470 | A leader in phase Rev that is still ahead after its own step left the phase if and only if that step started the driver on an empty outbox: the guard of the corrupt-outbox return |
| `ChannelProtocol.NewLeader` | src/rpc_rchannel.cpp:510-515 | Whoever becomes the leader, by a step of either side, is in phase Rev |
| `ChannelProtocol.PeerStep` | src/rpc_rchannel.cpp:281-438 | No step of the other side moves a leader out of its phase |
| `ChannelProtocol.RunInv` | src/rpc_rchannel.cpp:281-638 | The two-node invariant (numbers, hashes, secrets, signatures held, signed states remembered) holds after any sequence of events from a freshly opened channel |
| `ChannelProtocol.StepKeeps` | src/rpc_rchannel.cpp:357-545 | Each event (propose, drive, request handled, reply lost or delivered, rollback, sync) keeps the two-node invariant |
| `ChannelProtocol.HandleUpdKeeps` | src/rpc_rchannel.cpp:357-391 | Answering an UPD (repeat, conflict won or lost, classification, signature) keeps the invariant and signs only what is remembered for penalties |
| `ChannelProtocol.RevArrives` | src/rpc_rchannel.cpp:392-417 | A REV that arrives, first or repeated, keeps the invariant and answers with the secret of the superseded number only |
| `ChannelProtocol.AbortKeeps` | src/rpc_rchannel.cpp:418-429 | Dropping a pending state on ABORT keeps the invariant, because it is remembered as signed |
| `ChannelProtocol.AdvanceOutKeeps` | src/rpc_rchannel.cpp:510-515 | The proposer's own revocation on a valid peer signature keeps the invariant and makes it the leader |
| `ChannelProtocol.RollbackKeeps` | src/rpc_rchannel.cpp:777-790 | The operator's rollback keeps the invariant |
| `ChannelProtocol.SyncKeeps` | src/rpc_rchannel.cpp:608-628 | Dropping a pending state after a SYNC answer that matches keeps the invariant |
| `ChannelProtocol.ForceCloseSafe` | src/channel.cpp:89-126 | In every run each side holds a peer signature valid for its own current commitment and has revealed secrets only for smaller numbers, and the last revocation is never asked for at state 0; what it would publish spends the funding output with both signatures and, read off its outputs, pays each side its current balance (the funder's less the fee) and each HTLC to its two sides |
| `ChannelPayout.CommitmentPays` | src/channel.cpp:30-51 | For every state whose funder can pay the fee: the outputs to the peer's address add up to the peer's balance, those the holder opens after the delay to the holder's, output by output each HTLC goes to the other side for its preimage and back to its offerer from its expiry on, and all outputs and the fee are all there is |
| `ChannelProtocol.PenaltySafe` | src/channel.cpp:195-241 | In every run, every commitment a side ever signed (agreed, abandoned, superseded or rolled back) is met, once its number is revoked, by a penalty transaction that claims exactly its revocable outputs; whether the chain lets that transaction through is the next row |
| `ChannelEnforce.PenaltyEnforced` | src/chain.cpp:745-764 | In every run, for every commitment either side ever signed: once its number is revoked and the penalty is worth its fee, all inputs of the penalty pass the chain's check, at any height, if and only if every payment hash of the punished state is 128 lower-case hex digits and every expiry (and the delay of a to-local output) is below 10^12 |
| `ChannelEnforce.RunSized` | src/channel.cpp:77-79 | In every run every state either side knows of has payment hashes of 128 characters, which is all the channel checks of them |
| `ChannelEnforce.AnyHtlcAccepted` | src/rpc_rchannel.cpp:377-390 | A node at rest accepts and signs any HTLC the peer can pay, with the next id, a hash of 128 characters and an expiry ahead, whatever the characters and however far the expiry |
| `ChannelUnspendable.PenaltyRefused` | src/channel.cpp:195-241 | That matters: for every channel whose funder can pay an HTLC above the fee, and whatever its hash and expiry, there is a run that revokes a state with it; the penalty exists, and all its inputs pass the chain's check if and only if the hash is lower-case hex and the expiry, and the delay of a to-local output, below 10^12 |
| `ChannelUnspendable.UpdateDone` | src/rpc_rchannel.cpp:440-545 | An update that both ends accept takes both to the new state, and the proposer then knows the secret of the state left |
| `ChannelRace.LeaderLosesPhase` | src/rpc_rchannel.cpp:777-786 | That happens: for every channel whose funder can pay one unit there is a run in which a rollback resumes under a waiting driver and the leader ends ahead and out of phase Rev |
| `ChannelPenalty.PenaltyIsExact` | src/channel.cpp:195-241 | The penalty for any candidate commitment spends the to-local output and every HTLC output, each index once, even when HTLCs share a script, whenever they are worth more than the fee, and nothing else |
| `ChannelPenalty.PenaltyCovers` | src/channel.cpp:212-233 | The penalty's inputs are exactly the outputs of the published transaction that pay to a script revocable by this side |
| `ChannelPenalty.TotalUpTo` | src/channel.cpp:228-233 | What the claims add up to is the total of the revocable outputs, prefix by prefix |
| `Channel.FirstMatchSound` | src/channel.cpp:202-209 | The candidate found is one whose commitment is the published transaction; if none is found, no candidate matches |
| `Channel.RevocableClaimsFit` | src/channel.cpp:210-224 | Every claim points at an output that pays to its own script |
| `ChannelObject.ChannelObj.ValidateNext` | src/channel.cpp:69-81 | The checks of a proposed next state, in the order and with the errors of the program |
| `ChannelObject.ChannelObj.ReceiveCommitSig` | src/channel.cpp:89-105 | What is accepted is a valid peer signature on the commitment this side would itself publish, for a validated next state that becomes pending; a refused one changes nothing |
| `ChannelObject.ChannelObj.RevokeAndAdvance` | src/channel.cpp:107-115 | The secret released opens the hash of the number left behind, the state left behind becomes a candidate for punishment, and no candidate of another number is lost |
| `ChannelObject.ChannelObj.DropPending` | src/channel.cpp:122-126 | The dropped state becomes a candidate for punishment, no candidate is lost, and the current state stays |
| `ChannelObject.ChannelObj.ReceiveRevoke` | src/channel.cpp:128-139 | Accepting a revocation makes every commitment of that number this side may have signed punishable in full; a refused one changes nothing |
| `ChannelObject.ChannelObj.FindUnclaimed` | src/channel.cpp:219-223 | The first output with the script's address that no earlier claim took |
| `ChannelObject.ChannelObj.ClaimAll` | src/channel.cpp:212-224 | The scan of the outputs finds to-local and every HTLC, each at its own position |
| `ChannelObject.ChannelObj.PenaltyFor` | src/channel.cpp:195-241 | The scanning loops compute the penalty the specification describes |
| `ChannelObject.HtlcFound` | src/channel.cpp:214-224 | With the first k HTLCs claimed, the first free matching output is the next HTLC's own |
| `ChannelClassify.PeerCannotTake` | src/channel.cpp:532-584 | Going by id (of entries with one id the last counts): an accepted peer update never lowers the local balance and adds or removes at most one HTLC; every HTLC stays on its terms except one of ours, refunded in full or claimed with its preimage; a new HTLC is the peer's and paid by the peer |
| `ChannelIds.EveryEntry` | src/channel.cpp:532-584 | On lists without repeated ids the same holds of every entry of the lists |
| `ChannelIds.IdsStayDistinct` | src/channel.cpp:532-584 | From distinct ids, an accepted and valid update that adds or removes an HTLC leaves them distinct, and a payment does if and only if the two balances still add up to the same |
| `ChannelIds.WorthById` | src/channel.cpp:538-540 | A list looked up by id is worth what all its entries add up to if and only if no id repeats |
| `ChannelIds.HiddenHtlc` | src/channel.cpp:547-551 | An input where ids stop being distinct: a valid payment whose list holds a second entry under the id of an HTLC that stays |
| `ChannelUpdates.ClassifyIff` | src/channel.cpp:532-584 | An update is classified as a payment, an offer, a settlement or a refund of an HTLC h if and only if the two states differ in exactly that way (ids, terms, balances, id counter, expiry, preimage), and rejected if and only if in none |
| `ChannelUpdates.ValidateIff` | src/channel.cpp:69-81 | A next state is valid if and only if it is numbered next, with the peer's hash known, the fee covered, at most 16 HTLCs, all of the capacity and no empty or misshapen HTLC; when each error is returned |
| `ChannelUpdates.TakesIff` | src/rpc_rchannel.cpp:357-391 | A node at rest takes and signs an update if and only if it is valid and is one of those four kinds (an offer with a proper route), and otherwise does not change |
| `ChannelUpdates.ClosingTaken` | src/rpc_rchannel.cpp:376-390 | The peer that shows the preimage of an open HTLC of ours, or gives one of ours up, is answered with a signature on the state that says so |
| `ChannelUpdates.UpdRepeats` | src/rpc_rchannel.cpp:357-362 | An UPD sent again gets the same signature and changes nothing |
| `ChannelUpdates.RevRepeats` | src/rpc_rchannel.cpp:397-415 | A REV sent again gets the same revocation and changes nothing |
| `ChannelUpdates.RevTakenIff` | src/rpc_rchannel.cpp:392-415 | A node moves on to its pending state if and only if the secret opens the hash known for its number and a hash comes with it; with nothing pending it answers only to the very secret it took last |
| `ChannelUpdates.SignatureIff` | src/channel.cpp:89-105 | A signature is taken if and only if it is the peer's on our own commitment to an acceptable (or the first) state, with that state's number |
| `ChannelUpdates.ConflictRule` | src/rpc_rchannel.cpp:357-375 | When two proposals meet A keeps its own and refuses, B gives its own up and deals with A's as if at rest; nobody proposes to a node that waits for a revocation |
| `ChannelUpdates.AbortDrops` | src/rpc_rchannel.cpp:418-429 | An ABORT drops the pending state of its number, which stays known, and nothing else |
| `ChannelUpdates.RollbackClears` | src/rpc_rchannel.cpp:777-790 | A rollback gives up both the proposal and the pending state, and both stay known |
| `ChannelUpdates.SyncDrops` | src/rpc_rchannel.cpp:608-628 | A SYNC answer drops the pending state exactly if the peer is idle at the same number |
| `ChannelRecover.LostReply` | src/rpc_rchannel.cpp:516-538 | If only the answer to the REV was lost, one more exchange settles the update: the peer answers as before and does not change |
| `ChannelRecover.LostPending` | src/rpc_rchannel.cpp:521-545 | If the peer has given up the pending state, the driver proposes it again, reveals again, and both sides end at the new state with each other's secret |
| `ChannelRecover.ConflictYields` | src/rpc_rchannel.cpp:500-507 | When both sides proposed at once A asks B to give way, and B gives up its own proposal, which stays known |
| `ChannelRecover.DriveRule` | src/rpc_rchannel.cpp:480-516 | What the driver does with its proposal: gives it up (known) if the channel moved on or B meets another pending state, drops the other one as A, moves on and reveals if it is signed, sends it signed otherwise |
| `ChannelRecover.FailureStops` | src/rpc_rchannel.cpp:471-479 | A lost reply, any other refusal or a secret that does not open the hash leaves the node as it was, free to try again |
| `ChannelAlone.AlwaysCloses` | src/rpc_rchannel.cpp:345-545 | Whatever the peer sends, in every run of one node: it can publish its current state, signed by both, which pays both sides what is due, and it never sent the secret that would forfeit it |
| `ChannelAlone.OnlyAgreedMoves` | src/rpc_rchannel.cpp:345-545 | Whatever the peer sends, the current state only gives way to the next one, and only to one this side proposed or that leaves its balance no lower, with its HTLCs refunded or claimed by preimage |
| `ChannelAlone.HappensKeeps` | src/rpc_rchannel.cpp:345-545 | Every event, any request and any reply included, keeps the sound signed states, the agreed pending state and the unrevealed current secret |
| `ChannelPair.Pair.constructor` | src/channel.cpp:431-442 | Two node objects with the first hashes and signatures exchanged are the opening state of every run |
| `ChannelPair.Pair.Step` | src/rpc_rchannel.cpp:281-545 | Any step of either node object keeps the two objects on a run of the protocol, so agreement, the leader's phase law, force-close safety and penalty safety hold of the objects after every step |
| `ChannelRoute.UpdateMatches` | src/channel.cpp:445-452 | On two synchronised ends an update is refused with nothing changed, or takes both ends to the next state, still synchronised |
| `ChannelRoute.AddHtlcFacts` | src/channel.cpp:467-478 | Offering an HTLC changes nothing or adds exactly one, with a new id |
| `ChannelRoute.RemoveLast` | src/channel.cpp:480-489 | The HTLC offered last can always be removed again, either way |
| `ChannelRouteRules.OfferIff` | src/channel.cpp:467-478 | An HTLC can be offered if and only if the payer can spare the amount (the funder besides the fee) and the state with it is acceptable; both ends then have it |
| `ChannelRouteRules.SettleIff` | src/channel.cpp:480-496 | An HTLC is settled if and only if the preimage is that of its hash and the state that pays the other side is acceptable |
| `ChannelRouteRules.RefundIff` | src/channel.cpp:480-500 | An HTLC is refunded if and only if the state that pays the offering side back is acceptable |
| `ChannelRouteRules.HopTerms` | src/channel.cpp:502-512 | Every hop offers under the same hash, the last one the amount and expiry of the payment, every other one the forwarding fee and the delta more than the hop after it |
| `ChannelRouteLaw.FailBack` | src/channel.cpp:498-500 | Undoing a hop restores its channel's balances and HTLCs whatever its counters have become |
| `ChannelRouteLaw.PayForward` | src/channel.cpp:491-496 | Settling a hop succeeds, removes its HTLC and pays its amount to the payee |
| `ChannelRouteLaw.RouteLaw` | src/channel.cpp:502-530 | From any hop on: refused leaves all balances and HTLCs as they were, paid moves each hop's amount, settlement never gets stuck, and all channels stay synchronised |
| `ChannelRouteLaw.RouteAllOrNothing` | src/channel.cpp:502-530 | For any route length, even with repeated channels: all or nothing; on success the payer is down the amount and a fee per forwarder, each forwarder up one fee per hop forwarded, the payee up the amount; in every state on the way both ends of every channel add up to its capacity |
| `ChannelRouteLaw.TrailConserves` | src/channel.cpp:508-528 | Every network the payment passes through, from its first offer to its last settlement or undo, is synchronised with capacity conserved at both ends |
| `ChannelRouteLaw.GainTelescopes` | src/channel.cpp:510-511 | Along a connected route the per-hop amounts telescope to those totals |
| `ChannelRouteLaw.Route` | src/channel.cpp:502-530 | The offering loop with its backward undo and settle loops computes the recursive law, and each keeps the channels synchronised |
| `OnionRoute.RouteServed` | src/htlc_onion.cpp:74-161 | For every route of 1 to 4 hops that can be built: peeling with each hop's key in turn passes the MAC, yields that hop's channel, amount and expiry, marks only the last hop final and gives the next hop its packet, if and only if no channel name contains a zero byte |
| `OnionRoute.TravelsAlong` | src/htlc_onion.cpp:128-161 | After k peelings the packet is the one built for hop k |
| `Onion.FillerTail` | src/htlc_onion.cpp:87-93 | The precomputed filler is what every hop's block ends with after the earlier shifts |
| `Onion.InnerPlain` | src/htlc_onion.cpp:114-121 | Decrypting an inner hop's block, extended by one entry, yields its entry and the whole next block |
| `Onion.LastPlain` | src/htlc_onion.cpp:102-112 | The last hop's block decrypts to its header |
| `Onion.PeelHop` | src/htlc_onion.cpp:128-161 | A hop holding its key peels exactly its own layer |
| `Onion.CStringExact` | src/htlc_onion.cpp:149-150 | A channel name survives the fixed field exactly when it has no zero byte |
| `OnionSafety.PeelErrors` | src/htlc_onion.cpp:128-161 | When each error is returned: wrong size, no secret, a tag that is not the MAC of this block and this bound data under the secret's key, a flag above one, a missing name; and only then is a packet opened |
| `Onion.BigEndian` | src/htlc_onion.cpp:46-47 | Amounts and expiries are read with the first byte most significant |
| `OnionSafety.PeelReads` | src/htlc_onion.cpp:143-160 | What an opened packet yields, byte by byte of the decrypted block |
| `OnionSafety.OnlyAsBuilt` | src/htlc_onion.cpp:137-142 | At hop k the packet built for it is the only one with its ciphertext and tag that opens, and it opens under no other bound data, as long as no second block has that tag |
| `OnionSafety.WrappableIff` | src/htlc_onion.cpp:74-100 | A route can be wrapped if and only if it has one to four hops with usable keys and names of at most 32 bytes, which exactly the last does without |
| `OnionSafety.FirstErrorIs` | src/htlc_onion.cpp:79-100 | Otherwise the first hop at fault is reported, and why |
| `OnionRoute.Build` | src/htlc_onion.cpp:74-126 | The in-place loops build that packet, or report the first hop that cannot be wrapped |
| `OnionRoute.PeelLayer` | src/htlc_onion.cpp:128-161 | The in-place peeling computes the specification, errors included |
| `OnionRoute.MakeFiller` | src/htlc_onion.cpp:87-93 | The growing filler loop computes the filler |
| `OnionRoute.XorInPlace` | src/htlc_onion.cpp:92-92 | Every byte is masked with its key-stream byte |
| `RatchetRun.SafeDelivery` | src/pq_session.cpp:483-568 | For every interleaving of sends and deliveries with loss, reordering, duplication and forged frames: each side accepts only what the other sent, no ratchet key and index twice, and every root key held was derived by a sender |
| `RatchetRun.AcceptedKey` | src/pq_session.cpp:519-568 | Of all frames around a ciphertext that either side made or that was made without the handshake secret: one is accepted only if the peer sent it as it is, was then opened with the sender's own key for its ratchet key and index and yields the text sent; a frame not accepted leaves the session unchanged |
| `RatchetRun.OnlySent` | src/pq_session.cpp:519-568 | No altered, reflected or forged frame opens: the frame opened is one the peer sent |
| `RatchetRun.DeriveRooted` | src/pq_session.cpp:534-557 | Every message key derived, for whatever header, has the handshake secret in it |
| `RatchetRun.RoundTrip` | src/pq_session.cpp:483-568 | Whatever is sent next opens at once to the same text, if and only if the receiver need not skip more than the limit |
| `RatchetLate.LaterFirst` | src/pq_session.cpp:519-568 | In every run, of two frames of the peer's chain the later may come first: both open to the texts sent, within the skip limit and while the keys between find room |
| `RatchetLate.LateOpens` | src/pq_session.cpp:535-538 | In every run a frame whose key was put aside opens to the text sent, and its key is then gone |
| `RatchetLate.SkipStores` | src/pq_session.cpp:523-532 | Skipping within the limit stores the key of every message passed over and loses none, while at most 256 are stored |
| `RatchetLate.RefusedWhen` | src/pq_session.cpp:533-560 | When each refusal is given: a repeat, a new chain without a ciphertext, one to a key not ours, too far ahead on either chain; otherwise only the tag decides |
| `RatchetSecrecy.ForwardSecrecy` | docs/PQ_MESSAGING.md:29-29 | In every run what a side holds does not give the key of any message it has read or sent, not even with every KEM secret there ever was |
| `RatchetSecrecy.Heals` | docs/PQ_MESSAGING.md:30-31 | Whoever copies a session with its KEM keys, at any point of any run, reads of all that is ever sent exactly the messages whose keys were put aside, the rest of its two chains and the peer's next chain if still to come; nothing from the session's own next step on |
| `RatchetSecrecy.ReadableIff` | src/pq_session.cpp:483-568 | Exactly which message keys a session and any set of KEM secrets give: the keys put aside, the rest of its two chains, and the epochs reachable from its root |
| `RatchetRun.RunInv` | src/pq_session.cpp:483-568 | The two-party key schedule invariant holds in every run |
| `RatchetRun.SendKeeps` | src/pq_session.cpp:483-517 | Sending always succeeds and keeps it |
| `RatchetRun.ReceiveKeeps` | src/pq_session.cpp:519-568 | Delivering any frame that can arise keeps it |
| `RatchetRun.NewEpochKeeps` | src/pq_session.cpp:539-553 | Moving to the peer's new ratchet key derives the root the sender derived |
| `Ratchet.SkipLoop` | src/pq_session.cpp:523-532 | The skipping and evicting loops |
| `Ratchet.SessionObj.SendText` | src/pq_session.cpp:483-517 | Sending in place, with a ratchet step when one is due |
| `Ratchet.SessionObj.ReceiveFrame` | src/pq_session.cpp:519-568 | Receiving on a copy that is committed only when the frame authenticates |
| `CommitmentTree.Tree.Append` | src/shielded.cpp:349-358 | The frontier update yields the root of the full fixed-depth tree padded with empty nodes |
| `CommitmentTree.Tree.Path` | src/shielded.cpp:360-373 | For every stored position, folding its leaf with the siblings returned gives that root |
| `CommitmentTree.AppendLevel` | src/shielded.cpp:353-356 | One level of an append computes the parent node of the full tree |
| `CommitmentTree.FrontierLevel` | src/shielded.cpp:354-355 | The frontier entry stays the last complete left node of its level |
| `CommitmentTree.FoldsTo` | src/shielded.cpp:360-373 | Siblings that are tree nodes fold to the node above |
| `CommitmentTree.FoldBinds` | src/shielded.cpp:360-373 | Conversely, only the node below and the tree's own siblings fold to a node |
| `CommitmentTree.RootBinds` | src/shielded.cpp:360-373 | A hash and siblings fold to the root at a position if and only if the hash is the leaf there (zero past the last) and the siblings are the tree's: a root binds every leaf |
| `Shielded.PlayInv` | src/shielded.cpp:375-402 | In every run no nullifier is accepted twice, the spent set is exactly what was accepted, the current root is a usable anchor and every usable anchor was once the root |
| `Shielded.CheckIff` | src/shielded.cpp:383-397 | A bundle passes if and only if it has a note per commitment, does something, spends against a usable anchor, fits the tree, spends nothing twice and repeats no commitment; when each error is returned |
| `Shielded.LeavesAre` | src/shielded.cpp:398-402 | In every run the tree holds exactly the commitments accepted, in order |
| `Shielded.AnchorsLive` | src/shielded.cpp:377-381 | A new root becomes usable, and at most the oldest of 256 anchors is forgotten for it |
| `Shielded.AcceptedAnchor` | src/shielded.cpp:386-387 | An accepted spend refers to a root the tree has had |
| `Shielded.PoolState.ApplyBundle` | src/shielded.cpp:398-402 | Applying a checked bundle in place spends, appends and remembers |
| `Shielded.PoolState.CheckBundle` | src/shielded.cpp:383-397 | The check's verdict, in the program's order |
| `ChainRun.SupplyBound` | src/chain.cpp:993-1170 | Over every run of blocks and reorganisations: unspent outputs plus slashed coins plus net shielded inflow never exceed total emission, which never exceeds the schedule at that height or the cap; and the balance index never understates an address |
| `ChainRun.BooksExact` | src/chain.cpp:868-935 | When no transaction id repeats, the index is the exact sum of each address's unspent outputs and the tickets are exactly the unspent stake outputs |
| `LedgerTickets.TicketsExact` | src/chain.cpp:890-908 | Over every run, however often ids repeat: the tickets are exactly the unspent stake outputs, each with its output's amount, provided an id fixes the outputs |
| `LedgerRepeat.BooksExactIff` | src/chain.cpp:896-916 | Over every run of blocks and reorganisations: the index is the exact balance of every address if and only if no block of the chain created an output in the place of one that still held unspent coins |
| `LedgerRepeat.ReplayEven` | src/chain.cpp:868-935 | The same for every accepted block list |
| `LedgerRepeat.CreateOneExactIff` | src/chain.cpp:896-916 | Wherever the index never understates, a new output leaves it exact if and only if it was exact and the output does not replace unspent coins: why ids must not repeat |
| `LedgerRuns.SameCoinbaseTwice` | src/chain.cpp:1231-1334 | That is reachable: two blocks with one and the same coinbase are both accepted, and the index then shows 20 where the only unspent output is worth 10 |
| `ChainRun.RunReplays` | src/chain.cpp:1231-1419 | Every reachable state equals replaying its block list from genesis, and every block in it was acceptable where it stands |
| `ChainRun.ReplaceAllOrNothing` | src/chain.cpp:1336-1419 | A refused reorganisation restores every field; an accepted one has strictly more work, as counted modulo 2^64, and is the replay of the candidate's blocks |
| `ChainRun.ReplaceWorkGrows` | src/chain.cpp:1390-1407 | An accepted reorganisation adds total work if and only if its sum passed 2^64 at least as often as the old one: always while the old sum is below 2^64 |
| `LedgerRuns.LessWorkWins` | src/chain.cpp:1330-1330 | Past 2^64 the comparison fails: at target 1 a chain of one block replaces a chain of two |
| `Chain.AddBlockAllOrNothing` | src/chain.cpp:1231-1334 | A block that passed validation is never refused after it was applied (the late error returns are unreachable), so a refused block leaves no trace |
| `ChainRun.ReplayHeaders` | src/chain.cpp:937-991 | Every accepted block list is hash-linked, consecutive in height, non-decreasing in time and of valid work, and the work compared in a reorganisation is the sum over its blocks modulo 2^64 |
| `ChainRun.ReplaySolvent` | src/chain.cpp:1286-1327 | Every accepted block list keeps the supply inequality |
| `ChainRun.ReplayExact` | src/chain.cpp:868-935 | Every accepted block list with distinct transaction ids keeps the books exact |
| `LedgerOwners.SpendersOwn` | src/chain.cpp:793-816 | Over every run with distinct ids, for every transaction of the chain: each input names an output of an earlier transaction that was paid to its signer, or staked by its signer, or, without a signer, locked by a script satisfied at those heights; nothing out of stake is spent before the delay; what is spent covers what is paid and the fee, shielded value included; fees and new stake meet the minimum |
| `LedgerOwners.SpendersSign` | src/chain.cpp:1172-1212 | Over every run whoever spends as a signer has signed, under a key that belongs to that name |
| `LedgerOwners.TicketsOwned` | src/chain.cpp:902-908 | Over every run with distinct ids each ticket is the signer's of the transaction that locked its output, from that height on, with a key of the signer if any |
| `LedgerOwners.FirstKeyWins` | src/chain.cpp:918-924 | Over every run the registry holds for every name the key of the first transaction of the chain that brought one |
| `LedgerRules.SelectedBy` | src/staking.cpp:31-58 | Which tickets are drawn depends only on the ripe tickets, in whatever order, and the numbers drawn from the hash |
| `LedgerRules.RewardIs` | src/chain.cpp:1657-1680 | Each approving voter gets the same share, rounded down, of the configured part of the pot, which is what may be minted and the fees |
| `LedgerRules.WorkIs` | src/chain.cpp:36-41 | The work of a target is how often it goes into the largest word |
| `LedgerRules.AddedIff` | src/chain.cpp:937-1334 | A block is added if and only if it obeys the rules for header, weight, coinbase, shielded parts, signatures, votes, evidence and rewards, each written out, and its transactions apply in turn |
| `LedgerRules.PooledIff` | src/chain.cpp:450-619 | A transaction outside a block is valid if and only if it obeys the same rules and its signature and shielded proof check, and one without inputs pays something within the reward |
| `LedgerRules.SumsAre` | src/chain.cpp:547-569 | What outputs pay, inputs are worth and transactions give in fees are the sums over the list, whatever its order |
| `LedgerRules.AppliesIff` | src/chain.cpp:450-619 | A transaction applies in a block if and only if it obeys the rules written out (ownership, nonce, key, script, amounts, fee, stake, shielded part) and every balance it raises stays within 64 bits |
| `LedgerRules.ValidIff` | src/chain.cpp:450-619 | Validation inside a block is exactly those rules |
| `LedgerRules.SnapRedundant` | src/chain.cpp:1061-1170 | The pass over a copy that comes before a block is applied never refuses a block that would apply |
| `LedgerRules.EligibleAre` | src/chain.cpp:1477-1485 | The tickets that may be drawn are exactly those that have rested, each once |
| `LedgerHistory.BooksFollow` | src/chain.cpp:1311-1333 | Over every run what was emitted is what the coinbases paid beyond the fees, and every block's target is the one due after the blocks before it |
| `LedgerHistory.SlashTakes` | src/chain.cpp:1296-1310 | Slashing takes exactly the tickets named in the evidence, spends their outputs and counts what they held; nothing else changes |
| `LedgerHistory.ReplacesIff` | src/chain.cpp:1336-1419 | A chain replaces the current one if and only if it starts from the same genesis, its blocks are in time and form an accepted chain, and their work as counted is greater; otherwise nothing changes |
| `LedgerHistory.NullifiersOnce` | src/chain.cpp:925-932 | Over every run no nullifier appears twice in the chain, and the pool holds exactly the chain's nullifiers and commitments |
| `LedgerSafety.NoDoubleSpend` | src/chain.cpp:547-570 | Over every run with distinct transaction ids no output is spent twice anywhere in the chain, and each signer's nonces strictly rise along it |
| `LedgerSafety.ApplyTxNonce` | src/chain.cpp:539-545 | An applied transaction's nonce is above the remembered one and replaces it |
| `LedgerInvariant.ApplyTxFacts` | src/chain.cpp:868-935 | Applying a transaction destroys its inputs and creates at most what they cover: fee and shielded inflow included, coins never increase except by a coinbase |
| `LedgerInvariant.SpendOneCovers` | src/chain.cpp:884-889 | The saturating subtraction of the index never saturates |
| `LedgerInvariant.SpendFacts` | src/chain.cpp:877-893 | Spending the inputs lowers the unspent total by exactly their worth |
| `Chain.ApplyAllFacts` | src/chain.cpp:1264-1284 | Applying a block's transactions creates at most the coinbase and destroys the fees |
| `Chain.SlashFacts` | src/chain.cpp:1296-1310 | Slashing moves coins from unspent to slashed, one for one |
| `ChainObject.Node.Add` | src/chain.cpp:1231-1334 | Adding a block on the object, with a saved copy put back on failure |
| `ChainObject.Node.ReplaceWith` | src/chain.cpp:1336-1419 | The reorganisation loop on the object: reset, add, compare work, restore |
| `ChainObject.Node.ApplyTransaction` | src/chain.cpp:868-935 | The input and output loops on the object compute the specification |
| `ChainObject.InputsTotal` | src/chain.cpp:547-570 | The input loop accepts exactly distinct, present, unspent, unfrozen inputs whose sum fits, and returns it |
| `ChainObject.OutputsTotal` | src/chain.cpp:461-476 | The output loop accepts exactly well-formed outputs whose sum fits, and returns it |
| `Text.OutpointInjective` | src/chain.cpp:167-169 | Two outputs never share a key, whatever their transaction ids look like |
| `Staking.SelectedExact` | src/staking.cpp:31-58 | Selection returns distinct eligible tickets that carry stake, exactly as many as asked for or as there are, whatever order they arrive in |
| `Staking.PickStretch` | src/staking.cpp:43-55 | A ticket is drawn by exactly as many numbers as it has stake |
| `Staking.SelectTickets` | src/staking.cpp:31-58 | The sort, draw and erase loops compute that selection |
| `Staking.SortOrderFree` | src/staking.cpp:34-35 | Sorting by id removes any dependence on arrival order |
| `Mining.MinedBlockOk` | src/chain.cpp:654-706 | In every reachable state, for valid votes and no fee overflow, the miner gives up only for want of a quorum, and its block passes every staking and supply rule of the validator and pays out exactly mintable subsidy plus fees |
| `LedgerKeys.RunKeyed` | src/chain.cpp:902-924 | Over every run a ticket without an owner has no key, and the registry holds no key for an empty name |
| `LedgerKeys.VotersNamed` | src/chain.cpp:1512-1540 | So every valid vote comes from a ticket with an owner |
| `Mining.UsableVotes` | src/chain.cpp:1556-1574 | The votes collected satisfy every vote rule of the validator together, and none usable is left out while there is room |
| `Mining.UsableIff` | src/chain.cpp:1521-1541 | The node uses a vote if and only if the validator of the next block would take it |
| `Mining.CoinbaseLayout` | src/chain.cpp:1657-1680 | The coinbase has the layout the validator expects: miner first, then one equal output per approving vote in vote order |
| `Emission.ScheduledTotal` | src/consensus_rules.cpp:100-135 | For every reward, interval, floor and cap of 64 bits, if a floor era reaches the cap by height 2^63 - 1 (as it does for every cap below 2^63): the era loop returns where block-by-block clipped emission ends, and the cap height it reports is the first height at the cap if and only if the rounding sum of the era where the cap falls fits 64 bits; for caps below 2^63, if and only if cap plus first subsidy does |
| `Emission.SubsidyIs` | src/consensus_rules.cpp:76-98 | The subsidy is the reward divided by two to the number of halvings, or the floor if that is greater; what may be minted is never more than what is left to the cap |
| `Emission.Clipped` | src/consensus_rules.cpp:88-98 | Iterating the clipped per-block subsidy gives the smaller of cap and unclipped sum |
| `Emission.CapHeight` | src/consensus_rules.cpp:125-131 | In the era where the cap falls the height is right exactly when the rounding sum does not wrap |
| `Emission.CapHeightOffByOne` | src/consensus_rules.cpp:126-129 | An input where the reported height is one too low |
| `Emission.FloorCutOff` | src/consensus_rules.cpp:120-121 | An input whose floor era is cut off before the cap: the loop reports height 2 for a cap reached at 2^64 - 1 |
| `Emission.FloorCutOffYetRight` | src/consensus_rules.cpp:120-121 | An input whose floor era is cut off and whose height is right all the same |
| `Emission.NoInterval` | src/consensus_rules.cpp:110-112 | With no halving interval the reported total, zero, is right only if nothing is ever minted |
| `Emission.EraRun` | src/consensus_rules.cpp:76-86 | Within an era the unclipped sum grows by the era's rate per block |
| `Lwma.LwmaNextTarget` | src/consensus_rules.cpp:24-74 | For every block time and window the configuration accepts, the loop computed modulo 2^128 is the exact retarget: nothing overflows |
| `Lwma.NextTargetIs` | src/consensus_rules.cpp:24-74 | The next target is the average target times the weighted time over the expected time, each rounded down (block j counted j times, at most six block times each, at least a tenth in all), within half and double the last target, at least one, and within the bounds |
| `Lwma.WithinClamps` | src/consensus_rules.cpp:10-21 | The result stays within the configured bounds, given in either order |
| `Lwma.FixedPoint` | src/consensus_rules.cpp:24-74 | If the latest entries both lists share are on time at one positive target, that target is kept |
| `Lwma.Monotone` | src/consensus_rules.cpp:24-74 | Pointwise longer solve times never give a harder target |
| `Mempool.SubmitKeeps` | src/mempool.cpp:83-116 | A submission is taken exactly when well-formed and sharing no id, signer nonce, outpoint or nullifier with a pending one, and the three indexes stay exact |
| `Mempool.DropKeeps` | src/mempool.cpp:152-161 | Taking any part of the pending list out of the indexes leaves them exact for the rest |
| `Mempool.RemoveConfirmedKeeps` | src/mempool.cpp:205-255 | Exactly the transactions a block confirms or contradicts are dropped, and the indexes stay exact |
| `MempoolRules.LooksIff` | src/mempool.cpp:35-63 | The pool takes exactly purely shielded transactions with nullifiers, script spends with a witness on every input, and signed spends with a post-quantum signature |
| `MempoolRules.ApartIff` | src/mempool.cpp:83-116 | Two transactions can be pending together if and only if they differ in id, signer nonce, outpoints and nullifiers; the one false alarm is an outpoint named like a nullifier |
| `MempoolRules.ConfirmedIff` | src/mempool.cpp:205-255 | A block drops exactly the pending transactions that conflict with one of its own or are in it |
| `MempoolFetch.PoolObj.Add` | src/mempool.cpp:83-116 | Submission in place, claiming keys and giving them back on a conflict |
| `MempoolFetch.PoolObj.Fetch` | src/mempool.cpp:118-163 | What is fetched and what is left together are the pool rearranged: a permutation, best fee first by place, each signer's nonces strictly rising |
| `MempoolFetch.PoolObj.Remove` | src/mempool.cpp:205-255 | Removal in place |
| `MempoolFetch.Arrange` | src/mempool.cpp:121-147 | Sorting by fee and reassigning each signer's places by nonce gives such an arrangement |
| `MempoolFetch.FetchOrder` | src/mempool.cpp:131-147 | Each signer's nonces rise through a fetch, and everything left for that signer is higher still |
| `ScriptSpend.VerifyInput` | src/script.cpp:175-191 | Accepts exactly when the witness text encodes a witness for the canonical text of a well-formed script hashing to the output, the script's condition holds, and every signature and preimage is the first one some leaf needs |
| `Script.ParseIff` | src/script.cpp:11-64 | The parser accepts exactly the canonical texts of well-formed scripts within the size, depth and node limits, and returns the script shown |
| `Script.ParseText` | src/script.cpp:115-121 | The cursor-driven parser computes it |
| `Script.Parser.ParseAt` | src/script.cpp:29-63 | One node, from the cursor, with the node counter |
| `Witness.DecodeIff` | src/script.cpp:134-171 | A text decodes to a witness if and only if it is that witness's encoding and the witness is one a text can carry: decode then encode is the identity, and so is encode then decode |
| `ScriptSpend.Eval.Run` | src/script.cpp:81-104 | Evaluation with its used-marks and signature cache computes the condition and marks exactly the first items the leaves need |
| `ScriptChannel.ToLocalSpendable` | src/channel.cpp:15-17 | For every text in place of the revocation hash and every delay: a to-local output is spent by the other side with the secret at any height and by the holder exactly from the delay on, if and only if the hash is 128 lower-case hex digits and the delay below 10^12; nobody else spends it, and otherwise nobody does with any witness |
| `ScriptChannel.HtlcSpendable` | src/channel.cpp:18-22 | For every revocation hash, every payment hash of at most 128 characters and every expiry: an HTLC output is spent by the revoker with the secret or the receiver with the preimage at any height and by the offerer exactly from the expiry on, if and only if both hashes are 128 lower-case hex digits and the expiry is below 10^12; nobody else spends it, and otherwise nobody does with any witness |
| `ScriptExact.RevokingReadable` | src/script.cpp:29-63 | Whatever text stands in place of the revocation hash, parentheses and commas included, the script of a channel output is readable only if that text is a hash and the rest is well-formed: no other script has its text |
| `ScriptExact.LeafAt` | src/script.cpp:40-59 | Wherever the name of a leaf stands in the text of a readable script, a whole well-formed leaf stands |
| `ScriptExact.ShowCloses` | src/script.cpp:33-39 | The text of a readable script closes every parenthesis it opens, and not before its end |
| `ScriptExact.TwelveDigits` | src/script.cpp:53-54 | The parser's limit of twelve digits is a limit of 10^12 |
| `ScriptPenalty.OutputTaken` | src/script.cpp:175-191 | Taking one revoked output passes, at any height, if and only if its script is well-formed and the secret is lower-case hex of at most 64 bytes |
| `ScriptPenalty.PenaltyPasses` | src/chain.cpp:745-764 | The penalty for any candidate commitment passes input by input if and only if the figures of the commitment are in order and the revealed secret is one a witness can carry: one HTLC nobody can spend spoils all of it |
| `ScriptChannel.FundingNeedsBoth` | src/channel.cpp:12-14 | A funding output is spent only with both signatures |
| `ScriptChannel.FundingShows` | src/channel.cpp:12-14 | The funding text is the canonical text of its script |
| `ScriptChannel.ToLocalShows` | src/channel.cpp:15-17 | The text the channel builds is the canonical text of that script |
| `ScriptChannel.HtlcShows` | src/channel.cpp:18-22 | Likewise for HTLC scripts |
| `TokenRoute.EveryRun` | src/token_engine.cpp:175-859 | Over every run of token, pool, liquidity, swap and route calls: LP supply squared never exceeds the product of the reserves, LP balances sum to the LP supply, and per token all wallets and reserves stay at or below total supply, at or below max supply, even where LP share products wrap |
| `TokenPools.AddLiquidityKeeps` | src/token_engine.cpp:585-665 | A deposit succeeds exactly when the provider's figures allow it (its overflow checks are unreachable) and keeps the invariant; a first deposit whose product plus one is a perfect square never returns, so it never succeeds |
| `TokenPools.RemoveLiquidityKeeps` | src/token_engine.cpp:667-727 | A withdrawal succeeds exactly when the shares are owned and worth something (no subtraction underflows, no balance overflows) and keeps the invariant |
| `TokenPools.SwapKeeps` | src/token_engine.cpp:794-859 | A swap pays exactly its quote, succeeding if and only if the quote meets the minimum and the trader can pay, and keeps the invariant |
| `TokenEffects.WithdrawalPays` | src/token_engine.cpp:695-717 | A withdrawal pays the provider the floor of each reserve times the shares over the supply (in 64 bits), in the order the tokens were named, out of the reserves; the shares and the supply fall by the shares given, and no other wallet, share or pool changes |
| `TokenEffects.WithdrawalIff` | src/token_engine.cpp:667-713 | It succeeds if and only if the provider holds the shares and both payments come to something, and else changes nothing |
| `TokenEffects.DepositTakes` | src/token_engine.cpp:585-665 | A deposit succeeds if and only if the provider has both amounts and shares come of it: the integer square root of the product at first, then the smaller proportion, for amounts in the ratio of the reserves; it moves exactly these amounts and shares |
| `TokenEffects.QuoteIff` | src/token_engine.cpp:729-791 | A quote is the largest payment the constant product allows after the fee, and exists exactly when the products fit and it is not zero or the whole reserve |
| `TokenEffects.SwapTrades` | src/token_engine.cpp:794-859 | A swap moves exactly its amount and its quote between trader and pool, and nothing else |
| `TokenEffects.TransferMoves` | src/token_engine.cpp:244-286 | A transfer takes the amount from the sender, gives the receiver the rest after both cuts and the treasury its cut, and burns the other, whoever coincides with whom |
| `TokenEffects.TransferIff` | src/token_engine.cpp:211-286 | Exactly which transfers go through |
| `TokenEffects.MintGives` | src/token_engine.cpp:175-209 | Minting succeeds for the owner within the maximum, and all of it goes to the receiver |
| `TokenEffects.BurnTakes` | src/token_engine.cpp:290-315 | Burning succeeds on a burnable token out of the holder's own balance, and leaves the supply |
| `TokenEffects.CreateGives` | src/token_engine.cpp:104-173 | A new token's first amounts go to the owner and the developer, and exactly when it can be created |
| `TokenEffects.CreatePoolGives` | src/token_engine.cpp:556-583 | A new pool is empty, of two tokens there are, one per pair |
| `TokenEffects.KeyIff` | src/token_engine.cpp:45-57 | Which pairs have a pool key, and which key |
| `TokenPools.DepositProduct` | src/token_engine.cpp:615-647 | A deposit never mints LP shares beyond what the product of the new reserves backs, wrapped products included |
| `TokenPools.WithdrawnOk` | src/token_engine.cpp:695-705 | A withdrawal keeps that backing |
| `TokenPools.PriceLargest` | src/token_engine.cpp:755-791 | The quote is the largest payment the constant product allows after the fee |
| `TokenPools.ShareExact` | src/token_engine.cpp:695-696 | A share whose product does not wrap is the exact proportion, rounded down |
| `TokenEngine.KeySymmetric` | src/token_engine.cpp:45-85 | A pair has one pool key in either order |
| `TokenInvariant.SettleHolds` | src/token_engine.cpp:831-855 | Moving coins between a wallet and a pool leaves every token's total holdings unchanged |
| `TokenInvariant.CreateTokenKeeps` | src/token_engine.cpp:104-173 | A new token's balances add up to at most its supply |
| `TokenInvariant.MintKeeps` | src/token_engine.cpp:175-209 | Minting stays within the maximum supply and keeps the invariant |
| `TokenInvariant.TransferKeeps` | src/token_engine.cpp:211-288 | A transfer with any fee policy creates nothing |
| `TokenRoute.SupplyChecksDead` | src/token_engine.cpp:280-286 | The check that a burn fee exceeds the supply never fires |
| `TokenInvariant.BurnKeeps` | src/token_engine.cpp:290-315 | Burning keeps the invariant |
| `TokenPools.CreatePoolKeeps` | src/token_engine.cpp:556-583 | A new pool is keyed canonically and keeps the invariant |
| `TokenRoute.SwapRoutePaysQuote` | src/token_engine.cpp:921-967 | A routed swap is all or nothing and never pays under the minimum; along distinct pools it pays exactly the quote, succeeding if and only if the quote meets the minimum and the trader can pay |
| `TokenRoute.SwapAlongMoves` | src/token_engine.cpp:950-963 | Along any route, repeated pools included, the trader is down the input of the first token and up the output of the last, and no other wallet changes |
| `TokenSearch.BestRoute` | src/token_engine.cpp:969-1076 | The search returns the lexicographic maximum of score, output and bottleneck over all viable simple routes within the hop limit, and fails only if there is none |
| `TokenSearch.RouteSearch.Dfs` | src/token_engine.cpp:1008-1064 | One level of the walk restores the path and beats every viable route that extends it |
| `TokenSearch.ScoreExact` | src/token_engine.cpp:1011-1015 | The score product never overflows 64 bits |
| `AmmMath.LoopEndsIff` | src/token_engine.cpp:63-68 | The Newton loop ends if and only if x + 1 is not a perfect square |
| `AmmMath.Isqrt` | src/token_engine.cpp:59-76 | When it ends, the result is the integer square root |
| `AmmMath.NewtonStays` | src/token_engine.cpp:65-68 | When x + 1 is a square the loop alternates for ever |
| `AmmMath.SwapKeepsProduct` | src/token_engine.cpp:755-786 | A swap at a fee never lowers the product of the reserves |
| `AmmMath.BurnKeepsProduct` | src/token_engine.cpp:695-705 | Withdrawing no more than the share burnt keeps the LP square below the product |
| `AmmMath.MintKeepsProduct` | src/token_engine.cpp:640-642 | Minting no more than the pool's share keeps it too |
| `TokenObject.Tokens.Add` | src/token_engine.cpp:585-665 | Adding liquidity in place |
| `TokenObject.Tokens.Remove` | src/token_engine.cpp:667-727 | Removing liquidity in place |
| `TokenObject.Tokens.SwapIn` | src/token_engine.cpp:794-859 | Swapping in place |
| `TokenObject.Tokens.MintTo` | src/token_engine.cpp:175-209 | Minting in place |
| `TokenObject.Tokens.BurnFrom` | src/token_engine.cpp:290-315 | Burning in place, with no supply underflow |
| `TokenObject.Tokens.TransferTo` | src/token_engine.cpp:211-288 | Transferring in place, step by step |
| `TokenObject.Tokens.SwapRouteIn` | src/token_engine.cpp:921-967 | The routed swap with its saved copy of tokens and pools |
| `TokenObject.MintLp` | src/token_engine.cpp:615-647 | The LP shares of a deposit, with the program's square root |

## Left out

- Sockets, peers, Tor, HTTP, RPC parsing, option parsing and all file persistence: channel, session and chain files are not modelled, so crash recovery from disk is not either.
- The channel's CLOSE exchange, cooperative close, sweep transactions, message text encoding of states, queued HTLC forwarding actions and payment bookkeeping: they would add easy members.
- What else a penalty needs to enter a block: `ChannelEnforce` and `ScriptPenalty` speak of the check of its inputs' scripts, not of fees, block space or whether the outputs are still there.
- Liveness of channel recovery: conflicting outboxes may wait for an operator; only safety is proved.
- Opening a channel over the network: runs start from a funded channel with initial signatures exchanged.
- The handshake and its first frame: runs start after it. Its ciphertext carries associated data that is no header, so it opens as no later frame.
- An opponent who learns a session's keys: deliveries are of any frame around a ciphertext that either side made or that was made without the handshake secret.
- Which skipped ratchet keys are evicted when too many are stored: the model keeps an arbitrary subset, which covers every order of eviction.
- Shielded notes, proofs and encryption: a proof is an arbitrary predicate on the transaction.
- `credit_balance` and `Mempool::replace`: they bypass emission accounting and the conflict check, so runs do not contain them.
- The legacy retarget before the difficulty fork, and how the chain slices its blocks for the retarget: the ledger takes the retarget rule as a parameter, and `Lwma` models the rule itself.
- Commit hooks, pending views for wallets, transaction building, block weight and wire formats, parallel signature checks, proof-of-work search.
- NFTs, token metadata and the dump and load of the token state: bookkeeping without an invariant of its own.
- Zero entries that a failed lookup leaves in a balance map: the model compares balances, not map keys.
- TokenObject.Tokens.Add: requires that a first deposit's product plus one is not a perfect square, because the program does not return otherwise.
- TokenObject.MintLp: has the same requirement, for the same reason.
- AmmMath.Isqrt: states the result only for arguments on which the loop ends; `AmmMath.LoopEndsIff` says which those are.
- Emission.ScheduledTotal: when a floor era is cut off before the cap, which takes a cap of 2^63 or more, it promises only what the loop computes; `Emission.FloorCutOff` and `Emission.FloorCutOffYetRight` show that the height may then be wrong or right.
- ChannelRouteLaw.Route: the channels of a route are values in a sequence rather than objects, and amounts do not wrap at 64 bits.
- Mempool sorting: one sort that meets the ordering is modelled; the order of ties, which the program leaves open, is not constrained by any result.
