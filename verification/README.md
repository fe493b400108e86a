# hushwire-crypto: the ratchets, proved

A Dafny 4.11 model of the stateful protocols of hushwire-crypto, with proofs over whole runs.
`dafny verify dfyconfig.toml` checks everything.

The centre is the "Triple Ratchet": an ML-KEM braid that streams a post-quantum key agreement
over a lossy channel, the Sparse Post-Quantum Ratchet (SPQR) it feeds, the EC Double Ratchet
beside it, and the session that joins the two. Group sender keys and Sesame session records
are modelled next to it.

| file | what it holds |
|---|---|
| `Common`, `Symbolic` | results and errors; terms for keys, MACs, the KEM and wire bytes |
| `Erasure` | erasure encoder and decoder (values, then the objects with their loops) |
| `BraidMachine` | the 11-state braid machine, for arbitrary incoming messages |
| `BraidNetwork` | two honest parties on a network that drops, repeats and reorders: joint invariant, epoch agreement |
| `BraidProgress` | no reachable joint state is stuck |
| `BraidAdversary`, `BraidRelay` | the same against a network that alters and invents messages |
| `BraidSinks`, `BraidBadWord` | one altered codeword: exactly when it stops the braid for good |
| `Spqr` | key schedule, counter model, and the ratchet object that refines it |
| `SpqrRuns`, `SpqrRetention` | one SPQR party over every run: retention, disposal, acceptance; runs that exceed the documented bounds |
| `SpqrPairing` | two SPQR parties: the receiver derives the sender's key |
| `EcRatchet`, `EcPairing` | EC ratchet, skipped-key store, two parties on one sequence of DH keys |
| `Ratchet`, `EndToEnd` | the session object; delivery of messages between two sessions |
| `EcRollback`, `SessionRollback` | what a failed `decrypt` leaves behind, and what is lost if the caller keeps it |
| `KeyUse` | every message has its own key in both ratchets, and used keys are gone |
| `SenderKeys`, `SenderKeyRuns` | group chains: the state in place, and every run of sender and receiver |
| `Sesame`, `SesameRuns` | device records; convergence and lifetime |

How to read it. Each piece of mutable state is a class whose methods and loops follow the
source and are proved equal to a function on values; the theorems are about those functions
over arbitrary sequences of steps. Cryptography is symbolic: KDFs, MACs, signatures, the KEM and
the AEAD are constructors of datatypes, a DH output is an unordered pair of key names, a byte
is a literal or "byte i of term t", and Reed-Solomon is the contract that any k distinct
codewords of one message determine it. Randomness is an input. Counters are unbounded; the
methods that add to a u32 counter are specified on the calls that do not overflow it.

Assumptions worth knowing:

- `decrypt` moves both ratchets before the AEAD check, so the theorems of `EndToEnd` are for a
  caller that keeps the old session on an error. `SessionRollback.ErrorKeepsIff` says exactly
  which failed calls leave the session as it was, and `SessionRollback.RepeatLosesNext` what a
  caller loses that keeps the new state. The braid, SPQR, sender-key and Sesame theorems need
  no such caller.
- A fresh DH key is different from all earlier ones.
- Nobody else makes ciphertexts under the parties' keys, or (for the braid) MACs that neither
  party computed. In groups nobody but the sender makes signatures with its seed, and nobody
  outside the group makes tags with a key of its HMAC chain; `SenderKeyRuns.ReadsUnderTheChain`
  does without the last two and covers members who forge.

Where the code and its documentation differ, the model follows the code:

- `docs/signal-spec-divergence.md` (lines 568-573) and the comment on `clear_old_epochs` say that
  only a small window of epochs is held. Pruning removes one epoch, and only on a send that
  emits a secret, which each party does in every other epoch. `SpqrRuns.RetentionExact` gives the
  exact set, `SpqrRuns.HeldBoundedIff` the exact condition for a bound, and
  `SpqrRetention.HeldUnbounded` a run beyond every bound.
- The same note says that the SPQR store is bounded by MAX_SKIP per chain. The limit is per
  call: `SpqrRuns.KeysConserved` has the true bound, MAX_SKIP for each number returned, and
  `SpqrRetention.StoreUnbounded` a run that reaches it.
- The note on garbled codewords (lines 554-559) and the comment on the braid's `receive` say that
  one bad codeword cannot brick a session. `BraidBadWord.OneBadWord` proves when it does not and
  when it does: a wrong word of the header or of ct2 is thrown away with its object, but a wrong
  word stored for ct1 or for the key vector is never removed. `BraidBadWord.FirstCt1WordSinks`
  is such a run.
- `record_decrypt_success` promises that both peers converge. `SesameRuns.AgreeForGoodIff` proves
  that an exchange settles them for good exactly when nothing under way outranks both active
  sessions. `SesameRuns.ReplacedSessionSplits` is a run from empty devices that ends split, and
  `SesameRuns.NextExchangeHeals` shows that one more exchange repairs it.

## Model

| member | source | states |
|---|---|---|
| Erasure.MessageExact | src/protocol/braid/erasure.rs:154-206 | `message` returns exactly the original bytes once k distinct codewords are in, by either path, and None before |
| Erasure.StreamingDelivers | src/protocol/braid/erasure.rs:80-206 | with k shards of 32 bytes and r = 8k, at most 1024: of the next k+r codewords an encoder hands out lose any r, deliver the rest in any order with repeats, and the message comes out exact |
| Erasure.AllBeforeRepeat | src/protocol/braid/erasure.rs:36-110 | an encoder hands out k+r different indices before it starts over |
| Erasure.BraidCounts | src/protocol/braid/erasure.rs:36-56 | 27, 45, 270 and 324 codewords for the 96, 160, 960 and 1152 bytes the braid streams |
| Erasure.MessageLength | src/protocol/braid/erasure.rs:171-206 | whatever codewords arrived, a reconstructed message has the announced length |
| Erasure.NextChunkStreams | src/protocol/braid/erasure.rs:103-110 | an encoder stays on the codewords of its message and each chunk is the codeword of its index |
| Erasure.Encoder.New | src/protocol/braid/erasure.rs:80-99 | an encoder that streams exactly the k+r codewords of the message, or an error for an empty or unsupported one |
| Erasure.Encoder.NextChunk | src/protocol/braid/erasure.rs:103-110 | cycling through the codewords in place is the value-level step |
| Erasure.Decoder.AddChunk | src/protocol/braid/erasure.rs:142-151 | first codeword of an index wins; a length other than 32 or an index past the k+r codewords is that error and changes nothing |
| Erasure.Decoder.Reset | src/protocol/braid/erasure.rs:163-165 | back to the empty buffer of the same length |
| Erasure.Decoder.Message | src/protocol/braid/erasure.rs:171-206 | the copying loop, on both paths, yields the value-level message |
| Symbolic.AuthFoldInjective | src/protocol/braid/auth.rs:82-96 | equal MAC or root keys mean equal sessions and equal histories of mixed-in epoch secrets, whatever their lengths |
| Symbolic.UpdateSeparates | src/protocol/braid/auth.rs:51-96 | one ratchet step: the MAC key is never a root key, and either key binds the old root, the epoch and the secret |
| Symbolic.MacKeyNeverRoot | src/protocol/braid/auth.rs:51-96 | no MAC key of any history is a root key of any history |
| Symbolic.DecapsulatesExactly | src/protocol/braid/kem.rs:88-120 | decapsulation yields the encapsulator's secret exactly for its two ciphertext halves, and otherwise a secret nobody encapsulated |
| BraidMachine.SendStep | src/protocol/braid/state_machine.rs:248-475 | sending never fails, keeps the epoch, and emits a secret exactly when leaving HeaderReceived: the next in order |
| BraidMachine.ReceiveStep | src/protocol/braid/state_machine.rs:479-921 | for any message, a successful receive moves by at most one epoch, swaps the role exactly then, and emits exactly the next secret or none |
| BraidMachine.ReceiveMoves | src/protocol/braid/state_machine.rs:479-921 | the only transitions a receive can make, and the message each needs |
| BraidMachine.ReceiveErrors | src/protocol/braid/state_machine.rs:568-929 | a receive reports only codec, codeword and key-mismatch errors |
| BraidMachine.ReceiveFailsExactly | src/protocol/braid/state_machine.rs:568-929 | for every state and message, a receive fails exactly if the codeword meant for this state is missing, ill-sized, out of range or completes a key vector of another header, with that error |
| BraidMachine.BraidState.Send | src/protocol/braid/state_machine.rs:965-1000 | commits or restores; succeeds from every well-formed state, never left Poisoned |
| BraidMachine.BraidState.Receive | src/protocol/braid/state_machine.rs:965-1023 | commits on success; an error leaves the state as it was |
| BraidNetwork.JointBraid | src/protocol/braid/state_machine.rs:568-921 | in every run epochs differ by at most one, states are compatible (or NoHeaderReceived(e+1) with Ct2Sampled(e)), the next delivery succeeds and loses no codeword |
| BraidNetwork.EpochAgreement | src/protocol/braid/state_machine.rs:363-391 | in every run, for any number of epochs, both parties' secrets agree and each authenticator is the fold of exactly its party's secrets |
| BraidNetwork.SendInv | src/protocol/braid/state_machine.rs:248-475 | every send keeps the joint invariant |
| BraidNetwork.DeliverInv | src/protocol/braid/state_machine.rs:479-921 | every delivery, however late or repeated, keeps the joint invariant and is received without error |
| BraidProgress.Progress | src/protocol/braid/state_machine.rs:248-921 | from every reachable state 75 lossless exchanges take both parties to a later epoch |
| BraidAdversary.AgreementUnderAttack | src/protocol/braid/state_machine.rs:672-757 | with messages altered or invented at will, the emitted secrets still agree, an owner never emits before its encapsulator, and epochs stay within one |
| BraidAdversary.AcceptedIsAuthentic | src/protocol/braid/auth.rs:98-125 | a header is accepted only if it is the peer's for that epoch; a secret is emitted on receive only if the peer emitted the same one |
| BraidRelay.SentMayBeRelayed | src/protocol/braid/state_machine.rs:248-475 | every message a party sends under attack is one the network may deliver later, so the attack model covers the honest network |
| BraidSinks.WrongWord | src/protocol/braid/erasure.rs:171-206 | k codewords of which one is not the message's own never decode to the message, by either path |
| BraidSinks.EkPoisonedReceives | src/protocol/braid/state_machine.rs:760-896 | an encapsulator that holds a wrong word of the key vector keeps it under every message whatsoever: the key check fails and the old buffer is restored |
| BraidSinks.GarbledSinks | src/protocol/braid/state_machine.rs:568-896 | after a wrong word is stored for ct1 or the key vector, no sends and deliveries take its holder past its epoch |
| BraidBadWord.NotSunk | src/protocol/braid/state_machine.rs:672-757 | any other altered word leaves the joint invariant intact, or intact once the header or ct2 being collected is thrown away |
| BraidBadWord.OneBadWord | src/protocol/braid/state_machine.rs:1012-1023 | one altered codeword in any run: the parties can still leave their epoch exactly if it is not stored for ct1 or the key vector, and then 80 lossless exchanges do |
| BraidBadWord.FirstCt1WordSinks | src/protocol/braid/state_machine.rs:568-636 | an honest run in which altering one codeword keeps the session in epoch 1 for good |
| Spqr.DeriveUpTo | src/protocol/ratchet/spqr.rs:299-317 | the derive loop yields the scheduled key of every number it passes |
| Spqr.StepBinds | src/protocol/ratchet/spqr.rs:65-71 | one chain step, from any chain: message key and next chain key bind chain key and counter, and are never each other |
| Spqr.KeyBinds | src/protocol/ratchet/spqr.rs:57-190 | a message key binds the session, all epoch secrets up to its epoch, the direction and the number |
| Spqr.KeysApart | src/protocol/ratchet/spqr.rs:57-190 | over all sessions and histories, no message key is a chain key or a root key, no chain key is a root key, and chain keys never repeat |
| Spqr.SpqrState.KeptOnlyInStore | src/protocol/ratchet/spqr.rs:94-108 | the ratchet object holds a message key at most in its skipped-key store, under that number |
| Spqr.SpqrState.ChainsApart | src/protocol/ratchet/spqr.rs:94-108 | the root key and the chain keys held at any time are all different |
| Spqr.StoreAll | src/protocol/ratchet/spqr.rs:299-317 | the store loop adds exactly the numbers passed, each with its right key |
| Spqr.SpqrState.constructor | src/protocol/ratchet/spqr.rs:132-156 | starts on the schedule of the session key with epoch 0 held; output slots 0, 1, 2 are root key, A2B chain and B2A chain |
| Spqr.SpqrState.AddEpoch | src/protocol/ratchet/spqr.rs:170-190 | accepts exactly the next epoch, reseeds from the old root key and the secret with the same slots, and keeps all chains on schedule |
| Spqr.SpqrState.TrySkipped | src/protocol/ratchet/spqr.rs:288-295 | returns and removes the scheduled key of a stored number, or changes nothing |
| Spqr.SpqrState.SkipMessageKeys | src/protocol/ratchet/spqr.rs:299-317 | stores every key passed, or fails unchanged exactly when the gap exceeds MAX_SKIP |
| Spqr.SpqrState.ClearOldEpochs | src/protocol/ratchet/spqr.rs:336-341 | drops exactly one epoch's chains and stored keys |
| Spqr.SpqrState.RatchetSendKey | src/protocol/ratchet/spqr.rs:195-224 | from every valid state succeeds with the scheduled key, so neither error return is reachable; the key is nowhere in the state left |
| Spqr.SpqrState.RatchetReceiveKey | src/protocol/ratchet/spqr.rs:240-285 | acts like the counter model, keeps keys on schedule also on errors, the counter check never fails, and a key returned is nowhere in the state left |
| SpqrRuns.SendValid | src/protocol/ratchet/spqr.rs:195-224 | sending keeps the shape that makes sending succeed |
| SpqrRuns.ReceiveValid | src/protocol/ratchet/spqr.rs:240-285 | so does receiving anything at all, also when it fails |
| SpqrRuns.RetentionExact | src/protocol/ratchet/spqr.rs:195-341 | after any run the epochs held are all so far except e-3 for each e emitted while sending; the last sending epoch, the one before and all newer are held |
| SpqrRuns.DroppedForGood | src/protocol/ratchet/spqr.rs:336-341 | an epoch once dropped is never held again |
| SpqrRuns.HeldBoundedIff | src/protocol/ratchet/spqr.rs:319-341 | for k >= 3, at most k epochs are held exactly while at most 2k-4 epochs (initiator) or 2k-3 (responder) have completed |
| SpqrRetention.HeldUnbounded | src/protocol/ratchet/spqr.rs:319-341 | whatever randomness is drawn, after 300 k messages of a lossless conversation in turns, and ever after, both parties hold more than k epochs |
| SpqrRetention.StoreUnbounded | src/protocol/ratchet/spqr.rs:299-317 | a run of honest sends in which the network loses all but every 2001st message stores exactly 2000 keys per message delivered |
| SpqrRuns.SendChainsHeld | src/protocol/ratchet/spqr.rs:208-222 | a held epoch has its send chain exactly from the last sending epoch on |
| SpqrRuns.KeysConserved | src/protocol/ratchet/spqr.rs:240-317 | stored and returned numbers partition 1..recv, recv is the highest number returned, and at most MAX_SKIP are stored per number returned |
| SpqrRuns.AcceptedExactly | src/protocol/ratchet/spqr.rs:240-317 | a receive returns the scheduled key exactly if the epoch is known and not dropped, the number is new and at most MAX_SKIP beyond; otherwise the stated error |
| SpqrRuns.AtMostOnce | src/protocol/ratchet/spqr.rs:240-285 | no (epoch, number) is returned twice, whatever happens in between |
| SpqrRuns.OnlyTheseErrors | src/protocol/ratchet/spqr.rs:170-285 | after any run, non-consecutive epoch, missing send chain, counter mismatch and Poisoned cannot be returned |
| SpqrRuns.SendKeysNeverRepeat | src/protocol/ratchet/spqr.rs:195-224 | no two sends of a session use the same message key; (epoch, number) strictly increases |
| SpqrPairing.DeliveryVerdict | src/protocol/ratchet/spqr.rs:132-285 | any sent message, delivered at any time and order, yields the sender's key unless its epoch was dropped, the number repeats or the skip is too long; dropping needs three further epochs |
| SpqrPairing.AcceptedOnceAndSent | src/protocol/ratchet/spqr.rs:240-285 | every accepted number belongs to exactly one message the peer sent and is not accepted again |
| SpqrPairing.KeysUnique | src/protocol/ratchet/spqr.rs:132-224 | in every run no two messages, in whatever direction, have the same key |
| EcRatchet.SkippedKeys.Insert | src/protocol/ratchet/skipped.rs:83-89 | stores under (number, DH key); a full store ignores the key |
| EcRatchet.SkippedKeys.TryRemoveByDh | src/protocol/ratchet/skipped.rs:92-96 | returns and removes the key of that place, or changes nothing |
| EcRatchet.SkipLoopFills | src/protocol/ratchet/mod.rs:334-338 | the skip loop ends on the right chain key and stores exactly the keys there is room for, in order |
| EcPairing.RatchetAgreement | src/protocol/ratchet/mod.rs:109-174 | over any number of DH steps the sending chains are neighbours on one root sequence, the leader receives on the peer's sending chain, every stored key is right |
| EcPairing.ResolvedExactly | src/protocol/ratchet/mod.rs:284-373 | the EC half finds a sent message's key exactly if it was neither accepted nor dropped and no skip exceeds MAX_SKIP |
| EcPairing.ResolveRefused | src/protocol/ratchet/mod.rs:284-373 | a repeat, a dropped message or one too far ahead never yields the message's key, even after a DH step on an old key |
| EcPairing.NothingDropped | src/protocol/ratchet/skipped.rs:83-89 | a receive drops no key while the store has room for its gap |
| EcPairing.ReceivedFiles | src/protocol/ratchet/mod.rs:284-303 | an accepted receive files exactly its own number and leaves the peer alone |
| EcRollback.ResolveKeepsIff | src/protocol/ratchet/mod.rs:284-340 | for every state and header, the EC half is left as it was exactly if nothing is stored for the header and the first skip is refused, or there is no chain to advance |
| EcRollback.SentKeepsIff | src/protocol/ratchet/mod.rs:284-340 | a sent message that does not yield its key leaves the EC state as it was exactly if the first skip exceeds MAX_SKIP |
| EcRollback.RepeatMovesChain | src/protocol/ratchet/mod.rs:298-303 | a number already passed and not stored moves the receiving chain by one |
| EcRollback.RepeatLosesNext | src/protocol/ratchet/mod.rs:284-340 | a repeat applied without rollback loses the next message of the chain: whatever is sent or received later, its key never comes out again |
| EcRollback.SecondCopyLosesSecondMessage | src/protocol/ratchet/mod.rs:284-340 | a run of two sends and one receive after which a second copy of the first message loses the second |
| Ratchet.RatchetSession.InitializeAlice | src/protocol/ratchet/mod.rs:109-139 | root, sending chain and SPQR of the initiator |
| Ratchet.RatchetSession.InitializeBob | src/protocol/ratchet/mod.rs:157-174 | root and SPQR of the responder, no chains yet |
| Ratchet.ResolveFitsIff | src/protocol/ratchet/mod.rs:321-340 | for any u32 header numbers, receiving overflows no counter exactly if it does not advance the current chain past u32::MAX |
| Ratchet.RatchetSession.EncryptRaw | src/protocol/ratchet/mod.rs:195-234 | header and hybrid key of both ratchets, sealed for exactly the two identities and the header; the SPQR half has moved even when the EC half fails |
| Ratchet.EncryptFailsIff | src/protocol/ratchet/mod.rs:195-234 | encryption fails exactly without a sending chain, and what has moved by then |
| Ratchet.SealsFor | src/protocol/ratchet/mod.rs:195-234 | for every session, text and pair of identities, the ciphertext carries the text, the identities and the header sent |
| Ratchet.RatchetSession.SkipReceivingMessages | src/protocol/ratchet/mod.rs:321-340 | the loop stores as the value-level skip does; no chain, a number behind or a gap over MAX_SKIP change nothing |
| Ratchet.RatchetSession.PerformDhRatchetStep | src/protocol/ratchet/mod.rs:342-373 | both halves of the DH step, previous length recorded |
| Ratchet.RatchetSession.Decrypt | src/protocol/ratchet/mod.rs:271-319 | the state left and the result, for every message, pair of identities and error; Ok only for a ciphertext sealed for these identities and this header |
| Ratchet.OpensOnlyFor | src/protocol/ratchet/mod.rs:271-319 | for every session, message and pair of identities, what decrypts was sealed for exactly these identities and this header; the state left does not depend on them |
| Ratchet.DecryptFailsExactly | src/protocol/ratchet/mod.rs:271-340 | every error of `decrypt` in the order of its checks, and the AEAD error exactly if both halves yield keys that do not open the ciphertext |
| EndToEnd.DeliveredExactlyOnce | src/protocol/ratchet/mod.rs:195-340 | in every run, for any sender and recipient the caller names, a sent message decrypts, under the sender's hybrid key and to the sender's text, exactly if these are its own, it was not delivered before, not dropped, its epoch is held and no skip too long |
| EndToEnd.OnlyFreshLettersDecrypt | src/protocol/ratchet/mod.rs:271-319 | whatever is made of headers and ciphertexts and whoever the caller names, what decrypts is word for word an undelivered message of the peer to this party, under their identities; own messages sent back never decrypt |
| EndToEnd.OpenPair | src/protocol/ratchet/mod.rs:109-174 | two session objects from one shared secret start as the sessions of every run do |
| EndToEnd.FirstMessageArrives | src/protocol/ratchet/mod.rs:195-319 | the initiator's first message decrypts at the responder |
| EndToEnd.DecryptLetter | src/protocol/ratchet/mod.rs:271-319 | a message decrypts exactly when both ratchets accept it |
| SessionRollback.ErrorKeepsIff | src/protocol/ratchet/mod.rs:271-340 | for every session and message, a failed `decrypt` leaves the session as it was exactly if the EC half refused it at the first skip |
| SessionRollback.RepeatLosesNext | src/protocol/ratchet/mod.rs:271-340 | in every run, a second copy of a delivered message, kept without rollback, makes the next message of that chain undecryptable for good |
| SessionRollback.SecondCopyLosesSecondLetter | src/protocol/ratchet/mod.rs:271-340 | a run in which the responder reads one of two messages, gets it again, and can never read the other |
| KeyUse.LetterKeysUnique | src/protocol/ratchet/mod.rs:195-234 | in every run two messages that share the EC half or the SPQR half of their AEAD key are the same message |
| KeyUse.EcKeysApart | src/protocol/ratchet/chain.rs:38-47 | EC message keys of different places differ, and none is a chain key |
| KeyUse.DeliveredKeyGone | src/protocol/ratchet/mod.rs:284-303 | in every run the receiver of a delivered message holds its EC key neither as a chain key nor in its store |
| SenderKeys.SenderKeyState.DeriveMessageKey | src/protocol/sender_key/mod.rs:95-113 | the first walk yields every key passed and the key wanted, or duplicate or gap errors |
| SenderKeys.SenderKeyState.VerifyHmac | src/protocol/sender_key/mod.rs:135-160 | the second walk meets the same chain key |
| SenderKeys.SenderKeyState.AdvancePast | src/protocol/sender_key/mod.rs:342-345 | the third walk does too and stops one past the message |
| SenderKeys.SenderKeyState.GroupEncrypt | src/protocol/sender_key/mod.rs:256-293 | message of the current iteration, or an error for a non-sender |
| SenderKeys.SenderKeyState.GroupDecrypt | src/protocol/sender_key/mod.rs:306-348 | authentication first, then stored key or walk; the state left on every path |
| SenderKeyRuns.GenuineVerdict | src/protocol/sender_key/mod.rs:235-348 | from any snapshot the receiver reads message i under the sender's key, at most once: Signed in any order within gap and list limits, Hmac in increasing order |
| SenderKeyRuns.OnlyGenuineRead | src/protocol/sender_key/mod.rs:306-348 | whatever is delivered, altered or invented, without a forged signature or (Hmac) a forged tag under a chain key, what decrypts is the sender's own message of that iteration, not read before |
| SenderKeyRuns.ReadsUnderTheChain | src/protocol/sender_key/mod.rs:95-348 | whatever is delivered, forgeries by members included, each iteration is read at most once and only under its own key; on an Hmac chain iterations increase and what is read is characterised exactly |
| SenderKeyRuns.GroupKeysApart | src/protocol/sender_key/mod.rs:95-145 | message, authentication and chain keys of all chains and iterations never meet |
| SenderKeyRuns.ReadKeyGone | src/protocol/sender_key/mod.rs:306-348 | in every run a message once read has left no trace of its key in the receiver |
| SenderKeyRuns.DecryptFailsExactly | src/protocol/sender_key/mod.rs:95-348 | every error of `group_decrypt`, for every state and message; the wrong kind of authentication is a wrong signature |
| SenderKeyRuns.FailedReadKeepsIff | src/protocol/sender_key/mod.rs:306-348 | a failed read leaves the state as it was exactly if it failed authentication or found no stored key; otherwise that key is gone |
| SenderKeyRuns.EncryptsExactly | src/protocol/sender_key/mod.rs:256-293 | sending succeeds exactly for a sender that holds its signing key, and moves the chain by one |
| SenderKeyRuns.ReceiversCannotSend | src/protocol/sender_key/mod.rs:74-91 | a state made from a distribution never encrypts, whatever it has received |
| SenderKeyRuns.SnapshotIs | src/protocol/sender_key/mod.rs:235-250 | a distribution of an existing key starts a receiver at the same place with the same public key and the mode it implies |
| Sesame.DeviceRecord.InsertSession | src/protocol/sesame/mod.rs:53-65 | new session active, old one archived first, list cut to the cap |
| Sesame.DeviceRecord.RecordDecryptSuccess | src/protocol/sesame/mod.rs:82-122 | the used session gets the new data and time, is Regular and keeps creation time and priority; it is active afterwards exactly if it was or outranks the active one; the result is the active session's data; an index not held changes nothing |
| Sesame.DeviceRecord.PruneStale | src/protocol/sesame/mod.rs:125-128 | the inactive list keeps exactly the sessions not stale for receiving, in order |
| SesameRuns.RecordChangesOne | src/protocol/sesame/mod.rs:82-122 | a decrypt replaces exactly the entry used by one with the new data, time and state Regular, and touches no other |
| SesameRuns.RecordStores | src/protocol/sesame/mod.rs:82-122 | both lists after a decrypt, entry by entry: promotion exactly without or above the active session, the displaced one first in the archive, the others in order |
| SesameRuns.PrunesExactly | src/protocol/sesame/mod.rs:125-128 | pruning keeps an archived session exactly if used within 60 days, in order, and leaves the active one alone |
| SesameRuns.ReestablishExactly | src/protocol/sesame/mod.rs:132-137 | a new session is wanted exactly without an active one or when it is older than 30 days |
| SesameRuns.InsertShifts | src/protocol/sesame/mod.rs:53-65 | an insert puts the new session first and keeps the ten most recent others in order |
| SesameRuns.DecryptTakesMax | src/protocol/sesame/mod.rs:82-122 | a decrypt keeps the sessions and sets the active priority to the maximum of old and used |
| SesameRuns.Converges | src/protocol/sesame/mod.rs:53-122 | if nothing under way outranks both active sessions, one message each way leaves both peers on the higher one for good |
| SesameRuns.OutrankedSplits | src/protocol/sesame/mod.rs:53-122 | if something does, its arrival after the exchange splits the peers |
| SesameRuns.AgreeForGoodIff | src/protocol/sesame/mod.rs:53-122 | an exchange settles both peers for good exactly if nothing under way outranks both active sessions |
| SesameRuns.NextExchangeHeals | src/protocol/sesame/mod.rs:53-122 | after the highest message under way has arrived, every exchange leaves both peers on its session for good |
| SesameRuns.ReplacedSessionSplits | src/protocol/sesame/mod.rs:53-122 | a run from empty devices that splits the peers: a message on a replaced, higher session arrives after the exchange on the new one; the next exchange heals it |
| SesameRuns.SwitchesAtMostOncePerInactive | src/protocol/sesame/mod.rs:82-122 | over any run a peer switches at most once per session inactive at the start |
| SesameRuns.NeverPrunedInFlight | src/protocol/sesame/lifecycle.rs:6-28 | a message sent before MAXSEND and arriving within MAXLATENCY finds its session still held, if no insert exceeds the cap |

## Left out

- Real cryptography: ML-KEM, X25519, HKDF, HMAC, Ed25519, AEAD and GF(2^16) arithmetic are symbolic or contracts.
- Erasure.Encoder.New: does not model the exact shard counts `reed-solomon-simd` supports, because the codec is outside the repository; k + r up to 65536 is taken, which covers every object the braid streams.
- PQXDH, pre-keys and the pre-key message wrapper (`encrypt_message`, `decrypt_prekey_message`): sessions start from one shared secret.
- Sealed sender, stores, addresses and everything under `src/hushwire`: check sequences and storage without evolving state.
- Serialization of headers, messages and states: headers are datatypes, and the sender-key authenticated data is a tuple rather than its byte concatenation.
- Padding of plaintexts: easy next to the ratchets.
- `UserRecord`, device refresh and identity keys in Sesame records: simple map reconciliation.
- Secrecy and timing: the theorems are about functional correctness and authenticity. Of forward secrecy they have that a used key is not in the state any more, not that it cannot be computed from it.
- What a call does that overflows a u32 counter (it panics or wraps, by build profile): the methods are specified on the calls that do not, and runs are over unbounded numbers.
- EndToEnd.DeliveredExactlyOnce: for a caller that keeps the old session on an error; `decrypt` itself does not roll back, and `SessionRollback` has the other case.
- SenderKeyRuns.OnlyGenuineRead: on Hmac chains against outsiders only, because members hold the chain key and can forge; `SenderKeyRuns.ReadsUnderTheChain` covers members.
- Codewords altered more than once per run, or with a changed epoch, type or index: `BraidBadWord.OneBadWord` is about the bytes of one codeword. Safety against all of these is in `BraidAdversary`.
- SesameRuns.Converges: sessions are identified by their priority, so it needs distinct priorities; legacy sessions all have priority 0.
