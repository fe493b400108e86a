/**
 How keys are used across the two ratchets of a session: every message has its own key in
 each of them, no message key is ever a key something else is derived from, and a party
 keeps no key it has already used.
 */
module KeyUse {
  import opened Common
  import opened Symbolic
  import opened EcRatchet
  import opened Ratchet
  import opened EndToEnd
  import C = EcPairing
  import Q = SpqrPairing

  // ---- the EC half --------------------------------------------------------------------------

  /** Different places mean different message keys, and no message key is a chain key. */
  lemma EcKeysApart(w: C.EcWorld, j: nat, n: nat, j': nat, n': nat)
    requires 1 <= j < |w.keys| && 1 <= j' < |w.keys|
    ensures C.KeyOf(w, j, n) == C.KeyOf(w, j', n') ==> j == j' && n == n'
    ensures C.KeyOf(w, j, n) != Iterate(C.Start(w.sk, w.keys, j'), n')
  {
    if C.KeyOf(w, j, n) == C.KeyOf(w, j', n') {
      IterateInjective(C.Start(w.sk, w.keys, j), n, C.Start(w.sk, w.keys, j'), n');
      C.RootInjective(w.sk, w.keys, j - 1, j' - 1);
    }
    NeverMessageKey(C.Start(w.sk, w.keys, j'), n');
  }

  lemma NeverMessageKey(start: EcKey, n: nat)
    requires start.ChainStart?
    ensures !Iterate(start, n).MessageOf?
  {
  }

  /** The key is a chain key or a stored key of this state. */
  ghost predicate EcKeeps(ec: Ec, mk: EcKey)
  {
    || (ec.send.Some? && ec.send.value.ck == mk) || (ec.recv.Some? && ec.recv.value.ck == mk)
    || exists k :: k in ec.skipped && ec.skipped[k] == mk
  }

  /** Once a message is accepted its key is nowhere in the receiver's EC state. */
  lemma AcceptedGone(w: C.EcWorld, p: Party, j: nat, n: nat)
    requires C.WorldOk(w) && C.SentTo(w, p, j, n) && n in Got(w.At(p).accepted, j)
    ensures !EcKeeps(w.At(p).ec, C.KeyOf(w, j, n))
  {
    hide C.Start, Iterate, KeyAt, C.RootAt, Got;
    var side := w.At(p);
    forall k | k in side.ec.skipped ensures side.ec.skipped[k] != C.KeyOf(w, j, n) { StoredElse(w, p, j, n, k); }
    if side.s >= 1 { EcKeysApart(w, j, n, side.s, w.lens[side.s]); }
    if side.s >= 2 { EcKeysApart(w, j, n, side.s - 1, side.r); }
  }

  lemma StoredElse(w: C.EcWorld, p: Party, j: nat, n: nat, k: Place)
    requires C.WorldOk(w) && C.SentTo(w, p, j, n) && n in Got(w.At(p).accepted, j) && k in w.At(p).ec.skipped
    ensures w.At(p).ec.skipped[k] != C.KeyOf(w, j, n)
  {
    hide C.Start, Iterate, KeyAt, C.RootAt, Got;
    var side := w.At(p);
    var i :| 0 <= i < |w.keys| && w.keys[i] == k.dh;
    C.StoredFacts(side, w.sk, w.keys, w.lens, i, k.n);
    EcKeysApart(w, i, k.n, j, n);
    assert C.Books(side, w.sk, w.keys, j, C.Passed(side.s, side.r, w.lens, j));
  }

  // ---- whole sessions -------------------------------------------------------------------------

  /**
   In every run: two messages that share either half of their AEAD key are the same message,
   so no AEAD key is used twice, whichever of the two ratchets one trusts.
   */
  lemma LetterKeysUnique(sk: Term, bob: Dh, alice: Dh, steps: seq<Step>, m: Letter, k: Letter)
    requires bob != alice && m in Run(sk, bob, alice, steps).wire && k in Run(sk, bob, alice, steps).wire
    ensures m.msg.cipher.Aead? && k.msg.cipher.Aead?
    ensures m.msg.cipher.key.ec == k.msg.cipher.key.ec || m.msg.cipher.key.pq == k.msg.cipher.key.pq ==> m == k
  {
    hide Run, C.WorldOk, C.KeyOf, DeliveredOk, Q.DuoInv, C.HeaderOf;
    RunInv(sk, bob, alice, steps);
    var w := Run(sk, bob, alice, steps);
    assert LetterOk(w, m) && LetterOk(w, k);
    if m.msg.cipher.key.ec == k.msg.cipher.key.ec { EcKeysApart(w.ec, m.j, m.n, k.j, k.n); }
    if m.msg.cipher.key.pq == k.msg.cipher.key.pq { Q.SameKeySameMessage(w.duo, AuthSeed(sk), m.sealed, k.sealed); }
  }

  /** In every run the receiver of a delivered message has nothing left of its EC key. */
  lemma DeliveredKeyGone(sk: Term, bob: Dh, alice: Dh, steps: seq<Step>, m: Letter)
    requires bob != alice && m in Run(sk, bob, alice, steps).delivered
    ensures var w := Run(sk, bob, alice, steps);
      m.msg.cipher.Aead? && !EcKeeps(w.At(m.from.Peer()).ec, m.msg.cipher.key.ec)
  {
    hide Run, C.WorldOk, C.KeyOf, Q.DuoInv, C.HeaderOf, EcKeeps;
    RunInv(sk, bob, alice, steps);
    var w := Run(sk, bob, alice, steps);
    assert LetterOk(w, m) && DeliveredOk(w, m);
    AcceptedGone(w.ec, m.from.Peer(), m.j, m.n);
  }
}
