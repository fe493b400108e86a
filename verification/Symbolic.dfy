/**
 Symbolic cryptography for the ML-KEM braid.

 A byte on the wire is either a literal or "byte number `pos` of the symbolic value
 `term`", so concatenating, splitting, padding and chunking byte strings is done on
 real sequences, while KDFs, MACs, the KEM and the erasure codec are constructors of a
 free term algebra (distinct inputs give distinct outputs).
 */
module Symbolic {
  import opened Common

  type Bytes = seq<Byte>

  datatype Byte = Lit(value: nat) | Of(term: Term, pos: nat)

  datatype MacLabel = EkHeader | Ciphertext

  datatype Term =
    | Fresh(id: nat)                                   // sampled randomness
    | AuthSeed(secret: Term)                           // braid_auth_seed(shared secret)
    | ZeroKey                                          // 32 zero bytes
    | Pk1(seed: Term)                                  // encapsulation-key header
    | Pk2(seed: Term)                                  // encapsulation-key vector
    | Ct1(pk1: Bytes, coins: Term)
    | Ct2(pk1: Bytes, coins: Term, pk2: Bytes)
    | Shared(pk1: Bytes, coins: Term)                  // raw KEM shared secret
    | Rejected(seed: Term, ct1: Bytes, ct2: Bytes)     // implicit rejection
    | EpochKey(raw: Term, epoch: nat)                  // KDF_OK
    | AuthRoot(root: Term, key: Term, epoch: nat)      // KDF_AUTH, first half
    | AuthMacKey(root: Term, key: Term, epoch: nat)    // KDF_AUTH, second half
    | Mac(key: Term, use: MacLabel, epoch: nat, data: Bytes)
    | Recovery(message: Bytes, index: nat)             // recovery shard of a padded message
    | Mixture(received: map<nat, Bytes>, shard: nat)   // codec output on mixed codewords

  /** The `len` bytes of the symbolic value `t`. */
  function Spell(t: Term, len: nat): (b: Bytes)
    ensures |b| == len
    ensures forall i :: 0 <= i < len ==> b[i] == Of(t, i)
  {
    seq(len, i requires 0 <= i < len => Of(t, i))
  }

  // ML-KEM-768 object sizes (component_sizes and chunk_counts_match_spec tests).
  const PK1_LEN := 64
  const PK2_LEN := 1152
  const CT1_LEN := 960
  const CT2_LEN := 128
  const MAC_SIZE := 32

  // ---- incremental KEM ----------------------------------------------------------

  function HeaderOf(seed: Term): Bytes { Spell(Pk1(seed), PK1_LEN) }

  function EkVectorOf(seed: Term): Bytes { Spell(Pk2(seed), PK2_LEN) }

  /** `kem::validate_public_key`: the two halves belong to one key pair. */
  predicate ValidPublicKey(pk1: Bytes, pk2: Bytes)
  {
    && |pk1| == PK1_LEN
    && pk1[0].Of? && pk1[0].term.Pk1?
    && pk1 == HeaderOf(pk1[0].term.seed)
    && pk2 == EkVectorOf(pk1[0].term.seed)
  }

  /** The state `kem::encapsulate1` carries forward to `kem::encapsulate2`. */
  datatype EncapsState = EncapsState(pk1: Bytes, coins: Term)

  function Encapsulate1(pk1: Bytes, coins: Term): (Bytes, EncapsState, Term)
  {
    (Spell(Ct1(pk1, coins), CT1_LEN), EncapsState(pk1, coins), Shared(pk1, coins))
  }

  function Encapsulate2(st: EncapsState, pk2: Bytes): Bytes
  {
    Spell(Ct2(st.pk1, st.coins, pk2), CT2_LEN)
  }

  /** `kem::decapsulate`: re-encrypts and compares; a mismatch is rejected implicitly. */
  function Decapsulate(seed: Term, ct1: Bytes, ct2: Bytes): Result<Term>
  {
    if |ct1| != CT1_LEN || |ct2| != CT2_LEN then Err(BadLength)
    else if
      && ct1[0].Of? && ct1[0].term.Ct1?
      && var coins := ct1[0].term.coins;
         && ct1 == Spell(Ct1(HeaderOf(seed), coins), CT1_LEN)
         && ct2 == Spell(Ct2(HeaderOf(seed), coins, EkVectorOf(seed)), CT2_LEN)
    then Ok(Shared(HeaderOf(seed), ct1[0].term.coins))
    else Ok(Rejected(seed, ct1, ct2))
  }

  // ---- KDF_OK and the authenticator ratchet -------------------------------------

  datatype Authenticator = Authenticator(root: Term, mac: Term) {
    static function Init(epoch: nat, key: Term): Authenticator
    {
      Authenticator(ZeroKey, ZeroKey).Update(epoch, key)
    }

    function Update(epoch: nat, key: Term): Authenticator
    {
      Authenticator(AuthRoot(root, key, epoch), AuthMacKey(root, key, epoch))
    }

    function MacHdr(epoch: nat, hdr: Bytes): Bytes
    {
      Spell(Mac(mac, EkHeader, epoch, hdr), MAC_SIZE)
    }

    function MacCt(epoch: nat, ct: Bytes): Bytes
    {
      Spell(Mac(mac, Ciphertext, epoch, ct), MAC_SIZE)
    }

    predicate VfyHdr(epoch: nat, hdr: Bytes, expected: Bytes)
    {
      MacHdr(epoch, hdr) == expected
    }

    predicate VfyCt(epoch: nat, ct: Bytes, expected: Bytes)
    {
      MacCt(epoch, ct) == expected
    }
  }

  /** The authenticator after every epoch secret in `secrets` (epochs 1, 2, ...). */
  function AuthFold(seed: Term, secrets: seq<Term>): Authenticator
  {
    if secrets == [] then Authenticator.Init(1, seed)
    else AuthFold(seed, secrets[..|secrets| - 1]).Update(|secrets|, secrets[|secrets| - 1])
  }

  /** One step: the MAC key is never a root key, and either key binds everything that went in. */
  lemma UpdateSeparates(a: Authenticator, e: nat, k: Term, b: Authenticator, f: nat, l: Term)
    ensures a.Update(e, k).mac != b.Update(f, l).root
    ensures a.Update(e, k).mac == b.Update(f, l).mac ==> a.root == b.root && e == f && k == l
    ensures a.Update(e, k).root == b.Update(f, l).root ==> a.root == b.root && e == f && k == l
  {
  }

  /** No MAC key of any history is a root key of any history, or the zero key. */
  lemma MacKeyNeverRoot(seed: Term, xs: seq<Term>, seed': Term, ys: seq<Term>)
    ensures AuthFold(seed, xs).mac != AuthFold(seed', ys).root
    ensures AuthFold(seed, xs).mac != ZeroKey && AuthFold(seed, xs).root != ZeroKey
  {
  }

  /**
   Equal MAC keys mean equal histories: the authenticator binds the session's seed and every
   epoch secret that was ever mixed in, in order.
   */
  lemma {:induction false} AuthFoldInjective(seed: Term, xs: seq<Term>, seed': Term, ys: seq<Term>)
    requires
      || AuthFold(seed, xs).mac == AuthFold(seed', ys).mac
      || AuthFold(seed, xs).root == AuthFold(seed', ys).root
    ensures seed == seed' && xs == ys
  {
    var (m, n) := (|xs| - 1, |ys| - 1);
    if xs == [] || ys == [] {
      if xs != [] { MacKeyNeverRoot(seed, xs[..m], seed, xs[..m]); }
      if ys != [] { MacKeyNeverRoot(seed', ys[..n], seed', ys[..n]); }
    } else {
      AuthFoldInjective(seed, xs[..m], seed', ys[..n]);
      assert xs == xs[..m] + [xs[m]] && ys == ys[..n] + [ys[n]];
    }
  }

  // ---- the KEM as a contract ----------------------------------------------------------------

  /**
   Decapsulation yields a shared secret exactly for the two ciphertext halves made for this
   key pair with the same coins, and then the encapsulator's; anything else of the right
   lengths yields a secret no encapsulation ever yields.
   */
  lemma DecapsulatesExactly(seed: Term, ct1: Bytes, ct2: Bytes, pk1: Bytes, coins: Term)
    requires |ct1| == CT1_LEN && |ct2| == CT2_LEN
    ensures Decapsulate(seed, ct1, ct2).Ok?
    ensures var (own1, st, raw) := Encapsulate1(HeaderOf(seed), coins);
      Decapsulate(seed, ct1, ct2).value == raw <==> ct1 == own1 && ct2 == Encapsulate2(st, EkVectorOf(seed))
    ensures pk1 != HeaderOf(seed) ==> Decapsulate(seed, ct1, ct2).value != Encapsulate1(pk1, coins).2
  {
    assert Encapsulate1(HeaderOf(seed), coins).0[0] == Of(Ct1(HeaderOf(seed), coins), 0);
  }

  /** The two halves of a key fit together exactly if one seed made both. */
  lemma ValidKeyExactly(seed: Term, pk1: Bytes, pk2: Bytes)
    ensures ValidPublicKey(HeaderOf(seed), pk2) <==> pk2 == EkVectorOf(seed)
    ensures ValidPublicKey(pk1, EkVectorOf(seed)) <==> pk1 == HeaderOf(seed)
  {
    assert HeaderOf(seed)[0] == Of(Pk1(seed), 0) && EkVectorOf(seed)[0] == Of(Pk2(seed), 0);
    if ValidPublicKey(pk1, EkVectorOf(seed)) { assert EkVectorOf(pk1[0].term.seed)[0] == Of(Pk2(pk1[0].term.seed), 0); }
  }
}
