/**
 Group sender keys (src/protocol/sender_key/mod.rs): a hash-ratcheted chain shared once and
 then used for every group message. `SenderKey` is the state as a value; `SenderKeyState`
 updates it in place with the source's loops.
 */
module SenderKeys {
  import opened Common

  /** Outputs of `hmac_derive`: message key (0x01), next chain key (0x02), authentication key (0x03). */
  datatype GroupKey = Chain0(id: nat) | MessageKeyOf(ck: GroupKey) | NextKey(ck: GroupKey) | AuthKeyOf(ck: GroupKey)

  type Bytes8 = seq<bv8>

  /** AEAD ciphertext with the group id as associated data, or bytes that are none. */
  datatype GroupCipher = Sealed(key: GroupKey, plain: Bytes8, group: Bytes8) | Junk(id: nat)

  datatype AuthData = AuthData(group: Bytes8, iteration: nat, ciphertext: GroupCipher)

  /** An HMAC tag, an Ed25519 signature by a signing seed, or bytes that are neither. */
  datatype MessageAuth = Hmac(key: GroupKey, data: AuthData) | Signature(seed: nat, data: AuthData)
                       | OtherTag(id: nat) | OtherSignature(id: nat)

  datatype SenderKeyAuth = HmacMode | SignedMode

  datatype SenderKeyMessage = SenderKeyMessage(group: Bytes8, iteration: nat, ciphertext: GroupCipher, auth: MessageAuth)

  datatype Distribution = Distribution(group: Bytes8, chainKey: GroupKey, iteration: nat, signingKey: Option<nat>)

  const GAP_LIMIT := 2000

  datatype SenderKey = SenderKey(chainKey: GroupKey, iteration: nat, isSender: bool, mode: SenderKeyAuth,
                                 signingPublic: Option<nat>, signingPrivate: Option<nat>, skipped: seq<(nat, GroupKey)>)

  function Iterate(ck: GroupKey, n: nat): GroupKey
  {
    if n == 0 then ck else NextKey(Iterate(ck, n - 1))
  }

  lemma {:induction false} IterateAdd(ck: GroupKey, m: nat, n: nat)
    ensures Iterate(Iterate(ck, m), n) == Iterate(ck, m + n)
  {
    if n > 0 { IterateAdd(ck, m, n - 1); }
  }

  function FromDistribution(d: Distribution): SenderKey
  {
    SenderKey(d.chainKey, d.iteration, false, if d.signingKey.Some? then SignedMode else HmacMode, d.signingKey, None, [])
  }

  function DistributionFor(s: SenderKey, group: Bytes8): Distribution
  {
    Distribution(group, s.chainKey, s.iteration, s.signingPublic)
  }

  /** A new sender key: chain `id`, signing seed `seed`. The public half of a seed has its name. */
  function Create(id: nat, seed: nat, mode: SenderKeyAuth): SenderKey
  {
    var key := if mode == SignedMode then Some(seed) else None;
    SenderKey(Chain0(id), 0, true, mode, key, key, [])
  }

  function OpenGroup(key: GroupKey, c: GroupCipher, group: Bytes8): Result<Bytes8>
  {
    if c.Sealed? && c.key == key && c.group == group then Ok(c.plain) else Err(DecryptionFailed)
  }

  /** The keys passed over and the key at `at`, or why there is none. */
  function Derived(s: SenderKey, at: nat): Result<(seq<GroupKey>, GroupKey)>
  {
    if at < s.iteration then Err(DuplicateMessage)
    else if at - s.iteration > GAP_LIMIT then Err(MaxSkipExceeded(at - s.iteration, GAP_LIMIT))
    else
      Ok((Walk(s.chainKey, at - s.iteration), MessageKeyOf(Iterate(s.chainKey, at - s.iteration))))
  }

  /** The first n message keys from a chain key on. */
  function Walk(ck: GroupKey, n: nat): (keys: seq<GroupKey>)
    ensures |keys| == n && forall i :: 0 <= i < n ==> keys[i] == MessageKeyOf(Iterate(ck, i))
  {
    seq(n, i requires 0 <= i < n => MessageKeyOf(Iterate(ck, i)))
  }

  lemma WalkNext(ck: GroupKey, n: nat)
    ensures Walk(ck, n + 1) == Walk(ck, n) + [MessageKeyOf(Iterate(ck, n))]
  {
    hide Walk, Iterate;
  }

  function HmacVerdict(s: SenderKey, iteration: nat, data: AuthData, tag: MessageAuth): Result<()>
  {
    if iteration < s.iteration then Err(DuplicateMessage)
    else if iteration - s.iteration > GAP_LIMIT then Err(MaxSkipExceeded(iteration - s.iteration, GAP_LIMIT))
    else if tag == Hmac(AuthKeyOf(Iterate(s.chainKey, iteration - s.iteration)), data) then Ok(())
    else Err(InvalidSignature)
  }

  function AuthVerdict(s: SenderKey, m: SenderKeyMessage): Result<()>
  {
    var data := AuthData(m.group, m.iteration, m.ciphertext);
    if s.mode == SignedMode && (m.auth.Signature? || m.auth.OtherSignature?) then
      if s.signingPublic.Some? && m.auth == Signature(s.signingPublic.value, data) then Ok(()) else Err(InvalidSignature)
    else if s.mode == HmacMode && (m.auth.Hmac? || m.auth.OtherTag?) then HmacVerdict(s, m.iteration, data, m.auth)
    else Err(InvalidSignature)
  }

  /** First position of an iteration in the skipped list, or the list's length. */
  function Position(skipped: seq<(nat, GroupKey)>, iteration: nat): (p: nat)
    ensures p <= |skipped|
    ensures p < |skipped| ==> skipped[p].0 == iteration
    ensures forall i :: 0 <= i < p ==> skipped[i].0 != iteration
  {
    if skipped == [] || skipped[0].0 == iteration then 0 else 1 + Position(skipped[1..], iteration)
  }

  /** Push keys with consecutive iterations until the list holds GAP_LIMIT. */
  function Pushed(skipped: seq<(nat, GroupKey)>, from: nat, keys: seq<GroupKey>): seq<(nat, GroupKey)>
    decreases |keys|
  {
    if keys == [] then skipped
    else Pushed(if |skipped| < GAP_LIMIT then skipped + [(from, keys[0])] else skipped, from + 1, keys[1..])
  }

  function Encrypted(s: SenderKey, group: Bytes8, plain: Bytes8): (SenderKey, Result<SenderKeyMessage>)
  {
    if !s.isSender then (s, Err(MissingSenderKey))
    else
      var ciphertext := Sealed(MessageKeyOf(s.chainKey), plain, group);
      var data := AuthData(group, s.iteration, ciphertext);
      if s.mode == SignedMode && s.signingPrivate.None? then (s, Err(MissingSenderKey))
      else
        var auth := if s.mode == SignedMode then Signature(s.signingPrivate.value, data) else Hmac(AuthKeyOf(s.chainKey), data);
        (s.(chainKey := NextKey(s.chainKey), iteration := s.iteration + 1), Ok(SenderKeyMessage(group, s.iteration, ciphertext, auth)))
  }

  /** The state `group_decrypt` leaves, also on an error, and its result. */
  function Decrypted(s: SenderKey, m: SenderKeyMessage): (SenderKey, Result<Bytes8>)
  {
    var auth := AuthVerdict(s, m);
    if auth.Err? then (s, Err(auth.error))
    else
      var p := Position(s.skipped, m.iteration);
      if p < |s.skipped| then
        (s.(skipped := s.skipped[..p] + s.skipped[p + 1..]), OpenGroup(s.skipped[p].1, m.ciphertext, m.group))
      else
        var d := Derived(s, m.iteration);
        if d.Err? then (s, Err(d.error))
        else
          var plain := OpenGroup(d.value.1, m.ciphertext, m.group);
          if plain.Err? then (s, plain)
          else
            (s.(chainKey := Iterate(s.chainKey, m.iteration + 1 - s.iteration), iteration := m.iteration + 1,
                skipped := Pushed(s.skipped, s.iteration, d.value.0)), plain)
  }

  // ---- the state in place -----------------------------------------------------------------

  class SenderKeyState {
    var chainKey: GroupKey
    var iteration: nat
    const isSender: bool
    const mode: SenderKeyAuth
    const signingPublic: Option<nat>
    const signingPrivate: Option<nat>
    var skippedMessageKeys: seq<(nat, GroupKey)>

    ghost function View(): SenderKey
      reads this
    {
      SenderKey(chainKey, iteration, isSender, mode, signingPublic, signingPrivate, skippedMessageKeys)
    }

    constructor Of(s: SenderKey)
      ensures View() == s
    {
      chainKey, iteration, isSender, mode := s.chainKey, s.iteration, s.isSender, s.mode;
      signingPublic, signingPrivate, skippedMessageKeys := s.signingPublic, s.signingPrivate, s.skipped;
    }

    /** First walk along the chain: the keys passed over and the key wanted. */
    method DeriveMessageKey(atIteration: nat) returns (r: Result<(seq<GroupKey>, GroupKey)>)
      ensures r == Derived(View(), atIteration)
    {
      hide Walk;
      if atIteration < iteration {
        return Err(DuplicateMessage);
      }
      var gap := atIteration - iteration;
      if gap > GAP_LIMIT {
        return Err(MaxSkipExceeded(gap, GAP_LIMIT));
      }
      var ck := chainKey;
      var skipped: seq<GroupKey> := [];
      for i := 0 to gap
        invariant ck == Iterate(chainKey, i) && skipped == Walk(chainKey, i)
      {
        WalkNext(chainKey, i);
        skipped := skipped + [MessageKeyOf(ck)];
        ck := NextKey(ck);
      }
      return Ok((skipped, MessageKeyOf(ck)));
    }

    /** Second walk: the authentication key at the message's iteration. */
    method VerifyHmac(messageIteration: nat, data: AuthData, tag: MessageAuth) returns (r: Result<()>)
      ensures r == HmacVerdict(View(), messageIteration, data, tag)
    {
      var authKey;
      if messageIteration == iteration {
        authKey := AuthKeyOf(chainKey);
      } else if messageIteration > iteration {
        var gap := messageIteration - iteration;
        if gap > GAP_LIMIT {
          return Err(MaxSkipExceeded(gap, GAP_LIMIT));
        }
        var ck := chainKey;
        for i := 0 to gap
          invariant ck == Iterate(chainKey, i)
        {
          ck := NextKey(ck);
        }
        authKey := AuthKeyOf(ck);
      } else {
        return Err(DuplicateMessage);
      }
      return if tag == Hmac(authKey, data) then Ok(()) else Err(InvalidSignature);
    }

    method GroupEncrypt(group: Bytes8, plaintext: Bytes8) returns (r: Result<SenderKeyMessage>)
      requires iteration < U32_MAX
      modifies this
      ensures (View(), r) == Encrypted(old(View()), group, plaintext)
    {
      if !isSender {
        return Err(MissingSenderKey);
      }
      var ciphertext := Sealed(MessageKeyOf(chainKey), plaintext, group);
      var at := iteration;
      var data := AuthData(group, at, ciphertext);
      var auth;
      if mode == SignedMode {
        if signingPrivate.None? { return Err(MissingSenderKey); }
        auth := Signature(signingPrivate.value, data);
      } else {
        auth := Hmac(AuthKeyOf(chainKey), data);
      }
      chainKey := NextKey(chainKey);
      iteration := iteration + 1;
      return Ok(SenderKeyMessage(group, at, ciphertext, auth));
    }

    method Authenticate(m: SenderKeyMessage) returns (r: Result<()>)
      ensures r == AuthVerdict(View(), m)
    {
      var data := AuthData(m.group, m.iteration, m.ciphertext);
      if mode == SignedMode && (m.auth.Signature? || m.auth.OtherSignature?) {
        if signingPublic.None? { return Err(InvalidSignature); }
        return if m.auth == Signature(signingPublic.value, data) then Ok(()) else Err(InvalidSignature);
      } else if mode == HmacMode && (m.auth.Hmac? || m.auth.OtherTag?) {
        r := VerifyHmac(m.iteration, data, m.auth);
      } else {
        return Err(InvalidSignature);
      }
    }

    method FindSkipped(at: nat) returns (pos: nat)
      ensures pos == Position(skippedMessageKeys, at)
    {
      pos := 0;
      while pos < |skippedMessageKeys| && skippedMessageKeys[pos].0 != at
        invariant pos <= |skippedMessageKeys|
        invariant forall i :: 0 <= i < pos ==> skippedMessageKeys[i].0 != at
      {
        pos := pos + 1;
      }
      PositionIs(skippedMessageKeys, at, pos);
    }

    method StoreSkipped(keys: seq<GroupKey>)
      modifies this`skippedMessageKeys
      ensures skippedMessageKeys == Pushed(old(skippedMessageKeys), iteration, keys)
    {
      for i := 0 to |keys|
        invariant Pushed(skippedMessageKeys, iteration + i, keys[i..]) == Pushed(old(skippedMessageKeys), iteration, keys)
      {
        assert keys[i..][1..] == keys[i + 1..];
        if |skippedMessageKeys| < GAP_LIMIT {
          skippedMessageKeys := skippedMessageKeys + [(iteration + i, keys[i])];
        }
      }
      assert keys[|keys|..] == [];
    }

    /** Third walk: the chain itself moves past the message. */
    method AdvancePast(messageIteration: nat)
      requires iteration <= messageIteration < U32_MAX
      modifies this`chainKey, this`iteration
      ensures iteration == messageIteration + 1
      ensures chainKey == Iterate(old(chainKey), messageIteration + 1 - old(iteration))
    {
      ghost var start := iteration;
      while iteration <= messageIteration
        invariant start <= iteration <= messageIteration + 1
        invariant chainKey == Iterate(old(chainKey), iteration - start)
      {
        chainKey := NextKey(chainKey);
        iteration := iteration + 1;
      }
    }

    method GroupDecrypt(m: SenderKeyMessage) returns (r: Result<Bytes8>)
      requires m.iteration <= U32_MAX && Decrypted(View(), m).0.iteration <= U32_MAX
      modifies this
      ensures (View(), r) == Decrypted(old(View()), m)
    {
      var auth := Authenticate(m);
      if auth.Err? { return Err(auth.error); }
      var pos := FindSkipped(m.iteration);
      if pos < |skippedMessageKeys| {
        var mk := skippedMessageKeys[pos].1;
        skippedMessageKeys := skippedMessageKeys[..pos] + skippedMessageKeys[pos + 1..];
        return OpenGroup(mk, m.ciphertext, m.group);
      }
      var derived := DeriveMessageKey(m.iteration);
      if derived.Err? { return Err(derived.error); }
      var (skipped, mk) := derived.value;
      var plaintext := OpenGroup(mk, m.ciphertext, m.group);
      if plaintext.Err? { return plaintext; }
      StoreSkipped(skipped);
      AdvancePast(m.iteration);
      return plaintext;
    }
  }

  lemma {:induction false} PositionIs(skipped: seq<(nat, GroupKey)>, at: nat, pos: nat)
    requires pos <= |skipped| && (pos < |skipped| ==> skipped[pos].0 == at)
    requires forall i :: 0 <= i < pos ==> skipped[i].0 != at
    ensures Position(skipped, at) == pos
  {
    if skipped != [] && skipped[0].0 != at { PositionIs(skipped[1..], at, pos - 1); }
  }
}
