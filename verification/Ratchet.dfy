/**
 The session that joins the two ratchets (src/protocol/ratchet/mod.rs): every message key is
 the hybrid of an EC key and an SPQR key, and the AEAD binds both identities and the whole
 header. `Session` is the state as a value; `RatchetSession` updates it in place.
 */
module Ratchet {
  import opened Common
  import opened Symbolic
  import opened BraidMachine
  import opened Spqr
  import opened SpqrRuns
  import opened EcRatchet

  type Plain = seq<bv8>

  /** KDF_HYBRID of the two message keys. */
  datatype HybridKey = Hybrid(ec: EcKey, pq: PqKey)

  datatype Header = Header(ec: EcHeader, braid: Message, pqN: nat)

  /** Associated data: sender identity, recipient identity, header. */
  datatype Ad = Ad(sender: Party, recipient: Party, header: Header)

  /** An AEAD ciphertext, or bytes that are none. */
  datatype Cipher = Aead(key: HybridKey, plain: Plain, ad: Ad) | Noise(id: nat)

  datatype RatchetMessage = RatchetMessage(header: Header, cipher: Cipher)

  function Open(key: HybridKey, cipher: Cipher, ad: Ad): Result<Plain>
  {
    if cipher.Aead? && cipher.key == key && cipher.ad == ad then Ok(cipher.plain) else Err(DecryptionFailed)
  }

  datatype Session = Session(ec: Ec, pq: Model) {
    /** The state `encrypt_raw` leaves, and its result: the SPQR half has advanced even if the EC half fails. */
    function Encrypt(plain: Plain, sender: Party, recipient: Party, coins: Term): (Session, Result<RatchetMessage>)
      requires pq.Valid()
    {
      var (pq', braid, pqN, pqMk) := pq.Send(coins);
      var r := ec.Send();
      if r.Err? then (Session(ec, pq'), Err(r.error))
      else
        var (ec', ecHdr, ecMk) := r.value;
        var hdr := Header(ecHdr, braid, pqN);
        (Session(ec', pq'), Ok(RatchetMessage(hdr, Aead(Hybrid(ecMk, pqMk), plain, Ad(sender, recipient, hdr)))))
    }

    /** The state `decrypt` leaves, and its result. Both ratchets move before the AEAD check. */
    function Decrypt(msg: RatchetMessage, sender: Party, recipient: Party, name: Dh): (Session, Result<Plain>)
      requires pq.Valid()
    {
      var (ec', ecMk) := ec.Resolve(msg.header.ec, name);
      if ecMk.Err? then (Session(ec', pq), Err(ecMk.error))
      else
        var (pq', pqMk) := pq.Receive(msg.header.braid, msg.header.pqN);
        if pqMk.Err? then (Session(ec', pq'), Err(pqMk.error))
        else (Session(ec', pq'), Open(Hybrid(ecMk.value, pqMk.value), msg.cipher, Ad(sender, recipient, msg.header)))
    }
  }

  /**
   For every session, message and pair of identities: what decrypts was sealed for exactly
   these two identities and this header, and comes out as it went in. The identities decide
   nothing else: the state left is the same for all of them.
   */
  lemma OpensOnlyFor(s: Session, msg: RatchetMessage, sender: Party, recipient: Party, x: Party, y: Party, name: Dh)
    requires s.pq.Valid()
    ensures s.Decrypt(msg, sender, recipient, name).0 == s.Decrypt(msg, x, y, name).0
    ensures var r := s.Decrypt(msg, sender, recipient, name).1;
      r.Ok? ==> msg.cipher.Aead? && msg.cipher.ad == Ad(sender, recipient, msg.header) && r.value == msg.cipher.plain
    ensures msg.cipher.Aead? && msg.cipher.ad == Ad(x, y, msg.header) ==>
      (s.Decrypt(msg, sender, recipient, name).1.Ok? <==> sender == x && recipient == y && s.Decrypt(msg, x, y, name).1.Ok?)
  {
    hide Ec.Resolve, Model.Receive, Model.Valid;
  }

  /** What is encrypted for two identities carries them, the text, and the header it was sent with. */
  lemma SealsFor(s: Session, plain: Plain, sender: Party, recipient: Party, coins: Term)
    requires s.pq.Valid() && s.Encrypt(plain, sender, recipient, coins).1.Ok?
    ensures var m := s.Encrypt(plain, sender, recipient, coins).1.value;
      m.cipher.Aead? && m.cipher.plain == plain && m.cipher.ad == Ad(sender, recipient, m.header)
  {
    hide Model.Send, Model.Valid, Ec.Send;
  }

  /**
   `encrypt_raw` fails exactly if there is no sending chain yet; the SPQR half has moved by
   then, the EC half has not.
   */
  lemma EncryptFailsIff(s: Session, plain: Plain, sender: Party, recipient: Party, coins: Term)
    requires s.pq.Valid()
    ensures var (s', r) := s.Encrypt(plain, sender, recipient, coins);
      && (r.Err? <==> s.ec.send.None?) && (r.Err? ==> r.error == InvalidSessionState && s'.ec == s.ec)
      && s'.pq == s.pq.Send(coins).0
  {
    hide Model.Send, Model.Valid;
  }

  /** What the EC half reports: no receiving chain, or by how much a skip exceeds MAX_SKIP. */
  function EcRefusal(ec: Ec, hdr: EcHeader): Option<Error>
  {
    if Place(hdr.n, hdr.dh) in ec.skipped then None
    else if ec.remote == Some(hdr.dh) then
      if ec.recv.None? then Some(InvalidSessionState)
      else if hdr.n > ec.recv.value.n + 2000 then Some(MaxSkipExceeded(hdr.n - ec.recv.value.n, 2000)) else None
    else if ec.recv.Some? && hdr.pn > ec.recv.value.n + 2000 then Some(MaxSkipExceeded(hdr.pn - ec.recv.value.n, 2000))
    else if hdr.n > 2000 then Some(MaxSkipExceeded(hdr.n, 2000))
    else None
  }

  /**
   Every error of `decrypt`, in the order of the checks: the EC half's, then the SPQR half's,
   and an AEAD failure exactly if both yield a key that does not open the ciphertext for
   these identities and this header.
   */
  lemma DecryptFailsExactly(s: Session, msg: RatchetMessage, sender: Party, recipient: Party, name: Dh)
    requires s.pq.Valid()
    ensures var r := s.Decrypt(msg, sender, recipient, name).1;
      var (ec, pq) := (EcRefusal(s.ec, msg.header.ec), s.pq.Receive(msg.header.braid, msg.header.pqN).1);
      && (ec.Some? ==> r == Err(ec.value)) && (ec.None? && pq.Err? ==> r == Err(pq.error))
      && (ec.None? && pq.Ok? && r.Err? ==> r.error == DecryptionFailed)
      && (ec.None? && pq.Ok? ==>
           var mk := s.ec.Resolve(msg.header.ec, name).1;
           mk.Ok? && (r.Ok? <==> exists plain :: msg.cipher == Aead(Hybrid(mk.value, pq.value), plain, Ad(sender, recipient, msg.header))))
  {
    hide Model.Receive, Model.Valid, SkipLoop, Ec.Resolve;
    EcFailsExactly(s.ec, msg.header.ec, name);
    if s.Decrypt(msg, sender, recipient, name).1.Ok? {
      assert msg.cipher == Aead(msg.cipher.key, msg.cipher.plain, Ad(sender, recipient, msg.header));
    }
  }

  lemma EcFailsExactly(ec: Ec, hdr: EcHeader, name: Dh)
    ensures var (r, why) := (ec.Resolve(hdr, name).1, EcRefusal(ec, hdr));
      (r.Err? <==> why.Some?) && (r.Err? ==> r.error == why.value)
  {
    hide SkipLoop;
  }

  // ---- u32 message numbers ------------------------------------------------------------------

  predicate Fits(ec: Ec)
  {
    && (ec.send.Some? ==> ec.send.value.n <= U32_MAX) && (ec.recv.Some? ==> ec.recv.value.n <= U32_MAX)
    && ec.pn <= U32_MAX
  }

  /** Taking key n would count the receiving chain past u32::MAX. */
  predicate Overflows(ec: Ec, n: nat)
  {
    ec.recv.Some? && Max(ec.recv.value.n, n) >= U32_MAX && n <= ec.recv.value.n + MAX_SKIP
  }

  predicate Exhausts(ec: Ec, hdr: EcHeader)
  {
    Place(hdr.n, hdr.dh) !in ec.skipped && ec.remote == Some(hdr.dh) && Overflows(ec, hdr.n)
  }

  lemma SkipFits(ec: Ec, until: nat)
    requires Fits(ec) && until <= U32_MAX
    ensures Fits(ec.SkipTo(until).0)
  {
    if ec.recv.Some? { SkipLoopNumber(ec.skipped, ec.recv.value, ec.ChainDh(), until); }
  }

  lemma AdvancedFits(ec: Ec, n: nat)
    requires Fits(ec) && n <= U32_MAX
    ensures Fits(ec.Advanced(n).0) <==> !Overflows(ec, n)
  {
    if ec.recv.Some? { SkipLoopNumber(ec.skipped, ec.recv.value, ec.ChainDh(), n); }
  }

  /** A header of any two u32 numbers is received without overflow exactly if it does not exhaust the chain. */
  lemma ResolveFitsIff(ec: Ec, hdr: EcHeader, name: Dh)
    requires Fits(ec) && hdr.n <= U32_MAX && hdr.pn <= U32_MAX
    ensures U32_MAX == 4294967295 && (Fits(ec.Resolve(hdr, name).0) <==> !Exhausts(ec, hdr))
  {
    hide Ec.Advanced, Ec.SkipTo;
    if Place(hdr.n, hdr.dh) !in ec.skipped {
      if ec.remote == Some(hdr.dh) {
        AdvancedFits(ec, hdr.n);
      } else {
        SkipFits(ec, hdr.pn);
        AdvancedFits(ec.SkipTo(hdr.pn).0.DhStep(hdr.dh, name), hdr.n);
      }
    }
  }

  class RatchetSession {
    var dhSelf: Dh
    var dhRemote: Option<Dh>
    var rootKey: Root
    var sendingChain: Option<ChainState>
    var receivingChain: Option<ChainState>
    var previousSendingChainLength: nat
    const skipped: SkippedKeys
    const spqr: SpqrState

    ghost function EcView(): Ec
      reads this, skipped
    {
      Ec(dhSelf, dhRemote, rootKey, sendingChain, receivingChain, previousSendingChainLength, skipped.keys)
    }

    ghost function View(): Session
      reads this, skipped, spqr, spqr.braid
    {
      Session(EcView(), spqr.View())
    }

    ghost predicate Valid()
      reads spqr, spqr.braid
    {
      spqr.Valid()
    }

    constructor InitializeAlice(sharedSecret: Term, bobDhPublic: Dh, name: Dh)
      ensures Valid() && fresh(skipped) && fresh(spqr) && fresh(spqr.braid)
      ensures View() == Session(InitAlice(sharedSecret, bobDhPublic, name), Initial(AuthSeed(sharedSecret), A2B))
    {
      var dhOut := Exchange(name, bobDhPublic);
      dhSelf := name;
      dhRemote := Some(bobDhPublic);
      rootKey := RootStep(Shared0(sharedSecret), dhOut);
      sendingChain := Some(ChainState(ChainStart(Shared0(sharedSecret), dhOut), 0));
      receivingChain := None;
      previousSendingChainLength := 0;
      skipped := new SkippedKeys();
      spqr := new SpqrState(sharedSecret, A2B);
    }

    constructor InitializeBob(sharedSecret: Term, bobDhKeypair: Dh)
      ensures Valid() && fresh(skipped) && fresh(spqr) && fresh(spqr.braid)
      ensures View() == Session(InitBob(sharedSecret, bobDhKeypair), Initial(AuthSeed(sharedSecret), B2A))
    {
      dhSelf := bobDhKeypair;
      dhRemote := None;
      rootKey := Shared0(sharedSecret);
      sendingChain := None;
      receivingChain := None;
      previousSendingChainLength := 0;
      skipped := new SkippedKeys();
      spqr := new SpqrState(sharedSecret, B2A);
    }

    method EncryptRaw(plaintext: Plain, sender: Party, recipient: Party, coins: Term) returns (r: Result<RatchetMessage>)
      requires Valid() && SendRoom(spqr.View().windows)
      requires sendingChain.Some? ==> sendingChain.value.n < U32_MAX
      modifies this, spqr, spqr.braid
      ensures Valid() && (View(), r) == old(View()).Encrypt(plaintext, sender, recipient, coins)
      ensures old(Fits(EcView())) ==> Fits(EcView())
      ensures r.Ok? ==>
        r.value.cipher.Aead? && r.value.cipher.plain == plaintext && r.value.cipher.ad == Ad(sender, recipient, r.value.header)
    {
      hide SpqrState.Keyed, Model.Valid, Model.Send, State.WellFormed;
      ghost var before := spqr.View();
      SendValid(before, coins);
      Sendable();
      var sent := spqr.RatchetSendKey(coins);
      var (braidMsg, pqMessageNumber, pqMk) := sent.value;
      if sendingChain.None? {
        return Err(InvalidSessionState);
      }
      var (chain, ecMk) := sendingChain.value.Advance();
      sendingChain := Some(chain);
      var header := Header(EcHeader(dhSelf, previousSendingChainLength, chain.n - 1), braidMsg, pqMessageNumber);
      return Ok(RatchetMessage(header, Aead(Hybrid(ecMk, pqMk), plaintext, Ad(sender, recipient, header))));
    }

    lemma Sendable()
      requires Valid()
      ensures spqr.Keyed() && spqr.braid.state.WellFormed()
    {
    }

    method SkipReceivingMessages(until: nat) returns (r: Result<()>)
      requires Fits(EcView()) && until <= U32_MAX
      modifies this, skipped
      ensures Fits(EcView()) && (EcView(), r) == old(EcView()).SkipTo(until)
    {
      SkipFits(EcView(), until);
      var chainDh := if dhRemote.Some? then dhRemote.value else 0;
      if receivingChain.None? {
        return Ok(());
      }
      var chain := receivingChain.value;
      if chain.n > until {
        return Ok(());
      }
      var gap := until - chain.n;
      if gap > MAX_SKIP {
        return Err(MaxSkipExceeded(gap, MAX_SKIP));
      }
      while chain.n < until
        modifies skipped
        invariant chain.n <= until
        invariant SkipLoop(skipped.keys, chain, chainDh, until) == SkipLoop(old(skipped.keys), old(receivingChain).value, chainDh, until)
        decreases until - chain.n
      {
        var (next, mk) := chain.Advance();
        chain := next;
        skipped.Insert(chain.n - 1, chainDh, mk);
      }
      receivingChain := Some(chain);
      return Ok(());
    }

    method PerformDhRatchetStep(header: EcHeader, name: Dh)
      modifies this
      ensures EcView() == old(EcView()).DhStep(header.dh, name)
    {
      previousSendingChainLength := if sendingChain.Some? then sendingChain.value.n else 0;
      dhRemote := Some(header.dh);
      var dhOut := Exchange(dhSelf, header.dh);
      receivingChain := Some(ChainState(ChainStart(rootKey, dhOut), 0));
      rootKey := RootStep(rootKey, dhOut);
      dhSelf := name;
      var dhOut2 := Exchange(dhSelf, header.dh);
      sendingChain := Some(ChainState(ChainStart(rootKey, dhOut2), 0));
      rootKey := RootStep(rootKey, dhOut2);
    }

    /** Skip to the message's number and advance the receiving chain. */
    method AdvanceReceiving(messageNumber: nat) returns (r: Result<EcKey>)
      requires Fits(EcView()) && messageNumber <= U32_MAX && !Overflows(EcView(), messageNumber)
      modifies this, skipped
      ensures Fits(EcView()) && (EcView(), r) == old(EcView()).Advanced(messageNumber)
    {
      hide SkipLoop;
      AdvancedFits(EcView(), messageNumber);
      var skip := SkipReceivingMessages(messageNumber);
      if skip.Err? { return Err(skip.error); }
      if receivingChain.None? {
        return Err(InvalidSessionState);
      }
      var (chain, mk) := receivingChain.value.Advance();
      receivingChain := Some(chain);
      return Ok(mk);
    }

    /** The EC half of `decrypt`. */
    method ResolveEcKey(header: EcHeader, name: Dh) returns (r: Result<EcKey>)
      requires Fits(EcView()) && header.n <= U32_MAX && header.pn <= U32_MAX && !Exhausts(EcView(), header)
      modifies this, skipped
      ensures Fits(EcView()) && (EcView(), r) == old(EcView()).Resolve(header, name)
    {
      hide SkipLoop, Ec.Advanced, Ec.DhStep;
      ghost var keys := skipped.keys;
      var stored := skipped.TryRemoveByDh(header.dh, header.n);
      if stored.Some? { return Ok(stored.value); }
      assert keys - {Place(header.n, header.dh)} == keys;
      var needsRatchet := dhRemote.None? || dhRemote.value != header.dh;
      if needsRatchet {
        var skip := SkipReceivingMessages(header.pn);
        if skip.Err? { return Err(skip.error); }
        StepFits(EcView(), header.dh, name, header.n);
        PerformDhRatchetStep(header, name);
      }
      r := AdvanceReceiving(header.n);
    }

    method Decrypt(msg: RatchetMessage, sender: Party, recipient: Party, name: Dh) returns (r: Result<Plain>)
      requires Valid() && RecvRoom(spqr.View().windows) && Fits(EcView())
      requires msg.header.ec.n <= U32_MAX && msg.header.ec.pn <= U32_MAX && !Exhausts(EcView(), msg.header.ec)
      modifies this, skipped, spqr, spqr.braid
      ensures Valid() && Fits(EcView()) && (View(), r) == old(View()).Decrypt(msg, sender, recipient, name)
      ensures r.Ok? ==> msg.cipher.Aead? && msg.cipher.ad == Ad(sender, recipient, msg.header) && r.value == msg.cipher.plain
    {
      hide SpqrState.Keyed, Model.Valid, Model.Receive, State.WellFormed, Ec.Resolve;
      ghost var before := spqr.View();
      var ecMk := ResolveEcKey(msg.header.ec, name);
      if ecMk.Err? { return Err(ecMk.error); }
      ReceiveValid(before, msg.header.braid, msg.header.pqN);
      Sendable();
      var pqMk := spqr.RatchetReceiveKey(msg.header.braid, msg.header.pqN);
      if pqMk.Err? { return Err(pqMk.error); }
      return Open(Hybrid(ecMk.value, pqMk.value), msg.cipher, Ad(sender, recipient, msg.header));
    }
  }

  lemma StepFits(ec: Ec, dh: Dh, name: Dh, n: nat)
    requires Fits(ec)
    ensures Fits(ec.DhStep(dh, name)) && !Overflows(ec.DhStep(dh, name), n)
  {
  }
}
