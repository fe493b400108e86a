/**
 Two braid parties against an active network: every message delivered may be altered,
 invented, replayed or reflected. The one thing the network cannot do is make a MAC that
 neither party ever computed.
 */
module BraidAdversary {
  import opened Common
  import opened Symbolic
  import opened Erasure
  import opened BraidMachine

  // ---- what the network can put in a message ------------------------------------------

  /** Any byte except those of a MAC outside `macs`, however deep inside a codeword. */
  predicate Known(b: Byte, macs: set<Term>)
    decreases b
  {
    match b
    case Lit(_) => true
    case Of(t, _) =>
      match t
      case Mac(_, _, _, _) => t in macs
      case Recovery(m, _) => forall i :: 0 <= i < |m| ==> Known(m[i], macs)
      case _ => true
  }

  predicate KnownBytes(bs: Bytes, macs: set<Term>)
  {
    forall i :: 0 <= i < |bs| ==> Known(bs[i], macs)
  }

  predicate KnownMessage(m: Message, macs: set<Term>)
  {
    m.chunk.Some? ==> KnownBytes(m.chunk.value.data, macs)
  }

  predicate KnownDecoder(d: DecoderState, macs: set<Term>)
  {
    forall i :: i in d.received ==> KnownBytes(d.received[i], macs)
  }

  predicate KnownShards(s: seq<Bytes>, macs: set<Term>)
  {
    forall i :: 0 <= i < |s| ==> KnownBytes(s[i], macs)
  }

  // ---- the world ------------------------------------------------------------------------

  /** `headers[e]` is the key-pair seed epoch e's owner drew; `macs` are all MACs ever computed. */
  datatype World = World(root: Term, a: State, b: State, macs: set<Term>, headers: map<nat, Term>,
                         emittedA: seq<Term>, emittedB: seq<Term>) {
    function At(p: Party): State { if p == Alice then a else b }

    function Emitted(p: Party): seq<Term> { if p == Alice then emittedA else emittedB }

    predicate Live() { a.WellFormed() && b.WellFormed() }

    function Put(p: Party, s: State, secret: Option<EpochSecret>): World
    {
      var log := if secret.Some? then [secret.value.secret] else [];
      if p == Alice then this.(a := s, emittedA := emittedA + log)
      else this.(b := s, emittedB := emittedB + log)
    }
  }

  datatype Step = Send(sender: Party, coins: Term) | Inject(to: Party, msg: Message)

  function Init(root: Term): World { World(root, InitSender(root), InitReceiver(root), {}, map[], [], []) }

  function HdrMac(s: State, coins: Term): Term
    requires s.KeysUnsampled?
  {
    Mac(s.auth.mac, EkHeader, s.ep, HeaderOf(coins))
  }

  /** The ciphertext MAC computed on the way into `Ct2Sampled`, if `msg` takes `s` there. */
  function CtMacs(s: State, msg: Message): set<Term>
    requires s.WellFormed()
  {
    var r := s.Receive(msg);
    if r.Err? || !r.value.next.Ct2Sampled? || s.Ct2Sampled? then {}
    else if s.EkReceivedCt1Sampled? then {CtMac(s, s.ekVector)}
    else if s.Ct1Sampled? || s.Ct1Acknowledged? then
      var dec := AddChunk(s.ekDec, msg);
      if dec.Ok? && dec.value.Message().Ok? && dec.value.Message().value.Some?
      then {CtMac(s, dec.value.Message().value.value)} else {}
    else {}
  }

  function CtMac(s: State, ek: Bytes): Term
    requires s.EkReceivedCt1Sampled? || s.Ct1Sampled? || s.Ct1Acknowledged?
  {
    Mac(s.auth.mac, Ciphertext, s.ep, s.ct1 + Encapsulate2(s.es, ek))
  }

  function Apply(w: World, step: Step): (w': World)
    requires w.Live()
    ensures w'.Live()
  {
    match step
    case Send(p, coins) =>
      var s := w.At(p);
      SendStep(s, coins);
      var out := s.Send(coins).value;
      var w1 := w.Put(p, out.next, out.secret);
      if s.KeysUnsampled? then w1.(macs := w.macs + {HdrMac(s, coins)}, headers := w.headers[s.ep := coins]) else w1
    case Inject(q, msg) =>
      var s := w.At(q);
      var r := s.Receive(msg);
      ReceiveStep(s, msg);
      if !KnownMessage(msg, w.macs) || r.Err? then w
      else w.Put(q, r.value.next, r.value.secret).(macs := w.macs + CtMacs(s, msg))
  }

  function Run(root: Term, trace: seq<Step>): (w: World)
    ensures w.Live()
  {
    if trace == [] then Init(root) else Apply(Run(root, trace[..|trace| - 1]), trace[|trace| - 1])
  }

  // ---- knowledge is preserved by the codec ------------------------------------------------

  lemma {:induction false} KnownMonotone(b: Byte, macs: set<Term>, more: set<Term>)
    requires Known(b, macs) && macs <= more
    ensures Known(b, more)
    decreases b
  {
    if b.Of? && b.term.Recovery? {
      var m := b.term.message;
      forall i | 0 <= i < |m| ensures Known(m[i], more) { KnownMonotone(m[i], macs, more); }
    }
  }

  lemma KnownBytesMonotone(bs: Bytes, macs: set<Term>, more: set<Term>)
    requires KnownBytes(bs, macs) && macs <= more
    ensures KnownBytes(bs, more)
  {
    forall i | 0 <= i < |bs| ensures Known(bs[i], more) { KnownMonotone(bs[i], macs, more); }
  }

  lemma KnownDecoderMonotone(d: DecoderState, macs: set<Term>, more: set<Term>)
    requires KnownDecoder(d, macs) && macs <= more
    ensures KnownDecoder(d, more)
  {
    forall i | i in d.received ensures KnownBytes(d.received[i], more) {
      KnownBytesMonotone(d.received[i], macs, more);
    }
  }

  lemma {:induction false} JoinKnown(shards: seq<Bytes>, macs: set<Term>)
    requires KnownShards(shards, macs)
    ensures KnownBytes(Join(shards), macs)
  {
    if shards != [] { JoinKnown(shards[..|shards| - 1], macs); }
  }

  lemma CodecKnown(d: DecoderState, macs: set<Term>)
    requires KnownDecoder(d, macs)
    ensures KnownShards(CodecOriginals(d.len, d.received), macs)
  {
    var k := DataShardsFor(d.len);
    var j := FirstRecovery(d.len, d.received, k);
    if j < TotalShards(d.len) && |d.received[j]| == CHUNK_BYTES
       && d.received[j][0].Of? && d.received[j][0].term.Recovery?
    {
      assert Known(d.received[j][0], macs);
    }
  }

  /** Decoding cannot produce a MAC that was not in the codewords. */
  lemma MessageKnown(d: DecoderState, macs: set<Term>)
    requires KnownDecoder(d, macs)
    ensures d.Message().Ok? && d.Message().value.Some? ==> KnownBytes(d.Message().value.value, macs)
  {
    CodecKnown(d, macs);
    assert KnownShards(d.DataShards(), macs);
    JoinKnown(d.DataShards(), macs);
  }

  // ---- invariant ----------------------------------------------------------------------------

  predicate KnownState(s: State, macs: set<Term>)
  {
    && (s.NoHeaderReceived? ==> KnownDecoder(s.hdrDec, macs))
    && (s.EkSentCt1Received? ==> KnownDecoder(s.ct2Dec, macs))
  }

  predicate PartyOk(w: World, p: Party)
    requires w.Live()
  {
    var s := w.At(p);
    && (s.IsOwner() <==> p == Owner(s.ep))
    && |w.Emitted(p)| == s.Done()
    && s.auth == AuthFold(w.root, w.Emitted(p))
    && (s.HeaderReceived? ==> s.ep in w.headers && s.header == HeaderOf(w.headers[s.ep]))
    && KnownState(s, w.macs)
  }

  predicate MacOk(w: World, t: Term)
  {
    && t.Mac? && t.epoch >= 1
    && match t.use
       case EkHeader =>
         var log := w.Emitted(Owner(t.epoch));
         && t.epoch in w.headers && t.data == HeaderOf(w.headers[t.epoch])
         && t.epoch - 1 <= |log| && t.key == AuthFold(w.root, log[..t.epoch - 1]).mac
       case Ciphertext =>
         var log := w.Emitted(Owner(t.epoch).Peer());
         t.epoch <= |log| && t.key == AuthFold(w.root, log[..t.epoch]).mac
  }

  /** Epoch e's owner drew its key pair, once. */
  predicate HeaderOk(w: World, e: nat)
    requires w.Live()
  {
    e in w.headers ==>
      var o := w.At(Owner(e));
      && 1 <= e <= o.ep
      && (o.ep == e ==> !o.KeysUnsampled? && o.IsOwner() && o.dk == w.headers[e])
  }

  /** The secret the encapsulator emitted for e is a KEM secret under the owner's header of e. */
  predicate SecretOk(w: World, e: nat)
  {
    1 <= e <= |w.Emitted(Owner(e).Peer())| ==>
      e in w.headers && IsSecret(w.Emitted(Owner(e).Peer())[e - 1], w.headers[e], e)
  }

  predicate IsSecret(t: Term, seed: Term, e: nat)
  {
    t.EpochKey? && t.epoch == e && t.raw.Shared? && t.raw.pk1 == HeaderOf(seed)
  }

  /** The logs agree, and an owner emits only after its encapsulator. */
  predicate Agree(x: seq<Term>, y: seq<Term>)
  {
    && (x <= y || y <= x)
    && (forall e :: 1 <= e <= |x| && Owner(e) == Alice ==> e <= |y|)
    && (forall e :: 1 <= e <= |y| && Owner(e) == Bob ==> e <= |x|)
  }

  ghost predicate Inv(w: World)
  {
    && w.Live()
    && PartyOk(w, Alice) && PartyOk(w, Bob)
    && (forall t :: t in w.macs ==> MacOk(w, t))
    && (forall e :: HeaderOk(w, e)) && (forall e :: SecretOk(w, e))
    && Agree(w.emittedA, w.emittedB)
  }

  // ---- one party ------------------------------------------------------------------------------

  lemma AddChunkKnown(d: DecoderState, m: Message, macs: set<Term>)
    requires KnownDecoder(d, macs) && KnownMessage(m, macs)
    ensures AddChunk(d, m).Ok? ==> KnownDecoder(AddChunk(d, m).value, macs)
  {
  }

  /** Only a verified ciphertext moves the authenticator, by exactly the emitted secret. */
  lemma ReceiveAuth(s: State, m: Message)
    requires s.WellFormed()
    ensures var r := s.Receive(m);
      && (r.Ok? ==> !r.value.next.Poisoned?)
      && (r.Ok? && r.value.secret.None? ==> r.value.next.auth == s.auth)
      && (r.Ok? && r.value.secret.Some? ==> r.value.next.auth == s.auth.Update(s.ep, r.value.secret.value.secret))
  {
    hide DecoderState.Message, Codewords, BraidMachine.AddChunk, BuildCt2Encoder, Decapsulate;
  }

  lemma ReceiveKnown(s: State, m: Message, macs: set<Term>)
    requires s.WellFormed() && KnownState(s, macs) && KnownMessage(m, macs)
    ensures var r := s.Receive(m); r.Ok? ==> KnownState(r.value.next, macs)
  {
    hide DecoderState.Message, Codewords, BraidMachine.AddChunk, BuildCt2Encoder, Decapsulate;
    match s
    case NoHeaderReceived(_, _, dec) => AddChunkKnown(dec, m, macs);
    case EkSentCt1Received(_, _, _, _, dec) => AddChunkKnown(dec, m, macs);
    case Ct1Received(_, _, _, _, _) => AddChunkKnown(DecoderState.New(CT2_MAC_LEN), m, macs);
    case _ =>
  }

  lemma VerifiedMac(mac: Bytes, t: Term, macs: set<Term>)
    requires KnownBytes(mac, macs) && mac == Spell(t, MAC_SIZE) && t.Mac?
    ensures t in macs
  {
    assert Known(mac[0], macs) && mac[0] == Of(t, 0);
  }

  /** A header is accepted only with a MAC some party computed over exactly that header. */
  lemma HeaderMacKnown(s: State, m: Message, macs: set<Term>)
    requires s.WellFormed() && s.NoHeaderReceived? && KnownState(s, macs) && KnownMessage(m, macs)
    requires s.Receive(m).Ok? && s.Receive(m).value.next.HeaderReceived?
    ensures Mac(s.auth.mac, EkHeader, s.ep, s.Receive(m).value.next.header) in macs
  {
    hide DecoderState.Message, Codewords, BraidMachine.AddChunk;
    AddChunkKnown(s.hdrDec, m, macs);
    AddChunkSized(s.hdrDec, m, HDR_LEN);
    var dec := AddChunk(s.hdrDec, m).value;
    MessageKnown(dec, macs);
    MessageLength(dec);
    var whole := dec.Message().value.value;
    VerifiedMac(whole[PK1_LEN..], Mac(s.auth.mac, EkHeader, s.ep, whole[..PK1_LEN]), macs);
  }

  /** An owner emits only with a ciphertext MAC computed under the key its secret leads to. */
  lemma CiphertextMacKnown(s: State, m: Message, macs: set<Term>)
    requires s.WellFormed() && s.EkSentCt1Received? && KnownState(s, macs) && KnownMessage(m, macs)
    requires s.Receive(m).Ok? && s.Receive(m).value.secret.Some?
    ensures var next := s.Receive(m).value.next;
      !next.Poisoned? &&
      exists t :: t in macs && t.Mac? && t.use == Ciphertext && t.epoch == s.ep && t.key == next.auth.mac
  {
    hide DecoderState.Message, Codewords, BraidMachine.AddChunk, Decapsulate;
    AddChunkKnown(s.ct2Dec, m, macs);
    AddChunkSized(s.ct2Dec, m, CT2_MAC_LEN);
    var dec := AddChunk(s.ct2Dec, m).value;
    MessageKnown(dec, macs);
    MessageLength(dec);
    var whole := dec.Message().value.value;
    var next := s.Receive(m).value.next;
    var t := Mac(next.auth.mac, Ciphertext, s.ep, s.ct1 + whole[..CT2_LEN]);
    VerifiedMac(whole[CT2_LEN..], t, macs);
  }

  // ---- both parties ----------------------------------------------------------------------------

  lemma InitInv(root: Term)
    ensures Inv(Init(root))
  {
  }

  /** Logs grow, headers are never overwritten, MACs are never forgotten. */
  predicate Grows(w: World, w': World)
  {
    && w'.root == w.root && w.macs <= w'.macs
    && w.emittedA <= w'.emittedA && w.emittedB <= w'.emittedB
    && forall e :: e in w.headers ==> e in w'.headers && w'.headers[e] == w.headers[e]
  }

  lemma MacStable(w: World, w': World, t: Term)
    requires MacOk(w, t) && Grows(w, w')
    ensures MacOk(w', t)
  {
    var e := t.epoch;
    var p := if t.use == EkHeader then Owner(e) else Owner(e).Peer();
    var n := if t.use == EkHeader then e - 1 else e;
    assert w'.Emitted(p)[..n] == w.Emitted(p)[..n];
  }

  lemma MacsStable(w: World, w': World, added: set<Term>)
    requires (forall t :: t in w.macs ==> MacOk(w, t)) && Grows(w, w')
    requires w'.macs == w.macs + added && forall t :: t in added ==> MacOk(w', t)
    ensures forall t :: t in w'.macs ==> MacOk(w', t)
  {
    forall t | t in w.macs ensures MacOk(w', t) { MacStable(w, w', t); }
  }

  lemma KnownStateMonotone(s: State, macs: set<Term>, more: set<Term>)
    requires KnownState(s, macs) && macs <= more
    ensures KnownState(s, more)
  {
    if s.NoHeaderReceived? { KnownDecoderMonotone(s.hdrDec, macs, more); }
    if s.EkSentCt1Received? { KnownDecoderMonotone(s.ct2Dec, macs, more); }
  }

  /** The party that does nothing stays correct. */
  lemma BystanderOk(w: World, w': World, q: Party)
    requires w.Live() && w'.Live() && PartyOk(w, q) && Grows(w, w')
    requires w'.At(q) == w.At(q) && w'.Emitted(q) == w.Emitted(q)
    ensures PartyOk(w', q)
  {
    KnownStateMonotone(w.At(q), w.macs, w'.macs);
  }

  lemma AuthAppend(root: Term, log: seq<Term>, x: Term)
    ensures AuthFold(root, log + [x]) == AuthFold(root, log).Update(|log| + 1, x)
  {
    assert (log + [x])[..|log|] == log;
  }

  /** What sending does to the parts of a state the invariant speaks about. */
  lemma SendFacts(s: State, coins: Term, macs: set<Term>)
    requires s.WellFormed() && KnownState(s, macs)
    ensures s.Send(coins).Ok? && !s.Send(coins).value.next.Poisoned?
    ensures var out := s.Send(coins).value;
      && KnownState(out.next, macs) && !out.next.HeaderReceived? && !out.next.KeysUnsampled?
      && (s.IsOwner() ==> out.next.IsOwner() && out.next.dk == if s.KeysUnsampled? then coins else s.dk)
      && (s.HeaderReceived? ==> out.secret == Some(EpochSecret(s.ep, EpochKey(Shared(s.header, coins), s.ep))))
      && (!s.HeaderReceived? ==> out.secret == None)
      && out.next.auth == if out.secret.Some? then s.auth.Update(s.ep, out.secret.value.secret) else s.auth
  {
  }

  /** Headers stay correct when `p` stays in its epoch with its key pair, or moves on. */
  lemma HeadersStable(w: World, w': World, p: Party)
    requires w.Live() && w'.Live() && (forall e :: HeaderOk(w, e)) && w'.headers == w.headers
    requires w'.At(p.Peer()) == w.At(p.Peer()) && w'.At(p).ep >= w.At(p).ep
    requires w.At(p).IsOwner() && w'.At(p).ep == w.At(p).ep && !w.At(p).KeysUnsampled? ==>
      w'.At(p).IsOwner() && !w'.At(p).KeysUnsampled? && w'.At(p).dk == w.At(p).dk
    ensures forall e :: HeaderOk(w', e)
  {
    forall e ensures HeaderOk(w', e) { assert HeaderOk(w, e); }
  }

  lemma SecretsStable(w: World, w': World)
    requires (forall e :: SecretOk(w, e)) && Grows(w, w')
    requires forall e: nat :: |w.Emitted(Owner(e).Peer())| < e <= |w'.Emitted(Owner(e).Peer())| ==> SecretOk(w', e)
    ensures forall e :: SecretOk(w', e)
  {
    forall e ensures SecretOk(w', e) { assert SecretOk(w, e); }
  }

  /** One more secret in `p`'s log: as encapsulator it comes first, as owner it must match. */
  lemma AgreeAfter(w: World, w': World, p: Party, x: Term)
    requires Agree(w.emittedA, w.emittedB)
    requires w'.Emitted(p) == w.Emitted(p) + [x] && w'.Emitted(p.Peer()) == w.Emitted(p.Peer())
    requires
      || (Owner(|w.Emitted(p)| + 1) != p && |w.Emitted(p.Peer())| <= |w.Emitted(p)|)
      || w'.Emitted(p) <= w.Emitted(p.Peer())
    ensures Agree(w'.emittedA, w'.emittedB)
  {
  }

  lemma SendKeysParty(w: World, p: Party, coins: Term)
    requires Inv(w) && w.At(p).KeysUnsampled?
    ensures var w' := Apply(w, Send(p, coins));
      PartyOk(w', p) && w'.emittedA == w.emittedA && w'.emittedB == w.emittedB && w.At(p).ep !in w.headers
  {
    hide State.Send, State.Receive, State.WellFormed, AuthFold, KnownState, MacOk, SecretOk;
    var s := w.At(p);
    var w' := Apply(w, Send(p, coins));
    assert HeaderOk(w, s.ep);
    SendStep(s, coins);
    SendFacts(s, coins, w.macs);
    KnownStateMonotone(w'.At(p), w.macs, w'.macs);
    assert w'.Emitted(p) == w.Emitted(p);
  }

  lemma SendKeysHeaders(w: World, p: Party, coins: Term, e: nat)
    requires Inv(w) && w.At(p).KeysUnsampled?
    ensures HeaderOk(Apply(w, Send(p, coins)), e)
  {
    hide State.Send, State.Receive, State.WellFormed, AuthFold, KnownState, MacOk, SecretOk;
    var s := w.At(p);
    assert HeaderOk(w, s.ep) && HeaderOk(w, e);
    SendStep(s, coins);
    SendFacts(s, coins, w.macs);
  }

  lemma SendKeysMac(w: World, p: Party, coins: Term)
    requires Inv(w) && w.At(p).KeysUnsampled?
    ensures MacOk(Apply(w, Send(p, coins)), HdrMac(w.At(p), coins))
  {
    hide State.Send, State.Receive, State.WellFormed, AuthFold, KnownState, SecretOk, HeaderOk;
    SendKeysParty(w, p, coins);
    var s := w.At(p);
    assert w.Emitted(p)[..s.ep - 1] == w.Emitted(p);
  }

  lemma SendKeys(w: World, p: Party, coins: Term)
    requires Inv(w) && w.At(p).KeysUnsampled?
    ensures Inv(Apply(w, Send(p, coins)))
  {
    hide State.Send, State.Receive, State.WellFormed, KnownState, PartyOk, MacOk, HeaderOk;
    var w' := Apply(w, Send(p, coins));
    SendKeysParty(w, p, coins);
    BystanderOk(w, w', p.Peer());
    SendKeysMac(w, p, coins);
    MacsStable(w, w', {HdrMac(w.At(p), coins)});
    forall e ensures HeaderOk(w', e) { SendKeysHeaders(w, p, coins, e); }
    hide SecretOk, Agree;
    SecretsStable(w, w');
  }

  lemma SendSecret(w: World, p: Party, coins: Term)
    requires Inv(w) && w.At(p).HeaderReceived?
    ensures Inv(Apply(w, Send(p, coins)))
  {
    hide State.Send, State.Receive, State.WellFormed, AuthFold, KnownState;
    var s, q := w.At(p), p.Peer();
    var w' := Apply(w, Send(p, coins));
    var ss := EpochKey(Shared(s.header, coins), s.ep);
    SendStep(s, coins);
    SendFacts(s, coins, w.macs);
    assert w'.Emitted(p) == w.Emitted(p) + [ss];
    BystanderOk(w, w', q);
    AuthAppend(w.root, w.Emitted(p), ss);
    assert s.ep > |w.Emitted(q)|;
    AgreeAfter(w, w', p, ss);
    hide Agree;
    MacsStable(w, w', {});
    SecretsStable(w, w');
    HeadersStable(w, w', p);
  }

  lemma SendQuiet(w: World, p: Party, coins: Term)
    requires Inv(w) && !w.At(p).HeaderReceived? && !w.At(p).KeysUnsampled?
    ensures Inv(Apply(w, Send(p, coins)))
  {
    hide State.Send, State.Receive, State.WellFormed, AuthFold, KnownState;
    var s := w.At(p);
    var w' := Apply(w, Send(p, coins));
    SendStep(s, coins);
    SendFacts(s, coins, w.macs);
    assert w'.Emitted(p) == w.Emitted(p);
    BystanderOk(w, w', p.Peer());
    MacsStable(w, w', {});
    SecretsStable(w, w');
    HeadersStable(w, w', p);
  }

  // ---- deliveries ----

  /** What any receive that emits nothing does to the parts the invariant speaks about. */
  lemma ReceiveFacts(s: State, m: Message)
    requires s.WellFormed()
    ensures var r := s.Receive(m);
      r.Ok? && s.IsOwner() && r.value.secret.None? ==>
        r.value.next.IsOwner() && r.value.next.KeysUnsampled? == s.KeysUnsampled? &&
        (!s.KeysUnsampled? ==> r.value.next.dk == s.dk)
    ensures var r := s.Receive(m);
      r.Ok? && s.HeaderReceived? ==> r.value == Received(s, None)
  {
    hide DecoderState.Message, Codewords, BraidMachine.AddChunk, BuildCt2Encoder, Decapsulate;
  }

  lemma CtMacsOk(w: World, w': World, q: Party, m: Message)
    requires Inv(w) && Grows(w, w') && w'.Emitted(q) == w.Emitted(q)
    ensures forall t :: t in CtMacs(w.At(q), m) ==> MacOk(w', t)
  {
    hide State.Receive, DecoderState.Message, BraidMachine.AddChunk, AuthFold, KnownState;
    var s := w.At(q);
    forall t | t in CtMacs(s, m) ensures MacOk(w', t) {
      assert w'.Emitted(q)[..s.ep] == w.Emitted(q);
    }
  }

  /** A header is accepted only if it is the header the peer drew for that epoch. */
  lemma HeaderMatches(w: World, q: Party, m: Message)
    requires Inv(w) && KnownMessage(m, w.macs) && w.At(q).NoHeaderReceived?
    requires w.At(q).Receive(m).Ok? && w.At(q).Receive(m).value.next.HeaderReceived?
    ensures var e := w.At(q).ep;
      Owner(e) == q.Peer() && e in w.headers && w.At(q).Receive(m).value.next.header == HeaderOf(w.headers[e])
  {
    hide State.Receive, State.WellFormed, AuthFold, KnownState, KnownMessage;
    var s := w.At(q);
    HeaderMacKnown(s, m, w.macs);
    assert MacOk(w, Mac(s.auth.mac, EkHeader, s.ep, s.Receive(m).value.next.header));
  }

  /** A key owner emits only what the encapsulator emitted, with the same history before it. */
  lemma SecretMatches(w: World, q: Party, m: Message)
    requires Inv(w) && KnownMessage(m, w.macs)
    requires w.At(q).Receive(m).Ok? && w.At(q).Receive(m).value.secret.Some?
    ensures var s, log := w.At(q), w.Emitted(q.Peer());
      && Owner(s.ep) == q && s.ep <= |log|
      && log[..s.ep] == w.Emitted(q) + [s.Receive(m).value.secret.value.secret]
  {
    hide State.Receive, State.WellFormed, AuthFold, KnownState, KnownMessage;
    var s, p := w.At(q), q.Peer();
    var r := s.Receive(m).value;
    ReceiveStep(s, m);
    ReceiveMoves(s, m);
    ReceiveAuth(s, m);
    AuthAppend(w.root, w.Emitted(q), r.secret.value.secret);
    CiphertextMacKnown(s, m, w.macs);
    var t :| t in w.macs && t.Mac? && t.use == Ciphertext && t.epoch == s.ep && t.key == r.next.auth.mac;
    assert MacOk(w, t);
    AuthFoldInjective(w.root, w.Emitted(q) + [r.secret.value.secret], w.root, w.Emitted(p)[..s.ep]);
  }

  lemma InjectQuiet(w: World, q: Party, m: Message)
    requires Inv(w) && KnownMessage(m, w.macs)
    requires w.At(q).Receive(m).Ok? && w.At(q).Receive(m).value.secret.None?
    ensures Inv(Apply(w, Inject(q, m)))
  {
    hide State.Send, State.Receive, State.WellFormed, AuthFold, KnownState, CtMacs, KnownMessage, MacOk,
         SecretOk, Agree;
    var s := w.At(q);
    var w' := Apply(w, Inject(q, m));
    ReceiveStep(s, m);
    ReceiveMoves(s, m);
    ReceiveAuth(s, m);
    ReceiveFacts(s, m);
    ReceiveKnown(s, m, w.macs);
    KnownStateMonotone(w'.At(q), w.macs, w'.macs);
    assert w'.Emitted(q) == w.Emitted(q);
    BystanderOk(w, w', q.Peer());
    CtMacsOk(w, w', q, m);
    MacsStable(w, w', CtMacs(s, m));
    SecretsStable(w, w');
    HeadersStable(w, w', q);
    if w'.At(q).HeaderReceived? && !s.HeaderReceived? { HeaderMatches(w, q, m); }
  }

  lemma NoCtMacs(s: State, m: Message)
    requires s.WellFormed() && s.Receive(m).Ok? && s.Receive(m).value.secret.Some?
    ensures CtMacs(s, m) == {}
  {
    hide State.Receive, DecoderState.Message, BraidMachine.AddChunk, State.WellFormed;
    ReceiveMoves(s, m);
    ReceiveStep(s, m);
  }

  /** The receiver of a verified ciphertext is correct in its next epoch. */
  lemma InjectSecretParty(w: World, q: Party, m: Message)
    requires Inv(w) && KnownMessage(m, w.macs)
    requires w.At(q).Receive(m).Ok? && w.At(q).Receive(m).value.secret.Some?
    ensures var (w', x) := (Apply(w, Inject(q, m)), w.At(q).Receive(m).value.secret.value.secret);
      && PartyOk(w', q) && w'.macs == w.macs && w'.Emitted(q) == w.Emitted(q) + [x] && |w.Emitted(q)| + 1 == w.At(q).ep
      && w'.At(q).ep == w.At(q).ep + 1
  {
    hide State.Send, State.Receive, State.WellFormed, AuthFold, KnownState, KnownMessage, MacOk, SecretOk, HeaderOk, CtMacs, Agree;
    var s := w.At(q);
    var r := s.Receive(m).value;
    NoCtMacs(s, m);
    ReceiveStep(s, m);
    ReceiveMoves(s, m);
    ReceiveAuth(s, m);
    ReceiveKnown(s, m, w.macs);
    AuthAppend(w.root, w.Emitted(q), r.secret.value.secret);
    var w' := Apply(w, Inject(q, m));
    assert w'.macs == w.macs && w'.Emitted(q) == w.Emitted(q) + [r.secret.value.secret];
  }

  lemma InjectSecret(w: World, q: Party, m: Message)
    requires Inv(w) && KnownMessage(m, w.macs)
    requires w.At(q).Receive(m).Ok? && w.At(q).Receive(m).value.secret.Some?
    ensures Inv(Apply(w, Inject(q, m)))
  {
    hide State.Send, State.Receive, State.WellFormed, PartyOk, KnownMessage, MacOk, SecretOk, HeaderOk, CtMacs;
    var w' := Apply(w, Inject(q, m));
    InjectSecretParty(w, q, m);
    SecretMatches(w, q, m);
    AgreeAfter(w, w', q, w.At(q).Receive(m).value.secret.value.secret);
    hide Agree;
    BystanderOk(w, w', q.Peer());
    MacsStable(w, w', {});
    SecretsStable(w, w');
    HeadersStable(w, w', q);
  }

  lemma {:induction false} RunInv(root: Term, trace: seq<Step>)
    ensures Inv(Run(root, trace)) && Run(root, trace).root == root
  {
    hide State.Send, State.Receive, State.WellFormed, PartyOk, MacOk, HeaderOk, SecretOk, Agree, CtMacs,
         KnownMessage;
    if trace == [] {
      InitInv(root);
    } else {
      var w := Run(root, trace[..|trace| - 1]);
      RunInv(root, trace[..|trace| - 1]);
      match trace[|trace| - 1]
      case Send(p, coins) =>
        if w.At(p).KeysUnsampled? { SendKeys(w, p, coins); }
        else if w.At(p).HeaderReceived? { SendSecret(w, p, coins); }
        else { SendQuiet(w, p, coins); }
      case Inject(q, m) =>
        if KnownMessage(m, w.macs) && w.At(q).Receive(m).Ok? {
          if w.At(q).Receive(m).value.secret.None? { InjectQuiet(w, q, m); } else { InjectSecret(w, q, m); }
        }
    }
  }

  // ---- main results --------------------------------------------------------------------------

  /**
   Under any interference, in every run: the emitted secrets agree on every epoch both
   parties have emitted; a key owner never emits an epoch its encapsulator has not emitted;
   each authenticator is the fold of exactly its party's secrets; epochs stay within one.
   */
  lemma AgreementUnderAttack(root: Term, trace: seq<Step>)
    ensures var w := Run(root, trace);
      && (w.emittedA <= w.emittedB || w.emittedB <= w.emittedA)
      && (forall e :: 1 <= e <= |w.Emitted(Owner(e))| ==> e <= |w.Emitted(Owner(e).Peer())|)
      && w.a.auth == AuthFold(root, w.emittedA) && w.b.auth == AuthFold(root, w.emittedB)
      && w.a.ep <= w.b.ep + 1 && w.b.ep <= w.a.ep + 1
  {
    hide AuthFold, KnownState, Run;
    var w := Run(root, trace);
    RunInv(root, trace);
    EpochsClose(w, Alice);
    EpochsClose(w, Bob);
  }

  lemma EpochsClose(w: World, p: Party)
    requires Inv(w)
    ensures w.At(p).ep <= w.At(p.Peer()).ep + 1
  {
    hide AuthFold, KnownState, MacOk;
    var e := w.At(p).ep - 1;
    if e >= 1 {
      if Owner(e) == p {
        assert e <= |w.Emitted(p.Peer())|;
      } else {
        assert SecretOk(w, e) && HeaderOk(w, e);
      }
    }
  }

  /** The peer emitted the same secret for q's epoch, and it is a KEM secret under q's own header. */
  predicate Authentic(w: World, q: Party, x: EpochSecret)
    requires w.Live()
  {
    var (e, log) := (w.At(q).ep, w.Emitted(q.Peer()));
    && x.epoch == e <= |log| && log[e - 1] == x.secret
    && e in w.headers && IsSecret(x.secret, w.headers[e], e) && w.At(q).IsOwner() && !w.At(q).KeysUnsampled?
    && w.At(q).dk == w.headers[e]
  }

  /**
   In every run, whatever message is injected next: a header is accepted only if it is the
   peer's header for that epoch, and a secret is emitted on receive only if the peer emitted
   the same secret for that epoch - a KEM secret under the receiver's own header.
   */
  lemma AcceptedIsAuthentic(root: Term, trace: seq<Step>, q: Party, m: Message)
    requires KnownMessage(m, Run(root, trace).macs)
    ensures var w := Run(root, trace); var s := w.At(q); var r := s.Receive(m);
      r.Ok? && s.NoHeaderReceived? && r.value.next.HeaderReceived? ==>
        Owner(s.ep) == q.Peer() && s.ep in w.headers && r.value.next.header == HeaderOf(w.headers[s.ep])
    ensures var w := Run(root, trace); var s := w.At(q); var r := s.Receive(m);
      r.Ok? && r.value.secret.Some? ==> Authentic(w, q, r.value.secret.value)
  {
    hide State.Receive, AuthFold, KnownState, KnownMessage, Run, MacOk;
    var w := Run(root, trace);
    RunInv(root, trace);
    var s := w.At(q);
    var r := s.Receive(m);
    if r.Ok? && s.NoHeaderReceived? && r.value.next.HeaderReceived? { HeaderMatches(w, q, m); }
    if r.Ok? && r.value.secret.Some? {
      ReceiveStep(s, m);
      SecretMatches(w, q, m);
      var log := w.Emitted(q.Peer());
      assert log[s.ep - 1] == log[..s.ep][s.ep - 1] == r.value.secret.value.secret;
      assert SecretOk(w, s.ep) && HeaderOk(w, s.ep);
    }
  }
}
