/**
 Two braid parties over a network that may drop, duplicate and reorder messages but not
 alter them. The network is the set of all packets ever sent; a delivery picks any of
 them, any number of times, in any order.
 */
module BraidNetwork {
  import opened Common
  import opened Symbolic
  import opened Erasure
  import opened BraidMachine

  datatype Packet = Packet(from: Party, msg: Message)

  /** Randomness drawn so far: `seeds[e-1]` by epoch e's key owner, `coins[e-1]` by its encapsulator. */
  datatype History = History(root: Term, seeds: seq<Term>, coins: seq<Term>)

  datatype World = World(a: State, b: State, net: set<Packet>, h: History,
                         emittedA: seq<Term>, emittedB: seq<Term>) {
    function At(p: Party): State { if p == Alice then a else b }

    function Emitted(p: Party): seq<Term> { if p == Alice then emittedA else emittedB }

    predicate Live() { a.WellFormed() && b.WellFormed() }

    function Put(p: Party, s: State, secret: Option<EpochSecret>): World
    {
      var log := if secret.Some? then [secret.value.secret] else [];
      if p == Alice then this.(a := s, emittedA := emittedA + log)
      else this.(b := s, emittedB := emittedB + log)
    }
  }

  datatype Step = Send(sender: Party, coins: Term) | Deliver(packet: Packet)

  function Init(root: Term): World
  {
    World(InitSender(root), InitReceiver(root), {}, History(root, [], []), [], [])
  }

  function Record(h: History, s: State, coins: Term): History
  {
    if s.KeysUnsampled? then h.(seeds := h.seeds + [coins])
    else if s.HeaderReceived? then h.(coins := h.coins + [coins])
    else h
  }

  function Apply(w: World, step: Step): (w': World)
    requires w.Live()
    ensures w'.Live()
  {
    match step
    case Send(p, coins) =>
      var s := w.At(p);
      SendStep(s, coins);
      var out := s.Send(coins).value;
      w.Put(p, out.next, out.secret).(net := w.net + {Packet(p, out.msg)}, h := Record(w.h, s, coins))
    case Deliver(pk) =>
      var q := pk.from.Peer();
      var r := w.At(q).Receive(pk.msg);
      ReceiveStep(w.At(q), pk.msg);
      if pk in w.net && r.Ok? then w.Put(q, r.value.next, r.value.secret) else w
  }

  function Run(root: Term, trace: seq<Step>): (w: World)
    ensures w.Live()
  {
    if trace == [] then Init(root) else Apply(Run(root, trace[..|trace| - 1]), trace[|trace| - 1])
  }

  // ---- objects of an epoch ----------------------------------------------------------

  predicate Sampled(h: History, e: nat) { 1 <= e <= |h.seeds| && e <= |h.coins| + 1 }

  predicate Encapsulated(h: History, e: nat) { 1 <= e <= |h.seeds| && e <= |h.coins| }

  function Header(h: History, e: nat): Bytes
    requires 1 <= e <= |h.seeds|
  {
    HeaderOf(h.seeds[e - 1])
  }

  function SecretAt(h: History, e: nat): Term
    requires Encapsulated(h, e)
  {
    EpochKey(Shared(Header(h, e), h.coins[e - 1]), e)
  }

  /** The secrets of epochs 1 to n. */
  function Secrets(h: History, n: nat): (s: seq<Term>)
    requires n <= |h.seeds| && n <= |h.coins|
    ensures |s| == n
    ensures forall i :: 0 <= i < n ==> s[i] == SecretAt(h, i + 1)
  {
    seq(n, i requires 0 <= i < n => SecretAt(h, i + 1))
  }

  /** The authenticator both parties hold on entering epoch e. */
  function AuthAt(h: History, e: nat): Authenticator
    requires 1 <= e <= |h.seeds| + 1 && e <= |h.coins| + 1
  {
    AuthFold(h.root, Secrets(h, e - 1))
  }

  lemma AuthStep(h: History, e: nat)
    requires Encapsulated(h, e)
    ensures AuthAt(h, e + 1) == AuthAt(h, e).Update(e, SecretAt(h, e))
  {
    assert Secrets(h, e)[..e - 1] == Secrets(h, e - 1);
  }

  function HdrObj(h: History, e: nat): (b: Bytes)
    requires Sampled(h, e)
    ensures |b| == HDR_LEN
  {
    Header(h, e) + AuthAt(h, e).MacHdr(e, Header(h, e))
  }

  function EkObj(h: History, e: nat): (b: Bytes)
    requires 1 <= e <= |h.seeds|
    ensures |b| == PK2_LEN
  {
    EkVectorOf(h.seeds[e - 1])
  }

  function Ct1Obj(h: History, e: nat): (b: Bytes)
    requires Encapsulated(h, e)
    ensures |b| == CT1_LEN
  {
    Spell(Ct1(Header(h, e), h.coins[e - 1]), CT1_LEN)
  }

  function Ct2Plain(h: History, e: nat): (b: Bytes)
    requires Encapsulated(h, e)
    ensures |b| == CT2_LEN
  {
    Spell(Ct2(Header(h, e), h.coins[e - 1], EkObj(h, e)), CT2_LEN)
  }

  function Ct2Obj(h: History, e: nat): (b: Bytes)
    requires Encapsulated(h, e)
    ensures |b| == CT2_MAC_LEN
  {
    Ct2Plain(h, e) + AuthAt(h, e + 1).MacCt(e, Ct1Obj(h, e) + Ct2Plain(h, e))
  }

  // ---- invariant --------------------------------------------------------------------

  /** Position of a party in the protocol; it never decreases. */
  function Rank(s: State): nat
    requires s.WellFormed()
  {
    10 * s.ep +
    match s
    case KeysUnsampled(_, _) => 0
    case KeysSampled(_, _, _, _, _) => 1
    case HeaderSent(_, _, _, _, _) => 2
    case Ct1Received(_, _, _, _, _) => 3
    case EkSentCt1Received(_, _, _, _, _) => 4
    case NoHeaderReceived(_, _, _) => 0
    case HeaderReceived(_, _, _, _) => 1
    case Ct1Sampled(_, _, _, _, _, _, _) => 2
    case EkReceivedCt1Sampled(_, _, _, _, _, _) => 3
    case Ct1Acknowledged(_, _, _, _, _, _) => 4
    case Ct2Sampled(_, _, _) => 5
  }

  /** The codeword a message carries belongs to the object its epoch and type announce. */
  predicate WordOk(h: History, from: Party, m: Message)
  {
    var e := m.epoch;
    && (m.mtype != Idle ==> m.chunk.Some?)
    && match m.mtype
       case Idle => true
       case Hdr => from == Owner(e) && Sampled(h, e) && IsCodeword(HdrObj(h, e), m.chunk.value)
       case Ek => from == Owner(e) && Sampled(h, e) && IsCodeword(EkObj(h, e), m.chunk.value)
       case EkCt1Ack => from == Owner(e) && Sampled(h, e) && IsCodeword(EkObj(h, e), m.chunk.value)
       case Ct1Word => from == Owner(e).Peer() && Encapsulated(h, e) && IsCodeword(Ct1Obj(h, e), m.chunk.value)
       case Ct2Word => from == Owner(e).Peer() && Encapsulated(h, e) && IsCodeword(Ct2Obj(h, e), m.chunk.value)
  }

  /** How far the sender must have come to have sent `m`. */
  function RankOf(m: Message): nat
  {
    10 * m.epoch + match m.mtype case Ek => 2 case EkCt1Ack => 3 case Ct2Word => 5 case _ => 0
  }

  predicate PacketOk(w: World, pk: Packet)
    requires w.Live()
  {
    && WordOk(w.h, pk.from, pk.msg)
    && RankOf(pk.msg) <= Rank(w.At(pk.from))
  }

  /** A party's state holds exactly the objects of its epoch. */
  predicate LocalOk(h: History, p: Party, s: State)
    requires s.WellFormed()
  {
    var e := s.ep;
    && (s.IsOwner() <==> p == Owner(e))
    && e <= |h.coins| + 1 && |h.coins| <= |h.seeds|
    && match s
       case KeysUnsampled(_, auth) => |h.seeds| == e - 1 && |h.coins| == e - 1 && auth == AuthAt(h, e)
       case KeysSampled(_, auth, dk, ek, enc) =>
         && Sampled(h, e) && auth == AuthAt(h, e)
         && dk == h.seeds[e - 1] && ek == EkObj(h, e) && enc.Streams(HdrObj(h, e))
       case HeaderSent(_, auth, dk, dec, enc) =>
         && Encapsulated(h, e) && auth == AuthAt(h, e)
         && dk == h.seeds[e - 1] && dec.Holds(Ct1Obj(h, e)) && enc.Streams(EkObj(h, e))
       case Ct1Received(_, auth, dk, ct1, enc) =>
         && Encapsulated(h, e) && auth == AuthAt(h, e)
         && dk == h.seeds[e - 1] && ct1 == Ct1Obj(h, e) && enc.Streams(EkObj(h, e))
       case EkSentCt1Received(_, auth, dk, ct1, dec) =>
         && Encapsulated(h, e) && auth == AuthAt(h, e)
         && dk == h.seeds[e - 1] && ct1 == Ct1Obj(h, e) && dec.Holds(Ct2Obj(h, e))
       case NoHeaderReceived(_, auth, dec) =>
         && |h.coins| == e - 1 && auth == AuthAt(h, e)
         && if Sampled(h, e) then dec.Holds(HdrObj(h, e)) else dec == DecoderState.New(HDR_LEN)
       case HeaderReceived(_, auth, header, dec) =>
         && |h.coins| == e - 1 && Sampled(h, e) && auth == AuthAt(h, e)
         && header == Header(h, e) && dec == DecoderState.New(PK2_LEN)
       case Ct1Sampled(_, auth, header, es, ct1, enc, dec) =>
         && Encapsulated(h, e) && auth == AuthAt(h, e + 1)
         && header == Header(h, e) && es == EncapsState(header, h.coins[e - 1]) && ct1 == Ct1Obj(h, e)
         && enc.Streams(Ct1Obj(h, e)) && dec.Holds(EkObj(h, e))
       case EkReceivedCt1Sampled(_, auth, es, ct1, ek, enc) =>
         && Encapsulated(h, e) && auth == AuthAt(h, e + 1)
         && es == EncapsState(Header(h, e), h.coins[e - 1]) && ct1 == Ct1Obj(h, e)
         && ek == EkObj(h, e) && enc.Streams(Ct1Obj(h, e))
       case Ct1Acknowledged(_, auth, es, header, ct1, dec) =>
         && Encapsulated(h, e) && auth == AuthAt(h, e + 1)
         && header == Header(h, e) && es == EncapsState(header, h.coins[e - 1]) && ct1 == Ct1Obj(h, e)
         && dec.Holds(EkObj(h, e))
       case Ct2Sampled(_, auth, enc) =>
         && Encapsulated(h, e) && auth == AuthAt(h, e + 1) && enc.Streams(Ct2Obj(h, e))
  }

  /** Which state of the key owner can face which state of the encapsulator. */
  predicate Compatible(o: State, s: State)
  {
    match o
    case KeysUnsampled(_, _) => s.NoHeaderReceived?
    case KeysSampled(_, _, _, _, _) => s.NoHeaderReceived? || s.HeaderReceived? || s.Ct1Sampled?
    case HeaderSent(_, _, _, _, _) => s.Ct1Sampled? || s.EkReceivedCt1Sampled?
    case Ct1Received(_, _, _, _, _) =>
      s.Ct1Sampled? || s.EkReceivedCt1Sampled? || s.Ct1Acknowledged? || s.Ct2Sampled?
    case EkSentCt1Received(_, _, _, _, _) => s.Ct2Sampled?
    case _ => false
  }

  /** `p` has finished its epoch as key owner and waits for the peer to notice. */
  predicate Ahead(w: World, p: Party)
    requires w.Live()
  {
    var s, t := w.At(p), w.At(p.Peer());
    && s.NoHeaderReceived? && t.Ct2Sampled? && s.ep == t.ep + 1
    && |w.h.seeds| == |w.h.coins| == t.ep
  }

  predicate Level(w: World)
    requires w.Live()
  {
    var e := w.a.ep;
    && e == w.b.ep && |w.h.seeds| <= e
    && Compatible(w.At(Owner(e)), w.At(Owner(e).Peer()))
  }

  predicate Joint(w: World)
    requires w.Live()
  {
    Level(w) || Ahead(w, Alice) || Ahead(w, Bob)
  }

  predicate LogOk(w: World, p: Party)
    requires w.Live()
  {
    var n := w.At(p).Done();
    n <= |w.h.coins| && n <= |w.h.seeds| && w.Emitted(p) == Secrets(w.h, n)
  }

  predicate Inv(w: World)
  {
    && w.Live()
    && LocalOk(w.h, Alice, w.a) && LocalOk(w.h, Bob, w.b)
    && Joint(w)
    && LogOk(w, Alice) && LogOk(w, Bob)
    && forall pk :: pk in w.net ==> PacketOk(w, pk)
  }

  // ---- history only grows -------------------------------------------------------------

  predicate Extends(h: History, h': History)
  {
    h.root == h'.root && h.seeds <= h'.seeds && h.coins <= h'.coins
  }

  lemma SecretsStable(h: History, h': History, n: nat)
    requires Extends(h, h') && n <= |h.seeds| && n <= |h.coins|
    ensures Secrets(h', n) == Secrets(h, n)
  {
    forall i | 0 <= i < n ensures Secrets(h', n)[i] == Secrets(h, n)[i] {
      assert h'.seeds[i] == h.seeds[i] && h'.coins[i] == h.coins[i];
    }
  }

  /** The objects of an epoch do not change once its randomness is drawn. */
  lemma ObjectsStable(h: History, h': History, e: nat)
    requires Extends(h, h') && 1 <= e <= |h.seeds| + 1 && e <= |h.coins| + 1
    ensures AuthAt(h', e) == AuthAt(h, e)
    ensures Sampled(h, e) ==> Header(h', e) == Header(h, e) && HdrObj(h', e) == HdrObj(h, e) && EkObj(h', e) == EkObj(h, e)
    ensures Encapsulated(h, e) ==>
      && AuthAt(h', e + 1) == AuthAt(h, e + 1) && Ct1Obj(h', e) == Ct1Obj(h, e) && Ct2Obj(h', e) == Ct2Obj(h, e)
      && SecretAt(h', e) == SecretAt(h, e)
  {
    SecretsStable(h, h', e - 1);
    if Encapsulated(h, e) { SecretsStable(h, h', e); }
  }

  lemma PacketStable(w: World, w': World, pk: Packet)
    requires w.Live() && w'.Live() && PacketOk(w, pk)
    requires Extends(w.h, w'.h)
    requires Rank(w'.At(pk.from)) >= Rank(w.At(pk.from))
    ensures PacketOk(w', pk)
  {
    if pk.msg.mtype != Idle { ObjectsStable(w.h, w'.h, pk.msg.epoch); }
  }

  // ---- one party -------------------------------------------------------------------------

  predicate SentOk(h: History, p: Party, s: State, out: Sent)
    requires s.WellFormed()
  {
    && out.next.WellFormed() && LocalOk(h, p, out.next)
    && WordOk(h, p, out.msg) && RankOf(out.msg) <= Rank(out.next)
    && out.next.IsOwner() == s.IsOwner()
    && Rank(out.next) == Rank(s) + (if s.KeysUnsampled? || s.HeaderReceived? then 1 else 0)
    && (out.secret.Some? ==> Encapsulated(h, s.ep) && out.secret.value.secret == SecretAt(h, s.ep))
  }

  lemma SendKeysUnsampled(h: History, p: Party, s: State, coins: Term)
    requires s.WellFormed() && LocalOk(h, p, s) && s.KeysUnsampled?
    ensures s.Send(coins).Ok? && SentOk(Record(h, s, coins), p, s, s.Send(coins).value)
  {
    var h' := Record(h, s, coins);
    ObjectsStable(h, h', s.ep);
    var enc := EncoderState(Codewords(HdrObj(h', s.ep)), 0);
    NextChunkStreams(enc, HdrObj(h', s.ep));
  }

  lemma SendHeaderReceived(h: History, p: Party, s: State, coins: Term)
    requires s.WellFormed() && LocalOk(h, p, s) && s.HeaderReceived?
    ensures s.Send(coins).Ok? && SentOk(Record(h, s, coins), p, s, s.Send(coins).value)
  {
    hide Codewords, AuthFold, DecoderState.Sized;
    var h' := Record(h, s, coins);
    ObjectsStable(h, h', s.ep);
    AuthStep(h', s.ep);
    var enc := EncoderState(Codewords(Ct1Obj(h', s.ep)), 0);
    NextChunkStreams(enc, Ct1Obj(h', s.ep));
  }

  lemma SendOwner(h: History, p: Party, s: State, coins: Term)
    requires s.WellFormed() && LocalOk(h, p, s) && s.IsOwner() && !s.KeysUnsampled?
    ensures s.Send(coins).Ok? && SentOk(h, p, s, s.Send(coins).value)
  {
    hide DecoderState.Message, Codewords, AuthFold;
    match s
    case KeysSampled(_, _, _, _, enc) => NextChunkStreams(enc, HdrObj(h, s.ep));
    case HeaderSent(_, _, _, _, enc) => NextChunkStreams(enc, EkObj(h, s.ep));
    case Ct1Received(_, _, _, _, enc) => NextChunkStreams(enc, EkObj(h, s.ep));
    case EkSentCt1Received(_, _, _, _, _) =>
  }

  lemma SendCt1(h: History, p: Party, s: State, coins: Term)
    requires s.WellFormed() && LocalOk(h, p, s) && (s.Ct1Sampled? || s.EkReceivedCt1Sampled?)
    ensures s.Send(coins).Ok? && SentOk(h, p, s, s.Send(coins).value)
  {
    hide DecoderState.Holds, DecoderState.Message, Codewords, AuthAt, Header, EkObj, Ct2Obj, Spell;
    NextChunkStreams(s.ct1Enc, Ct1Obj(h, s.ep));
  }

  lemma SendCt2(h: History, p: Party, s: State, coins: Term)
    requires s.WellFormed() && LocalOk(h, p, s) && s.Ct2Sampled?
    ensures s.Send(coins).Ok? && SentOk(h, p, s, s.Send(coins).value)
  {
    hide DecoderState.Holds, DecoderState.Message, Codewords, AuthAt, Header, EkObj, Ct1Obj, Spell;
    NextChunkStreams(s.ct2Enc, Ct2Obj(h, s.ep));
  }

  /** A send of a correct state streams the right codeword and stays correct. */
  lemma SendLocal(h: History, p: Party, s: State, coins: Term)
    requires s.WellFormed() && LocalOk(h, p, s)
    ensures s.Send(coins).Ok? && SentOk(Record(h, s, coins), p, s, s.Send(coins).value)
    ensures Extends(h, Record(h, s, coins))
  {
    if s.KeysUnsampled? { SendKeysUnsampled(h, p, s, coins); }
    else if s.HeaderReceived? { SendHeaderReceived(h, p, s, coins); }
    else if s.IsOwner() { SendOwner(h, p, s, coins); }
    else if s.Ct1Sampled? || s.EkReceivedCt1Sampled? { SendCt1(h, p, s, coins); }
    else if s.Ct2Sampled? { SendCt2(h, p, s, coins); }
  }

  /** No codeword already collected is thrown away while a party waits for an object. */
  predicate Kept(s: State, next: State)
  {
    && (s.NoHeaderReceived? && next.NoHeaderReceived? && s.ep == next.ep ==>
          s.hdrDec.received.Keys <= next.hdrDec.received.Keys)
    && (s.EkSentCt1Received? && next.EkSentCt1Received? && s.ep == next.ep ==>
          s.ct2Dec.received.Keys <= next.ct2Dec.received.Keys)
  }

  predicate ReceivedOk(h: History, p: Party, s: State, r: Result<Received>)
    requires s.WellFormed()
  {
    && r.Ok? && r.value.next.WellFormed() && LocalOk(h, p, r.value.next)
    && Rank(s) <= Rank(r.value.next) && Kept(s, r.value.next)
    && (r.value.secret.Some? ==> Encapsulated(h, s.ep) && r.value.secret.value.secret == SecretAt(h, s.ep))
  }

  /** Absorbing a right codeword: never an error, nothing lost, complete exactly at k. */
  lemma Absorb(dec: DecoderState, m: Message, data: Bytes)
    requires dec.Holds(data) && CodecSupports(|data|)
    requires m.chunk.Some? && IsCodeword(data, m.chunk.value)
    ensures AddChunk(dec, m).Ok?
    ensures var d := AddChunk(dec, m).value;
      && d.Holds(data) && d.Sized(|data|)
      && d.received.Keys == dec.received.Keys + {m.chunk.value.index}
      && d.Message() == Ok(if |d.received| >= DataShardsFor(|data|) then Some(data) else None)
  {
    AddCodeword(dec, m.chunk.value, data);
    MessageExact(AddChunk(dec, m).value, data);
  }

  /** The codeword of `m` was added and the object is still incomplete. */
  predicate Collected(dec: DecoderState, dec': DecoderState, m: Message, k: nat)
  {
    && m.chunk.Some?
    && dec'.received.Keys == dec.received.Keys + {m.chunk.value.index}
    && |dec'.received.Keys| < k
  }

  lemma NewDecoder(n: nat)
    ensures DecoderState.New(n).Sized(n)
  {
  }

  lemma OwnKeyValid(h: History, e: nat)
    requires 1 <= e <= |h.seeds|
    ensures ValidPublicKey(Header(h, e), EkObj(h, e))
  {
    assert Header(h, e)[0] == Of(Pk1(h.seeds[e - 1]), 0);
  }

  lemma ReceiveKeysSampled(h: History, p: Party, s: State, m: Message)
    requires s.WellFormed() && LocalOk(h, p, s) && s.KeysSampled?
    requires m.epoch == s.ep && m.mtype == Ct1Word && WordOk(h, p.Peer(), m)
    ensures ReceivedOk(h, p, s, s.Receive(m)) && s.Receive(m).value.next.HeaderSent?
  {
    hide DecoderState.Message, Codewords, AuthFold;
    AddCodeword(DecoderState.New(CT1_LEN), m.chunk.value, Ct1Obj(h, s.ep));
  }

  lemma ReceiveHeaderSent(h: History, p: Party, s: State, m: Message)
    requires s.WellFormed() && LocalOk(h, p, s) && s.HeaderSent?
    requires m.epoch == s.ep && m.mtype == Ct1Word && WordOk(h, p.Peer(), m)
    ensures ReceivedOk(h, p, s, s.Receive(m))
    ensures var n := s.Receive(m).value.next;
      n.Ct1Received? || (n.HeaderSent? && Collected(s.ct1Dec, n.ct1Dec, m, DataShardsFor(CT1_LEN)))
  {
    hide BraidMachine.AddChunk, DecoderState.Message, DecoderState.Holds, DecoderState.Sized, IsCodeword,
         Codewords, AuthFold, ValidPublicKey, Spell;
    Absorb(s.ct1Dec, m, Ct1Obj(h, s.ep));
  }

  lemma ReceiveCt1Received(h: History, p: Party, s: State, m: Message)
    requires s.WellFormed() && LocalOk(h, p, s) && s.Ct1Received?
    requires m.epoch == s.ep && m.mtype == Ct2Word && WordOk(h, p.Peer(), m)
    ensures ReceivedOk(h, p, s, s.Receive(m)) && s.Receive(m).value.next.EkSentCt1Received?
  {
    hide DecoderState.Message, Codewords, AuthFold;
    AddCodeword(DecoderState.New(CT2_MAC_LEN), m.chunk.value, Ct2Obj(h, s.ep));
  }

  lemma DecapsulateAgrees(h: History, e: nat)
    requires Encapsulated(h, e)
    ensures Decapsulate(h.seeds[e - 1], Ct1Obj(h, e), Ct2Plain(h, e)) == Ok(Shared(Header(h, e), h.coins[e - 1]))
  {
    assert Ct1Obj(h, e)[0] == Of(Ct1(Header(h, e), h.coins[e - 1]), 0);
  }

  /** The whole ct2 object passes decapsulation and the MAC check, to the epoch's own secret. */
  lemma Ct2Accepted(h: History, e: nat)
    requires Encapsulated(h, e)
    ensures var (ct2, mac) := (Ct2Obj(h, e)[..CT2_LEN], Ct2Obj(h, e)[CT2_LEN..]);
      && Decapsulate(h.seeds[e - 1], Ct1Obj(h, e), ct2) == Ok(Shared(Header(h, e), h.coins[e - 1]))
      && AuthAt(h, e + 1) == AuthAt(h, e).Update(e, SecretAt(h, e))
      && AuthAt(h, e + 1).VfyCt(e, Ct1Obj(h, e) + ct2, mac)
  {
    hide Spell, Decapsulate, AuthFold;
    assert Ct2Obj(h, e)[..CT2_LEN] == Ct2Plain(h, e);
    assert Ct2Obj(h, e)[CT2_LEN..] == AuthAt(h, e + 1).MacCt(e, Ct1Obj(h, e) + Ct2Plain(h, e));
    DecapsulateAgrees(h, e);
    AuthStep(h, e);
  }

  lemma Ct2WordAbsorbed(h: History, p: Party, s: State, m: Message) returns (dec: DecoderState)
    requires s.WellFormed() && LocalOk(h, p, s) && s.EkSentCt1Received?
    requires m.epoch == s.ep && m.mtype == Ct2Word && WordOk(h, p.Peer(), m)
    ensures m.chunk.Some? && Encapsulated(h, s.ep) && dec.Holds(Ct2Obj(h, s.ep)) && dec.Sized(CT2_MAC_LEN)
    ensures dec.received.Keys == s.ct2Dec.received.Keys + {m.chunk.value.index}
    ensures s.Receive(m) == Ok(
        if |dec.received| >= DataShardsFor(CT2_MAC_LEN) then
          Received(NoHeaderReceived(s.ep + 1, AuthAt(h, s.ep + 1), DecoderState.New(HDR_LEN)), Some(EpochSecret(s.ep, SecretAt(h, s.ep))))
        else Received(EkSentCt1Received(s.ep, s.auth, s.dk, s.ct1, dec), None))
  {
    hide BraidMachine.AddChunk, DecoderState.Message, DecoderState.Holds, DecoderState.Sized, IsCodeword,
         Codewords, AuthAt, ValidPublicKey, Spell, Secrets, Decapsulate, Authenticator.VfyCt,
         Authenticator.Update, Ct2Obj, Ct1Obj;
    Absorb(s.ct2Dec, m, Ct2Obj(h, s.ep));
    Ct2Accepted(h, s.ep);
    dec := BraidMachine.AddChunk(s.ct2Dec, m).value;
  }

  lemma ReceiveEkSentCt1Received(h: History, p: Party, s: State, m: Message)
    requires s.WellFormed() && LocalOk(h, p, s) && s.EkSentCt1Received? && |h.coins| == s.ep == |h.seeds|
    requires m.epoch == s.ep && m.mtype == Ct2Word && WordOk(h, p.Peer(), m)
    ensures ReceivedOk(h, p, s, s.Receive(m))
    ensures var n := s.Receive(m).value.next;
      n.NoHeaderReceived? || (n.EkSentCt1Received? && Collected(s.ct2Dec, n.ct2Dec, m, DataShardsFor(CT2_MAC_LEN)))
  {
    hide State.Receive, WordOk, DecoderState.Holds, DecoderState.Sized, AuthAt, Ct2Obj, Ct1Obj, Header;
    var dec := Ct2WordAbsorbed(h, p, s, m);
    NewDecoder(HDR_LEN);
  }

  lemma ReceiveNoHeaderReceived(h: History, p: Party, s: State, m: Message)
    requires s.WellFormed() && LocalOk(h, p, s) && s.NoHeaderReceived?
    requires m.epoch == s.ep && m.mtype == Hdr && WordOk(h, p.Peer(), m)
    ensures ReceivedOk(h, p, s, s.Receive(m))
    ensures var n := s.Receive(m).value.next;
      n.HeaderReceived? || (n.NoHeaderReceived? && Collected(s.hdrDec, n.hdrDec, m, DataShardsFor(HDR_LEN)))
  {
    hide BraidMachine.AddChunk, DecoderState.Message, DecoderState.Holds, DecoderState.Sized, IsCodeword,
         Codewords, AuthFold, ValidPublicKey, Spell;
    var e := s.ep;
    Absorb(s.hdrDec, m, HdrObj(h, e));
    assert HdrObj(h, e)[..PK1_LEN] == Header(h, e);
    assert HdrObj(h, e)[PK1_LEN..] == AuthAt(h, e).MacHdr(e, Header(h, e));
    NewDecoder(PK2_LEN);
  }

  lemma BuildCt2Streams(h: History, e: nat)
    requires Encapsulated(h, e)
    ensures var r := BuildCt2Encoder(AuthAt(h, e + 1), e, EncapsState(Header(h, e), h.coins[e - 1]), EkObj(h, e), Ct1Obj(h, e));
      r.Ok? && r.value.Streams(Ct2Obj(h, e))
  {
  }

  lemma Ct2Shards(h: History, e: nat)
    requires Encapsulated(h, e)
    ensures forall enc: EncoderState :: enc.Streams(Ct2Obj(h, e)) ==> enc.shards != []
  {
    hide Codewords;
  }

  lemma ReceiveCt1Sampled(h: History, p: Party, s: State, m: Message)
    requires s.WellFormed() && LocalOk(h, p, s) && s.Ct1Sampled?
    requires m.epoch == s.ep && (m.mtype == Ek || m.mtype == EkCt1Ack) && WordOk(h, p.Peer(), m)
    ensures ReceivedOk(h, p, s, s.Receive(m))
    ensures var n := s.Receive(m).value.next;
      if m.mtype == Ek then n.Ct1Sampled? || n.EkReceivedCt1Sampled?
      else n.Ct2Sampled? || (n.Ct1Acknowledged? && Collected(s.ekDec, n.ekDec, m, DataShardsFor(PK2_LEN)))
  {
    if m.mtype == Ek { ReceiveCt1SampledEk(h, p, s, m); } else { ReceiveCt1SampledAck(h, p, s, m); }
  }

  /** The key vector's codeword arrives: all of it is there, or the party collects on. */
  lemma EkWordAbsorbed(h: History, p: Party, s: State, m: Message) returns (dec: DecoderState, enc: EncoderState)
    requires s.WellFormed() && LocalOk(h, p, s) && (s.Ct1Sampled? || s.Ct1Acknowledged?)
    requires m.epoch == s.ep && (m.mtype == Ek || m.mtype == EkCt1Ack) && WordOk(h, p.Peer(), m)
    ensures m.chunk.Some? && Encapsulated(h, s.ep) && dec.Holds(EkObj(h, s.ep)) && dec.Sized(PK2_LEN)
    ensures dec.received.Keys == s.ekDec.received.Keys + {m.chunk.value.index}
    ensures enc.Streams(Ct2Obj(h, s.ep)) && enc.shards != []
    ensures var whole := |dec.received| >= DataShardsFor(PK2_LEN);
      s.Receive(m) == Ok(Received(
        if s.Ct1Acknowledged? then
          if m.mtype == Ek then s
          else if whole then Ct2Sampled(s.ep, s.auth, enc)
          else Ct1Acknowledged(s.ep, s.auth, s.es, s.header, s.ct1, dec)
        else if m.mtype == Ek then
          if whole then EkReceivedCt1Sampled(s.ep, s.auth, s.es, s.ct1, EkObj(h, s.ep), s.ct1Enc)
          else Ct1Sampled(s.ep, s.auth, s.header, s.es, s.ct1, s.ct1Enc, dec)
        else if whole then Ct2Sampled(s.ep, s.auth, enc)
        else Ct1Acknowledged(s.ep, s.auth, s.es, s.header, s.ct1, dec), None))
  {
    hide BraidMachine.AddChunk, DecoderState.Message, DecoderState.Holds, DecoderState.Sized, IsCodeword,
         Codewords, AuthAt, ValidPublicKey, Spell, BuildCt2Encoder, EncoderState.Streams, Ct2Obj, Ct1Obj, EkObj, Header;
    Absorb(s.ekDec, m, EkObj(h, s.ep));
    BuildCt2Streams(h, s.ep);
    Ct2Shards(h, s.ep);
    OwnKeyValid(h, s.ep);
    dec := BraidMachine.AddChunk(s.ekDec, m).value;
    enc := BuildCt2Encoder(s.auth, s.ep, s.es, EkObj(h, s.ep), s.ct1).value;
  }

  lemma ReceiveCt1SampledEk(h: History, p: Party, s: State, m: Message)
    requires s.WellFormed() && LocalOk(h, p, s) && s.Ct1Sampled?
    requires m.epoch == s.ep && m.mtype == Ek && WordOk(h, p.Peer(), m)
    ensures ReceivedOk(h, p, s, s.Receive(m))
    ensures s.Receive(m).value.next.Ct1Sampled? || s.Receive(m).value.next.EkReceivedCt1Sampled?
  {
    hide State.Receive, WordOk, DecoderState.Holds, DecoderState.Sized, EncoderState.Streams, AuthAt, Ct2Obj, Ct1Obj, Header;
    var dec, enc := EkWordAbsorbed(h, p, s, m);
  }

  lemma ReceiveCt1SampledAck(h: History, p: Party, s: State, m: Message)
    requires s.WellFormed() && LocalOk(h, p, s) && s.Ct1Sampled?
    requires m.epoch == s.ep && m.mtype == EkCt1Ack && WordOk(h, p.Peer(), m)
    ensures ReceivedOk(h, p, s, s.Receive(m))
    ensures var n := s.Receive(m).value.next;
      n.Ct2Sampled? || (n.Ct1Acknowledged? && Collected(s.ekDec, n.ekDec, m, DataShardsFor(PK2_LEN)))
  {
    hide State.Receive, WordOk, DecoderState.Holds, DecoderState.Sized, EncoderState.Streams, AuthAt, Ct2Obj, Ct1Obj, Header;
    var dec, enc := EkWordAbsorbed(h, p, s, m);
  }

  lemma ReceiveEkReceivedCt1Sampled(h: History, p: Party, s: State, m: Message)
    requires s.WellFormed() && LocalOk(h, p, s) && s.EkReceivedCt1Sampled?
    requires m.epoch == s.ep && m.mtype == EkCt1Ack && WordOk(h, p.Peer(), m)
    ensures ReceivedOk(h, p, s, s.Receive(m)) && s.Receive(m).value.next.Ct2Sampled?
  {
    BuildCt2Streams(h, s.ep);
  }

  lemma ReceiveCt1Acknowledged(h: History, p: Party, s: State, m: Message)
    requires s.WellFormed() && LocalOk(h, p, s) && s.Ct1Acknowledged?
    requires m.epoch == s.ep && m.mtype == EkCt1Ack && WordOk(h, p.Peer(), m)
    ensures ReceivedOk(h, p, s, s.Receive(m))
    ensures var n := s.Receive(m).value.next;
      n.Ct2Sampled? || (n.Ct1Acknowledged? && Collected(s.ekDec, n.ekDec, m, DataShardsFor(PK2_LEN)))
  {
    hide State.Receive, WordOk, DecoderState.Holds, DecoderState.Sized, EncoderState.Streams, AuthAt, Ct2Obj, Ct1Obj, Header;
    var dec, enc := EkWordAbsorbed(h, p, s, m);
  }

  lemma ReceiveCt2Sampled(h: History, p: Party, s: State, m: Message)
    requires s.WellFormed() && LocalOk(h, p, s) && s.Ct2Sampled? && m.epoch == s.ep + 1 && |h.seeds| == |h.coins| == s.ep
    ensures ReceivedOk(h, p, s, s.Receive(m))
  {
    hide EncoderState.Streams, AuthAt, Ct2Obj;
  }

  lemma ReceiveNothing(h: History, p: Party, s: State, m: Message)
    requires s.WellFormed() && LocalOk(h, p, s) && s.Receive(m) == Ok(Received(s, None))
    ensures ReceivedOk(h, p, s, s.Receive(m))
  {
    hide LocalOk, State.Receive;
  }

  /** Any packet the peer really sent is received without error by a correct party. */
  lemma ReceiveLocal(h: History, p: Party, s: State, m: Message)
    requires s.WellFormed() && LocalOk(h, p, s) && WordOk(h, p.Peer(), m)
    requires s.EkSentCt1Received? ==> |h.seeds| == |h.coins| == s.ep
    requires s.Ct2Sampled? && m.epoch == s.ep + 1 ==> |h.seeds| == |h.coins| == s.ep
    ensures ReceivedOk(h, p, s, s.Receive(m))
  {
    hide LocalOk, WordOk, ReceivedOk;
    var e := s.ep;
    if s.Ct2Sampled? && m.epoch == e + 1 { ReceiveCt2Sampled(h, p, s, m);
    } else if m.epoch == e && s.KeysSampled? && m.mtype == Ct1Word { ReceiveKeysSampled(h, p, s, m);
    } else if m.epoch == e && s.HeaderSent? && m.mtype == Ct1Word { ReceiveHeaderSent(h, p, s, m);
    } else if m.epoch == e && s.Ct1Received? && m.mtype == Ct2Word { ReceiveCt1Received(h, p, s, m);
    } else if m.epoch == e && s.EkSentCt1Received? && m.mtype == Ct2Word { ReceiveEkSentCt1Received(h, p, s, m);
    } else if m.epoch == e && s.NoHeaderReceived? && m.mtype == Hdr { ReceiveNoHeaderReceived(h, p, s, m);
    } else if m.epoch == e && s.Ct1Sampled? && (m.mtype == Ek || m.mtype == EkCt1Ack) { ReceiveCt1Sampled(h, p, s, m);
    } else if m.epoch == e && s.EkReceivedCt1Sampled? && m.mtype == EkCt1Ack { ReceiveEkReceivedCt1Sampled(h, p, s, m);
    } else if m.epoch == e && s.Ct1Acknowledged? && m.mtype == EkCt1Ack { ReceiveCt1Acknowledged(h, p, s, m);
    } else { ReceiveNothing(h, p, s, m);
    }
  }

  // ---- both parties ----------------------------------------------------------------------

  lemma InitInv(root: Term)
    ensures Inv(Init(root))
  {
    var w := Init(root);
    assert Secrets(w.h, 0) == [];
  }

  /** The party that is not sending keeps its state correct while the history grows. */
  lemma BystanderOk(w: World, p: Party, coins: Term)
    requires Inv(w)
    ensures LocalOk(Record(w.h, w.At(p), coins), p.Peer(), w.At(p.Peer()))
  {
    hide WordOk, DecoderState.Sized, Codewords, AuthFold;
    var s, t := w.At(p), w.At(p.Peer());
    var h' := Record(w.h, s, coins);
    ObjectsStable(w.h, h', t.ep);
    if s.KeysUnsampled? {
      assert t.NoHeaderReceived? && t.ep == s.ep;
    } else if s.HeaderReceived? {
      assert t.KeysSampled? && t.ep == s.ep;
    }
  }

  lemma LogStable(w: World, p: Party, h': History)
    requires w.Live() && LogOk(w, p) && Extends(w.h, h')
    ensures w.Emitted(p) == Secrets(h', w.At(p).Done())
  {
    SecretsStable(w.h, h', w.At(p).Done());
  }

  lemma LogAppend(h: History, n: nat, log: seq<Term>)
    requires Encapsulated(h, n + 1) && log == Secrets(h, n)
    ensures log + [SecretAt(h, n + 1)] == Secrets(h, n + 1)
  {
  }

  /** Sending moves the sender along its own role only, which every pairing allows. */
  lemma SendJoint(w: World, w': World, p: Party)
    requires w.Live() && w'.Live() && Joint(w)
    requires w'.At(p.Peer()) == w.At(p.Peer())
    requires w.At(p).IsOwner() <==> p == Owner(w.At(p).ep)
    requires w.At(p.Peer()).IsOwner() <==> p.Peer() == Owner(w.At(p.Peer()).ep)
    requires w'.At(p).IsOwner() == w.At(p).IsOwner()
    requires Rank(w'.At(p)) == Rank(w.At(p)) + (if w.At(p).KeysUnsampled? || w.At(p).HeaderReceived? then 1 else 0)
    requires |w'.h.seeds| == |w.h.seeds| + (if w.At(p).KeysUnsampled? then 1 else 0)
    requires |w'.h.coins| == |w.h.coins| + (if w.At(p).HeaderReceived? then 1 else 0)
    requires w.At(p).KeysUnsampled? ==> |w.h.seeds| == w.At(p).ep - 1
    ensures Joint(w')
  {
    var s, s' := w.At(p), w'.At(p);
    assert s'.ep == s.ep;
  }

  lemma PacketsStable(w: World, w': World, added: set<Packet>)
    requires w.Live() && w'.Live() && Extends(w.h, w'.h)
    requires Rank(w'.a) >= Rank(w.a) && Rank(w'.b) >= Rank(w.b)
    requires w'.net == w.net + added
    requires forall pk :: pk in w.net ==> PacketOk(w, pk)
    requires forall pk :: pk in added ==> PacketOk(w', pk)
    ensures forall pk :: pk in w'.net ==> PacketOk(w', pk)
  {
    forall pk | pk in w.net ensures PacketOk(w', pk) { PacketStable(w, w', pk); }
  }

  /** A step of `p` that emits `secret`, if any, keeps both emission logs correct. */
  lemma LogsStep(w: World, w': World, p: Party, s': State, secret: Option<EpochSecret>)
    requires w.Live() && w'.Live() && LogOk(w, Alice) && LogOk(w, Bob) && Extends(w.h, w'.h)
    requires w'.At(p) == s' && w'.At(p.Peer()) == w.At(p.Peer())
    requires w'.Emitted(p) == w.Emitted(p) + if secret.Some? then [secret.value.secret] else []
    requires w'.Emitted(p.Peer()) == w.Emitted(p.Peer())
    requires s'.Done() == w.At(p).Done() + if secret.Some? then 1 else 0
    requires secret.Some? ==>
      Encapsulated(w'.h, s'.Done()) && secret.value.secret == SecretAt(w'.h, s'.Done())
    ensures LogOk(w', Alice) && LogOk(w', Bob)
  {
    LogStable(w, p, w'.h);
    LogStable(w, p.Peer(), w'.h);
    if secret.Some? { LogAppend(w'.h, w.At(p).Done(), w.Emitted(p)); }
  }

  lemma SendInv(w: World, p: Party, coins: Term)
    requires Inv(w)
    ensures Inv(Apply(w, Send(p, coins)))
  {
    hide WordOk, State.Send, State.Receive, State.WellFormed, AuthFold, Secrets;
    var s := w.At(p);
    var w' := Apply(w, Send(p, coins));
    SendLocal(w.h, p, s, coins);
    SendStep(s, coins);
    var out := s.Send(coins).value;
    SendJoint(w, w', p);
    BystanderOk(w, p, coins);
    hide LocalOk, Joint;
    LogsStep(w, w', p, out.next, out.secret);
    PacketsStable(w, w', {Packet(p, out.msg)});
  }

  lemma DeliverCounts(w: World, pk: Packet)
    requires Inv(w) && pk in w.net
    ensures var s := w.At(pk.from.Peer());
      && (s.EkSentCt1Received? ==> |w.h.seeds| == |w.h.coins| == s.ep)
      && (s.Ct2Sampled? && pk.msg.epoch == s.ep + 1 ==> |w.h.seeds| == |w.h.coins| == s.ep)
  {
    hide WordOk;
    assert PacketOk(w, pk);
  }

  /** What a state tells about the randomness drawn so far. */
  lemma LocalCounts(h: History, p: Party, s: State)
    requires s.WellFormed() && LocalOk(h, p, s)
    ensures s.IsOwner() <==> p == Owner(s.ep)
    ensures s.KeysUnsampled? ==> |h.seeds| == s.ep - 1
    ensures s.NoHeaderReceived? || s.HeaderReceived? ==> |h.coins| == s.ep - 1
  {
    hide State.WellFormed, DecoderState.Holds, EncoderState.Streams, AuthAt;
  }

  /** Which transition a packet can cause is decided by how far its sender has come. */
  lemma DeliverJoint(w: World, w': World, pk: Packet)
    requires Inv(w) && pk in w.net && w'.Live() && w'.h == w.h
    requires w'.At(pk.from) == w.At(pk.from)
    requires Moves(w.At(pk.from.Peer()), pk.msg, w'.At(pk.from.Peer()))
    ensures Joint(w')
  {
    hide Joint, Moves, LocalOk, WordOk, State.WellFormed;
    assert PacketOk(w, pk);
    DeliverCounts(w, pk);
    LocalCounts(w.h, Alice, w.a);
    LocalCounts(w.h, Bob, w.b);
    if w.At(pk.from.Peer()).IsOwner() { DeliverJointOwner(w, w', pk); } else { DeliverJointOther(w, w', pk); }
  }

  predicate Counted(h: History, p: Party, s: State)
  {
    && s.WellFormed() && (s.IsOwner() <==> p == Owner(s.ep))
    && (s.KeysUnsampled? ==> |h.seeds| == s.ep - 1)
    && (s.NoHeaderReceived? || s.HeaderReceived? ==> |h.coins| == s.ep - 1)
  }

  lemma DeliverJointOwner(w: World, w': World, pk: Packet)
    requires w.Live() && Joint(w) && PacketOk(w, pk) && Counted(w.h, Alice, w.a) && Counted(w.h, Bob, w.b)
    requires w'.Live() && w'.h == w.h && w'.At(pk.from) == w.At(pk.from)
    requires w.At(pk.from.Peer()).IsOwner() && Moves(w.At(pk.from.Peer()), pk.msg, w'.At(pk.from.Peer()))
    requires w.At(pk.from.Peer()).EkSentCt1Received? ==> |w.h.seeds| == |w.h.coins| == w.At(pk.from.Peer()).ep
    ensures Joint(w')
  {
    hide IsCodeword, State.WellFormed;
    assert Level(w);
  }

  lemma DeliverJointOther(w: World, w': World, pk: Packet)
    requires w.Live() && Joint(w) && PacketOk(w, pk) && Counted(w.h, Alice, w.a) && Counted(w.h, Bob, w.b)
    requires w'.Live() && w'.h == w.h && w'.At(pk.from) == w.At(pk.from)
    requires !w.At(pk.from.Peer()).IsOwner() && Moves(w.At(pk.from.Peer()), pk.msg, w'.At(pk.from.Peer()))
    ensures Joint(w')
  {
    hide IsCodeword, State.WellFormed;
  }

  lemma DeliverLocal(w: World, pk: Packet)
    requires Inv(w) && pk in w.net
    ensures ReceivedOk(w.h, pk.from.Peer(), w.At(pk.from.Peer()), w.At(pk.from.Peer()).Receive(pk.msg))
  {
    hide WordOk, State.Receive, State.WellFormed, LocalOk, ReceivedOk, Joint;
    assert PacketOk(w, pk);
    DeliverCounts(w, pk);
    ReceiveLocal(w.h, pk.from.Peer(), w.At(pk.from.Peer()), pk.msg);
  }

  /** A receiver that moves as the packet's type allows, to a correct state, keeps the invariant. */
  lemma ArriveInv(w: World, pk: Packet, next: State, secret: Option<EpochSecret>)
    requires Inv(w) && pk in w.net && next.WellFormed()
    requires var s := w.At(pk.from.Peer());
      && InOrder(s, next, secret) && Moves(s, pk.msg, next) && LocalOk(w.h, pk.from.Peer(), next)
      && Rank(s) <= Rank(next)
      && (secret.Some? ==> Encapsulated(w.h, s.ep) && secret.value.secret == SecretAt(w.h, s.ep))
    ensures Inv(w.Put(pk.from.Peer(), next, secret))
  {
    hide WordOk, State.WellFormed, AuthFold, Secrets, Moves, LocalOk, Joint, Rank, PacketOk;
    var q := pk.from.Peer();
    var w' := w.Put(q, next, secret);
    DeliverJoint(w, w', pk);
    LogsStep(w, w', q, next, secret);
    PacketsStable(w, w', {});
  }

  lemma DeliverInv(w: World, pk: Packet)
    requires Inv(w) && pk in w.net
    ensures Inv(Apply(w, Deliver(pk)))
    ensures ReceivedOk(w.h, pk.from.Peer(), w.At(pk.from.Peer()), w.At(pk.from.Peer()).Receive(pk.msg))
  {
    hide WordOk, State.Send, State.Receive, State.WellFormed, AuthFold, Secrets, Moves, LocalOk, Joint, InOrder, Rank, Kept, LogOk;
    var s := w.At(pk.from.Peer());
    DeliverLocal(w, pk);
    ReceiveStep(s, pk.msg);
    ReceiveMoves(s, pk.msg);
    ArriveInv(w, pk, s.Receive(pk.msg).value.next, s.Receive(pk.msg).value.secret);
  }

  lemma {:induction false} RunInv(root: Term, trace: seq<Step>)
    ensures Inv(Run(root, trace))
  {
    if trace == [] {
      InitInv(root);
    } else {
      var w := Run(root, trace[..|trace| - 1]);
      RunInv(root, trace[..|trace| - 1]);
      match trace[|trace| - 1]
      case Send(p, coins) => SendInv(w, p, coins);
      case Deliver(pk) => if pk in w.net { DeliverInv(w, pk); }
    }
  }

  // ---- main results ------------------------------------------------------------------------

  /**
   In every run the epochs differ by at most one. When they are equal the key owner and the
   encapsulator are in compatible states; when they differ, one party waits for the next
   header while the other still streams ct2. Whatever packet is delivered next is received
   without error and throws away no codeword.
   */
  lemma JointBraid(root: Term, trace: seq<Step>)
    ensures var w := Run(root, trace);
      && (w.a.ep == w.b.ep ==> Compatible(w.At(Owner(w.a.ep)), w.At(Owner(w.a.ep).Peer())))
      && (w.a.ep != w.b.ep ==>
            || (w.a.NoHeaderReceived? && w.b.Ct2Sampled? && w.a.ep == w.b.ep + 1)
            || (w.b.NoHeaderReceived? && w.a.Ct2Sampled? && w.b.ep == w.a.ep + 1))
      && forall pk :: pk in w.net ==>
           var s, r := w.At(pk.from.Peer()), w.At(pk.from.Peer()).Receive(pk.msg);
           r.Ok? && Kept(s, r.value.next)
  {
    hide State.Receive, State.WellFormed, LocalOk;
    var w := Run(root, trace);
    RunInv(root, trace);
    forall pk | pk in w.net
      ensures w.At(pk.from.Peer()).Receive(pk.msg).Ok?
      ensures Kept(w.At(pk.from.Peer()), w.At(pk.from.Peer()).Receive(pk.msg).value.next)
    {
      DeliverInv(w, pk);
    }
  }

  /**
   In every run, over any number of epochs, the two parties' emitted secrets agree on every
   epoch both have emitted, and each authenticator is the fold of exactly the secrets its
   party has emitted.
   */
  lemma EpochAgreement(root: Term, trace: seq<Step>)
    ensures var w := Run(root, trace);
      && |w.emittedA| == w.a.Done() && |w.emittedB| == w.b.Done()
      && (w.emittedA <= w.emittedB || w.emittedB <= w.emittedA)
      && w.a.auth == AuthFold(root, w.emittedA) && w.b.auth == AuthFold(root, w.emittedB)
  {
    hide LocalOk, Joint, PacketOk, AuthFold, Run;
    var w := Run(root, trace);
    RunInv(root, trace);
    RunRoot(root, trace);
    LocalAuth(w.h, Alice, w.a);
    LocalAuth(w.h, Bob, w.b);
    PrefixSecrets(w.h, w.a.Done(), w.b.Done());
    PrefixSecrets(w.h, w.b.Done(), w.a.Done());
  }

  lemma LocalAuth(h: History, p: Party, s: State)
    requires s.WellFormed() && LocalOk(h, p, s) && s.Done() <= |h.coins| && s.Done() <= |h.seeds|
    ensures s.auth == AuthFold(h.root, Secrets(h, s.Done()))
  {
    hide DecoderState.Holds, DecoderState.Sized, EncoderState.Streams, AuthFold, Secrets;
  }

  lemma PrefixSecrets(h: History, m: nat, n: nat)
    requires m <= |h.seeds| && m <= |h.coins| && n <= |h.seeds| && n <= |h.coins|
    ensures m <= n ==> Secrets(h, m) <= Secrets(h, n)
  {
    if m <= n { assert Secrets(h, n)[..m] == Secrets(h, m); }
  }

  lemma {:induction false} RunRoot(root: Term, trace: seq<Step>)
    ensures Run(root, trace).h.root == root
  {
    hide State.Send, State.Receive, State.WellFormed;
    if trace != [] { RunRoot(root, trace[..|trace| - 1]); }
  }
}
