/**
 The other half of `BraidSinks`: an altered word of the header or of ct2 is thrown away with
 the object it spoils, and honest relaying goes on. Together: exactly when one altered
 codeword bricks the braid.
 */
module BraidBadWord {
  import opened Common
  import opened Symbolic
  import opened Erasure
  import opened BraidMachine
  import opened BraidNetwork
  import opened BraidProgress
  import opened BraidSinks
  import A = BraidAdversary
  import L = BraidRelay

  // ---- bytes that forge no MAC ------------------------------------------------------------------

  function HdrMac(h: History, e: nat): Term
    requires Sampled(h, e)
  {
    Mac(AuthAt(h, e).mac, EkHeader, e, Header(h, e))
  }

  function CtMac(h: History, e: nat): Term
    requires Encapsulated(h, e)
  {
    Mac(AuthAt(h, e + 1).mac, Ciphertext, e, Ct1Obj(h, e) + Ct2Plain(h, e))
  }

  /** The MACs the parties of this history compute. */
  function Macs(h: History): set<Term>
  {
    (set e | 1 <= e <= |h.seeds| && Sampled(h, e) :: HdrMac(h, e)) +
    (set e | 1 <= e <= |h.seeds| && Encapsulated(h, e) :: CtMac(h, e))
  }

  lemma HdrObjKnown(h: History, e: nat)
    requires Sampled(h, e)
    ensures A.KnownShards(Codewords(HdrObj(h, e)), Macs(h))
  {
    hide Codewords, A.KnownBytes, AuthAt;
    L.SpellKnown(Pk1(h.seeds[e - 1]), PK1_LEN, Macs(h));
    L.SpellKnown(HdrMac(h, e), MAC_SIZE, Macs(h));
    L.KnownConcat(Header(h, e), AuthAt(h, e).MacHdr(e, Header(h, e)), Macs(h));
    L.CodewordsKnown(HdrObj(h, e), Macs(h));
  }

  lemma Ct2ObjKnown(h: History, e: nat)
    requires Encapsulated(h, e)
    ensures A.KnownShards(Codewords(Ct2Obj(h, e)), Macs(h))
  {
    hide Codewords, A.KnownBytes, AuthAt;
    L.SpellKnown(Ct2(Header(h, e), h.coins[e - 1], EkObj(h, e)), CT2_LEN, Macs(h));
    L.SpellKnown(CtMac(h, e), MAC_SIZE, Macs(h));
    L.KnownConcat(Ct2Plain(h, e), AuthAt(h, e + 1).MacCt(e, Ct1Obj(h, e) + Ct2Plain(h, e)), Macs(h));
    L.CodewordsKnown(Ct2Obj(h, e), Macs(h));
  }

  lemma HoldsKnown(d: DecoderState, data: Bytes, macs: set<Term>)
    requires d.Holds(data) && A.KnownShards(Codewords(data), macs)
    ensures A.KnownDecoder(d, macs)
  {
    hide Codewords, A.KnownBytes;
    forall i | i in d.received ensures A.KnownBytes(d.received[i], macs) { assert d.received[i] == Codewords(data)[i]; }
  }

  lemma LocalKnown(h: History, p: Party, s: State)
    requires s.WellFormed() && LocalOk(h, p, s)
    ensures A.KnownState(s, Macs(h))
  {
    hide Codewords, A.KnownShards, A.KnownBytes, DecoderState.Holds, Macs, AuthAt;
    if s.NoHeaderReceived? && Sampled(h, s.ep) {
      HdrObjKnown(h, s.ep);
      HoldsKnown(s.hdrDec, HdrObj(h, s.ep), Macs(h));
    } else if s.EkSentCt1Received? {
      Ct2ObjKnown(h, s.ep);
      HoldsKnown(s.ct2Dec, Ct2Obj(h, s.ep), Macs(h));
    }
  }

  lemma WordKnown(h: History, p: Party, m: Message)
    requires WordOk(h, p, m) && (m.mtype == Hdr || m.mtype == Ct2Word)
    ensures A.KnownMessage(m, Macs(h))
  {
    hide Codewords, A.KnownBytes, Macs;
    if m.mtype == Hdr { HdrObjKnown(h, m.epoch); } else { Ct2ObjKnown(h, m.epoch); }
  }

  /** A header that passes the MAC check is the peer's. */
  lemma OnlyItsHeader(h: History, e: nat, header: Bytes)
    requires Sampled(h, e) && Mac(AuthAt(h, e).mac, EkHeader, e, header) in Macs(h)
    ensures header == Header(h, e)
  {
    hide AuthAt;
  }

  /** The only epoch secret that leads to a MAC key of this history is the epoch's own. */
  lemma OnlyItsSecret(h: History, e: nat, secret: Term, t: Term)
    requires Encapsulated(h, e) && t in Macs(h) && t.Mac? && t.use == Ciphertext && t.epoch == e
    requires t.key == AuthAt(h, e).Update(e, secret).mac
    ensures secret == SecretAt(h, e) && AuthAt(h, e).Update(e, secret) == AuthAt(h, e + 1)
  {
    hide AuthAt, SecretAt;
    AuthStep(h, e);
  }

  // ---- a spoiled decoder --------------------------------------------------------------------------

  /** The state with an empty decoder. */
  function Clean(s: State): State
  {
    match s
    case NoHeaderReceived(e, auth, dec) => NoHeaderReceived(e, auth, DecoderState.New(dec.len))
    case EkSentCt1Received(e, auth, dk, ct1, dec) => EkSentCt1Received(e, auth, dk, ct1, DecoderState.New(dec.len))
    case _ => s
  }

  function Cleaned(w: World, q: Party): World { w.Put(q, Clean(w.At(q)), None) }

  lemma CleanInv(w: World, q: Party)
    requires Inv(w)
    ensures Inv(Cleaned(w, q))
  {
    hide PacketOk, LogOk, AuthAt, Codewords;
    var w' := Cleaned(w, q);
    CleanLocal(w.h, q, w.At(q));
    assert w'.emittedA == w.emittedA && w'.emittedB == w.emittedB;
    CleanLogs(w, q);
    PacketsStable(w, w', {});
  }

  lemma CleanLocal(h: History, q: Party, s: State)
    requires s.WellFormed() && LocalOk(h, q, s)
    ensures Clean(s).WellFormed() && LocalOk(h, q, Clean(s)) && Rank(Clean(s)) == Rank(s) && SameKind(s, Clean(s)) && Clean(s).ep == s.ep
  {
    hide AuthAt, Codewords;
  }

  lemma CleanLogs(w: World, q: Party)
    requires w.Live() && LogOk(w, Alice) && LogOk(w, Bob) && Clean(w.At(q)).WellFormed()
    ensures var w' := Cleaned(w, q); w'.Live() && LogOk(w', Alice) && LogOk(w', Bob)
  {
  }

  /** s waits for a header or a ct2, and t streams it. */
  predicate Collecting(s: State, t: State)
  {
    (s.NoHeaderReceived? && t.KeysSampled?) || (s.EkSentCt1Received? && t.Ct2Sampled?)
  }

  /**
   `q` collects a header or a ct2 and may hold wrong words of it; with its decoder emptied
   the world would be a right one.
   */
  ghost predicate Dirty(w: World, q: Party)
  {
    var (s, t) := (w.At(q), w.At(q.Peer()));
    && w.Live() && Inv(Cleaned(w, q)) && s.ep == t.ep
    && Incomplete(s) && A.KnownState(s, Macs(w.h)) && Collecting(s, t)
  }

  lemma HdrShape(s: State, m: Message)
    requires s.WellFormed() && s.NoHeaderReceived? && m.epoch == s.ep && m.mtype == Hdr && s.Receive(m).Ok?
    ensures AddChunk(s.hdrDec, m).Ok? && s.Receive(m).value.secret.None?
    ensures var (next, dec) := (s.Receive(m).value.next, AddChunk(s.hdrDec, m).value);
      || next == Clean(s)
      || (next == NoHeaderReceived(s.ep, s.auth, dec) && dec.len == s.hdrDec.len && |dec.received| < DataShardsFor(HDR_LEN))
      || (next.HeaderReceived? && next == HeaderReceived(s.ep, s.auth, next.header, DecoderState.New(PK2_LEN)))
  {
    hide DecoderState.Message, BraidMachine.AddChunk, DecoderState.Sized, Authenticator.VfyHdr;
    AddChunkSized(s.hdrDec, m, HDR_LEN);
    var dec := AddChunk(s.hdrDec, m).value;
    SizedLength(dec, HDR_LEN);
    SizedLength(s.hdrDec, HDR_LEN);
    if dec.Message() == Ok(None) { NoneMeansShort(dec, HDR_LEN); }
  }

  lemma SizedLength(d: DecoderState, n: nat)
    requires d.Sized(n)
    ensures d.len == n
  {
  }

  lemma Ct2Shape(s: State, m: Message)
    requires s.WellFormed() && s.EkSentCt1Received? && m.epoch == s.ep && m.mtype == Ct2Word && s.Receive(m).Ok?
    ensures AddChunk(s.ct2Dec, m).Ok?
    ensures var (next, secret, dec) := (s.Receive(m).value.next, s.Receive(m).value.secret, AddChunk(s.ct2Dec, m).value);
      || (secret.None? && next == Clean(s))
      || (secret.None? && next == EkSentCt1Received(s.ep, s.auth, s.dk, s.ct1, dec)
          && dec.len == s.ct2Dec.len && |dec.received| < DataShardsFor(CT2_MAC_LEN))
      || (secret.Some? && secret.value.epoch == s.ep
          && next == NoHeaderReceived(s.ep + 1, s.auth.Update(s.ep, secret.value.secret), DecoderState.New(HDR_LEN)))
  {
    hide DecoderState.Message, BraidMachine.AddChunk, DecoderState.Sized, Authenticator.VfyCt, Decapsulate, Authenticator.Update;
    AddChunkSized(s.ct2Dec, m, CT2_MAC_LEN);
    var dec := AddChunk(s.ct2Dec, m).value;
    SizedLength(dec, CT2_MAC_LEN);
    SizedLength(s.ct2Dec, CT2_MAC_LEN);
    if dec.Message() == Ok(None) { NoneMeansShort(dec, CT2_MAC_LEN); }
  }

  /** `q` may be about to receive, from the peer's packet `pk` or an altered copy, the message m. */
  ghost predicate Arriving(w: World, q: Party, pk: Packet, m: Message)
  {
    && Dirty(w, q) && pk in w.net && pk.from == q.Peer()
    && pk.msg.epoch == m.epoch == w.At(q).ep && pk.msg.mtype == m.mtype
    && m.mtype == (if w.At(q).NoHeaderReceived? then Hdr else Ct2Word)
    && A.KnownMessage(m, Macs(w.h)) && w.At(q).Receive(m).Ok?
  }

  function Arrived(w: World, q: Party, m: Message): World
    requires w.Live() && w.At(q).Receive(m).Ok?
  {
    w.Put(q, w.At(q).Receive(m).value.next, w.At(q).Receive(m).value.secret)
  }

  /** The header codeword arrives: collected, or the object is complete and kept or thrown away. */
  lemma HdrArrives(w: World, q: Party, pk: Packet, m: Message)
    requires Arriving(w, q, pk, m) && w.At(q).NoHeaderReceived?
    ensures var w' := Arrived(w, q, m);
      || Inv(w')
      || (Dirty(w', q) && w'.At(q).NoHeaderReceived? && AddChunk(w.At(q).hdrDec, m) == Ok(w'.At(q).hdrDec))
  {
    hide Inv, State.Receive, State.WellFormed, BraidMachine.AddChunk, Macs, A.KnownState, A.KnownMessage;
    var s := w.At(q);
    var next := s.Receive(m).value.next;
    HdrShape(s, m);
    ReceiveStep(s, m);
    var wc := Cleaned(w, q);
    if next == Clean(s) {
      assert Arrived(w, q, m) == wc;
    } else if next.NoHeaderReceived? {
      A.ReceiveKnown(s, m, Macs(w.h));
      assert Cleaned(Arrived(w, q, m), q) == wc;
    } else {
      HdrAccepted(w, q, pk, m);
      assert Arrived(w, q, m) == wc.Put(q, next, None);
    }
  }

  lemma HdrAccepted(w: World, q: Party, pk: Packet, m: Message)
    requires Arriving(w, q, pk, m) && w.At(q).NoHeaderReceived? && w.At(q).Receive(m).value.next.HeaderReceived?
    ensures Inv(Cleaned(w, q).Put(q, w.At(q).Receive(m).value.next, None))
  {
    hide State.Receive, BraidMachine.AddChunk, Macs, A.KnownState, A.KnownMessage, PacketOk, LogOk, AuthAt, DecoderState.Holds,
         EncoderState.Streams;
    var s := w.At(q);
    HdrShape(s, m);
    A.HeaderMacKnown(s, m, Macs(w.h));
    OnlyItsHeader(w.h, s.ep, s.Receive(m).value.next.header);
    ArriveInv(Cleaned(w, q), pk, s.Receive(m).value.next, None);
  }

  lemma Ct2Arrives(w: World, q: Party, pk: Packet, m: Message)
    requires Arriving(w, q, pk, m) && w.At(q).EkSentCt1Received?
    ensures var w' := Arrived(w, q, m);
      || Inv(w')
      || (Dirty(w', q) && w'.At(q).EkSentCt1Received? && AddChunk(w.At(q).ct2Dec, m) == Ok(w'.At(q).ct2Dec))
  {
    hide Inv, State.Receive, State.WellFormed, BraidMachine.AddChunk, Macs, A.KnownState, A.KnownMessage;
    var s := w.At(q);
    var (next, secret) := (s.Receive(m).value.next, s.Receive(m).value.secret);
    Ct2Shape(s, m);
    ReceiveStep(s, m);
    var wc := Cleaned(w, q);
    if next == Clean(s) {
      assert Arrived(w, q, m) == wc;
    } else if next.EkSentCt1Received? {
      A.ReceiveKnown(s, m, Macs(w.h));
      assert Cleaned(Arrived(w, q, m), q) == wc;
    } else {
      GenuineCt2(w, q, pk, m);
      assert Arrived(w, q, m) == wc.Put(q, next, secret);
    }
  }

  lemma GenuineCt2(w: World, q: Party, pk: Packet, m: Message)
    requires Arriving(w, q, pk, m) && w.At(q).EkSentCt1Received? && w.At(q).Receive(m).value.secret.Some?
    ensures Inv(Cleaned(w, q).Put(q, w.At(q).Receive(m).value.next, w.At(q).Receive(m).value.secret))
  {
    hide State.Receive, BraidMachine.AddChunk, Macs, A.KnownState, A.KnownMessage, PacketOk, LogOk, AuthAt, DecoderState.Holds,
         EncoderState.Streams, SecretAt, Authenticator.Update, Joint;
    var s := w.At(q);
    var (next, secret) := (s.Receive(m).value.next, s.Receive(m).value.secret);
    Ct2Shape(s, m);
    DeliverCounts(Cleaned(w, q), pk);
    A.CiphertextMacKnown(s, m, Macs(w.h));
    var t :| t in Macs(w.h) && t.Mac? && t.use == Ciphertext && t.epoch == s.ep && t.key == next.auth.mac;
    OnlyItsSecret(w.h, s.ep, secret.value.secret, t);
    NewDecoder(HDR_LEN);
    ArriveInv(Cleaned(w, q), pk, next, secret);
  }

  lemma ArrivedEpoch(w: World, q: Party, m: Message)
    requires w.Live() && w.At(q).Receive(m).Ok?
    ensures Arrived(w, q, m).Live() && MinEpoch(Arrived(w, q, m)) >= MinEpoch(w)
  {
    hide State.Receive;
    ReceiveStep(w.At(q), m);
  }

  // ---- lossless exchanges flush it ------------------------------------------------------------------

  /** Words still needed, at worst, until the object is complete and judged. */
  function DirtyNeed(w: World, q: Party): (n: nat)
    requires w.Live() && Collecting(w.At(q), w.At(q.Peer()))
    ensures 1 <= n <= CT2_K
  {
    if w.At(q).NoHeaderReceived? then HdrNeed(w.At(q.Peer()).headerEnc, w.At(q).hdrDec)
    else Ct2Need(w.At(q.Peer()).ct2Enc, w.At(q).ct2Dec)
  }

  lemma HdrReceivable(s: State, m: Message)
    requires s.WellFormed() && s.NoHeaderReceived? && m.chunk.Some?
    requires |m.chunk.value.data| == CHUNK_BYTES && m.chunk.value.index < TotalShards(HDR_LEN)
    ensures s.Receive(m).Ok? && AddChunk(s.hdrDec, m).Ok?
    ensures AddChunk(s.hdrDec, m).value.received.Keys == s.hdrDec.received.Keys + {m.chunk.value.index}
  {
  }

  lemma Ct2Receivable(s: State, m: Message)
    requires s.WellFormed() && s.EkSentCt1Received? && m.chunk.Some?
    requires |m.chunk.value.data| == CHUNK_BYTES && m.chunk.value.index < TotalShards(CT2_MAC_LEN)
    ensures s.Receive(m).Ok? && AddChunk(s.ct2Dec, m).Ok?
    ensures AddChunk(s.ct2Dec, m).value.received.Keys == s.ct2Dec.received.Keys + {m.chunk.value.index}
  {
    AddChunkSized(s.ct2Dec, m, CT2_MAC_LEN);
    MessageLength(AddChunk(s.ct2Dec, m).value);
    hide DecoderState.DataShards, Authenticator.VfyCt;
  }

  /** What the peer of a collecting party sends. */
  predicate Streamed(h: History, p: Party, t: State, out: Sent)
  {
    var m := out.msg;
    && WordOk(h, p, m) && m.chunk.Some? && out.secret.None?
    && if t.KeysSampled? then
         && m.mtype == Hdr && out.next.KeysSampled? && out.next.headerEnc.cursor == t.headerEnc.cursor + 1
         && m.chunk.value.index == t.headerEnc.cursor % TotalShards(HDR_LEN)
       else
         && m.mtype == Ct2Word && t.Ct2Sampled? && out.next.Ct2Sampled? && out.next.ct2Enc.cursor == t.ct2Enc.cursor + 1
         && m.chunk.value.index == t.ct2Enc.cursor % TotalShards(CT2_MAC_LEN)
  }

  lemma StreamsOn(h: History, p: Party, t: State, coins: Term)
    requires t.WellFormed() && LocalOk(h, p, t) && (t.KeysSampled? || t.Ct2Sampled?)
    ensures t.Send(coins).Ok? && Streamed(h, p, t, t.Send(coins).value)
  {
    hide AuthAt, Codewords, Ct2Obj;
    SendLocal(h, p, t, coins);
    if t.KeysSampled? { SendsWord(t.headerEnc, HdrObj(h, t.ep)); } else { SendsWord(t.ct2Enc, Ct2Obj(h, t.ep)); }
  }

  lemma DirtySend(w: World, q: Party, coins: Term)
    requires Dirty(w, q)
    ensures var (p, t) := (q.Peer(), w.At(q.Peer()));
      var (w', out) := (Apply(w, Send(p, coins)), Out(t, coins));
      && Dirty(w', q) && w'.At(q) == w.At(q) && w'.At(p) == out.next && w'.h == w.h
      && Streamed(w.h, p, t, out) && out.msg.epoch == t.ep && Packet(p, out.msg) in w'.net
  {
    hide PacketOk, LogOk, LocalOk, State.Send, State.WellFormed, WordOk, Macs, A.KnownState, Incomplete, Joint;
    var (p, t) := (q.Peer(), w.At(q.Peer()));
    var wc := Cleaned(w, q);
    SendInv(wc, p, coins);
    StreamsOn(w.h, p, t, coins);
    SendStep(t, coins);
    assert Cleaned(Apply(w, Send(p, coins)), q) == Apply(wc, Send(p, coins));
  }

  /** The peer's word arrives: the collecting party is clean again, or needs fewer words. */
  lemma WordHalf(w: World, q: Party, coins: Term)
    requires Dirty(w, q)
    ensures var w' := Half(w, q.Peer(), coins);
      && MinEpoch(w') >= MinEpoch(w)
      && (Inv(w') || (Dirty(w', q) && DirtyNeed(w', q) < DirtyNeed(w, q)))
  {
    hide Inv, WordOk, State.Send, State.Receive, State.WellFormed, Macs, A.KnownState, A.KnownMessage,
         BraidMachine.AddChunk, Need, Cleaned;
    var (p, s, t) := (q.Peer(), w.At(q), w.At(q.Peer()));
    var sent := Apply(w, Send(p, coins));
    var m := Out(t, coins).msg;
    DirtySend(w, q, coins);
    WordShape(w.h, p, m);
    WordKnown(w.h, p, m);
    if s.NoHeaderReceived? {
      HdrReceivable(s, m);
      HdrArrives(sent, q, Packet(p, m), m);
      NeedDrops(t.headerEnc.cursor, s.hdrDec.received.Keys, TotalShards(HDR_LEN), HDR_K);
    } else {
      Ct2Receivable(s, m);
      Ct2Arrives(sent, q, Packet(p, m), m);
      NeedDrops(t.ct2Enc.cursor, s.ct2Dec.received.Keys, TotalShards(CT2_MAC_LEN), CT2_K);
    }
    ArrivedEpoch(sent, q, m);
    assert Half(w, p, coins) == Arrived(sent, q, m);
  }

  lemma WordShape(h: History, p: Party, m: Message)
    requires WordOk(h, p, m) && m.chunk.Some? && (m.mtype == Hdr || m.mtype == Ct2Word)
    ensures |m.chunk.value.data| == CHUNK_BYTES
    ensures m.chunk.value.index < TotalShards(if m.mtype == Hdr then HDR_LEN else CT2_MAC_LEN)
  {
    hide AuthAt;
  }

  /** What the collecting party sends meanwhile changes nothing. */
  lemma IdleHalf(w: World, q: Party, coins: Term)
    requires Dirty(w, q)
    ensures var w' := Half(w, q, coins);
      MinEpoch(w') == MinEpoch(w) && Dirty(w', q) && DirtyNeed(w', q) == DirtyNeed(w, q)
  {
    hide PacketOk, LogOk, LocalOk, State.WellFormed, WordOk, Macs, A.KnownState, Incomplete, Joint, Need;
    var s := w.At(q);
    var wc := Cleaned(w, q);
    SendInv(wc, q, coins);
    assert s.Send(coins) == Ok(Sent(s, IdleMessage(s.ep), None));
    assert Clean(s).Send(coins) == Ok(Sent(Clean(s), IdleMessage(s.ep), None));
    assert w.At(q.Peer()).Receive(IdleMessage(s.ep)) == Ok(Received(w.At(q.Peer()), None));
    assert Cleaned(Half(w, q, coins), q) == Apply(wc, Send(q, coins));
  }

  lemma DirtyExchange(w: World, q: Party, first: Party, c1: Term, c2: Term)
    requires Dirty(w, q)
    ensures var w' := Exchange(w, first, c1, c2);
      && MinEpoch(w') >= MinEpoch(w)
      && (Inv(w') || (Dirty(w', q) && DirtyNeed(w', q) < DirtyNeed(w, q)))
  {
    hide Half, Inv, State.WellFormed, MinEpoch, DirtyNeed, A.KnownState, Cleaned, Incomplete, Macs;
    if first == q {
      IdleHalf(w, q, c1);
      WordHalf(Half(w, q, c1), q, c2);
    } else {
      WordHalf(w, q, c1);
      var mid := Half(w, first, c1);
      if Inv(mid) { HalfKeeps(mid, q, c2); } else { IdleHalf(mid, q, c2); }
    }
  }

  lemma HalfKeeps(w: World, p: Party, coins: Term)
    requires w.Live() && Inv(w)
    ensures Inv(Half(w, p, coins)) && MinEpoch(Half(w, p, coins)) >= MinEpoch(w)
  {
    hide Half, Inv, Joint, Measure, Mover, MinEpoch;
    HalfDrops(w, p, coins);
  }

  lemma MeasureBounded(w: World)
    requires Inv(w)
    ensures Measure(w) <= EPOCH_EXCHANGES
  {
    hide LocalOk, PacketOk, LogOk, State.WellFormed, LevelMeasure;
  }

  lemma {:induction false} FlushAdvances(w: World, q: Party, first: Party, n: nat, coins: nat -> Term)
    requires Dirty(w, q) && n >= DirtyNeed(w, q) + EPOCH_EXCHANGES
    ensures MinEpoch(Exchanges(w, first, n, coins)) > MinEpoch(w)
    decreases n
  {
    hide Exchange, Inv, MinEpoch, Measure, State.WellFormed, DirtyNeed, Cleaned, A.KnownState;
    var next := Exchange(w, first, coins(2 * n), coins(2 * n + 1));
    DirtyExchange(w, q, first, coins(2 * n), coins(2 * n + 1));
    if Inv(next) {
      MeasureBounded(next);
      ExchangesAdvance(next, first, n - 1, coins);
    } else {
      FlushAdvances(next, q, first, n - 1, coins);
    }
  }

  // ---- the altered word arrives -----------------------------------------------------------------------

  /** A word that is not stored: an error, or what the genuine message does. */
  lemma NotStored(s: State, m: Message, bad: Message)
    requires s.WellFormed() && m.chunk.Some? && bad.chunk.Some? && (m.mtype != Idle ==> |m.chunk.value.data| == CHUNK_BYTES)
    requires bad.epoch == m.epoch && bad.mtype == m.mtype && bad.chunk.value.index == m.chunk.value.index
    requires !(m.epoch == s.ep && |bad.chunk.value.data| == CHUNK_BYTES &&
      match m.mtype
      case Hdr => s.NoHeaderReceived?
      case Ct1Word => s.KeysSampled? || (s.HeaderSent? && m.chunk.value.index !in s.ct1Dec.received)
      case Ct2Word => s.Ct1Received? || s.EkSentCt1Received?
      case Ek => s.Ct1Sampled? && m.chunk.value.index !in s.ekDec.received
      case EkCt1Ack => (s.Ct1Sampled? || s.Ct1Acknowledged?) && m.chunk.value.index !in s.ekDec.received
      case Idle => false)
    ensures s.Receive(bad).Err? || s.Receive(bad) == s.Receive(m)
  {
    hide DecoderState.Message, BuildCt2Encoder, Decapsulate, Authenticator.VfyCt, Authenticator.VfyHdr, ValidPublicKey;
  }

  lemma ChunkShape(h: History, p: Party, m: Message)
    requires WordOk(h, p, m) && m.mtype != Idle
    ensures |m.chunk.value.data| == CHUNK_BYTES
  {
    hide AuthAt, Ct2Obj, Ct1Obj;
  }

  /** The last word of a key vector is wrong: the key check refuses it and nothing is stored. */
  lemma LastEkRefused(h: History, q: Party, s: State, m: Message, bad: Message)
    requires s.WellFormed() && LocalOk(h, q, s) && (s.Ct1Sampled? || s.Ct1Acknowledged?) && WordOk(h, q.Peer(), m)
    requires m.epoch == s.ep && (m.mtype == Ek || m.mtype == EkCt1Ack) && (s.Ct1Acknowledged? ==> m.mtype == EkCt1Ack)
    requires bad.chunk.Some? && bad.epoch == m.epoch && bad.mtype == m.mtype && bad.chunk.value.index == m.chunk.value.index
    requires bad.chunk.value.data != m.chunk.value.data && |bad.chunk.value.data| == CHUNK_BYTES
    requires m.chunk.value.index !in s.ekDec.received && |s.ekDec.received| + 1 == DataShardsFor(PK2_LEN)
    ensures s.Receive(bad).Err?
  {
    hide DecoderState.Message, BraidMachine.AddChunk, Wrong, AuthAt, Ct1Obj, DecoderState.Holds, DecoderState.Sized, Codewords,
         EncoderState.Streams, ValidPublicKey, BuildCt2Encoder, Spell;
    var ek := EkObj(h, s.ep);
    VectorShape(h.seeds[s.ep - 1]);
    AddWrong(s.ekDec, bad, ek);
    WrongMessage(AddChunk(s.ekDec, bad).value, ek);
    NotItsKey(h.seeds[s.ep - 1], AddChunk(s.ekDec, bad).value.Message().value.value);
  }

  /** A world is dirty in the weak sense: nothing is wrong yet. */
  lemma AlreadyDirty(w: World, pk: Packet)
    requires w.Live() && Inv(w) && pk in w.net && pk.msg.epoch == w.At(pk.from.Peer()).ep && Incomplete(w.At(pk.from.Peer()))
    requires
      || (pk.msg.mtype == Hdr && w.At(pk.from.Peer()).NoHeaderReceived?)
      || (pk.msg.mtype == Ct2Word && w.At(pk.from.Peer()).EkSentCt1Received?)
    ensures Dirty(w, pk.from.Peer())
  {
    hide LogOk, Codewords, DecoderState.Holds, EncoderState.Streams, AuthAt, IsCodeword, State.WellFormed, Cleaned, Macs, A.KnownState,
         Incomplete;
    var q := pk.from.Peer();
    assert PacketOk(w, pk);
    CleanInv(w, q);
    LocalKnown(w.h, q, w.At(q));
  }

  /** The first word of ct2 is the altered one. */
  lemma FirstCt2Altered(w: World, pk: Packet, bad: Message)
    requires w.Live() && Inv(w) && pk in w.net && pk.msg.epoch == bad.epoch == w.At(pk.from.Peer()).ep
    requires w.At(pk.from.Peer()).Ct1Received? && pk.msg.mtype == bad.mtype == Ct2Word && A.KnownMessage(bad, Macs(w.h))
    requires w.At(pk.from.Peer()).Receive(bad).Ok?
    ensures Dirty(Arrived(w, pk.from.Peer(), bad), pk.from.Peer())
  {
    hide LogOk, Codewords, DecoderState.Holds, EncoderState.Streams, AuthAt, IsCodeword, BraidMachine.AddChunk, Cleaned, Macs, A.KnownState,
         DecoderState.Sized, A.KnownMessage, Ct2Obj, Ct1Obj;
    var q := pk.from.Peer();
    var s := w.At(q);
    assert PacketOk(w, pk);
    FirstWord(CT2_MAC_LEN, bad);
    AddChunkLength(DecoderState.New(CT2_MAC_LEN), bad);
    NewDecoder(CT2_MAC_LEN);
    EmptyHolds(Ct2Obj(w.h, s.ep));
    ReceiveStep(s, bad);
    LocalKnown(w.h, q, s);
    A.ReceiveKnown(s, bad, Macs(w.h));
    var empty := EkSentCt1Received(s.ep, s.auth, s.dk, s.ct1, DecoderState.New(CT2_MAC_LEN));
    ArriveInv(w, pk, empty, None);
    CleanedIs(w, q, s.Receive(bad).value.next, empty);
  }

  lemma AddChunkLength(d: DecoderState, m: Message)
    ensures AddChunk(d, m).Ok? ==> AddChunk(d, m).value.len == d.len
  {
  }

  lemma CleanedIs(w: World, q: Party, s: State, empty: State)
    requires Clean(s) == empty
    ensures Cleaned(w.Put(q, s, None), q) == w.Put(q, empty, None)
  {
  }

  /** Unless the word is stored for the key vector or ct1, the world is right or dirty afterwards. */
  lemma NotSunk(w: World, pk: Packet, data: Bytes)
    requires w.Live() && Inv(w) && IsAltered(w, pk, data) && Incomplete(w.At(pk.from.Peer())) && A.KnownBytes(data, Macs(w.h))
    requires !Sinks(w.At(pk.from.Peer()), Altered(pk, data))
    ensures var w' := Garbled(w, pk, data);
      MinEpoch(w') >= MinEpoch(w) && (Inv(w') || Dirty(w', pk.from.Peer()))
  {
    hide Inv, Dirty, State.Receive, WordOk, LocalOk, Macs, A.KnownBytes, DecoderState.Sized;
    var (q, m, bad) := (pk.from.Peer(), pk.msg, Altered(pk, data));
    var s := w.At(q);
    InvFacts(w, pk);
    ReceiveStep(s, bad);
    if s.Receive(bad).Ok? {
      ArrivedEpoch(w, q, bad);
      if m.epoch == s.ep && m.mtype == Hdr && s.NoHeaderReceived? {
        AlreadyDirty(w, pk);
        ArrivingIs(w, q, pk, bad);
        HdrArrives(w, q, pk, bad);
      } else if m.epoch == s.ep && m.mtype == Ct2Word && s.EkSentCt1Received? {
        AlreadyDirty(w, pk);
        ArrivingIs(w, q, pk, bad);
        Ct2Arrives(w, q, pk, bad);
      } else if m.epoch == s.ep && m.mtype == Ct2Word && s.Ct1Received? {
        FirstCt2Altered(w, pk, bad);
      } else {
        QuietlyIgnored(w, pk, data);
      }
    }
  }

  lemma ArrivingIs(w: World, q: Party, pk: Packet, m: Message)
    requires Dirty(w, q) && pk in w.net && pk.from == q.Peer() && pk.msg.epoch == m.epoch == w.At(q).ep && pk.msg.mtype == m.mtype
    requires m.mtype == (if w.At(q).NoHeaderReceived? then Hdr else Ct2Word)
    requires A.KnownMessage(m, Macs(w.h)) && w.At(q).Receive(m).Ok?
    ensures Arriving(w, q, pk, m)
  {
    hide Dirty, State.Receive, Macs;
  }

  lemma InvFacts(w: World, pk: Packet)
    requires Inv(w) && pk in w.net
    ensures w.Live() && WordOk(w.h, pk.from, pk.msg) && LocalOk(w.h, pk.from.Peer(), w.At(pk.from.Peer()))
  {
    hide WordOk, LocalOk, Joint, LogOk, State.WellFormed;
    assert PacketOk(w, pk);
  }

  lemma QuietlyIgnored(w: World, pk: Packet, data: Bytes)
    requires w.Live() && Inv(w) && IsAltered(w, pk, data) && Incomplete(w.At(pk.from.Peer()))
    requires !Sinks(w.At(pk.from.Peer()), Altered(pk, data)) && w.At(pk.from.Peer()).Receive(Altered(pk, data)).Ok?
    requires var s := w.At(pk.from.Peer());
      pk.msg.epoch == s.ep ==>
        !(pk.msg.mtype == Hdr && s.NoHeaderReceived?) && !(pk.msg.mtype == Ct2Word && (s.EkSentCt1Received? || s.Ct1Received?))
    ensures Inv(Garbled(w, pk, data))
  {
    hide Inv, State.Receive, WordOk, LocalOk, DecoderState.Sized;
    var (q, m, bad) := (pk.from.Peer(), pk.msg, Altered(pk, data));
    var s := w.At(q);
    InvFacts(w, pk);
    if m.mtype != Idle { ChunkShape(w.h, pk.from, m); }
    if m.epoch == s.ep && |data| == CHUNK_BYTES && (s.Ct1Sampled? || s.Ct1Acknowledged?) && m.chunk.value.index !in s.ekDec.received
       && (m.mtype == EkCt1Ack || (m.mtype == Ek && s.Ct1Sampled?))
    {
      LastEkRefused(w.h, q, s, m, bad);
    } else {
      NotStored(s, m, bad);
      DeliverInv(w, pk);
    }
  }

  // ---- main results -----------------------------------------------------------------------------------

  /** Exchanges that get past the epoch again: those of a clean epoch, and those that flush a ct2. */
  const RECOVERY_EXCHANGES := EPOCH_EXCHANGES + CT2_K

  lemma Recovers(w: World, pk: Packet, data: Bytes, first: Party, coins: nat -> Term)
    requires w.Live() && Inv(w) && IsAltered(w, pk, data) && Incomplete(w.At(pk.from.Peer())) && A.KnownBytes(data, Macs(w.h))
    requires !Sinks(w.At(pk.from.Peer()), Altered(pk, data))
    ensures MinEpoch(Exchanges(Garbled(w, pk, data), first, RECOVERY_EXCHANGES, coins)) > MinEpoch(w)
  {
    hide Inv, Dirty, Garbled, Exchanges, MinEpoch, Measure, DirtyNeed, State.WellFormed, A.KnownBytes;
    NotSunk(w, pk, data);
    var w' := Garbled(w, pk, data);
    if Inv(w') {
      MeasureBounded(w');
      ExchangesAdvance(w', first, RECOVERY_EXCHANGES, coins);
    } else {
      DirtyKind(w', pk.from.Peer());
      FlushAdvances(w', pk.from.Peer(), first, RECOVERY_EXCHANGES, coins);
    }
  }

  lemma DirtyKind(w: World, q: Party)
    requires Dirty(w, q)
    ensures w.Live() && Collecting(w.At(q), w.At(q.Peer()))
  {
    hide Inv;
  }

  lemma {:induction false} FromSplit(w: World, x: seq<Step>, y: seq<Step>)
    requires w.Live()
    ensures From(w, x + y) == From(From(w, x), y)
  {
    hide Apply;
    if y == [] {
      assert x + y == x;
    } else {
      assert (x + y)[..|x + y| - 1] == x + y[..|y| - 1];
      FromSplit(w, x, y[..|y| - 1]);
    }
  }

  lemma HalfSteps(w: World, p: Party, coins: Term) returns (steps: seq<Step>)
    requires w.Live()
    ensures From(w, steps) == Half(w, p, coins)
  {
    hide Apply;
    SendStep(w.At(p), coins);
    steps := [Send(p, coins), Deliver(Packet(p, w.At(p).Send(coins).value.msg))];
    assert steps[..1] == [Send(p, coins)] && steps[..1][..0] == [];
    assert From(w, steps[..1]) == Apply(w, Send(p, coins));
  }

  lemma {:induction false} ExchangeSteps(w: World, first: Party, n: nat, coins: nat -> Term) returns (steps: seq<Step>)
    requires w.Live()
    ensures From(w, steps) == Exchanges(w, first, n, coins)
    decreases n
  {
    hide Half, From, Apply;
    if n == 0 {
      steps := [];
      NoSteps(w);
    } else {
      var x := HalfSteps(w, first, coins(2 * n));
      var mid := From(w, x);
      var y := HalfSteps(mid, first.Peer(), coins(2 * n + 1));
      var z := ExchangeSteps(From(mid, y), first, n - 1, coins);
      FromSplit(w, x, y);
      FromSplit(w, x + y, z);
      steps := x + y + z;
    }
  }

  lemma NoSteps(w: World)
    requires w.Live()
    ensures From(w, []) == w
  {
  }

  /**
   One codeword altered on the way to its receiver, in any run, without forging a MAC. The
   parties can still get past their epoch exactly if the receiver does not store the word
   for the key vector or for ct1; then 80 lossless exchanges are enough, and otherwise no
   sequence of sends and deliveries is.
   */
  lemma OneBadWord(root: Term, trace: seq<Step>, pk: Packet, data: Bytes, first: Party, coins: nat -> Term)
    requires IsAltered(Run(root, trace), pk, data) && A.KnownBytes(data, Macs(Run(root, trace).h))
    ensures RECOVERY_EXCHANGES == 80
    ensures var w := Run(root, trace);
      var (sinks, w') := (Sinks(w.At(pk.from.Peer()), Altered(pk, data)), Garbled(w, pk, data));
      && (!sinks <==> exists steps :: MinEpoch(From(w', steps)) > MinEpoch(w))
      && (!sinks ==> MinEpoch(Exchanges(w', first, RECOVERY_EXCHANGES, coins)) > MinEpoch(w))
  {
    hide Run, Inv, Garbled, From, Exchanges, Sinks, A.KnownBytes, Macs, State.WellFormed;
    var w := Run(root, trace);
    RunInv(root, trace);
    RunIncomplete(root, trace);
    var w' := Garbled(w, pk, data);
    if Sinks(w.At(pk.from.Peer()), Altered(pk, data)) {
      forall steps ensures MinEpoch(From(w', steps)) <= MinEpoch(w) { GarbledSinks(w, pk, data, steps); }
    } else {
      Recovers(w, pk, data, first, coins);
      var steps := ExchangeSteps(w', first, RECOVERY_EXCHANGES, coins);
      assert MinEpoch(From(w', steps)) > MinEpoch(w);
    }
  }

  // ---- such a run --------------------------------------------------------------------------------------

  /** Headers sent so far have arrived at the responder. */
  ghost predicate Opening(w: World, n: nat)
  {
    && w.Live() && Inv(w) && w.a.ep == w.b.ep == 1
    && ((n == 0 && w.a.KeysUnsampled?) || (w.a.KeysSampled? && w.a.headerEnc.cursor == n))
    && (w.b.HeaderReceived? || (w.b.NoHeaderReceived? && w.b.hdrDec.received.Keys == Below(n) && n < HDR_K))
  }

  lemma HeaderOut(h: History, o: State, n: nat, coins: Term)
    requires o.WellFormed() && LocalOk(h, Alice, o) && n < HDR_K
    requires ((n == 0 && o.KeysUnsampled?) || (o.KeysSampled? && o.headerEnc.cursor == n))
    ensures var out := Out(o, coins);
      && out.next.KeysSampled? && out.next.ep == o.ep && out.next.headerEnc.cursor == n + 1
      && out.msg.epoch == o.ep && out.msg.mtype == Hdr && out.msg.chunk.Some? && out.msg.chunk.value.index == n
      && WordOk(Record(h, o, coins), Alice, out.msg)
  {
    hide DecoderState.Holds, DecoderState.Message, Codewords, AuthAt;
    var h' := Record(h, o, coins);
    SendLocal(h, Alice, o, coins);
    var enc := if o.KeysSampled? then o.headerEnc else EncoderState(Codewords(HdrObj(h', o.ep)), 0);
    SendsWord(enc, HdrObj(h', o.ep));
  }

  lemma HeaderIn(h: History, s: State, n: nat, m: Message)
    requires s.WellFormed() && LocalOk(h, Bob, s) && s.NoHeaderReceived? && s.hdrDec.received.Keys == Below(n) && n < HDR_K
    requires m.epoch == s.ep && m.mtype == Hdr && WordOk(h, Alice, m) && m.chunk.Some? && m.chunk.value.index == n
    ensures var s' := In(s, m);
      && s'.WellFormed() && s'.ep == s.ep
      && (s'.HeaderReceived? || (s'.NoHeaderReceived? && s'.hdrDec.received.Keys == Below(n + 1) && n + 1 < HDR_K))
  {
    hide State.Receive, LocalOk, WordOk, State.WellFormed, Rank, Kept;
    ReceiveNoHeaderReceived(h, Bob, s, m);
    ReceiveMoves(s, m);
    assert Below(n + 1) == Below(n) + {n};
  }

  lemma OpeningHalf(w: World, n: nat, coins: Term)
    requires Opening(w, n) && n < HDR_K
    ensures Opening(Half(w, Alice, coins), n + 1)
  {
    hide State.Send, State.Receive, LocalOk, State.WellFormed, Inv, Half, WordOk, In, Out, Below;
    HalfIs(w, Alice, coins);
    PairFacing(w, Alice, coins);
    HeaderOut(w.h, w.a, n, coins);
    var m := Out(w.a, coins).msg;
    if w.b.NoHeaderReceived? { HeaderIn(Record(w.h, w.a, coins), w.b, n, m); } else { HeaderIgnored(w.b, m); }
  }

  lemma HeaderIgnored(s: State, m: Message)
    requires s.WellFormed() && s.HeaderReceived?
    ensures In(s, m) == s
  {
  }

  lemma InitOpening(root: Term)
    ensures Opening(Init(root), 0)
  {
    hide Inv;
    InitInv(root);
  }

  lemma {:induction false} RunIsFrom(root: Term, trace: seq<Step>)
    ensures Run(root, trace) == From(Init(root), trace)
  {
    hide Apply;
    if trace != [] { RunIsFrom(root, trace[..|trace| - 1]); }
  }

  lemma FirstCt1Sent(w: World, coins: Term)
    requires w.Live() && Opening(w, HDR_K)
    ensures var (w', m) := (Apply(w, Send(Bob, coins)), Out(w.b, coins).msg);
      Packet(Bob, m) in w'.net && m.epoch == 1 && m.mtype == Ct1Word && m.chunk.Some? && w'.a.KeysSampled? && w'.a.ep == 1
  {
    hide Inv, Codewords, DecoderState.Sized;
  }

  lemma OpeningSteps(w: World, n: nat, coins: Term) returns (steps: seq<Step>)
    requires w.Live() && Opening(w, n) && n <= HDR_K
    ensures Opening(From(w, steps), HDR_K)
    decreases HDR_K - n
  {
    hide Opening, Half, Apply;
    steps := [];
    if n < HDR_K {
      var x := HalfSteps(w, Alice, coins);
      OpeningHalf(w, n, coins);
      var y := OpeningSteps(From(w, x), n + 1, coins);
      FromSplit(w, x, y);
      steps := x + y;
    }
  }

  /** An honest run to the first word of ct1; altering that word leaves the session in its first epoch for good. */
  lemma FirstCt1WordSinks(root: Term, seed: Term, coins: Term, data: Bytes, more: seq<Step>) returns (trace: seq<Step>, pk: Packet)
    requires |data| == CHUNK_BYTES
    ensures var w := Run(root, trace);
      && pk in w.net && pk.msg.chunk.Some? && Sinks(w.a, Altered(pk, data))
      && (data != pk.msg.chunk.value.data ==> MinEpoch(From(Garbled(w, pk, data), more)) == 1)
  {
    hide Run, From, Garbled, Opening, Inv, Apply;
    InitOpening(root);
    var steps := OpeningSteps(Init(root), 0, seed);
    var w := From(Init(root), steps);
    FirstCt1Sent(w, coins);
    trace := steps + [Send(Bob, coins)];
    pk := Packet(Bob, Out(w.b, coins).msg);
    OneMore(Init(root), steps, Send(Bob, coins));
    RunIsFrom(root, trace);
    RunInv(root, trace);
    RunIncomplete(root, trace);
    if data != pk.msg.chunk.value.data { GarbledSinks(Run(root, trace), pk, data, more); }
  }

  lemma OneMore(w: World, steps: seq<Step>, step: Step)
    requires w.Live()
    ensures From(w, steps + [step]) == Apply(From(w, steps), step)
  {
    hide Apply;
    assert (steps + [step])[..|steps + [step]| - 1] == steps;
  }
}
