/**
 Progress of the braid: from any reachable joint state, whatever was lost before, a
 lossless exchange of messages moves both parties into the next epoch.
 */
module BraidProgress {
  import opened Common
  import opened Symbolic
  import opened Erasure
  import opened BraidMachine
  import opened BraidNetwork

  // Data shards of the four streamed objects: 3, 30, 36 and 5.
  const HDR_K := 3
  const CT1_K := 30
  const EK_K := 36
  const CT2_K := 5

  /** One message sent by `p` and delivered at once. */
  function Half(w: World, p: Party, coins: Term): (w': World)
    requires w.Live()
    ensures w'.Live()
  {
    SendStep(w.At(p), coins);
    var sent := Apply(w, Send(p, coins));
    Apply(sent, Deliver(Packet(p, w.At(p).Send(coins).value.msg)))
  }

  // ---- how much of a stream has just arrived ---------------------------------------------

  /** How many of the last codewords emitted (at most `bound`) the receiver holds. */
  function Streak(cursor: nat, keys: set<nat>, t: nat, bound: nat): (n: nat)
    requires t > 0
    ensures n <= bound && n <= cursor
  {
    if bound == 0 || cursor == 0 || (cursor - 1) % t !in keys then 0
    else 1 + Streak(cursor - 1, keys, t, bound - 1)
  }

  lemma {:induction false} StreakMonotone(c: nat, keys: set<nat>, more: set<nat>, t: nat, bound: nat, less: nat)
    requires t > 0 && keys <= more && less <= bound
    ensures Streak(c, more, t, less) >= if Streak(c, keys, t, bound) <= less then Streak(c, keys, t, bound) else less
    decreases bound
  {
    if less > 0 && c > 0 && (c - 1) % t in keys {
      StreakMonotone(c - 1, keys, more, t, bound - 1, less - 1);
    }
  }

  lemma {:induction false} StreakHeld(c: nat, keys: set<nat>, t: nat, bound: nat, i: nat)
    requires t > 0 && i < Streak(c, keys, t, bound)
    ensures c - 1 - i >= 0 && (c - 1 - i) % t in keys
    decreases i
  {
    if i > 0 { StreakHeld(c - 1, keys, t, bound - 1, i - 1); }
  }

  function Wrapped(base: nat, i: nat, t: nat): nat
    requires t > 0
  {
    (base + i) % t
  }

  lemma WrappedCard(base: nat, n: nat, keys: set<nat>, t: nat)
    requires n <= t && t > 0
    requires forall i: nat :: i < n ==> Wrapped(base, i, t) in keys
    ensures n <= |keys|
  {
    forall i: nat, j: nat | i < n && j < n && Wrapped(base, i, t) == Wrapped(base, j, t) ensures i == j {
      ModDistinct(base, i, j, t);
    }
    SurvivingSlots(n, {}, keys, (i: nat) => Wrapped(base, i, t));
  }

  /** Consecutive codewords are distinct, so a streak is never longer than what is held. */
  lemma StreakCard(c: nat, keys: set<nat>, t: nat, bound: nat)
    requires 0 < bound <= t
    ensures Streak(c, keys, t, bound) <= |keys|
  {
    var n := Streak(c, keys, t, bound);
    var base: nat := c - n;
    forall i: nat | i < n ensures Wrapped(base, i, t) in keys {
      StreakHeld(c, keys, t, bound, n - 1 - i);
      assert c - 1 - (n - 1 - i) == base + i;
    }
    WrappedCard(base, n, keys, t);
  }

  /** Deliveries still needed, at worst, to complete an object of k data shards. */
  function Need(cursor: nat, keys: set<nat>, t: nat, k: nat): (n: nat)
    requires t > 0 && k > 0
    ensures 1 <= n <= k
  {
    var s := Streak(cursor, keys, t, k);
    if s < k then k - s else 1
  }

  /** Delivering the next codeword completes the object or lowers the need. */
  lemma NeedDrops(cursor: nat, keys: set<nat>, t: nat, k: nat)
    requires 1 < k <= t
    ensures |keys + {cursor % t}| < k ==> Need(cursor + 1, keys + {cursor % t}, t, k) < Need(cursor, keys, t, k)
    ensures Need(cursor + 1, keys + {cursor % t}, t, k) < k
  {
    var more := keys + {cursor % t};
    assert Streak(cursor + 1, more, t, k) == 1 + Streak(cursor, more, t, k - 1);
    StreakMonotone(cursor, keys, more, t, k, k - 1);
    StreakCard(cursor + 1, more, t, k);
  }

  // ---- the measure -----------------------------------------------------------------------

  function HdrNeed(enc: EncoderState, dec: DecoderState): (n: nat)
    ensures 1 <= n <= HDR_K
  {
    Need(enc.cursor, dec.received.Keys, TotalShards(HDR_LEN), HDR_K)
  }

  function Ct1Need(enc: EncoderState, dec: DecoderState): (n: nat)
    ensures 1 <= n <= CT1_K
  {
    Need(enc.cursor, dec.received.Keys, TotalShards(CT1_LEN), CT1_K)
  }

  function EkNeed(enc: EncoderState, dec: DecoderState): (n: nat)
    ensures 1 <= n <= EK_K
  {
    Need(enc.cursor, dec.received.Keys, TotalShards(PK2_LEN), EK_K)
  }

  function Ct2Need(enc: EncoderState, dec: DecoderState): (n: nat)
    ensures 1 <= n <= CT2_K
  {
    Need(enc.cursor, dec.received.Keys, TotalShards(CT2_MAC_LEN), CT2_K)
  }

  /** Exchanges still needed when key owner `o` faces encapsulator `s` in the same epoch. */
  function LevelMeasure(o: State, s: State): (n: nat)
    requires Compatible(o, s)
    ensures 1 < n <= HDR_K + CT1_K + EK_K + CT2_K + 1
  {
    match o
    case KeysUnsampled(_, _) => HDR_K + CT1_K + EK_K + CT2_K + 1
    case KeysSampled(_, _, _, _, enc) =>
      (if s.NoHeaderReceived? then HdrNeed(enc, s.hdrDec) else 0) + CT1_K + EK_K + CT2_K + 1
    case HeaderSent(_, _, _, dec, _) => Ct1Need(s.ct1Enc, dec) + EK_K + CT2_K + 1
    case Ct1Received(_, _, _, _, enc) =>
      if s.Ct1Sampled? then EK_K + CT2_K + 1
      else if s.Ct1Acknowledged? then EkNeed(enc, s.ekDec) + CT2_K + 1
      else if s.EkReceivedCt1Sampled? then CT2_K + 2
      else CT2_K + 1
    case EkSentCt1Received(_, _, _, _, dec) => Ct2Need(s.ct2Enc, dec) + 1
  }

  /** Whose message brings the pair forward: the key owner's, or the encapsulator's. */
  predicate OwnerMoves(o: State, s: State)
  {
    s.NoHeaderReceived? || (o.Ct1Received? && !s.Ct2Sampled?)
  }

  function MinEpoch(w: World): nat
    requires w.Live()
  {
    if w.a.ep <= w.b.ep then w.a.ep else w.b.ep
  }

  function Measure(w: World): nat
    requires w.Live() && Joint(w)
  {
    if w.a.ep == w.b.ep then LevelMeasure(w.At(Owner(w.a.ep)), w.At(Owner(w.a.ep).Peer())) else 1
  }

  function Mover(w: World): Party
    requires w.Live() && Joint(w)
  {
    if w.a.ep == w.b.ep then
      if OwnerMoves(w.At(Owner(w.a.ep)), w.At(Owner(w.a.ep).Peer())) then Owner(w.a.ep) else Owner(w.a.ep).Peer()
    else if w.a.ep > w.b.ep then Alice else Bob
  }

  // ---- one message ------------------------------------------------------------------------

  /** A message of `s` received by `t`, both in their epoch's correct states. */
  predicate Facing(h: History, p: Party, s: State, t: State, coins: Term)
  {
    && s.WellFormed() && t.WellFormed() && s.ep == t.ep
    && LocalOk(h, p, s) && LocalOk(Record(h, s, coins), p.Peer(), t)
    && (t.EkSentCt1Received? ==> |h.seeds| == |h.coins| == t.ep)
  }

  function Out(s: State, coins: Term): Sent
    requires s.WellFormed()
  {
    SendStep(s, coins);
    s.Send(coins).value
  }

  function In(t: State, m: Message): State
    requires t.WellFormed()
  {
    var r := t.Receive(m);
    if r.Ok? then r.value.next else t
  }

  lemma SendsWord(e: EncoderState, data: Bytes)
    requires e.Streams(data)
    ensures var (e', c) := e.NextChunk();
      e'.cursor == e.cursor + 1 && c.index == e.cursor % TotalShards(|data|)
  {
    NextChunkStreams(e, data);
  }

  lemma HeaderWord(h: History, p: Party, o: State, s: State, coins: Term)
    requires Facing(h, p, o, s, coins) && (o.KeysUnsampled? || o.KeysSampled?) && s.NoHeaderReceived?
    ensures var out := Out(o, coins); var s' := In(s, out.msg);
      && Compatible(out.next, s') && LevelMeasure(out.next, s') < LevelMeasure(o, s)
  {
    hide DecoderState.Message, DecoderState.Holds, DecoderState.Sized, IsCodeword, Codewords, AuthFold, Need,
         Secrets, AuthAt, Spell;
    var h' := Record(h, o, coins);
    SendLocal(h, p, o, coins);
    var out := Out(o, coins);
    var enc := if o.KeysSampled? then o.headerEnc else EncoderState(Codewords(HdrObj(h', o.ep)), 0);
    SendsWord(enc, HdrObj(h', o.ep));
    ReceiveNoHeaderReceived(h', p.Peer(), s, out.msg);
    NeedDrops(enc.cursor, s.hdrDec.received.Keys, TotalShards(HDR_LEN), HDR_K);
  }

  /** The key owner's next word of the key vector. */
  lemma EkOut(h: History, p: Party, o: State, coins: Term)
    requires o.WellFormed() && LocalOk(h, p, o) && (o.HeaderSent? || o.Ct1Received?)
    ensures var out := Out(o, coins);
      && out.next.HeaderSent? == o.HeaderSent? && (out.next.HeaderSent? || out.next.Ct1Received?)
      && (o.HeaderSent? ==> out.next.ct1Dec == o.ct1Dec) && out.next.ekEnc.cursor == o.ekEnc.cursor + 1
      && out.msg.epoch == o.ep && out.msg.mtype == (if o.HeaderSent? then Ek else EkCt1Ack) && out.msg.chunk.Some?
      && out.msg.chunk.value.index == o.ekEnc.cursor % TotalShards(PK2_LEN) && WordOk(h, p, out.msg)
  {
    hide DecoderState.Message, DecoderState.Holds, DecoderState.Sized, IsCodeword, Codewords, AuthAt, Ct1Obj;
    SendLocal(h, p, o, coins);
    SendsWord(o.ekEnc, EkObj(h, o.ep));
  }

  lemma EkWord(h: History, p: Party, o: State, s: State, coins: Term)
    requires Facing(h, p, o, s, coins) && o.Ct1Received?
    requires s.Ct1Sampled? || s.Ct1Acknowledged? || s.EkReceivedCt1Sampled?
    ensures var out := Out(o, coins); var s' := In(s, out.msg);
      && Compatible(out.next, s') && LevelMeasure(out.next, s') < LevelMeasure(o, s)
  {
    hide State.Send, State.Receive, LocalOk, WordOk, State.WellFormed, Need, Rank, Kept, Out;
    EkOut(h, p, o, coins);
    var m := Out(o, coins).msg;
    if s.EkReceivedCt1Sampled? {
      ReceiveEkReceivedCt1Sampled(h, p.Peer(), s, m);
    } else {
      if s.Ct1Sampled? { ReceiveCt1Sampled(h, p.Peer(), s, m); } else { ReceiveCt1Acknowledged(h, p.Peer(), s, m); }
      NeedDrops(o.ekEnc.cursor, s.ekDec.received.Keys, TotalShards(PK2_LEN), EK_K);
    }
  }

  function Ct1Cursor(s: State): nat
    requires s.HeaderReceived? || s.Ct1Sampled? || s.EkReceivedCt1Sampled?
  {
    if s.HeaderReceived? then 0 else s.ct1Enc.cursor
  }

  /** The encapsulator's next word of ct1. */
  lemma Ct1Out(h: History, p: Party, s: State, coins: Term)
    requires s.WellFormed() && LocalOk(h, p, s) && (s.HeaderReceived? || s.Ct1Sampled? || s.EkReceivedCt1Sampled?)
    ensures var out := Out(s, coins);
      && out.next.EkReceivedCt1Sampled? == s.EkReceivedCt1Sampled? && (out.next.Ct1Sampled? || out.next.EkReceivedCt1Sampled?)
      && out.next.ct1Enc.cursor == Ct1Cursor(s) + 1
      && out.msg.epoch == s.ep && out.msg.mtype == Ct1Word && out.msg.chunk.Some?
      && out.msg.chunk.value.index == Ct1Cursor(s) % TotalShards(CT1_LEN) && WordOk(Record(h, s, coins), p, out.msg)
  {
    hide DecoderState.Message, DecoderState.Holds, DecoderState.Sized, IsCodeword, Codewords, AuthAt, Spell;
    var h' := Record(h, s, coins);
    SendLocal(h, p, s, coins);
    var enc := if s.HeaderReceived? then EncoderState(Codewords(Ct1Obj(h', s.ep)), 0) else s.ct1Enc;
    SendsWord(enc, Ct1Obj(h', s.ep));
  }

  lemma FirstCt1In(o: State, m: Message)
    requires o.WellFormed() && o.KeysSampled? && m.epoch == o.ep && m.mtype == Ct1Word && o.Receive(m).Ok?
    ensures var o' := o.Receive(m).value.next;
      m.chunk.Some? && o'.HeaderSent? && o'.ct1Dec.received.Keys == {} + {m.chunk.value.index}
  {
    hide Codewords;
  }

  lemma FirstCt1Word(h: History, p: Party, s: State, o: State, coins: Term)
    requires Facing(h, p, s, o, coins) && o.KeysSampled? && (s.HeaderReceived? || s.Ct1Sampled?)
    ensures var out := Out(s, coins); var o' := In(o, out.msg);
      && Compatible(o', out.next) && LevelMeasure(o', out.next) < LevelMeasure(o, s)
  {
    hide State.Send, State.Receive, LocalOk, WordOk, State.WellFormed, Need, Rank, Kept, Out;
    Ct1Out(h, p, s, coins);
    var m := Out(s, coins).msg;
    ReceiveKeysSampled(Record(h, s, coins), p.Peer(), o, m);
    FirstCt1In(o, m);
    NeedDrops(Ct1Cursor(s), {}, TotalShards(CT1_LEN), CT1_K);
  }

  lemma NextCt1Word(h: History, p: Party, s: State, o: State, coins: Term)
    requires Facing(h, p, s, o, coins) && o.HeaderSent? && (s.Ct1Sampled? || s.EkReceivedCt1Sampled?)
    ensures var out := Out(s, coins); var o' := In(o, out.msg);
      && Compatible(o', out.next) && LevelMeasure(o', out.next) < LevelMeasure(o, s)
  {
    hide State.Send, State.Receive, LocalOk, WordOk, State.WellFormed, Need, Rank, Kept, Out;
    Ct1Out(h, p, s, coins);
    var m := Out(s, coins).msg;
    ReceiveHeaderSent(h, p.Peer(), o, m);
    NeedDrops(s.ct1Enc.cursor, o.ct1Dec.received.Keys, TotalShards(CT1_LEN), CT1_K);
  }

  /** The encapsulator's next word of ct2. */
  lemma Ct2Out(h: History, p: Party, s: State, coins: Term)
    requires s.WellFormed() && LocalOk(h, p, s) && s.Ct2Sampled?
    ensures var out := Out(s, coins);
      && out.next.Ct2Sampled? && out.next.ct2Enc.cursor == s.ct2Enc.cursor + 1
      && out.msg.epoch == s.ep && out.msg.mtype == Ct2Word && out.msg.chunk.Some?
      && out.msg.chunk.value.index == s.ct2Enc.cursor % TotalShards(CT2_MAC_LEN) && WordOk(h, p, out.msg)
  {
    hide DecoderState.Message, IsCodeword, Codewords, AuthAt, Spell, Ct2Obj;
    SendLocal(h, p, s, coins);
    SendsWord(s.ct2Enc, Ct2Obj(h, s.ep));
  }

  lemma FirstCt2In(o: State, m: Message)
    requires o.WellFormed() && o.Ct1Received? && m.epoch == o.ep && m.mtype == Ct2Word && o.Receive(m).Ok?
    ensures var o' := o.Receive(m).value.next;
      m.chunk.Some? && o'.EkSentCt1Received? && o'.ct2Dec.received.Keys == {} + {m.chunk.value.index}
  {
    hide Codewords;
  }

  lemma FirstCt2Word(h: History, p: Party, s: State, o: State, coins: Term)
    requires Facing(h, p, s, o, coins) && s.Ct2Sampled? && o.Ct1Received?
    ensures var out := Out(s, coins); var o' := In(o, out.msg);
      Compatible(o', out.next) && LevelMeasure(o', out.next) < LevelMeasure(o, s)
  {
    hide State.Send, State.Receive, LocalOk, WordOk, State.WellFormed, Need, Rank, Kept, Out;
    Ct2Out(h, p, s, coins);
    var m := Out(s, coins).msg;
    ReceiveCt1Received(h, p.Peer(), o, m);
    FirstCt2In(o, m);
    NeedDrops(s.ct2Enc.cursor, {}, TotalShards(CT2_MAC_LEN), CT2_K);
  }

  lemma NextCt2Word(h: History, p: Party, s: State, o: State, coins: Term)
    requires Facing(h, p, s, o, coins) && s.Ct2Sampled? && o.EkSentCt1Received?
    ensures var out := Out(s, coins); var o' := In(o, out.msg);
      || o'.NoHeaderReceived?
      || (Compatible(o', out.next) && LevelMeasure(o', out.next) < LevelMeasure(o, s))
  {
    hide State.Send, State.Receive, LocalOk, WordOk, State.WellFormed, Need, Rank, Kept, Out;
    Ct2Out(h, p, s, coins);
    var m := Out(s, coins).msg;
    ReceiveEkSentCt1Received(h, p.Peer(), o, m);
    NeedDrops(s.ct2Enc.cursor, o.ct2Dec.received.Keys, TotalShards(CT2_MAC_LEN), CT2_K);
  }

  /** A message of the party whose turn it is not leaves the measure and the turn alone. */
  lemma OwnerBystander(h: History, p: Party, o: State, s: State, coins: Term)
    requires Facing(h, p, o, s, coins) && Compatible(o, s) && !OwnerMoves(o, s)
    ensures var out := Out(o, coins); var s' := In(s, out.msg);
      && Compatible(out.next, s') && LevelMeasure(out.next, s') == LevelMeasure(o, s) && !OwnerMoves(out.next, s')
  {
    hide LocalOk, WordOk, Need, Rank, Kept, Codewords, DecoderState.Message;
    if o.HeaderSent? {
      WhileCt1Collects(h, p, o, s, coins);
    }
  }

  lemma WhileCt1Collects(h: History, p: Party, o: State, s: State, coins: Term)
    requires Facing(h, p, o, s, coins) && o.HeaderSent? && (s.Ct1Sampled? || s.EkReceivedCt1Sampled?)
    ensures var out := Out(o, coins); var s' := In(s, out.msg);
      && out.next.HeaderSent? && out.next.ct1Dec == o.ct1Dec && (s'.Ct1Sampled? || s'.EkReceivedCt1Sampled?)
      && s'.ct1Enc == s.ct1Enc
  {
    hide State.Send, LocalOk, WordOk, Need, Rank, Kept, Codewords, DecoderState.Message, Out, ValidPublicKey, BuildCt2Encoder;
    EkOut(h, p, o, coins);
    if s.Ct1Sampled? { ReceiveCt1Sampled(h, p.Peer(), s, Out(o, coins).msg); }
  }

  lemma EncapsulatorBystander(h: History, p: Party, s: State, o: State, coins: Term)
    requires Facing(h, p, s, o, coins) && Compatible(o, s) && OwnerMoves(o, s)
    ensures var out := Out(s, coins); var o' := In(o, out.msg);
      && Compatible(o', out.next) && LevelMeasure(o', out.next) == LevelMeasure(o, s) && OwnerMoves(o', out.next)
  {
    hide DecoderState.Message, DecoderState.Holds, DecoderState.Sized, IsCodeword, Codewords, AuthFold, Need,
         Secrets, AuthAt, Spell;
    SendLocal(h, p, s, coins);
  }

  // ---- one exchange -----------------------------------------------------------------------

  lemma HalfIs(w: World, p: Party, coins: Term)
    requires Inv(w)
    ensures var w', out := Half(w, p, coins), Out(w.At(p), coins);
      && Inv(w') && w'.At(p) == out.next && w'.At(p.Peer()) == In(w.At(p.Peer()), out.msg)
  {
    hide State.Send, State.Receive, State.WellFormed, LocalOk, Joint, PacketOk, LogOk;
    var sent := Apply(w, Send(p, coins));
    SendInv(w, p, coins);
    DeliverInv(sent, Packet(p, Out(w.At(p), coins).msg));
  }

  lemma PairFacing(w: World, p: Party, coins: Term)
    requires Inv(w) && w.a.ep == w.b.ep
    ensures Facing(w.h, p, w.At(p), w.At(p.Peer()), coins)
  {
    hide DecoderState.Holds, DecoderState.Sized, Codewords, AuthFold, IsCodeword;
    BystanderOk(w, p, coins);
  }

  /** The mover's message lowers the measure; the other party's keeps measure and turn. */
  predicate Drops(w: World, p: Party, w': World)
    requires w.Live() && Joint(w) && w'.Live() && Joint(w')
  {
    && MinEpoch(w') >= MinEpoch(w)
    && if Mover(w) == p then MinEpoch(w') > MinEpoch(w) || Measure(w') < Measure(w)
       else Measure(w') == Measure(w) && Mover(w') == Mover(w)
  }

  lemma OwnerHalf(w: World, p: Party, coins: Term)
    requires Inv(w) && w.a.ep == w.b.ep && p == Owner(w.a.ep)
    ensures Inv(Half(w, p, coins)) && Drops(w, p, Half(w, p, coins))
  {
    hide State.Send, State.Receive, LocalOk, PacketOk, LogOk, LevelMeasure, Half;
    var s, t := w.At(p), w.At(p.Peer());
    HalfIs(w, p, coins);
    PairFacing(w, p, coins);
    SendStep(s, coins);
    ReceiveStep(t, Out(s, coins).msg);
    if t.NoHeaderReceived? { HeaderWord(w.h, p, s, t, coins); }
    else if s.Ct1Received? && !t.Ct2Sampled? { EkWord(w.h, p, s, t, coins); }
    else { OwnerBystander(w.h, p, s, t, coins); }
  }

  lemma EncapsulatorHalf(w: World, p: Party, coins: Term)
    requires Inv(w) && w.a.ep == w.b.ep && p == Owner(w.a.ep).Peer()
    ensures Inv(Half(w, p, coins)) && Drops(w, p, Half(w, p, coins))
  {
    hide State.Send, State.Receive, LocalOk, PacketOk, LogOk, LevelMeasure, Half;
    var s, t := w.At(p), w.At(p.Peer());
    HalfIs(w, p, coins);
    PairFacing(w, p, coins);
    SendStep(s, coins);
    ReceiveStep(t, Out(s, coins).msg);
    if OwnerMoves(t, s) { EncapsulatorBystander(w.h, p, s, t, coins); }
    else if t.KeysSampled? { FirstCt1Word(w.h, p, s, t, coins); }
    else if t.HeaderSent? { NextCt1Word(w.h, p, s, t, coins); }
    else if t.Ct1Received? { FirstCt2Word(w.h, p, s, t, coins); }
    else { NextCt2Word(w.h, p, s, t, coins); }
  }

  /** When one party is ahead, its next message tells the other that the epoch is over. */
  lemma AheadHalf(w: World, p: Party, coins: Term)
    requires Inv(w) && w.a.ep != w.b.ep
    ensures Inv(Half(w, p, coins)) && Drops(w, p, Half(w, p, coins))
  {
    hide LocalOk, PacketOk, LogOk, LevelMeasure, Half, State.WellFormed;
    HalfIs(w, p, coins);
    SendStep(w.At(p), coins);
    ReceiveStep(w.At(p.Peer()), Out(w.At(p), coins).msg);
  }

  function Exchange(w: World, first: Party, c1: Term, c2: Term): (w': World)
    requires w.Live()
    ensures w'.Live()
  {
    Half(Half(w, first, c1), first.Peer(), c2)
  }

  lemma ExchangeDrops(w: World, first: Party, c1: Term, c2: Term)
    requires Inv(w)
    ensures var w' := Exchange(w, first, c1, c2);
      && Inv(w') && MinEpoch(w') >= MinEpoch(w)
      && (MinEpoch(w') > MinEpoch(w) || Measure(w') < Measure(w))
  {
    hide Half, Joint, Measure, Mover, MinEpoch, LocalOk, PacketOk, LogOk, State.WellFormed;
    HalfDrops(w, first, c1);
    HalfDrops(Half(w, first, c1), first.Peer(), c2);
  }

  lemma HalfDrops(w: World, p: Party, coins: Term)
    requires Inv(w)
    ensures Inv(Half(w, p, coins)) && Drops(w, p, Half(w, p, coins))
  {
    hide Half, Drops, Joint, LocalOk, PacketOk, LogOk;
    if w.a.ep != w.b.ep { AheadHalf(w, p, coins); }
    else if p == Owner(w.a.ep) { OwnerHalf(w, p, coins); }
    else { EncapsulatorHalf(w, p, coins); }
  }

  /** `n` lossless exchanges, each drawing its randomness from `coins`. */
  function Exchanges(w: World, first: Party, n: nat, coins: nat -> Term): (w': World)
    requires w.Live()
    ensures w'.Live()
    decreases n
  {
    if n == 0 then w
    else Exchanges(Exchange(w, first, coins(2 * n), coins(2 * n + 1)), first, n - 1, coins)
  }

  lemma {:induction false} ExchangesAdvance(w: World, first: Party, n: nat, coins: nat -> Term)
    requires Inv(w)
    ensures var w' := Exchanges(w, first, n, coins);
      Inv(w') && MinEpoch(w') >= MinEpoch(w) && (Measure(w) <= n ==> MinEpoch(w') > MinEpoch(w))
    decreases n
  {
    hide Exchange, MinEpoch, LevelMeasure, Joint, LocalOk, PacketOk, LogOk, State.WellFormed;
    if n > 0 {
      var next := Exchange(w, first, coins(2 * n), coins(2 * n + 1));
      ExchangeDrops(w, first, coins(2 * n), coins(2 * n + 1));
      ExchangesAdvance(next, first, n - 1, coins);
    }
  }

  /** One codeword per data shard of each object, plus the message that closes the epoch. */
  const EPOCH_EXCHANGES := HDR_K + CT1_K + EK_K + CT2_K + 1

  lemma Advances(w: World, first: Party, coins: nat -> Term)
    requires Inv(w)
    ensures MinEpoch(Exchanges(w, first, EPOCH_EXCHANGES, coins)) > MinEpoch(w)
  {
    hide Exchange, MinEpoch, LocalOk, PacketOk, LogOk, State.WellFormed, Exchanges;
    ExchangesAdvance(w, first, EPOCH_EXCHANGES, coins);
  }

  /**
   From every reachable state - whatever was lost, repeated or reordered on the way - 75
   lossless exchanges, started by either party, take both parties past the epoch they are
   in. No reachable state is stuck.
   */
  lemma Progress(root: Term, trace: seq<Step>, first: Party, coins: nat -> Term)
    ensures EPOCH_EXCHANGES == 75
    ensures MinEpoch(Exchanges(Run(root, trace), first, EPOCH_EXCHANGES, coins)) > MinEpoch(Run(root, trace))
    ensures DataShardsFor(HDR_LEN) == HDR_K && DataShardsFor(CT1_LEN) == CT1_K
    ensures DataShardsFor(PK2_LEN) == EK_K && DataShardsFor(CT2_MAC_LEN) == CT2_K
  {
    hide Inv, MinEpoch, Run, Exchanges;
    RunInv(root, trace);
    Advances(Run(root, trace), first, coins);
  }
}
