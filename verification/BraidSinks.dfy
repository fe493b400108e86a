/**
 One codeword whose bytes were altered on the way (docs/signal-spec-divergence.md promises it
 cannot brick a session). A wrong word of the key vector or of ct1, once stored, does: from
 then on no message of either party takes the pair past the epoch it is in.
 */
module BraidSinks {
  import opened Common
  import opened Symbolic
  import opened Erasure
  import opened BraidMachine
  import opened BraidNetwork

  // ---- decoding with a wrong word --------------------------------------------------------------

  lemma {:induction false} JoinShard(shards: seq<Bytes>, i: nat)
    requires i < |shards| && forall j :: 0 <= j < |shards| ==> |shards[j]| == CHUNK_BYTES
    ensures |Join(shards)| == CHUNK_BYTES * |shards|
    ensures Join(shards)[CHUNK_BYTES * i .. CHUNK_BYTES * i + CHUNK_BYTES] == shards[i]
  {
    var init := shards[..|shards| - 1];
    JoinLength(shards);
    JoinLength(init);
    if i < |init| { JoinShard(init, i); }
  }

  /** A message that fills its shards is its own padding. */
  predicate Exact(data: Bytes) { |data| == CHUNK_BYTES * DataShardsFor(|data|) }

  lemma ExactCodeword(data: Bytes, i: nat)
    requires Exact(data) && i < TotalShards(|data|)
    ensures Padded(data) == data
    ensures var k := DataShardsFor(|data|);
      Codewords(data)[i] == if i < k then Shard(data, k, i) else RecoveryShard(data, i - k)
  {
    assert Padded(data) == data;
  }

  predicate Unmixed(data: Bytes) { forall i :: 0 <= i < |data| ==> data[i].Of? && !data[i].term.Mixture? }

  lemma {:induction false} SameShards(x: Bytes, y: Bytes, k: nat)
    requires |x| == |y| == CHUNK_BYTES * k && forall i :: 0 <= i < k ==> Shard(x, k, i) == Shard(y, k, i)
    ensures x == y
  {
    forall n | 0 <= n < |x| ensures x[n] == y[n] {
      var i := n / CHUNK_BYTES;
      assert Shard(x, k, i)[n - CHUNK_BYTES * i] == x[n] && Shard(y, k, i)[n - CHUNK_BYTES * i] == y[n];
    }
  }

  lemma DecodedShards(d: DecoderState, data: Bytes)
    requires d.Sized(|data|) && Exact(data) && d.Message() == Ok(Some(data))
    ensures forall i :: 0 <= i < DataShardsFor(|data|) ==> d.DataShards()[i] == Shard(data, DataShardsFor(|data|), i)
  {
    var k := DataShardsFor(|data|);
    var shards := d.DataShards();
    forall i | 0 <= i < k ensures |shards[i]| == CHUNK_BYTES { }
    hide DecoderState.DataShards, CodecOriginals;
    JoinLength(shards);
    assert Join(shards)[..|data|] == Join(shards) == data;
    forall i | 0 <= i < k ensures shards[i] == Shard(data, k, i) { JoinShard(shards, i); }
  }

  /** k words of which one belongs to another message do not decode to this message. */
  lemma WrongWord(d: DecoderState, data: Bytes, bad: nat)
    requires d.Sized(|data|) && Exact(data) && Unmixed(data) && |d.received| == DataShardsFor(|data|)
    requires bad in d.received && d.received[bad] != Codewords(data)[bad]
    ensures d.Message() != Ok(Some(data))
  {
    hide DecoderState.Message, Join, Codewords;
    if d.Message() == Ok(Some(data)) {
      DecodedShards(d, data);
      ExactCodeword(data, bad);
      if bad >= DataShardsFor(|data|) {
        NotAllOriginals(d, bad);
        WrongRecovery(d, data, bad);
      }
    }
  }

  lemma NotAllOriginals(d: DecoderState, bad: nat)
    requires bad in d.received && |d.received| == DataShardsFor(d.len) <= bad
    ensures !d.AllOriginals()
  {
    if d.AllOriginals() {
      var k := DataShardsFor(d.len);
      assert |Below(k) + {bad}| == k + 1;
      InjectionCard(Below(k) + {bad}, d.received.Keys, i => i);
    }
  }

  /** A wrong recovery word: the codec names other originals, or none. */
  lemma WrongRecovery(d: DecoderState, data: Bytes, bad: nat)
    requires d.Sized(|data|) && Exact(data) && Unmixed(data) && !d.AllOriginals()
    requires bad in d.received && bad >= DataShardsFor(d.len)
    requires d.received[bad] != RecoveryShard(data, bad - DataShardsFor(d.len))
    ensures exists i :: 0 <= i < DataShardsFor(d.len) && d.DataShards()[i] != Shard(data, DataShardsFor(d.len), i)
  {
    var k := DataShardsFor(d.len);
    var shards := d.DataShards();
    if forall i :: 0 <= i < k ==> shards[i] == Shard(data, k, i) {
      var missing :| 0 <= missing < k && missing !in d.received;
      var restored := CodecOriginals(d.len, d.received);
      assert restored[missing] == shards[missing] == Shard(data, k, missing);
      assert shards[missing][0] == data[CHUNK_BYTES * missing];
      var j := FirstRecovery(d.len, d.received, k);
      var p := d.received[j][0].term.message;
      forall i | 0 <= i < k ensures Shard(p, k, i) == Shard(data, k, i) { assert shards[i] == Shard(p, k, i); }
      SameShards(p, data, k);
    }
  }

  // ---- the key vector ---------------------------------------------------------------------------

  /** The word held at some index is not the object's. */
  ghost predicate Wrong(d: DecoderState, data: Bytes)
  {
    exists i :: i in d.received && i < TotalShards(|data|) && d.received[i] != Codewords(data)[i]
  }

  lemma WrongGrows(d: DecoderState, m: Message, data: Bytes)
    requires Wrong(d, data) && AddChunk(d, m).Ok?
    ensures Wrong(AddChunk(d, m).value, data) && |AddChunk(d, m).value.received| <= |d.received| + 1
  {
    hide Codewords;
    var i :| i in d.received && i < TotalShards(|data|) && d.received[i] != Codewords(data)[i];
    assert i in AddChunk(d, m).value.received && AddChunk(d, m).value.received[i] == d.received[i];
  }

  /** An object with a wrong word is incomplete, or complete and not the object. */
  lemma WrongMessage(d: DecoderState, data: Bytes)
    requires d.Sized(|data|) && Exact(data) && Unmixed(data) && CodecSupports(|data|) && Wrong(d, data)
    requires |d.received| <= DataShardsFor(|data|)
    ensures if |d.received| < DataShardsFor(|data|) then d.Message() == Ok(None)
      else d.Message().Ok? && d.Message().value.Some? && d.Message().value.value != data && |d.Message().value.value| == |data|
  {
    hide Codewords;
    if |d.received| == DataShardsFor(|data|) {
      var i :| i in d.received && i < TotalShards(|data|) && d.received[i] != Codewords(data)[i];
      WrongWord(d, data, i);
      MessageLength(d);
    }
  }

  /** The encapsulator waits for the key vector of an authentic header and holds a wrong word of it. */
  ghost predicate EkPoisoned(s: State, seed: Term)
  {
    && (s.Ct1Sampled? || s.Ct1Acknowledged?) && s.WellFormed() && s.header == HeaderOf(seed)
    && Wrong(s.ekDec, EkVectorOf(seed)) && |s.ekDec.received| < DataShardsFor(PK2_LEN)
  }

  lemma NotItsKey(seed: Term, ek: Bytes)
    requires ek != EkVectorOf(seed)
    ensures !ValidPublicKey(HeaderOf(seed), ek)
  {
    assert HeaderOf(seed)[0] == Of(Pk1(seed), 0);
  }

  /** Whatever message arrives, the party stays where it is: the key check refuses what it collects. */
  lemma EkPoisonedReceives(s: State, seed: Term, m: Message)
    requires EkPoisoned(s, seed)
    ensures var r := s.Receive(m);
      r.Ok? ==> r.value.secret.None? && EkPoisoned(r.value.next, seed) && r.value.next.ep == s.ep
  {
    hide DecoderState.Message, BraidMachine.AddChunk, Wrong, ValidPublicKey, BuildCt2Encoder, DecoderState.Sized, Spell;
    if AddChunk(s.ekDec, m).Ok? {
      var dec := AddChunk(s.ekDec, m).value;
      AddChunkSized(s.ekDec, m, PK2_LEN);
      WrongGrows(s.ekDec, m, EkVectorOf(seed));
      VectorShape(seed);
      WrongMessage(dec, EkVectorOf(seed));
      if |dec.received| == DataShardsFor(PK2_LEN) { NotItsKey(seed, dec.Message().value.value); }
    }
  }

  lemma VectorShape(seed: Term)
    ensures Exact(EkVectorOf(seed)) && Unmixed(EkVectorOf(seed)) && CodecSupports(|EkVectorOf(seed)|)
  {
  }

  lemma EkPoisonedSends(s: State, seed: Term, coins: Term)
    requires EkPoisoned(s, seed)
    ensures s.Send(coins).Ok? && s.Send(coins).value.secret.None?
    ensures EkPoisoned(s.Send(coins).value.next, seed) && s.Send(coins).value.next.ep == s.ep
  {
    hide Wrong, Spell, DecoderState.Sized;
    SendStep(s, coins);
  }

  // ---- the first ciphertext ---------------------------------------------------------------------

  /** The key owner of epoch e holds a wrong word of ct1, or a wrong ct1; the rest of its state is right. */
  ghost predicate Ct1Poisoned(h: History, q: Party, s: State, e: nat)
  {
    && Encapsulated(h, e) && q == Owner(e) && s.WellFormed() && s.ep == e
    && (s.HeaderSent? || s.Ct1Received? || s.EkSentCt1Received?)
    && s.auth == AuthAt(h, e)
    && (s.HeaderSent? ==> Wrong(s.ct1Dec, Ct1Obj(h, e)) && |s.ct1Dec.received| < DataShardsFor(CT1_LEN))
    && (s.HeaderSent? || s.Ct1Received? ==> s.ekEnc.Streams(EkObj(h, e)))
    && (s.Ct1Received? || s.EkSentCt1Received? ==> s.ct1 != Ct1Obj(h, e))
    && (s.EkSentCt1Received? ==> s.ct2Dec.Holds(Ct2Obj(h, e)))
  }

  lemma Ct1Shape(h: History, e: nat)
    requires Encapsulated(h, e)
    ensures Exact(Ct1Obj(h, e)) && Unmixed(Ct1Obj(h, e)) && CodecSupports(CT1_LEN)
  {
  }

  lemma HeaderSentPoisoned(h: History, q: Party, s: State, e: nat, m: Message)
    requires Ct1Poisoned(h, q, s, e) && s.HeaderSent?
    ensures var r := s.Receive(m);
      r.Ok? ==> r.value.secret.None? && Ct1Poisoned(h, q, r.value.next, e)
  {
    hide DecoderState.Message, BraidMachine.AddChunk, Wrong, DecoderState.Sized, Spell, AuthAt, Ct1Obj, EkObj, EncoderState.Streams, Header;
    if AddChunk(s.ct1Dec, m).Ok? {
      var dec := AddChunk(s.ct1Dec, m).value;
      AddChunkSized(s.ct1Dec, m, CT1_LEN);
      WrongGrows(s.ct1Dec, m, Ct1Obj(h, e));
      Ct1Shape(h, e);
      WrongMessage(dec, Ct1Obj(h, e));
    }
  }

  lemma Ct1ReceivedPoisoned(h: History, q: Party, s: State, e: nat, m: Message)
    requires Ct1Poisoned(h, q, s, e) && s.Ct1Received? && WordOk(h, q.Peer(), m)
    ensures var r := s.Receive(m);
      r.Ok? ==> r.value.secret.None? && Ct1Poisoned(h, q, r.value.next, e)
  {
    hide DecoderState.Message, Wrong, Codewords, AuthAt, Ct1Obj, EkObj, EncoderState.Streams, Header;
    if m.epoch == e && m.mtype == Ct2Word {
      AddCodeword(DecoderState.New(CT2_MAC_LEN), m.chunk.value, Ct2Obj(h, e));
    }
  }

  /** The ciphertext MAC covers ct1, so it refuses every ct2 that comes with the wrong one. */
  lemma WrongCt1Refused(h: History, e: nat, ct1: Bytes, auth: Authenticator)
    requires Encapsulated(h, e) && |ct1| == CT1_LEN && ct1 != Ct1Obj(h, e)
    ensures !auth.VfyCt(e, ct1 + Ct2Obj(h, e)[..CT2_LEN], Ct2Obj(h, e)[CT2_LEN..])
  {
    hide Spell;
    var (ct2, mac) := (Ct2Obj(h, e)[..CT2_LEN], Ct2Obj(h, e)[CT2_LEN..]);
    assert ct2 == Ct2Plain(h, e) && mac == AuthAt(h, e + 1).MacCt(e, Ct1Obj(h, e) + Ct2Plain(h, e));
    assert (ct1 + ct2)[..CT1_LEN] == ct1 && (Ct1Obj(h, e) + ct2)[..CT1_LEN] == Ct1Obj(h, e);
    assert auth.MacCt(e, ct1 + ct2)[0] != mac[0];
  }

  lemma EkSentPoisoned(h: History, q: Party, s: State, e: nat, m: Message)
    requires Ct1Poisoned(h, q, s, e) && s.EkSentCt1Received? && WordOk(h, q.Peer(), m)
    ensures var r := s.Receive(m);
      r.Ok? ==> r.value.secret.None? && Ct1Poisoned(h, q, r.value.next, e)
  {
    hide DecoderState.Message, BraidMachine.AddChunk, Wrong, Codewords, AuthAt, Ct1Obj, EkObj, EncoderState.Streams, Header, Ct2Obj,
         Authenticator.VfyCt, DecoderState.Holds, DecoderState.Sized, IsCodeword, Authenticator.Update;
    if m.epoch == e && m.mtype == Ct2Word {
      Absorb(s.ct2Dec, m, Ct2Obj(h, e));
      forall auth: Authenticator
        ensures !auth.VfyCt(e, s.ct1 + Ct2Obj(h, e)[..CT2_LEN], Ct2Obj(h, e)[CT2_LEN..])
      {
        WrongCt1Refused(h, e, s.ct1, auth);
      }
      NewDecoder(CT2_MAC_LEN);
      EmptyHolds(Ct2Obj(h, e));
    }
  }

  lemma EmptyHolds(data: Bytes)
    ensures DecoderState.New(|data|).Holds(data)
  {
  }

  lemma Ct1PoisonedReceives(h: History, q: Party, s: State, e: nat, m: Message)
    requires Ct1Poisoned(h, q, s, e) && WordOk(h, q.Peer(), m)
    ensures var r := s.Receive(m);
      r.Ok? ==> r.value.secret.None? && Ct1Poisoned(h, q, r.value.next, e)
  {
    hide Ct1Poisoned, WordOk, State.Receive;
    assert s.HeaderSent? || s.Ct1Received? || s.EkSentCt1Received? by { PoisonedKind(h, q, s, e); }
    if s.HeaderSent? { HeaderSentPoisoned(h, q, s, e, m); }
    else if s.Ct1Received? { Ct1ReceivedPoisoned(h, q, s, e, m); }
    else { EkSentPoisoned(h, q, s, e, m); }
  }

  lemma PoisonedKind(h: History, q: Party, s: State, e: nat)
    requires Ct1Poisoned(h, q, s, e)
    ensures s.WellFormed() && s.ep == e && (s.HeaderSent? || s.Ct1Received? || s.EkSentCt1Received?)
  {
  }

  lemma Ct1PoisonedSends(h: History, q: Party, s: State, e: nat, coins: Term)
    requires Ct1Poisoned(h, q, s, e)
    ensures s.Send(coins).Ok?
    ensures var out := s.Send(coins).value;
      && out.secret.None? && Ct1Poisoned(h, q, out.next, e) && out.msg.epoch == e && WordOk(h, q, out.msg)
  {
    hide DecoderState.Message, Wrong, Codewords, AuthAt, Ct1Obj, Ct2Obj, DecoderState.Holds, Header;
    if s.HeaderSent? || s.Ct1Received? { NextChunkStreams(s.ekEnc, EkObj(h, e)); }
  }

  // ---- runs after an altered word -----------------------------------------------------------------

  /** Any further sends, and deliveries of anything either party ever sent. */
  function From(w: World, steps: seq<Step>): (w': World)
    requires w.Live()
    ensures w'.Live()
  {
    if steps == [] then w else Apply(From(w, steps[..|steps| - 1]), steps[|steps| - 1])
  }

  /** The packet's message with other bytes in its codeword. */
  function Altered(pk: Packet, data: Bytes): Message
    requires pk.msg.chunk.Some?
  {
    pk.msg.(chunk := Some(Chunk(pk.msg.chunk.value.index, data)))
  }

  predicate IsAltered(w: World, pk: Packet, data: Bytes)
  {
    pk in w.net && pk.msg.chunk.Some? && data != pk.msg.chunk.value.data
  }

  /** The world after the packet's addressee received the altered message. */
  function Garbled(w: World, pk: Packet, data: Bytes): (w': World)
    requires w.Live() && pk.msg.chunk.Some?
    ensures w'.Live()
  {
    var (q, m) := (pk.from.Peer(), Altered(pk, data));
    var r := w.At(q).Receive(m);
    ReceiveStep(w.At(q), m);
    if r.Ok? then w.Put(q, r.value.next, r.value.secret) else w
  }

  /** The state stores the message's word and will build the key vector or ct1 with it. */
  predicate Sinks(s: State, m: Message)
    requires s.WellFormed() && m.chunk.Some?
  {
    var c := m.chunk.value;
    && m.epoch == s.ep && |c.data| == CHUNK_BYTES
    && match m.mtype
       case Ct1Word => s.KeysSampled? || (s.HeaderSent? && c.index !in s.ct1Dec.received)
       case Ek => s.Ct1Sampled? && c.index !in s.ekDec.received && |s.ekDec.received| + 1 < DataShardsFor(PK2_LEN)
       case EkCt1Ack =>
         && (s.Ct1Sampled? || s.Ct1Acknowledged?)
         && c.index !in s.ekDec.received && |s.ekDec.received| + 1 < DataShardsFor(PK2_LEN)
       case _ => false
  }

  lemma AddWrong(dec: DecoderState, m: Message, data: Bytes)
    requires dec.Sized(|data|) && m.chunk.Some? && |m.chunk.value.data| == CHUNK_BYTES
    requires m.chunk.value.index < TotalShards(|data|) && m.chunk.value.index !in dec.received
    requires m.chunk.value.data != Codewords(data)[m.chunk.value.index]
    ensures AddChunk(dec, m).Ok? && Wrong(AddChunk(dec, m).value, data) && AddChunk(dec, m).value.Sized(|data|)
    ensures |AddChunk(dec, m).value.received| == |dec.received| + 1
  {
    hide Codewords;
    var d := AddChunk(dec, m).value;
    assert d.received[m.chunk.value.index] != Codewords(data)[m.chunk.value.index];
  }

  /** A wrong word of the key vector is stored. */
  lemma EkSinks(w: World, pk: Packet, data: Bytes)
    requires Inv(w) && IsAltered(w, pk, data) && pk.msg.mtype != Ct1Word
    requires Sinks(w.At(pk.from.Peer()), Altered(pk, data))
    ensures var (q, e) := (pk.from.Peer(), pk.msg.epoch);
      && 1 <= e <= |w.h.seeds| && EkPoisoned(Garbled(w, pk, data).At(q), w.h.seeds[e - 1])
      && w.a.ep == w.b.ep == Garbled(w, pk, data).At(q).ep == e
  {
    hide BraidMachine.AddChunk, DecoderState.Message, Wrong, AuthAt, Ct1Obj, DecoderState.Holds, EncoderState.Streams,
         DecoderState.Sized, LogOk, Codewords;
    var (q, m) := (pk.from.Peer(), Altered(pk, data));
    var s := w.At(q);
    assert PacketOk(w, pk);
    AddWrong(s.ekDec, m, EkObj(w.h, s.ep));
    ShortMessage(AddChunk(s.ekDec, m).value, PK2_LEN);
  }

  lemma ShortMessage(d: DecoderState, n: nat)
    requires d.Sized(n) && |d.received| < DataShardsFor(n)
    ensures d.Message() == Ok(None)
  {
  }

  lemma {:induction false} EkSunk(w: World, q: Party, seed: Term, steps: seq<Step>)
    requires w.Live() && EkPoisoned(w.At(q), seed)
    ensures EkPoisoned(From(w, steps).At(q), seed) && From(w, steps).At(q).ep == w.At(q).ep
  {
    hide EkPoisoned, State.Send, State.Receive, State.WellFormed;
    if steps != [] {
      var (init, step) := (steps[..|steps| - 1], steps[|steps| - 1]);
      EkSunk(w, q, seed, init);
      var s := From(w, init).At(q);
      match step
      case Send(p, coins) => if p == q { EkPoisonedSends(s, seed, coins); }
      case Deliver(pk) => if pk.from.Peer() == q { EkPoisonedReceives(s, seed, pk.msg); }
    }
  }

  /** The key owner is poisoned, its peer is right, and everything sent is genuine. */
  ghost predicate Sunk(w: World, q: Party, e: nat)
  {
    && w.Live() && Ct1Poisoned(w.h, q, w.At(q), e) && |w.h.seeds| == |w.h.coins| == e
    && LocalOk(w.h, q.Peer(), w.At(q.Peer())) && w.At(q.Peer()).ep == e
    && forall pk :: pk in w.net ==> WordOk(w.h, pk.from, pk.msg) && pk.msg.epoch <= e
  }

  /** A wrong word of ct1 is stored. */
  lemma Ct1Sinks(w: World, pk: Packet, data: Bytes)
    requires Inv(w) && IsAltered(w, pk, data) && pk.msg.mtype == Ct1Word
    requires Sinks(w.At(pk.from.Peer()), Altered(pk, data))
    requires w.At(pk.from.Peer()).HeaderSent? ==> |w.At(pk.from.Peer()).ct1Dec.received| < DataShardsFor(CT1_LEN)
    ensures w.a.ep == w.b.ep == pk.msg.epoch && Sunk(Garbled(w, pk, data), pk.from.Peer(), pk.msg.epoch)
  {
    hide State.Receive, LogOk, Codewords, WordOk, Ct1Poisoned, LocalOk;
    var (q, e) := (pk.from.Peer(), pk.msg.epoch);
    assert PacketOk(w, pk);
    Ct1Context(w, pk);
    Ct1SinksParty(w.h, q, w.At(q), pk.msg, Altered(pk, data));
    forall k | k in w.net ensures WordOk(w.h, k.from, k.msg) && k.msg.epoch <= e { assert PacketOk(w, k); }
  }

  lemma Ct1Context(w: World, pk: Packet)
    requires Inv(w) && pk in w.net && pk.msg.mtype == Ct1Word && pk.msg.epoch == w.At(pk.from.Peer()).ep
    requires w.At(pk.from.Peer()).KeysSampled? || w.At(pk.from.Peer()).HeaderSent?
    ensures w.a.ep == w.b.ep == pk.msg.epoch && |w.h.seeds| == |w.h.coins| == pk.msg.epoch
    ensures Encapsulated(w.h, pk.msg.epoch)
  {
    hide LogOk, Codewords, DecoderState.Holds, EncoderState.Streams, AuthAt, IsCodeword, State.WellFormed;
    assert PacketOk(w, pk);
  }

  lemma Ct1SinksParty(h: History, q: Party, s: State, m: Message, bad: Message)
    requires s.WellFormed() && LocalOk(h, q, s) && WordOk(h, q.Peer(), m) && m.mtype == Ct1Word && m.epoch == s.ep
    requires bad.mtype == Ct1Word && bad.epoch == s.ep && bad.chunk.Some? && bad.chunk.value.index == m.chunk.value.index
    requires bad.chunk.value.data != m.chunk.value.data && Sinks(s, bad)
    requires s.HeaderSent? ==> |s.ct1Dec.received| < DataShardsFor(CT1_LEN)
    ensures s.Receive(bad).Ok? && s.Receive(bad).value.secret.None? && Ct1Poisoned(h, q, s.Receive(bad).value.next, s.ep)
  {
    hide BraidMachine.AddChunk, DecoderState.Message, Wrong, AuthAt, Ct1Obj, EkObj, Header, DecoderState.Sized, Codewords;
    Ct1Shape(h, s.ep);
    var had := if s.KeysSampled? then DecoderState.New(CT1_LEN) else s.ct1Dec;
    NewDecoder(CT1_LEN);
    AddWrong(had, bad, Ct1Obj(h, s.ep));
    WrongMessage(AddChunk(had, bad).value, Ct1Obj(h, s.ep));
  }

  lemma SunkSend(w: World, q: Party, e: nat, p: Party, coins: Term)
    requires Sunk(w, q, e)
    ensures Sunk(Apply(w, Send(p, coins)), q, e)
  {
    hide State.Send, State.Receive, State.WellFormed, Ct1Poisoned, LocalOk, WordOk, Rank;
    var s := w.At(p);
    PoisonedKind(w.h, q, w.At(q), e);
    SendStep(s, coins);
    if p == q {
      Ct1PoisonedSends(w.h, q, s, e, coins);
    } else {
      LocalCounts(w.h, p, s);
      SendLocal(w.h, p, s, coins);
    }
  }

  lemma SunkDeliver(w: World, q: Party, e: nat, pk: Packet)
    requires Sunk(w, q, e) && pk in w.net
    ensures Sunk(Apply(w, Deliver(pk)), q, e)
  {
    hide State.Send, State.Receive, State.WellFormed, Ct1Poisoned, LocalOk, WordOk, Rank, Kept;
    PoisonedKind(w.h, q, w.At(q), e);
    var p := pk.from.Peer();
    var s := w.At(p);
    if p == q {
      Ct1PoisonedReceives(w.h, q, s, e, pk.msg);
    } else {
      PeerIsOther(w, q, e);
      LocalCounts(w.h, p, s);
      ReceiveLocal(w.h, p, s, pk.msg);
      ReceiveMoves(s, pk.msg);
    }
  }

  lemma PeerIsOther(w: World, q: Party, e: nat)
    requires Sunk(w, q, e)
    ensures !w.At(q.Peer()).IsOwner()
  {
    hide State.WellFormed, WordOk;
    LocalCounts(w.h, q.Peer(), w.At(q.Peer()));
  }

  lemma {:induction false} SunkForGood(w: World, q: Party, e: nat, steps: seq<Step>)
    requires w.Live() && Sunk(w, q, e)
    ensures Sunk(From(w, steps), q, e)
  {
    hide Sunk, Apply;
    if steps != [] {
      var (init, step) := (steps[..|steps| - 1], steps[|steps| - 1]);
      SunkForGood(w, q, e, init);
      match step
      case Send(p, coins) => SunkSend(From(w, init), q, e, p, coins);
      case Deliver(pk) => if pk in From(w, init).net { SunkDeliver(From(w, init), q, e, pk); } else { Undelivered(From(w, init), pk); }
    }
  }

  lemma Undelivered(w: World, pk: Packet)
    requires w.Live() && pk !in w.net
    ensures Apply(w, Deliver(pk)) == w
  {
  }

  // ---- no state waits for an object it already has ------------------------------------------------

  predicate Incomplete(s: State)
  {
    match s
    case NoHeaderReceived(_, _, dec) => |dec.received| < DataShardsFor(HDR_LEN)
    case HeaderSent(_, _, _, dec, _) => |dec.received| < DataShardsFor(CT1_LEN)
    case HeaderReceived(_, _, _, dec) => |dec.received| < DataShardsFor(PK2_LEN)
    case Ct1Sampled(_, _, _, _, _, _, dec) => |dec.received| < DataShardsFor(PK2_LEN)
    case Ct1Acknowledged(_, _, _, _, _, dec) => |dec.received| < DataShardsFor(PK2_LEN)
    case EkSentCt1Received(_, _, _, _, dec) => |dec.received| < DataShardsFor(CT2_MAC_LEN)
    case _ => true
  }

  lemma NoneMeansShort(d: DecoderState, n: nat)
    requires d.Sized(n) && d.Message() == Ok(None)
    ensures |d.received| < DataShardsFor(n)
  {
  }

  lemma FirstWord(n: nat, m: Message)
    ensures AddChunk(DecoderState.New(n), m).Ok? ==> |AddChunk(DecoderState.New(n), m).value.received| == 1
  {
  }

  lemma StillShort(dec: DecoderState, m: Message, n: nat)
    requires dec.Sized(n)
    ensures AddChunk(dec, m).Ok? && AddChunk(dec, m).value.Message() == Ok(None) ==> |AddChunk(dec, m).value.received| < DataShardsFor(n)
  {
    hide DecoderState.Message, BraidMachine.AddChunk, DecoderState.Sized;
    AddChunkSized(dec, m, n);
    if AddChunk(dec, m).Ok? && AddChunk(dec, m).value.Message() == Ok(None) { NoneMeansShort(AddChunk(dec, m).value, n); }
  }

  lemma ReceiveIncomplete(s: State, m: Message)
    requires s.WellFormed() && Incomplete(s)
    ensures s.Receive(m).Ok? ==> Incomplete(s.Receive(m).value.next)
  {
    hide DecoderState.Message, BraidMachine.AddChunk, BuildCt2Encoder, Decapsulate, ValidPublicKey, DecoderState.Sized;
    match s
    case KeysSampled(_, _, _, _, _) => FirstWord(CT1_LEN, m);
    case Ct1Received(_, _, _, _, _) => FirstWord(CT2_MAC_LEN, m);
    case NoHeaderReceived(_, _, dec) => StillShort(dec, m, HDR_LEN);
    case HeaderSent(_, _, _, dec, _) => StillShort(dec, m, CT1_LEN);
    case Ct1Sampled(_, _, _, _, _, _, dec) => StillShort(dec, m, PK2_LEN);
    case Ct1Acknowledged(_, _, _, _, _, dec) => StillShort(dec, m, PK2_LEN);
    case EkSentCt1Received(_, _, _, _, dec) => StillShort(dec, m, CT2_MAC_LEN);
    case _ =>
  }

  lemma SendIncomplete(s: State, coins: Term)
    requires s.WellFormed() && Incomplete(s)
    ensures s.Send(coins).Ok? && Incomplete(s.Send(coins).value.next)
  {
    hide Codewords, DecoderState.Sized;
    SendStep(s, coins);
  }

  lemma {:induction false} RunIncomplete(root: Term, trace: seq<Step>)
    ensures Incomplete(Run(root, trace).a) && Incomplete(Run(root, trace).b)
  {
    hide State.Send, State.Receive, Incomplete, State.WellFormed;
    if trace == [] {
      InitIncomplete(root);
    } else {
      var w := Run(root, trace[..|trace| - 1]);
      RunIncomplete(root, trace[..|trace| - 1]);
      match trace[|trace| - 1]
      case Send(p, coins) => SendIncomplete(w.At(p), coins);
      case Deliver(pk) => ReceiveIncomplete(w.At(pk.from.Peer()), pk.msg);
    }
  }

  lemma InitIncomplete(root: Term)
    ensures Incomplete(InitSender(root)) && Incomplete(InitReceiver(root))
  {
  }

  /** Once the word is stored, no run takes both parties past the epoch they are in. */
  lemma GarbledSinks(w: World, pk: Packet, data: Bytes, steps: seq<Step>)
    requires w.Live() && Inv(w) && IsAltered(w, pk, data) && Incomplete(w.At(pk.from.Peer()))
    requires Sinks(w.At(pk.from.Peer()), Altered(pk, data))
    ensures w.a.ep == w.b.ep
    ensures From(Garbled(w, pk, data), steps).At(pk.from.Peer()).ep == w.a.ep
  {
    hide Inv, From, Garbled, EkPoisoned, Ct1Poisoned, LocalOk, WordOk, State.WellFormed;
    var q := pk.from.Peer();
    if pk.msg.mtype == Ct1Word {
      Ct1Sinks(w, pk, data);
      SunkForGood(Garbled(w, pk, data), q, pk.msg.epoch, steps);
      PoisonedKind(From(Garbled(w, pk, data), steps).h, q, From(Garbled(w, pk, data), steps).At(q), pk.msg.epoch);
    } else {
      EkSinks(w, pk, data);
      EkSunk(Garbled(w, pk, data), q, w.h.seeds[pk.msg.epoch - 1], steps);
    }
  }
}
