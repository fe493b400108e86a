/**
 The active network of `BraidAdversary` can always do what an honest one does: every message
 a party sends, whatever was injected before, is one the network may deliver later. So the
 guarantees against interference also cover plain loss, repetition and reordering.
 */
module BraidRelay {
  import opened Common
  import opened Symbolic
  import opened Erasure
  import opened BraidMachine
  import opened BraidAdversary

  lemma SpellKnown(t: Term, n: nat, macs: set<Term>)
    requires !t.Recovery? && (t.Mac? ==> t in macs)
    ensures KnownBytes(Spell(t, n), macs)
  {
  }

  /** The codewords of known bytes are known. */
  lemma CodewordsKnown(data: Bytes, macs: set<Term>)
    requires KnownBytes(data, macs)
    ensures KnownShards(Codewords(data), macs)
  {
    var padded := Padded(data);
    assert KnownBytes(padded, macs);
    forall i | 0 <= i < |Codewords(data)| ensures KnownBytes(Codewords(data)[i], macs) {
      if i >= DataShardsFor(|data|) {
        RecoveryKnown(padded, i - DataShardsFor(|data|), macs);
      }
    }
  }

  lemma RecoveryKnown(padded: Bytes, j: nat, macs: set<Term>)
    requires KnownBytes(padded, macs)
    ensures KnownBytes(RecoveryShard(padded, j), macs)
  {
  }

  lemma NewKnown(data: Bytes, macs: set<Term>)
    requires KnownBytes(data, macs)
    ensures EncoderState.New(data).Ok? ==> KnownShards(EncoderState.New(data).value.shards, macs)
  {
    hide Codewords;
    CodewordsKnown(data, macs);
  }

  /** Everything a state has left to stream is known. */
  predicate EncKnown(s: State, macs: set<Term>)
  {
    match s
    case KeysSampled(_, _, _, ek, enc) => KnownBytes(ek, macs) && KnownShards(enc.shards, macs)
    case HeaderSent(_, _, _, _, enc) => KnownShards(enc.shards, macs)
    case Ct1Received(_, _, _, _, enc) => KnownShards(enc.shards, macs)
    case Ct1Sampled(_, _, _, _, _, enc, _) => KnownShards(enc.shards, macs)
    case EkReceivedCt1Sampled(_, _, _, _, _, enc) => KnownShards(enc.shards, macs)
    case Ct2Sampled(_, _, enc) => KnownShards(enc.shards, macs)
    case _ => true
  }

  lemma ShardsMonotone(shards: seq<Bytes>, macs: set<Term>, more: set<Term>)
    requires KnownShards(shards, macs) && macs <= more
    ensures KnownShards(shards, more)
  {
    forall i | 0 <= i < |shards| ensures KnownBytes(shards[i], more) { KnownBytesMonotone(shards[i], macs, more); }
  }

  lemma EncMonotone(s: State, macs: set<Term>, more: set<Term>)
    requires EncKnown(s, macs) && macs <= more
    ensures EncKnown(s, more)
  {
    hide KnownShards, KnownBytes;
    match s
    case KeysSampled(_, _, _, ek, enc) => KnownBytesMonotone(ek, macs, more); ShardsMonotone(enc.shards, macs, more);
    case HeaderSent(_, _, _, _, enc) => ShardsMonotone(enc.shards, macs, more);
    case Ct1Received(_, _, _, _, enc) => ShardsMonotone(enc.shards, macs, more);
    case Ct1Sampled(_, _, _, _, _, enc, _) => ShardsMonotone(enc.shards, macs, more);
    case EkReceivedCt1Sampled(_, _, _, _, _, enc) => ShardsMonotone(enc.shards, macs, more);
    case Ct2Sampled(_, _, enc) => ShardsMonotone(enc.shards, macs, more);
    case _ =>
  }

  lemma KnownConcat(x: Bytes, y: Bytes, macs: set<Term>)
    requires KnownBytes(x, macs) && KnownBytes(y, macs)
    ensures KnownBytes(x + y, macs)
  {
  }

  lemma SendKnown(s: State, coins: Term, macs: set<Term>)
    requires s.WellFormed() && EncKnown(s, macs) && (s.KeysUnsampled? ==> HdrMac(s, coins) in macs)
    ensures s.Send(coins).Ok?
    ensures EncKnown(s.Send(coins).value.next, macs) && KnownMessage(s.Send(coins).value.msg, macs)
  {
    SendStep(s, coins);
    hide Codewords, KnownBytes, DecoderState.Sized;
    match s
    case KeysUnsampled(e, auth) =>
      SpellKnown(Pk1(coins), PK1_LEN, macs);
      SpellKnown(Pk2(coins), PK2_LEN, macs);
      SpellKnown(HdrMac(s, coins), MAC_SIZE, macs);
      KnownConcat(HeaderOf(coins), auth.MacHdr(e, HeaderOf(coins)), macs);
      NewKnown(HeaderOf(coins) + auth.MacHdr(e, HeaderOf(coins)), macs);
    case HeaderReceived(_, _, header, _) =>
      SpellKnown(Ct1(header, coins), CT1_LEN, macs);
      NewKnown(Spell(Ct1(header, coins), CT1_LEN), macs);
    case _ =>
  }

  lemma Ct2Known(s: State, ek: Bytes, macs: set<Term>)
    requires (s.EkReceivedCt1Sampled? || s.Ct1Sampled? || s.Ct1Acknowledged?) && CtMac(s, ek) in macs
    ensures var r := BuildCt2Encoder(s.auth, s.ep, s.es, ek, s.ct1); r.Ok? ==> KnownShards(r.value.shards, macs)
  {
    hide Codewords, KnownBytes;
    var ct2 := Encapsulate2(s.es, ek);
    SpellKnown(Ct2(s.es.pk1, s.es.coins, ek), CT2_LEN, macs);
    SpellKnown(CtMac(s, ek), MAC_SIZE, macs);
    KnownConcat(ct2, s.auth.MacCt(s.ep, s.ct1 + ct2), macs);
    NewKnown(ct2 + s.auth.MacCt(s.ep, s.ct1 + ct2), macs);
  }

  lemma ReceiveKnownEnc(s: State, m: Message, macs: set<Term>)
    requires s.WellFormed() && EncKnown(s, macs) && CtMacs(s, m) <= macs
    ensures var r := s.Receive(m); r.Ok? ==> EncKnown(r.value.next, macs)
  {
    hide Codewords, KnownBytes, KnownShards, DecoderState.Sized, DecoderState.Message, BraidMachine.AddChunk,
         BuildCt2Encoder, Decapsulate, EncoderState.New, CtMac;
    match s
    case KeysSampled(_, _, _, ek, _) => NewKnown(ek, macs);
    case Ct1Sampled(_, _, _, _, _, _, ekDec) =>
      var dec := AddChunk(ekDec, m);
      if s.Receive(m).Ok? && s.Receive(m).value.next.Ct2Sampled? { Ct2Known(s, dec.value.Message().value.value, macs); }
    case EkReceivedCt1Sampled(_, _, _, _, ek, _) =>
      if s.Receive(m).Ok? && s.Receive(m).value.next.Ct2Sampled? { Ct2Known(s, ek, macs); }
    case Ct1Acknowledged(_, _, _, _, _, ekDec) =>
      var dec := AddChunk(ekDec, m);
      if s.Receive(m).Ok? && s.Receive(m).value.next.Ct2Sampled? { Ct2Known(s, dec.value.Message().value.value, macs); }
    case _ =>
  }

  predicate Streaming(w: World) { EncKnown(w.a, w.macs) && EncKnown(w.b, w.macs) }

  lemma StepStreaming(w: World, step: Step)
    requires w.Live() && Streaming(w)
    ensures w.macs <= Apply(w, step).macs && Streaming(Apply(w, step))
    ensures step.Send? ==> w.At(step.sender).Send(step.coins).Ok?
    ensures step.Send? ==> KnownMessage(w.At(step.sender).Send(step.coins).value.msg, Apply(w, step).macs)
  {
    hide State.Send, State.Receive, State.WellFormed, EncKnown, KnownMessage, CtMacs;
    var w' := Apply(w, step);
    EncMonotone(w.a, w.macs, w'.macs);
    EncMonotone(w.b, w.macs, w'.macs);
    match step
    case Send(p, coins) => SendKnown(w.At(p), coins, w'.macs);
    case Inject(q, m) =>
      if KnownMessage(m, w.macs) && w.At(q).Receive(m).Ok? { ReceiveKnownEnc(w.At(q), m, w'.macs); }
  }

  lemma {:induction false} RunStreaming(root: Term, trace: seq<Step>)
    ensures Streaming(Run(root, trace))
  {
    hide Streaming, Apply;
    if trace == [] {
      InitStreaming(root);
    } else {
      RunStreaming(root, trace[..|trace| - 1]);
      StepStreaming(Run(root, trace[..|trace| - 1]), trace[|trace| - 1]);
    }
  }

  lemma InitStreaming(root: Term)
    ensures Streaming(Init(root))
  {
  }

  lemma {:induction false} MacsGrow(root: Term, trace: seq<Step>, more: seq<Step>)
    ensures Run(root, trace).macs <= Run(root, trace + more).macs
  {
    hide Streaming, Apply;
    if more == [] {
      assert trace + more == trace;
    } else {
      var all, init := trace + more, more[..|more| - 1];
      assert all[..|all| - 1] == trace + init;
      MacsGrow(root, trace, init);
      RunStreaming(root, trace + init);
      StepStreaming(Run(root, trace + init), more[|more| - 1]);
    }
  }

  /** Whatever a party sends under attack, the network may deliver at any later time, to anyone. */
  lemma SentMayBeRelayed(root: Term, trace: seq<Step>, p: Party, coins: Term, more: seq<Step>)
    ensures Run(root, trace).At(p).Send(coins).Ok?
    ensures KnownMessage(Run(root, trace).At(p).Send(coins).value.msg, Run(root, trace + [Send(p, coins)] + more).macs)
  {
    hide Streaming, Apply, State.Send;
    var (w, mid) := (Run(root, trace), trace + [Send(p, coins)]);
    RunStreaming(root, trace);
    StepStreaming(w, Send(p, coins));
    assert mid[..|mid| - 1] == trace;
    MacsGrow(root, mid, more);
    var m := w.At(p).Send(coins).value.msg;
    if m.chunk.Some? {
      KnownBytesMonotone(m.chunk.value.data, Run(root, mid).macs, Run(root, mid + more).macs);
    }
  }
}
