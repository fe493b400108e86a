/** The ML-KEM braid state machine (src/protocol/braid/state_machine.rs). */
module BraidMachine {
  import opened Common
  import opened Symbolic
  import opened Erasure

  const INITIAL_EPOCH := 1
  const HDR_LEN := PK1_LEN + MAC_SIZE
  const CT2_MAC_LEN := CT2_LEN + MAC_SIZE

  datatype MsgType = Idle | Hdr | Ek | EkCt1Ack | Ct1Word | Ct2Word

  datatype Message = Message(epoch: nat, mtype: MsgType, chunk: Option<Chunk>)

  datatype EpochSecret = EpochSecret(epoch: nat, secret: Term)

  datatype Sent = Sent(next: State, msg: Message, secret: Option<EpochSecret>)

  datatype Received = Received(next: State, secret: Option<EpochSecret>)

  function Carrying(epoch: nat, mtype: MsgType, c: Chunk): Message { Message(epoch, mtype, Some(c)) }

  function IdleMessage(epoch: nat): Message { Message(epoch, Idle, None) }

  function AddChunk(dec: DecoderState, msg: Message): Result<DecoderState>
  {
    if msg.chunk.None? then Err(MissingCodeword) else dec.AddChunk(msg.chunk.value)
  }

  /** Encapsulate ct2 and start streaming `ct2 || mac`. */
  function BuildCt2Encoder(auth: Authenticator, epoch: nat, es: EncapsState, ek: Bytes, ct1: Bytes): Result<EncoderState>
  {
    var ct2 := Encapsulate2(es, ek);
    EncoderState.New(ct2 + auth.MacCt(epoch, ct1 + ct2))
  }

  datatype State =
    // key owner
    | KeysUnsampled(ep: nat, auth: Authenticator)
    | KeysSampled(ep: nat, auth: Authenticator, dk: Term, ekVector: Bytes, headerEnc: EncoderState)
    | HeaderSent(ep: nat, auth: Authenticator, dk: Term, ct1Dec: DecoderState, ekEnc: EncoderState)
    | Ct1Received(ep: nat, auth: Authenticator, dk: Term, ct1: Bytes, ekEnc: EncoderState)
    | EkSentCt1Received(ep: nat, auth: Authenticator, dk: Term, ct1: Bytes, ct2Dec: DecoderState)
    // encapsulator
    | NoHeaderReceived(ep: nat, auth: Authenticator, hdrDec: DecoderState)
    | HeaderReceived(ep: nat, auth: Authenticator, header: Bytes, ekDec: DecoderState)
    | Ct1Sampled(ep: nat, auth: Authenticator, header: Bytes, es: EncapsState, ct1: Bytes,
                 ct1Enc: EncoderState, ekDec: DecoderState)
    | EkReceivedCt1Sampled(ep: nat, auth: Authenticator, es: EncapsState, ct1: Bytes, ekVector: Bytes,
                           ct1Enc: EncoderState)
    | Ct1Acknowledged(ep: nat, auth: Authenticator, es: EncapsState, header: Bytes, ct1: Bytes, ekDec: DecoderState)
    | Ct2Sampled(ep: nat, auth: Authenticator, ct2Enc: EncoderState)
    // held only while a transition runs
    | Poisoned
  {
    function Epoch(): nat { if Poisoned? then 0 else ep }

    predicate IsOwner()
    {
      KeysUnsampled? || KeysSampled? || HeaderSent? || Ct1Received? || EkSentCt1Received?
    }

    /** Number of epoch secrets emitted so far: those of epochs 1 to `Done()`. */
    function Done(): nat
      requires !Poisoned? && ep >= INITIAL_EPOCH
    {
      if IsOwner() || NoHeaderReceived? || HeaderReceived? then ep - 1 else ep
    }

    /**
     Shape every constructed state has: buffers have the length of the object they hold,
     decoders are sized for the object they wait for, encoders have codewords to send.
     */
    predicate WellFormed()
    {
      !Poisoned? && ep >= INITIAL_EPOCH &&
      match this
      case KeysUnsampled(_, _) => true
      case KeysSampled(_, _, _, ek, henc) => |ek| == PK2_LEN && henc.shards != []
      case HeaderSent(_, _, _, dec, enc) => dec.Sized(CT1_LEN) && enc.shards != []
      case Ct1Received(_, _, _, c1, enc) => |c1| == CT1_LEN && enc.shards != []
      case EkSentCt1Received(_, _, _, c1, dec) => |c1| == CT1_LEN && dec.Sized(CT2_MAC_LEN)
      case NoHeaderReceived(_, _, dec) => dec.Sized(HDR_LEN)
      case HeaderReceived(_, _, h, dec) => |h| == PK1_LEN && dec.Sized(PK2_LEN)
      case Ct1Sampled(_, _, h, _, c1, enc, dec) =>
        |h| == PK1_LEN && |c1| == CT1_LEN && enc.shards != [] && dec.Sized(PK2_LEN)
      case EkReceivedCt1Sampled(_, _, _, c1, ek, enc) => |c1| == CT1_LEN && |ek| == PK2_LEN && enc.shards != []
      case Ct1Acknowledged(_, _, _, h, c1, dec) => |h| == PK1_LEN && |c1| == CT1_LEN && dec.Sized(PK2_LEN)
      case Ct2Sampled(_, _, enc) => enc.shards != []
    }

    /** `State::send`; `coins` is the randomness drawn by this call, if it draws any. */
    function Send(coins: Term): Result<Sent>
      requires Poisoned? || WellFormed()
    {
      match this
      case KeysUnsampled(e, auth) =>
        var header := HeaderOf(coins);
        var enc :- EncoderState.New(header + auth.MacHdr(e, header));
        var (enc', c) := enc.NextChunk();
        Ok(Sent(KeysSampled(e, auth, coins, EkVectorOf(coins), enc'), Carrying(e, Hdr, c), None))
      case KeysSampled(e, auth, dk, ek, enc) =>
        var (enc', c) := enc.NextChunk();
        Ok(Sent(KeysSampled(e, auth, dk, ek, enc'), Carrying(e, Hdr, c), None))
      case HeaderSent(e, auth, dk, dec, enc) =>
        var (enc', c) := enc.NextChunk();
        Ok(Sent(HeaderSent(e, auth, dk, dec, enc'), Carrying(e, Ek, c), None))
      case Ct1Received(e, auth, dk, c1, enc) =>
        var (enc', c) := enc.NextChunk();
        Ok(Sent(Ct1Received(e, auth, dk, c1, enc'), Carrying(e, EkCt1Ack, c), None))
      case EkSentCt1Received(e, _, _, _, _) => Ok(Sent(this, IdleMessage(e), None))
      case NoHeaderReceived(e, _, _) => Ok(Sent(this, IdleMessage(e), None))
      case HeaderReceived(e, auth, header, ekDec) =>
        var (ct1, es, raw) := Encapsulate1(header, coins);
        var ss := EpochKey(raw, e);
        var enc :- EncoderState.New(ct1);
        var (enc', c) := enc.NextChunk();
        Ok(Sent(Ct1Sampled(e, auth.Update(e, ss), header, es, ct1, enc', ekDec),
                Carrying(e, Ct1Word, c), Some(EpochSecret(e, ss))))
      case Ct1Sampled(e, auth, header, es, ct1, enc, ekDec) =>
        var (enc', c) := enc.NextChunk();
        Ok(Sent(Ct1Sampled(e, auth, header, es, ct1, enc', ekDec), Carrying(e, Ct1Word, c), None))
      case EkReceivedCt1Sampled(e, auth, es, ct1, ek, enc) =>
        var (enc', c) := enc.NextChunk();
        Ok(Sent(EkReceivedCt1Sampled(e, auth, es, ct1, ek, enc'), Carrying(e, Ct1Word, c), None))
      case Ct1Acknowledged(e, _, _, _, _, _) => Ok(Sent(this, IdleMessage(e), None))
      case Ct2Sampled(e, auth, enc) =>
        var (enc', c) := enc.NextChunk();
        Ok(Sent(Ct2Sampled(e, auth, enc'), Carrying(e, Ct2Word, c), None))
      case Poisoned => Err(Poison)
    }

    /** `State::receive`, dispatching to the handler of the current state. */
    function Receive(msg: Message): Result<Received>
      requires Poisoned? || WellFormed()
    {
      match this
      case KeysSampled(_, _, _, _, _) => RecvKeysSampled(msg)
      case HeaderSent(_, _, _, _, _) => RecvHeaderSent(msg)
      case Ct1Received(_, _, _, _, _) => RecvCt1Received(msg)
      case EkSentCt1Received(_, _, _, _, _) => RecvEkSentCt1Received(msg)
      case NoHeaderReceived(_, _, _) => RecvNoHeaderReceived(msg)
      case Ct1Sampled(_, _, _, _, _, _, _) => RecvCt1Sampled(msg)
      case EkReceivedCt1Sampled(_, _, _, _, _, _) => RecvEkReceivedCt1Sampled(msg)
      case Ct1Acknowledged(_, _, _, _, _, _) => RecvCt1Acknowledged(msg)
      case Ct2Sampled(_, _, _) => RecvCt2Sampled(msg)
      case _ => Ok(Received(this, None))
    }

    function RecvKeysSampled(msg: Message): Result<Received>
      requires KeysSampled?
    {
      if msg.epoch == ep && msg.mtype == Ct1Word then
        var ct1Dec :- AddChunk(DecoderState.New(CT1_LEN), msg);
        var ekEnc :- EncoderState.New(ekVector);
        Ok(Received(HeaderSent(ep, auth, dk, ct1Dec, ekEnc), None))
      else Ok(Received(this, None))
    }

    function RecvHeaderSent(msg: Message): Result<Received>
      requires HeaderSent?
    {
      if msg.epoch == ep && msg.mtype == Ct1Word then
        var dec :- AddChunk(ct1Dec, msg);
        var whole :- dec.Message();
        if whole.Some? then Ok(Received(Ct1Received(ep, auth, dk, whole.value, ekEnc), None))
        else Ok(Received(HeaderSent(ep, auth, dk, dec, ekEnc), None))
      else Ok(Received(this, None))
    }

    function RecvCt1Received(msg: Message): Result<Received>
      requires Ct1Received?
    {
      if msg.epoch == ep && msg.mtype == Ct2Word then
        var dec :- AddChunk(DecoderState.New(CT2_MAC_LEN), msg);
        Ok(Received(EkSentCt1Received(ep, auth, dk, ct1, dec), None))
      else Ok(Received(this, None))
    }

    function RecvEkSentCt1Received(msg: Message): Result<Received>
      requires EkSentCt1Received? && ct2Dec.Sized(CT2_MAC_LEN)
    {
      if msg.epoch == ep && msg.mtype == Ct2Word then
        var dec :- AddChunk(ct2Dec, msg);
        var whole :- dec.Message();
        if whole.Some? then
          MessageLength(dec);
          var ct2, mac := whole.value[..CT2_LEN], whole.value[CT2_LEN..];
          var raw :- Decapsulate(dk, ct1, ct2);
          var ss := EpochKey(raw, ep);
          var nextAuth := auth.Update(ep, ss);
          if nextAuth.VfyCt(ep, ct1 + ct2, mac) then
            Ok(Received(NoHeaderReceived(ep + 1, nextAuth, DecoderState.New(HDR_LEN)), Some(EpochSecret(ep, ss))))
          else
            Ok(Received(EkSentCt1Received(ep, auth, dk, ct1, DecoderState.New(dec.len)), None))
        else Ok(Received(EkSentCt1Received(ep, auth, dk, ct1, dec), None))
      else Ok(Received(this, None))
    }

    function RecvNoHeaderReceived(msg: Message): Result<Received>
      requires NoHeaderReceived? && hdrDec.Sized(HDR_LEN)
    {
      if msg.epoch == ep && msg.mtype == Hdr then
        var dec :- AddChunk(hdrDec, msg);
        var whole :- dec.Message();
        if whole.Some? then
          MessageLength(dec);
          var header, mac := whole.value[..PK1_LEN], whole.value[PK1_LEN..];
          if auth.VfyHdr(ep, header, mac) then
            Ok(Received(HeaderReceived(ep, auth, header, DecoderState.New(PK2_LEN)), None))
          else
            Ok(Received(NoHeaderReceived(ep, auth, DecoderState.New(dec.len)), None))
        else Ok(Received(NoHeaderReceived(ep, auth, dec), None))
      else Ok(Received(this, None))
    }

    function RecvCt1Sampled(msg: Message): Result<Received>
      requires Ct1Sampled?
    {
      var isEk := msg.epoch == ep && msg.mtype == Ek;
      var isAck := msg.epoch == ep && msg.mtype == EkCt1Ack;
      if isEk || isAck then
        var dec :- AddChunk(ekDec, msg);
        var whole :- dec.Message();
        if whole.Some? then
          if !ValidPublicKey(header, whole.value) then Err(KeyMismatch)
          else if isAck then
            var enc :- BuildCt2Encoder(auth, ep, es, whole.value, ct1);
            Ok(Received(Ct2Sampled(ep, auth, enc), None))
          else Ok(Received(EkReceivedCt1Sampled(ep, auth, es, ct1, whole.value, ct1Enc), None))
        else if isAck then Ok(Received(Ct1Acknowledged(ep, auth, es, header, ct1, dec), None))
        else Ok(Received(Ct1Sampled(ep, auth, header, es, ct1, ct1Enc, dec), None))
      else Ok(Received(this, None))
    }

    function RecvEkReceivedCt1Sampled(msg: Message): Result<Received>
      requires EkReceivedCt1Sampled?
    {
      if msg.epoch == ep && msg.mtype == EkCt1Ack then
        var enc :- BuildCt2Encoder(auth, ep, es, ekVector, ct1);
        Ok(Received(Ct2Sampled(ep, auth, enc), None))
      else Ok(Received(this, None))
    }

    function RecvCt1Acknowledged(msg: Message): Result<Received>
      requires Ct1Acknowledged?
    {
      if msg.epoch == ep && msg.mtype == EkCt1Ack then
        var dec :- AddChunk(ekDec, msg);
        var whole :- dec.Message();
        if whole.Some? then
          if !ValidPublicKey(header, whole.value) then Err(KeyMismatch)
          else
            var enc :- BuildCt2Encoder(auth, ep, es, whole.value, ct1);
            Ok(Received(Ct2Sampled(ep, auth, enc), None))
        else Ok(Received(Ct1Acknowledged(ep, auth, es, header, ct1, dec), None))
      else Ok(Received(this, None))
    }

    function RecvCt2Sampled(msg: Message): Result<Received>
      requires Ct2Sampled?
    {
      if msg.epoch == ep + 1 then Ok(Received(KeysUnsampled(ep + 1, auth), None))
      else Ok(Received(this, None))
    }
  }

  function InitSender(seed: Term): State { KeysUnsampled(INITIAL_EPOCH, Authenticator.Init(INITIAL_EPOCH, seed)) }

  function InitReceiver(seed: Term): State
  {
    NoHeaderReceived(INITIAL_EPOCH, Authenticator.Init(INITIAL_EPOCH, seed), DecoderState.New(HDR_LEN))
  }

  /** The party whose key pair is used in epoch e; the roles swap every epoch. */
  function Owner(e: nat): Party { if e % 2 == 1 then Alice else Bob }

  // ---- single-party facts, for arbitrary incoming messages ------------------------

  /**
   Sending never fails and keeps the epoch. It emits a secret exactly when it leaves
   `HeaderReceived`, and then the secret of the next epoch in order.
   */
  lemma SendStep(s: State, coins: Term)
    requires s.WellFormed()
    ensures var r := s.Send(coins);
      && r.Ok? && r.value.next.WellFormed()
      && r.value.next.ep == s.ep == r.value.msg.epoch
      && r.value.next.IsOwner() == s.IsOwner()
      && (r.value.secret.Some? <==> s.HeaderReceived?)
      && (r.value.secret.Some? ==> r.value.secret.value.epoch == s.Done() + 1)
      && r.value.next.Done() == s.Done() + (if r.value.secret.Some? then 1 else 0)
      && !r.value.next.KeysUnsampled? && !r.value.next.HeaderReceived?
  {
  }

  lemma AddChunkSized(dec: DecoderState, msg: Message, n: nat)
    requires dec.Sized(n)
    ensures AddChunk(dec, msg).Ok? ==> AddChunk(dec, msg).value.Sized(n)
  {
  }

  /** Not yet sent in the current epoch, as far as the state shows. */
  predicate Unsent(s: State) { s.KeysUnsampled? || s.NoHeaderReceived? || s.HeaderReceived? }

  predicate InOrder(s: State, next: State, secret: Option<EpochSecret>)
    requires s.WellFormed() && next.WellFormed()
  {
    && s.ep <= next.ep <= s.ep + 1
    && (next.IsOwner() == s.IsOwner() <==> next.ep == s.ep)
    && (secret.Some? <==> s.IsOwner() && next.ep == s.ep + 1)
    && (secret.Some? ==> secret.value.epoch == s.Done() + 1)
    && next.Done() == s.Done() + (if secret.Some? then 1 else 0)
    && (next.ep == s.ep + 1 ==> s.EkSentCt1Received? || s.Ct2Sampled?)
    && (next.ep == s.ep && Unsent(next) ==> Unsent(s))
  }

  lemma ReceiveStepOwner(s: State, msg: Message)
    requires s.WellFormed() && s.IsOwner()
    ensures var r := s.Receive(msg);
      r.Ok? ==> r.value.next.WellFormed() && InOrder(s, r.value.next, r.value.secret)
  {
    hide DecoderState.Message, Codewords;
    match s
    case KeysUnsampled(_, _) =>
    case KeysSampled(_, _, _, _, _) => AddChunkSized(DecoderState.New(CT1_LEN), msg, CT1_LEN);
    case HeaderSent(_, _, _, dec, _) =>
      AddChunkSized(dec, msg, CT1_LEN);
      if AddChunk(dec, msg).Ok? { MessageLength(AddChunk(dec, msg).value); }
    case Ct1Received(_, _, _, _, _) => AddChunkSized(DecoderState.New(CT2_MAC_LEN), msg, CT2_MAC_LEN);
    case EkSentCt1Received(_, _, _, _, dec) => AddChunkSized(dec, msg, CT2_MAC_LEN);
  }

  lemma BuildCt2Shape(auth: Authenticator, epoch: nat, es: EncapsState, ek: Bytes, ct1: Bytes)
    ensures var r := BuildCt2Encoder(auth, epoch, es, ek, ct1); r.Ok? && r.value.shards != []
  {
  }

  lemma ReceiveStepCt1Sampled(s: State, msg: Message)
    requires s.WellFormed() && (s.Ct1Sampled? || s.Ct1Acknowledged?)
    ensures var r := s.Receive(msg);
      r.Ok? ==> r.value.next.WellFormed() && InOrder(s, r.value.next, r.value.secret)
  {
    hide DecoderState.Message, Codewords;
    AddChunkSized(s.ekDec, msg, PK2_LEN);
    if AddChunk(s.ekDec, msg).Ok? {
      var dec := AddChunk(s.ekDec, msg).value;
      MessageLength(dec);
      if dec.Message().Ok? && dec.Message().value.Some? {
        BuildCt2Shape(s.auth, s.ep, s.es, dec.Message().value.value, s.ct1);
      }
    }
  }

  /**
   Whatever arrives, a receive that succeeds leaves a well-formed state, moves at most one
   epoch ahead, changes role exactly when the epoch advances, and emits a secret exactly
   when a key owner finishes its epoch - again the secret of the next epoch in order. An
   epoch cannot be left from a state that has not sent in it.
   */
  lemma ReceiveStep(s: State, msg: Message)
    requires s.WellFormed()
    ensures var r := s.Receive(msg);
      r.Ok? ==> r.value.next.WellFormed() && InOrder(s, r.value.next, r.value.secret)
  {
    hide DecoderState.Message, Codewords;
    if s.IsOwner() {
      ReceiveStepOwner(s, msg);
    } else if s.Ct1Sampled? || s.Ct1Acknowledged? {
      ReceiveStepCt1Sampled(s, msg);
    } else if s.NoHeaderReceived? {
      AddChunkSized(s.hdrDec, msg, HDR_LEN);
      if AddChunk(s.hdrDec, msg).Ok? { MessageLength(AddChunk(s.hdrDec, msg).value); }
    } else if s.EkReceivedCt1Sampled? {
      BuildCt2Shape(s.auth, s.ep, s.es, s.ekVector, s.ct1);
    }
  }

  /** The transitions a receive can make, and the message each one takes. */
  predicate Moves(s: State, m: Message, next: State)
    requires s.WellFormed() && next.WellFormed()
  {
    || (next.ep == s.ep && SameKind(s, next))
    || (next.ep == s.ep == m.epoch &&
         match m.mtype
         case Ct1Word => (s.KeysSampled? && next.HeaderSent?) || (s.HeaderSent? && next.Ct1Received?)
         case Ct2Word => s.Ct1Received? && next.EkSentCt1Received?
         case Hdr => s.NoHeaderReceived? && next.HeaderReceived?
         case Ek => s.Ct1Sampled? && next.EkReceivedCt1Sampled?
         case EkCt1Ack =>
           || (s.Ct1Sampled? && (next.Ct1Acknowledged? || next.Ct2Sampled?))
           || ((s.EkReceivedCt1Sampled? || s.Ct1Acknowledged?) && next.Ct2Sampled?)
         case Idle => false)
    || (next.ep == s.ep + 1 && s.EkSentCt1Received? && m.epoch == s.ep && m.mtype == Ct2Word && next.NoHeaderReceived?)
    || (next.ep == s.ep + 1 && s.Ct2Sampled? && m.epoch == s.ep + 1 && next.KeysUnsampled?)
  }

  predicate SameKind(s: State, t: State)
  {
    && s.KeysUnsampled? == t.KeysUnsampled? && s.KeysSampled? == t.KeysSampled?
    && s.HeaderSent? == t.HeaderSent? && s.Ct1Received? == t.Ct1Received?
    && s.EkSentCt1Received? == t.EkSentCt1Received? && s.NoHeaderReceived? == t.NoHeaderReceived?
    && s.HeaderReceived? == t.HeaderReceived? && s.Ct1Sampled? == t.Ct1Sampled?
    && s.EkReceivedCt1Sampled? == t.EkReceivedCt1Sampled? && s.Ct1Acknowledged? == t.Ct1Acknowledged?
    && s.Ct2Sampled? == t.Ct2Sampled?
  }

  lemma ReceiveMoves(s: State, msg: Message)
    requires s.WellFormed()
    ensures var r := s.Receive(msg);
      r.Ok? ==> r.value.next.WellFormed() && Moves(s, msg, r.value.next)
  {
    hide DecoderState.Message, Codewords, AddChunk, BuildCt2Encoder, Decapsulate, State.WellFormed, InOrder, Moves, State.Receive;
    ReceiveStep(s, msg);
    if s.IsOwner() { ReceiveMovesOwner(s, msg); } else { ReceiveMovesOther(s, msg); }
  }

  lemma ReceiveMovesOwner(s: State, msg: Message)
    requires s.WellFormed() && s.IsOwner()
    requires s.Receive(msg).Ok? ==> s.Receive(msg).value.next.WellFormed()
    ensures s.Receive(msg).Ok? ==> Moves(s, msg, s.Receive(msg).value.next)
  {
    hide DecoderState.Message, Codewords, AddChunk, BuildCt2Encoder, Decapsulate, State.WellFormed, Authenticator.VfyCt;
  }

  lemma ReceiveMovesOther(s: State, msg: Message)
    requires s.WellFormed() && !s.IsOwner()
    requires s.Receive(msg).Ok? ==> s.Receive(msg).value.next.WellFormed()
    ensures s.Receive(msg).Ok? ==> Moves(s, msg, s.Receive(msg).value.next)
  {
    hide DecoderState.Message, Codewords, AddChunk, BuildCt2Encoder, ValidPublicKey, State.WellFormed, Authenticator.VfyHdr;
  }

  /** The braid reports only its own errors. */
  lemma ReceiveErrors(s: State, msg: Message)
    requires s.WellFormed()
    ensures var r := s.Receive(msg);
      r.Err? ==> r.error in {EmptyMessage, CodecUnsupported, CodewordLength, CodewordIndex, MissingCodeword, KeyMismatch, BadLength}
  {
    hide Codewords, DecoderState.DataShards, Join, State.WellFormed;
  }

  /** The buffer a message's codeword goes into, if the state takes the message at all. */
  function Target(s: State, m: Message): Option<DecoderState>
    requires !s.Poisoned?
  {
    if m.epoch != s.ep then None
    else match m.mtype
      case Ct1Word => if s.KeysSampled? then Some(DecoderState.New(CT1_LEN)) else if s.HeaderSent? then Some(s.ct1Dec) else None
      case Ct2Word =>
        if s.Ct1Received? then Some(DecoderState.New(CT2_MAC_LEN)) else if s.EkSentCt1Received? then Some(s.ct2Dec) else None
      case Hdr => if s.NoHeaderReceived? then Some(s.hdrDec) else None
      case Ek => if s.Ct1Sampled? then Some(s.ekDec) else None
      case EkCt1Ack => if s.Ct1Sampled? || s.Ct1Acknowledged? then Some(s.ekDec) else None
      case Idle => None
  }

  /** The word completes a key vector that does not belong to the header. */
  predicate WrongVector(s: State, dec: DecoderState)
  {
    && (s.Ct1Sampled? || s.Ct1Acknowledged?)
    && dec.Message().Ok? && dec.Message().value.Some? && !ValidPublicKey(s.header, dec.Message().value.value)
  }

  /** Why a state refuses a codeword meant for it, if it does. */
  function Refusal(s: State, dec: DecoderState, m: Message): Option<Error>
  {
    if m.chunk.None? then Some(MissingCodeword)
    else if |m.chunk.value.data| != 32 then Some(CodewordLength)
    else if m.chunk.value.index >= TotalShards(dec.len) then Some(CodewordIndex)
    else if AddChunk(dec, m).Ok? && WrongVector(s, AddChunk(dec, m).value) then Some(KeyMismatch)
    else None
  }

  lemma NeverUnsupported(d: DecoderState, n: nat)
    requires d.Sized(n) && CodecSupports(n)
    ensures d.Message().Ok?
  {
  }

  lemma AddChunkRefuses(dec: DecoderState, m: Message)
    ensures AddChunk(dec, m).Ok? <==> m.chunk.Some? && |m.chunk.value.data| == 32 && m.chunk.value.index < TotalShards(dec.len)
    ensures AddChunk(dec, m).Err? ==>
      AddChunk(dec, m).error ==
        (if m.chunk.None? then MissingCodeword else if |m.chunk.value.data| != 32 then CodewordLength else CodewordIndex)
  {
  }

  lemma NewNeverFails(data: Bytes)
    requires data != [] && CodecSupports(|data|)
    ensures EncoderState.New(data).Ok?
  {
  }

  /**
   For every state and every message: a receive fails exactly if the state takes the message
   and its codeword is missing, has not 32 bytes, has an index past the last codeword, or
   completes a key vector of another header, and then with that error.
   */
  lemma ReceiveFailsExactly(s: State, m: Message)
    requires s.WellFormed()
    ensures var (r, t) := (s.Receive(m), Target(s, m));
      var why := if t.Some? then Refusal(s, t.value, m) else None;
      (r.Err? <==> why.Some?) && (r.Err? ==> r.error == why.value)
  {
    hide DecoderState.Message, Codewords, AddChunk, BuildCt2Encoder, ValidPublicKey, DecoderState.Sized, EncoderState.New;
    if s.IsOwner() { OwnerFailsExactly(s, m); } else { OtherFailsExactly(s, m); }
  }

  lemma OwnerFailsExactly(s: State, m: Message)
    requires s.WellFormed() && s.IsOwner()
    ensures var (r, t) := (s.Receive(m), Target(s, m));
      var why := if t.Some? then Refusal(s, t.value, m) else None;
      (r.Err? <==> why.Some?) && (r.Err? ==> r.error == why.value)
  {
    hide DecoderState.Message, Codewords, AddChunk, DecoderState.Sized, EncoderState.New, Authenticator.VfyCt;
    var t := Target(s, m);
    if t.Some? {
      AddChunkRefuses(t.value, m);
      if s.KeysSampled? { NewNeverFails(s.ekVector); }
      if AddChunk(t.value, m).Ok? && (s.HeaderSent? || s.EkSentCt1Received?) {
        var n := if s.HeaderSent? then CT1_LEN else CT2_MAC_LEN;
        AddChunkSized(t.value, m, n);
        NeverUnsupported(AddChunk(t.value, m).value, n);
        if s.EkSentCt1Received? { MessageLength(AddChunk(t.value, m).value); SizedLen(AddChunk(t.value, m).value, n); }
      }
    }
  }

  lemma SizedLen(d: DecoderState, n: nat)
    requires d.Sized(n)
    ensures d.len == n
  {
  }

  lemma OtherFailsExactly(s: State, m: Message)
    requires s.WellFormed() && !s.IsOwner()
    ensures var (r, t) := (s.Receive(m), Target(s, m));
      var why := if t.Some? then Refusal(s, t.value, m) else None;
      (r.Err? <==> why.Some?) && (r.Err? ==> r.error == why.value)
  {
    hide DecoderState.Message, Codewords, AddChunk, BuildCt2Encoder, ValidPublicKey, DecoderState.Sized, Authenticator.VfyHdr;
    var t := Target(s, m);
    if s.EkReceivedCt1Sampled? { BuildCt2Shape(s.auth, s.ep, s.es, s.ekVector, s.ct1); }
    if t.Some? {
      AddChunkRefuses(t.value, m);
      if AddChunk(t.value, m).Ok? {
        var n := if s.NoHeaderReceived? then HDR_LEN else PK2_LEN;
        var dec := AddChunk(t.value, m).value;
        AddChunkSized(t.value, m, n);
        NeverUnsupported(dec, n);
        if !s.NoHeaderReceived? && dec.Message().value.Some? { BuildCt2Shape(s.auth, s.ep, s.es, dec.Message().value.value, s.ct1); }
      }
    }
  }

  // ---- the party object -----------------------------------------------------------

  /** One party's braid session; the state is replaced in place. */
  class BraidState {
    var state: State

    constructor Sender(seed: Term)
      ensures state == InitSender(seed)
    {
      state := InitSender(seed);
    }

    constructor Receiver(seed: Term)
      ensures state == InitReceiver(seed)
    {
      state := InitReceiver(seed);
    }

    /** `SCKASend`: commit on success, restore the snapshot on error. */
    method Send(coins: Term) returns (r: Result<(Message, nat, Option<EpochSecret>)>)
      requires state.Poisoned? || state.WellFormed()
      modifies this
      ensures r.Ok? <==> old(state).WellFormed()
      ensures r.Ok? ==> state.WellFormed() && old(state).Send(coins) == Ok(Sent(state, r.value.0, r.value.2))
      ensures r.Ok? ==> r.value.1 == old(state).ep - 1
      ensures r.Err? ==> state == old(state) && r.error == Poison
    {
      var snapshot := state;
      state := Poisoned;
      var out := snapshot.Send(coins);
      if snapshot.WellFormed() { SendStep(snapshot, coins); }
      match out
      case Ok(s) =>
        state := s.next;
        return Ok((s.msg, if state.Epoch() >= 1 then state.Epoch() - 1 else 0, s.secret));
      case Err(e) =>
        state := snapshot;
        return Err(e);
    }

    /** `SCKAReceive`: an error leaves the state exactly as it was, never `Poisoned`. */
    method Receive(msg: Message) returns (r: Result<(nat, Option<EpochSecret>)>)
      requires state.WellFormed()
      modifies this
      ensures state.WellFormed()
      ensures r.Ok? <==> old(state).Receive(msg).Ok?
      ensures r.Ok? ==> old(state).Receive(msg) == Ok(Received(state, r.value.1))
      ensures r.Ok? ==> r.value.0 == if msg.epoch >= 1 then msg.epoch - 1 else 0
      ensures r.Err? ==> state == old(state) && old(state).Receive(msg) == Err(r.error)
    {
      var receivingEpoch := if msg.epoch >= 1 then msg.epoch - 1 else 0;
      var snapshot := state;
      state := Poisoned;
      var out := snapshot.Receive(msg);
      ReceiveStep(snapshot, msg);
      match out
      case Ok(s) =>
        state := s.next;
        return Ok((receivingEpoch, s.secret));
      case Err(e) =>
        state := snapshot;
        return Err(e);
    }
  }
}
