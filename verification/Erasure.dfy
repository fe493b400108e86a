/**
 Streaming erasure coding (src/protocol/braid/erasure.rs).

 The Reed-Solomon codec itself is outside the repository: a recovery shard is a symbolic
 value naming the padded message it was computed from, and `CodecOriginals` recovers them
 exactly when all received codewords come from one message.
 */
module Erasure {
  import opened Common
  import opened Symbolic

  const CHUNK_BYTES := 32
  const RECOVERY_MULTIPLE := 8
  const MAX_RECOVERY_SHARDS := 1024
  const U16_VALUES := 0x1_0000

  function DataShardsFor(len: nat): (k: nat)
    ensures k >= 1 && CHUNK_BYTES * k >= len
    ensures k == 1 || CHUNK_BYTES * (k - 1) < len
  {
    if len == 0 then 1 else (len + CHUNK_BYTES - 1) / CHUNK_BYTES
  }

  function RecoveryShardsFor(len: nat): (r: nat)
    ensures 1 <= r <= MAX_RECOVERY_SHARDS
  {
    var r := DataShardsFor(len) * RECOVERY_MULTIPLE;
    if r <= MAX_RECOVERY_SHARDS then r else MAX_RECOVERY_SHARDS
  }

  function TotalShards(len: nat): nat { DataShardsFor(len) + RecoveryShardsFor(len) }

  /** Shard counts GF(2^16) supports; then every codeword index fits in a u16. */
  predicate CodecSupports(len: nat) { TotalShards(len) <= U16_VALUES }

  datatype Chunk = Chunk(index: nat, data: Bytes)

  // ---- codewords of one message -------------------------------------------------

  function Padded(data: Bytes): (p: Bytes)
    ensures |p| == CHUNK_BYTES * DataShardsFor(|data|)
    ensures p[..|data|] == data
  {
    data + seq(CHUNK_BYTES * DataShardsFor(|data|) - |data|, _ => Lit(0))
  }

  /** Zeros fill the last shard. */
  lemma PaddedWithZeros(data: Bytes, i: nat)
    requires |data| <= i < CHUNK_BYTES * DataShardsFor(|data|)
    ensures Padded(data)[i] == Lit(0)
  {
  }

  /** Shard i of a padded message of k shards. */
  function Shard(padded: Bytes, k: nat, i: nat): (b: Bytes)
    requires |padded| == CHUNK_BYTES * k && i < k
    ensures |b| == CHUNK_BYTES
  {
    padded[CHUNK_BYTES * i .. CHUNK_BYTES * i + CHUNK_BYTES]
  }

  function Shards(padded: Bytes, k: nat): (s: seq<Bytes>)
    requires |padded| == CHUNK_BYTES * k
    ensures |s| == k
    ensures forall i :: 0 <= i < k ==> s[i] == Shard(padded, k, i)
  {
    seq(k, i requires 0 <= i < k => Shard(padded, k, i))
  }

  function Originals(data: Bytes): seq<Bytes> { Shards(Padded(data), DataShardsFor(|data|)) }

  function RecoveryShard(padded: Bytes, j: nat): Bytes
  {
    Spell(Recovery(padded, j), CHUNK_BYTES)
  }

  function Codewords(data: Bytes): (s: seq<Bytes>)
    ensures |s| == TotalShards(|data|)
    ensures forall i :: 0 <= i < |s| ==> |s[i]| == CHUNK_BYTES
  {
    Originals(data) +
    seq(RecoveryShardsFor(|data|),
        j requires 0 <= j < RecoveryShardsFor(|data|) => RecoveryShard(Padded(data), j))
  }

  // ---- encoder ------------------------------------------------------------------

  datatype EncoderState = EncoderState(shards: seq<Bytes>, cursor: nat) {
    static function New(data: Bytes): Result<EncoderState>
    {
      if data == [] then Err(EmptyMessage)
      else if !CodecSupports(|data|) then Err(CodecUnsupported)
      else Ok(EncoderState(Codewords(data), 0))
    }

    function NextChunk(): (EncoderState, Chunk)
      requires shards != []
    {
      var index := cursor % |shards|;
      (EncoderState(shards, cursor + 1), Chunk(index % U16_VALUES, shards[index]))
    }

    /** The encoder streams exactly the codewords of `data`. */
    predicate Streams(data: Bytes)
    {
      data != [] && CodecSupports(|data|) && shards == Codewords(data)
    }
  }

  /** An encoder is refused exactly for an empty message or one with more codewords than the codec supports. */
  lemma EncodesExactly(data: Bytes)
    ensures EncoderState.New(data) ==
      if data == [] then Err(EmptyMessage)
      else if DataShardsFor(|data|) + RecoveryShardsFor(|data|) > 65536 then Err(CodecUnsupported)
      else Ok(EncoderState(Codewords(data), 0))
  {
    hide Codewords;
  }

  // ---- decoder ------------------------------------------------------------------

  datatype DecoderState = DecoderState(len: nat, received: map<nat, Bytes>) {
    static function New(len: nat): DecoderState { DecoderState(len, map[]) }

    /** What `Decoder::new(len)` followed by `add_chunk` calls can build. */
    predicate Sized(n: nat)
    {
      && len == n
      && forall i :: i in received ==> i < TotalShards(len) && |received[i]| == CHUNK_BYTES
    }

    function AddChunk(c: Chunk): Result<DecoderState>
    {
      if |c.data| != CHUNK_BYTES then Err(CodewordLength)
      else if c.index >= TotalShards(len) then Err(CodewordIndex)
      else if c.index in received then Ok(this)
      else Ok(DecoderState(len, received[c.index := c.data]))
    }

    predicate HasMessage() { |received| >= DataShardsFor(len) }

    predicate AllOriginals()
    {
      forall i :: 0 <= i < DataShardsFor(len) ==> i in received
    }

    /** The data shards `message` copies out, in order. */
    function DataShards(): (s: seq<Bytes>)
      ensures |s| == DataShardsFor(len)
    {
      var k := DataShardsFor(len);
      if AllOriginals() then seq(k, i requires 0 <= i < k => received[i])
      else
        var restored := CodecOriginals(len, received);
        seq(k, i requires 0 <= i < k => if i in received then received[i] else restored[i])
    }

    function Message(): Result<Option<Bytes>>
    {
      if !HasMessage() then Ok(None)
      else if !AllOriginals() && !CodecSupports(len) then Err(CodecUnsupported)
      else
        var out := Join(DataShards());
        Ok(Some(if len <= |out| then out[..len] else out))
    }

    /** Every codeword held belongs to `data`, whose length the decoder was made for. */
    predicate Holds(data: Bytes)
    {
      && len == |data|
      && forall i :: i in received ==> i < TotalShards(len) && received[i] == Codewords(data)[i]
    }
  }

  function Join(shards: seq<Bytes>): Bytes
  {
    if shards == [] then [] else Join(shards[..|shards| - 1]) + shards[|shards| - 1]
  }

  /** Index of the first recovery codeword held, or the total if there is none. */
  function FirstRecovery(len: nat, received: map<nat, Bytes>, from: nat): (j: nat)
    requires from <= TotalShards(len)
    ensures from <= j <= TotalShards(len)
    ensures j < TotalShards(len) ==> j in received
    ensures j == TotalShards(len) ==> forall i :: from <= i < j ==> i !in received
    decreases TotalShards(len) - from
  {
    if from == TotalShards(len) || from in received then from
    else FirstRecovery(len, received, from + 1)
  }

  /**
   `reed_solomon_simd::decode`, as a contract: a recovery codeword names the originals it
   was computed from, and if everything received agrees with those originals they are the
   answer. Codewords of different messages decode to a value equal to neither.
   */
  function CodecOriginals(len: nat, received: map<nat, Bytes>): (s: seq<Bytes>)
    ensures |s| == DataShardsFor(len)
    ensures forall i :: 0 <= i < |s| ==> |s[i]| == CHUNK_BYTES
  {
    var k := DataShardsFor(len);
    var j := FirstRecovery(len, received, k);
    if
      && j < TotalShards(len) && |received[j]| == CHUNK_BYTES
      && received[j][0].Of? && received[j][0].term.Recovery?
      && var p := received[j][0].term.message;
         && |p| == CHUNK_BYTES * k
         && forall i :: i in received ==> received[i] == if i < k then Shard(p, k, i) else RecoveryShard(p, i - k)
    then Shards(received[j][0].term.message, k)
    else seq(k, i requires 0 <= i < k => Spell(Mixture(received, i), CHUNK_BYTES))
  }

  lemma {:induction false} JoinLength(shards: seq<Bytes>)
    requires forall i :: 0 <= i < |shards| ==> |shards[i]| == CHUNK_BYTES
    ensures |Join(shards)| == CHUNK_BYTES * |shards|
  {
    if shards != [] {
      JoinLength(shards[..|shards| - 1]);
    }
  }

  /** Whatever the codewords are, a reconstructed message has the announced length. */
  lemma MessageLength(d: DecoderState)
    requires d.Sized(d.len)
    ensures d.Message().Ok? && d.Message().value.Some? ==> |d.Message().value.value| == d.len
  {
    JoinLength(d.DataShards());
  }

  // ---- lemmas -------------------------------------------------------------------

  lemma {:induction false} JoinPrefix(data: Bytes, n: nat)
    requires n <= DataShardsFor(|data|)
    ensures Join(Originals(data)[..n]) == Padded(data)[..CHUNK_BYTES * n]
  {
    if n > 0 {
      JoinPrefix(data, n - 1);
      var o := Originals(data)[..n];
      assert o[..n - 1] == Originals(data)[..n - 1];
      assert o[n - 1] == Shard(Padded(data), DataShardsFor(|data|), n - 1);
      assert Padded(data)[..CHUNK_BYTES * (n - 1)] + o[n - 1] == Padded(data)[..CHUNK_BYTES * n];
    }
  }

  /** Cutting a message into shards and joining them back loses only the padding. */
  lemma JoinOriginals(data: Bytes)
    ensures Join(Originals(data)) == Padded(data)
  {
    JoinPrefix(data, DataShardsFor(|data|));
    assert Originals(data)[..DataShardsFor(|data|)] == Originals(data);
    assert Padded(data)[..CHUNK_BYTES * DataShardsFor(|data|)] == Padded(data);
  }

  /** A recovery codeword of the message makes the codec return the message's originals. */
  lemma CodecRecovers(d: DecoderState, data: Bytes)
    requires d.Holds(data)
    requires exists j :: j in d.received && j >= DataShardsFor(d.len)
    ensures CodecOriginals(d.len, d.received) == Originals(data)
  {
    var k := DataShardsFor(d.len);
    var j := FirstRecovery(d.len, d.received, k);
    assert d.received[j] == Codewords(data)[j] == RecoveryShard(Padded(data), j - k);
    assert d.received[j][0] == Of(Recovery(Padded(data), j - k), 0);
    forall i | i in d.received
      ensures d.received[i] == if i < k then Shard(Padded(data), k, i) else RecoveryShard(Padded(data), i - k)
    {
      assert d.received[i] == Codewords(data)[i];
    }
  }

  lemma {:induction false} KeysBelow(s: set<nat>, n: nat)
    requires forall i :: i in s ==> i < n
    ensures |s| <= n
    ensures |s| == n ==> forall i :: 0 <= i < n ==> i in s
    decreases n
  {
    if n > 0 {
      var t := s - {n - 1};
      KeysBelow(t, n - 1);
      if n - 1 in s {
        assert |s| == |t| + 1;
        assert forall i :: 0 <= i < n - 1 && i in t ==> i in s;
      } else {
        assert t == s;
      }
    } else {
      assert s == {};
    }
  }

  /** With k codewords, either all originals are there or some recovery codeword is. */
  lemma EnoughCodewords(d: DecoderState)
    requires d.HasMessage() && !d.AllOriginals()
    ensures exists j :: j in d.received && j >= DataShardsFor(d.len)
  {
    if forall j :: j in d.received ==> j < DataShardsFor(d.len) {
      KeysBelow(d.received.Keys, DataShardsFor(d.len));
    }
  }

  /**
   Any k distinct codewords determine the message, by whichever path `message` takes;
   with fewer the decoder keeps waiting.
   */
  lemma MessageExact(d: DecoderState, data: Bytes)
    requires d.Holds(data) && CodecSupports(|data|)
    ensures d.Message() == Ok(if |d.received| >= DataShardsFor(|data|) then Some(data) else None)
  {
    if d.HasMessage() {
      var k := DataShardsFor(d.len);
      if !d.AllOriginals() {
        EnoughCodewords(d);
        CodecRecovers(d, data);
      }
      forall i | 0 <= i < k ensures d.DataShards()[i] == Originals(data)[i] {
        if i in d.received {
          assert d.received[i] == Codewords(data)[i] == Originals(data)[i];
        }
      }
      assert d.DataShards() == Originals(data);
      JoinOriginals(data);
    }
  }

  // ---- streaming ----------------------------------------------------------------

  /** The codeword an encoder of `data` emits when its cursor is at `pos`. */
  function StreamChunk(data: Bytes, pos: nat): Chunk
  {
    var i := pos % TotalShards(|data|);
    Chunk(i, Codewords(data)[i])
  }

  lemma NextChunkStreams(e: EncoderState, data: Bytes)
    requires e.Streams(data)
    ensures e.NextChunk() == (EncoderState(e.shards, e.cursor + 1), StreamChunk(data, e.cursor))
  {
    var i := e.cursor % |e.shards|;
    assert i % U16_VALUES == i;
  }

  function AddAll(d: DecoderState, chunks: seq<Chunk>): Result<DecoderState>
    decreases |chunks|
  {
    if chunks == [] then Ok(d)
    else
      var d1 :- d.AddChunk(chunks[0]);
      AddAll(d1, chunks[1..])
  }

  predicate IsCodeword(data: Bytes, c: Chunk)
  {
    c.index < TotalShards(|data|) && c.data == Codewords(data)[c.index]
  }

  lemma AddCodeword(d: DecoderState, c: Chunk, data: Bytes)
    requires d.Holds(data) && IsCodeword(data, c)
    ensures d.AddChunk(c).Ok? && d.AddChunk(c).value.Holds(data)
    ensures d.AddChunk(c).value.received.Keys == d.received.Keys + {c.index}
  {
  }

  lemma {:induction false} AddAllCodewords(d: DecoderState, chunks: seq<Chunk>, data: Bytes)
    requires d.Holds(data)
    requires forall c :: c in chunks ==> IsCodeword(data, c)
    ensures AddAll(d, chunks).Ok? && AddAll(d, chunks).value.Holds(data)
    ensures AddAll(d, chunks).value.received.Keys >= d.received.Keys
    ensures forall c :: c in chunks ==> c.index in AddAll(d, chunks).value.received
    decreases |chunks|
  {
    if chunks != [] {
      assert chunks[0] in chunks;
      AddCodeword(d, chunks[0], data);
      AddAllCodewords(d.AddChunk(chunks[0]).value, chunks[1..], data);
      assert forall c :: c in chunks ==> c == chunks[0] || c in chunks[1..];
    }
  }

  lemma {:induction false} InjectionCard(s: set<nat>, t: set<nat>, f: nat -> nat)
    requires forall x :: x in s ==> f(x) in t
    requires forall x, y :: x in s && y in s && f(x) == f(y) ==> x == y
    ensures |s| <= |t|
    decreases s
  {
    if s != {} {
      var x :| x in s;
      InjectionCard(s - {x}, t - {f(x)}, f);
    }
  }

  function Below(n: nat): (s: set<nat>)
    ensures forall i :: i in s <==> 0 <= i < n
    ensures |s| == n
  {
    if n == 0 then {} else Below(n - 1) + {n - 1}
  }

  lemma MultipleBelow(m: int, t: int)
    requires -t < m * t < t
    ensures m == 0
  {
  }

  lemma ModDistinct(c: nat, i: nat, j: nat, t: nat)
    requires i < t && j < t
    requires (c + i) % t == (c + j) % t
    ensures i == j
  {
    var p, q := (c + i) / t, (c + j) / t;
    assert c + i == p * t + (c + i) % t;
    assert c + j == q * t + (c + j) % t;
    assert i - j == (p - q) * t;
    MultipleBelow(p - q, t);
  }

  /** If distinct slots below t go to distinct keys, those not lost give t - |lost| keys. */
  lemma SurvivingSlots(t: nat, lost: set<nat>, keys: set<nat>, slot: nat -> nat)
    requires forall i :: 0 <= i < t && i !in lost ==> slot(i) in keys
    requires forall i, j :: 0 <= i < t && 0 <= j < t && slot(i) == slot(j) ==> i == j
    ensures |keys| >= t - |lost|
  {
    var kept := Below(t) - lost;
    assert |kept| >= |Below(t)| - |Below(t) * lost|;
    InjectionCard(Below(t) * lost, lost, i => i);
    InjectionCard(kept, keys, slot);
  }

  function Slot(data: Bytes, start: nat, i: nat): nat { StreamChunk(data, start + i).index }

  /** The source's shard counts: k data shards of 32 bytes, and eight times as many for recovery, at most 1024. */
  predicate Split(len: nat, k: nat, r: nat)
  {
    && 1 <= k && 32 * k >= len && (k == 1 || 32 * (k - 1) < len)
    && r == if 8 * k <= 1024 then 8 * k else 1024
  }

  lemma SplitIs(len: nat, k: nat, r: nat)
    requires Split(len, k, r)
    ensures DataShardsFor(len) == k && RecoveryShardsFor(len) == r && TotalShards(len) == k + r
  {
  }

  /** Codewords of the four objects the braid streams: header, ct2, ct1 and key vector, each with its MAC if it has one. */
  lemma BraidCounts()
    ensures TotalShards(96) == 27 && TotalShards(160) == 45 && TotalShards(960) == 270 && TotalShards(1152) == 324
    ensures PK1_LEN + MAC_SIZE == 96 && CT2_LEN + MAC_SIZE == 160 && CT1_LEN == 960 && PK2_LEN == 1152
  {
    SplitIs(96, 3, 24);
    SplitIs(160, 5, 40);
    SplitIs(960, 30, 240);
    SplitIs(1152, 36, 288);
  }

  /** The next n codewords an encoder hands out. */
  function Emitted(e: EncoderState, n: nat): (chunks: seq<Chunk>)
    requires e.shards != []
    ensures |chunks| == n
    decreases n
  {
    if n == 0 then [] else [e.NextChunk().1] + Emitted(e.NextChunk().0, n - 1)
  }

  lemma {:induction false} EmittedIs(e: EncoderState, data: Bytes, n: nat, i: nat)
    requires e.Streams(data) && i < n
    ensures e.shards != [] && Emitted(e, n)[i] == StreamChunk(data, e.cursor + i)
    decreases n
  {
    NextChunkStreams(e, data);
    if i > 0 { EmittedIs(e.NextChunk().0, data, n - 1, i - 1); }
  }

  lemma SlotsDistinct(data: Bytes, start: nat, i: nat, j: nat)
    requires i < j < TotalShards(|data|)
    ensures Slot(data, start, i) != Slot(data, start, j)
  {
    if Slot(data, start, i) == Slot(data, start, j) { ModDistinct(start, i, j, TotalShards(|data|)); }
  }

  lemma StreamCycles(data: Bytes, pos: nat)
    ensures StreamChunk(data, pos + TotalShards(|data|)) == StreamChunk(data, pos) && StreamChunk(data, pos).index < TotalShards(|data|)
  {
    Wraps(pos, TotalShards(|data|));
  }

  /** An encoder hands out all k + r codewords, each index once, before it repeats. */
  lemma AllBeforeRepeat(e: EncoderState, data: Bytes, k: nat, r: nat, i: nat, j: nat)
    requires e.Streams(data) && Split(|data|, k, r) && i < j < k + r
    ensures e.shards != []
    ensures var sent := Emitted(e, k + r + 1);
      sent[i].index != sent[j].index && sent[i].index < k + r && sent[k + r] == sent[0]
  {
    hide Codewords, Split, TotalShards, StreamChunk, Emitted, EncoderState.NextChunk, EncoderState.Streams;
    SplitIs(|data|, k, r);
    EmittedIs(e, data, k + r + 1, i);
    EmittedIs(e, data, k + r + 1, j);
    EmittedIs(e, data, k + r + 1, 0);
    EmittedIs(e, data, k + r + 1, k + r);
    SlotsDistinct(data, e.cursor, i, j);
    StreamCycles(data, e.cursor);
    StreamCycles(data, e.cursor + i);
  }

  lemma Wraps(c: nat, t: nat)
    requires t > 0
    ensures (c + t) % t == c % t
  {
    var (p, q) := (c / t, (c + t) / t);
    assert (q - p - 1) * t == c % t - (c + t) % t;
    MultipleBelow(q - p - 1, t);
  }

  lemma ManyCodewords(data: Bytes, start: nat, lost: set<nat>, keys: set<nat>)
    requires |lost| <= RecoveryShardsFor(|data|)
    requires forall i: nat :: i < TotalShards(|data|) && i !in lost ==> Slot(data, start, i) in keys
    ensures |keys| >= DataShardsFor(|data|)
  {
    var t := TotalShards(|data|);
    forall i: nat, j: nat | i < t && j < t && Slot(data, start, i) == Slot(data, start, j)
      ensures i == j
    {
      ModDistinct(start, i, j, t);
    }
    SurvivingSlots(t, lost, keys, (i: nat) => Slot(data, start, i));
  }

  /**
   Streaming over a lossy channel: an encoder that has sent any amount before hands out its
   next k + r codewords, where k is the number of 32-byte shards of the message and r is 8k,
   at most 1024. Lose any r of them and deliver the rest, in any order and with any
   repetition, with older codewords in between, to a decoder that may already hold some.
   The decoder accepts every one and `message` returns exactly the original.
   */
  lemma StreamingDelivers(data: Bytes, e: EncoderState, k: nat, r: nat, d: DecoderState, delivered: seq<Chunk>, lost: set<nat>)
    requires e.Streams(data) && d.Holds(data) && Split(|data|, k, r) && e.shards != []
    requires |lost| <= r
    requires forall c :: c in delivered ==> exists p: nat :: c == StreamChunk(data, p)
    requires forall i: nat :: i < k + r && i !in lost ==> Emitted(e, k + r)[i] in delivered
    ensures AddAll(d, delivered).Ok?
    ensures AddAll(d, delivered).value.Message() == Ok(Some(data))
  {
    hide DecoderState.Message, DecoderState.Holds, Codewords, Split, TotalShards, StreamChunk, Emitted, EncoderState.NextChunk,
         EncoderState.Streams, IsCodeword, AddAll;
    SplitIs(|data|, k, r);
    forall c | c in delivered ensures IsCodeword(data, c) {
      var p: nat :| c == StreamChunk(data, p);
      StreamedWord(data, p);
    }
    AddAllCodewords(d, delivered, data);
    var done := AddAll(d, delivered).value;
    forall i: nat | i < TotalShards(|data|) && i !in lost ensures Slot(data, e.cursor, i) in done.received.Keys {
      EmittedIs(e, data, k + r, i);
    }
    ManyCodewords(data, e.cursor, lost, done.received.Keys);
    assert |done.received.Keys| == |done.received|;
    Supported(e, data);
    MessageExact(done, data);
  }

  lemma StreamedWord(data: Bytes, p: nat)
    ensures IsCodeword(data, StreamChunk(data, p))
  {
    hide Codewords;
  }

  lemma Supported(e: EncoderState, data: Bytes)
    requires e.Streams(data)
    ensures CodecSupports(|data|)
  {
  }

  // ---- the mutable objects ------------------------------------------------------

  class Encoder {
    var shards: seq<Bytes>
    var cursor: nat

    ghost function View(): EncoderState
      reads this
    {
      EncoderState(shards, cursor)
    }

    constructor (codewords: seq<Bytes>)
      ensures View() == EncoderState(codewords, 0)
    {
      shards, cursor := codewords, 0;
    }

    /** `Encoder::new`: an empty message or too many shards are refused. */
    static method New(data: Bytes) returns (r: Result<Encoder>)
      ensures r.Ok? ==> fresh(r.value) && r.value.View().Streams(data) && r.value.cursor == 0
      ensures r.Err? ==> r.error == if data == [] then EmptyMessage else CodecUnsupported
      ensures r.Ok? <==> data != [] && CodecSupports(|data|)
      ensures r.Ok? ==> forall k: nat, n: nat :: Split(|data|, k, n) ==> |r.value.shards| == k + n
    {
      if data == [] {
        return Err(EmptyMessage);
      }
      if !CodecSupports(|data|) {
        return Err(CodecUnsupported);
      }
      var encoder := new Encoder(Codewords(data));
      forall k: nat, n: nat | Split(|data|, k, n) ensures |encoder.shards| == k + n { SplitIs(|data|, k, n); }
      return Ok(encoder);
    }

    method NextChunk() returns (c: Chunk)
      requires shards != []
      modifies this
      ensures (View(), c) == old(View()).NextChunk()
    {
      var index := cursor % |shards|;
      cursor := cursor + 1;
      c := Chunk(index % U16_VALUES, shards[index]);
    }
  }

  class Decoder {
    const len: nat
    const dataShards: nat
    const recoveryShards: nat
    var received: map<nat, Bytes>

    ghost predicate Valid()
      reads this
    {
      && dataShards == DataShardsFor(len)
      && recoveryShards == RecoveryShardsFor(len)
      && View().Sized(len)
    }

    ghost function View(): DecoderState
      reads this
    {
      DecoderState(len, received)
    }

    constructor (len: nat)
      ensures Valid() && View() == DecoderState.New(len)
    {
      this.len := len;
      dataShards := DataShardsFor(len);
      recoveryShards := RecoveryShardsFor(len);
      received := map[];
    }

    method AddChunk(c: Chunk) returns (r: Result<()>)
      requires Valid()
      modifies this
      ensures Valid()
      ensures r == if |c.data| != 32 then Err(CodewordLength) else if c.index >= TotalShards(len) then Err(CodewordIndex) else Ok(())
      ensures r.Ok? ==> received == if c.index in old(received) then old(received) else old(received)[c.index := c.data]
      ensures r.Ok? <==> old(View()).AddChunk(c).Ok?
      ensures r.Ok? ==> Ok(View()) == old(View()).AddChunk(c)
      ensures r.Err? ==> View() == old(View())
    {
      if |c.data| != CHUNK_BYTES {
        return Err(CodewordLength);
      }
      if c.index >= dataShards + recoveryShards {
        return Err(CodewordIndex);
      }
      if c.index !in received {
        received := received[c.index := c.data];
      }
      return Ok(());
    }

    method Reset()
      requires Valid()
      modifies this
      ensures Valid() && View() == DecoderState.New(len)
    {
      received := map[];
    }

    /** `message`, copying the shards out one by one; it agrees with `Message()`. */
    method Message() returns (r: Result<Option<Bytes>>)
      requires Valid()
      ensures r == View().Message()
    {
      if |received| < dataShards {
        return Ok(None);
      }
      var restored: seq<Bytes> := [];
      if !(forall i :: 0 <= i < dataShards ==> i in received) {
        if !CodecSupports(len) {
          return Err(CodecUnsupported);
        }
        restored := CodecOriginals(len, received);
      }
      var out: Bytes := [];
      ghost var shards := View().DataShards();
      for i := 0 to dataShards
        invariant out == Join(shards[..i])
      {
        assert shards[..i + 1][..i] == shards[..i];
        out := out + if i in received then received[i] else restored[i];
      }
      assert shards[..dataShards] == shards;
      return Ok(Some(if len <= |out| then out[..len] else out));
    }
  }
}
