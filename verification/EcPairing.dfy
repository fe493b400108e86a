/**
 The EC ratchets of two sessions from one shared secret. Chain i is opened by the i-th DH
 key of one shared sequence, alternately the responder's and the initiator's; every root
 key, chain and stored key of either party is a function of that sequence.
 */
module EcPairing {
  import opened Common
  import opened Symbolic
  import opened EcRatchet

  // ---- the shared sequence ----------------------------------------------------------------

  function RootAt(sk: Term, keys: seq<Dh>, i: nat): Root
    requires i < |keys|
  {
    if i == 0 then Shared0(sk) else RootStep(RootAt(sk, keys, i - 1), Exchange(keys[i], keys[i - 1]))
  }

  /** The first chain key of chain i. */
  function Start(sk: Term, keys: seq<Dh>, i: nat): EcKey
    requires 1 <= i < |keys|
  {
    ChainStart(RootAt(sk, keys, i - 1), Exchange(keys[i], keys[i - 1]))
  }

  lemma {:induction false} RootStable(sk: Term, keys: seq<Dh>, name: Dh, i: nat)
    requires i < |keys|
    ensures RootAt(sk, keys + [name], i) == RootAt(sk, keys, i)
  {
    if i > 0 { RootStable(sk, keys, name, i - 1); }
  }

  lemma {:induction false} RootInjective(sk: Term, keys: seq<Dh>, i: nat, j: nat)
    requires i < |keys| && j < |keys| && RootAt(sk, keys, i) == RootAt(sk, keys, j)
    ensures i == j
  {
    if i > 0 && j > 0 { RootInjective(sk, keys, i - 1, j - 1); }
  }

  // ---- one side -----------------------------------------------------------------------------

  /**
   A party: its EC state, the index `s` of its sending chain, the number `r` of keys taken
   from its receiving chain s - 1, and per chain what it accepted and what the full store
   dropped.
   */
  datatype Side = Side(ec: Ec, s: nat, r: nat, accepted: Log, dropped: Log)

  /** How far the receiving side of chain j has come. */
  function Passed(s: nat, r: nat, lens: seq<nat>, j: nat): nat
    requires j < |lens|
  {
    if j == 0 || j >= s || j % 2 == s % 2 then 0 else if j == s - 1 then r else lens[j]
  }

  ghost predicate Fields(side: Side, sk: Term, keys: seq<Dh>, lens: seq<nat>)
  {
    var (ec, s) := (side.ec, side.s);
    && s < |keys| == |lens|
    && ec.self == keys[s] && ec.root == RootAt(sk, keys, s)
    && ec.remote == (if s == 0 then None else Some(keys[s - 1]))
    && ec.send == (if s == 0 then None else Some(ChainAt(Start(sk, keys, s), lens[s])))
    && ec.recv == (if s <= 1 then None else Some(ChainAt(Start(sk, keys, s - 1), side.r)))
    && ec.pn == (if s <= 1 then 0 else lens[s - 2])
    && (if s == 0 then side.r == 0 else side.r <= lens[s - 1])
  }

  ghost predicate RightKeys(store: Store, dh: Dh, start: EcKey)
  {
    forall n: nat :: Place(n, dh) in store ==> store[Place(n, dh)] == KeyAt(start, n)
  }

  /** Of the numbers passed on chain j each is stored, accepted or dropped, and stored keys are right. */
  ghost predicate Books(side: Side, sk: Term, keys: seq<Dh>, j: nat, passed: nat)
    requires j < |keys|
  {
    && Covers(StoredAt(side.ec.skipped, keys[j]), Got(side.accepted, j), Got(side.dropped, j), 0, passed)
    && (j >= 1 ==> RightKeys(side.ec.skipped, keys[j], Start(sk, keys, j)))
  }

  ghost predicate Kept(side: Side, keys: seq<Dh>)
  {
    && |side.ec.skipped| <= MAX_SKIP
    && (forall k :: k in side.ec.skipped ==> k.dh in keys)
    && (forall j: nat :: j >= |keys| ==> Got(side.accepted, j) == {} && Got(side.dropped, j) == {})
  }

  ghost predicate SideOk(side: Side, sk: Term, keys: seq<Dh>, lens: seq<nat>)
  {
    && Fields(side, sk, keys, lens) && Kept(side, keys)
    && (forall j :: 0 <= j < |keys| ==> Books(side, sk, keys, j, Passed(side.s, side.r, lens, j)))
  }

  predicate Distinct(keys: seq<Dh>) { forall i, j :: 0 <= i < j < |keys| ==> keys[i] != keys[j] }

  lemma DistinctAppend(keys: seq<Dh>, name: Dh)
    requires Distinct(keys) && name !in keys
    ensures Distinct(keys + [name])
  {
  }

  // ---- what a side does ---------------------------------------------------------------------

  /** Skipping ahead on the receiving chain. */
  function SkipSide(side: Side, until: nat): Side
    requires side.r <= until && |side.ec.skipped| <= MAX_SKIP
  {
    if side.s < 2 then side
    else
      var kept := RoomFor(|side.ec.skipped|, side.r, until);
      side.(ec := side.ec.SkipTo(until).0, r := until, dropped := AddAll(side.dropped, side.s - 1, Range(kept, until)))
  }

  /** Taking the next key of the receiving chain. */
  function TakeSide(side: Side): Side
    requires side.s >= 2 && side.ec.recv.Some?
  {
    side.(ec := side.ec.(recv := Some(side.ec.recv.value.Advance().0)), r := side.r + 1,
          accepted := Add(side.accepted, side.s - 1, side.r))
  }

  /** Taking a stored key. */
  function StoredSide(side: Side, dh: Dh, j: nat, n: nat): Side
  {
    side.(ec := side.ec.(skipped := side.ec.skipped - {Place(n, dh)}), accepted := Add(side.accepted, j, n))
  }

  /** A DH step on the peer's next key. */
  function StepSide(side: Side, dh: Dh, name: Dh): Side
  {
    side.(ec := side.ec.DhStep(dh, name), s := side.s + 2, r := 0)
  }

  /** Books of a chain that an operation does not touch. */
  lemma BooksOther(side: Side, side': Side, sk: Term, keys: seq<Dh>, j: nat, passed: nat)
    requires j < |keys| && Books(side, sk, keys, j, passed)
    requires Got(side'.accepted, j) == Got(side.accepted, j) && Got(side'.dropped, j) == Got(side.dropped, j)
    requires forall n: nat :: Place(n, keys[j]) in side'.ec.skipped <==> Place(n, keys[j]) in side.ec.skipped
    requires forall n: nat :: Place(n, keys[j]) in side.ec.skipped ==> side'.ec.skipped[Place(n, keys[j])] == side.ec.skipped[Place(n, keys[j])]
    ensures Books(side', sk, keys, j, passed)
  {
    hide KeyAt, Start, Covers, StoredAt, Got;
    assert StoredAt(side'.ec.skipped, keys[j]) == StoredAt(side.ec.skipped, keys[j]);
  }

  lemma SkipShape(side: Side, sk: Term, keys: seq<Dh>, lens: seq<nat>, until: nat)
    requires SideOk(side, sk, keys, lens) && side.s >= 2
    requires side.r <= until && until - side.r <= MAX_SKIP
    ensures var (ec, r) := side.ec.SkipTo(until);
      var start := Start(sk, keys, side.s - 1);
      && r.Ok? && ec == side.ec.(recv := Some(ChainAt(start, until)), skipped := ec.skipped)
      && Filled(side.ec.skipped, ec.skipped, start, side.r, keys[side.s - 1], until)
  {
    var j := side.s - 1;
    assert Books(side, sk, keys, j, Passed(side.s, side.r, lens, j));
    hide KeyAt, Start, RootAt, Filled;
    SkipLoopFills(side.ec.skipped, Start(sk, keys, j), side.r, keys[j], until);
  }

  lemma FilledAt(store: Store, store': Store, start: EcKey, from: nat, dh: Dh, until: nat)
    requires from <= until && |store| <= MAX_SKIP && Filled(store, store', start, from, dh, until)
    requires RightKeys(store, dh, start)
    ensures StoredAt(store', dh) == StoredAt(store, dh) + Range(from, RoomFor(|store|, from, until))
    ensures RightKeys(store', dh, start)
  {
    hide KeyAt, Range, RoomFor, StoredAt;
  }

  lemma SkipBooks(side: Side, side': Side, sk: Term, keys: seq<Dh>, j: nat, until: nat)
    requires 1 <= j < |keys| && Books(side, sk, keys, j, side.r) && |side.ec.skipped| <= MAX_SKIP && side.r <= until
    requires Filled(side.ec.skipped, side'.ec.skipped, Start(sk, keys, j), side.r, keys[j], until)
    requires Got(side'.accepted, j) == Got(side.accepted, j)
    requires Got(side'.dropped, j) == Got(side.dropped, j) + Range(RoomFor(|side.ec.skipped|, side.r, until), until)
    ensures Books(side', sk, keys, j, until)
  {
    hide Start, Range, RoomFor, Got, Covers, RightKeys, Filled, StoredAt;
    FilledAt(side.ec.skipped, side'.ec.skipped, Start(sk, keys, j), side.r, keys[j], until);
    CoversSkip(StoredAt(side.ec.skipped, keys[j]), Got(side.accepted, j), Got(side.dropped, j), 0,
               side.r, RoomFor(|side.ec.skipped|, side.r, until), until);
  }

  lemma SkipSideFields(side: Side, sk: Term, keys: seq<Dh>, lens: seq<nat>, until: nat)
    requires SideOk(side, sk, keys, lens) && side.s >= 2
    requires side.r <= until <= lens[side.s - 1] && until - side.r <= MAX_SKIP
    ensures var side' := SkipSide(side, until);
      && side.ec.SkipTo(until).1.Ok? && Fields(side', sk, keys, lens) && Kept(side', keys)
      && Filled(side.ec.skipped, side'.ec.skipped, Start(sk, keys, side.s - 1), side.r, keys[side.s - 1], until)
  {
    hide KeyAt, Start, RootAt, Range, RoomFor, Filled, Got, AddAll, Ec.SkipTo, Books, ChainAt;
    SkipShape(side, sk, keys, lens, until);
    FilledKept(side.ec.skipped, side.ec.SkipTo(until).0.skipped, Start(sk, keys, side.s - 1), side.r, keys[side.s - 1], until);
  }

  lemma SkipSideOk(side: Side, sk: Term, keys: seq<Dh>, lens: seq<nat>, until: nat)
    requires SideOk(side, sk, keys, lens) && Distinct(keys) && side.s >= 2
    requires side.r <= until <= lens[side.s - 1] && until - side.r <= MAX_SKIP
    ensures side.ec.SkipTo(until).1.Ok? && SideOk(SkipSide(side, until), sk, keys, lens)
  {
    hide Start, RootAt, Range, RoomFor, Filled, Got, AddAll, Ec.SkipTo, Books, Passed, Distinct;
    var (side', c) := (SkipSide(side, until), side.s - 1);
    SkipSideFields(side, sk, keys, lens, until);
    assert side.s < |keys| == |lens|;
    hide Fields;
    forall j | 0 <= j < |keys| ensures Books(side', sk, keys, j, Passed(side'.s, side'.r, lens, j)) {
      SkipAllBooks(side, side', sk, keys, lens, c, until, j);
    }
  }

  lemma SkipAllBooks(side: Side, side': Side, sk: Term, keys: seq<Dh>, lens: seq<nat>, c: nat, until: nat, j: nat)
    requires Distinct(keys) && 1 <= c == side.s - 1 && side.s < |keys| == |lens| && j < |keys|
    requires side.r <= until && |side.ec.skipped| <= MAX_SKIP
    requires Books(side, sk, keys, j, Passed(side.s, side.r, lens, j))
    requires Filled(side.ec.skipped, side'.ec.skipped, Start(sk, keys, c), side.r, keys[c], until)
    requires side'.accepted == side.accepted && side'.s == side.s && side'.r == until
    requires side'.dropped == AddAll(side.dropped, c, Range(RoomFor(|side.ec.skipped|, side.r, until), until))
    ensures Books(side', sk, keys, j, Passed(side'.s, side'.r, lens, j))
  {
    hide KeyAt, Start, RootAt, Range, RoomFor, Filled, Got, AddAll, Books;
    if j == c {
      SkipBooks(side, side', sk, keys, j, until);
    } else {
      FilledElsewhere(side.ec.skipped, side'.ec.skipped, Start(sk, keys, c), side.r, keys[c], until, keys[j]);
      BooksOther(side, side', sk, keys, j, Passed(side.s, side.r, lens, j));
    }
  }

  lemma FilledKept(store: Store, store': Store, start: EcKey, from: nat, dh: Dh, until: nat)
    requires from <= until && |store| <= MAX_SKIP && Filled(store, store', start, from, dh, until)
    ensures |store'| <= MAX_SKIP && forall k :: k in store' ==> k in store || k.dh == dh
  {
    hide KeyAt;
  }

  lemma FilledElsewhere(store: Store, store': Store, start: EcKey, from: nat, dh: Dh, until: nat, other: Dh)
    requires from <= until && |store| <= MAX_SKIP && Filled(store, store', start, from, dh, until) && other != dh
    ensures forall n: nat :: Place(n, other) in store' <==> Place(n, other) in store
    ensures forall n: nat :: Place(n, other) in store ==> store'[Place(n, other)] == store[Place(n, other)]
  {
    hide KeyAt;
  }

  lemma TakeSideOk(side: Side, sk: Term, keys: seq<Dh>, lens: seq<nat>)
    requires SideOk(side, sk, keys, lens) && side.s >= 2 && side.r < lens[side.s - 1]
    ensures side.ec.recv.value.Advance().1 == KeyAt(Start(sk, keys, side.s - 1), side.r)
    ensures SideOk(TakeSide(side), sk, keys, lens)
  {
    hide Start, RootAt, Got, Add;
    var (side', c) := (TakeSide(side), side.s - 1);
    NextChainAt(Start(sk, keys, c), side.r);
    hide Iterate, StoredAt, RightKeys;
    forall j | 0 <= j < |keys| ensures Books(side', sk, keys, j, Passed(side'.s, side'.r, lens, j)) {
      assert Books(side, sk, keys, j, Passed(side.s, side.r, lens, j));
    }
  }

  lemma StoredFacts(side: Side, sk: Term, keys: seq<Dh>, lens: seq<nat>, j: nat, n: nat)
    requires SideOk(side, sk, keys, lens) && j < |keys| && Place(n, keys[j]) in side.ec.skipped
    ensures 1 <= j < side.s && j % 2 != side.s % 2 && n < Passed(side.s, side.r, lens, j)
    ensures side.ec.skipped[Place(n, keys[j])] == KeyAt(Start(sk, keys, j), n)
  {
    hide Start, RootAt, KeyAt, Got, Kept, ChainAt;
    assert Books(side, sk, keys, j, Passed(side.s, side.r, lens, j));
  }

  lemma StoredSideOk(side: Side, sk: Term, keys: seq<Dh>, lens: seq<nat>, j: nat, n: nat)
    requires SideOk(side, sk, keys, lens) && Distinct(keys) && j < |keys| && Place(n, keys[j]) in side.ec.skipped
    ensures 1 <= j < side.s && j % 2 != side.s % 2 && n < Passed(side.s, side.r, lens, j)
    ensures side.ec.skipped[Place(n, keys[j])] == KeyAt(Start(sk, keys, j), n)
    ensures SideOk(StoredSide(side, keys[j], j, n), sk, keys, lens)
  {
    hide Start, RootAt, KeyAt, Got, Add, Books, Passed, ChainAt;
    StoredFacts(side, sk, keys, lens, j, n);
    var side' := StoredSide(side, keys[j], j, n);
    forall i | 0 <= i < |keys| ensures Books(side', sk, keys, i, Passed(side'.s, side'.r, lens, i)) {
      if i == j {
        StoredBooks(side, side', sk, keys, j, n, Passed(side.s, side.r, lens, j));
      } else {
        BooksOther(side, side', sk, keys, i, Passed(side.s, side.r, lens, i));
      }
    }
  }

  lemma StoredBooks(side: Side, side': Side, sk: Term, keys: seq<Dh>, j: nat, n: nat, passed: nat)
    requires j < |keys| && Books(side, sk, keys, j, passed) && Place(n, keys[j]) in side.ec.skipped
    requires side'.ec.skipped == side.ec.skipped - {Place(n, keys[j])}
    requires Got(side'.accepted, j) == Got(side.accepted, j) + {n} && Got(side'.dropped, j) == Got(side.dropped, j)
    ensures Books(side', sk, keys, j, passed)
  {
    hide Start, KeyAt, StoredAt, Got;
    assert StoredAt(side'.ec.skipped, keys[j]) == StoredAt(side.ec.skipped, keys[j]) - {n};
  }

  // ---- the sequence grows ---------------------------------------------------------------------

  lemma StartStable(sk: Term, keys: seq<Dh>, name: Dh, i: nat)
    requires 1 <= i < |keys|
    ensures Start(sk, keys + [name], i) == Start(sk, keys, i)
  {
    RootStable(sk, keys, name, i - 1);
  }

  lemma BooksGrown(side: Side, side': Side, sk: Term, keys: seq<Dh>, name: Dh, j: nat, passed: nat)
    requires j < |keys| && Books(side, sk, keys, j, passed)
    requires side'.ec.skipped == side.ec.skipped && side'.accepted == side.accepted && side'.dropped == side.dropped
    ensures Books(side', sk, keys + [name], j, passed)
  {
    hide Start, Covers, RightKeys, Got, StoredAt;
    if j >= 1 { StartStable(sk, keys, name, j); }
  }

  lemma BooksFresh(side: Side, sk: Term, keys: seq<Dh>, name: Dh)
    requires Kept(side, keys) && name !in keys
    ensures Books(side, sk, keys + [name], |keys|, 0)
  {
    hide Start, Got, KeyAt;
  }

  /** The peer took a DH step: its new key extends the sequence. */
  lemma PeerGrown(side: Side, sk: Term, keys: seq<Dh>, lens: seq<nat>, name: Dh)
    requires SideOk(side, sk, keys, lens) && name !in keys
    ensures SideOk(side, sk, keys + [name], lens + [0])
  {
    hide Books, Got, Iterate;
    var s := side.s;
    RootStable(sk, keys, name, s);
    if s >= 1 { StartStable(sk, keys, name, s); }
    if s >= 2 { StartStable(sk, keys, name, s - 1); }
    hide Start, RootAt;
    BooksFresh(side, sk, keys, name);
    forall j | 0 <= j < |keys + [name]| ensures Books(side, sk, keys + [name], j, Passed(s, side.r, lens + [0], j)) {
      if j < |keys| { BooksGrown(side, side, sk, keys, name, j, Passed(s, side.r, lens, j)); }
    }
  }

  lemma StepSideFields(side: Side, sk: Term, keys: seq<Dh>, lens: seq<nat>, name: Dh)
    requires Fields(side, sk, keys, lens) && |keys| == side.s + 2 && lens[0] == 0
    ensures Fields(StepSide(side, keys[side.s + 1], name), sk, keys + [name], lens + [0])
  {
    var (s, keys') := (side.s, keys + [name]);
    RootStable(sk, keys, name, s);
    assert RootAt(sk, keys', s + 1) == RootStep(RootAt(sk, keys', s), Exchange(keys'[s + 1], keys'[s]));
    assert RootAt(sk, keys', s + 2) == RootStep(RootAt(sk, keys', s + 1), Exchange(keys'[s + 2], keys'[s + 1]));
    assert Iterate(Start(sk, keys', s + 1), 0) == Start(sk, keys', s + 1);
    assert Iterate(Start(sk, keys', s + 2), 0) == Start(sk, keys', s + 2);
    hide RootAt, Iterate;
  }

  /** A DH step once everything on the receiving chain has been passed. */
  lemma StepSideOk(side: Side, sk: Term, keys: seq<Dh>, lens: seq<nat>, name: Dh)
    requires SideOk(side, sk, keys, lens) && |keys| == side.s + 2 && lens[0] == 0 && name !in keys
    requires side.s >= 2 ==> side.r == lens[side.s - 1]
    ensures SideOk(StepSide(side, keys[side.s + 1], name), sk, keys + [name], lens + [0])
  {
    hide Books, Got, RootAt, Start, Iterate, Ec.DhStep;
    var (side', keys', lens') := (StepSide(side, keys[side.s + 1], name), keys + [name], lens + [0]);
    StepSideFields(side, sk, keys, lens, name);
    BooksFresh(side, sk, keys, name);
    StepKeeps(side.ec, keys[side.s + 1], name);
    forall j | 0 <= j < |keys'| ensures Books(side', sk, keys', j, Passed(side'.s, side'.r, lens', j)) {
      if j < |keys| {
        BooksGrown(side, side', sk, keys, name, j, Passed(side.s, side.r, lens, j));
      } else {
        BooksFresh(side', sk, keys, name);
      }
    }
  }

  lemma StepKeeps(ec: Ec, dh: Dh, name: Dh)
    ensures ec.DhStep(dh, name).skipped == ec.skipped
  {
  }

  /** Sending advances the party's own chain. */
  lemma SendSideOk(side: Side, sk: Term, keys: seq<Dh>, lens: seq<nat>)
    requires SideOk(side, sk, keys, lens) && side.s >= 1
    ensures var r := side.ec.Send();
      && r.Ok? && r.value.1 == EcHeader(keys[side.s], if side.s <= 1 then 0 else lens[side.s - 2], lens[side.s])
      && r.value.2 == KeyAt(Start(sk, keys, side.s), lens[side.s])
      && SideOk(side.(ec := r.value.0), sk, keys, lens[side.s := lens[side.s] + 1])
  {
    hide RootAt, Start, Books, Got;
    var (side', lens') := (side.(ec := side.ec.Send().value.0), lens[side.s := lens[side.s] + 1]);
    NextChainAt(Start(sk, keys, side.s), lens[side.s]);
    forall j | 0 <= j < |keys| ensures Books(side', sk, keys, j, Passed(side'.s, side'.r, lens', j)) {
      BooksOther(side, side', sk, keys, j, Passed(side.s, side.r, lens, j));
    }
  }

  /** The peer sent on its chain, one above or one below this party's. */
  lemma PeerSent(side: Side, sk: Term, keys: seq<Dh>, lens: seq<nat>, i: nat)
    requires SideOk(side, sk, keys, lens) && i < |lens| && (i == side.s + 1 || i + 1 == side.s)
    ensures SideOk(side, sk, keys, lens[i := lens[i] + 1])
  {
    hide RootAt, Start, Books, Got, Iterate;
    var lens' := lens[i := lens[i] + 1];
    forall j | 0 <= j < |keys| ensures Books(side, sk, keys, j, Passed(side.s, side.r, lens', j)) {
      assert Passed(side.s, side.r, lens', j) == Passed(side.s, side.r, lens, j);
    }
  }

  // ---- receiving ------------------------------------------------------------------------------

  /** The header of message n of chain j. */
  function HeaderOf(keys: seq<Dh>, lens: seq<nat>, j: nat, n: nat): EcHeader
    requires j < |keys| == |lens|
  {
    EcHeader(keys[j], if j <= 1 then 0 else lens[j - 2], n)
  }

  /** Exactly when the EC half of `decrypt` finds the key of message n of chain j. */
  predicate Resolvable(side: Side, keys: seq<Dh>, lens: seq<nat>, j: nat, n: nat)
    requires side.s < |keys| == |lens| && j < |keys|
  {
    || Place(n, keys[j]) in side.ec.skipped
    || (j + 1 == side.s && side.r <= n <= side.r + MAX_SKIP)
    || (j == side.s + 1 && n <= MAX_SKIP && (side.s >= 2 ==> lens[side.s - 1] - side.r <= MAX_SKIP))
  }

  /** The side after that. */
  function Received(side: Side, keys: seq<Dh>, lens: seq<nat>, j: nat, n: nat, name: Dh): Side
    requires side.s < |keys| == |lens| && j < |keys|
  {
    if Place(n, keys[j]) in side.ec.skipped then StoredSide(side, keys[j], j, n)
    else if j + 1 == side.s then Onward(side, n)
    else Onward(StepSide(if side.s < 2 then side else Onto(side, lens[side.s - 1]), keys[j], name), n)
  }

  function Onto(side: Side, until: nat): Side
  {
    if side.r <= until && |side.ec.skipped| <= MAX_SKIP then SkipSide(side, until) else side
  }

  function Onward(side: Side, n: nat): Side
  {
    var next := Onto(side, n);
    if next.s >= 2 && next.ec.recv.Some? then TakeSide(next) else next
  }

  /** Skipping to number n of the receiving chain and taking its key. */
  lemma OnwardOk(side: Side, sk: Term, keys: seq<Dh>, lens: seq<nat>, n: nat)
    requires SideOk(side, sk, keys, lens) && Distinct(keys) && side.s >= 2
    requires side.r <= n < lens[side.s - 1] && n - side.r <= MAX_SKIP
    ensures side.ec.Advanced(n) == (Onward(side, n).ec, Ok(KeyAt(Start(sk, keys, side.s - 1), n)))
    ensures SideOk(Onward(side, n), sk, keys, lens)
  {
    SkipSideOk(side, sk, keys, lens, n);
    TakeSideOk(SkipSide(side, n), sk, keys, lens);
    assert |side.ec.skipped| <= MAX_SKIP;
    assert SkipSide(side, n).ec.recv.Some?;
    hide KeyAt, Start, SideOk, Distinct, Ec.SkipTo, RoomFor, AddAll, Add, Range;
  }

  lemma ResolveStored(side: Side, sk: Term, keys: seq<Dh>, lens: seq<nat>, j: nat, n: nat, name: Dh)
    requires SideOk(side, sk, keys, lens) && Distinct(keys) && 1 <= j < |keys|
    requires Place(n, keys[j]) in side.ec.skipped
    ensures side.ec.Resolve(HeaderOf(keys, lens, j, n), name) == (Received(side, keys, lens, j, n, name).ec, Ok(KeyAt(Start(sk, keys, j), n)))
    ensures SideOk(Received(side, keys, lens, j, n, name), sk, keys, lens)
  {
    hide KeyAt, Start, Add, Ec.Advanced;
    StoredSideOk(side, sk, keys, lens, j, n);
  }

  lemma ResolveCurrent(side: Side, sk: Term, keys: seq<Dh>, lens: seq<nat>, j: nat, n: nat, name: Dh)
    requires SideOk(side, sk, keys, lens) && Distinct(keys) && 1 <= j < |keys| && Place(n, keys[j]) !in side.ec.skipped
    requires j + 1 == side.s && side.r <= n <= side.r + MAX_SKIP && n < lens[j]
    ensures side.ec.Resolve(HeaderOf(keys, lens, j, n), name) == (Received(side, keys, lens, j, n, name).ec, Ok(KeyAt(Start(sk, keys, j), n)))
    ensures SideOk(Received(side, keys, lens, j, n, name), sk, keys, lens)
  {
    hide KeyAt, Start, Ec.Advanced, Onward, Books;
    OnwardOk(side, sk, keys, lens, n);
  }

  /** Catching up on the receiving chain, if there is one. */
  lemma CatchUp(side: Side, sk: Term, keys: seq<Dh>, lens: seq<nat>)
    requires SideOk(side, sk, keys, lens) && Distinct(keys) && side.s + 1 < |keys|
    requires side.s >= 2 ==> lens[side.s - 1] - side.r <= MAX_SKIP
    ensures var side' := if side.s < 2 then side else Onto(side, lens[side.s - 1]);
      && side.ec.SkipTo(HeaderOf(keys, lens, side.s + 1, 0).pn) == (side'.ec, Ok(()))
      && SideOk(side', sk, keys, lens) && side'.s == side.s && (side.s >= 2 ==> side'.r == lens[side.s - 1])
  {
    if side.s >= 2 {
      SkipSideOk(side, sk, keys, lens, lens[side.s - 1]);
    }
    hide Books, Start, Iterate, RoomFor, AddAll, Range;
  }

  lemma SideLens(side: Side, sk: Term, keys: seq<Dh>, lens: seq<nat>)
    requires SideOk(side, sk, keys, lens)
    ensures side.s < |keys| == |lens|
  {
    hide Books, Kept;
  }

  /** The DH step after catching up, then skipping on the new chain. */
  lemma StepThenOnward(mid: Side, sk: Term, keys: seq<Dh>, lens: seq<nat>, n: nat, name: Dh)
    requires SideOk(mid, sk, keys, lens) && Distinct(keys) && |keys| == mid.s + 2 && lens[0] == 0 && name !in keys
    requires (mid.s >= 2 ==> mid.r == lens[mid.s - 1]) && n < lens[mid.s + 1] && n <= MAX_SKIP
    ensures var step := StepSide(mid, keys[mid.s + 1], name);
      && step.ec.Advanced(n) == (Onward(step, n).ec, Ok(KeyAt(Start(sk, keys, mid.s + 1), n)))
      && SideOk(Onward(step, n), sk, keys + [name], lens + [0])
  {
    hide KeyAt, Start, Ec.Advanced, Onward, SideOk, Ec.DhStep, Distinct;
    SideLens(mid, sk, keys, lens);
    StepSideOk(mid, sk, keys, lens, name);
    DistinctAppend(keys, name);
    OnwardOk(StepSide(mid, keys[mid.s + 1], name), sk, keys + [name], lens + [0], n);
    StartStable(sk, keys, name, mid.s + 1);
  }

  lemma ResolveNew(side: Side, sk: Term, keys: seq<Dh>, lens: seq<nat>, j: nat, n: nat, name: Dh)
    requires SideOk(side, sk, keys, lens) && Distinct(keys) && 1 <= j < |keys| && Place(n, keys[j]) !in side.ec.skipped
    requires j == side.s + 1 && |keys| == j + 1 && name !in keys && lens[0] == 0
    requires n < lens[j] && n <= MAX_SKIP && (side.s >= 2 ==> lens[side.s - 1] - side.r <= MAX_SKIP)
    ensures side.ec.Resolve(HeaderOf(keys, lens, j, n), name) == (Received(side, keys, lens, j, n, name).ec, Ok(KeyAt(Start(sk, keys, j), n)))
    ensures SideOk(Received(side, keys, lens, j, n, name), sk, keys + [name], lens + [0])
  {
    hide KeyAt, Start, Ec.Advanced, Onward, SideOk, Ec.SkipTo, Onto, Ec.DhStep, Distinct;
    SideLens(side, sk, keys, lens);
    NotRemote(side, sk, keys, lens, j);
    CatchUp(side, sk, keys, lens);
    StepThenOnward(if side.s < 2 then side else Onto(side, lens[side.s - 1]), sk, keys, lens, n, name);
  }

  lemma NotRemote(side: Side, sk: Term, keys: seq<Dh>, lens: seq<nat>, j: nat)
    requires SideOk(side, sk, keys, lens) && Distinct(keys) && j < |keys| && j + 1 != side.s
    ensures side.ec.remote != Some(keys[j])
  {
    hide Books, Kept, Start, RootAt, ChainAt;
  }

  // ---- refusals -----------------------------------------------------------------------------

  lemma {:induction false} SkipLoopChain(store: Store, start: EcKey, from: nat, dh: Dh, until: nat)
    requires from <= until
    ensures SkipLoop(store, ChainAt(start, from), dh, until).1 == ChainAt(start, until)
    decreases until - from
  {
    if from < until {
      NextChainAt(start, from);
      SkipLoopChain(Inserted(store, from, dh, KeyAt(start, from)), start, from + 1, dh, until);
    }
  }

  lemma AdvancedKey(ec: Ec, start: EcKey, r: nat, n: nat)
    requires ec.recv == Some(ChainAt(start, r))
    ensures ec.Advanced(n).1 ==
      if n > r + MAX_SKIP then Err(MaxSkipExceeded(n - r, MAX_SKIP)) else Ok(KeyAt(start, if n < r then r else n))
  {
    if r <= n { SkipLoopChain(ec.skipped, start, r, ec.ChainDh(), n); NextChainAt(start, n); }
  }

  lemma SkipToKeeps(ec: Ec, until: nat)
    ensures ec.SkipTo(until).0.root == ec.root && ec.SkipTo(until).0.self == ec.self
  {
  }

  lemma StepChain(ec: Ec, dh: Dh, name: Dh)
    ensures ec.DhStep(dh, name).recv == Some(ChainAt(ChainStart(ec.root, Exchange(ec.self, dh)), 0))
  {
  }

  /** A repeated number, a dropped one or one too far ahead never yields the message's key. */
  lemma ResolveRefused(side: Side, sk: Term, keys: seq<Dh>, lens: seq<nat>, j: nat, n: nat, name: Dh)
    requires SideOk(side, sk, keys, lens) && Distinct(keys) && 1 <= j < |keys| && j % 2 != side.s % 2 && j <= side.s + 1
    requires n < lens[j] && !Resolvable(side, keys, lens, j, n)
    ensures side.ec.Resolve(HeaderOf(keys, lens, j, n), name).1 != Ok(KeyAt(Start(sk, keys, j), n))
  {
    var (ec, hdr) := (side.ec, HeaderOf(keys, lens, j, n));
    assert ec.remote == Some(keys[j]) <==> j + 1 == side.s;
    if j + 1 == side.s {
      RefusedHere(ec, Start(sk, keys, j), side.r, n);
    } else {
      assert j <= 1 || hdr.pn == lens[j - 2];
      RefusedElsewhere(side, sk, keys, lens, j, n, name);
    }
    hide Ec.Advanced, Ec.SkipTo, Ec.DhStep, Start, KeyAt, SideOk;
  }

  lemma RefusedHere(ec: Ec, start: EcKey, r: nat, n: nat)
    requires ec.recv == Some(ChainAt(start, r)) && start.ChainStart? && (n < r || n > r + MAX_SKIP)
    ensures ec.Advanced(n).1 != Ok(KeyAt(start, n))
  {
    AdvancedKey(ec, start, r, n);
    if n < r && KeyAt(start, r) == KeyAt(start, n) { IterateInjective(start, r, start, n); }
  }

  lemma RefusedElsewhere(side: Side, sk: Term, keys: seq<Dh>, lens: seq<nat>, j: nat, n: nat, name: Dh)
    requires SideOk(side, sk, keys, lens) && 1 <= j < |keys| && j % 2 != side.s % 2 && j + 1 != side.s
    requires j <= side.s + 1
    requires n < lens[j] && !Resolvable(side, keys, lens, j, n)
    ensures var (ec, r) := side.ec.SkipTo(HeaderOf(keys, lens, j, n).pn);
      r.Err? || ec.DhStep(keys[j], name).Advanced(n).1 != Ok(KeyAt(Start(sk, keys, j), n))
  {
    var ec := side.ec.SkipTo(HeaderOf(keys, lens, j, n).pn).0;
    var start := ChainStart(side.ec.root, Exchange(side.ec.self, keys[j]));
    SkipToKeeps(side.ec, HeaderOf(keys, lens, j, n).pn);
    StepChain(ec, keys[j], name);
    AdvancedKey(ec.DhStep(keys[j], name), start, 0, n);
    if j < side.s && KeyAt(start, n) == KeyAt(Start(sk, keys, j), n) {
      IterateInjective(start, n, Start(sk, keys, j), n);
      RootInjective(sk, keys, side.s, j - 1);
    }
  }

  // ---- two sides ----------------------------------------------------------------------------

  /** Both parties, the shared key sequence and how many messages each chain has carried. */
  datatype EcWorld = EcWorld(sk: Term, keys: seq<Dh>, lens: seq<nat>, a: Side, b: Side) {
    function At(p: Party): Side { if p == Alice then a else b }

    function Put(p: Party, side: Side): EcWorld { if p == Alice then this.(a := side) else this.(b := side) }
  }

  ghost predicate WorldOk(w: EcWorld)
  {
    && w.a.s % 2 == 1 && w.b.s % 2 == 0 && (w.a.s == w.b.s + 1 || w.b.s == w.a.s + 1)
    && |w.keys| == |w.lens| == (if w.a.s > w.b.s then w.a.s else w.b.s) + 1
    && w.lens[0] == 0 && Distinct(w.keys)
    && SideOk(w.a, w.sk, w.keys, w.lens) && SideOk(w.b, w.sk, w.keys, w.lens)
  }

  /** Message n of chain j has been sent by the peer of p. */
  predicate SentTo(w: EcWorld, p: Party, j: nat, n: nat)
  {
    1 <= j < |w.keys| == |w.lens| && w.At(p).s < |w.keys| && j % 2 == (if p == Alice then 0 else 1) && n < w.lens[j]
  }

  function KeyOf(w: EcWorld, j: nat, n: nat): EcKey
    requires 1 <= j < |w.keys|
  {
    KeyAt(Start(w.sk, w.keys, j), n)
  }

  datatype EcStep = Send(sender: Party) | Receive(receiver: Party, j: nat, n: nat, name: Dh)

  /**
   A receive counts only if it yields the message's own key, since any other key fails the
   AEAD and the caller then keeps the old state. `name` is a fresh DH key.
   */
  function EcApply(w: EcWorld, step: EcStep): EcWorld
  {
    match step
    case Send(p) =>
      var r := w.At(p).ec.Send();
      if r.Ok? && w.At(p).s < |w.lens| then
        w.Put(p, w.At(p).(ec := r.value.0)).(lens := w.lens[w.At(p).s := w.lens[w.At(p).s] + 1])
      else w
    case Receive(p, j, n, name) =>
      if SentTo(w, p, j, n) && name !in w.keys then
        var (side, hdr) := (w.At(p), HeaderOf(w.keys, w.lens, j, n));
        var (ec, r) := side.ec.Resolve(hdr, name);
        if r == Ok(KeyOf(w, j, n)) then
          var w' := w.Put(p, Received(side, w.keys, w.lens, j, n, name).(ec := ec));
          if j == side.s + 1 then w'.(keys := w.keys + [name], lens := w.lens + [0]) else w'
        else w
      else w
  }

  function EcInit(sk: Term, bob: Dh, alice: Dh): EcWorld
  {
    EcWorld(sk, [bob, alice], [0, 0], Side(InitAlice(sk, bob, alice), 1, 0, map[], map[]),
            Side(InitBob(sk, bob), 0, 0, map[], map[]))
  }

  function EcRun(sk: Term, bob: Dh, alice: Dh, steps: seq<EcStep>): EcWorld
  {
    if steps == [] then EcInit(sk, bob, alice) else EcApply(EcRun(sk, bob, alice, steps[..|steps| - 1]), steps[|steps| - 1])
  }

  lemma InitOk(sk: Term, bob: Dh, alice: Dh)
    requires bob != alice
    ensures WorldOk(EcInit(sk, bob, alice))
  {
    var w := EcInit(sk, bob, alice);
    assert RootAt(sk, w.keys, 0) == Shared0(sk);
    assert RootAt(sk, w.keys, 1) == RootStep(Shared0(sk), Exchange(alice, bob));
    assert Iterate(Start(sk, w.keys, 1), 0) == Start(sk, w.keys, 1);
    hide RootAt, Iterate;
  }

  lemma SendOk(w: EcWorld, p: Party)
    requires WorldOk(w)
    ensures WorldOk(EcApply(w, Send(p)))
    ensures w.At(p).ec.Send().Ok? <==> w.At(p).s >= 1
    ensures w.At(p).s >= 1 ==>
      var (_, hdr, mk) := w.At(p).ec.Send().value;
      var (j, n) := (w.At(p).s, w.lens[w.At(p).s]);
      && hdr == HeaderOf(w.keys, w.lens, j, n) && mk == KeyOf(w, j, n)
      && SentTo(EcApply(w, Send(p)), p.Peer(), j, n)
  {
    hide Start, RootAt, Distinct, KeyAt, Books, Kept, ChainAt;
    var s := w.At(p).s;
    if s >= 1 {
      SendSideOk(w.At(p), w.sk, w.keys, w.lens);
      PeerSent(w.At(p.Peer()), w.sk, w.keys, w.lens, s);
      hide SideOk;
    }
  }

  lemma ReceivedIndex(side: Side, keys: seq<Dh>, lens: seq<nat>, j: nat, n: nat, name: Dh)
    requires side.s < |keys| == |lens| && j < |keys|
    ensures Received(side, keys, lens, j, n, name).s ==
      if Place(n, keys[j]) in side.ec.skipped || j + 1 == side.s then side.s else side.s + 2
  {
    hide Ec.SkipTo, Ec.DhStep;
  }

  lemma ResolvesTo(w: EcWorld, p: Party, j: nat, n: nat, name: Dh)
    requires WorldOk(w) && SentTo(w, p, j, n) && name !in w.keys && Resolvable(w.At(p), w.keys, w.lens, j, n)
    ensures var side := w.At(p);
      var side' := Received(side, w.keys, w.lens, j, n, name);
      var (keys, lens) := if j == side.s + 1 then (w.keys + [name], w.lens + [0]) else (w.keys, w.lens);
      && side.ec.Resolve(HeaderOf(w.keys, w.lens, j, n), name) == (side'.ec, Ok(KeyOf(w, j, n)))
      && SideOk(side', w.sk, keys, lens) && SideOk(w.At(p.Peer()), w.sk, keys, lens)
      && side'.s == (if j == side.s + 1 then side.s + 2 else side.s)
  {
    hide Start, RootAt, KeyAt, Ec.Resolve, Distinct, SideOk, Received;
    var side := w.At(p);
    assert j <= side.s + 1;
    ReceivedIndex(side, w.keys, w.lens, j, n, name);
    if Place(n, w.keys[j]) in side.ec.skipped {
      StoredSideOk(side, w.sk, w.keys, w.lens, j, n);
      ResolveStored(side, w.sk, w.keys, w.lens, j, n, name);
    } else if j + 1 == side.s {
      ResolveCurrent(side, w.sk, w.keys, w.lens, j, n, name);
    } else {
      ResolveNew(side, w.sk, w.keys, w.lens, j, n, name);
      PeerGrown(w.At(p.Peer()), w.sk, w.keys, w.lens, name);
    }
  }

  lemma ReceiveOk(w: EcWorld, p: Party, j: nat, n: nat, name: Dh)
    requires WorldOk(w)
    ensures WorldOk(EcApply(w, Receive(p, j, n, name)))
  {
    hide Start, RootAt, KeyAt, SideOk, Ec.Resolve, Received, Resolvable;
    if SentTo(w, p, j, n) && name !in w.keys {
      var side := w.At(p);
      if Resolvable(side, w.keys, w.lens, j, n) {
        ResolvesTo(w, p, j, n, name);
        DistinctAppend(w.keys, name);
      } else {
        ResolveRefused(side, w.sk, w.keys, w.lens, j, n, name);
      }
    }
  }

  lemma {:induction false} EcRunOk(sk: Term, bob: Dh, alice: Dh, steps: seq<EcStep>)
    requires bob != alice
    ensures WorldOk(EcRun(sk, bob, alice, steps))
  {
    hide WorldOk, EcApply;
    if steps == [] {
      InitOk(sk, bob, alice);
    } else {
      var w := EcRun(sk, bob, alice, steps[..|steps| - 1]);
      EcRunOk(sk, bob, alice, steps[..|steps| - 1]);
      match steps[|steps| - 1]
      case Send(p) => SendOk(w, p);
      case Receive(p, j, n, name) => ReceiveOk(w, p, j, n, name);
    }
  }

  // ---- main results -------------------------------------------------------------------------

  /** Chain j of the sequence as the sender and the receiver hold it: the receiver is never ahead. */
  ghost predicate SameChain(sender: Option<ChainState>, receiver: Option<ChainState>, start: EcKey)
  {
    && sender.Some? && sender.value == ChainAt(start, sender.value.n)
    && receiver.Some? && receiver.value == ChainAt(start, receiver.value.n)
    && receiver.value.n <= sender.value.n
  }

  /** A stored key is the right key of a number that was neither accepted nor dropped. */
  ghost predicate StoredRight(w: EcWorld, side: Side, j: nat, n: nat)
    requires j < |w.keys| && Place(n, w.keys[j]) in side.ec.skipped
  {
    && 1 <= j < side.s && j % 2 != side.s % 2
    && n !in Got(side.accepted, j) && n !in Got(side.dropped, j)
    && side.ec.skipped[Place(n, w.keys[j])] == KeyOf(w, j, n)
  }

  lemma StoredIsRight(w: EcWorld, p: Party, j: nat, n: nat)
    requires WorldOk(w) && j < |w.keys| && Place(n, w.keys[j]) in w.At(p).ec.skipped
    ensures StoredRight(w, w.At(p), j, n)
  {
    hide KeyAt, Start, Got, Kept, StoredAt;
    var side := w.At(p);
    StoredSideOk(side, w.sk, w.keys, w.lens, j, n);
    assert Books(side, w.sk, w.keys, j, Passed(side.s, side.r, w.lens, j));
    assert n in StoredAt(side.ec.skipped, w.keys[j]);
    hide Fields;
  }

  /** The party whose sending chain is the later one leads. */
  lemma LeaderAgrees(w: EcWorld, p: Party)
    requires WorldOk(w) && w.At(p).s == w.At(p.Peer()).s + 1
    ensures var (side, peer) := (w.At(p), w.At(p.Peer()));
      && side.s < |w.keys| && side.ec.root == RootStep(peer.ec.root, Exchange(side.ec.self, peer.ec.self))
      && (side.s >= 2 ==> SameChain(peer.ec.send, side.ec.recv, Start(w.sk, w.keys, peer.s)))
  {
    hide KeyAt, Iterate, Start, Got, Distinct, Kept, Books;
    var s := w.At(p).s;
    assert RootAt(w.sk, w.keys, s) == RootStep(RootAt(w.sk, w.keys, s - 1), Exchange(w.keys[s], w.keys[s - 1]));
    hide RootAt;
  }

  /**
   In every run, over any number of DH steps, the sending chains are neighbours in one
   sequence, the leading party's root key is one step beyond the other's, its receiving
   chain is the other's sending chain, and every stored key is right.
   */
  lemma RatchetAgreement(sk: Term, bob: Dh, alice: Dh, steps: seq<EcStep>, p: Party)
    requires bob != alice
    ensures var w := EcRun(sk, bob, alice, steps);
      var (side, peer) := (w.At(p), w.At(p.Peer()));
      && w.sk == sk && (side.s == peer.s + 1 || peer.s == side.s + 1) && side.s < |w.keys|
      && (side.s == peer.s + 1 ==> side.ec.root == RootStep(peer.ec.root, Exchange(side.ec.self, peer.ec.self)))
      && (side.s == peer.s + 1 && side.s >= 2 ==> SameChain(peer.ec.send, side.ec.recv, Start(sk, w.keys, peer.s)))
      && (forall j: nat, n: nat :: j < |w.keys| && Place(n, w.keys[j]) in side.ec.skipped ==> StoredRight(w, side, j, n))
  {
    EcRunOk(sk, bob, alice, steps);
    RunSk(sk, bob, alice, steps);
    hide EcRun, Start, SideOk, SameChain, StoredRight;
    var w := EcRun(sk, bob, alice, steps);
    if w.At(p).s == w.At(p.Peer()).s + 1 { LeaderAgrees(w, p); }
    forall j: nat, n: nat | j < |w.keys| && Place(n, w.keys[j]) in w.At(p).ec.skipped ensures StoredRight(w, w.At(p), j, n) {
      StoredIsRight(w, p, j, n);
    }
  }

  lemma {:induction false} RunSk(sk: Term, bob: Dh, alice: Dh, steps: seq<EcStep>)
    ensures EcRun(sk, bob, alice, steps).sk == sk
  {
    if steps != [] { RunSk(sk, bob, alice, steps[..|steps| - 1]); }
  }

  /** No single skip on the way to message n of chain j is longer than MAX_SKIP. */
  predicate InReach(side: Side, lens: seq<nat>, j: nat, n: nat)
    requires side.s < |lens|
  {
    && (j + 1 == side.s ==> n <= side.r + MAX_SKIP)
    && (j == side.s + 1 ==> n <= MAX_SKIP && (side.s >= 2 ==> lens[side.s - 1] - side.r <= MAX_SKIP))
  }

  /**
   The EC half of `decrypt` finds the key of a sent message exactly when the message was not
   accepted before, the full store has not dropped its key, and no skip is too long.
   */
  lemma ResolvedExactly(w: EcWorld, p: Party, j: nat, n: nat, name: Dh)
    requires WorldOk(w) && SentTo(w, p, j, n) && name !in w.keys
    ensures var side := w.At(p);
      var r := side.ec.Resolve(HeaderOf(w.keys, w.lens, j, n), name).1;
      r == Ok(KeyOf(w, j, n)) <==> n !in Got(side.accepted, j) && n !in Got(side.dropped, j) && InReach(side, w.lens, j, n)
  {
    hide Start, RootAt, KeyAt, Kept, ChainAt, Ec.Resolve, RightKeys, Got;
    var side := w.At(p);
    assert Books(side, w.sk, w.keys, j, Passed(side.s, side.r, w.lens, j));
    if Resolvable(side, w.keys, w.lens, j, n) {
      ResolvesTo(w, p, j, n, name);
    } else {
      ResolveRefused(side, w.sk, w.keys, w.lens, j, n, name);
    }
  }

  /** How many keys a receive has to store. */
  function Gap(side: Side, lens: seq<nat>, j: nat, n: nat): int
    requires side.s < |lens|
  {
    if j + 1 == side.s then n - side.r else n + if side.s >= 2 then lens[side.s - 1] - side.r else 0
  }

  predicate SameLog(a: Log, b: Log) { (forall x :: x in a ==> Got(b, x) == a[x]) && (forall x :: x in b ==> Got(a, x) == b[x]) }

  /** A receive drops no key as long as the store has room for the gap. */
  lemma NothingDropped(w: EcWorld, p: Party, j: nat, n: nat, name: Dh)
    requires WorldOk(w) && SentTo(w, p, j, n) && name !in w.keys && Resolvable(w.At(p), w.keys, w.lens, j, n)
    requires Place(n, w.keys[j]) in w.At(p).ec.skipped || |w.At(p).ec.skipped| + Gap(w.At(p), w.lens, j, n) <= MAX_SKIP
    ensures SameLog(EcApply(w, Receive(p, j, n, name)).At(p).dropped, w.At(p).dropped)
  {
    hide KeyAt, Ec.Resolve, SideOk, Received, SameLog, Resolvable;
    ResolvesTo(w, p, j, n, name);
    DropsNothing(w.At(p), w.sk, w.keys, w.lens, j, n, name);
  }

  lemma SkipDropsNothing(side: Side, until: nat)
    requires side.r <= until && |side.ec.skipped| + until - side.r <= MAX_SKIP
    ensures SameLog(SkipSide(side, until).dropped, side.dropped)
  {
    hide Ec.SkipTo, RoomFor;
    if side.s >= 2 {
      RoomEnough(|side.ec.skipped|, side.r, until);
      SameLogEmpty(side.dropped, side.s - 1, until);
    }
  }

  lemma RoomEnough(size: nat, from: nat, until: nat)
    requires from <= until && size + until - from <= MAX_SKIP
    ensures RoomFor(size, from, until) == until
  {
  }

  lemma SameLogEmpty(log: Log, j: nat, until: nat)
    ensures SameLog(AddAll(log, j, Range(until, until)), log)
  {
    assert Range(until, until) == {};
    assert Got(log, j) + {} == Got(log, j);
  }

  lemma SameLogTrans(a: Log, b: Log, c: Log)
    requires SameLog(a, b) && SameLog(b, c)
    ensures SameLog(a, c)
  {
  }

  lemma OnwardDropsNothing(side: Side, n: nat)
    requires side.r <= n && |side.ec.skipped| + n - side.r <= MAX_SKIP
    ensures SameLog(Onward(side, n).dropped, side.dropped)
  {
    hide Ec.SkipTo, SameLog;
    SkipDropsNothing(side, n);
  }

  lemma DropsNothing(side: Side, sk: Term, keys: seq<Dh>, lens: seq<nat>, j: nat, n: nat, name: Dh)
    requires SideOk(side, sk, keys, lens) && j < |keys| && Resolvable(side, keys, lens, j, n) && |keys| == |lens|
    requires Place(n, keys[j]) in side.ec.skipped || |side.ec.skipped| + Gap(side, lens, j, n) <= MAX_SKIP
    ensures SameLog(Received(side, keys, lens, j, n, name).dropped, side.dropped)
  {
    hide Start, RootAt, KeyAt, Books, Ec.SkipTo, SkipSide, Ec.DhStep, ChainAt, Onward, SameLog;
    SameLogSelf(side.dropped);
    if Place(n, keys[j]) !in side.ec.skipped {
      if j + 1 == side.s {
        OnwardDropsNothing(side, n);
      } else if side.s < 2 {
        StepKeeps(side.ec, keys[j], name);
        OnwardDropsNothing(StepSide(side, keys[j], name), n);
      } else {
        var mid := SkipSide(side, lens[side.s - 1]);
        CaughtUpSize(side, sk, keys, lens);
        SkipDropsNothing(side, lens[side.s - 1]);
        StepKeeps(mid.ec, keys[j], name);
        OnwardDropsNothing(StepSide(mid, keys[j], name), n);
        SameLogTrans(Onward(StepSide(mid, keys[j], name), n).dropped, mid.dropped, side.dropped);
      }
    }
  }

  lemma SameLogSelf(a: Log)
    ensures SameLog(a, a)
  {
  }

  lemma CaughtUpSize(side: Side, sk: Term, keys: seq<Dh>, lens: seq<nat>)
    requires SideOk(side, sk, keys, lens) && side.s >= 2 && |side.ec.skipped| + lens[side.s - 1] - side.r <= MAX_SKIP
    ensures |SkipSide(side, lens[side.s - 1]).ec.skipped| == |side.ec.skipped| + lens[side.s - 1] - side.r
  {
    hide Start, RootAt, KeyAt, Books, Ec.SkipTo, ChainAt, Filled, Range, AddAll;
    var until := lens[side.s - 1];
    SkipShape(side, sk, keys, lens, until);
    FilledSize(side.ec.skipped, side.ec.SkipTo(until).0.skipped, Start(sk, keys, side.s - 1), side.r, keys[side.s - 1], until);
  }

  lemma FilledSize(store: Store, store': Store, start: EcKey, from: nat, dh: Dh, until: nat)
    requires from <= until && |store| + until - from <= MAX_SKIP && Filled(store, store', start, from, dh, until)
    ensures |store'| == |store| + until - from
  {
    hide KeyAt;
  }

  // ---- what stays the same --------------------------------------------------------------------

  /** Keys are only appended, lengths only grow, and only on the last two chains. */
  predicate Extended(w: EcWorld, w': EcWorld)
  {
    && w'.sk == w.sk && (w'.keys == w.keys || (|w'.keys| == |w.keys| + 1 && w.keys <= w'.keys))
    && |w.keys| == |w.lens| && |w'.keys| == |w'.lens|
    && (forall i :: 0 <= i < |w.lens| ==> w.lens[i] <= w'.lens[i] && (i + 2 < |w.lens| ==> w'.lens[i] == w.lens[i]))
  }

  lemma SendExtends(w: EcWorld, p: Party)
    requires WorldOk(w)
    ensures Extended(w, EcApply(w, Send(p)))
    ensures forall q: Party :: EcApply(w, Send(p)).At(q).accepted == w.At(q).accepted
  {
    hide SideOk;
  }

  lemma ReceiveExtends(w: EcWorld, p: Party, j: nat, n: nat, name: Dh)
    requires WorldOk(w)
    ensures Extended(w, EcApply(w, Receive(p, j, n, name)))
  {
    hide SideOk, Ec.Resolve, Received;
    var w' := EcApply(w, Receive(p, j, n, name));
    assert w'.keys == w.keys || w'.keys == w.keys + [name];
  }

  lemma ExtendedKeeps(w: EcWorld, w': EcWorld, p: Party, j: nat, n: nat)
    requires Extended(w, w') && WorldOk(w) && WorldOk(w') && SentTo(w, p, j, n)
    ensures SentTo(w', p, j, n) && HeaderOf(w'.keys, w'.lens, j, n) == HeaderOf(w.keys, w.lens, j, n)
    ensures KeyOf(w', j, n) == KeyOf(w, j, n)
  {
    hide KeyAt, Start, Distinct, Books, Kept, RootAt, ChainAt;
    if w'.keys != w.keys {
      var name := w'.keys[|w.keys|];
      assert w'.keys == w.keys + [name];
      StartStable(w.sk, w.keys, name, j);
    }
  }

  /** The log gains number n of chain j and nothing else. */
  ghost predicate Files(log: Log, log': Log, j: nat, n: nat)
  {
    forall x: nat :: Got(log', x) == (if x == j then Got(log, x) + {n} else Got(log, x))
  }

  /** An accepted receive files exactly its own number. */
  lemma ReceivedFiles(w: EcWorld, p: Party, j: nat, n: nat, name: Dh)
    requires WorldOk(w) && SentTo(w, p, j, n) && name !in w.keys
    requires w.At(p).ec.Resolve(HeaderOf(w.keys, w.lens, j, n), name).1 == Ok(KeyOf(w, j, n))
    ensures var w' := EcApply(w, Receive(p, j, n, name));
      && w'.At(p).ec == w.At(p).ec.Resolve(HeaderOf(w.keys, w.lens, j, n), name).0
      && w'.At(p.Peer()) == w.At(p.Peer())
      && Files(w.At(p).accepted, w'.At(p).accepted, j, n)
  {
    hide Start, KeyAt, Ec.Resolve, Received;
    var side := w.At(p);
    if !Resolvable(side, w.keys, w.lens, j, n) {
      ResolveRefused(side, w.sk, w.keys, w.lens, j, n, name);
    } else {
      ReceivedAdds(side, w.sk, w.keys, w.lens, j, n, name);
    }
  }

  lemma OnwardAdds(side: Side, sk: Term, keys: seq<Dh>, lens: seq<nat>, n: nat)
    requires SideOk(side, sk, keys, lens) && side.s >= 2 && side.r <= n <= lens[side.s - 1] && n - side.r <= MAX_SKIP
    ensures Files(side.accepted, Onward(side, n).accepted, side.s - 1, n)
  {
    SkipSideFields(side, sk, keys, lens, n);
    hide Ec.SkipTo, Start, Iterate, Got, Add, AddAll, Books, RoomFor, Range;
  }

  lemma ReceivedAdds(side: Side, sk: Term, keys: seq<Dh>, lens: seq<nat>, j: nat, n: nat, name: Dh)
    requires SideOk(side, sk, keys, lens) && Distinct(keys) && 1 <= j < |keys| && Resolvable(side, keys, lens, j, n)
    requires |lens| == |keys| && n < lens[j] && lens[0] == 0 && name !in keys && (j == side.s + 1 ==> |keys| == j + 1)
    ensures Files(side.accepted, Received(side, keys, lens, j, n, name).accepted, j, n)
  {
    hide Start, KeyAt, Onward, Onto, Ec.DhStep, Got, Add;
    if Place(n, keys[j]) in side.ec.skipped {
    } else if j + 1 == side.s {
      OnwardAdds(side, sk, keys, lens, n);
    } else {
      var mid := if side.s < 2 then side else Onto(side, lens[side.s - 1]);
      CatchUp(side, sk, keys, lens);
      OntoAccepted(side, lens);
      StepSideOk(mid, sk, keys, lens, name);
      OnwardAdds(StepSide(mid, keys[j], name), sk, keys + [name], lens + [0], n);
    }
  }

  lemma OntoAccepted(side: Side, lens: seq<nat>)
    requires side.s < |lens|
    ensures side.s >= 2 ==> Onto(side, lens[side.s - 1]).accepted == side.accepted
  {
    hide Ec.SkipTo;
  }

  lemma AcceptedBelow(w: EcWorld, p: Party, j: nat, n: nat)
    requires WorldOk(w) && j < |w.keys| && n in Got(w.At(p).accepted, j)
    ensures n < w.lens[j]
  {
    hide Start, KeyAt, Got, RightKeys, StoredAt, Kept, ChainAt, Distinct;
    var side := w.At(p);
    assert Books(side, w.sk, w.keys, j, Passed(side.s, side.r, w.lens, j));
  }
}
