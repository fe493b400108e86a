/**
 The EC Double Ratchet of a session (src/protocol/ratchet/mod.rs, chain.rs, skipped.rs):
 the EC fields as a value, one function per operation, and what the skip loop leaves in
 the bounded store.
 */
module EcRatchet {
  import opened Common
  import opened Symbolic

  /** An X25519 key pair, by name; a Diffie-Hellman output is the unordered pair of names. */
  type Dh = nat

  datatype Pair = Pair(lo: Dh, hi: Dh)

  function Exchange(a: Dh, b: Dh): Pair
  {
    if a <= b then Pair(a, b) else Pair(b, a)
  }

  /** Root keys: the shared secret, and the first output of KDF_RK. */
  datatype Root = Shared0(sk: Term) | RootStep(root: Root, dh: Pair)

  /** The second output of KDF_RK, and the two outputs of KDF_CK. */
  datatype EcKey = ChainStart(root: Root, dh: Pair) | NextChain(ck: EcKey) | MessageOf(ck: EcKey)

  datatype ChainState = ChainState(ck: EcKey, n: nat) {
    function Advance(): (ChainState, EcKey)
    {
      (ChainState(NextChain(ck), n + 1), MessageOf(ck))
    }
  }

  /** Chain key number n of the chain that starts at `start`. */
  function Iterate(start: EcKey, n: nat): EcKey
  {
    if n == 0 then start else NextChain(Iterate(start, n - 1))
  }

  /** Message key number n of that chain. */
  function KeyAt(start: EcKey, n: nat): EcKey { MessageOf(Iterate(start, n)) }

  function ChainAt(start: EcKey, n: nat): ChainState { ChainState(Iterate(start, n), n) }

  lemma {:induction false} IterateInjective(a: EcKey, m: nat, b: EcKey, n: nat)
    requires a.ChainStart? && b.ChainStart? && Iterate(a, m) == Iterate(b, n)
    ensures a == b && m == n
  {
    if m > 0 && n > 0 { IterateInjective(a, m - 1, b, n - 1); }
  }

  // ---- the skipped-key store --------------------------------------------------------------

  /** A message's place: its number and the DH key of its chain. */
  datatype Place = Place(n: nat, dh: Dh)

  type Store = map<Place, EcKey>

  /** The numbers stored for one chain. */
  function StoredAt(store: Store, dh: Dh): (r: set<nat>)
    ensures forall n: nat :: n in r <==> Place(n, dh) in store
  {
    set k | k in store && k.dh == dh :: k.n
  }

  /** A full store ignores the key. */
  function Inserted(store: Store, n: nat, dh: Dh, mk: EcKey): Store
  {
    if |store| >= MAX_SKIP then store else store[Place(n, dh) := mk]
  }

  class SkippedKeys {
    var keys: Store

    constructor ()
      ensures keys == map[]
    {
      keys := map[];
    }

    method Insert(messageNumber: nat, dh: Dh, messageKey: EcKey)
      modifies this
      ensures keys == Inserted(old(keys), messageNumber, dh, messageKey)
    {
      if |keys| >= MAX_SKIP { return; }
      keys := keys[Place(messageNumber, dh) := messageKey];
    }

    method TryRemoveByDh(dh: Dh, messageNumber: nat) returns (mk: Option<EcKey>)
      modifies this
      ensures keys == old(keys) - {Place(messageNumber, dh)}
      ensures mk == if Place(messageNumber, dh) in old(keys) then Some(old(keys)[Place(messageNumber, dh)]) else None
    {
      if Place(messageNumber, dh) !in keys {
        assert keys - {Place(messageNumber, dh)} == keys;
        return None;
      }
      mk := Some(keys[Place(messageNumber, dh)]);
      keys := keys - {Place(messageNumber, dh)};
    }
  }

  /** The `while` loop of `skip_receiving_messages`. */
  function SkipLoop(store: Store, chain: ChainState, dh: Dh, until: nat): (Store, ChainState)
    decreases until - chain.n
  {
    if chain.n >= until then (store, chain)
    else SkipLoop(Inserted(store, chain.n, dh, MessageOf(chain.ck)), chain.Advance().0, dh, until)
  }

  lemma {:induction false} SkipLoopNumber(store: Store, chain: ChainState, dh: Dh, until: nat)
    ensures SkipLoop(store, chain, dh, until).1.n == Max(chain.n, until)
    decreases until - chain.n
  {
    if chain.n < until {
      SkipLoopNumber(Inserted(store, chain.n, dh, MessageOf(chain.ck)), chain.Advance().0, dh, until);
    }
  }

  /** Skipping from .. until stores the numbers below this one; the store has no room for the others. */
  function RoomFor(size: nat, from: nat, until: nat): (kept: nat)
    requires from <= until && size <= MAX_SKIP
    ensures from <= kept <= until
    ensures kept < until ==> size + kept - from == MAX_SKIP
  {
    if from + MAX_SKIP < until + size then from + MAX_SKIP - size else until
  }

  /** The store gains exactly the keys of the numbers from .. kept of one chain. */
  ghost predicate Gains(store: Store, store': Store, start: EcKey, from: nat, dh: Dh, kept: nat)
  {
    && (forall k :: k in store ==> k in store' && store'[k] == store[k])
    && (forall n :: from <= n < kept ==> Place(n, dh) in store' && store'[Place(n, dh)] == KeyAt(start, n))
    && (forall k :: k in store' ==> k in store || (k.dh == dh && from <= k.n < kept))
    && |store'| == |store| + kept - from
  }

  ghost predicate Filled(store: Store, store': Store, start: EcKey, from: nat, dh: Dh, until: nat)
    requires from <= until && |store| <= MAX_SKIP
  {
    Gains(store, store', start, from, dh, RoomFor(|store|, from, until))
  }

  lemma {:induction false} SkipLoopFills(store: Store, start: EcKey, from: nat, dh: Dh, until: nat)
    requires from <= until && |store| <= MAX_SKIP
    requires forall n :: n >= from ==> Place(n, dh) !in store
    ensures var (store', chain') := SkipLoop(store, ChainAt(start, from), dh, until);
      chain' == ChainAt(start, until) && Filled(store, store', start, from, dh, until)
    decreases until - from
  {
    hide Filled, Iterate;
    if from == until {
      FilledNone(store, start, from, dh);
    } else {
      var next := Inserted(store, from, dh, KeyAt(start, from));
      SkipLoopFills(next, start, from + 1, dh, until);
      NextChainAt(start, from);
      FilledStep(store, SkipLoop(next, ChainAt(start, from + 1), dh, until).0, start, from, dh, until);
    }
  }

  lemma NextChainAt(start: EcKey, n: nat)
    ensures ChainAt(start, n).Advance() == (ChainAt(start, n + 1), KeyAt(start, n))
  {
  }

  lemma FilledNone(store: Store, start: EcKey, from: nat, dh: Dh)
    requires |store| <= MAX_SKIP
    ensures Filled(store, store, start, from, dh, from)
  {
  }

  lemma GainsStep(store: Store, store': Store, start: EcKey, from: nat, dh: Dh, kept: nat)
    requires from < kept && Place(from, dh) !in store
    requires Gains(store[Place(from, dh) := KeyAt(start, from)], store', start, from + 1, dh, kept)
    ensures Gains(store, store', start, from, dh, kept)
  {
    hide KeyAt;
    var next := store[Place(from, dh) := KeyAt(start, from)];
    assert |next| == |store| + 1;
    forall k | k in store ensures k in store' && store'[k] == store[k] {
      assert k in next && next[k] == store[k];
    }
    forall n | from <= n < kept ensures Place(n, dh) in store' && store'[Place(n, dh)] == KeyAt(start, n) {
      if n == from { assert Place(n, dh) in next; }
    }
    forall k | k in store' ensures k in store || (k.dh == dh && from <= k.n < kept) {
      if k in next && k !in store { assert k == Place(from, dh); }
    }
  }

  lemma GainsNothing(store: Store, store': Store, start: EcKey, from: nat, dh: Dh)
    requires Gains(store, store', start, from + 1, dh, from + 1)
    ensures Gains(store, store', start, from, dh, from)
  {
    hide KeyAt;
  }

  lemma FilledStep(store: Store, store': Store, start: EcKey, from: nat, dh: Dh, until: nat)
    requires from < until && |store| <= MAX_SKIP && Place(from, dh) !in store
    requires |Inserted(store, from, dh, KeyAt(start, from))| <= MAX_SKIP
    requires Filled(Inserted(store, from, dh, KeyAt(start, from)), store', start, from + 1, dh, until)
    ensures Filled(store, store', start, from, dh, until)
  {
    hide KeyAt, RoomFor, Gains;
    RoomStep(|store|, from, until);
    if |store| < MAX_SKIP {
      assert |store[Place(from, dh) := KeyAt(start, from)]| == |store| + 1;
      GainsStep(store, store', start, from, dh, RoomFor(|store|, from, until));
    } else {
      GainsNothing(store, store', start, from, dh);
    }
  }

  lemma RoomStep(size: nat, from: nat, until: nat)
    requires from < until && size <= MAX_SKIP
    ensures size < MAX_SKIP ==> RoomFor(size + 1, from + 1, until) == RoomFor(size, from, until) > from
    ensures size == MAX_SKIP ==> RoomFor(size, from, until) == from && RoomFor(size, from + 1, until) == from + 1
  {
  }

  // ---- operations ---------------------------------------------------------------------------

  datatype EcHeader = EcHeader(dh: Dh, pn: nat, n: nat)

  /** The EC fields of a session. */
  datatype Ec = Ec(self: Dh, remote: Option<Dh>, root: Root, send: Option<ChainState>, recv: Option<ChainState>,
                   pn: nat, skipped: Store) {
    function Send(): Result<(Ec, EcHeader, EcKey)>
    {
      if send.None? then Err(InvalidSessionState)
      else
        var (chain, mk) := send.value.Advance();
        Ok((this.(send := Some(chain)), EcHeader(self, pn, send.value.n), mk))
    }

    function ChainDh(): Dh { if remote.Some? then remote.value else 0 }

    function SkipTo(until: nat): (Ec, Result<()>)
    {
      if recv.None? || recv.value.n > until then (this, Ok(()))
      else if until - recv.value.n > MAX_SKIP then (this, Err(MaxSkipExceeded(until - recv.value.n, MAX_SKIP)))
      else
        var (store, chain) := SkipLoop(skipped, recv.value, ChainDh(), until);
        (this.(recv := Some(chain), skipped := store), Ok(()))
    }

    /** Both halves of a DH ratchet step; `name` is the fresh key pair of the sending half. */
    function DhStep(dh: Dh, name: Dh): Ec
    {
      var (first, second) := (Exchange(self, dh), Exchange(name, dh));
      var mid := RootStep(root, first);
      Ec(name, Some(dh), RootStep(mid, second), Some(ChainState(ChainStart(mid, second), 0)),
         Some(ChainState(ChainStart(root, first), 0)), if send.Some? then send.value.n else 0, skipped)
    }

    /** Skip to the message's number and take one step of the receiving chain. */
    function Advanced(n: nat): (Ec, Result<EcKey>)
    {
      var (ec, r) := SkipTo(n);
      if r.Err? then (ec, Err(r.error))
      else if ec.recv.None? then (ec, Err(InvalidSessionState))
      else
        var (chain, mk) := ec.recv.value.Advance();
        (ec.(recv := Some(chain)), Ok(mk))
    }

    /** The EC half of `decrypt`: the state it leaves, also on an error, and the key. */
    function Resolve(hdr: EcHeader, name: Dh): (Ec, Result<EcKey>)
    {
      if Place(hdr.n, hdr.dh) in skipped then
        (this.(skipped := skipped - {Place(hdr.n, hdr.dh)}), Ok(skipped[Place(hdr.n, hdr.dh)]))
      else if remote == Some(hdr.dh) then Advanced(hdr.n)
      else
        var (ec, r) := SkipTo(hdr.pn);
        if r.Err? then (ec, Err(r.error)) else ec.DhStep(hdr.dh, name).Advanced(hdr.n)
    }
  }

  function InitAlice(sk: Term, bob: Dh, name: Dh): Ec
  {
    var dh := Exchange(name, bob);
    Ec(name, Some(bob), RootStep(Shared0(sk), dh), Some(ChainState(ChainStart(Shared0(sk), dh), 0)), None, 0, map[])
  }

  function InitBob(sk: Term, bob: Dh): Ec { Ec(bob, None, Shared0(sk), None, None, 0, map[]) }
}
