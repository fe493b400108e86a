/**
 What an EC receive that fails leaves behind. `decrypt` does not roll back: it says exactly
 when a failed call leaves the EC state as it was, and what is lost when the caller keeps
 the state of a failed call after a repeated message.
 */
module EcRollback {
  import opened Common
  import opened Symbolic
  import opened EcRatchet
  import opened EcPairing

  // ---- when a call changes nothing -------------------------------------------------------

  /** The first skip of a receive is refused: its gap is over MAX_SKIP. */
  predicate FirstSkipFails(ec: Ec, hdr: EcHeader)
  {
    ec.recv.Some? && (if ec.remote == Some(hdr.dh) then hdr.n else hdr.pn) > ec.recv.value.n + MAX_SKIP
  }

  /** The only ways a receive ends before it has changed anything. */
  predicate Untouched(ec: Ec, hdr: EcHeader)
  {
    && Place(hdr.n, hdr.dh) !in ec.skipped
    && (FirstSkipFails(ec, hdr) || (ec.recv.None? && ec.remote == Some(hdr.dh)))
  }

  /** A key taken from the chain moves the chain. */
  lemma AdvancedMoves(ec: Ec, n: nat)
    ensures ec.Advanced(n).0.self == ec.self
    ensures ec.Advanced(n).1.Ok? ==>
      ec.recv.Some? && ec.Advanced(n).0.recv.Some? && ec.Advanced(n).0.recv.value.n > ec.recv.value.n
    ensures ec.Advanced(n).1.Err? <==> ec.recv.None? || n > ec.recv.value.n + MAX_SKIP
    ensures ec.Advanced(n).1.Err? ==> ec.Advanced(n).0 == ec
  {
    if ec.recv.Some? { SkipLoopNumber(ec.skipped, ec.recv.value, ec.ChainDh(), n); }
  }

  /** For every state and every header: a receive leaves the EC state as it was exactly if it is refused at the first skip. */
  lemma ResolveKeepsIff(ec: Ec, hdr: EcHeader, name: Dh)
    requires name != ec.self
    ensures ec.Resolve(hdr, name).0 == ec <==> Untouched(ec, hdr)
    ensures Untouched(ec, hdr) ==> ec.Resolve(hdr, name).1.Err?
  {
    hide SkipLoop;
    if Place(hdr.n, hdr.dh) in ec.skipped {
      assert Place(hdr.n, hdr.dh) !in ec.Resolve(hdr, name).0.skipped;
    } else if ec.remote == Some(hdr.dh) {
      AdvancedMoves(ec, hdr.n);
    } else {
      var (next, r) := ec.SkipTo(hdr.pn);
      AdvancedMoves(next.DhStep(hdr.dh, name), hdr.n);
    }
  }

  /** The same for a sent message that does not yield its key, in any world of two honest parties. */
  lemma SentKeepsIff(w: EcWorld, p: Party, j: nat, n: nat, name: Dh)
    requires WorldOk(w) && SentTo(w, p, j, n) && name !in w.keys && !Resolvable(w.At(p), w.keys, w.lens, j, n)
    ensures var (side, hdr) := (w.At(p), EcPairing.HeaderOf(w.keys, w.lens, j, n));
      && side.ec.Resolve(hdr, name).1 != Ok(KeyOf(w, j, n))
      && (side.ec.Resolve(hdr, name).0 == side.ec <==>
            side.ec.recv.Some? && (if j + 1 == side.s then n else hdr.pn) > side.ec.recv.value.n + MAX_SKIP)
  {
    hide Ec.Resolve, Start, KeyAt, Books, Kept, RootAt, ChainAt;
    var side := w.At(p);
    ResolveRefused(side, w.sk, w.keys, w.lens, j, n, name);
    ResolveKeepsIff(side.ec, EcPairing.HeaderOf(w.keys, w.lens, j, n), name);
    if j + 1 != side.s { NotRemote(side, w.sk, w.keys, w.lens, j); }
  }

  // ---- what is lost without rollback ---------------------------------------------------------

  function Depth(root: Root): nat { if root.Shared0? then 0 else 1 + Depth(root.root) }

  /** The first key of the chain a chain key belongs to, and how far along it is. */
  function Base(ck: EcKey): EcKey { if ck.NextChain? then Base(ck.ck) else ck }

  function Steps(ck: EcKey): nat { if ck.NextChain? then 1 + Steps(ck.ck) else 0 }

  /** A chain that cannot come to key number r of the chain from `start` any more. */
  predicate Beyond(ck: EcKey, start: EcKey, r: nat) { Base(ck) == start ==> Steps(ck) > r }

  /** Nothing in the state leads to key number r of the chain from `start`. */
  ghost predicate Gone(ec: Ec, start: EcKey, r: nat)
  {
    && start.ChainStart? && Depth(ec.root) > Depth(start.root)
    && (forall k :: k in ec.skipped ==> ec.skipped[k] != KeyAt(start, r))
    && (ec.recv.Some? ==> Beyond(ec.recv.value.ck, start, r))
  }

  lemma {:induction false} IterateBase(start: EcKey, n: nat)
    requires start.ChainStart?
    ensures Base(Iterate(start, n)) == start && Steps(Iterate(start, n)) == n
  {
    if n > 0 { IterateBase(start, n - 1); }
  }

  lemma BeyondStep(ck: EcKey, start: EcKey, r: nat)
    requires start.ChainStart? && Beyond(ck, start, r)
    ensures Beyond(NextChain(ck), start, r) && MessageOf(ck) != KeyAt(start, r)
  {
    IterateBase(start, r);
  }

  lemma {:induction false} SkipLoopGone(store: Store, chain: ChainState, dh: Dh, until: nat, start: EcKey, r: nat)
    requires start.ChainStart? && Beyond(chain.ck, start, r) && forall k :: k in store ==> store[k] != KeyAt(start, r)
    ensures var (store', chain') := SkipLoop(store, chain, dh, until);
      Beyond(chain'.ck, start, r) && forall k :: k in store' ==> store'[k] != KeyAt(start, r)
    decreases until - chain.n
  {
    hide KeyAt, Base, Steps, Beyond;
    if chain.n < until {
      BeyondStep(chain.ck, start, r);
      SkipLoopGone(Inserted(store, chain.n, dh, MessageOf(chain.ck)), chain.Advance().0, dh, until, start, r);
    }
  }

  lemma SkipToGone(ec: Ec, until: nat, start: EcKey, r: nat)
    requires Gone(ec, start, r)
    ensures Gone(ec.SkipTo(until).0, start, r)
  {
    hide KeyAt, Beyond, SkipLoop, Depth;
    if ec.recv.Some? { SkipLoopGone(ec.skipped, ec.recv.value, ec.ChainDh(), until, start, r); }
  }

  lemma AdvancedGone(ec: Ec, n: nat, start: EcKey, r: nat)
    requires Gone(ec, start, r)
    ensures Gone(ec.Advanced(n).0, start, r) && ec.Advanced(n).1 != Ok(KeyAt(start, r))
  {
    hide KeyAt, Beyond, SkipLoop, Depth, Ec.SkipTo;
    SkipToGone(ec, n, start, r);
    var next := ec.SkipTo(n).0;
    if next.recv.Some? { BeyondStep(next.recv.value.ck, start, r); }
  }

  lemma DhStepGone(ec: Ec, dh: Dh, name: Dh, start: EcKey, r: nat)
    requires Gone(ec, start, r)
    ensures Gone(ec.DhStep(dh, name), start, r)
  {
    hide KeyAt;
    var mid := RootStep(ec.root, Exchange(ec.self, dh));
    assert Depth(mid) == 1 + Depth(ec.root) && Depth(RootStep(mid, Exchange(name, dh))) == 1 + Depth(mid);
  }

  lemma ResolveGone(ec: Ec, hdr: EcHeader, name: Dh, start: EcKey, r: nat)
    requires Gone(ec, start, r)
    ensures Gone(ec.Resolve(hdr, name).0, start, r) && ec.Resolve(hdr, name).1 != Ok(KeyAt(start, r))
  {
    hide KeyAt, Beyond, Depth, Ec.SkipTo, Ec.Advanced, Ec.DhStep;
    if Place(hdr.n, hdr.dh) in ec.skipped {
    } else if ec.remote == Some(hdr.dh) {
      AdvancedGone(ec, hdr.n, start, r);
    } else {
      var next := ec.SkipTo(hdr.pn).0;
      SkipToGone(ec, hdr.pn, start, r);
      DhStepGone(next, hdr.dh, name, start, r);
      AdvancedGone(next.DhStep(hdr.dh, name), hdr.n, start, r);
    }
  }

  /** What a party may go on to do, keeping the state after every call. */
  datatype Op = Sending | Receiving(hdr: EcHeader, name: Dh)

  function Did(ec: Ec, op: Op): Ec
  {
    match op
    case Sending => if ec.Send().Ok? then ec.Send().value.0 else ec
    case Receiving(hdr, name) => ec.Resolve(hdr, name).0
  }

  function After(ec: Ec, ops: seq<Op>): Ec
  {
    if ops == [] then ec else Did(After(ec, ops[..|ops| - 1]), ops[|ops| - 1])
  }

  lemma {:induction false} AfterGone(ec: Ec, ops: seq<Op>, start: EcKey, r: nat)
    requires Gone(ec, start, r)
    ensures Gone(After(ec, ops), start, r)
  {
    hide Ec.Resolve, Depth, Beyond, KeyAt;
    if ops != [] {
      AfterGone(ec, ops[..|ops| - 1], start, r);
      match ops[|ops| - 1]
      case Sending =>
      case Receiving(hdr, name) => ResolveGone(After(ec, ops[..|ops| - 1]), hdr, name, start, r);
    }
  }

  /** Without its number in the store, a number behind the chain only moves the chain. */
  lemma RepeatMovesChain(ec: Ec, start: EcKey, r: nat, hdr: EcHeader, name: Dh)
    requires ec.recv == Some(ChainAt(start, r)) && ec.remote == Some(hdr.dh)
    requires hdr.n < r && Place(hdr.n, hdr.dh) !in ec.skipped
    ensures ec.Resolve(hdr, name).0 == ec.(recv := Some(ChainAt(start, r + 1)))
  {
    NextChainAt(start, r);
  }

  lemma {:induction false} RootDepth(sk: Term, keys: seq<Dh>, i: nat)
    requires i < |keys|
    ensures Depth(RootAt(sk, keys, i)) == i
  {
    if i > 0 { RootDepth(sk, keys, i - 1); }
  }

  /** No stored key is key r of the receiving chain, of which r keys are taken. */
  lemma NextNotStored(side: Side, sk: Term, keys: seq<Dh>, lens: seq<nat>, k: Place)
    requires SideOk(side, sk, keys, lens) && side.s >= 2 && k in side.ec.skipped
    ensures side.ec.skipped[k] != KeyAt(Start(sk, keys, side.s - 1), side.r)
  {
    var i :| 0 <= i < |keys| && keys[i] == k.dh;
    StoredFacts(side, sk, keys, lens, i, k.n);
    var j := side.s - 1;
    if side.ec.skipped[k] == KeyAt(Start(sk, keys, j), side.r) {
      IterateInjective(Start(sk, keys, i), k.n, Start(sk, keys, j), side.r);
      RootInjective(sk, keys, i - 1, j - 1);
    }
  }

  lemma RepeatedIsGone(side: Side, sk: Term, keys: seq<Dh>, lens: seq<nat>)
    requires SideOk(side, sk, keys, lens) && side.s >= 2
    ensures var start := Start(sk, keys, side.s - 1);
      Gone(side.ec.(recv := Some(ChainAt(start, side.r + 1))), start, side.r)
  {
    var start := Start(sk, keys, side.s - 1);
    RootDepth(sk, keys, side.s);
    RootDepth(sk, keys, side.s - 2);
    IterateBase(start, side.r + 1);
    forall k | k in side.ec.skipped ensures side.ec.skipped[k] != KeyAt(start, side.r) {
      NextNotStored(side, sk, keys, lens, k);
    }
    hide RootAt, Iterate, KeyAt, Books, Kept, Depth, Base, Steps;
  }

  /**
   Keeping the state of a failed receive: if a message of the receiving chain is delivered a
   second time, the next message of that chain, readable before, never yields its key again,
   whatever the party does afterwards.
   */
  lemma RepeatLosesNext(w: EcWorld, p: Party, j: nat, n: nat, name: Dh, ops: seq<Op>, hdr: EcHeader, name': Dh)
    requires WorldOk(w) && SentTo(w, p, j, n) && name !in w.keys
    requires j + 1 == w.At(p).s && n in Got(w.At(p).accepted, j) && SentTo(w, p, j, w.At(p).r)
    ensures var (side, repeat) := (w.At(p), EcPairing.HeaderOf(w.keys, w.lens, j, n));
      && side.ec.Resolve(EcPairing.HeaderOf(w.keys, w.lens, j, side.r), name).1 == Ok(KeyOf(w, j, side.r))
      && side.ec.Resolve(repeat, name).1 != Ok(KeyOf(w, j, n))
      && After(side.ec.Resolve(repeat, name).0, ops).Resolve(hdr, name').1 != Ok(KeyOf(w, j, side.r))
  {
    hide Ec.Resolve, Start, Gone, After, Resolvable, SideOk, Distinct, KeyAt, ChainAt, Got, Received;
    var side := w.At(p);
    AcceptedBehind(side, w.sk, w.keys, w.lens, j, n);
    NextResolvable(side, w.keys, w.lens, j);
    ResolvesTo(w, p, j, side.r, name);
    AcceptedRefused(w, p, j, n, name);
    RepeatMovesChain(side.ec, Start(w.sk, w.keys, j), side.r, EcPairing.HeaderOf(w.keys, w.lens, j, n), name);
    RepeatedIsGone(side, w.sk, w.keys, w.lens);
    AfterGone(side.ec.Resolve(EcPairing.HeaderOf(w.keys, w.lens, j, n), name).0, ops, Start(w.sk, w.keys, j), side.r);
    ResolveGone(After(side.ec.Resolve(EcPairing.HeaderOf(w.keys, w.lens, j, n), name).0, ops), hdr, name',
                Start(w.sk, w.keys, j), side.r);
  }

  lemma AcceptedBehind(side: Side, sk: Term, keys: seq<Dh>, lens: seq<nat>, j: nat, n: nat)
    requires SideOk(side, sk, keys, lens) && 1 <= j && j + 1 == side.s && n in Got(side.accepted, j)
    ensures n < side.r && Place(n, keys[j]) !in side.ec.skipped && side.ec.remote == Some(keys[j])
    ensures side.ec.recv == Some(ChainAt(Start(sk, keys, j), side.r))
  {
    hide Start, RootAt, ChainAt, Got, Kept, RightKeys;
    assert Books(side, sk, keys, j, Passed(side.s, side.r, lens, j));
  }

  lemma NextResolvable(side: Side, keys: seq<Dh>, lens: seq<nat>, j: nat)
    requires side.s < |keys| == |lens| && j < |keys| && j + 1 == side.s
    ensures Resolvable(side, keys, lens, j, side.r)
  {
  }

  lemma AcceptedRefused(w: EcWorld, p: Party, j: nat, n: nat, name: Dh)
    requires WorldOk(w) && SentTo(w, p, j, n) && name !in w.keys && n in Got(w.At(p).accepted, j)
    ensures w.At(p).ec.Resolve(EcPairing.HeaderOf(w.keys, w.lens, j, n), name).1 != Ok(KeyOf(w, j, n))
  {
    hide WorldOk, Ec.Resolve, KeyOf, EcPairing.HeaderOf;
    ResolvedExactly(w, p, j, n, name);
  }

  // ---- such a run -----------------------------------------------------------------------------

  const TWO_SENDS: seq<EcStep> := [Send(Alice), Send(Alice)]

  lemma TwoSends(sk: Term, bob: Dh, alice: Dh)
    requires bob != alice
    ensures var w := EcRun(sk, bob, alice, TWO_SENDS);
      && WorldOk(w) && w.sk == sk && w.keys == [bob, alice] && w.lens == [0, 2]
      && w.b == Side(InitBob(sk, bob), 0, 0, map[], map[])
  {
    var w0 := EcRun(sk, bob, alice, []);
    var w1 := EcRun(sk, bob, alice, [Send(Alice)]);
    assert TWO_SENDS[..1] == [Send(Alice)] && [Send(Alice)][..0] == [];
    assert w1 == EcApply(w0, Send(Alice));
    assert EcRun(sk, bob, alice, TWO_SENDS) == EcApply(w1, Send(Alice));
    EcRunOk(sk, bob, alice, TWO_SENDS);
    hide WorldOk, EcRun;
  }

  /** The responder reads the first message of two, gets it again and keeps the state: the second is lost. */
  lemma SecondCopyLosesSecondMessage(sk: Term, bob: Dh, alice: Dh, name: Dh, again: Dh, ops: seq<Op>, hdr: EcHeader, name': Dh)
    requires bob != alice && name !in [bob, alice] && again !in [bob, alice, name]
    ensures var w := EcRun(sk, bob, alice, TWO_SENDS + [Receive(Bob, 1, 0, name)]);
      && WorldOk(w) && SentTo(w, Bob, 1, 0) && SentTo(w, Bob, 1, 1)
      && var (first, second) := (EcPairing.HeaderOf(w.keys, w.lens, 1, 0), EcPairing.HeaderOf(w.keys, w.lens, 1, 1));
      && w.b.ec.Resolve(second, again).1 == Ok(KeyOf(w, 1, 1))
      && After(w.b.ec.Resolve(first, again).0, ops).Resolve(hdr, name').1 != Ok(KeyOf(w, 1, 1))
  {
    hide WorldOk, EcRun, EcApply, Ec.Resolve, KeyOf, After, Received;
    var (steps, w0) := (TWO_SENDS, EcRun(sk, bob, alice, TWO_SENDS));
    TwoSends(sk, bob, alice);
    RunSnoc(sk, bob, alice, steps, Receive(Bob, 1, 0, name));
    var w := EcApply(w0, Receive(Bob, 1, 0, name));
    EcRunOk(sk, bob, alice, steps + [Receive(Bob, 1, 0, name)]);
    assert Resolvable(w0.b, w0.keys, w0.lens, 1, 0);
    ResolvesTo(w0, Bob, 1, 0, name);
    ReceivedFiles(w0, Bob, 1, 0, name);
    FirstReceived(w0, name);
    RepeatLosesNext(w, Bob, 1, 0, again, ops, hdr, name');
  }

  lemma RunSnoc(sk: Term, bob: Dh, alice: Dh, steps: seq<EcStep>, step: EcStep)
    ensures EcRun(sk, bob, alice, steps + [step]) == EcApply(EcRun(sk, bob, alice, steps), step)
  {
    hide EcApply;
    assert (steps + [step])[..|steps + [step]| - 1] == steps;
  }

  lemma FirstReceived(w: EcWorld, name: Dh)
    requires WorldOk(w) && |w.keys| == 2 && w.lens == [0, 2] && w.b == Side(InitBob(w.sk, w.keys[0]), 0, 0, map[], map[])
    requires name !in w.keys && w.b.ec.Resolve(EcPairing.HeaderOf(w.keys, w.lens, 1, 0), name).1 == Ok(KeyOf(w, 1, 0))
    ensures var w' := EcApply(w, Receive(Bob, 1, 0, name));
      w'.b.s == 2 && w'.b.r == 1 && w'.keys == w.keys + [name] && w'.lens == [0, 2, 0]
  {
    hide WorldOk, KeyOf, Ec.Resolve, Ec.DhStep, Received, SkipSide, TakeSide;
    StepHasChain(w.b.ec, w.keys[1], name);
    FirstOnward(StepSide(w.b, w.keys[1], name));
    ReceivedNew(w.b, w.keys, w.lens, name);
  }

  lemma StepHasChain(ec: Ec, dh: Dh, name: Dh)
    ensures ec.DhStep(dh, name).recv.Some? && ec.DhStep(dh, name).skipped == ec.skipped
  {
  }

  lemma ReceivedNew(side: Side, keys: seq<Dh>, lens: seq<nat>, name: Dh)
    requires side.s == 0 && side.ec.skipped == map[] && |keys| == |lens| == 2
    ensures Received(side, keys, lens, 1, 0, name) == Onward(StepSide(side, keys[1], name), 0)
  {
    hide Onward, StepSide;
  }

  lemma FirstOnward(side: Side)
    requires side.s == 2 && side.r == 0 && side.ec.recv.Some? && side.ec.skipped == map[]
    ensures Onward(side, 0).s == 2 && Onward(side, 0).r == 1
  {
    AdvancedMoves(side.ec, 0);
    hide RoomFor, Range, SkipLoop;
  }
}
