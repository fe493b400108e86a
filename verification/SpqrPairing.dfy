/**
 Two SPQR parties on an asynchronous network that loses, repeats and reorders messages:
 the receiver derives the sender's message key for any interleaving of epochs, or refuses
 for a stated reason.
 */
module SpqrPairing {
  import opened Common
  import opened Symbolic
  import opened Erasure
  import opened BraidMachine
  import opened Spqr
  import opened SpqrRuns
  import N = BraidNetwork

  /** What a send puts on the wire, together with the key it was made with. */
  datatype Sealed = Sealed(from: Party, msg: Message, n: nat, key: PqKey)

  /** `net` is the braid view of the same run: states, packets and emitted secrets. */
  datatype Duo = Duo(net: N.World, a: Trail, b: Trail, wire: set<Sealed>) {
    function At(p: Party): Trail { if p == Alice then a else b }

    predicate Live() { net.Live() && a.m.Valid() && b.m.Valid() }

    function Put(p: Party, t: Trail, w: N.World): Duo
    {
      if p == Alice then this.(net := w, a := t) else this.(net := w, b := t)
    }
  }

  datatype Move = Send(sender: Party, coins: Term) | Deliver(sealed: Sealed)

  function DirOf(p: Party): Direction { if p == Alice then A2B else B2A }

  function Init(sk: Term): Duo
  {
    Duo(N.Init(sk), Trail(Initial(sk, A2B), map[], 0), Trail(Initial(sk, B2A), map[], 0), {})
  }

  function Apply(d: Duo, move: Move): (d': Duo)
    requires d.Live()
    ensures d'.Live()
  {
    match move
    case Send(p, coins) =>
      var (_, msg, n, key) := d.At(p).m.Send(coins);
      d.Put(p, Step(d.At(p), SendOp(coins)), N.Apply(d.net, N.Send(p, coins))).(wire := d.wire + {Sealed(p, msg, n, key)})
    case Deliver(s) =>
      if s !in d.wire then d
      else
        var q := s.from.Peer();
        d.Put(q, Step(d.At(q), ReceiveOp(s.msg, s.n)), N.Apply(d.net, N.Deliver(N.Packet(s.from, s.msg))))
  }

  function Play(sk: Term, moves: seq<Move>): (d: Duo)
    ensures d.Live()
  {
    if moves == [] then Init(sk) else Apply(Play(sk, moves[..|moves| - 1]), moves[|moves| - 1])
  }

  // ---- invariant ----------------------------------------------------------------------------

  ghost predicate Linked(t: Trail, sk: Term, dir: Direction, braid: State, emitted: seq<Term>)
  {
    Inv(t) && t.m.sk == sk && t.m.dir == dir && t.m.braid == braid && t.m.secrets == emitted
  }

  /** The epoch a sealed message was sent in. */
  function EpochOf(s: Sealed): nat { ReceivingEpoch(s.msg) }

  /** The sealed key is the schedule's, as its sender `t` sees it. */
  predicate SealedOk(s: Sealed, sk: Term, t: Trail)
    requires t.m.Valid()
  {
    && s.n >= 1 && 1 <= s.msg.epoch <= t.m.braid.ep && EpochOf(s) <= |t.m.secrets|
    && s.key == Key(sk, t.m.secrets, EpochOf(s), DirOf(s.from), s.n)
  }

  function LastNumber(t: Trail): nat
  {
    if t.last in t.m.windows && t.m.windows[t.last].send.Some? then t.m.windows[t.last].send.value else 0
  }

  /** Sent no later than the sender's last position, and the only one with its number. */
  ghost predicate Ordered(d: Duo, s: Sealed)
  {
    && !Before(d.At(s.from).last, LastNumber(d.At(s.from)), EpochOf(s), s.n)
    && (forall u :: u in d.wire && u.from == s.from && EpochOf(u) == EpochOf(s) && u.n == s.n ==> u == s)
  }

  ghost predicate Sent(wire: set<Sealed>, from: Party, e: nat, n: nat)
  {
    exists s :: s in wire && s.from == from && EpochOf(s) == e && s.n == n
  }

  ghost predicate WireOk(d: Duo, sk: Term, s: Sealed)
    requires d.Live()
  {
    && N.Packet(s.from, s.msg) in d.net.net
    && SealedOk(s, sk, d.At(s.from))
    && Ordered(d, s)
  }

  ghost predicate AcceptedSent(d: Duo, p: Party)
  {
    forall e, n :: n in Got(d.At(p).accepted, e) ==> Sent(d.wire, p.Peer(), e, n)
  }

  ghost predicate DuoInv(d: Duo, sk: Term)
  {
    && N.Inv(d.net) && d.Live()
    && Linked(d.a, sk, A2B, d.net.a, d.net.emittedA) && Linked(d.b, sk, B2A, d.net.b, d.net.emittedB)
    && (forall s :: s in d.wire ==> WireOk(d, sk, s))
    && AcceptedSent(d, Alice) && AcceptedSent(d, Bob)
  }

  // ---- what the braid network gives -----------------------------------------------------------

  /** Epochs are close enough that a receiver always knows the epoch its peer sends in. */
  lemma NetFacts(w: N.World)
    requires N.Inv(w)
    ensures w.emittedA <= w.emittedB || w.emittedB <= w.emittedA
    ensures w.a.ep - 1 <= |w.emittedB| && w.b.ep - 1 <= |w.emittedA|
  {
    hide N.LocalOk, N.PacketOk, N.Secrets;
    N.PrefixSecrets(w.h, w.a.Done(), w.b.Done());
    N.PrefixSecrets(w.h, w.b.Done(), w.a.Done());
  }

  lemma PacketReceived(w: N.World, pk: N.Packet)
    requires N.Inv(w) && pk in w.net
    ensures w.At(pk.from.Peer()).Receive(pk.msg).Ok?
  {
    N.DeliverInv(w, pk);
    hide N.Inv, State.Receive;
  }

  // ---- steps --------------------------------------------------------------------------------

  lemma LinkSend(t: Trail, sk: Term, dir: Direction, braid: State, emitted: seq<Term>, coins: Term)
    requires Linked(t, sk, dir, braid, emitted)
    ensures t.m.Valid() && braid.WellFormed() && braid.Send(coins).Ok?
    ensures var out := braid.Send(coins).value;
      var t' := Step(t, SendOp(coins));
      && Linked(t', sk, dir, out.next, Logged(emitted, out.secret)) && t'.accepted == t.accepted
      && t.m.Send(coins).1 == out.msg
  {
    hide State.Send, Model.Send;
    assert t.m.Valid();
    hide Model.Valid;
    StepInv(t, SendOp(coins));
    SendLogs(t, coins);
    SendStep(braid, coins);
    hide Inv;
  }

  lemma LinkReceive(t: Trail, sk: Term, dir: Direction, braid: State, emitted: seq<Term>, msg: Message, n: nat)
    requires Linked(t, sk, dir, braid, emitted) && braid.WellFormed() && braid.Receive(msg).Ok?
    ensures t.m.Valid()
    ensures var out := braid.Receive(msg).value;
      Linked(Step(t, ReceiveOp(msg, n)), sk, dir, out.next, Logged(emitted, out.secret))
  {
    hide State.Receive, Model.Receive;
    assert t.m.Valid();
    hide Model.Valid;
    StepInv(t, ReceiveOp(msg, n));
    ReceiveLogs(t, msg, n);
    hide Inv;
  }

  /** One party's epoch and secrets only grow. */
  predicate Later(t: Trail, t': Trail)
    requires t.m.Valid() && t'.m.Valid()
  {
    t.m.braid.ep <= t'.m.braid.ep && t.m.secrets <= t'.m.secrets
  }

  lemma SealedStable(s: Sealed, sk: Term, t: Trail, t': Trail)
    requires t.m.Valid() && t'.m.Valid() && SealedOk(s, sk, t) && Later(t, t')
    ensures SealedOk(s, sk, t')
  {
    hide EpochOkm, MessageKey, Model.Valid;
    EpochOkmStable(sk, t.m.secrets, t'.m.secrets, EpochOf(s));
  }

  lemma LastAt(t: Trail)
    requires Inv(t)
    ensures SpqrRuns.At(t, t.last, LastNumber(t))
  {
    hide Conservation, State.WellFormed;
  }

  lemma WireAfterReceive(d: Duo, d': Duo, sk: Term)
    requires d.Live() && d'.Live() && (forall s :: s in d.wire ==> WireOk(d, sk, s))
    requires Later(d.a, d'.a) && Later(d.b, d'.b) && d.net.net == d'.net.net && d'.wire == d.wire
    requires d'.a.last == d.a.last && LastNumber(d'.a) == LastNumber(d.a)
    requires d'.b.last == d.b.last && LastNumber(d'.b) == LastNumber(d.b)
    ensures forall s :: s in d'.wire ==> WireOk(d', sk, s)
  {
    hide SealedOk, LastNumber, Later, Before, EpochOf, Model.Valid;
    forall s | s in d'.wire ensures WireOk(d', sk, s) {
      assert WireOk(d, sk, s);
      SealedStable(s, sk, d.At(s.from), d'.At(s.from));
    }
  }

  lemma WireAfterSend(d: Duo, d': Duo, sk: Term, added: Sealed)
    requires d.Live() && d'.Live() && (forall s :: s in d.wire ==> WireOk(d, sk, s))
    requires Later(d.a, d'.a) && Later(d.b, d'.b) && d.net.net <= d'.net.net && d'.wire == d.wire + {added}
    requires d'.At(added.from.Peer()) == d.At(added.from.Peer())
    requires Before(d.At(added.from).last, LastNumber(d.At(added.from)), EpochOf(added), added.n)
    requires d'.At(added.from).last == EpochOf(added) && LastNumber(d'.At(added.from)) == added.n
    requires N.Packet(added.from, added.msg) in d'.net.net
    requires SealedOk(added, sk, d'.At(added.from))
    ensures forall s :: s in d'.wire ==> WireOk(d', sk, s)
  {
    hide SealedOk, LastNumber, Later, EpochOf, Model.Valid;
    forall s | s in d'.wire ensures WireOk(d', sk, s) {
      forall u | u in d.wire ensures Ordered(d, u) { assert WireOk(d, sk, u); }
      if s in d.wire {
        assert WireOk(d, sk, s);
          SealedStable(s, sk, d.At(s.from), d'.At(s.from));
      }
    }
  }

  lemma StepLater(t: Trail, op: Op)
    requires t.m.Valid()
    ensures Later(t, Step(t, op))
  {
    hide State.Send, State.Receive, Model.Send, Model.Take, DecoderState.Sized;
    match op
    case SendOp(coins) => SendLogs(t, coins); SendStep(t.m.braid, coins);
    case ReceiveOp(msg, n) =>
      if t.m.braid.Receive(msg).Ok? { ReceiveLogs(t, msg, n); ReceiveStep(t.m.braid, msg); }
  }

  /** What one send adds to the wire. */
  lemma SendSeals(t: Trail, sk: Term, p: Party, coins: Term)
    requires Inv(t) && t.m.sk == sk && t.m.dir == DirOf(p)
    ensures var (_, msg, n, key) := t.m.Send(coins);
      var (t', s) := (Step(t, SendOp(coins)), Sealed(p, msg, n, key));
      && SealedOk(s, sk, t') && t'.last == EpochOf(s) && LastNumber(t') == n
      && Before(t.last, LastNumber(t), EpochOf(s), n)
  {
    hide State.Send, Model.Send, Conservation, Retention, Disposal, Key, DecoderState.Sized, Model.Takable;
    LastAt(t);
    SendAdvances(t, coins, t.last, LastNumber(t));
    SendNumber(t.m, coins);
    SendLogs(t, coins);
    SendStep(t.m.braid, coins);
  }

  lemma AcceptedStill(d: Duo, d': Duo, p: Party)
    requires AcceptedSent(d, p) && d.wire <= d'.wire && d'.At(p).accepted == d.At(p).accepted
    ensures AcceptedSent(d', p)
  {
    forall e, n | n in Got(d'.At(p).accepted, e) ensures Sent(d'.wire, p.Peer(), e, n) {
      assert Sent(d.wire, p.Peer(), e, n);
    }
  }

  lemma DuoSend(d: Duo, sk: Term, p: Party, coins: Term)
    requires DuoInv(d, sk)
    ensures DuoInv(Apply(d, Send(p, coins)), sk)
  {
    hide Step, N.Inv, State.Send, State.WellFormed, Model.Send, Model.Valid, WireOk, AcceptedSent, Inv, Key;
    var d' := Apply(d, Send(p, coins));
    var t := d.At(p);
    N.SendInv(d.net, p, coins);
    LinkSend(t, sk, DirOf(p), d.net.At(p), d.net.Emitted(p), coins);
    SendSeals(t, sk, p, coins);
    StepLater(t, SendOp(coins));
    AcceptedStill(d, d', Alice);
    AcceptedStill(d, d', Bob);
    var (_, msg, n, key) := t.m.Send(coins);
    WireAfterSend(d, d', sk, Sealed(p, msg, n, key));
  }

  lemma ReceiveKeepsLast(t: Trail, msg: Message, n: nat)
    requires Inv(t)
    ensures var t' := Step(t, ReceiveOp(msg, n)); t'.last == t.last && LastNumber(t') == LastNumber(t)
  {
    LastAt(t);
    ReceiveKeeps(t, msg, n, t.last, LastNumber(t));
    hide Inv, Step;
  }

  lemma AcceptedAdds(t: Trail, msg: Message, n: nat)
    requires t.m.Valid()
    ensures var acc := Step(t, ReceiveOp(msg, n)).accepted;
      forall e, k :: k in Got(acc, e) ==> k in Got(t.accepted, e) || (e == ReceivingEpoch(msg) && k == n)
  {
    hide State.Receive, Model.Receive;
  }

  lemma AcceptedGrows(d: Duo, d': Duo, p: Party, s: Sealed)
    requires AcceptedSent(d, p) && d'.wire == d.wire && s in d.wire && s.from == p.Peer()
    requires forall e, k :: k in Got(d'.At(p).accepted, e) ==> k in Got(d.At(p).accepted, e) || (e == EpochOf(s) && k == s.n)
    ensures AcceptedSent(d', p)
  {
    forall e, n | n in Got(d'.At(p).accepted, e) ensures Sent(d'.wire, p.Peer(), e, n) {
      if n in Got(d.At(p).accepted, e) { assert Sent(d.wire, p.Peer(), e, n); }
    }
  }

  lemma DuoDeliver(d: Duo, sk: Term, s: Sealed)
    requires DuoInv(d, sk) && s in d.wire
    ensures DuoInv(Apply(d, Deliver(s)), sk)
  {
    hide Step, N.Inv, State.Receive, State.WellFormed, Model.Receive, Model.Valid, AcceptedSent, Inv, SealedOk,
         Ordered, Got, LastNumber;
    var d' := Apply(d, Deliver(s));
    var q := s.from.Peer();
    var t := d.At(q);
    assert WireOk(d, sk, s);
    var pk := N.Packet(s.from, s.msg);
    PacketReceived(d.net, pk);
    N.DeliverInv(d.net, pk);
    LinkReceive(t, sk, DirOf(q), d.net.At(q), d.net.Emitted(q), s.msg, s.n);
    ReceiveKeepsLast(t, s.msg, s.n);
    StepLater(t, ReceiveOp(s.msg, s.n));
    AcceptedAdds(t, s.msg, s.n);
    AcceptedGrows(d, d', q, s);
    AcceptedStill(d, d', s.from);
    WireAfterReceive(d, d', sk);
  }

  lemma {:induction false} PlayInv(sk: Term, moves: seq<Move>)
    ensures DuoInv(Play(sk, moves), sk)
  {
    if moves == [] {
      InitDuo(sk);
    } else {
      hide DuoInv, Apply;
      var d := Play(sk, moves[..|moves| - 1]);
      PlayInv(sk, moves[..|moves| - 1]);
      match moves[|moves| - 1]
      case Send(p, coins) => DuoSend(d, sk, p, coins);
      case Deliver(s) => if s in d.wire { DuoDeliver(d, sk, s); } else { IgnoredDeliver(d, s); }
    }
  }

  lemma IgnoredDeliver(d: Duo, s: Sealed)
    requires d.Live() && s !in d.wire
    ensures Apply(d, Deliver(s)) == d
  {
  }

  lemma InitDuo(sk: Term)
    ensures DuoInv(Init(sk), sk)
  {
    N.InitInv(sk);
    RunInv(sk, A2B, []);
    RunInv(sk, B2A, []);
    hide N.Inv;
  }

  lemma SameKey(sk: Term, xs: seq<Term>, ys: seq<Term>, e: nat, dir: Direction, n: nat)
    requires (xs <= ys || ys <= xs) && e <= |xs| && e <= |ys| && n >= 1
    ensures Key(sk, xs, e, dir, n) == Key(sk, ys, e, dir, n)
  {
    if xs <= ys { EpochOkmStable(sk, xs, ys, e); } else { EpochOkmStable(sk, ys, xs, e); }
  }

  /** The receiver knows the epoch of a sealed message and schedules the same key for it. */
  lemma SealedKnown(d: Duo, sk: Term, s: Sealed)
    requires DuoInv(d, sk) && s in d.wire
    ensures var t := d.At(s.from.Peer());
      EpochOf(s) <= |t.m.secrets| && s.n >= 1 && s.key == Key(sk, t.m.secrets, EpochOf(s), DirOf(s.from), s.n)
  {
    hide N.Inv, Inv, State.WellFormed, Key, Ordered, AcceptedSent;
    NetFacts(d.net);
    assert WireOk(d, sk, s);
    SameKey(sk, d.At(s.from).m.secrets, d.At(s.from.Peer()).m.secrets, EpochOf(s), DirOf(s.from), s.n);
  }

  lemma DeliverSecrets(d: Duo, s: Sealed)
    requires d.Live() && s in d.wire && d.At(s.from.Peer()).m.braid.Receive(s.msg).Ok?
    ensures var (d', t) := (Apply(d, Deliver(s)), d.At(s.from.Peer()));
      d'.wire == d.wire && d'.At(s.from.Peer()).m.secrets == Braided(t.m, s.msg).secrets
  {
    hide State.Receive, Model.Valid, N.Apply, Step;
    ReceiveLogs(d.At(s.from.Peer()), s.msg, s.n);
  }

  lemma VerdictInDuo(d: Duo, sk: Term, s: Sealed, h: nat)
    requires DuoInv(d, sk) && s in d.wire
    requires Highest(Got(d.At(s.from.Peer()).accepted, EpochOf(s)), h)
    ensures d.At(s.from.Peer()).m.braid.Receive(s.msg).Ok?
    ensures var t := d.At(s.from.Peer());
      var (e, total) := (EpochOf(s), |Braided(t.m, s.msg).secrets|);
      && e <= total && s.n >= 1
      && t.m.Receive(s.msg, s.n).1 == Outcome(t, e, total, h, s)
  {
    hide N.Inv, Inv, Model.Valid, State.WellFormed, Key, Ordered, AcceptedSent, SealedOk, Model.Receive,
         Model.Take, Braided, State.Receive, Apply, Got, Highest, Pruned;
    var t := d.At(s.from.Peer());
    assert WireOk(d, sk, s);
    PacketReceived(d.net, N.Packet(s.from, s.msg));
    DuoDeliver(d, sk, s);
    DeliverSecrets(d, s);
    SealedKnown(Apply(d, Deliver(s)), sk, s);
    ReceiveValid(t.m, s.msg, s.n);
    BraidedInv(t, s.msg);
    BraidedFixed(t.m, s.msg);
    TakeExactly(t.(m := Braided(t.m, s.msg)), ReceivingEpoch(s.msg), s.n, h);
  }

  // ---- main results -------------------------------------------------------------------------

  /** What a receiver that has completed `total` epochs must answer to a sealed message of epoch e. */
  function Outcome(t: Trail, e: nat, total: nat, h: nat, s: Sealed): Result<PqKey>
  {
    if Pruned(t.m.dir, e, total) then Err(NoRecvChain)
    else if s.n in Got(t.accepted, e) then Err(Replay)
    else if s.n > h + MAX_SKIP + 1 then Err(MaxSkipExceeded(s.n - 1 - h, MAX_SKIP))
    else Ok(s.key)
  }

  /**
   Any message ever sent, delivered at any later time, yields the key it was sealed with,
   unless the receiver has meanwhile dropped its epoch, has returned that key before, or
   would have to skip too far. Dropping needs three further completed epochs.
   */
  lemma DeliveryVerdict(sk: Term, moves: seq<Move>, s: Sealed, h: nat)
    requires s in Play(sk, moves).wire
    requires Highest(Got(Play(sk, moves).At(s.from.Peer()).accepted, EpochOf(s)), h)
    ensures Play(sk, moves).At(s.from.Peer()).m.braid.Receive(s.msg).Ok?
    ensures var t := Play(sk, moves).At(s.from.Peer());
      var total := |Braided(t.m, s.msg).secrets|;
      && EpochOf(s) <= total
      && t.m.Receive(s.msg, s.n).1 == Outcome(t, EpochOf(s), total, h, s)
      && (total < EpochOf(s) + 3 ==> !Pruned(t.m.dir, EpochOf(s), total))
  {
    hide Play, DuoInv, Outcome, Braided, Model.Receive, State.Receive, Got, Highest;
    PlayInv(sk, moves);
    VerdictInDuo(Play(sk, moves), sk, s, h);
  }

  /**
   Every accepted number belongs to exactly one message the peer sent, and it is not
   accepted a second time: each message is delivered at most once.
   */
  lemma AcceptedOnceAndSent(sk: Term, moves: seq<Move>, p: Party, e: nat, n: nat)
    requires n in Got(Play(sk, moves).At(p).accepted, e)
    ensures var d := Play(sk, moves);
      exists s :: s in d.wire && s.from == p.Peer() && EpochOf(s) == e && s.n == n
        && (forall u :: u in d.wire && u.from == s.from && EpochOf(u) == e && u.n == n ==> u == s)
        && d.At(p).m.Receive(s.msg, s.n).1.Err?
  {
    hide Play, N.Inv, Inv, Model.Valid, Model.Receive, State.Receive, State.WellFormed, Braided, Got, SealedOk, Pruned, Highest;
    var d := Play(sk, moves);
    PlayInv(sk, moves);
    assert AcceptedSent(d, p) && Sent(d.wire, p.Peer(), e, n);
    var s :| s in d.wire && s.from == p.Peer() && EpochOf(s) == e && s.n == n;
    assert WireOk(d, sk, s);
    var h := HighestOf(Got(d.At(p).accepted, e));
    VerdictInDuo(d, sk, s, h);
  }

  lemma SameKeySameMessage(d: Duo, sk: Term, s: Sealed, u: Sealed)
    requires DuoInv(d, sk) && s in d.wire && u in d.wire && s.key == u.key
    ensures s == u
  {
    hide N.Inv, Linked, Model.Valid, Key, EpochOf, AcceptedSent;
    assert WireOk(d, sk, s) && WireOk(d, sk, u);
    KeyBinds(sk, d.At(s.from).m.secrets, EpochOf(s), DirOf(s.from), s.n, sk, d.At(u.from).m.secrets, EpochOf(u), DirOf(u.from), u.n);
  }

  /** No two messages of a session, in whatever direction, are sealed with the same key. */
  lemma KeysUnique(sk: Term, moves: seq<Move>, s: Sealed, u: Sealed)
    requires s in Play(sk, moves).wire && u in Play(sk, moves).wire && s.key == u.key
    ensures s == u
  {
    hide Play, DuoInv;
    PlayInv(sk, moves);
    SameKeySameMessage(Play(sk, moves), sk, s, u);
  }

  // ---- for the session layer --------------------------------------------------------------------

  /** A message just sealed is new on the wire and to the peer. */
  lemma SealedNew(d: Duo, sk: Term, p: Party, coins: Term)
    requires DuoInv(d, sk)
    ensures var (_, msg, n, key) := d.At(p).m.Send(coins);
      var s := Sealed(p, msg, n, key);
      s !in d.wire && s.n !in Got(d.At(p.Peer()).accepted, EpochOf(s))
  {
    hide N.Inv, Inv, Model.Valid, Model.Send, SealedOk, Got, State.WellFormed;
    SendSeals(d.At(p), sk, p, coins);
    var (_, msg, n, key) := d.At(p).m.Send(coins);
    var s := Sealed(p, msg, n, key);
    forall u | u in d.wire && u.from == p ensures EpochOf(u) != EpochOf(s) || u.n != s.n {
      assert WireOk(d, sk, u);
    }
    assert AcceptedSent(d, p.Peer()) && !Sent(d.wire, p, EpochOf(s), s.n);
  }

  /** A party never receives under the key of a message of its own. */
  lemma NeverOwnKey(d: Duo, sk: Term, s: Sealed, msg: Message, n: nat)
    requires DuoInv(d, sk) && s in d.wire
    ensures d.At(s.from).m.Receive(msg, n).1 != Ok(s.key)
  {
    hide N.Inv, Model.Receive, Model.Valid, Key, Ordered, State.WellFormed, State.Receive, Braided, Conservation, Disposal, Retention;
    assert WireOk(d, sk, s);
    var m := d.At(s.from).m;
    if m.Receive(msg, n).1 == Ok(s.key) {
      ReceivesPeersKey(m, msg, n);
      KeyBinds(m.sk, Braided(m, msg).secrets, ReceivingEpoch(msg), m.dir.Opposite(), n, sk, m.secrets, EpochOf(s), DirOf(s.from), s.n);
    }
  }

  lemma SealedUnique(d: Duo, sk: Term, s: Sealed, u: Sealed)
    requires DuoInv(d, sk) && s in d.wire && u in d.wire && s.from == u.from && EpochOf(s) == EpochOf(u) && s.n == u.n
    ensures s == u
  {
    hide N.Inv, Inv, Model.Valid, SealedOk, Got;
    assert WireOk(d, sk, s);
  }

  lemma SendEffect(d: Duo, p: Party, coins: Term)
    requires d.Live()
    ensures var d' := Apply(d, Send(p, coins));
      var (m, msg, n, key) := d.At(p).m.Send(coins);
      && d'.At(p).m == m && d'.At(p.Peer()) == d.At(p.Peer()) && d'.At(p).accepted == d.At(p).accepted
      && d'.wire == d.wire + {Sealed(p, msg, n, key)}
  {
    hide Model.Send, Model.Valid, N.Apply;
  }

  lemma DeliverEffect(d: Duo, s: Sealed)
    requires d.Live() && s in d.wire && d.At(s.from.Peer()).m.Receive(s.msg, s.n).1.Ok?
    ensures var (d', q) := (Apply(d, Deliver(s)), s.from.Peer());
      && d'.At(q).m == d.At(q).m.Receive(s.msg, s.n).0 && d'.At(s.from) == d.At(s.from) && d'.wire == d.wire
      && d'.At(q).accepted == Add(d.At(q).accepted, EpochOf(s), s.n)
  {
    hide Model.Receive, Model.Valid, N.Apply;
  }
}
