/**
 The comment on `clear_old_epochs` and the session-size note promise that a party holds only
 a few epochs at a time. They do not: two parties that simply answer each other hold more
 epochs than any given bound in the end. `SpqrRuns.HeldBoundedIff` says when a bound is kept.
 The note also bounds the skipped-key store per chain; a lossy run exceeds that bound too.
 */
module SpqrRetention {
  import opened Common
  import opened Symbolic
  import opened BraidMachine
  import opened Spqr
  import opened SpqrRuns
  import opened SpqrPairing
  import N = BraidNetwork
  import P = BraidProgress

  /** What a send by p would put on the wire. */
  function NextSealed(d: Duo, p: Party, coins: Term): Sealed
    requires d.Live()
  {
    var (_, msg, n, key) := d.At(p).m.Send(coins);
    Sealed(p, msg, n, key)
  }

  /** One message sent and delivered at once is, for the braids, half an exchange. */
  lemma TalkIsHalf(d: Duo, sk: Term, p: Party, coins: Term)
    requires DuoInv(d, sk)
    ensures var d1 := Apply(d, Send(p, coins));
      var d2 := Apply(d1, Deliver(NextSealed(d, p, coins)));
      DuoInv(d2, sk) && d2.net == P.Half(d.net, p, coins)
  {
    hide N.Inv, Inv, Step, Model.Valid, Model.Send, State.Send, State.Receive, State.WellFormed, N.Apply, WireOk,
         AcceptedSent;
    var d1 := Apply(d, Send(p, coins));
    LinkSend(d.At(p), sk, DirOf(p), d.net.At(p), d.net.Emitted(p), coins);
    DuoSend(d, sk, p, coins);
    SendEffect(d, p, coins);
    DuoDeliver(d1, sk, NextSealed(d, p, coins));
  }

  /** n messages, the initiator's first and the parties in turn, each delivered before the next is sent. */
  function Talk(sk: Term, n: nat, coins: nat -> Term): seq<Move>
  {
    if n == 0 then []
    else
      var (before, p) := (Talk(sk, n - 1, coins), if n % 2 == 1 then Alice else Bob);
      before + [Send(p, coins(n)), Deliver(NextSealed(Play(sk, before), p, coins(n)))]
  }

  lemma PlayTwo(sk: Term, moves: seq<Move>, x: Move, y: Move)
    ensures Play(sk, moves + [x, y]) == Apply(Apply(Play(sk, moves), x), y)
  {
    hide Apply;
    var all := moves + [x, y];
    assert all[..|all| - 1] == moves + [x] && (moves + [x])[..|moves + [x]| - 1] == moves;
  }

  lemma TalkHalf(sk: Term, n: nat, coins: nat -> Term)
    requires n > 0
    ensures Play(sk, Talk(sk, n, coins)).net ==
      P.Half(Play(sk, Talk(sk, n - 1, coins)).net, if n % 2 == 1 then Alice else Bob, coins(n))
  {
    hide Apply, Play, DuoInv, P.Half;
    var (before, p) := (Talk(sk, n - 1, coins), if n % 2 == 1 then Alice else Bob);
    var d := Play(sk, before);
    PlayInv(sk, before);
    TalkIsHalf(d, sk, p, coins(n));
    PlayTwo(sk, before, Send(p, coins(n)), Deliver(NextSealed(d, p, coins(n))));
  }

  /** The braids after n exchanges. */
  function Braids(sk: Term, n: nat, coins: nat -> Term): (w: N.World)
    ensures w.Live()
  {
    Play(sk, Talk(sk, 2 * n, coins)).net
  }

  lemma TalkInv(sk: Term, n: nat, coins: nat -> Term)
    ensures N.Inv(Play(sk, Talk(sk, n, coins)).net)
  {
    hide Talk, Play, N.Inv, Linked, WireOk, AcceptedSent;
    PlayInv(sk, Talk(sk, n, coins));
  }

  lemma BraidsNext(sk: Term, n: nat, coins: nat -> Term)
    ensures N.Inv(Braids(sk, n, coins))
    ensures Braids(sk, n + 1, coins) == P.Exchange(Braids(sk, n, coins), Alice, coins(2 * n + 1), coins(2 * n + 2))
  {
    hide Talk, Play, N.Inv, P.Half, N.World.Live, State.WellFormed, Model.Valid;
    TalkInv(sk, 2 * n, coins);
    TalkHalf(sk, 2 * n + 1, coins);
    TalkHalf(sk, 2 * n + 2, coins);
  }

  lemma {:induction false} BraidsAdvance(sk: Term, n: nat, more: nat, coins: nat -> Term)
    ensures var (w, w') := (Braids(sk, n, coins), Braids(sk, n + more, coins));
      N.Inv(w) && P.MinEpoch(w') >= P.MinEpoch(w) && (P.Measure(w) <= more ==> P.MinEpoch(w') > P.MinEpoch(w))
    decreases more
  {
    hide Braids, P.Exchange, P.MinEpoch, P.LevelMeasure, N.LocalOk, N.PacketOk, N.LogOk, N.Joint, State.WellFormed;
    var w := Braids(sk, n, coins);
    BraidsNext(sk, n, coins);
    if more > 0 {
      P.ExchangeDrops(w, Alice, coins(2 * n + 1), coins(2 * n + 2));
      BraidsAdvance(sk, n + 1, more - 1, coins);
    }
  }

  lemma MeasureBounded(w: N.World)
    requires N.Inv(w)
    ensures P.Measure(w) <= P.EPOCH_EXCHANGES
  {
    hide N.LocalOk, N.PacketOk, N.LogOk, State.WellFormed, P.LevelMeasure;
  }

  /** Every further 75 exchanges complete an epoch. */
  lemma {:induction false} BraidsReach(sk: Term, k: nat, n: nat, coins: nat -> Term)
    requires n >= P.EPOCH_EXCHANGES * k
    ensures P.MinEpoch(Braids(sk, n, coins)) > k
    decreases k
  {
    hide N.Inv, P.Measure, Talk, P.MinEpoch, Braids;
    if k == 0 {
      EpochPositive(Braids(sk, n, coins));
    } else {
      var before: nat := n - P.EPOCH_EXCHANGES;
      BraidsReach(sk, k - 1, before, coins);
      BraidsAdvance(sk, before, P.EPOCH_EXCHANGES, coins);
      MeasureBounded(Braids(sk, before, coins));
    }
  }

  lemma EpochPositive(w: N.World)
    requires w.Live()
    ensures P.MinEpoch(w) > 0
  {
  }

  lemma HeldMany(d: Duo, sk: Term, p: Party, k: nat)
    requires DuoInv(d, sk) && P.MinEpoch(d.net) > 2 * k
    ensures |d.At(p).m.windows| > k
  {
    hide N.Inv, WireOk, AcceptedSent, State.WellFormed, Conservation, Disposal, Retention, Held;
    var m := d.At(p).m;
    assert |m.secrets| >= 2 * k;
    WindowsHeld(m.windows, m.dir, |m.secrets|);
    HeldCount(m.dir, |m.secrets|);
  }

  /**
   Whatever randomness is drawn: after 300 k messages of a lossless conversation in turns, and
   ever after, both parties hold more than k epochs.
   */
  lemma HeldUnbounded(sk: Term, p: Party, k: nat, n: nat, coins: nat -> Term)
    requires n >= 4 * P.EPOCH_EXCHANGES * k
    ensures P.EPOCH_EXCHANGES == 75 && |Play(sk, Talk(sk, n, coins)).At(p).m.windows| > k
  {
    hide Play, DuoInv, P.MinEpoch, Talk;
    var moves := Talk(sk, n, coins);
    PlayInv(sk, moves);
    TalkReaches(sk, 2 * k, n, coins);
    HeldMany(Play(sk, moves), sk, p, k);
  }

  lemma TalkReaches(sk: Term, k: nat, n: nat, coins: nat -> Term)
    requires n >= 2 * P.EPOCH_EXCHANGES * k
    ensures P.MinEpoch(Play(sk, Talk(sk, n, coins)).net) > k
  {
    hide Play, Talk, P.MinEpoch, P.Half, N.Inv;
    BraidsReach(sk, k, n / 2, coins);
    if n % 2 == 1 {
      TalkHalf(sk, n, coins);
      TalkInv(sk, n - 1, coins);
      HalfKeepsEpoch(Play(sk, Talk(sk, n - 1, coins)).net, Alice, coins(n));
    }
  }

  lemma HalfKeepsEpoch(w: N.World, p: Party, coins: Term)
    requires N.Inv(w)
    ensures P.MinEpoch(P.Half(w, p, coins)) >= P.MinEpoch(w)
  {
    hide P.Half, P.MinEpoch, P.Measure, N.Inv, N.Joint;
    P.HalfDrops(w, p, coins);
  }

  // ---- the skipped-key store ----------------------------------------------------------------

  /** The initiator sends n messages, and all but every (MAX_SKIP + 1)-th are lost. */
  function Gapped(sk: Term, n: nat, coins: nat -> Term): seq<Move>
  {
    if n == 0 then []
    else
      var before := Gapped(sk, n - 1, coins);
      if n % (MAX_SKIP + 1) != 0 then before + [Send(Alice, coins(n))]
      else before + [Send(Alice, coins(n)), Deliver(NextSealed(Play(sk, before), Alice, coins(n)))]
  }

  /** What both sides look like after n of these messages. */
  ghost predicate Waiting(d: Duo, sk: Term, n: nat)
  {
    && d.Live() && DuoInv(d, sk)
    && d.a.m.braid.ep == 1 && 0 in d.a.m.windows && d.a.m.windows[0].send == Some(n)
    && d.b.m.braid.ep == 1 && (d.b.m.braid.NoHeaderReceived? || d.b.m.braid.HeaderReceived?)
    && |Got(d.b.accepted, 0)| == n / (MAX_SKIP + 1) && Highest(Got(d.b.accepted, 0), n - n % (MAX_SKIP + 1))
  }

  /** The initiator's next send, before any delivery. */
  lemma GappedSend(d: Duo, sk: Term, n: nat, coins: Term)
    requires n > 0 && Waiting(d, sk, n - 1)
    ensures var (d', s) := (Apply(d, Send(Alice, coins)), NextSealed(d, Alice, coins));
      && DuoInv(d', sk) && s in d'.wire && s.from == Alice && EpochOf(s) == 0 && s.n == n && s.msg.epoch == 1
      && d'.a.m.braid.ep == 1 && 0 in d'.a.m.windows && d'.a.m.windows[0].send == Some(n) && d'.b == d.b
  {
    hide N.Inv, Conservation, Retention, Disposal, WireOk, AcceptedSent, Model.Send, State.Send, Apply, Got, Highest,
         State.WellFormed, Model.Takable;
    DuoSend(d, sk, Alice, coins);
    SendEffect(d, Alice, coins);
    SendNumber(d.a.m, coins);
    SendBraid(d.a.m, coins);
    SendStep(d.a.m.braid, coins);
  }

  /** In the first epoch the responder has emitted nothing, before and after any receive. */
  lemma StillFirst(t: Trail, msg: Message)
    requires Inv(t) && t.m.braid.ep == 1 && (t.m.braid.NoHeaderReceived? || t.m.braid.HeaderReceived?)
    requires t.m.braid.Receive(msg).Ok?
    ensures var m := Braided(t.m, msg);
      && |m.secrets| == 0 && m.braid.ep == 1 && (m.braid.NoHeaderReceived? || m.braid.HeaderReceived?)
  {
    hide State.Receive, Conservation, Retention, Disposal, Braided, Model.Takable;
    ReceiveMoves(t.m.braid, msg);
    BraidedShape(t.m, msg);
    BraidedValid(t.m, msg);
  }

  lemma GappedDeliver(d: Duo, sk: Term, s: Sealed, h: nat)
    requires DuoInv(d, sk) && s in d.wire && s.from == Alice && EpochOf(s) == 0 && h < s.n <= h + MAX_SKIP + 1
    requires d.b.m.braid.ep == 1 && (d.b.m.braid.NoHeaderReceived? || d.b.m.braid.HeaderReceived?)
    requires Highest(Got(d.b.accepted, 0), h)
    ensures var d' := Apply(d, Deliver(s));
      && DuoInv(d', sk) && d'.a == d.a && Got(d'.b.accepted, 0) == Got(d.b.accepted, 0) + {s.n}
      && d'.b.m.braid.ep == 1 && (d'.b.m.braid.NoHeaderReceived? || d'.b.m.braid.HeaderReceived?)
  {
    hide N.Inv, Inv, WireOk, AcceptedSent, Model.Receive, Model.Take, State.Receive, Braided, Apply, Got,
         State.WellFormed, Add;
    VerdictInDuo(d, sk, s, h);
    StillFirst(d.b, s.msg);
    DuoDeliver(d, sk, s);
    DeliverEffect(d, s);
    ReceiveValid(d.b.m, s.msg, s.n);
    TakeShape(Braided(d.b.m, s.msg), 0, s.n);
  }

  lemma GapCount(n: nat)
    requires n > 0
    ensures if n % (MAX_SKIP + 1) == 0 then
        n / (MAX_SKIP + 1) == (n - 1) / (MAX_SKIP + 1) + 1 && (n - 1) - (n - 1) % (MAX_SKIP + 1) == n - (MAX_SKIP + 1)
      else n / (MAX_SKIP + 1) == (n - 1) / (MAX_SKIP + 1) && (n - 1) - (n - 1) % (MAX_SKIP + 1) == n - n % (MAX_SKIP + 1)
  {
  }

  lemma GappedStep(d: Duo, sk: Term, n: nat, coins: Term)
    requires n > 0 && Waiting(d, sk, n - 1)
    ensures var d' := Apply(d, Send(Alice, coins));
      Waiting(if n % (MAX_SKIP + 1) == 0 then Apply(d', Deliver(NextSealed(d, Alice, coins))) else d', sk, n)
  {
    hide DuoInv, Apply, NextSealed, Got, EpochOf;
    GapCount(n);
    GappedSend(d, sk, n, coins);
    var got := Got(d.b.accepted, 0);
    if n % (MAX_SKIP + 1) == 0 {
      GappedDeliver(Apply(d, Send(Alice, coins)), sk, NextSealed(d, Alice, coins), n - (MAX_SKIP + 1));
      assert n !in got && |got + {n}| == |got| + 1;
    }
  }

  lemma {:induction false} GappedWaits(sk: Term, n: nat, coins: nat -> Term)
    ensures Waiting(Play(sk, Gapped(sk, n, coins)), sk, n)
  {
    hide Play, Apply, NextSealed, Waiting, Model.Valid;
    if n == 0 {
      NoneSent(sk);
    } else {
      GappedWaits(sk, n - 1, coins);
      var before := Gapped(sk, n - 1, coins);
      var d := Play(sk, before);
      GappedStep(d, sk, n, coins(n));
      PlayOne(sk, before, Send(Alice, coins(n)));
      PlayTwo(sk, before, Send(Alice, coins(n)), Deliver(NextSealed(d, Alice, coins(n))));
    }
  }

  lemma PlayOne(sk: Term, moves: seq<Move>, move: Move)
    ensures Play(sk, moves + [move]) == Apply(Play(sk, moves), move)
  {
    hide Apply;
    assert (moves + [move])[..|moves + [move]| - 1] == moves;
  }

  lemma NoneSent(sk: Term)
    ensures Waiting(Play(sk, []), sk, 0)
  {
    hide DuoInv, N.Init;
    InitDuo(sk);
  }

  /**
   The note that the store is bounded by MAX_SKIP per chain is wrong: in a run where the
   network loses all but every (MAX_SKIP + 1)-th message, the store of the first epoch
   reaches MAX_SKIP for each message delivered.
   */
  lemma StoreUnbounded(sk: Term, k: nat, coins: nat -> Term)
    ensures var t := Play(sk, Gapped(sk, (MAX_SKIP + 1) * k, coins)).b;
      MAX_SKIP == 2000 && 0 in t.m.windows && |Got(t.accepted, 0)| == k && |t.m.windows[0].skipped| == MAX_SKIP * k
  {
    hide Play, Gapped, Waiting, Got;
    GappedWaits(sk, (MAX_SKIP + 1) * k, coins);
    WaitingStore(Play(sk, Gapped(sk, (MAX_SKIP + 1) * k, coins)), sk, k);
  }

  lemma WaitingStore(d: Duo, sk: Term, k: nat)
    requires Waiting(d, sk, (MAX_SKIP + 1) * k)
    ensures 0 in d.b.m.windows && |Got(d.b.accepted, 0)| == k && |d.b.m.windows[0].skipped| == MAX_SKIP * k
  {
    hide N.Inv, WireOk, AcceptedSent, Conserved, Got, State.WellFormed, Disposal, Model.Takable;
    assert d.b.m.Valid() && 0 in d.b.m.windows;
    hide Model.Valid, Inv;
    InvConserved(d.b, 0);
    ConservedCounts(d.b.m.windows[0].recv, d.b.m.windows[0].skipped, Got(d.b.accepted, 0));
  }
}
