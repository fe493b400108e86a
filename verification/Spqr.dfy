/**
 The Sparse Post-Quantum Ratchet (src/protocol/ratchet/spqr.rs).

 `Schedule` gives the key of message n of an epoch as a plain function of the epoch
 secrets. `Model` is the ratchet without key material: per epoch, two counters and a set of
 skipped numbers. The class `SpqrState` keeps chains and key maps in place, as the source
 does, and every method is proved to act like the model while all keys stay on schedule.
 */
module Spqr {
  import opened Common
  import opened Symbolic
  import opened BraidMachine

  datatype Direction = A2B | B2A {
    function Opposite(): Direction { if this == A2B then B2A else A2B }
  }

  /** HKDF outputs of the SPQR KDFs; a key is one 32-byte slot of an output. */
  datatype Okm =
    | Start(sk: Term)                      // KDF_SCKA_INIT
    | NewEpoch(rk: PqKey, secret: Term)    // KDF_SCKA_RK
    | ChainStep(ck: PqKey, ctr: nat)       // KDF_SCKA_CK

  datatype PqKey = Slot(okm: Okm, index: nat)

  // ---- schedule -----------------------------------------------------------------------

  function EpochOkm(sk: Term, secrets: seq<Term>, e: nat): Okm
    requires e <= |secrets|
  {
    if e == 0 then Start(sk) else NewEpoch(Slot(EpochOkm(sk, secrets, e - 1), 0), secrets[e - 1])
  }

  /** Chain key 0 carries A2B traffic, chain key 1 carries B2A traffic. */
  function Seed(sk: Term, secrets: seq<Term>, e: nat, traffic: Direction): PqKey
    requires e <= |secrets|
  {
    Slot(EpochOkm(sk, secrets, e), if traffic == A2B then 1 else 2)
  }

  function ChainKey(seed: PqKey, n: nat): PqKey
  {
    if n == 0 then seed else Slot(ChainStep(ChainKey(seed, n - 1), n), 0)
  }

  function MessageKey(seed: PqKey, n: nat): PqKey
    requires n >= 1
  {
    Slot(ChainStep(ChainKey(seed, n - 1), n), 1)
  }

  /** The key of message n sent in `traffic` direction under epoch e. */
  function Key(sk: Term, secrets: seq<Term>, e: nat, traffic: Direction, n: nat): PqKey
    requires e <= |secrets| && n >= 1
  {
    MessageKey(Seed(sk, secrets, e, traffic), n)
  }

  lemma {:induction false} EpochOkmStable(sk: Term, xs: seq<Term>, ys: seq<Term>, e: nat)
    requires xs <= ys && e <= |xs|
    ensures EpochOkm(sk, ys, e) == EpochOkm(sk, xs, e)
  {
    if e > 0 { EpochOkmStable(sk, xs, ys, e - 1); }
  }

  // ---- no two keys of any schedule are the same -----------------------------------------

  lemma {:induction false} EpochOkmInjective(sk: Term, xs: seq<Term>, i: nat, sk': Term, ys: seq<Term>, j: nat)
    requires i <= |xs| && j <= |ys| && EpochOkm(sk, xs, i) == EpochOkm(sk', ys, j)
    ensures i == j && sk == sk' && xs[..i] == ys[..j]
  {
    if i > 0 && j > 0 {
      EpochOkmInjective(sk, xs, i - 1, sk', ys, j - 1);
      assert xs[..i] == xs[..i - 1] + [xs[i - 1]] && ys[..j] == ys[..j - 1] + [ys[j - 1]];
    }
  }

  /** Seeds of chains come out of an epoch's KDF, all later chain keys out of a chain's. */
  lemma {:induction false} ChainKeyInjective(a: PqKey, m: nat, b: PqKey, n: nat)
    requires !a.okm.ChainStep? && !b.okm.ChainStep? && ChainKey(a, m) == ChainKey(b, n)
    ensures a == b && m == n
  {
    if m > 0 && n > 0 { ChainKeyInjective(a, m - 1, b, n - 1); }
  }

  lemma SeedInjective(sk: Term, xs: seq<Term>, i: nat, d: Direction, sk': Term, ys: seq<Term>, j: nat, d': Direction)
    requires i <= |xs| && j <= |ys|
    ensures !Seed(sk, xs, i, d).okm.ChainStep?
    ensures Seed(sk, xs, i, d) == Seed(sk', ys, j, d') ==> sk == sk' && i == j && xs[..i] == ys[..j] && d == d'
  {
    if Seed(sk, xs, i, d) == Seed(sk', ys, j, d') { EpochOkmInjective(sk, xs, i, sk', ys, j); }
  }

  /**
   A message key binds the session, every epoch secret up to its epoch, the direction and
   the number: two schedules share a key only if they agree on all of these.
   */
  lemma KeyBinds(sk: Term, xs: seq<Term>, e: nat, d: Direction, n: nat, sk': Term, ys: seq<Term>, e': nat, d': Direction, n': nat)
    requires e <= |xs| && e' <= |ys| && n >= 1 && n' >= 1
    requires Key(sk, xs, e, d, n) == Key(sk', ys, e', d', n')
    ensures sk == sk' && e == e' && xs[..e] == ys[..e'] && d == d' && n == n'
  {
    hide EpochOkm;
    SeedInjective(sk, xs, e, d, sk', ys, e', d');
    SeedInjective(sk', ys, e', d', sk, xs, e, d);
    ChainKeyInjective(Seed(sk, xs, e, d), n - 1, Seed(sk', ys, e', d'), n' - 1);
  }

  /** The same of chain keys; and the three kinds of keys never meet, across all sessions and histories. */
  lemma KeysApart(sk: Term, xs: seq<Term>, e: nat, d: Direction, n: nat, sk': Term, ys: seq<Term>, e': nat, d': Direction, m: nat)
    requires e <= |xs| && e' <= |ys|
    ensures n >= 1 ==> Key(sk, xs, e, d, n) != ChainKey(Seed(sk', ys, e', d'), m)
    ensures n >= 1 ==> Key(sk, xs, e, d, n) != Slot(EpochOkm(sk', ys, e'), 0)
    ensures ChainKey(Seed(sk, xs, e, d), n) != Slot(EpochOkm(sk', ys, e'), 0)
    ensures ChainKey(Seed(sk, xs, e, d), n) == ChainKey(Seed(sk', ys, e', d'), m) ==>
      sk == sk' && e == e' && xs[..e] == ys[..e'] && d == d' && n == m
  {
    SeedInjective(sk, xs, e, d, sk', ys, e', d');
    SeedInjective(sk', ys, e', d', sk, xs, e, d);
    if ChainKey(Seed(sk, xs, e, d), n) == ChainKey(Seed(sk', ys, e', d'), m) {
      ChainKeyInjective(Seed(sk, xs, e, d), n, Seed(sk', ys, e', d'), m);
    }
  }

  // ---- model --------------------------------------------------------------------------

  /** One epoch: last number sent, highest number derived on receive, numbers stored for later. */
  datatype Window = Window(send: Option<nat>, recv: nat, skipped: set<nat>)

  const FRESH := Window(Some(0), 0, {})

  /** No send counter is about to leave u32. */
  predicate SendRoom(ws: map<nat, Window>) { forall e :: e in ws && ws[e].send.Some? ==> ws[e].send.value < U32_MAX }

  /** `recv.n + MAX_SKIP` stays within u32. */
  predicate RecvRoom(ws: map<nat, Window>) { forall e :: e in ws ==> ws[e].recv + MAX_SKIP <= U32_MAX }

  datatype Model = Model(braid: State, dir: Direction, sk: Term, secrets: seq<Term>, windows: map<nat, Window>) {
    predicate Valid()
    {
      && braid.WellFormed() && |secrets| == braid.Done()
      && Takable()
      && (forall e :: braid.ep - 1 <= e <= |secrets| ==> e in windows && windows[e].send.Some?)
    }

    function WithEpoch(secret: Option<EpochSecret>): (m: Model)
      ensures SendRoom(windows) ==> SendRoom(m.windows)
      ensures RecvRoom(windows) ==> RecvRoom(m.windows)
    {
      if secret.None? then this
      else this.(secrets := secrets + [secret.value.secret], windows := windows[|secrets| + 1 := FRESH])
    }

    function Cleared(sendingEpoch: nat): (m: Model)
      ensures SendRoom(windows) ==> SendRoom(m.windows)
    {
      if sendingEpoch < 2 then this else this.(windows := windows - {sendingEpoch - 2})
    }

    function Retired(sendingEpoch: nat): (m: Model)
      ensures SendRoom(windows) ==> SendRoom(m.windows)
    {
      if sendingEpoch >= 1 && sendingEpoch - 1 in windows
      then this.(windows := windows[sendingEpoch - 1 := windows[sendingEpoch - 1].(send := None)])
      else this
    }

    /** The model just before the send chain of `s` advances. */
    function Prepared(out: Sent, s: nat): (m: Model)
      ensures SendRoom(windows) ==> SendRoom(m.windows)
    {
      var m := this.(braid := out.next).WithEpoch(out.secret);
      (if out.secret.Some? then m.Cleared(s) else m).Retired(s)
    }

    function SentOn(e: nat): Model
      requires e in windows && windows[e].send.Some?
    {
      this.(windows := windows[e := windows[e].(send := Some(windows[e].send.value + 1))])
    }

    function Send(coins: Term): (Model, Message, nat, PqKey)
      requires Valid()
    {
      SendStep(braid, coins);
      var s := braid.ep - 1;
      var m := Prepared(braid.Send(coins).value, s);
      var n := m.windows[s].send.value + 1;
      (m.SentOn(s), braid.Send(coins).value.msg, n, Key(sk, m.secrets, s, dir, n))
    }

    function SkippedTo(e: nat, until: nat): Model
    {
      if e in windows && windows[e].recv < until then
        var w := windows[e];
        this.(windows := windows[e := Window(w.send, until, w.skipped + Range(w.recv + 1, until + 1))])
      else this
    }

    predicate Takable()
    {
      && (forall e :: e in windows ==> e <= |secrets|)
      && (forall e, n :: e in windows && n in windows[e].skipped ==> 1 <= n <= windows[e].recv)
    }

    /** Receive message n of epoch e from the windows. */
    function Take(e: nat, n: nat): (Model, Result<PqKey>)
      requires Takable()
    {
      if e !in windows then (this, Err(NoRecvChain))
      else
        var w := windows[e];
        if n in w.skipped then
          (this.(windows := windows[e := w.(skipped := w.skipped - {n})]), Ok(Key(sk, secrets, e, dir.Opposite(), n)))
        else if n <= w.recv then (this, Err(Replay))
        else if w.recv + MAX_SKIP < n - 1 then (this, Err(MaxSkipExceeded(n - 1 - w.recv, MAX_SKIP)))
        else
          (this.(windows := windows[e := Window(w.send, n, w.skipped + Range(w.recv + 1, n))]),
           Ok(Key(sk, secrets, e, dir.Opposite(), n)))
    }

    function Receive(msg: Message, n: nat): (Model, Result<PqKey>)
      requires Valid()
    {
      var r := braid.Receive(msg);
      if r.Err? then (this, Err(r.error))
      else
        ReceiveStep(braid, msg);
        this.(braid := r.value.next).WithEpoch(r.value.secret).Take(ReceivingEpoch(msg), n)
    }
  }

  function ReceivingEpoch(msg: Message): nat { if msg.epoch >= 1 then msg.epoch - 1 else 0 }

  function Initial(sk: Term, dir: Direction): Model
  {
    Model(if dir == A2B then InitSender(sk) else InitReceiver(sk), dir, sk, [], map[0 := FRESH])
  }

  // ---- the ratchet object ---------------------------------------------------------------

  datatype SckaChain = SckaChain(ck: PqKey, n: nat) {
    function Advance(): (SckaChain, nat, PqKey)
    {
      var okm := ChainStep(ck, n + 1);
      (SckaChain(Slot(okm, 0), n + 1), n + 1, Slot(okm, 1))
    }

    predicate Follows(seed: PqKey) { ck == ChainKey(seed, n) }
  }

  datatype EpochChains = EpochChains(send: Option<SckaChain>, recv: Option<SckaChain>)

  /**
   One step, from any chain at all: the message key and the next chain key bind both the chain
   key and the counter, and are never each other.
   */
  lemma StepBinds(c: SckaChain, b: SckaChain)
    ensures c.Advance().2 == b.Advance().2 || c.Advance().0.ck == b.Advance().0.ck ==> c == b
    ensures c.Advance().2 != b.Advance().0.ck && c.Advance().1 == c.Advance().0.n == c.n + 1
  {
  }

  lemma AdvanceFollows(c: SckaChain, seed: PqKey)
    requires c.Follows(seed)
    ensures c.Advance().0.Follows(seed) && c.Advance().2 == MessageKey(seed, c.n + 1)
  {
  }

  /** Of three output slots the first is the root key, the second carries A2B traffic and the third B2A. */
  function FreshChains(okm: Okm, dir: Direction): EpochChains
  {
    var (a2b, b2a) := (Some(SckaChain(Slot(okm, 1), 0)), Some(SckaChain(Slot(okm, 2), 0)));
    match dir case A2B => EpochChains(a2b, b2a) case B2A => EpochChains(b2a, a2b)
  }

  function Assign(dir: Direction, ck0: PqKey, ck1: PqKey): (PqKey, PqKey)
  {
    if dir == A2B then (ck0, ck1) else (ck1, ck0)
  }

  type Chains = map<nat, EpochChains>
  type Skipped = map<nat, map<nat, PqKey>>

  /** Both chains of an epoch are on schedule; the receive chain is never dropped alone. */
  ghost predicate ChainOk(dir: Direction, sk: Term, secrets: seq<Term>, e: nat, c: EpochChains)
  {
    && e <= |secrets| && c.recv.Some? && c.recv.value.Follows(Seed(sk, secrets, e, dir.Opposite()))
    && (c.send.Some? ==> c.send.value.Follows(Seed(sk, secrets, e, dir)))
  }

  /** Every stored key is the key of its number, and was already passed by the chain. */
  ghost predicate StoredOk(dir: Direction, sk: Term, secrets: seq<Term>, e: nat, recv: nat, keys: map<nat, PqKey>)
    requires e <= |secrets|
  {
    && keys != map[]
    && forall n :: n in keys ==> 1 <= n <= recv && keys[n] == Key(sk, secrets, e, dir.Opposite(), n)
  }

  /** All key material is on schedule. */
  ghost predicate OnSchedule(dir: Direction, sk: Term, secrets: seq<Term>, chains: Chains, skipped: Skipped)
  {
    && (forall e :: e in chains ==> ChainOk(dir, sk, secrets, e, chains[e]))
    && (forall e :: e in skipped ==> e in chains && StoredOk(dir, sk, secrets, e, chains[e].recv.value.n, skipped[e]))
  }

  function WindowOf(c: EpochChains, keys: set<nat>): Window
  {
    Window(if c.send.Some? then Some(c.send.value.n) else None, if c.recv.Some? then c.recv.value.n else 0, keys)
  }

  function KeysOf(skipped: Skipped, e: nat): set<nat> { if e in skipped then skipped[e].Keys else {} }

  function Windows(chains: Chains, skipped: Skipped): (w: map<nat, Window>)
    ensures w.Keys == chains.Keys
    ensures forall e :: e in chains ==> w[e] == WindowOf(chains[e], KeysOf(skipped, e))
  {
    map e | e in chains :: WindowOf(chains[e], KeysOf(skipped, e))
  }

  lemma AddEpochOnSchedule(dir: Direction, sk: Term, secrets: seq<Term>, chains: Chains, skipped: Skipped, x: Term)
    requires OnSchedule(dir, sk, secrets, chains, skipped)
    ensures var e, okm := |secrets| + 1, NewEpoch(Slot(EpochOkm(sk, secrets, |secrets|), 0), x);
      var (send, recv) := Assign(dir, Slot(okm, 1), Slot(okm, 2));
      var chains' := chains[e := EpochChains(Some(SckaChain(send, 0)), Some(SckaChain(recv, 0)))];
      && EpochOkm(sk, secrets + [x], e) == okm
      && OnSchedule(dir, sk, secrets + [x], chains', skipped)
      && Windows(chains', skipped) == Windows(chains, skipped)[e := FRESH]
  {
    hide ChainOk, StoredOk, EpochOkm, Windows;
    FreshEpochOk(dir, sk, secrets, x);
    forall k | k in chains ensures k <= |secrets| && chains[k].recv.Some? && ChainOk(dir, sk, secrets + [x], k, chains[k]) {
      ChainStable(dir, sk, secrets, x, k, chains[k]);
    }
    forall k | k in skipped ensures StoredOk(dir, sk, secrets + [x], k, chains[k].recv.value.n, skipped[k]) {
      StoredStable(dir, sk, secrets, x, k, chains[k].recv.value.n, skipped[k]);
    }
  }

  lemma FreshEpochOk(dir: Direction, sk: Term, secrets: seq<Term>, x: Term)
    ensures var e, okm := |secrets| + 1, NewEpoch(Slot(EpochOkm(sk, secrets, |secrets|), 0), x);
      var (send, recv) := Assign(dir, Slot(okm, 1), Slot(okm, 2));
      && EpochOkm(sk, secrets + [x], e) == okm
      && ChainOk(dir, sk, secrets + [x], e, EpochChains(Some(SckaChain(send, 0)), Some(SckaChain(recv, 0))))
  {
    EpochOkmStable(sk, secrets, secrets + [x], |secrets|);
  }

  lemma ChainStable(dir: Direction, sk: Term, secrets: seq<Term>, x: Term, e: nat, c: EpochChains)
    requires ChainOk(dir, sk, secrets, e, c)
    ensures e <= |secrets| && c.recv.Some? && ChainOk(dir, sk, secrets + [x], e, c)
  {
    hide SckaChain.Follows, EpochOkm;
    EpochOkmStable(sk, secrets, secrets + [x], e);
  }

  lemma StoredStable(dir: Direction, sk: Term, secrets: seq<Term>, x: Term, e: nat, recv: nat, keys: map<nat, PqKey>)
    requires e <= |secrets| && StoredOk(dir, sk, secrets, e, recv, keys)
    ensures StoredOk(dir, sk, secrets + [x], e, recv, keys)
  {
    hide MessageKey, EpochOkm;
    EpochOkmStable(sk, secrets, secrets + [x], e);
  }

  /** What the schedule says about one epoch. */
  lemma EpochOnSchedule(dir: Direction, sk: Term, secrets: seq<Term>, chains: Chains, skipped: Skipped, e: nat)
    requires OnSchedule(dir, sk, secrets, chains, skipped)
    ensures e in chains ==> ChainOk(dir, sk, secrets, e, chains[e])
    ensures e in skipped ==> e in chains && StoredOk(dir, sk, secrets, e, chains[e].recv.value.n, skipped[e])
    ensures e in chains <==> e in Windows(chains, skipped)
    ensures e in chains ==>
      && chains[e].recv.Some? && e <= |secrets|
      && Windows(chains, skipped)[e].recv == chains[e].recv.value.n && Windows(chains, skipped)[e].skipped == KeysOf(skipped, e)
    ensures e in chains ==> forall n :: n in KeysOf(skipped, e) ==> n <= chains[e].recv.value.n
  {
  }

  lemma ClearOnSchedule(dir: Direction, sk: Term, secrets: seq<Term>, chains: Chains, skipped: Skipped, e: nat)
    requires OnSchedule(dir, sk, secrets, chains, skipped)
    ensures OnSchedule(dir, sk, secrets, chains - {e}, skipped - {e})
    ensures Windows(chains - {e}, skipped - {e}) == Windows(chains, skipped) - {e}
  {
    hide ChainOk, StoredOk;
  }

  lemma ReplaceWindows(chains: Chains, skipped: Skipped, skipped': Skipped, e: nat, c: EpochChains)
    requires e in chains && forall x :: x in chains && x != e ==> KeysOf(skipped', x) == KeysOf(skipped, x)
    ensures Windows(chains[e := c], skipped') == Windows(chains, skipped)[e := WindowOf(c, KeysOf(skipped', e))]
  {
    hide WindowOf, KeysOf;
  }

  /** Replacing one epoch's chains and stored keys touches no other epoch. */
  lemma ReplaceOnSchedule(dir: Direction, sk: Term, secrets: seq<Term>, chains: Chains, skipped: Skipped,
                          e: nat, c: EpochChains, keys: map<nat, PqKey>)
    requires OnSchedule(dir, sk, secrets, chains, skipped) && e in chains
    requires ChainOk(dir, sk, secrets, e, c)
    requires keys != map[] ==> StoredOk(dir, sk, secrets, e, c.recv.value.n, keys)
    ensures var skipped' := if keys == map[] then skipped - {e} else skipped[e := keys];
      && OnSchedule(dir, sk, secrets, chains[e := c], skipped')
      && Windows(chains[e := c], skipped') == Windows(chains, skipped)[e := WindowOf(c, keys.Keys)]
  {
    hide ChainOk, StoredOk, Windows, WindowOf;
    var skipped' := if keys == map[] then skipped - {e} else skipped[e := keys];
    assert KeysOf(skipped', e) == keys.Keys;
    ReplaceWindows(chains, skipped, skipped', e, c);
  }

  /** Changing only the send chain of an epoch. */
  lemma SendChainOnSchedule(dir: Direction, sk: Term, secrets: seq<Term>, chains: Chains, skipped: Skipped,
                            e: nat, c: EpochChains)
    requires OnSchedule(dir, sk, secrets, chains, skipped) && e in chains
    requires ChainOk(dir, sk, secrets, e, c) && c.recv == chains[e].recv
    ensures OnSchedule(dir, sk, secrets, chains[e := c], skipped)
    ensures Windows(chains[e := c], skipped) ==
      var w := Windows(chains, skipped); w[e := w[e].(send := WindowOf(c, {}).send)]
  {
    hide ChainOk, StoredOk, Windows;
  }

  /** Advancing only the receive chain of an epoch by one. */
  lemma RecvChainOnSchedule(dir: Direction, sk: Term, secrets: seq<Term>, chains: Chains, skipped: Skipped, e: nat)
    requires OnSchedule(dir, sk, secrets, chains, skipped) && e in chains && chains[e].recv.Some?
    ensures e <= |secrets|
    ensures var (chain, n, mk) := chains[e].recv.value.Advance();
      var chains' := chains[e := chains[e].(recv := Some(chain))];
      && OnSchedule(dir, sk, secrets, chains', skipped)
      && Windows(chains', skipped) == (var w := Windows(chains, skipped); w[e := w[e].(recv := n)])
      && n == Windows(chains, skipped)[e].recv + 1 && mk == Key(sk, secrets, e, dir.Opposite(), n)
  {
    hide Windows, Key, OnSchedule, ChainOk;
    EpochOk(dir, sk, secrets, chains, skipped, e);
    RecvStepOk(dir, sk, secrets, e, chains[e]);
    RecvKept(dir, sk, secrets, chains, skipped, e, chains[e].(recv := Some(chains[e].recv.value.Advance().0)));
    RecvWindows(chains, skipped, e, chains[e].recv.value.Advance().0);
  }

  lemma EpochOk(dir: Direction, sk: Term, secrets: seq<Term>, chains: Chains, skipped: Skipped, e: nat)
    requires OnSchedule(dir, sk, secrets, chains, skipped) && e in chains
    ensures ChainOk(dir, sk, secrets, e, chains[e]) && e <= |secrets|
  {
    hide SckaChain.Follows, StoredOk;
  }

  lemma RecvKept(dir: Direction, sk: Term, secrets: seq<Term>, chains: Chains, skipped: Skipped, e: nat, c: EpochChains)
    requires OnSchedule(dir, sk, secrets, chains, skipped) && e in chains && e <= |secrets|
    requires ChainOk(dir, sk, secrets, e, c) && chains[e].recv.Some? && c.recv.Some? && c.recv.value.n == chains[e].recv.value.n + 1
    ensures OnSchedule(dir, sk, secrets, chains[e := c], skipped)
  {
    hide ChainOk, StoredOk;
    if e in skipped { StoredLater(dir, sk, secrets, e, chains[e].recv.value.n, skipped[e]); }
  }

  lemma RecvWindows(chains: Chains, skipped: Skipped, e: nat, chain: SckaChain)
    requires e in chains && chains[e].recv.Some?
    ensures var w := Windows(chains, skipped);
      && Windows(chains[e := chains[e].(recv := Some(chain))], skipped) == w[e := w[e].(recv := chain.n)]
      && w[e].recv == chains[e].recv.value.n
  {
    hide KeysOf;
    ReplaceWindows(chains, skipped, skipped, e, chains[e].(recv := Some(chain)));
  }

  lemma RecvStepOk(dir: Direction, sk: Term, secrets: seq<Term>, e: nat, c: EpochChains)
    requires ChainOk(dir, sk, secrets, e, c)
    ensures var (chain, n, mk) := c.recv.value.Advance();
      && ChainOk(dir, sk, secrets, e, c.(recv := Some(chain)))
      && e <= |secrets| && mk == Key(sk, secrets, e, dir.Opposite(), n)
  {
    hide EpochOkm;
    AdvanceFollows(c.recv.value, Seed(sk, secrets, e, dir.Opposite()));
  }

  lemma StoredLater(dir: Direction, sk: Term, secrets: seq<Term>, e: nat, recv: nat, keys: map<nat, PqKey>)
    requires e <= |secrets| && StoredOk(dir, sk, secrets, e, recv, keys)
    ensures StoredOk(dir, sk, secrets, e, recv + 1, keys)
  {
    hide Key;
  }

  lemma SkippedToIs(m: Model, e: nat, until: nat)
    ensures m.SkippedTo(e, until) ==
      if e in m.windows && m.windows[e].recv < until then
        var w := m.windows[e];
        m.(windows := m.windows[e := Window(w.send, until, w.skipped + Range(w.recv + 1, until + 1))])
      else m
  {
  }

  /** Taking a number not yet passed is skipping up to it and one step more. */
  lemma TakeIsSkipThenStep(m: Model, e: nat, n: nat)
    requires m.Takable() && (e in m.windows ==> m.windows[e].recv < n)
    ensures e !in m.windows ==> m.Take(e, n) == (m, Err(NoRecvChain)) && forall until: nat :: m.SkippedTo(e, until) == m
    ensures e in m.windows && m.windows[e].recv + MAX_SKIP < n - 1 ==>
      m.Take(e, n) == (m, Err(MaxSkipExceeded(n - 1 - m.windows[e].recv, MAX_SKIP)))
    ensures e in m.windows && n - 1 <= m.windows[e].recv + MAX_SKIP ==>
      var w := m.SkippedTo(e, n - 1).windows;
      && e in w && w[e].recv == n - 1 && e <= |m.secrets|
      && m.SkippedTo(e, n - 1) == m.(windows := w)
      && m.Take(e, n) == (m.(windows := w[e := w[e].(recv := n)]), Ok(Key(m.sk, m.secrets, e, m.dir.Opposite(), n)))
  {
    hide Range, Key;
    if e in m.windows && n - 1 <= m.windows[e].recv + MAX_SKIP {
      assert m.windows[e].skipped + Range(n, n) == m.windows[e].skipped;
      var w := m.SkippedTo(e, n - 1).windows;
      assert m.Take(e, n).0.windows == w[e := w[e].(recv := n)];
    }
  }

  /** Consecutive numbers with their keys. */
  ghost predicate Numbered(derived: seq<(nat, PqKey)>, from: nat, seed: PqKey)
  {
    forall i :: 0 <= i < |derived| ==> derived[i].0 == from + i + 1 && derived[i].1 == MessageKey(seed, from + i + 1)
  }

  /** The derive-and-collect loop of `skip_message_keys`: one key per number passed. */
  method DeriveUpTo(start: SckaChain, until: nat, ghost seed: PqKey) returns (chain: SckaChain, derived: seq<(nat, PqKey)>)
    requires start.Follows(seed)
    ensures chain.Follows(seed) && chain.n == if start.n < until then until else start.n
    ensures |derived| == chain.n - start.n && Numbered(derived, start.n, seed)
  {
    hide ChainKey, MessageKey, SckaChain.Follows;
    chain, derived := start, [];
    while chain.n < until
      invariant start.n <= chain.n && (chain.n <= until || chain == start)
      invariant chain.Follows(seed) && |derived| == chain.n - start.n && Numbered(derived, start.n, seed)
    {
      AdvanceFollows(chain, seed);
      var (next, n, mk) := chain.Advance();
      chain := next;
      derived := derived + [(n, mk)];
    }
  }

  /** The right key for every number in the map. */
  ghost predicate AllRight(keys: map<nat, PqKey>, seed: PqKey)
  {
    forall n :: n in keys ==> 1 <= n && keys[n] == MessageKey(seed, n)
  }

  lemma StoredAllRight(dir: Direction, sk: Term, secrets: seq<Term>, e: nat, recv: nat, keys: map<nat, PqKey>)
    requires e <= |secrets| && (keys != map[] ==> StoredOk(dir, sk, secrets, e, recv, keys))
    ensures AllRight(keys, Seed(sk, secrets, e, dir.Opposite()))
  {
    hide MessageKey, Seed;
  }

  /** Insert the collected keys into the epoch's map. */
  method StoreAll(stored: map<nat, PqKey>, from: nat, derived: seq<(nat, PqKey)>, ghost seed: PqKey) returns (inner: map<nat, PqKey>)
    requires Numbered(derived, from, seed) && AllRight(stored, seed)
    ensures AllRight(inner, seed)
    ensures forall n :: n in inner <==> n in stored || from < n <= from + |derived|
  {
    hide MessageKey;
    inner := stored;
    for i := 0 to |derived|
      invariant AllRight(inner, seed)
      invariant forall n :: n in inner <==> n in stored || from < n <= from + i
    {
      inner := inner[derived[i].0 := derived[i].1];
    }
  }

  /** The two loops of `skip_message_keys` together. */
  method DeriveAndStore(start: SckaChain, until: nat, stored: map<nat, PqKey>, ghost seed: PqKey)
    returns (chain: SckaChain, inner: map<nat, PqKey>)
    requires start.Follows(seed) && start.n < until && AllRight(stored, seed)
    ensures chain.Follows(seed) && chain.n == until && AllRight(inner, seed)
    ensures forall n :: n in inner <==> n in stored || start.n < n <= until
  {
    hide ChainKey, AllRight, Numbered;
    var derived;
    chain, derived := DeriveUpTo(start, until, seed);
    inner := StoreAll(stored, start.n, derived, seed);
  }

  /** Advancing the receive chain of an epoch and storing what was passed, as one change. */
  lemma SkipOnSchedule(dir: Direction, sk: Term, secrets: seq<Term>, chains: Chains, skipped: Skipped,
                       e: nat, chain: SckaChain, inner: map<nat, PqKey>)
    requires OnSchedule(dir, sk, secrets, chains, skipped) && e in chains
    requires chain.Follows(Seed(sk, secrets, e, dir.Opposite())) && chain.n > chains[e].recv.value.n
    requires forall n :: n in inner <==> n in KeysOf(skipped, e) || chains[e].recv.value.n < n <= chain.n
    requires AllRight(inner, Seed(sk, secrets, e, dir.Opposite()))
    ensures var chains', skipped' := chains[e := chains[e].(recv := Some(chain))], skipped[e := inner];
      var w := Windows(chains, skipped)[e];
      && OnSchedule(dir, sk, secrets, chains', skipped')
      && Windows(chains', skipped') ==
         Windows(chains, skipped)[e := Window(w.send, chain.n, w.skipped + Range(w.recv + 1, chain.n + 1))]
  {
    hide Range, ChainOk, StoredOk, Windows, OnSchedule, SckaChain.Follows, Key, AllRight, Seed;
    EpochOnSchedule(dir, sk, secrets, chains, skipped, e);
    SkippedOk(dir, sk, secrets, e, chains[e], KeysOf(skipped, e), chain, inner);
    ReplaceOnSchedule(dir, sk, secrets, chains, skipped, e, chains[e].(recv := Some(chain)), inner);
  }

  /** What the derive loop and the store loop start from. */
  lemma ReadyToSkip(dir: Direction, sk: Term, secrets: seq<Term>, chains: Chains, skipped: Skipped, e: nat)
    requires OnSchedule(dir, sk, secrets, chains, skipped) && e in chains
    ensures var seed := Seed(sk, secrets, e, dir.Opposite());
      && e <= |secrets| && chains[e].recv.Some? && chains[e].recv.value.Follows(seed)
      && AllRight(if e in skipped then skipped[e] else map[], seed)
  {
    hide OnSchedule, Windows, StoredOk, SckaChain.Follows, AllRight, Seed;
    EpochOnSchedule(dir, sk, secrets, chains, skipped, e);
    StoredAllRight(dir, sk, secrets, e, chains[e].recv.value.n, if e in skipped then skipped[e] else map[]);
  }

  /** And what they amount to. */
  lemma SkipDone(m: Model, chains: Chains, skipped: Skipped, e: nat, chain: SckaChain, inner: map<nat, PqKey>)
    requires OnSchedule(m.dir, m.sk, m.secrets, chains, skipped) && m.windows == Windows(chains, skipped) && e in chains && e <= |m.secrets|
    requires chains[e].recv.Some? && chains[e].recv.value.n < chain.n && chain.Follows(Seed(m.sk, m.secrets, e, m.dir.Opposite()))
    requires forall n :: n in inner <==> n in KeysOf(skipped, e) || chains[e].recv.value.n < n <= chain.n
    requires AllRight(inner, Seed(m.sk, m.secrets, e, m.dir.Opposite()))
    ensures var chains', skipped' := chains[e := chains[e].(recv := Some(chain))], skipped[e := inner];
      && OnSchedule(m.dir, m.sk, m.secrets, chains', skipped')
      && m.SkippedTo(e, chain.n) == m.(windows := Windows(chains', skipped'))
  {
    hide OnSchedule, Windows, WindowOf, Range, AllRight, Seed, Model.SkippedTo, SckaChain.Follows;
    EpochOnSchedule(m.dir, m.sk, m.secrets, chains, skipped, e);
    SkippedToIs(m, e, chain.n);
    SkipOnSchedule(m.dir, m.sk, m.secrets, chains, skipped, e, chain, inner);
  }

  lemma SkippedOk(dir: Direction, sk: Term, secrets: seq<Term>, e: nat, c: EpochChains, stored: set<nat>,
                  chain: SckaChain, inner: map<nat, PqKey>)
    requires ChainOk(dir, sk, secrets, e, c) && chain.Follows(Seed(sk, secrets, e, dir.Opposite()))
    requires chain.n > c.recv.value.n
    requires forall n :: n in stored ==> n <= c.recv.value.n
    requires forall n :: n in inner <==> n in stored || c.recv.value.n < n <= chain.n
    requires AllRight(inner, Seed(sk, secrets, e, dir.Opposite()))
    ensures ChainOk(dir, sk, secrets, e, c.(recv := Some(chain)))
    ensures StoredOk(dir, sk, secrets, e, chain.n, inner)
    ensures inner.Keys == stored + Range(c.recv.value.n + 1, chain.n + 1)
  {
    hide Range, SckaChain.Follows, Seed, AllRight, StoredOk;
    StoredFromRight(dir, sk, secrets, e, chain.n, inner);
    KeysSplit(inner.Keys, stored, c.recv.value.n, chain.n);
  }

  lemma StoredFromRight(dir: Direction, sk: Term, secrets: seq<Term>, e: nat, recv: nat, keys: map<nat, PqKey>)
    requires e <= |secrets| && AllRight(keys, Seed(sk, secrets, e, dir.Opposite())) && recv in keys
    requires forall n :: n in keys ==> n <= recv
    ensures StoredOk(dir, sk, secrets, e, recv, keys)
  {
    hide MessageKey, Seed;
  }

  lemma KeysSplit(keys: set<nat>, stored: set<nat>, lo: nat, hi: nat)
    requires forall n :: n in keys <==> n in stored || lo < n <= hi
    ensures keys == stored + Range(lo + 1, hi + 1)
  {
    hide Range;
  }

  class SpqrState {
    const braid: BraidState
    const direction: Direction
    var rk: PqKey
    var epoch: nat
    var kdfchains: Chains
    var mkskipped: Skipped
    ghost const sk: Term
    ghost var secrets: seq<Term>

    ghost predicate Keyed()
      reads this
    {
      && epoch == |secrets| && rk == Slot(EpochOkm(sk, secrets, epoch), 0)
      && OnSchedule(direction, sk, secrets, kdfchains, mkskipped)
    }

    /** The key is a root key, a chain key or a stored key of this state. */
    ghost predicate Keeps(mk: PqKey)
      reads this
    {
      || mk == rk
      || (exists e :: e in kdfchains && kdfchains[e].send.Some? && kdfchains[e].send.value.ck == mk)
      || (exists e :: e in kdfchains && kdfchains[e].recv.Some? && kdfchains[e].recv.value.ck == mk)
      || (exists e, n :: e in mkskipped && n in mkskipped[e] && mkskipped[e][n] == mk)
    }

    /** The root key is no chain key, and the chains of different epochs or directions share none. */
    lemma ChainsApart(x: nat, y: nat)
      requires Keyed() && x in kdfchains && y in kdfchains
      ensures kdfchains[x].recv.Some? && kdfchains[x].recv.value.ck != rk && (kdfchains[x].send.Some? ==> kdfchains[x].send.value.ck != rk)
      ensures kdfchains[y].send.Some? ==> kdfchains[x].recv.value.ck != kdfchains[y].send.value.ck
      ensures x != y ==> kdfchains[y].recv.Some? && kdfchains[x].recv.value.ck != kdfchains[y].recv.value.ck
      ensures x != y && kdfchains[x].send.Some? && kdfchains[y].send.Some? ==> kdfchains[x].send.value.ck != kdfchains[y].send.value.ck
    {
      hide EpochOkm, ChainKey, Seed, StoredOk;
      var (c, b, me, you) := (kdfchains[x], kdfchains[y], direction, direction.Opposite());
      assert ChainOk(me, sk, secrets, x, c) && ChainOk(me, sk, secrets, y, b);
      KeysApart(sk, secrets, x, you, c.recv.value.n, sk, secrets, epoch, me, 0);
      KeysApart(sk, secrets, x, you, c.recv.value.n, sk, secrets, y, you, b.recv.value.n);
      if c.send.Some? { KeysApart(sk, secrets, x, me, c.send.value.n, sk, secrets, epoch, me, 0); }
      if b.send.Some? {
        KeysApart(sk, secrets, x, you, c.recv.value.n, sk, secrets, y, me, b.send.value.n);
        if c.send.Some? { KeysApart(sk, secrets, x, me, c.send.value.n, sk, secrets, y, me, b.send.value.n); }
      }
    }

    /** A message key of the schedule is kept in one place at most: the store, under its own number. */
    lemma KeptOnlyInStore(e: nat, d: Direction, n: nat)
      requires Keyed() && e <= |secrets| && n >= 1
      requires d == direction || e !in mkskipped || n !in mkskipped[e]
      ensures !Keeps(Key(sk, secrets, e, d, n))
    {
      hide EpochOkm, ChainKey, Key, Seed;
      var mk := Key(sk, secrets, e, d, n);
      forall x | x in kdfchains
        ensures kdfchains[x].send.Some? ==> kdfchains[x].send.value.ck != mk
        ensures kdfchains[x].recv.Some? ==> kdfchains[x].recv.value.ck != mk
      {
        ChainApart(x, e, d, n);
      }
      forall x, k | x in mkskipped && k in mkskipped[x] ensures mkskipped[x][k] != mk { StoredApart(x, k, e, d, n); }
      KeysApart(sk, secrets, e, d, n, sk, secrets, epoch, d, 0);
    }

    lemma ChainApart(x: nat, e: nat, d: Direction, n: nat)
      requires Keyed() && e <= |secrets| && n >= 1 && x in kdfchains
      ensures kdfchains[x].send.Some? ==> kdfchains[x].send.value.ck != Key(sk, secrets, e, d, n)
      ensures kdfchains[x].recv.Some? ==> kdfchains[x].recv.value.ck != Key(sk, secrets, e, d, n)
    {
      hide EpochOkm, ChainKey, Key, Seed, StoredOk;
      var c := kdfchains[x];
      assert ChainOk(direction, sk, secrets, x, c);
      if c.send.Some? { KeysApart(sk, secrets, e, d, n, sk, secrets, x, direction, c.send.value.n); }
      KeysApart(sk, secrets, e, d, n, sk, secrets, x, direction.Opposite(), c.recv.value.n);
    }

    lemma StoredApart(x: nat, k: nat, e: nat, d: Direction, n: nat)
      requires Keyed() && e <= |secrets| && n >= 1 && x in mkskipped && k in mkskipped[x]
      requires d == direction || e !in mkskipped || n !in mkskipped[e]
      ensures mkskipped[x][k] != Key(sk, secrets, e, d, n)
    {
      hide EpochOkm, ChainKey, Key, Seed;
      assert ChainOk(direction, sk, secrets, x, kdfchains[x]);
      assert StoredOk(direction, sk, secrets, x, kdfchains[x].recv.value.n, mkskipped[x]);
      if mkskipped[x][k] == Key(sk, secrets, e, d, n) {
        KeyBinds(sk, secrets, x, direction.Opposite(), k, sk, secrets, e, d, n);
      }
    }

    ghost function View(): Model
      reads this, braid
    {
      Model(braid.state, direction, sk, secrets, Windows(kdfchains, mkskipped))
    }

    ghost predicate Valid()
      reads this, braid
    {
      Keyed() && View().Valid()
    }

    constructor (sharedSecret: Term, direction: Direction)
      ensures Valid() && View() == Initial(AuthSeed(sharedSecret), direction) && fresh(braid)
      ensures rk == Slot(Start(AuthSeed(sharedSecret)), 0) && 0 in kdfchains
      ensures kdfchains[0] == FreshChains(Start(AuthSeed(sharedSecret)), direction)
    {
      var sk := AuthSeed(sharedSecret);
      this.sk := sk;
      this.direction := direction;
      if direction == A2B {
        braid := new BraidState.Sender(sk);
      } else {
        braid := new BraidState.Receiver(sk);
      }
      var okm := Start(sk);
      var (sendCk, recvCk) := Assign(direction, Slot(okm, 1), Slot(okm, 2));
      kdfchains := map[0 := EpochChains(Some(SckaChain(sendCk, 0)), Some(SckaChain(recvCk, 0)))];
      rk := Slot(okm, 0);
      epoch := 0;
      mkskipped := map[];
      secrets := [];
      new;
      assert Windows(kdfchains, mkskipped) == map[0 := FRESH];
    }

    /** Mix in a completed epoch; only the next epoch in order is accepted. */
    method AddEpoch(keyEpoch: nat, secret: Term) returns (r: Result<()>)
      requires Keyed()
      modifies this
      ensures Keyed()
      ensures r.Ok? <==> keyEpoch == old(epoch) + 1
      ensures r.Ok? ==> View() == old(View()).WithEpoch(Some(EpochSecret(keyEpoch, secret)))
      ensures r.Ok? ==> rk == Slot(NewEpoch(old(rk), secret), 0) && keyEpoch in kdfchains
      ensures r.Ok? ==> kdfchains[keyEpoch] == FreshChains(NewEpoch(old(rk), secret), direction)
      ensures r.Err? ==> r.error == NonConsecutiveEpoch && View() == old(View())
    {
      hide OnSchedule, Windows;
      if epoch + 1 != keyEpoch {
        return Err(NonConsecutiveEpoch);
      }
      AddEpochOnSchedule(direction, sk, secrets, kdfchains, mkskipped, secret);
      var okm := NewEpoch(rk, secret);
      rk := Slot(okm, 0);
      var (sendCk, recvCk) := Assign(direction, Slot(okm, 1), Slot(okm, 2));
      kdfchains := kdfchains[keyEpoch := EpochChains(Some(SckaChain(sendCk, 0)), Some(SckaChain(recvCk, 0)))];
      epoch := keyEpoch;
      secrets := secrets + [secret];
      return Ok(());
    }

    method ClearOldEpochs(sendingEpoch: nat)
      requires Keyed()
      modifies this
      ensures Keyed() && View() == old(View()).Cleared(sendingEpoch)
    {
      hide OnSchedule, Windows;
      if sendingEpoch >= 2 {
        ClearOnSchedule(direction, sk, secrets, kdfchains, mkskipped, sendingEpoch - 2);
        kdfchains := kdfchains - {sendingEpoch - 2};
        mkskipped := mkskipped - {sendingEpoch - 2};
      }
    }

    method TrySkipped(e: nat, n: nat) returns (mk: Option<PqKey>)
      requires Keyed()
      modifies this
      ensures Keyed()
      ensures mk.Some? <==> e in old(View()).windows && n in old(View()).windows[e].skipped
      ensures mk.Some? ==> 1 <= n && (View(), Ok(mk.value)) == old(View()).Take(e, n)
      ensures mk.None? ==> View() == old(View())
    {
      hide OnSchedule, Windows;
      EpochOnSchedule(direction, sk, secrets, kdfchains, mkskipped, e);
      if e !in mkskipped || n !in mkskipped[e] {
        return None;
      }
      var inner: map<nat, PqKey> := mkskipped[e];
      mk := Some(inner[n]);
      inner := inner - {n};
      ReplaceOnSchedule(direction, sk, secrets, kdfchains, mkskipped, e, kdfchains[e], inner);
      mkskipped := if inner == map[] then mkskipped - {e} else mkskipped[e := inner];
      assert kdfchains[e := kdfchains[e]] == kdfchains;
    }

    /** Advance the receive chain of `e` to `until`, keeping every key passed. */
    method SkipChain(e: nat, until: nat)
      requires Keyed() && e in kdfchains && kdfchains[e].recv.Some? && kdfchains[e].recv.value.n < until
      modifies this
      ensures Keyed() && View() == old(View()).SkippedTo(e, until)
    {
      hide OnSchedule, Windows, WindowOf, Range, ChainKey, AllRight, Seed, Direction.Opposite, Model.SkippedTo,
           StoredOk, SckaChain.Follows, ChainOk, Key, EpochOkm;
      ReadyToSkip(direction, sk, secrets, kdfchains, mkskipped, e);
      ghost var seed := Seed(sk, secrets, e, direction.Opposite());
      var stored := if e in mkskipped then mkskipped[e] else map[];
      var chain, inner := DeriveAndStore(kdfchains[e].recv.value, until, stored, seed);
      SkipDone(View(), kdfchains, mkskipped, e, chain, inner);
      kdfchains := kdfchains[e := kdfchains[e].(recv := Some(chain))];
      mkskipped := mkskipped[e := inner];
    }

    /** Derive and store the keys up to `until`; the skip limit is per call. */
    method SkipMessageKeys(e: nat, until: nat) returns (r: Result<()>)
      requires Keyed()
      requires RecvRoom(View().windows)
      modifies this
      ensures Keyed()
      ensures r.Ok? <==> e !in old(View()).windows || until <= old(View()).windows[e].recv + MAX_SKIP
      ensures r.Ok? ==> View() == old(View()).SkippedTo(e, until)
      ensures r.Err? ==> View() == old(View()) && r.error == MaxSkipExceeded(until - View().windows[e].recv, MAX_SKIP)
    {
      hide OnSchedule, Windows, WindowOf, Range, Model.SkippedTo;
      EpochOnSchedule(direction, sk, secrets, kdfchains, mkskipped, e);
      SkippedToIs(View(), e, until);
      if e !in kdfchains || kdfchains[e].recv.None? {
        return Ok(());
      }
      var start := kdfchains[e].recv.value;
      if start.n + MAX_SKIP < until {
        return Err(MaxSkipExceeded(until - start.n, MAX_SKIP));
      }
      if start.n < until {
        SkipChain(e, until);
      }
      return Ok(());
    }

    /** Drop the previous epoch's send chain. */
    method RetireSendChain(sendingEpoch: nat)
      requires Keyed()
      modifies this
      ensures Keyed() && View() == old(View()).Retired(sendingEpoch)
    {
      hide OnSchedule, Windows, ChainKey, Seed;
      if sendingEpoch >= 1 && sendingEpoch - 1 in kdfchains {
        var c := kdfchains[sendingEpoch - 1].(send := None);
        EpochOnSchedule(direction, sk, secrets, kdfchains, mkskipped, sendingEpoch - 1);
        SendChainOnSchedule(direction, sk, secrets, kdfchains, mkskipped, sendingEpoch - 1, c);
        kdfchains := kdfchains[sendingEpoch - 1 := c];
      }
    }

    /** Advance the send chain of `e` and return the key of the new number. */
    method AdvanceSend(e: nat) returns (r: Result<(nat, PqKey)>)
      requires Keyed()
      requires SendRoom(View().windows)
      modifies this
      ensures Keyed()
      ensures r.Ok? <==> e in old(View()).windows && old(View()).windows[e].send.Some?
      ensures r.Ok? ==> e <= |secrets| && View() == old(View()).SentOn(e)
      ensures r.Ok? ==> r.value.0 == old(View()).windows[e].send.value + 1 && r.value.1 == Key(sk, secrets, e, direction, r.value.0)
      ensures r.Ok? ==> !Keeps(r.value.1)
      ensures r.Err? ==> r.error == NoSendChain && View() == old(View())
    {
      hide OnSchedule, Windows, ChainKey, Seed, Keeps;
      EpochOnSchedule(direction, sk, secrets, kdfchains, mkskipped, e);
      if e !in kdfchains || kdfchains[e].send.None? {
        return Err(NoSendChain);
      }
      AdvanceFollows(kdfchains[e].send.value, Seed(sk, secrets, e, direction));
      var (chain, n, mk) := kdfchains[e].send.value.Advance();
      var c := kdfchains[e].(send := Some(chain));
      SendChainOnSchedule(direction, sk, secrets, kdfchains, mkskipped, e, c);
      kdfchains := kdfchains[e := c];
      KeptOnlyInStore(e, direction, n);
      return Ok((n, mk));
    }

    /** The part of `SCKARatchetSendKey` before the send chain advances. */
    method PrepareSend(coins: Term) returns (r: Result<(Message, nat)>)
      requires Keyed() && braid.state.WellFormed()
      modifies this, braid
      ensures Keyed() && braid.state.WellFormed()
      ensures old(|secrets| == braid.state.Done()) ==> r.Ok?
      ensures r.Ok? ==> old(braid.state).Send(coins).Ok?
      ensures r.Ok? ==>
        var out := old(braid.state).Send(coins).value;
        r.value == (out.msg, old(braid.state).ep - 1) && View() == old(View()).Prepared(out, r.value.1)
      ensures r.Err? ==> r.error == NonConsecutiveEpoch
    {
      hide OnSchedule, Windows, EpochOkm, State.Send, State.WellFormed;
      SendStep(braid.state, coins);
      var sent := braid.Send(coins);
      var (msg, sendingEpoch, outputKey) := sent.value;
      if outputKey.Some? {
        var added := AddEpoch(outputKey.value.epoch, outputKey.value.secret);
        if added.Err? { return Err(added.error); }
        ClearOldEpochs(sendingEpoch);
      }
      RetireSendChain(sendingEpoch);
      return Ok((msg, sendingEpoch));
    }

    /**
     `SCKARatchetSendKey`. From every valid state it succeeds with the scheduled key and acts
     like the model, so neither error return can be taken.
     */
    method RatchetSendKey(coins: Term) returns (r: Result<(Message, nat, PqKey)>)
      requires Keyed() && braid.state.WellFormed()
      requires SendRoom(View().windows)
      modifies this, braid
      ensures Keyed() && braid.state.WellFormed()
      ensures old(View().Valid()) ==> r.Ok? && (View(), r.value.0, r.value.1, r.value.2) == old(View()).Send(coins)
      ensures r.Ok? ==> !Keeps(r.value.2)
      ensures r.Err? ==> r.error == NonConsecutiveEpoch || r.error == NoSendChain
    {
      hide OnSchedule, Windows, Key, EpochOkm, State.Send, State.WellFormed, SendRoom, Model.Prepared, Keeps;
      ghost var before := View();
      if before.Valid() { PreparedWindow(before, coins); }
      var prepared := PrepareSend(coins);
      if prepared.Err? { return Err(prepared.error); }
      var (msg, sendingEpoch) := prepared.value;
      var sent := AdvanceSend(sendingEpoch);
      if sent.Err? { return Err(sent.error); }
      return Ok((msg, sent.value.0, sent.value.1));
    }

    /** Skip the gap, then one trailing advance: the key of a number not yet passed. */
    method DeriveKey(e: nat, pqN: nat) returns (r: Result<PqKey>)
      requires Keyed() && RecvRoom(View().windows)
      requires e in View().windows ==> View().windows[e].recv < pqN
      modifies this
      ensures Keyed()
      ensures old(View()).Takable() && (View(), r) == old(View()).Take(e, pqN)
    {
      hide OnSchedule, Windows, Key, Range, Model.Take, Model.SkippedTo;
      ghost var before := View();
      TakableView();
      EpochOnSchedule(direction, sk, secrets, kdfchains, mkskipped, e);
      TakeIsSkipThenStep(before, e, pqN);
      var skipped := SkipMessageKeys(e, if pqN >= 1 then pqN - 1 else 0);
      if skipped.Err? { return Err(skipped.error); }
      EpochOnSchedule(direction, sk, secrets, kdfchains, mkskipped, e);
      if e !in kdfchains || kdfchains[e].recv.None? {
        return Err(NoRecvChain);
      }
      RecvChainOnSchedule(direction, sk, secrets, kdfchains, mkskipped, e);
      var (chain, n, mk) := kdfchains[e].recv.value.Advance();
      kdfchains := kdfchains[e := kdfchains[e].(recv := Some(chain))];
      return if n != pqN then Err(CounterMismatch) else Ok(mk);
    }

    /** The part of `SCKARatchetReceiveKey` after the braid step. */
    method TakeKey(e: nat, pqN: nat) returns (r: Result<PqKey>)
      requires Keyed() && RecvRoom(View().windows)
      modifies this
      ensures Keyed()
      ensures old(View()).Takable() && (View(), r) == old(View()).Take(e, pqN)
      ensures r.Ok? ==> !Keeps(r.value)
    {
      hide OnSchedule, Windows, Key, Range, Keeps;
      TakableView();
      ghost var before := View();
      var stored := TrySkipped(e, pqN);
      if stored.Some? {
        TakenGone(before, e, pqN);
        return Ok(stored.value);
      }
      EpochOnSchedule(direction, sk, secrets, kdfchains, mkskipped, e);
      if e in kdfchains && kdfchains[e].recv.Some? && pqN <= kdfchains[e].recv.value.n {
        return Err(Replay);
      }
      r := DeriveKey(e, pqN);
      if r.Ok? { TakenGone(before, e, pqN); }
    }

    /** A key taken from the receiving side is nowhere in the state that is left. */
    lemma TakenGone(before: Model, e: nat, n: nat)
      requires Keyed() && before.Takable() && before.Take(e, n).1.Ok? && View() == before.Take(e, n).0
      ensures !Keeps(before.Take(e, n).1.value)
    {
      hide OnSchedule, Range, Key, Keeps;
      TakenNotStored(before, e, n);
      EpochOnSchedule(direction, sk, secrets, kdfchains, mkskipped, e);
      KeptOnlyInStore(e, direction.Opposite(), n);
    }

    lemma TakableView()
      requires Keyed()
      ensures View().Takable()
    {
    }

    /** The braid step of `SCKARatchetReceiveKey`; an error of the braid changes nothing. */
    method PrepareReceive(msg: Message) returns (r: Result<nat>)
      requires Keyed() && braid.state.WellFormed()
      modifies this, braid
      ensures Keyed() && braid.state.WellFormed()
      ensures RecvRoom(old(View()).windows) ==> RecvRoom(View().windows)
      ensures old(|secrets| == braid.state.Done()) ==> r.Ok? == old(braid.state).Receive(msg).Ok?
      ensures r.Ok? ==> old(braid.state).Receive(msg).Ok?
      ensures r.Ok? ==>
        var out := old(braid.state).Receive(msg).value;
        r.value == ReceivingEpoch(msg) && View() == old(View()).(braid := out.next).WithEpoch(out.secret)
      ensures old(braid.state).Receive(msg).Err? ==> View() == old(View()) && r == Err(old(braid.state).Receive(msg).error)
      ensures r.Err? ==> r.error != CounterMismatch
    {
      hide OnSchedule, Windows, EpochOkm, State.Receive, State.WellFormed, RecvRoom;
      ReceiveStep(braid.state, msg);
      ReceiveErrors(braid.state, msg);
      var received := braid.Receive(msg);
      if received.Err? { return Err(received.error); }
      var (receivingEpoch, outputKey) := received.value;
      if outputKey.Some? {
        var added := AddEpoch(outputKey.value.epoch, outputKey.value.secret);
        if added.Err? { return Err(added.error); }
      }
      return Ok(receivingEpoch);
    }

    /**
     `SCKARatchetReceiveKey`. It acts like the model and always leaves the key material on
     schedule, also when it returns an error; the counter check at the end never fails.
     */
    method RatchetReceiveKey(msg: Message, pqN: nat) returns (r: Result<PqKey>)
      requires Keyed() && braid.state.WellFormed()
      requires RecvRoom(View().windows)
      modifies this, braid
      ensures Keyed() && braid.state.WellFormed()
      ensures old(View().Valid()) ==> (View(), r) == old(View()).Receive(msg, pqN)
      ensures r.Ok? ==> !Keeps(r.value)
      ensures r.Err? ==> r.error != CounterMismatch
    {
      hide OnSchedule, Windows, EpochOkm, State.Receive, State.WellFormed, RecvRoom, Key, Range, Model.WithEpoch, Keeps;
      var prepared := PrepareReceive(msg);
      if prepared.Err? { return Err(prepared.error); }
      r := TakeKey(prepared.value, pqN);
    }
  }

  // ---- model facts ------------------------------------------------------------------------

  lemma TakenNotStored(m: Model, e: nat, n: nat)
    requires m.Takable() && m.Take(e, n).1.Ok?
    ensures var m' := m.Take(e, n).0;
      && e in m'.windows && n !in m'.windows[e].skipped && e <= |m.secrets| && n >= 1 && m'.secrets == m.secrets && m'.sk == m.sk
      && m.Take(e, n).1.value == Key(m.sk, m.secrets, e, m.dir.Opposite(), n) && m'.dir == m.dir
  {
    hide Range, Key;
  }

  lemma PreparedWindow(m: Model, coins: Term)
    requires m.Valid()
    ensures m.braid.Send(coins).Ok?
    ensures var s := m.braid.ep - 1; var p := m.Prepared(m.braid.Send(coins).value, s);
      && s in p.windows && p.windows[s].send.Some?
      && (SendRoom(m.windows) ==> p.windows[s].send.value < U32_MAX)
  {
    SendStep(m.braid, coins);
  }
}
