/**
 One SPQR party over any sequence of sends and receives, with arbitrary incoming braid
 messages and counters. No caller discipline is assumed: an error return leaves whatever
 the call had already changed.
 */
module SpqrRuns {
  import opened Common
  import opened Symbolic
  import opened Erasure
  import opened BraidMachine
  import opened Spqr

  datatype Op = SendOp(coins: Term) | ReceiveOp(msg: Message, n: nat)

  /** The party, the numbers it has returned keys for, and its last sending epoch. */
  datatype Trail = Trail(m: Model, accepted: Log, last: nat)

  // ---- one step, on windows alone -----------------------------------------------------------

  /** Windows after a send in epoch s that emits the secret of epoch s + 1 or none. */
  function WindowsSent(ws: map<nat, Window>, s: nat, emits: bool): map<nat, Window>
  {
    var a := if emits then ws[s + 1 := FRESH] else ws;
    var b := if emits && s >= 2 then a - {s - 2} else a;
    var c := if s >= 1 && s - 1 in b then b[s - 1 := b[s - 1].(send := None)] else b;
    if s in c && c[s].send.Some? then c[s := c[s].(send := Some(c[s].send.value + 1))] else c
  }

  lemma WindowsSentAt(ws: map<nat, Window>, s: nat, emits: bool)
    ensures var r := WindowsSent(ws, s, emits);
      && (forall e :: e in r <==> (e in ws || (emits && e == s + 1)) && !(emits && e + 2 == s))
      && (forall e :: e in r ==> var w := if emits && e == s + 1 then FRESH else ws[e];
           r[e].recv == w.recv && r[e].skipped == w.skipped && (r[e].send.Some? <==> w.send.Some? && e + 1 != s))
  {
  }

  lemma SendShape(m: Model, coins: Term)
    requires m.Valid()
    ensures var (m', emits) := (m.Send(coins).0, m.braid.HeaderReceived?);
      && m'.dir == m.dir && m'.sk == m.sk
      && m'.braid == m.braid.Send(coins).value.next
      && (emits ==> |m.secrets| == m.braid.ep - 1)
      && |m'.secrets| == |m.secrets| + (if emits then 1 else 0) && m.secrets <= m'.secrets
      && m'.windows == WindowsSent(m.windows, m.braid.ep - 1, emits)
  {
    hide State.Send, EpochOkm, MessageKey, Model.Takable, DecoderState.Sized;
    SendStep(m.braid, coins);
  }

  lemma SendValid(m: Model, coins: Term)
    requires m.Valid()
    ensures m.Send(coins).0.Valid()
  {
    hide State.Send, Model.Send, WindowsSent, DecoderState.Sized;
    SendShape(m, coins);
    SendStep(m.braid, coins);
    WindowsSentAt(m.windows, m.braid.ep - 1, m.braid.HeaderReceived?);
  }

  /** The braid half of a receive. */
  function Braided(m: Model, msg: Message): Model
    requires m.Valid() && m.braid.Receive(msg).Ok?
  {
    var r := m.braid.Receive(msg).value;
    m.(braid := r.next).WithEpoch(r.secret)
  }

  lemma BraidedValid(m: Model, msg: Message)
    requires m.Valid() && m.braid.Receive(msg).Ok?
    ensures Braided(m, msg).Valid()
  {
    hide State.Receive, DecoderState.Sized;
    ReceiveStep(m.braid, msg);
  }

  lemma TakeValid(m: Model, e: nat, n: nat)
    requires m.Valid()
    ensures m.Take(e, n).0.Valid()
  {
    hide State.WellFormed, Range, Key;
  }

  lemma ReceiveValid(m: Model, msg: Message, n: nat)
    requires m.Valid()
    ensures m.Receive(msg, n).0.Valid()
    ensures m.braid.Receive(msg).Ok? ==> Braided(m, msg).Valid() && m.Receive(msg, n) == Braided(m, msg).Take(ReceivingEpoch(msg), n)
  {
    hide State.Receive, Model.Take;
    if m.braid.Receive(msg).Ok? {
      BraidedValid(m, msg);
      TakeValid(Braided(m, msg), ReceivingEpoch(msg), n);
      hide Model.Valid;
    }
  }

  // ---- runs -------------------------------------------------------------------------------

  function Step(t: Trail, op: Op): (t': Trail)
    requires t.m.Valid()
    ensures t'.m.Valid()
  {
    match op
    case SendOp(coins) =>
      SendValid(t.m, coins);
      Trail(t.m.Send(coins).0, t.accepted, t.m.braid.ep - 1)
    case ReceiveOp(msg, n) =>
      ReceiveValid(t.m, msg, n);
      var (m', r) := t.m.Receive(msg, n);
      Trail(m', if r.Ok? then Add(t.accepted, ReceivingEpoch(msg), n) else t.accepted, t.last)
  }

  function Run(sk: Term, dir: Direction, ops: seq<Op>): (t: Trail)
    ensures t.m.Valid()
  {
    if ops == [] then Trail(Initial(sk, dir), map[], 0)
    else Step(Run(sk, dir, ops[..|ops| - 1]), ops[|ops| - 1])
  }

  // ---- invariant --------------------------------------------------------------------------

  function PartyOf(dir: Direction): Party { if dir == A2B then Alice else Bob }

  /** Epochs whose secret this party emits while sending: those where it encapsulates. */
  predicate EmitsOnSend(dir: Direction, e: nat) { Owner(e) != PartyOf(dir) }

  predicate Pruned(dir: Direction, x: nat, total: nat) { x + 3 <= total && EmitsOnSend(dir, x + 3) }

  predicate RoleOk(braid: State, dir: Direction)
    requires !braid.Poisoned?
  {
    braid.IsOwner() <==> Owner(braid.ep) == PartyOf(dir)
  }

  /** Epochs still held: all so far except e - 3 for every e this party emitted while sending. */
  ghost predicate Retention(ws: map<nat, Window>, dir: Direction, total: nat)
  {
    forall x: nat :: x in ws <==> x <= total && !Pruned(dir, x, total)
  }

  /** No braid epoch is passed without sending in it. */
  predicate SentIn(braid: State, last: nat)
    requires !braid.Poisoned?
  {
    last + 1 == braid.ep || (last + 2 == braid.ep && Unsent(braid))
  }

  predicate Disposal(ws: map<nat, Window>, last: nat)
  {
    forall x :: x in ws ==> (ws[x].send.Some? <==> x >= last)
  }

  /**
   Every number derived so far was either returned or is still stored; the last one was
   returned, and each return advanced by at most MAX_SKIP + 1.
   */
  ghost predicate Conserved(recv: nat, skipped: set<nat>, got: set<nat>)
  {
    && got !! skipped && (forall n: nat :: n in got || n in skipped <==> 1 <= n <= recv)
    && (recv > 0 ==> recv in got) && recv <= (MAX_SKIP + 1) * |got|
  }

  ghost predicate Conservation(ws: map<nat, Window>, total: nat, accepted: Log)
  {
    && (forall e :: e in ws ==> Conserved(ws[e].recv, ws[e].skipped, Got(accepted, e)))
    && (forall e :: e in accepted ==> e <= total)
  }

  ghost predicate Inv(t: Trail)
  {
    && t.m.Valid() && RoleOk(t.m.braid, t.m.dir) && SentIn(t.m.braid, t.last)
    && Retention(t.m.windows, t.m.dir, |t.m.secrets|)
    && Disposal(t.m.windows, t.last)
    && Conservation(t.m.windows, |t.m.secrets|, t.accepted)
  }

  lemma SendBooks(ws: map<nat, Window>, dir: Direction, total: nat, s: nat, emits: bool, last: nat, accepted: Log)
    requires Retention(ws, dir, total) && Disposal(ws, last) && Conservation(ws, total, accepted)
    requires last <= s <= last + 1
    requires emits ==> total == s && EmitsOnSend(dir, s + 1)
    ensures var (ws', total') := (WindowsSent(ws, s, emits), total + if emits then 1 else 0);
      Retention(ws', dir, total') && Disposal(ws', s) && Conservation(ws', total', accepted)
  {
    WindowsSentAt(ws, s, emits);
    hide WindowsSent;
    assert Conserved(0, {}, {});
    hide Conserved;
  }

  lemma SendInv(t: Trail, coins: Term)
    requires Inv(t)
    ensures Inv(Step(t, SendOp(coins)))
  {
    hide State.Send, WindowsSent, Retention, Disposal, Conservation, Model.Send, DecoderState.Sized;
    SendStep(t.m.braid, coins);
    SendValid(t.m, coins);
    SendShape(t.m, coins);
    hide Model.Takable;
    SendBooks(t.m.windows, t.m.dir, |t.m.secrets|, t.m.braid.ep - 1, t.m.braid.HeaderReceived?, t.last, t.accepted);
  }

  lemma EpochBooks(ws: map<nat, Window>, dir: Direction, total: nat, last: nat, accepted: Log)
    requires Retention(ws, dir, total) && Disposal(ws, last) && Conservation(ws, total, accepted)
    requires last <= total && !EmitsOnSend(dir, total + 1)
    ensures var ws' := ws[total + 1 := FRESH];
      Retention(ws', dir, total + 1) && Disposal(ws', last) && Conservation(ws', total + 1, accepted)
  {
  }

  lemma BraidedRole(m: Model, msg: Message, last: nat)
    requires m.Valid() && m.braid.Receive(msg).Ok? && RoleOk(m.braid, m.dir) && SentIn(m.braid, last)
    ensures var r := m.braid.Receive(msg).value;
      && r.next.WellFormed() && RoleOk(r.next, m.dir) && SentIn(r.next, last)
      && (r.secret.Some? ==> last <= |m.secrets| && !EmitsOnSend(m.dir, |m.secrets| + 1))
  {
    hide State.Receive, DecoderState.Sized, Model.Takable;
    ReceiveStep(m.braid, msg);
    ReceiveMoves(m.braid, msg);
  }

  lemma BraidedInv(t: Trail, msg: Message)
    requires Inv(t) && t.m.braid.Receive(msg).Ok?
    ensures Inv(t.(m := Braided(t.m, msg)))
  {
    hide State.Receive, State.WellFormed, Retention, Disposal, Conservation, RoleOk, SentIn, EmitsOnSend,
         Model.Takable, Braided;
    BraidedRole(t.m, msg, t.last);
    BraidedValid(t.m, msg);
    BraidedShape(t.m, msg);
    hide Model.Valid;
    if t.m.braid.Receive(msg).value.secret.Some? {
      EpochBooks(t.m.windows, t.m.dir, |t.m.secrets|, t.last, t.accepted);
    }
  }

  lemma BraidedShape(m: Model, msg: Message)
    requires m.Valid() && m.braid.Receive(msg).Ok?
    ensures var (r, m') := (m.braid.Receive(msg).value, Braided(m, msg));
      && m'.braid == r.next && m'.dir == m.dir
      && |m'.secrets| == |m.secrets| + (if r.secret.Some? then 1 else 0)
      && m'.windows == if r.secret.Some? then m.windows[|m.secrets| + 1 := FRESH] else m.windows
  {
    hide State.Receive;
  }

  /** Returning number n of one epoch's window: a stored one, or one further on. */
  lemma TakeStored(recv: nat, skipped: set<nat>, n: nat, got: set<nat>)
    requires Conserved(recv, skipped, got) && n in skipped
    ensures Conserved(recv, skipped - {n}, got + {n})
  {
    assert n !in got && |got + {n}| == |got| + 1;
  }

  lemma TakeAhead(recv: nat, skipped: set<nat>, n: nat, got: set<nat>, gap: set<nat>)
    requires Conserved(recv, skipped, got) && recv < n <= recv + MAX_SKIP + 1
    requires forall k: nat :: k in gap <==> recv + 1 <= k < n
    ensures Conserved(n, skipped + gap, got + {n})
  {
    assert n !in got && |got + {n}| == |got| + 1;
    forall k | k in gap ensures k !in got && k != n { }
  }

  lemma ReplaceBooks(ws: map<nat, Window>, dir: Direction, total: nat, last: nat, accepted: Log, e: nat, w: Window, n: nat)
    requires Retention(ws, dir, total) && Disposal(ws, last) && Conservation(ws, total, accepted)
    requires e in ws && w.send == ws[e].send && Conserved(w.recv, w.skipped, Got(accepted, e) + {n})
    ensures var ws' := ws[e := w];
      Retention(ws', dir, total) && Disposal(ws', last) && Conservation(ws', total, Add(accepted, e, n))
  {
    hide Pruned, Conserved;
  }

  function Taken(w: Window, n: nat): Window
  {
    if n in w.skipped then w.(skipped := w.skipped - {n}) else Window(w.send, n, w.skipped + Range(w.recv + 1, n))
  }

  lemma TakeShape(m: Model, e: nat, n: nat)
    requires m.Takable()
    ensures var (m', r) := m.Take(e, n);
      if r.Ok? then
        && e in m.windows && m' == m.(windows := m.windows[e := Taken(m.windows[e], n)])
        && (n in m.windows[e].skipped || m.windows[e].recv < n <= m.windows[e].recv + MAX_SKIP + 1)
      else m' == m
  {
    hide Range, Key;
  }

  lemma TakeBooks(t: Trail, e: nat, n: nat)
    requires Inv(t)
    ensures var (m', r) := t.m.Take(e, n);
      Inv(Trail(m', if r.Ok? then Add(t.accepted, e, n) else t.accepted, t.last))
  {
    hide Model.Take, Retention, Disposal, Conserved, Conservation, State.WellFormed, Model.Takable, RoleOk, SentIn, Add, Got, Taken;
    TakeShape(t.m, e, n);
    TakeValid(t.m, e, n);
    if t.m.Take(e, n).1.Ok? {
      InvConserved(t, e);
      TakenConserved(t.m.windows[e], n, Got(t.accepted, e));
      ReplaceBooks(t.m.windows, t.m.dir, |t.m.secrets|, t.last, t.accepted, e, Taken(t.m.windows[e], n), n);
    }
  }

  lemma TakenConserved(w: Window, n: nat, got: set<nat>)
    requires Conserved(w.recv, w.skipped, got) && (n in w.skipped || w.recv < n <= w.recv + MAX_SKIP + 1)
    ensures var w' := Taken(w, n); w'.send == w.send && Conserved(w'.recv, w'.skipped, got + {n})
  {
    hide Conserved, Range;
    if n in w.skipped { TakeStored(w.recv, w.skipped, n, got); }
    else { TakeAhead(w.recv, w.skipped, n, got, Range(w.recv + 1, n)); }
  }

  lemma ReceiveInv(t: Trail, msg: Message, n: nat)
    requires Inv(t)
    ensures Inv(Step(t, ReceiveOp(msg, n)))
  {
    hide State.Receive, State.WellFormed, Model.Take;
    ReceiveValid(t.m, msg, n);
    if t.m.braid.Receive(msg).Ok? {
      BraidedInv(t, msg);
      TakeBooks(t.(m := Braided(t.m, msg)), ReceivingEpoch(msg), n);
      hide Inv, Model.Valid, Braided;
    }
  }

  lemma StepFixed(t: Trail, op: Op)
    requires Inv(t)
    ensures t.m.Valid() && Step(t, op).m.sk == t.m.sk && Step(t, op).m.dir == t.m.dir
  {
    hide State.Send, State.Receive, Model.Send, Model.Take, WindowsSent, DecoderState.Sized;
    match op
    case SendOp(coins) => SendShape(t.m, coins);
    case ReceiveOp(msg, n) =>
      ReceiveValid(t.m, msg, n);
      if t.m.braid.Receive(msg).Ok? { TakeShape(Braided(t.m, msg), ReceivingEpoch(msg), n); }
  }

  lemma StepInv(t: Trail, op: Op)
    requires Inv(t)
    ensures Inv(Step(t, op)) && Step(t, op).m.sk == t.m.sk && Step(t, op).m.dir == t.m.dir
  {
    hide Inv, Step;
    StepFixed(t, op);
    match op
    case SendOp(coins) => SendInv(t, coins);
    case ReceiveOp(msg, n) => ReceiveInv(t, msg, n);
  }

  lemma {:induction false} RunInv(sk: Term, dir: Direction, ops: seq<Op>)
    ensures Inv(Run(sk, dir, ops))
    ensures Run(sk, dir, ops).m.sk == sk && Run(sk, dir, ops).m.dir == dir
  {
    if ops != [] {
      hide Inv, Step;
      RunInv(sk, dir, ops[..|ops| - 1]);
      StepInv(Run(sk, dir, ops[..|ops| - 1]), ops[|ops| - 1]);
    }
  }

  // ---- retention ----------------------------------------------------------------------------

  /**
   Exactly which epochs are held after any run; in particular the last sending epoch, the
   one before it and everything newer.
   */
  lemma RetentionExact(sk: Term, dir: Direction, ops: seq<Op>)
    ensures var t := Run(sk, dir, ops);
      && (forall x: nat :: x in t.m.windows <==> x <= |t.m.secrets| && !Pruned(dir, x, |t.m.secrets|))
      && (forall x: nat :: t.last <= x + 1 && x <= |t.m.secrets| ==> x in t.m.windows)
  {
    RunInv(sk, dir, ops);
    hide Run, State.WellFormed, Conservation, Disposal;
  }

  lemma RunStep(sk: Term, dir: Direction, ops: seq<Op>, op: Op)
    ensures Run(sk, dir, ops + [op]) == Step(Run(sk, dir, ops), op)
  {
    hide Step, Model.Valid;
    assert (ops + [op])[..|ops + [op]| - 1] == ops;
  }

  lemma {:induction false} RunGrows(sk: Term, dir: Direction, ops: seq<Op>, more: seq<Op>)
    ensures |Run(sk, dir, ops).m.secrets| <= |Run(sk, dir, ops + more).m.secrets|
  {
    hide Step, Model.Valid, Run;
    if more == [] {
      assert ops + more == ops;
    } else {
      var init, op := more[..|more| - 1], more[|more| - 1];
      assert ops + more == ops + init + [op];
      RunGrows(sk, dir, ops, init);
      RunStep(sk, dir, ops + init, op);
      StepGrows(Run(sk, dir, ops + init), op);
    }
  }

  lemma StepGrows(t: Trail, op: Op)
    requires t.m.Valid()
    ensures |t.m.secrets| <= |Step(t, op).m.secrets|
  {
    hide State.Send, State.Receive, Model.Send, WindowsSent, Model.Take;
    match op
    case SendOp(coins) => SendShape(t.m, coins);
    case ReceiveOp(msg, n) =>
      ReceiveValid(t.m, msg, n);
      if t.m.braid.Receive(msg).Ok? {
        TakeShape(Braided(t.m, msg), ReceivingEpoch(msg), n);
      }
  }

  /** An epoch once dropped is never held again. */
  lemma DroppedForGood(sk: Term, dir: Direction, ops: seq<Op>, more: seq<Op>, x: nat)
    requires x <= |Run(sk, dir, ops).m.secrets| && x !in Run(sk, dir, ops).m.windows
    ensures x !in Run(sk, dir, ops + more).m.windows
  {
    RetentionExact(sk, dir, ops);
    RetentionExact(sk, dir, ops + more);
    RunGrows(sk, dir, ops, more);
    hide Run;
  }

  /** The epochs held once `total` secrets are in. */
  function Held(dir: Direction, total: nat): set<nat>
  {
    if total == 0 then {0}
    else Held(dir, total - 1) + {total} - (if total >= 3 && EmitsOnSend(dir, total) then {total - 3} else {})
  }

  lemma {:induction false} HeldMembers(dir: Direction, total: nat)
    ensures forall x: nat :: x in Held(dir, total) <==> x <= total && !Pruned(dir, x, total)
  {
    if total > 0 { HeldMembers(dir, total - 1); }
  }

  function HeldSize(dir: Direction, total: nat): nat
  {
    if total < 2 then total + 1 else if dir == A2B then (total + 5) / 2 else (total + 4) / 2
  }

  lemma HeldSizeStep(dir: Direction, total: nat)
    requires total > 0
    ensures HeldSize(dir, total) == HeldSize(dir, total - 1) + if total >= 3 && EmitsOnSend(dir, total) then 0 else 1
  {
  }

  lemma {:induction false} HeldCount(dir: Direction, total: nat)
    ensures |Held(dir, total)| == HeldSize(dir, total)
  {
    hide HeldSize, Held, EmitsOnSend;
    if total == 0 {
      HeldNone(dir);
    } else {
      HeldCount(dir, total - 1);
      HeldSizeStep(dir, total);
      HeldRecent(dir, total);
      GrownCount(dir, total);
    }
  }

  lemma HeldNone(dir: Direction)
    ensures |Held(dir, 0)| == HeldSize(dir, 0)
  {
  }

  lemma HeldRecent(dir: Direction, total: nat)
    requires total > 0
    ensures total !in Held(dir, total - 1) && (total >= 3 && EmitsOnSend(dir, total) ==> total - 3 in Held(dir, total - 1))
  {
    hide Held, Owner;
    HeldMembers(dir, total - 1);
    assert total >= 3 ==> !Pruned(dir, total - 3, total - 1);
  }

  lemma GrownCount(dir: Direction, total: nat)
    requires total > 0 && total !in Held(dir, total - 1) && (total >= 3 && EmitsOnSend(dir, total) ==> total - 3 in Held(dir, total - 1))
    ensures |Held(dir, total)| == |Held(dir, total - 1)| + if total >= 3 && EmitsOnSend(dir, total) then 0 else 1
  {
    hide EmitsOnSend;
    var grown := Held(dir, total - 1) + {total};
    if total >= 3 && EmitsOnSend(dir, total) { assert total - 3 in grown; }
  }

  /**
   The number of epochs held stays within k exactly while few enough epochs have completed:
   about half of all epochs are kept for good, so no bound holds over all runs.
   */
  lemma HeldBoundedIff(sk: Term, dir: Direction, ops: seq<Op>, k: nat)
    requires k >= 3
    ensures var m := Run(sk, dir, ops).m;
      |m.windows| <= k <==> |m.secrets| <= 2 * k - (if dir == A2B then 4 else 3)
  {
    RunInv(sk, dir, ops);
    var m := Run(sk, dir, ops).m;
    hide Run, Retention, Held;
    WindowsHeld(m.windows, dir, |m.secrets|);
    HeldCount(dir, |m.secrets|);
  }

  lemma WindowsHeld(ws: map<nat, Window>, dir: Direction, total: nat)
    requires Retention(ws, dir, total)
    ensures |ws| == |Held(dir, total)|
  {
    HeldMembers(dir, total);
    hide Held, Pruned;
    assert ws.Keys == Held(dir, total);
    assert |ws| == |ws.Keys|;
  }

  /** A held epoch keeps its send chain exactly from the last sending epoch on. */
  lemma SendChainsHeld(sk: Term, dir: Direction, ops: seq<Op>)
    ensures var t := Run(sk, dir, ops);
      && (t.last + 1 == t.m.braid.ep || t.last + 2 == t.m.braid.ep)
      && (forall x :: x in t.m.windows ==> (t.m.windows[x].send.Some? <==> t.last <= x))
  {
    RunInv(sk, dir, ops);
    hide Run, State.WellFormed, Conservation, Retention;
  }

  // ---- acceptance ---------------------------------------------------------------------------

  /** The highest number returned is h, or none was and h is 0. */
  ghost predicate Highest(got: set<nat>, h: nat)
  {
    (forall n :: n in got ==> n <= h) && (h == 0 || h in got)
  }

  /**
   Stored and returned numbers of a held epoch partition 1 .. recv, and recv is the highest
   number returned so far. The skip limit is per call, so the store is bounded by MAX_SKIP
   for each number returned.
   */
  lemma KeysConserved(sk: Term, dir: Direction, ops: seq<Op>, e: nat)
    requires e in Run(sk, dir, ops).m.windows
    ensures var t := Run(sk, dir, ops);
      var (w, got) := (t.m.windows[e], Got(t.accepted, e));
      && got !! w.skipped && got + w.skipped == Range(1, w.recv + 1)
      && |got| + |w.skipped| == w.recv && |w.skipped| <= MAX_SKIP * |got|
      && Highest(got, w.recv)
  {
    hide Run, Inv, Conserved, Highest, Range;
    RunInv(sk, dir, ops);
    var t := Run(sk, dir, ops);
    InvConserved(t, e);
    ConservedCounts(t.m.windows[e].recv, t.m.windows[e].skipped, Got(t.accepted, e));
  }

  lemma InvConserved(t: Trail, e: nat)
    requires Inv(t) && e in t.m.windows
    ensures Conserved(t.m.windows[e].recv, t.m.windows[e].skipped, Got(t.accepted, e))
  {
    hide Model.Valid, Conserved, Got;
  }

  lemma ConservedCounts(recv: nat, skipped: set<nat>, got: set<nat>)
    requires Conserved(recv, skipped, got)
    ensures got !! skipped && got + skipped == Range(1, recv + 1) && |got| + |skipped| == recv && Highest(got, recv)
    ensures |skipped| <= MAX_SKIP * |got|
  {
    assert got + skipped == Range(1, recv + 1);
    hide Range;
    assert |got + skipped| == |got| + |skipped|;
  }

  /** What a receive of number n of epoch e has to return, given the numbers returned before. */
  function Verdict(sk: Term, dir: Direction, secrets: seq<Term>, got: set<nat>, h: nat, e: nat, n: nat): Result<PqKey>
  {
    if e > |secrets| || Pruned(dir, e, |secrets|) then Err(NoRecvChain)
    else if n == 0 || n in got then Err(Replay)
    else if n > h + MAX_SKIP + 1 then Err(MaxSkipExceeded(n - 1 - h, MAX_SKIP))
    else Ok(Key(sk, secrets, e, dir.Opposite(), n))
  }

  /**
   When a receive returns a key, in terms of the history alone: the epoch is known and not
   dropped, the number is new, and it is at most MAX_SKIP beyond the next one expected. The
   key returned is then the schedule's.
   */
  lemma AcceptedExactly(sk: Term, dir: Direction, ops: seq<Op>, msg: Message, n: nat, h: nat)
    requires Run(sk, dir, ops).m.braid.Receive(msg).Ok?
    requires Highest(Got(Run(sk, dir, ops).accepted, ReceivingEpoch(msg)), h)
    ensures var t := Run(sk, dir, ops);
      var (e, m) := (ReceivingEpoch(msg), Braided(t.m, msg));
      var r := t.m.Receive(msg, n).1;
      r == Verdict(sk, dir, m.secrets, Got(t.accepted, e), h, e, n)
  {
    var t := Run(sk, dir, ops);
    var e := ReceivingEpoch(msg);
    RunInv(sk, dir, ops);
    BraidedInv(t, msg);
    ReceiveValid(t.m, msg, n);
    hide Run, Inv, Braided, Model.Receive, State.Receive;
    TakeExactly(t.(m := Braided(t.m, msg)), e, n, h);
    BraidedFixed(t.m, msg);
  }

  lemma BraidedFixed(m: Model, msg: Message)
    requires m.Valid() && m.braid.Receive(msg).Ok?
    ensures Braided(m, msg).sk == m.sk && Braided(m, msg).dir == m.dir
  {
    hide State.Receive;
  }

  /** A receive only ever returns a key of the peer's direction. */
  lemma ReceivesPeersKey(m: Model, msg: Message, n: nat)
    requires m.Valid() && m.Receive(msg, n).1.Ok?
    ensures m.braid.Receive(msg).Ok?
    ensures var (e, secrets) := (ReceivingEpoch(msg), Braided(m, msg).secrets);
      e <= |secrets| && n >= 1 && m.Receive(msg, n).1.value == Key(m.sk, secrets, e, m.dir.Opposite(), n)
  {
    hide State.Receive, Model.Take, Key, State.WellFormed;
    ReceiveValid(m, msg, n);
    BraidedFixed(m, msg);
    TakenNotStored(Braided(m, msg), ReceivingEpoch(msg), n);
  }

  lemma TakeExactly(t: Trail, e: nat, n: nat, h: nat)
    requires Inv(t) && Highest(Got(t.accepted, e), h)
    ensures t.m.Take(e, n).1 == Verdict(t.m.sk, t.m.dir, t.m.secrets, Got(t.accepted, e), h, e, n)
  {
    hide Range, Key, Pruned, State.WellFormed, SentIn, RoleOk, Disposal;
    if e in t.m.windows {
      var w := t.m.windows[e];
      assert Conserved(w.recv, w.skipped, Got(t.accepted, e));
      assert w.recv == h;
    }
  }

  /** A key is returned at most once, whatever happens in between and whatever the braid says. */
  lemma AtMostOnce(sk: Term, dir: Direction, ops: seq<Op>, msg: Message, n: nat)
    requires n in Got(Run(sk, dir, ops).accepted, ReceivingEpoch(msg))
    ensures Run(sk, dir, ops).m.Receive(msg, n).1.Err?
  {
    var t := Run(sk, dir, ops);
    if t.m.braid.Receive(msg).Ok? {
      var got := Got(t.accepted, ReceivingEpoch(msg));
      var h := HighestOf(got);
      AcceptedExactly(sk, dir, ops, msg, n, h);
    }
  }

  lemma {:induction false} HighestOf(got: set<nat>) returns (h: nat)
    ensures Highest(got, h)
    decreases |got|
  {
    if got == {} { return 0; }
    var n :| n in got;
    var k := HighestOf(got - {n});
    assert got == got - {n} + {n};
    h := if n > k then n else k;
  }

  /**
   After any run, errors included, a send cannot fail and a receive fails only as the braid
   does or for a missing, repeated or too distant number: no epoch is out of order, no
   sending chain is missing, no counter disagrees and the braid is never poisoned.
   */
  lemma OnlyTheseErrors(sk: Term, dir: Direction, ops: seq<Op>, msg: Message, n: nat)
    ensures var r := Run(sk, dir, ops).m.Receive(msg, n).1;
      r.Ok? || r.error.NoRecvChain? || r.error.Replay? || r.error.MaxSkipExceeded?
      || r.error in {EmptyMessage, CodecUnsupported, CodewordLength, CodewordIndex, MissingCodeword, KeyMismatch, BadLength}
  {
    var t := Run(sk, dir, ops);
    if t.m.braid.Receive(msg).Ok? {
      var h := HighestOf(Got(t.accepted, ReceivingEpoch(msg)));
      AcceptedExactly(sk, dir, ops, msg, n, h);
    } else {
      ReceiveErrors(t.m.braid, msg);
    }
  }

  // ---- what a step does to the braid and the secrets -------------------------------------------

  function Logged(secrets: seq<Term>, secret: Option<EpochSecret>): seq<Term>
  {
    if secret.Some? then secrets + [secret.value.secret] else secrets
  }

  lemma SendBraid(m: Model, coins: Term)
    requires m.Valid()
    ensures m.braid.Send(coins).Ok?
    ensures var (out, (m', msg, _, _)) := (m.braid.Send(coins).value, m.Send(coins));
      m'.braid == out.next && m'.secrets == Logged(m.secrets, out.secret) && msg == out.msg
  {
    hide State.Send, EpochOkm, MessageKey, Model.Takable, DecoderState.Sized;
    SendStep(m.braid, coins);
  }

  lemma SendLogs(t: Trail, coins: Term)
    requires t.m.Valid()
    ensures t.m.braid.Send(coins).Ok?
    ensures var out := t.m.braid.Send(coins).value;
      var t' := Step(t, SendOp(coins));
      && t'.m.braid == out.next && t'.m.secrets == Logged(t.m.secrets, out.secret)
      && t.m.Send(coins).1 == out.msg && t'.accepted == t.accepted
  {
    hide State.Send, Model.Send, Model.Valid;
    SendBraid(t.m, coins);
  }

  lemma ReceiveLogs(t: Trail, msg: Message, n: nat)
    requires t.m.Valid() && t.m.braid.Receive(msg).Ok?
    ensures var out := t.m.braid.Receive(msg).value;
      var t' := Step(t, ReceiveOp(msg, n));
      t'.m.braid == out.next && t'.m.secrets == Logged(t.m.secrets, out.secret) && t'.last == t.last
  {
    hide State.Receive, Model.Take, DecoderState.Sized;
    ReceiveValid(t.m, msg, n);
    TakeShape(Braided(t.m, msg), ReceivingEpoch(msg), n);
  }

  // ---- sending ------------------------------------------------------------------------------

  /** Last sending epoch and the last number sent in it. */
  ghost predicate At(t: Trail, e: nat, n: nat)
  {
    t.last == e && e in t.m.windows && t.m.windows[e].send == Some(n)
  }

  predicate Before(e: nat, n: nat, e': nat, n': nat) { e < e' || (e == e' && n < n') }

  lemma SendNumber(m: Model, coins: Term)
    requires m.Valid()
    ensures var (m', _, n, key) := m.Send(coins);
      var s := m.braid.ep - 1;
      && s in m'.windows && m'.windows[s].send == Some(n)
      && s in m.windows && m.windows[s].send == Some(n - 1)
      && s <= |m'.secrets| && n >= 1 && key == Key(m.sk, m'.secrets, s, m.dir, n)
  {
    hide State.Send, Key;
  }

  lemma SendAdvances(t: Trail, coins: Term, e: nat, n: nat)
    requires Inv(t) && At(t, e, n)
    ensures var t' := Step(t, SendOp(coins));
      At(t', t'.last, t.m.Send(coins).2) && Before(e, n, t'.last, t.m.Send(coins).2)
  {
    hide State.Send, Key, Conservation, Retention, Disposal, Model.Send, Model.Takable;
    SendNumber(t.m, coins);
  }

  lemma ReceiveKeeps(t: Trail, msg: Message, n: nat, e: nat, k: nat)
    requires Inv(t) && At(t, e, k)
    ensures At(Step(t, ReceiveOp(msg, n)), e, k)
  {
    hide State.Receive, State.WellFormed, Model.Take, Range, Conservation, Disposal, Pruned;
    ReceiveValid(t.m, msg, n);
    if t.m.braid.Receive(msg).Ok? {
      TakeShape(Braided(t.m, msg), ReceivingEpoch(msg), n);
    }
  }

  lemma RunAt(sk: Term, dir: Direction, ops: seq<Op>) returns (e: nat, n: nat)
    ensures At(Run(sk, dir, ops), e, n)
  {
    RunInv(sk, dir, ops);
    var t := Run(sk, dir, ops);
    hide Run, State.WellFormed, Conservation;
    e, n := t.last, t.m.windows[t.last].send.value;
  }

  lemma {:induction false} RunAhead(sk: Term, dir: Direction, ops: seq<Op>, more: seq<Op>, e: nat, n: nat) returns (e': nat, n': nat)
    requires At(Run(sk, dir, ops), e, n)
    ensures At(Run(sk, dir, ops + more), e', n') && !Before(e', n', e, n)
    decreases |more|
  {
    hide Run, Step, At, Inv;
    e', n' := e, n;
    if more == [] {
      assert ops + more == ops;
    } else {
      var init, op := more[..|more| - 1], more[|more| - 1];
      assert ops + more == ops + init + [op];
      e', n' := RunAhead(sk, dir, ops, init, e, n);
      RunStep(sk, dir, ops + init, op);
      RunInv(sk, dir, ops + init);
      var t := Run(sk, dir, ops + init);
      match op
      case SendOp(coins) =>
        SendAdvances(t, coins, e', n');
        e', n' := Step(t, op).last, t.m.Send(coins).2;
      case ReceiveOp(msg, k) => ReceiveKeeps(t, msg, k, e', n');
    }
  }

  /** No two sends of a session use the same message key: epochs and numbers only go up. */
  lemma SendKeysNeverRepeat(sk: Term, dir: Direction, ops: seq<Op>, c1: Term, more: seq<Op>, c2: Term)
    ensures var (a, b) := (Run(sk, dir, ops).m, Run(sk, dir, ops + [SendOp(c1)] + more).m);
      && Before(a.braid.ep - 1, a.Send(c1).2, b.braid.ep - 1, b.Send(c2).2)
      && a.Send(c1).3 != b.Send(c2).3
  {
    hide Run, Step, At, Inv, Model.Send, Model.Valid, Key;
    var mid := ops + [SendOp(c1)];
    RunInv(sk, dir, ops);
    RunInv(sk, dir, mid + more);
    var (t, u) := (Run(sk, dir, ops), Run(sk, dir, mid + more));
    var e, n := RunAt(sk, dir, ops);
    SendAdvances(t, c1, e, n);
    RunStep(sk, dir, ops, SendOp(c1));
    var e', n' := RunAhead(sk, dir, mid, more, Step(t, SendOp(c1)).last, t.m.Send(c1).2);
    SendAdvances(u, c2, e', n');
    SendNumber(t.m, c1);
    SendNumber(u.m, c2);
    StepLast(t, c1);
    StepLast(u, c2);
    var (x, y) := (t.m.Send(c1), u.m.Send(c2));
    if x.3 == y.3 {
      KeyBinds(sk, x.0.secrets, Step(t, SendOp(c1)).last, dir, x.2, sk, y.0.secrets, Step(u, SendOp(c2)).last, dir, y.2);
    }
  }

  lemma StepLast(t: Trail, coins: Term)
    requires t.m.Valid()
    ensures Step(t, SendOp(coins)).last == t.m.braid.ep - 1
  {
  }
}
