/**
 One sender and one receiver of a group chain, over any sequence of sends, snapshots and
 deliveries: the receiver, started from any snapshot, reads each message at most once and
 only under the sender's key.
 */
module SenderKeyRuns {
  import opened Common
  import opened SenderKeys

  /** `start` is the iteration of the receiver's snapshot; `dropped` the keys its full list refused. */
  datatype Group = Group(id: nat, seed: nat, sender: SenderKey, sent: seq<SenderKeyMessage>,
                         receiver: SenderKey, start: nat, accepted: set<nat>, dropped: set<nat>)

  datatype Step = Send(group: Bytes8, plain: Bytes8) | Join(group: Bytes8) | Deliver(m: SenderKeyMessage)

  function ChainKeyAt(id: nat, i: nat): GroupKey { Iterate(Chain0(id), i) }

  function KeyAt(id: nat, i: nat): GroupKey { MessageKeyOf(ChainKeyAt(id, i)) }

  /** A chain key of chain `id`: known to the members only. */
  predicate OnChain(id: nat, ck: GroupKey)
  {
    match ck
    case Chain0(x) => x == id
    case NextKey(prev) => OnChain(id, prev)
    case _ => false
  }

  /** Authentication only the sender (signed chain) or the members (HMAC chain) can make. */
  predicate Guarded(g: Group, auth: MessageAuth)
  {
    if g.sender.mode == SignedMode then auth.Signature? && auth.seed == g.seed
    else auth.Hmac? && auth.key.AuthKeyOf? && OnChain(g.id, auth.key.ck)
  }

  /**
   What can reach the receiver: any message at all, altered or invented, except that its
   authentication is not a new one made with the sender's seed or, on an HMAC chain, with a
   key of the chain. `Heard` below drops this condition.
   */
  predicate Plausible(g: Group, m: SenderKeyMessage)
  {
    Guarded(g, m.auth) ==> exists k :: k in g.sent && k.auth == m.auth
  }

  /** How many of `count` keys a list of this size takes. */
  function Taken(size: nat, count: nat): nat
  {
    if size >= GAP_LIMIT then 0 else if size + count <= GAP_LIMIT then count else GAP_LIMIT - size
  }

  function Received(g: Group, m: SenderKeyMessage): Group
  {
    var (r, res) := Decrypted(g.receiver, m);
    if res.Err? then g.(receiver := r)
    else
      var lost := if m.iteration < g.receiver.iteration then {}
        else Range(g.receiver.iteration + Taken(|g.receiver.skipped|, m.iteration - g.receiver.iteration), m.iteration);
      g.(receiver := r, accepted := g.accepted + {m.iteration}, dropped := g.dropped + lost)
  }

  function Apply(g: Group, step: Step): Group
  {
    match step
    case Send(group, plain) =>
      var (s, res) := Encrypted(g.sender, group, plain);
      if res.Ok? then g.(sender := s, sent := g.sent + [res.value]) else g
    case Join(group) =>
      g.(receiver := FromDistribution(DistributionFor(g.sender, group)), start := g.sender.iteration, accepted := {}, dropped := {})
    case Deliver(m) => if Plausible(g, m) then Received(g, m) else g
  }

  function Init(id: nat, seed: nat, mode: SenderKeyAuth, group: Bytes8): Group
  {
    var s := Create(id, seed, mode);
    Group(id, seed, s, [], FromDistribution(DistributionFor(s, group)), 0, {}, {})
  }

  function Run(id: nat, seed: nat, mode: SenderKeyAuth, group: Bytes8, steps: seq<Step>): Group
  {
    if steps == [] then Init(id, seed, mode, group)
    else Apply(Run(id, seed, mode, group, steps[..|steps| - 1]), steps[|steps| - 1])
  }

  // ---- invariant ----------------------------------------------------------------------------

  /** Message i as the sender makes it. */
  predicate Genuine(g: Group, i: nat, m: SenderKeyMessage)
  {
    var data := AuthData(m.group, m.iteration, m.ciphertext);
    && m.iteration == i && m.ciphertext.Sealed? && m.ciphertext.key == KeyAt(g.id, i) && m.ciphertext.group == m.group
    && m.auth == if g.sender.mode == SignedMode then Signature(g.seed, data) else Hmac(AuthKeyOf(ChainKeyAt(g.id, i)), data)
  }

  ghost predicate SenderOk(g: Group)
  {
    && g.sender == Create(g.id, g.seed, g.sender.mode).(chainKey := ChainKeyAt(g.id, |g.sent|), iteration := |g.sent|)
    && forall i :: 0 <= i < |g.sent| ==> Genuine(g, i, g.sent[i])
  }

  function Stored(skipped: seq<(nat, GroupKey)>): set<nat>
  {
    set i | 0 <= i < |skipped| :: skipped[i].0
  }

  /** The list holds each iteration once, with its key. */
  predicate ListOk(id: nat, skipped: seq<(nat, GroupKey)>)
  {
    && |skipped| <= GAP_LIMIT
    && (forall i :: 0 <= i < |skipped| ==> skipped[i].1 == KeyAt(id, skipped[i].0))
    && (forall i, j :: 0 <= i < j < |skipped| ==> skipped[i].0 != skipped[j].0)
  }

  /** Iterations passed since the snapshot are stored, accepted or dropped, each just one of these. */
  ghost predicate Partition(stored: set<nat>, accepted: set<nat>, dropped: set<nat>, start: nat, next: nat)
  {
    Covers(stored, accepted, dropped, start, next) && (next > start ==> next - 1 in accepted)
  }

  ghost predicate ReceiverOk(g: Group)
  {
    var r := g.receiver;
    && r.mode == g.sender.mode && r.signingPublic == g.sender.signingPublic && !r.isSender
    && r.chainKey == ChainKeyAt(g.id, r.iteration) && g.start <= r.iteration <= |g.sent|
    && ListOk(g.id, r.skipped) && Partition(Stored(r.skipped), g.accepted, g.dropped, g.start, r.iteration)
  }

  ghost predicate Inv(g: Group) { SenderOk(g) && ReceiverOk(g) }

  // ---- the list -----------------------------------------------------------------------------

  function Numbered(id: nat, from: nat, n: nat): (r: seq<(nat, GroupKey)>)
    ensures |r| == n && forall i :: 0 <= i < n ==> r[i] == (from + i, KeyAt(id, from + i))
  {
    seq(n, i requires 0 <= i < n => var k: nat := from + i; (k, KeyAt(id, k)))
  }

  /** Pushing a walk's keys appends as many as the list takes. */
  lemma {:induction false} PushedIs(skipped: seq<(nat, GroupKey)>, id: nat, from: nat, keys: seq<GroupKey>)
    requires |skipped| <= GAP_LIMIT && forall i :: 0 <= i < |keys| ==> keys[i] == KeyAt(id, from + i)
    ensures Pushed(skipped, from, keys) == skipped + Numbered(id, from, Taken(|skipped|, |keys|))
    decreases |keys|
  {
    hide KeyAt;
    if keys != [] {
      var next := if |skipped| < GAP_LIMIT then skipped + [(from, keys[0])] else skipped;
      PushedIs(next, id, from + 1, keys[1..]);
      var n := Taken(|skipped|, |keys|);
      if n > 0 { assert Numbered(id, from, n) == [(from, keys[0])] + Numbered(id, from + 1, n - 1); }
    }
  }

  lemma StoredAppend(skipped: seq<(nat, GroupKey)>, id: nat, from: nat, n: nat)
    ensures Stored(skipped + Numbered(id, from, n)) == Stored(skipped) + Range(from, from + n)
  {
    hide Range, KeyAt;
    var all := skipped + Numbered(id, from, n);
    forall x | x in Stored(skipped) ensures x in Stored(all) {
      var i :| 0 <= i < |skipped| && skipped[i].0 == x;
      assert all[i].0 == x;
    }
    forall x | from <= x < from + n ensures x in Stored(all) {
      assert all[|skipped| + x - from].0 == x;
    }
  }

  lemma StoredRemove(skipped: seq<(nat, GroupKey)>, id: nat, p: nat)
    requires ListOk(id, skipped) && p < |skipped|
    ensures ListOk(id, skipped[..p] + skipped[p + 1..])
    ensures Stored(skipped[..p] + skipped[p + 1..]) == Stored(skipped) - {skipped[p].0}
  {
    hide KeyAt;
    var rest := skipped[..p] + skipped[p + 1..];
    forall x | x in Stored(skipped) && x != skipped[p].0 ensures x in Stored(rest) {
      var i :| 0 <= i < |skipped| && skipped[i].0 == x;
      assert rest[if i < p then i else i - 1].0 == x;
    }
  }

  // ---- receiving ------------------------------------------------------------------------------

  /** Whatever passes authentication is the sender's own message of that iteration. */
  lemma AuthenticIsSent(g: Group, m: SenderKeyMessage)
    requires Inv(g) && Plausible(g, m) && AuthVerdict(g.receiver, m).Ok?
    ensures m.iteration < |g.sent| && m == g.sent[m.iteration]
  {
    if g.sender.mode == HmacMode {
      WalkMeets(g.id, g.receiver, m.iteration);
      ChainKeyOnChain(g.id, m.iteration);
    }
    hide Partition, ListOk, ChainKeyAt, Iterate, OnChain;
    assert Guarded(g, m.auth);
    var k :| k in g.sent && k.auth == m.auth;
    var i :| 0 <= i < |g.sent| && g.sent[i] == k;
    assert Genuine(g, i, k);
  }

  /** What the receiver has to answer to message i. */
  function Verdict(g: Group, i: nat): Result<Bytes8>
    requires i < |g.sent| && g.sent[i].ciphertext.Sealed?
  {
    var next := g.receiver.iteration;
    if (if g.sender.mode == SignedMode then i < g.start || i in g.accepted || i in g.dropped else i < next) then Err(DuplicateMessage)
    else if i > next + GAP_LIMIT then Err(MaxSkipExceeded(i - next, GAP_LIMIT))
    else Ok(g.sent[i].ciphertext.plain)
  }

  lemma InList(skipped: seq<(nat, GroupKey)>, at: nat)
    ensures Position(skipped, at) < |skipped| <==> at in Stored(skipped)
  {
  }

  /** Walking on from the receiver's chain key meets the sender's keys. */
  lemma WalkMeets(id: nat, r: SenderKey, at: nat)
    requires r.chainKey == ChainKeyAt(id, r.iteration) && at >= r.iteration
    ensures Iterate(r.chainKey, at - r.iteration) == ChainKeyAt(id, at)
  {
    IterateAdd(Chain0(id), r.iteration, at - r.iteration);
  }

  lemma {:induction false} ChainKeyOnChain(id: nat, i: nat)
    ensures OnChain(id, ChainKeyAt(id, i))
  {
    if i > 0 { ChainKeyOnChain(id, i - 1); }
  }

  lemma AuthOfSent(g: Group, i: nat)
    requires Inv(g) && i < |g.sent|
    ensures AuthVerdict(g.receiver, g.sent[i]) ==
      if g.sender.mode == HmacMode && i < g.receiver.iteration then Err(DuplicateMessage)
      else if g.sender.mode == HmacMode && i > g.receiver.iteration + GAP_LIMIT
           then Err(MaxSkipExceeded(i - g.receiver.iteration, GAP_LIMIT))
      else Ok(())
  {
    if i >= g.receiver.iteration { WalkMeets(g.id, g.receiver, i); }
    assert Genuine(g, i, g.sent[i]);
    hide Partition, ListOk, ChainKeyAt, Iterate;
  }

  lemma SentVerdict(g: Group, i: nat)
    requires Inv(g) && i < |g.sent|
    ensures g.sent[i].ciphertext.Sealed? && Decrypted(g.receiver, g.sent[i]).1 == Verdict(g, i)
  {
    AuthOfSent(g, i);
    InList(g.receiver.skipped, i);
    assert Genuine(g, i, g.sent[i]);
    if i >= g.receiver.iteration { WalkMeets(g.id, g.receiver, i); }
    hide ChainKeyAt, Iterate, AuthVerdict, Stored;
  }

  lemma ReceivedInv(g: Group, m: SenderKeyMessage)
    requires Inv(g) && Plausible(g, m)
    ensures Inv(Received(g, m))
  {
    if AuthVerdict(g.receiver, m).Ok? {
      AuthenticIsSent(g, m);
      SentVerdict(g, m.iteration);
      hide SenderOk, AuthVerdict, Plausible;
      var p := Position(g.receiver.skipped, m.iteration);
      InList(g.receiver.skipped, m.iteration);
      if p < |g.receiver.skipped| {
        TakeStored(g, m, p);
      } else if Decrypted(g.receiver, m).1.Ok? {
        TakeDerived(g, m);
      }
    }
  }

  lemma TakeStored(g: Group, m: SenderKeyMessage, p: nat)
    requires Inv(g) && AuthVerdict(g.receiver, m).Ok?
    requires p == Position(g.receiver.skipped, m.iteration) < |g.receiver.skipped|
    requires m.iteration < |g.sent| && m == g.sent[m.iteration]
    ensures Inv(Received(g, m))
  {
    hide AuthVerdict, ChainKeyAt, Iterate, Stored, Range;
    var r := g.receiver;
    assert Genuine(g, m.iteration, m);
    InList(r.skipped, m.iteration);
    StoredRemove(r.skipped, g.id, p);
    PartitionTake(Stored(r.skipped), g.accepted, g.dropped, g.start, r.iteration, m.iteration);
    assert g.dropped + {} == g.dropped;
    assert Received(g, m) == g.(receiver := r.(skipped := r.skipped[..p] + r.skipped[p + 1..]), accepted := g.accepted + {m.iteration});
    SenderKept(g, Received(g, m));
    hide ListOk, Partition, SenderOk, Received;
  }

  /** The sender's half of the invariant only looks at the sender's half of the state. */
  lemma SenderKept(g: Group, g': Group)
    requires SenderOk(g) && g'.id == g.id && g'.seed == g.seed && g'.sender == g.sender && g'.sent == g.sent
    ensures SenderOk(g')
  {
    hide KeyAt, ChainKeyAt;
    assert forall i :: 0 <= i < |g.sent| ==> Genuine(g, i, g.sent[i]) ==> Genuine(g', i, g'.sent[i]);
  }

  lemma PartitionTake(stored: set<nat>, accepted: set<nat>, dropped: set<nat>, start: nat, next: nat, i: nat)
    requires Partition(stored, accepted, dropped, start, next) && i in stored
    ensures Partition(stored - {i}, accepted + {i}, dropped, start, next) && i < next
  {
  }

  lemma PartitionBelow(stored: set<nat>, accepted: set<nat>, dropped: set<nat>, start: nat, next: nat)
    requires Partition(stored, accepted, dropped, start, next)
    ensures forall x :: x in stored ==> x < next
  {
  }

  lemma PartitionJump(stored: set<nat>, accepted: set<nat>, dropped: set<nat>, start: nat, next: nat, kept: nat, i: nat)
    requires Partition(stored, accepted, dropped, start, next) && start <= next <= kept <= i
    ensures Partition(stored + Range(next, kept), accepted + {i}, dropped + Range(kept, i), start, i + 1)
  {
    hide Range;
    CoversSkip(stored, accepted, dropped, start, next, kept, i);
    CoversNext(stored + Range(next, kept), accepted, dropped + Range(kept, i), start, i);
  }

  lemma CoversNext(stored: set<nat>, accepted: set<nat>, dropped: set<nat>, start: nat, i: nat)
    requires Covers(stored, accepted, dropped, start, i) && start <= i
    ensures Partition(stored, accepted + {i}, dropped, start, i + 1)
  {
  }

  lemma ListAppend(id: nat, skipped: seq<(nat, GroupKey)>, from: nat, n: nat)
    requires ListOk(id, skipped) && |skipped| + n <= GAP_LIMIT && forall x :: x in Stored(skipped) ==> x < from
    ensures ListOk(id, skipped + Numbered(id, from, n))
  {
    hide KeyAt, Numbered;
    forall i | 0 <= i < |skipped| ensures skipped[i].0 < from { assert skipped[i].0 in Stored(skipped); }
  }

  lemma WalkKeys(id: nat, r: SenderKey, gap: nat)
    requires r.chainKey == ChainKeyAt(id, r.iteration)
    ensures forall i :: 0 <= i < gap ==> Walk(r.chainKey, gap)[i] == KeyAt(id, r.iteration + i)
  {
    forall i | 0 <= i < gap ensures Walk(r.chainKey, gap)[i] == KeyAt(id, r.iteration + i) {
      WalkMeets(id, r, r.iteration + i);
    }
  }

  lemma ListSize(id: nat, skipped: seq<(nat, GroupKey)>)
    requires ListOk(id, skipped)
    ensures |skipped| <= GAP_LIMIT
  {
  }

  /** What the receiver's list becomes when the chain moves from its iteration past `at`. */
  lemma MovedList(id: nat, r: SenderKey, at: nat)
    requires r.chainKey == ChainKeyAt(id, r.iteration) && ListOk(id, r.skipped) && r.iteration <= at
    requires forall x :: x in Stored(r.skipped) ==> x < r.iteration
    ensures var gap := at - r.iteration;
      var list := Pushed(r.skipped, r.iteration, Walk(r.chainKey, gap));
      ListOk(id, list) && Stored(list) == Stored(r.skipped) + Range(r.iteration, r.iteration + Taken(|r.skipped|, gap))
  {
    hide KeyAt, Walk, Stored, ListOk, Iterate, ChainKeyAt, Numbered, Range, Pushed;
    var gap := at - r.iteration;
    WalkKeys(id, r, gap);
    ListSize(id, r.skipped);
    PushedIs(r.skipped, id, r.iteration, Walk(r.chainKey, gap));
    StoredAppend(r.skipped, id, r.iteration, Taken(|r.skipped|, gap));
    ListAppend(id, r.skipped, r.iteration, Taken(|r.skipped|, gap));
  }

  lemma DerivedShape(g: Group, m: SenderKeyMessage)
    requires AuthVerdict(g.receiver, m).Ok? && Position(g.receiver.skipped, m.iteration) == |g.receiver.skipped|
    requires Decrypted(g.receiver, m).1.Ok?
    ensures g.receiver.iteration <= m.iteration
    ensures var (r, i) := (g.receiver, m.iteration);
      var r' := r.(chainKey := Iterate(r.chainKey, i + 1 - r.iteration), iteration := i + 1,
                   skipped := Pushed(r.skipped, r.iteration, Walk(r.chainKey, i - r.iteration)));
      Received(g, m) == g.(receiver := r', accepted := g.accepted + {i},
        dropped := g.dropped + Range(r.iteration + Taken(|r.skipped|, i - r.iteration), i))
  {
    hide AuthVerdict, Iterate, Range, Walk, Pushed, Position, Taken;
  }

  lemma TakeDerived(g: Group, m: SenderKeyMessage)
    requires Inv(g) && AuthVerdict(g.receiver, m).Ok?
    requires Position(g.receiver.skipped, m.iteration) == |g.receiver.skipped|
    requires m.iteration < |g.sent| && m == g.sent[m.iteration] && Decrypted(g.receiver, m).1.Ok?
    ensures Inv(Received(g, m))
  {
    hide AuthVerdict, KeyAt, ChainKeyAt, Iterate, Stored, Range, Walk, Pushed, SenderOk, Position, Decrypted,
         Received, ListOk, Partition;
    var (r, i) := (g.receiver, m.iteration);
    DerivedShape(g, m);
    PartitionBelow(Stored(r.skipped), g.accepted, g.dropped, g.start, r.iteration);
    MovedList(g.id, r, i);
    WalkMeets(g.id, r, i + 1);
    PartitionJump(Stored(r.skipped), g.accepted, g.dropped, g.start, r.iteration,
                  r.iteration + Taken(|r.skipped|, i - r.iteration), i);
    SenderKept(g, Received(g, m));
  }

  lemma {:induction false} RunInv(id: nat, seed: nat, mode: SenderKeyAuth, group: Bytes8, steps: seq<Step>)
    ensures Inv(Run(id, seed, mode, group, steps))
  {
    hide Inv, Received;
    if steps == [] {
      InitInv(id, seed, mode, group);
    } else {
      var g := Run(id, seed, mode, group, steps[..|steps| - 1]);
      RunInv(id, seed, mode, group, steps[..|steps| - 1]);
      match steps[|steps| - 1]
      case Send(to, plain) => SendInv(g, to, plain);
      case Join(to) => JoinInv(g, to);
      case Deliver(m) => if Plausible(g, m) { ReceivedInv(g, m); }
    }
  }

  lemma InitInv(id: nat, seed: nat, mode: SenderKeyAuth, group: Bytes8)
    ensures Inv(Init(id, seed, mode, group))
  {
  }

  lemma SendInv(g: Group, group: Bytes8, plain: Bytes8)
    requires Inv(g)
    ensures Inv(Apply(g, Send(group, plain)))
  {
    hide Partition, ListOk, Stored;
    var g' := Apply(g, Send(group, plain));
    forall i | 0 <= i < |g'.sent| ensures Genuine(g', i, g'.sent[i]) {
      if i < |g.sent| { assert Genuine(g, i, g.sent[i]); }
    }
  }

  lemma JoinInv(g: Group, group: Bytes8)
    requires Inv(g)
    ensures Inv(Apply(g, Join(group)))
  {
    hide ChainKeyAt;
    SenderKept(g, Apply(g, Join(group)));
    hide Genuine;
  }

  // ---- main results -------------------------------------------------------------------------

  /**
   For a receiver started from any snapshot, what it answers to each genuine message. On a
   signed chain messages are read in any order: a message fails only if it predates the
   snapshot, was read before, was dropped by the full list, or lies too far ahead. On an
   HMAC chain only increasing iterations are read. A message read yields the sender's text.
   */
  lemma GenuineVerdict(id: nat, seed: nat, mode: SenderKeyAuth, group: Bytes8, steps: seq<Step>, i: nat)
    requires i < |Run(id, seed, mode, group, steps).sent|
    ensures GAP_LIMIT == 2000
    ensures var g := Run(id, seed, mode, group, steps);
      && g.sent[i].ciphertext.Sealed? && g.sent[i].iteration == i && g.sent[i].ciphertext.key == KeyAt(id, i)
      && g.sender.mode == mode && Decrypted(g.receiver, g.sent[i]).1 == Verdict(g, i)
      && (i in g.accepted ==> Verdict(g, i).Err?)
      && (i < g.receiver.iteration && i >= g.start ==> i in g.accepted || i in g.dropped || i in Stored(g.receiver.skipped))
  {
    RunInv(id, seed, mode, group, steps);
    RunId(id, seed, mode, group, steps);
    var g := Run(id, seed, mode, group, steps);
    SentVerdict(g, i);
    assert Genuine(g, i, g.sent[i]);
    hide Run, ChainKeyAt, Decrypted, Stored;
  }

  /**
   Nothing else is ever read: whatever is delivered, a message that decrypts is the sender's
   own message of that iteration, and it was not read before.
   */
  lemma OnlyGenuineRead(id: nat, seed: nat, mode: SenderKeyAuth, group: Bytes8, steps: seq<Step>, m: SenderKeyMessage)
    requires Plausible(Run(id, seed, mode, group, steps), m)
    requires Decrypted(Run(id, seed, mode, group, steps).receiver, m).1.Ok?
    ensures var g := Run(id, seed, mode, group, steps);
      m.iteration < |g.sent| && m == g.sent[m.iteration] && m.iteration !in g.accepted && m.iteration >= g.start
  {
    RunInv(id, seed, mode, group, steps);
    var g := Run(id, seed, mode, group, steps);
    AuthenticIsSent(g, m);
    SentVerdict(g, m.iteration);
    hide Run, ChainKeyAt, Stored;
  }

  lemma {:induction false} RunId(id: nat, seed: nat, mode: SenderKeyAuth, group: Bytes8, steps: seq<Step>)
    ensures Run(id, seed, mode, group, steps).id == id && Run(id, seed, mode, group, steps).sender.mode == mode
  {
    if steps != [] { RunId(id, seed, mode, group, steps[..|steps| - 1]); }
  }

  // ---- a receiver alone, against anyone --------------------------------------------------------

  /** A receiver and the iterations it has read, in order. */
  datatype Ear = Ear(r: SenderKey, done: seq<nat>)

  function Hear(e: Ear, m: SenderKeyMessage): Ear
  {
    var (r, res) := Decrypted(e.r, m);
    Ear(r, if res.Ok? then e.done + [m.iteration] else e.done)
  }

  /** A receiver started at iteration `start` of chain `id`, after arbitrary messages: forgeries by members included. */
  function Heard(id: nat, start: nat, signingKey: Option<nat>, group: Bytes8, ms: seq<SenderKeyMessage>): Ear
  {
    if ms == [] then Ear(FromDistribution(Distribution(group, ChainKeyAt(id, start), start, signingKey)), [])
    else Hear(Heard(id, start, signingKey, group, ms[..|ms| - 1]), ms[|ms| - 1])
  }

  /** No iteration read is still stored or ahead, and stored keys are right. */
  ghost predicate EarOk(id: nat, e: Ear)
  {
    && e.r.chainKey == ChainKeyAt(id, e.r.iteration) && ListOk(id, e.r.skipped)
    && (forall x :: x in Stored(e.r.skipped) ==> x < e.r.iteration && x !in e.done)
    && (forall x :: x in e.done ==> x < e.r.iteration)
    && (forall i, j :: 0 <= i < j < |e.done| ==> e.done[i] != e.done[j])
    && (e.r.mode == HmacMode ==> forall i, j :: 0 <= i < j < |e.done| ==> e.done[i] < e.done[j])
  }

  /** What authenticating, and then what opening, message m takes. */
  predicate Opens(id: nat, m: SenderKeyMessage, plain: Bytes8)
  {
    m.ciphertext == Sealed(KeyAt(id, m.iteration), plain, m.group)
  }

  lemma HearStored(id: nat, e: Ear, m: SenderKeyMessage)
    requires EarOk(id, e) && AuthVerdict(e.r, m).Ok? && m.iteration in Stored(e.r.skipped)
    ensures EarOk(id, Hear(e, m)) && Hear(e, m).r.mode == e.r.mode && m.iteration !in e.done
    ensures Decrypted(e.r, m).1 == OpenGroup(KeyAt(id, m.iteration), m.ciphertext, m.group)
  {
    hide ChainKeyAt, Iterate, Stored, KeyAt;
    var p := Position(e.r.skipped, m.iteration);
    InList(e.r.skipped, m.iteration);
    StoredRemove(e.r.skipped, id, p);
  }

  /** What reading a message ahead leaves, and what it answers. */
  lemma HearShape(e: Ear, m: SenderKeyMessage)
    requires AuthVerdict(e.r, m).Ok? && Position(e.r.skipped, m.iteration) == |e.r.skipped|
    ensures var (r, i, res) := (e.r, m.iteration, Decrypted(e.r, m).1);
      if r.iteration <= i <= r.iteration + GAP_LIMIT then
        && res == OpenGroup(MessageKeyOf(Iterate(r.chainKey, i - r.iteration)), m.ciphertext, m.group)
        && Hear(e, m) == (if res.Err? then e else
             Ear(r.(chainKey := Iterate(r.chainKey, i + 1 - r.iteration), iteration := i + 1,
                    skipped := Pushed(r.skipped, r.iteration, Walk(r.chainKey, i - r.iteration))), e.done + [i]))
      else res.Err? && Hear(e, m) == e
  {
    hide AuthVerdict, Iterate, Walk, Pushed, Position;
  }

  /** Reading on: the new iteration is beyond all read so far. */
  lemma EarMoves(id: nat, e: Ear, r: SenderKey, i: nat)
    requires EarOk(id, e) && r.mode == e.r.mode && r.iteration == i + 1 > e.r.iteration && r.chainKey == ChainKeyAt(id, i + 1)
    requires ListOk(id, r.skipped)
    requires forall x :: x in Stored(r.skipped) ==> x in Stored(e.r.skipped) || e.r.iteration <= x < i
    ensures EarOk(id, Ear(r, e.done + [i]))
  {
    hide ChainKeyAt, ListOk, Stored;
    forall k | 0 <= k < |e.done| ensures e.done[k] < e.r.iteration { assert e.done[k] in e.done; }
    forall x | x in e.done + [i] ensures x < r.iteration && (x in e.done || x == i) {}
  }

  lemma HearDerived(id: nat, e: Ear, m: SenderKeyMessage)
    requires EarOk(id, e) && AuthVerdict(e.r, m).Ok? && m.iteration !in Stored(e.r.skipped)
    ensures EarOk(id, Hear(e, m)) && Hear(e, m).r.mode == e.r.mode
    ensures Decrypted(e.r, m).1.Ok? ==>
      e.r.iteration <= m.iteration <= e.r.iteration + GAP_LIMIT && m.iteration !in e.done
    ensures e.r.iteration <= m.iteration <= e.r.iteration + GAP_LIMIT ==>
      Decrypted(e.r, m).1 == OpenGroup(KeyAt(id, m.iteration), m.ciphertext, m.group)
  {
    hide ChainKeyAt, Iterate, Stored, AuthVerdict, Range, Walk, Pushed, ListOk, Decrypted, Hear, Position, Taken;
    var i := m.iteration;
    InList(e.r.skipped, i);
    HearShape(e, m);
    if e.r.iteration <= i <= e.r.iteration + GAP_LIMIT {
      WalkMeets(id, e.r, i);
      if Decrypted(e.r, m).1.Ok? {
        WalkMeets(id, e.r, i + 1);
        MovedList(id, e.r, i);
        TakenBelow(|e.r.skipped|, i - e.r.iteration);
        EarMoves(id, e, Hear(e, m).r, i);
      }
    }
  }

  lemma TakenBelow(size: nat, count: nat)
    ensures Taken(size, count) <= count
  {
  }

  lemma {:induction false} HeardOk(id: nat, start: nat, signingKey: Option<nat>, group: Bytes8, ms: seq<SenderKeyMessage>)
    ensures EarOk(id, Heard(id, start, signingKey, group, ms))
    ensures Heard(id, start, signingKey, group, ms).r.mode == if signingKey.Some? then SignedMode else HmacMode
  {
    if ms != [] {
      hide EarOk, Hear;
      var (e, m) := (Heard(id, start, signingKey, group, ms[..|ms| - 1]), ms[|ms| - 1]);
      HeardOk(id, start, signingKey, group, ms[..|ms| - 1]);
      HearOk(id, e, m);
    }
  }

  lemma HearOk(id: nat, e: Ear, m: SenderKeyMessage)
    requires EarOk(id, e)
    ensures EarOk(id, Hear(e, m)) && Hear(e, m).r.mode == e.r.mode
  {
    if AuthVerdict(e.r, m).Ok? {
      hide EarOk, Hear;
      if m.iteration in Stored(e.r.skipped) { HearStored(id, e, m); } else { HearDerived(id, e, m); }
    } else {
      hide EarOk;
    }
  }

  /**
   With no assumption on what is delivered, forgeries by members included: a receiver opens
   each iteration at most once and only under that iteration's key of the sender's chain. On
   an HMAC chain the iterations it reads strictly increase, and a message is read exactly if
   it lies in the window of GAP_LIMIT from the next iteration on and both its tag and its
   ciphertext are made with the keys of its own iteration.
   */
  lemma ReadsUnderTheChain(id: nat, start: nat, signingKey: Option<nat>, group: Bytes8, ms: seq<SenderKeyMessage>,
                           m: SenderKeyMessage, plain: Bytes8)
    ensures var e := Heard(id, start, signingKey, group, ms);
      && (forall i, j :: 0 <= i < j < |e.done| ==> e.done[i] != e.done[j])
      && (signingKey.None? ==> forall i, j :: 0 <= i < j < |e.done| ==> e.done[i] < e.done[j])
      && (Decrypted(e.r, m).1 == Ok(plain) ==> Opens(id, m, plain) && m.iteration !in e.done)
      && (signingKey.None? ==>
           (Decrypted(e.r, m).1 == Ok(plain) <==>
              && e.r.iteration <= m.iteration <= e.r.iteration + GAP_LIMIT && Opens(id, m, plain)
              && m.auth == Hmac(AuthKeyOf(ChainKeyAt(id, m.iteration)), AuthData(m.group, m.iteration, m.ciphertext))))
  {
    HeardOk(id, start, signingKey, group, ms);
    hide Heard, KeyAt;
    HearExactly(id, Heard(id, start, signingKey, group, ms), m, plain);
  }

  lemma HearExactly(id: nat, e: Ear, m: SenderKeyMessage, plain: Bytes8)
    requires EarOk(id, e)
    ensures Decrypted(e.r, m).1 == Ok(plain) ==> Opens(id, m, plain) && m.iteration !in e.done
    ensures e.r.mode == HmacMode ==>
      (Decrypted(e.r, m).1 == Ok(plain) <==>
         && e.r.iteration <= m.iteration <= e.r.iteration + GAP_LIMIT && Opens(id, m, plain)
         && m.auth == Hmac(AuthKeyOf(ChainKeyAt(id, m.iteration)), AuthData(m.group, m.iteration, m.ciphertext)))
  {
    hide KeyAt, Stored, ListOk, Decrypted, Iterate, ChainKeyAt;
    HmacAuth(id, e.r, m);
    if AuthVerdict(e.r, m).Ok? {
      if m.iteration in Stored(e.r.skipped) { HearStored(id, e, m); } else { HearDerived(id, e, m); }
    } else {
      Unauthentic(e.r, m);
    }
  }

  lemma Unauthentic(r: SenderKey, m: SenderKeyMessage)
    requires AuthVerdict(r, m).Err?
    ensures Decrypted(r, m).1.Err?
  {
    hide AuthVerdict;
  }

  lemma HmacAuth(id: nat, r: SenderKey, m: SenderKeyMessage)
    requires r.chainKey == ChainKeyAt(id, r.iteration)
    ensures r.mode == HmacMode ==>
      (AuthVerdict(r, m).Ok? <==>
         && r.iteration <= m.iteration <= r.iteration + GAP_LIMIT
         && m.auth == Hmac(AuthKeyOf(ChainKeyAt(id, m.iteration)), AuthData(m.group, m.iteration, m.ciphertext)))
  {
    if r.iteration <= m.iteration { WalkMeets(id, r, m.iteration); }
    hide ChainKeyAt, Iterate;
  }

  // ---- the keys of a chain ------------------------------------------------------------------

  lemma {:induction false} ChainInjective(id: nat, i: nat, id': nat, j: nat)
    requires ChainKeyAt(id, i) == ChainKeyAt(id', j)
    ensures id == id' && i == j
  {
    if i > 0 && j > 0 { ChainInjective(id, i - 1, id', j - 1); }
  }

  lemma ChainKeyKind(id: nat, i: nat)
    ensures ChainKeyAt(id, i).Chain0? || ChainKeyAt(id, i).NextKey?
  {
  }

  /** Message keys, authentication keys and chain keys of all chains never meet, and each belongs to one iteration of one chain. */
  lemma GroupKeysApart(id: nat, i: nat, id': nat, j: nat)
    ensures KeyAt(id, i) != ChainKeyAt(id', j) && AuthKeyOf(ChainKeyAt(id, i)) != ChainKeyAt(id', j)
    ensures KeyAt(id, i) != AuthKeyOf(ChainKeyAt(id', j))
    ensures KeyAt(id, i) == KeyAt(id', j) || AuthKeyOf(ChainKeyAt(id, i)) == AuthKeyOf(ChainKeyAt(id', j)) ==> id == id' && i == j
  {
    hide ChainKeyAt;
    ChainKeyKind(id', j);
    if ChainKeyAt(id, i) == ChainKeyAt(id', j) { ChainInjective(id, i, id', j); }
  }

  /** In every run: a message once read has left no trace of its key in the receiver. */
  lemma ReadKeyGone(id: nat, seed: nat, mode: SenderKeyAuth, group: Bytes8, steps: seq<Step>, i: nat)
    requires i in Run(id, seed, mode, group, steps).accepted
    ensures var r := Run(id, seed, mode, group, steps).receiver;
      r.chainKey != KeyAt(id, i) && forall p :: 0 <= p < |r.skipped| ==> r.skipped[p].1 != KeyAt(id, i)
  {
    hide Run, ChainKeyAt, KeyAt;
    RunInv(id, seed, mode, group, steps);
    RunId(id, seed, mode, group, steps);
    var r := Run(id, seed, mode, group, steps).receiver;
    GroupKeysApart(id, i, id, r.iteration);
    forall p | 0 <= p < |r.skipped| ensures r.skipped[p].1 != KeyAt(id, i) {
      GroupKeysApart(id, i, id, r.skipped[p].0);
      assert r.skipped[p].0 in Stored(r.skipped);
    }
  }

  // ---- calls that fail ----------------------------------------------------------------------

  /**
   For every state and message: a failed `group_decrypt` leaves the state as it was exactly if
   the message failed authentication or its iteration has no stored key; otherwise that key,
   and nothing else, is gone.
   */
  lemma FailedReadKeepsIff(s: SenderKey, m: SenderKeyMessage)
    requires Decrypted(s, m).1.Err?
    ensures Decrypted(s, m).0 == s <==> AuthVerdict(s, m).Err? || m.iteration !in Stored(s.skipped)
    ensures Decrypted(s, m).0 != s ==>
      exists p :: 0 <= p < |s.skipped| && s.skipped[p].0 == m.iteration &&
                  Decrypted(s, m).0 == s.(skipped := s.skipped[..p] + s.skipped[p + 1..])
  {
    InList(s.skipped, m.iteration);
    var p := Position(s.skipped, m.iteration);
    if AuthVerdict(s, m).Ok? && p < |s.skipped| {
      assert |s.skipped[..p] + s.skipped[p + 1..]| == |s.skipped| - 1;
    }
  }

  /** Why `group_decrypt` refuses a message, checks in order; `None` if a key is found for it. */
  function Refusal(s: SenderKey, m: SenderKeyMessage): Option<Error>
  {
    var data := AuthData(m.group, m.iteration, m.ciphertext);
    var gap := m.iteration - s.iteration;
    if s.mode == SignedMode then
      if s.signingPublic.None? || m.auth != Signature(s.signingPublic.value, data) then Some(InvalidSignature)
      else if m.iteration in Stored(s.skipped) then None
      else if gap < 0 then Some(DuplicateMessage)
      else if gap > 2000 then Some(MaxSkipExceeded(gap, 2000)) else None
    else if !m.auth.Hmac? && !m.auth.OtherTag? then Some(InvalidSignature)
    else if gap < 0 then Some(DuplicateMessage)
    else if gap > 2000 then Some(MaxSkipExceeded(gap, 2000))
    else if m.auth != Hmac(AuthKeyOf(Iterate(s.chainKey, gap)), data) then Some(InvalidSignature) else None
  }

  /**
   Every error of `group_decrypt`, for every state and message: a tag on a signed chain or a
   signature on an HMAC chain is refused as a wrong signature, and an AEAD failure remains
   exactly for messages that authenticate but do not open.
   */
  lemma DecryptFailsExactly(s: SenderKey, m: SenderKeyMessage)
    ensures var (r, why) := (Decrypted(s, m).1, Refusal(s, m));
      && (why.Some? ==> r == Err(why.value)) && (why.None? && r.Err? ==> r.error == DecryptionFailed)
      && (why.None? && r.Ok? ==> m.ciphertext.Sealed? && m.ciphertext.group == m.group && r.value == m.ciphertext.plain)
  {
    hide Pushed, Walk, Iterate;
    InList(s.skipped, m.iteration);
  }

  /** Sending succeeds exactly for the creator of a chain that holds its signing key; each send moves the chain by one. */
  lemma EncryptsExactly(s: SenderKey, group: Bytes8, plain: Bytes8)
    ensures var (s', r) := Encrypted(s, group, plain);
      && (r.Ok? <==> s.isSender && (s.mode == SignedMode ==> s.signingPrivate.Some?))
      && (r.Err? ==> s' == s && r.error == MissingSenderKey)
      && (r.Ok? ==> s' == s.(chainKey := NextKey(s.chainKey), iteration := s.iteration + 1) &&
                    r.value.iteration == s.iteration && r.value.group == group && r.value.ciphertext.Sealed? &&
                    r.value.ciphertext.plain == plain && r.value.ciphertext.group == group &&
                    (s.mode == SignedMode <==> r.value.auth.Signature?))
  {
  }

  /** A snapshot carries the chain where it is and the public signing key, from a sender or passed on by a receiver. */
  lemma SnapshotIs(s: SenderKey, group: Bytes8)
    ensures var r := FromDistribution(DistributionFor(s, group));
      && r.chainKey == s.chainKey && r.iteration == s.iteration && r.signingPublic == s.signingPublic
      && !r.isSender && r.signingPrivate.None? && r.skipped == [] && (r.mode == SignedMode <==> s.signingPublic.Some?)
  {
  }

  /** Only the creator of a chain can send on it: no state made from a distribution encrypts, and the attempt changes nothing. */
  lemma ReceiversCannotSend(d: Distribution, ms: seq<SenderKeyMessage>, group: Bytes8, plain: Bytes8)
    ensures Encrypted(After(FromDistribution(d), ms), group, plain) == (After(FromDistribution(d), ms), Err(MissingSenderKey))
  {
    hide Decrypted;
    NeverSender(FromDistribution(d), ms);
  }

  function After(s: SenderKey, ms: seq<SenderKeyMessage>): SenderKey
  {
    if ms == [] then s else Decrypted(After(s, ms[..|ms| - 1]), ms[|ms| - 1]).0
  }

  lemma {:induction false} NeverSender(s: SenderKey, ms: seq<SenderKeyMessage>)
    ensures After(s, ms).isSender == s.isSender
  {
    if ms != [] { NeverSender(s, ms[..|ms| - 1]); }
  }
}
