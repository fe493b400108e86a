/**
 `decrypt` on an error: exactly when the session is left as it was, and what a caller that
 keeps the state of a failed call loses.
 */
module SessionRollback {
  import opened Common
  import opened Symbolic
  import BraidMachine
  import opened Spqr
  import R = SpqrRuns
  import opened EcRatchet
  import opened Ratchet
  import opened EndToEnd
  import Q = SpqrPairing
  import C = EcPairing
  import E = EcRollback

  /**
   For every session and every message: a failed `decrypt` leaves the session as it was
   exactly if the EC half refused it at the first skip.
   */
  lemma ErrorKeepsIff(s: Session, msg: RatchetMessage, sender: Party, recipient: Party, name: Dh)
    requires s.pq.Valid() && name != s.ec.self && s.Decrypt(msg, sender, recipient, name).1.Err?
    ensures s.Decrypt(msg, sender, recipient, name).0 == s <==> E.Untouched(s.ec, msg.header.ec)
  {
    hide Ec.Resolve, Model.Receive, Model.Valid, E.Untouched;
    E.ResolveKeepsIff(s.ec, msg.header.ec, name);
  }

  // ---- a caller that keeps the state of failed calls -------------------------------------------

  datatype Call = Tx(plain: Plain, coins: Term) | Rx(msg: RatchetMessage, name: Dh)

  /** The session p holds after a call, whether or not it failed. */
  function Kept(s: Session, p: Party, call: Call): (s': Session)
    requires s.pq.Valid()
    ensures s'.pq.Valid()
  {
    match call
    case Tx(plain, coins) => EncryptValid(s, plain, p, p.Peer(), coins); s.Encrypt(plain, p, p.Peer(), coins).0
    case Rx(msg, name) => DecryptValid(s, msg, p.Peer(), p, name); s.Decrypt(msg, p.Peer(), p, name).0
  }

  function Went(s: Session, p: Party, calls: seq<Call>): (s': Session)
    requires s.pq.Valid()
    ensures s'.pq.Valid()
  {
    if calls == [] then s else Kept(Went(s, p, calls[..|calls| - 1]), p, calls[|calls| - 1])
  }

  function EcOps(calls: seq<Call>): seq<E.Op>
  {
    seq(|calls|, i requires 0 <= i < |calls| => EcOp(calls[i]))
  }

  function EcOp(call: Call): E.Op
  {
    match call
    case Tx(_, _) => E.Sending
    case Rx(msg, name) => E.Receiving(msg.header.ec, name)
  }

  lemma KeptEc(s: Session, p: Party, call: Call)
    requires s.pq.Valid()
    ensures Kept(s, p, call).ec == E.Did(s.ec, EcOp(call))
  {
    hide Model.Send, Model.Receive, Ec.Resolve, Model.Valid;
  }

  lemma {:induction false} WentEc(s: Session, p: Party, calls: seq<Call>)
    requires s.pq.Valid()
    ensures Went(s, p, calls).ec == E.After(s.ec, EcOps(calls))
  {
    hide Kept, E.Did, Model.Valid;
    if calls != [] {
      var init := calls[..|calls| - 1];
      WentEc(s, p, init);
      KeptEc(Went(s, p, init), p, calls[|calls| - 1]);
      assert EcOps(calls)[..|EcOps(calls)| - 1] == EcOps(init);
    }
  }

  /** A session whose EC half never yields a letter's key never opens the letter. */
  lemma WrongKeyFails(s: Session, w: World, m: Letter, name: Dh)
    requires s.pq.Valid() && C.WorldOk(w.ec) && LetterOk(w, m)
    requires s.ec.Resolve(m.msg.header.ec, name).1 != Ok(C.KeyOf(w.ec, m.j, m.n))
    ensures s.Decrypt(m.msg, m.from, m.from.Peer(), name).1.Err?
  {
    hide Ec.Resolve, Model.Receive, Model.Valid, C.WorldOk, C.KeyOf, C.HeaderOf, C.SentTo;
  }

  /**
   A letter of the receiving chain is delivered a second time and the caller keeps the state
   of the failed call: the next letter of that chain can never be decrypted again, whatever
   the caller sends or receives in between.
   */
  lemma RepeatLosesNext(sk: Term, bob: Dh, alice: Dh, steps: seq<Step>, m: Letter, next: Letter, name: Dh, calls: seq<Call>, name': Dh)
    requires bob != alice && name !in Run(sk, bob, alice, steps).ec.keys
    requires m in Run(sk, bob, alice, steps).delivered && next in Run(sk, bob, alice, steps).wire
    requires m.j + 1 == Run(sk, bob, alice, steps).ec.At(m.from.Peer()).s
    requires next.from == m.from && next.j == m.j && next.n == Run(sk, bob, alice, steps).ec.At(m.from.Peer()).r
    ensures var (w, p) := (Run(sk, bob, alice, steps), m.from.Peer());
      var (s, r) := w.At(p).Decrypt(m.msg, m.from, p, name);
      && s.pq.Valid() && r.Err?
      && C.WorldOk(w.ec) && EcAccepts(w, next)
      && Went(s, p, calls).Decrypt(next.msg, m.from, p, name').1.Err?
  {
    hide Run, Session.Decrypt, Went, Inv;
    RunInv(sk, bob, alice, steps);
    RepeatInWorld(Run(sk, bob, alice, steps), sk, m, next, name, calls, name');
  }

  lemma RepeatInWorld(w: World, sk: Term, m: Letter, next: Letter, name: Dh, calls: seq<Call>, name': Dh)
    requires Inv(w, sk) && name !in w.ec.keys && m in w.delivered && next in w.wire
    requires m.j + 1 == w.ec.At(m.from.Peer()).s
    requires next.from == m.from && next.j == m.j && next.n == w.ec.At(m.from.Peer()).r
    ensures var p := m.from.Peer();
      var (s, r) := w.At(p).Decrypt(m.msg, m.from, p, name);
      && s.pq.Valid() && r.Err? && C.WorldOk(w.ec) && EcAccepts(w, next)
      && Went(s, p, calls).Decrypt(next.msg, m.from, p, name').1.Err?
  {
    hide C.WorldOk, Q.DuoInv, Unique, Session.Decrypt, Went, Model.Valid, Ec.Resolve, C.KeyOf, C.HeaderOf, Got, E.After;
    var p := m.from.Peer();
    assert LetterOk(w, m) && LetterOk(w, next) && DeliveredOk(w, m);
    var (s, r) := w.At(p).Decrypt(m.msg, m.from, p, name);
    DecryptValid(w.At(p), m.msg, m.from, p, name);
    E.RepeatLosesNext(w.ec, p, m.j, m.n, name, EcOps(calls), next.msg.header.ec, name');
    WrongKeyFails(w.At(p), w, m, name);
    C.ResolvedExactly(w.ec, p, next.j, next.n, name);
    KeptEc(w.At(p), p, Rx(m.msg, name));
    WentEc(s, p, calls);
    WrongKeyFails(Went(s, p, calls), w, next, name');
  }

  // ---- such a run -----------------------------------------------------------------------------

  /** Both letters of the initiator, before anything is delivered. */
  ghost predicate TwoSent(w: World, bob: Dh, alice: Dh, sk: Term, m0: Letter, m1: Letter, p0: Plain, p1: Plain)
  {
    && Inv(w, sk) && w.wire == {m0, m1} && w.delivered == {}
    && w.ec.keys == [bob, alice] && w.ec.lens == [0, 2] && w.ec.sk == sk
    && w.ec.b == C.Side(InitBob(sk, bob), 0, 0, map[], map[])
    && w.duo.b == R.Trail(Initial(AuthSeed(sk), B2A), map[], 0)
    && m0.from == Alice && m0.j == 1 && m0.n == 0 && m0.plain == p0 && m0.sealed.n == 1
    && m1.from == Alice && m1.j == 1 && m1.n == 1 && m1.plain == p1 && m1.sealed.n == 2
    && Q.EpochOf(m0.sealed) == 0 && Q.EpochOf(m1.sealed) == 0
  }

  lemma InvFacts(w: World, sk: Term)
    requires Inv(w, sk)
    ensures w.Live() && w.ec.sk == sk && w.b == Session(w.ec.b.ec, w.duo.b.m)
    ensures forall m :: m in w.wire ==> m.sealed in w.duo.wire && m.sealed.from == m.from
  {
    hide C.WorldOk, Q.DuoInv, Unique, DeliveredOk, Model.Valid;
    forall m | m in w.wire ensures m.sealed in w.duo.wire && m.sealed.from == m.from { assert LetterOk(w, m); }
  }

  /** What an encryption does to the sender's own records. */
  lemma SenderAfter(w: World, sk: Term, p: Party, plain: Plain, coins: Term)
    requires Inv(w, sk) && w.At(p).Encrypt(plain, p, p.Peer(), coins).1.Ok?
    ensures w.ec.At(p).s < |w.ec.lens|
    ensures var (w', s) := (Apply(w, Encrypt(p, plain, coins)), w.ec.At(p).s);
      && w'.ec.At(p).s == s && w'.ec.lens == w.ec.lens[s := w.ec.lens[s] + 1]
      && w'.duo.At(p).m == w.duo.At(p).m.Send(coins).0 && w'.delivered == w.delivered
  {
    hide C.WorldOk, Q.DuoInv, Q.Apply, Model.Send, Model.Valid, LetterOk, DeliveredOk, Unique;
    SideBounds(w.ec, p);
    Q.SendEffect(w.duo, p, coins);
  }

  lemma CanEncrypt(w: World, sk: Term, p: Party, plain: Plain, coins: Term)
    requires Inv(w, sk) && w.ec.At(p).s >= 1
    ensures w.At(p).Encrypt(plain, p, p.Peer(), coins).1.Ok?
  {
    hide C.WorldOk, Q.DuoInv, Model.Send, Model.Valid, LetterOk, DeliveredOk, Unique, C.EcApply, Ec.Send, C.HeaderOf, C.KeyOf;
    C.SendOk(w.ec, p);
  }

  /** The numbers of the initiator's first two sends. */
  lemma FirstNumbers(sk: Term, c0: Term, c1: Term)
    requires Initial(sk, A2B).Valid()
    ensures var m := Initial(sk, A2B);
      && m.Send(c0).2 == 1 && m.Send(c0).1.epoch == 1 && m.Send(c0).0.Valid()
      && m.Send(c0).0.Send(c1).2 == 2 && m.Send(c0).0.Send(c1).1.epoch == 1
  {
    var m := Initial(sk, A2B);
    R.SendValid(m, c0);
    R.SendNumber(m, c0);
    R.SendBraid(m, c0);
    BraidMachine.SendStep(m.braid, c0);
    var next := m.Send(c0).0;
    hide Model.Send, BraidMachine.State.Send;
    R.SendNumber(next, c1);
    R.SendBraid(next, c1);
    BraidMachine.SendStep(next.braid, c1);
  }

  lemma TwoLetters(sk: Term, bob: Dh, alice: Dh, p0: Plain, p1: Plain, c0: Term, c1: Term) returns (m0: Letter, m1: Letter)
    requires bob != alice
    ensures TwoSent(Run(sk, bob, alice, [Encrypt(Alice, p0, c0), Encrypt(Alice, p1, c1)]), bob, alice, sk, m0, m1, p0, p1)
  {
    hide Apply, Session.Encrypt, Inv, LetterOk, Model.Send, Model.Valid, Initial, Run;
    var (x, y) := (Encrypt(Alice, p0, c0), Encrypt(Alice, p1, c1));
    var w0 := Init(sk, bob, alice);
    InitInv(sk, bob, alice);
    InitFacts(sk, bob, alice, p0, c0);
    FirstNumbers(AuthSeed(sk), c0, c1);
    OneStep(sk, bob, alice, x);
    var w1 := Apply(w0, x);
    m0 := EncryptLetter(w0, sk, Alice, p0, c0);
    EncryptInv(w0, sk, Alice, p0, c0);
    ReceiverUntouched(w0, sk, Alice, p0, c0);
    SenderAfter(w0, sk, Alice, p0, c0);
    CanEncrypt(w1, sk, Alice, p1, c1);
    TwoSteps(sk, bob, alice, x, y);
    m1 := EncryptLetter(w1, sk, Alice, p1, c1);
    EncryptInv(w1, sk, Alice, p1, c1);
    ReceiverUntouched(w1, sk, Alice, p1, c1);
    SenderAfter(w1, sk, Alice, p1, c1);
    var w2 := Apply(w1, y);
    InvFacts(w2, sk);
    assert w2.wire == {m0, m1} && w2.ec.lens == [0, 2];
  }

  lemma TwoSteps(sk: Term, bob: Dh, alice: Dh, x: Step, y: Step)
    ensures Run(sk, bob, alice, [x, y]) == Apply(Run(sk, bob, alice, [x]), y)
  {
    hide Apply;
    assert [x, y][..|[x, y]| - 1] == [x];
  }

  /** Delivering the first of the two letters. */
  lemma FirstDecrypts(w: World, sk: Term, bob: Dh, alice: Dh, m0: Letter, m1: Letter, p0: Plain, p1: Plain, name: Dh)
    requires TwoSent(w, bob, alice, sk, m0, m1, p0, p1) && name !in w.ec.keys
    ensures w.b.Decrypt(m0.msg, Alice, Bob, name).1 == Ok(p0)
  {
    hide Session.Decrypt, Inv, LetterOk, Initial, Model.Valid, R.Braided;
    InvFacts(w, sk);
    assert R.Highest({}, 0);
    DecryptLetter(w, sk, m0, name, 0);
    FewSecrets(sk, m0.sealed.msg);
    assert C.InReach(w.ec.b, w.ec.lens, 1, 0);
  }

  lemma PickIs(w: World, sk: Term, m0: Letter, m1: Letter)
    requires Inv(w, sk) && w.wire == {m0, m1} && m0.n != m1.n && m0.from == Alice
    ensures Matches(m0, w.wire, Alice, m0.msg) && Pick(w.wire, Alice, m0.msg) == m0
  {
    hide C.WorldOk, Q.DuoInv, Unique, DeliveredOk, C.KeyOf;
    assert Matches(m0, w.wire, Alice, m0.msg);
    assert LetterOk(w, m0) && LetterOk(w, m1);
  }

  lemma ApplyAccepts(w: World, sk: Term, m0: Letter, m1: Letter, name: Dh)
    requires Inv(w, sk) && w.wire == {m0, m1} && m0.n != m1.n && m0.from == Alice && name !in w.ec.keys
    requires w.b.Decrypt(m0.msg, Alice, Bob, name).1.Ok?
    ensures Apply(w, Decrypt(Bob, m0.msg, name)) == Accepted(w, m0, name) && Accepted(w, m0, name).Live()
  {
    hide Session.Decrypt, C.EcApply, Q.Apply, Inv, Model.Valid, Pick;
    PickIs(w, sk, m0, m1);
  }

  /** After the first letter: the second is readable. */
  lemma SecondReadable(w: World, sk: Term, bob: Dh, alice: Dh, m0: Letter, m1: Letter, p0: Plain, p1: Plain, name: Dh, again: Dh)
    requires TwoSent(w, bob, alice, sk, m0, m1, p0, p1) && name !in w.ec.keys && again !in w.ec.keys + [name]
    requires w.b.Decrypt(m0.msg, Alice, Bob, name).1.Ok? && Accepted(w, m0, name).Live()
    ensures var w' := Accepted(w, m0, name);
      && Inv(w', sk) && m0 in w'.delivered && m1 in w'.wire && again !in w'.ec.keys && w'.ec.b.s == 2 && w'.ec.b.r == 1
      && w'.b.Decrypt(m1.msg, Alice, Bob, again).1 == Ok(p1)
  {
    hide Session.Decrypt, Inv, LetterOk, C.EcApply, Q.Apply, Initial, Model.Valid, R.Braided, Ec.Resolve, C.KeyOf, C.WorldOk, C.HeaderOf;
    InvFacts(w, sk);
    var w' := Accepted(w, m0, name);
    AcceptedInv(w, sk, m0, name);
    FirstKey(w, sk, m0, name);
    E.FirstReceived(w.ec, name);
    DecryptSessions(w, sk, m0, name);
    assert w'.ec.b == C.EcApply(w.ec, C.Receive(Bob, 1, 0, name)).b;
    RepeatInWorld(w', sk, m0, m1, again, [], again);
    SecondHeard(w, w', sk, m0, m1, again);
  }

  lemma SecondHeard(w: World, w': World, sk: Term, m0: Letter, m1: Letter, again: Dh)
    requires Inv(w, sk) && Inv(w', sk) && m0 in w.wire && m1 in w'.wire && again !in w'.ec.keys && m0.from == m1.from == Alice
    requires w.duo.b == R.Trail(Initial(AuthSeed(sk), B2A), map[], 0) && w'.duo == Q.Apply(w.duo, Q.Deliver(m0.sealed))
    requires w'.duo.b.accepted == Add(map[], 0, 1) && m1.sealed.n == 2 && Q.EpochOf(m1.sealed) == 0
    requires C.WorldOk(w'.ec) && EcAccepts(w', m1) && w.duo.b.m.braid.Receive(m0.sealed.msg).Ok?
    ensures w'.b.Decrypt(m1.msg, Alice, Bob, again).1 == Ok(m1.plain)
  {
    hide Session.Decrypt, Inv, LetterOk, Q.Apply, Initial, Model.Valid, R.Braided, C.WorldOk, EcAccepts, Add;
    InvFacts(w, sk);
    InvFacts(w', sk);
    assert R.Highest({1}, 1) && Got(w'.duo.b.accepted, 0) == {1};
    DecryptLetter(w', sk, m1, again, 1);
    FewMore(w, sk, m0, m1);
  }

  lemma FirstKey(w: World, sk: Term, m: Letter, name: Dh)
    requires Inv(w, sk) && m in w.wire && name !in w.ec.keys
    requires w.At(m.from.Peer()).Decrypt(m.msg, m.from, m.from.Peer(), name).1.Ok?
    ensures C.WorldOk(w.ec) && LetterOk(w, m) && w.duo.At(m.from.Peer()).m.braid.Receive(m.sealed.msg).Ok?
    ensures w.ec.At(m.from.Peer()).ec.Resolve(C.HeaderOf(w.ec.keys, w.ec.lens, m.j, m.n), name).1 == Ok(C.KeyOf(w.ec, m.j, m.n))
  {
    hide C.WorldOk, Q.DuoInv, Unique, DeliveredOk, Session.Decrypt, Ec.Resolve, C.KeyOf, C.HeaderOf, Model.Valid;
    assert LetterOk(w, m);
    var h := R.HighestOf(Got(w.duo.At(m.from.Peer()).accepted, Q.EpochOf(m.sealed)));
    DecryptLetter(w, sk, m, name, h);
  }

  lemma FewMore(w: World, sk: Term, m0: Letter, m1: Letter)
    requires w.Live() && w.duo.b == R.Trail(Initial(AuthSeed(sk), B2A), map[], 0)
    requires m0.sealed in w.duo.wire && m0.from == Alice && m0.sealed.from == Alice
    requires w.duo.b.m.braid.Receive(m0.sealed.msg).Ok?
    requires Q.Apply(w.duo, Q.Deliver(m0.sealed)).b.m.braid.Receive(m1.sealed.msg).Ok?
    ensures |R.Braided(Q.Apply(w.duo, Q.Deliver(m0.sealed)).b.m, m1.sealed.msg).secrets| <= 2
  {
    hide Q.Apply, Model.Valid, R.Braided, BraidMachine.State.Receive;
    FewSecrets(sk, m0.sealed.msg);
    Q.DeliverSecrets(w.duo, m0.sealed);
    R.BraidedShape(Q.Apply(w.duo, Q.Deliver(m0.sealed)).b.m, m1.sealed.msg);
  }

  /**
   The input that does it: the responder decrypts the first of two letters, gets it again,
   and keeps the state of the failed call. The second letter, readable until then, is lost
   for good.
   */
  lemma SecondCopyLosesSecondLetter(sk: Term, bob: Dh, alice: Dh, p0: Plain, p1: Plain, c0: Term, c1: Term,
                                    name: Dh, again: Dh, calls: seq<Call>, name': Dh)
    returns (m0: Letter, m1: Letter)
    requires bob != alice && name !in [bob, alice] && again !in [bob, alice, name]
    ensures var w := Run(sk, bob, alice, [Encrypt(Alice, p0, c0), Encrypt(Alice, p1, c1), Decrypt(Bob, m0.msg, name)]);
      && m0 in w.delivered && m0.plain == p0 && m1 in w.wire && m1.plain == p1
      && w.b.Decrypt(m1.msg, Alice, Bob, again).1 == Ok(p1)
      && var (s, r) := w.b.Decrypt(m0.msg, Alice, Bob, again);
      && r.Err? && s.pq.Valid() && Went(s, Bob, calls).Decrypt(m1.msg, Alice, Bob, name').1.Err?
  {
    hide Run, Apply, Session.Decrypt, Inv, Went, Accepted, Model.Valid, LetterOk;
    m0, m1 := TwoLetters(sk, bob, alice, p0, p1, c0, c1);
    var (x, y, z) := (Encrypt(Alice, p0, c0), Encrypt(Alice, p1, c1), Decrypt(Bob, m0.msg, name));
    var w := Run(sk, bob, alice, [x, y]);
    FirstDecrypts(w, sk, bob, alice, m0, m1, p0, p1, name);
    ApplyAccepts(w, sk, m0, m1, name);
    ThreeSteps(sk, bob, alice, x, y, z);
    SecondReadable(w, sk, bob, alice, m0, m1, p0, p1, name, again);
    RepeatInWorld(Accepted(w, m0, name), sk, m0, m1, again, calls, name');
  }

  lemma ThreeSteps(sk: Term, bob: Dh, alice: Dh, x: Step, y: Step, z: Step)
    ensures Run(sk, bob, alice, [x, y, z]) == Apply(Run(sk, bob, alice, [x, y]), z)
  {
    hide Apply;
    assert [x, y, z][..|[x, y, z]| - 1] == [x, y];
  }
}
