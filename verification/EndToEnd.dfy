/**
 Two sessions from one shared secret on a network that loses, repeats and reorders messages
 and lets anyone change headers, send ciphertexts back or deliver noise. The callers keep
 the old session whenever a call returns an error.
 */
module EndToEnd {
  import opened Common
  import opened Symbolic
  import opened BraidMachine
  import opened Spqr
  import opened SpqrRuns
  import opened EcRatchet
  import opened Ratchet
  import Q = SpqrPairing
  import C = EcPairing

  /** A sent message, with its place in the EC sequence and the SPQR message inside it. */
  datatype Letter = Letter(from: Party, j: nat, n: nat, sealed: Q.Sealed, plain: Plain, msg: RatchetMessage)

  /** Both sessions; `ec` and `duo` record what each ratchet has accepted so far. */
  datatype World = World(a: Session, b: Session, ec: C.EcWorld, duo: Q.Duo, wire: set<Letter>, delivered: set<Letter>) {
    function At(p: Party): Session { if p == Alice then a else b }

    predicate Live() { a.pq.Valid() && b.pq.Valid() && duo.Live() }

    function Put(p: Party, s: Session): World { if p == Alice then this.(a := s) else this.(b := s) }
  }

  datatype Step = Encrypt(sender: Party, plain: Plain, coins: Term) | Decrypt(receiver: Party, msg: RatchetMessage, name: Dh)

  /** Nobody but the parties can make a ciphertext under their keys. */
  predicate Deliverable(wire: set<Letter>, cipher: Cipher)
  {
    cipher.Noise? || exists m :: m in wire && m.msg.cipher == cipher
  }

  predicate Matches(m: Letter, wire: set<Letter>, from: Party, msg: RatchetMessage)
  {
    m in wire && m.from == from && m.msg == msg
  }

  ghost function Pick(wire: set<Letter>, from: Party, msg: RatchetMessage): (m: Letter)
    requires exists m :: Matches(m, wire, from, msg)
    ensures Matches(m, wire, from, msg)
  {
    var m :| Matches(m, wire, from, msg); m
  }

  function Init(sk: Term, bob: Dh, alice: Dh): World
  {
    World(Session(InitAlice(sk, bob, alice), Initial(AuthSeed(sk), A2B)), Session(InitBob(sk, bob), Initial(AuthSeed(sk), B2A)),
          C.EcInit(sk, bob, alice), Q.Init(AuthSeed(sk)), {}, {})
  }

  /** Two session objects made from one shared secret start as the two sessions of a run do. */
  method OpenPair(sk: Term, bob: Dh, alice: Dh) returns (a: RatchetSession, b: RatchetSession)
    ensures fresh(a) && fresh(b) && a.Valid() && b.Valid()
    ensures a.View() == Init(sk, bob, alice).a && b.View() == Init(sk, bob, alice).b
  {
    hide Initial, SpqrState.Valid;
    a := new RatchetSession.InitializeAlice(sk, bob, alice);
    b := new RatchetSession.InitializeBob(sk, bob);
  }

  lemma EncryptValid(s: Session, plain: Plain, p: Party, q: Party, coins: Term)
    requires s.pq.Valid()
    ensures s.Encrypt(plain, p, q, coins).0.pq.Valid()
  {
    hide Model.Send, Model.Valid;
    SendValid(s.pq, coins);
  }

  lemma DecryptValid(s: Session, msg: RatchetMessage, p: Party, q: Party, name: Dh)
    requires s.pq.Valid()
    ensures s.Decrypt(msg, p, q, name).0.pq.Valid()
  {
    hide Model.Receive, Model.Valid;
    ReceiveValid(s.pq, msg.header.braid, msg.header.pqN);
  }

  ghost function Apply(w: World, step: Step): (w': World)
    requires w.Live()
    ensures w'.Live()
  {
    match step
    case Encrypt(p, plain, coins) =>
      var (s, r) := w.At(p).Encrypt(plain, p, p.Peer(), coins);
      EncryptValid(w.At(p), plain, p, p.Peer(), coins);
      if r.Err? then w
      else
        var (_, braid, pqN, pqMk) := w.duo.At(p).m.Send(coins);
        var side := w.ec.At(p);
        var m := Letter(p, side.s, if side.s < |w.ec.lens| then w.ec.lens[side.s] else 0, Q.Sealed(p, braid, pqN, pqMk), plain, r.value);
        w.Put(p, s).(ec := C.EcApply(w.ec, C.Send(p)), duo := Q.Apply(w.duo, Q.Send(p, coins)), wire := w.wire + {m})
    case Decrypt(p, msg, name) =>
      var (s, r) := w.At(p).Decrypt(msg, p.Peer(), p, name);
      DecryptValid(w.At(p), msg, p.Peer(), p, name);
      if r.Err? || name in w.ec.keys || !Deliverable(w.wire, msg.cipher) then w
      else if !exists m :: Matches(m, w.wire, p.Peer(), msg) then w.Put(p, s)
      else
        var m := Pick(w.wire, p.Peer(), msg);
        w.Put(p, s).(ec := C.EcApply(w.ec, C.Receive(p, m.j, m.n, name)), duo := Q.Apply(w.duo, Q.Deliver(m.sealed)),
                     delivered := w.delivered + {m})
  }

  ghost function Run(sk: Term, bob: Dh, alice: Dh, steps: seq<Step>): (w: World)
    ensures w.Live()
  {
    if steps == [] then Init(sk, bob, alice) else Apply(Run(sk, bob, alice, steps[..|steps| - 1]), steps[|steps| - 1])
  }

  // ---- invariant ----------------------------------------------------------------------------

  /** The message a letter has to be. */
  function Compose(ec: C.EcWorld, m: Letter): RatchetMessage
    requires 1 <= m.j < |ec.keys| == |ec.lens|
  {
    var hdr := Header(C.HeaderOf(ec.keys, ec.lens, m.j, m.n), m.sealed.msg, m.sealed.n);
    RatchetMessage(hdr, Aead(Hybrid(C.KeyOf(ec, m.j, m.n), m.sealed.key), m.plain, Ad(m.from, m.from.Peer(), hdr)))
  }

  ghost predicate LetterOk(w: World, m: Letter)
  {
    && C.SentTo(w.ec, m.from.Peer(), m.j, m.n) && m.msg == Compose(w.ec, m)
    && m.sealed in w.duo.wire && m.sealed.from == m.from
  }

  /** Neither place is used twice by one sender. */
  ghost predicate Unique(wire: set<Letter>)
  {
    forall m, k :: m in wire && k in wire && m.from == k.from && ((m.j == k.j && m.n == k.n) || m.sealed == k.sealed) ==> m == k
  }

  /** Each ratchet has accepted exactly the letters delivered. */
  ghost predicate DeliveredOk(w: World, m: Letter)
  {
    var p := m.from.Peer();
    && (m in w.delivered <==> m.n in Got(w.ec.At(p).accepted, m.j))
    && (m in w.delivered <==> m.sealed.n in Got(w.duo.At(p).accepted, Q.EpochOf(m.sealed)))
  }

  ghost predicate Inv(w: World, sk: Term)
  {
    && w.Live() && C.WorldOk(w.ec) && w.ec.sk == sk && Q.DuoInv(w.duo, AuthSeed(sk))
    && w.a == Session(w.ec.a.ec, w.duo.a.m) && w.b == Session(w.ec.b.ec, w.duo.b.m)
    && (forall m :: m in w.wire ==> LetterOk(w, m) && DeliveredOk(w, m))
    && Unique(w.wire) && w.delivered <= w.wire
  }

  // ---- one delivery -------------------------------------------------------------------------

  /** What the EC ratchet needs to accept a letter. */
  ghost predicate EcAccepts(w: World, m: Letter)
    requires C.WorldOk(w.ec)
  {
    var side := w.ec.At(m.from.Peer());
    m.n !in Got(side.accepted, m.j) && m.n !in Got(side.dropped, m.j) && C.InReach(side, w.ec.lens, m.j, m.n)
  }

  /** What the SPQR ratchet needs, given the highest number h it has accepted in the letter's epoch. */
  ghost predicate PqAccepts(w: World, m: Letter, h: nat)
    requires w.Live() && w.duo.At(m.from.Peer()).m.braid.Receive(m.sealed.msg).Ok?
  {
    var t := w.duo.At(m.from.Peer());
    var e := Q.EpochOf(m.sealed);
    && !Pruned(t.m.dir, e, |Braided(t.m, m.sealed.msg).secrets|)
    && m.sealed.n !in Got(t.accepted, e) && m.sealed.n <= h + MAX_SKIP + 1
  }

  /**
   A letter is decrypted exactly when both ratchets accept it, and then to its own text: any
   other key the EC ratchet may produce fails the AEAD.
   */
  lemma DecryptLetter(w: World, sk: Term, m: Letter, name: Dh, h: nat)
    requires Inv(w, sk) && m in w.wire && name !in w.ec.keys
    requires Highest(Got(w.duo.At(m.from.Peer()).accepted, Q.EpochOf(m.sealed)), h)
    ensures w.duo.At(m.from.Peer()).m.braid.Receive(m.sealed.msg).Ok?
    ensures var r := w.At(m.from.Peer()).Decrypt(m.msg, m.from, m.from.Peer(), name).1;
      (r.Ok? <==> EcAccepts(w, m) && PqAccepts(w, m, h)) && (r.Ok? ==> r.value == m.plain)
    ensures var (r, p) := (w.At(m.from.Peer()).Decrypt(m.msg, m.from, m.from.Peer(), name).1, m.from.Peer());
      r.Ok? ==> w.ec.At(p).ec.Resolve(m.msg.header.ec, name).1 == Ok(C.KeyOf(w.ec, m.j, m.n))
  {
    hide C.WorldOk, Q.DuoInv, Unique, DeliveredOk, Got, Highest, Pruned, Braided, C.InReach, C.KeyOf, C.HeaderOf,
         Ec.Resolve, Model.Receive, Model.Valid, State.Receive;
    var p := m.from.Peer();
    assert LetterOk(w, m);
    C.ResolvedExactly(w.ec, p, m.j, m.n, name);
    Q.VerdictInDuo(w.duo, AuthSeed(sk), m.sealed, h);
  }

  /**
   Whatever is decrypted, under whatever identities, is word for word a letter of the peer to
   this party, and these are the identities: a party never opens its own letters.
   */
  lemma OnlyLetters(w: World, sk: Term, p: Party, msg: RatchetMessage, x: Party, y: Party, name: Dh)
    requires Inv(w, sk) && Deliverable(w.wire, msg.cipher) && w.At(p).Decrypt(msg, x, y, name).1.Ok?
    ensures x == p.Peer() && y == p && exists m :: Matches(m, w.wire, p.Peer(), msg)
  {
    hide C.WorldOk, Q.DuoInv, Unique, DeliveredOk, Ec.Resolve, Model.Receive, Model.Valid, C.KeyOf, C.HeaderOf,
         C.SentTo;
    var m :| m in w.wire && m.msg.cipher == msg.cipher;
    assert LetterOk(w, m);
    Q.NeverOwnKey(w.duo, AuthSeed(sk), m.sealed, msg.header.braid, msg.header.pqN);
    assert Matches(m, w.wire, p.Peer(), msg);
  }

  // ---- steps --------------------------------------------------------------------------------

  lemma LettersKept(w: World, w': World)
    requires C.WorldOk(w.ec) && C.WorldOk(w'.ec) && C.Extended(w.ec, w'.ec) && w.duo.wire <= w'.duo.wire
    requires forall m :: m in w.wire ==> LetterOk(w, m)
    ensures forall m :: m in w.wire ==> LetterOk(w', m)
  {
    hide C.WorldOk, C.Extended, C.SentTo, C.HeaderOf, C.KeyOf;
    forall m | m in w.wire ensures LetterOk(w', m) {
      assert LetterOk(w, m);
      SentBounds(w.ec, m.from.Peer(), m.j, m.n);
      C.ExtendedKeeps(w.ec, w'.ec, m.from.Peer(), m.j, m.n);
      SentBounds(w'.ec, m.from.Peer(), m.j, m.n);
    }
  }

  lemma SentBounds(w: C.EcWorld, p: Party, j: nat, n: nat)
    requires C.SentTo(w, p, j, n)
    ensures 1 <= j < |w.keys| == |w.lens|
  {
  }

  /** The letter an encryption puts on the wire. */
  lemma EncryptLetter(w: World, sk: Term, p: Party, plain: Plain, coins: Term) returns (m: Letter)
    requires Inv(w, sk) && w.At(p).Encrypt(plain, p, p.Peer(), coins).1.Ok?
    ensures 1 <= w.ec.At(p).s < |w.ec.keys| == |w.ec.lens|
    ensures var (w', side) := (Apply(w, Encrypt(p, plain, coins)), w.ec.At(p));
      && w'.wire == w.wire + {m} && LetterOk(w', m) && m.from == p
      && m.j == side.s && m.n == w.ec.lens[side.s] && m.sealed !in w.duo.wire
      && m.sealed.n !in Got(w.duo.At(p.Peer()).accepted, Q.EpochOf(m.sealed))
      && m.plain == plain && m.sealed.n == w.duo.At(p).m.Send(coins).2
      && m.sealed.msg == w.duo.At(p).m.Send(coins).1
  {
    hide C.WorldOk, Q.DuoInv, Unique, DeliveredOk, Got, C.KeyOf, C.HeaderOf, C.EcApply, Q.Apply, Model.Send,
         Model.Valid, Ec.Send, C.SentTo;
    var side := w.ec.At(p);
    C.SendOk(w.ec, p);
    SideBounds(w.ec, p);
    Q.SealedNew(w.duo, AuthSeed(sk), p, coins);
    Q.SendEffect(w.duo, p, coins);
    C.SendExtends(w.ec, p);
    var (_, braid, pqN, pqMk) := w.duo.At(p).m.Send(coins);
    m := Letter(p, side.s, w.ec.lens[side.s], Q.Sealed(p, braid, pqN, pqMk), plain, w.At(p).Encrypt(plain, p, p.Peer(), coins).1.value);
    HeaderAfterSend(w.ec, p);
  }

  lemma SideBounds(w: C.EcWorld, p: Party)
    requires C.WorldOk(w)
    ensures w.At(p).s < |w.keys| == |w.lens|
  {
    hide C.Books, C.Kept;
  }

  lemma HeaderAfterSend(w: C.EcWorld, p: Party)
    requires C.WorldOk(w) && w.At(p).s >= 1
    ensures var (w', j) := (C.EcApply(w, C.Send(p)), w.At(p).s);
      && j < |w.keys| == |w.lens| && w'.keys == w.keys && |w'.lens| == |w.lens| && w'.sk == w.sk
      && C.HeaderOf(w'.keys, w'.lens, j, w.lens[j]) == C.HeaderOf(w.keys, w.lens, j, w.lens[j])
      && C.KeyOf(w', j, w.lens[j]) == C.KeyOf(w, j, w.lens[j])
  {
    hide C.Books, C.Kept, C.Start, KeyAt, C.RootAt;
  }

  lemma EncryptInv(w: World, sk: Term, p: Party, plain: Plain, coins: Term)
    requires Inv(w, sk)
    ensures Inv(Apply(w, Encrypt(p, plain, coins)), sk)
  {
    hide C.WorldOk, Q.DuoInv, Unique, DeliveredOk, C.Extended, LetterOk, Session.Encrypt, Model.Valid, Apply, Got;
    if w.At(p).Encrypt(plain, p, p.Peer(), coins).1.Ok? {
      EncryptSessions(w, sk, p, plain, coins);
      var m := EncryptLetter(w, sk, p, plain, coins);
      LettersKept(w, Apply(w, Encrypt(p, plain, coins)));
      DeliveredKept(w, Apply(w, Encrypt(p, plain, coins)), m);
      UniqueAdds(w, m);
    } else {
      FailedEncrypt(w, p, plain, coins);
    }
  }

  lemma FailedEncrypt(w: World, p: Party, plain: Plain, coins: Term)
    requires w.Live() && w.At(p).Encrypt(plain, p, p.Peer(), coins).1.Err?
    ensures Apply(w, Encrypt(p, plain, coins)) == w
  {
    hide Session.Encrypt, Model.Valid;
  }

  lemma EncryptSessions(w: World, sk: Term, p: Party, plain: Plain, coins: Term)
    requires Inv(w, sk) && w.At(p).Encrypt(plain, p, p.Peer(), coins).1.Ok?
    ensures var w' := Apply(w, Encrypt(p, plain, coins));
      && C.WorldOk(w'.ec) && w'.ec.sk == sk && Q.DuoInv(w'.duo, AuthSeed(sk)) && C.Extended(w.ec, w'.ec) && w.duo.wire <= w'.duo.wire
      && w'.a == Session(w'.ec.a.ec, w'.duo.a.m) && w'.b == Session(w'.ec.b.ec, w'.duo.b.m)
      && w'.delivered == w.delivered
      && (forall q: Party :: w'.ec.At(q).accepted == w.ec.At(q).accepted && w'.duo.At(q).accepted == w.duo.At(q).accepted)
  {
    hide C.WorldOk, Q.DuoInv, Unique, DeliveredOk, Q.Apply, LetterOk, Model.Send, Model.Valid;
    SideBounds(w.ec, p);
    C.SendOk(w.ec, p);
    C.SendExtends(w.ec, p);
    Q.DuoSend(w.duo, AuthSeed(sk), p, coins);
    Q.SendEffect(w.duo, p, coins);
  }

  lemma DeliveredKept(w: World, w': World, m: Letter)
    requires C.WorldOk(w.ec) && w.delivered <= w.wire && w'.delivered == w.delivered && w'.wire == w.wire + {m}
    requires forall k :: k in w.wire ==> LetterOk(w, k) && DeliveredOk(w, k)
    requires forall q: Party :: w'.ec.At(q).accepted == w.ec.At(q).accepted && w'.duo.At(q).accepted == w.duo.At(q).accepted
    requires m.j < |w.ec.keys| == |w.ec.lens| && m.n == w.ec.lens[m.j]
    requires m.sealed !in w.duo.wire && m.sealed.n !in Got(w.duo.At(m.from.Peer()).accepted, Q.EpochOf(m.sealed))
    ensures forall k :: k in w'.wire ==> DeliveredOk(w', k)
  {
    hide C.WorldOk, Got;
    if m.n in Got(w.ec.At(m.from.Peer()).accepted, m.j) { C.AcceptedBelow(w.ec, m.from.Peer(), m.j, m.n); }
    assert m !in w.wire;
    assert forall k :: k in w.wire ==> DeliveredOk(w', k);
  }

  lemma UniqueAdds(w: World, m: Letter)
    requires C.WorldOk(w.ec) && Unique(w.wire) && (forall k :: k in w.wire ==> LetterOk(w, k))
    requires m.j < |w.ec.keys| == |w.ec.lens| && m.n == w.ec.lens[m.j] && m.sealed !in w.duo.wire
    ensures Unique(w.wire + {m})
  {
    hide C.WorldOk;
    assert forall k :: k in w.wire ==> k.sealed != m.sealed && !(k.j == m.j && k.n == m.n);
  }

  /** A decryption that goes through, seen from both ratchets. */
  lemma DecryptSessions(w: World, sk: Term, m: Letter, name: Dh)
    requires Inv(w, sk) && m in w.wire && name !in w.ec.keys
    requires w.At(m.from.Peer()).Decrypt(m.msg, m.from, m.from.Peer(), name).1.Ok?
    ensures var (p, s) := (m.from.Peer(), w.At(m.from.Peer()).Decrypt(m.msg, m.from, m.from.Peer(), name).0);
      var (ec, duo) := (C.EcApply(w.ec, C.Receive(p, m.j, m.n, name)), Q.Apply(w.duo, Q.Deliver(m.sealed)));
      && C.WorldOk(ec) && ec.sk == sk && Q.DuoInv(duo, AuthSeed(sk)) && C.Extended(w.ec, ec) && duo.wire == w.duo.wire
      && s == Session(ec.At(p).ec, duo.At(p).m) && ec.At(m.from) == w.ec.At(m.from) && duo.At(m.from) == w.duo.At(m.from)
      && C.Files(w.ec.At(p).accepted, ec.At(p).accepted, m.j, m.n)
      && duo.At(p).accepted == Add(w.duo.At(p).accepted, Q.EpochOf(m.sealed), m.sealed.n)
      && m !in w.delivered
  {
    hide C.WorldOk, Q.DuoInv, Unique, Got, Q.Apply, C.EcApply, Model.Receive, Model.Valid, Ec.Resolve,
         C.Extended, C.Files, C.HeaderOf, C.KeyOf;
    var p := m.from.Peer();
    assert LetterOk(w, m) && DeliveredOk(w, m);
    var h := HighestOf(Got(w.duo.At(p).accepted, Q.EpochOf(m.sealed)));
    DecryptLetter(w, sk, m, name, h);
    C.ReceiveOk(w.ec, p, m.j, m.n, name);
    C.ReceiveExtends(w.ec, p, m.j, m.n, name);
    C.ReceivedFiles(w.ec, p, m.j, m.n, name);
    Q.DuoDeliver(w.duo, AuthSeed(sk), m.sealed);
    Q.DeliverEffect(w.duo, m.sealed);
    ExtendedSk(w.ec, C.EcApply(w.ec, C.Receive(p, m.j, m.n, name)));
  }

  lemma ExtendedSk(w: C.EcWorld, w': C.EcWorld)
    requires C.Extended(w, w')
    ensures w'.sk == w.sk
  {
  }

  /** The world after letter m is decrypted. */
  ghost function Accepted(w: World, m: Letter, name: Dh): World
    requires w.Live()
  {
    var p := m.from.Peer();
    w.Put(p, w.At(p).Decrypt(m.msg, m.from, p, name).0)
     .(ec := C.EcApply(w.ec, C.Receive(p, m.j, m.n, name)), duo := Q.Apply(w.duo, Q.Deliver(m.sealed)), delivered := w.delivered + {m})
  }

  lemma AcceptedInv(w: World, sk: Term, m: Letter, name: Dh)
    requires Inv(w, sk) && m in w.wire && name !in w.ec.keys
    requires w.At(m.from.Peer()).Decrypt(m.msg, m.from, m.from.Peer(), name).1.Ok?
    requires Accepted(w, m, name).Live()
    ensures Inv(Accepted(w, m, name), sk)
  {
    hide C.WorldOk, Q.DuoInv, Unique, DeliveredOk, C.Extended, LetterOk, Session.Decrypt, Model.Valid, Got,
         C.EcApply, Q.Apply, C.Files, Q.EpochOf, Add;
    var w' := Accepted(w, m, name);
    DecryptSessions(w, sk, m, name);
    LettersKept(w, w');
    forall k | k in w.wire ensures DeliveredOk(w', k) {
      DeliveredNow(w, w', sk, m, k);
    }
  }

  lemma DeliveredNow(w: World, w': World, sk: Term, m: Letter, k: Letter)
    requires Unique(w.wire) && m in w.wire && k in w.wire && LetterOk(w, m) && LetterOk(w, k)
    requires DeliveredOk(w, k) && Q.DuoInv(w.duo, AuthSeed(sk))
    requires w'.delivered == w.delivered + {m} && w'.ec.At(m.from) == w.ec.At(m.from)
    requires w'.duo.At(m.from) == w.duo.At(m.from)
    requires C.Files(w.ec.At(m.from.Peer()).accepted, w'.ec.At(m.from.Peer()).accepted, m.j, m.n)
    requires w'.duo.At(m.from.Peer()).accepted == Add(w.duo.At(m.from.Peer()).accepted, Q.EpochOf(m.sealed), m.sealed.n)
    ensures DeliveredOk(w', k)
  {
    hide Q.DuoInv, Got, Add, Compose, C.SentTo, Q.EpochOf;
    if k.from == m.from && Q.EpochOf(k.sealed) == Q.EpochOf(m.sealed) && k.sealed.n == m.sealed.n {
      Q.SealedUnique(w.duo, AuthSeed(sk), k.sealed, m.sealed);
    }
  }

  lemma DecryptInv(w: World, sk: Term, p: Party, msg: RatchetMessage, name: Dh)
    requires Inv(w, sk)
    ensures Inv(Apply(w, Decrypt(p, msg, name)), sk)
  {
    hide C.WorldOk, Q.DuoInv, Unique, DeliveredOk, LetterOk, Session.Decrypt, Model.Valid, C.EcApply, Q.Apply;
    if w.At(p).Decrypt(msg, p.Peer(), p, name).1.Ok? && name !in w.ec.keys && Deliverable(w.wire, msg.cipher) {
      OnlyLetters(w, sk, p, msg, p.Peer(), p, name);
      var m := Pick(w.wire, p.Peer(), msg);
      assert Apply(w, Decrypt(p, msg, name)) == Accepted(w, m, name);
      AcceptedInv(w, sk, m, name);
      hide Inv;
    }
  }

  lemma {:induction false} RunInv(sk: Term, bob: Dh, alice: Dh, steps: seq<Step>)
    requires bob != alice
    ensures Inv(Run(sk, bob, alice, steps), sk)
  {
    hide Inv, Apply;
    if steps == [] {
      InitInv(sk, bob, alice);
    } else {
      var w := Run(sk, bob, alice, steps[..|steps| - 1]);
      RunInv(sk, bob, alice, steps[..|steps| - 1]);
      match steps[|steps| - 1]
      case Encrypt(p, plain, coins) => EncryptInv(w, sk, p, plain, coins);
      case Decrypt(p, msg, name) => DecryptInv(w, sk, p, msg, name);
    }
  }

  lemma InitInv(sk: Term, bob: Dh, alice: Dh)
    requires bob != alice
    ensures Inv(Init(sk, bob, alice), sk)
  {
    hide C.WorldOk, Q.DuoInv, Initial, Model.Valid;
    C.InitOk(sk, bob, alice);
    Q.InitDuo(AuthSeed(sk));
    assert Q.Play(AuthSeed(sk), []) == Q.Init(AuthSeed(sk));
  }

  // ---- main results -------------------------------------------------------------------------

  /** The ciphertext is the letter's text under the hybrid of the two keys of its places. */
  ghost predicate UnderSendersKey(w: World, m: Letter)
  {
    && 1 <= m.j < |w.ec.keys|
    && m.msg.cipher == Aead(Hybrid(C.KeyOf(w.ec, m.j, m.n), m.sealed.key), m.plain, Ad(m.from, m.from.Peer(), m.msg.header))
  }

  /** Not delivered, not dropped by the EC store, still in a held SPQR epoch, and no skip too long. */
  ghost predicate Welcome(w: World, m: Letter, h: nat)
    requires w.Live()
  {
    var (side, t) := (w.ec.At(m.from.Peer()), w.duo.At(m.from.Peer()));
    && m !in w.delivered
    && m.n !in Got(side.dropped, m.j) && side.s < |w.ec.lens| && C.InReach(side, w.ec.lens, m.j, m.n)
    && t.m.braid.Receive(m.sealed.msg).Ok?
    && !Pruned(t.m.dir, Q.EpochOf(m.sealed), |Braided(t.m, m.sealed.msg).secrets|)
    && m.sealed.n <= h + MAX_SKIP + 1
  }

  /**
   A letter decrypts, under the sender's hybrid key and to the sender's text, exactly when
   the caller names its sender and its recipient, it was not delivered before, the EC store
   has not dropped its key, no EC or SPQR skip is longer than MAX_SKIP, and the receiver
   still holds its SPQR epoch. So its first delivery succeeds under those conditions and
   every later one fails.
   */
  lemma DeliveredExactlyOnce(sk: Term, bob: Dh, alice: Dh, steps: seq<Step>, m: Letter, x: Party, y: Party, name: Dh, h: nat)
    requires bob != alice
    requires m in Run(sk, bob, alice, steps).wire && name !in Run(sk, bob, alice, steps).ec.keys
    requires Highest(Got(Run(sk, bob, alice, steps).duo.At(m.from.Peer()).accepted, Q.EpochOf(m.sealed)), h)
    ensures var (w, p) := (Run(sk, bob, alice, steps), m.from.Peer());
      var r := w.At(p).Decrypt(m.msg, x, y, name).1;
      UnderSendersKey(w, m) && (r.Ok? <==> Welcome(w, m, h) && x == m.from && y == p) && (r.Ok? ==> r.value == m.plain)
  {
    hide Run, C.WorldOk, Q.DuoInv, Unique, C.KeyOf, C.HeaderOf, Session.Decrypt, Model.Valid, Got, Braided,
         Pruned, Highest;
    RunInv(sk, bob, alice, steps);
    var (w, p) := (Run(sk, bob, alice, steps), m.from.Peer());
    DecryptLetter(w, sk, m, name, h);
    assert LetterOk(w, m) && DeliveredOk(w, m);
    SideBounds(w.ec, p);
    OpensOnlyFor(w.At(p), m.msg, x, y, m.from, p, name);
  }

  /**
   Whatever an adversary makes of headers and ciphertexts, and whatever identities the caller
   names, a message that decrypts is word for word one the peer sent to this party and not
   delivered before, and the identities are theirs.
   */
  lemma OnlyFreshLettersDecrypt(sk: Term, bob: Dh, alice: Dh, steps: seq<Step>, p: Party, msg: RatchetMessage, x: Party, y: Party, name: Dh)
    requires bob != alice && name !in Run(sk, bob, alice, steps).ec.keys
    requires Deliverable(Run(sk, bob, alice, steps).wire, msg.cipher)
    requires Run(sk, bob, alice, steps).At(p).Decrypt(msg, x, y, name).1.Ok?
    ensures var w := Run(sk, bob, alice, steps);
      && x == p.Peer() && y == p
      && exists m :: Matches(m, w.wire, p.Peer(), msg) && m !in w.delivered && w.At(p).Decrypt(msg, x, y, name).1 == Ok(m.plain)
  {
    hide Run, Inv, Session.Decrypt;
    RunInv(sk, bob, alice, steps);
    var w := Run(sk, bob, alice, steps);
    OnlyLetters(w, sk, p, msg, x, y, name);
    var m :| Matches(m, w.wire, p.Peer(), msg);
    var h := HighestOf(Got(w.duo.At(p).accepted, Q.EpochOf(m.sealed)));
    DecryptLetter(w, sk, m, name, h);
    DecryptSessions(w, sk, m, name);
  }

  /** Both parties just before the first message. */
  lemma InitFacts(sk: Term, bob: Dh, alice: Dh, plain: Plain, coins: Term)
    requires bob != alice
    ensures var w := Init(sk, bob, alice);
      && w.Live() && w.duo.a.m.Send(coins).2 == 1 && w.At(Alice).Encrypt(plain, Alice, Bob, coins).1.Ok?
  {
    hide State.Send, Model.Send, Key;
    InitInv(sk, bob, alice);
    SendNumber(Initial(AuthSeed(sk), A2B), coins);
  }

  lemma ReceiverUntouched(w: World, sk: Term, p: Party, plain: Plain, coins: Term)
    requires Inv(w, sk) && w.At(p).Encrypt(plain, p, p.Peer(), coins).1.Ok?
    ensures var w' := Apply(w, Encrypt(p, plain, coins));
      && w'.ec.keys == w.ec.keys && w'.ec.At(p.Peer()) == w.ec.At(p.Peer()) && w'.duo.At(p.Peer()) == w.duo.At(p.Peer())
      && |w'.ec.lens| == |w.ec.lens|
  {
    hide C.WorldOk, Q.DuoInv, Q.Apply, Model.Send, Model.Valid, LetterOk, DeliveredOk, Unique;
    Q.SendEffect(w.duo, p, coins);
  }

  lemma OneStep(sk: Term, bob: Dh, alice: Dh, step: Step)
    ensures Run(sk, bob, alice, []) == Init(sk, bob, alice)
    ensures Run(sk, bob, alice, [step]) == Apply(Run(sk, bob, alice, []), step)
  {
    hide Apply;
    assert [step][..|[step]| - 1] == [];
  }

  /** The simplest run: the initiator's first message decrypts at the responder. */
  lemma FirstMessageArrives(sk: Term, bob: Dh, alice: Dh, plain: Plain, coins: Term, name: Dh)
    requires bob != alice && name != bob && name != alice
    ensures var w := Run(sk, bob, alice, [Encrypt(Alice, plain, coins)]);
      exists m :: m in w.wire && m.from == Alice && m.plain == plain && w.At(Bob).Decrypt(m.msg, Alice, Bob, name).1 == Ok(plain)
  {
    hide Apply, Session.Decrypt, Session.Encrypt, C.EcApply, Q.Apply, Inv, LetterOk, Model.Send, Model.Valid,
         State.Receive, Initial, Braided;
    var (w0, w) := (Init(sk, bob, alice), Run(sk, bob, alice, [Encrypt(Alice, plain, coins)]));
    InitInv(sk, bob, alice);
    OneStep(sk, bob, alice, Encrypt(Alice, plain, coins));
    InitFacts(sk, bob, alice, plain, coins);
    var m := EncryptLetter(w0, sk, Alice, plain, coins);
    EncryptInv(w0, sk, Alice, plain, coins);
    ReceiverUntouched(w0, sk, Alice, plain, coins);
    assert Highest({}, 0);
    DecryptLetter(w, sk, m, name, 0);
    FewSecrets(sk, m.sealed.msg);
    assert C.InReach(w.ec.At(Bob), w.ec.lens, 1, 0);
  }

  lemma FewSecrets(sk: Term, msg: Message)
    requires Initial(AuthSeed(sk), B2A).Valid() && Initial(AuthSeed(sk), B2A).braid.Receive(msg).Ok?
    ensures |Braided(Initial(AuthSeed(sk), B2A), msg).secrets| <= 1
  {
    hide State.Receive;
  }
}
