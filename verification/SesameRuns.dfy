/**
 Two properties of whole Sesame runs: peers holding the same competing sessions settle on
 one of them, and a session is never dropped while a timely message on it is under way.
 */
module SesameRuns {
  import opened Common
  import opened Sesame

  // ---- sessions of a device -----------------------------------------------------------------

  function All(d: Device): seq<Entry> { (if d.active.Some? then [d.active.value] else []) + d.inactive }

  /** The priorities of a list of sessions. A priority is the session's root-key id, the same on both peers. */
  function Ids(es: seq<Entry>): multiset<nat>
  {
    if es == [] then multiset{} else multiset{es[0].priority} + Ids(es[1..])
  }

  lemma {:induction false} IdsAppend(xs: seq<Entry>, ys: seq<Entry>)
    ensures Ids(xs + ys) == Ids(xs) + Ids(ys)
  {
    if xs == [] {
      assert xs + ys == ys;
    } else {
      assert (xs + ys)[1..] == xs[1..] + ys;
      IdsAppend(xs[1..], ys);
    }
  }

  lemma IdsSplit(es: seq<Entry>, i: nat)
    requires i < |es|
    ensures Ids(es) == Ids(es[..i]) + multiset{es[i].priority} + Ids(es[i + 1..])
  {
    assert es == es[..i] + es[i..];
    IdsAppend(es[..i], es[i..]);
    assert es[i..][1..] == es[i + 1..];
  }

  lemma IdsRemove(es: seq<Entry>, i: nat)
    requires i < |es|
    ensures Ids(es[..i] + es[i + 1..]) + multiset{es[i].priority} == Ids(es)
  {
    hide Ids;
    IdsSplit(es, i);
    IdsAppend(es[..i], es[i + 1..]);
  }

  lemma IdsReplace(es: seq<Entry>, i: nat, e: Entry)
    requires i < |es| && e.priority == es[i].priority
    ensures Ids(es[i := e]) == Ids(es)
  {
    hide Ids;
    IdsSplit(es, i);
    IdsSplit(es[i := e], i);
    assert es[i := e][..i] == es[..i] && es[i := e][i + 1..] == es[i + 1..];
  }

  lemma IdsCons(e: Entry, es: seq<Entry>)
    ensures Ids([e] + es) == multiset{e.priority} + Ids(es)
  {
    assert ([e] + es)[1..] == es;
  }

  /** Where a session is found: 0 for the active one; past the end if it is not there. */
  function IndexOf(d: Device, id: nat): nat
  {
    if d.active.Some? && d.active.value.priority == id then 0 else 1 + Find(d.inactive, id)
  }

  function Find(es: seq<Entry>, id: nat): (i: nat)
    ensures i <= |es| && (i < |es| ==> es[i].priority == id)
    ensures i == |es| <==> id !in Ids(es)
  {
    if es == [] || es[0].priority == id then 0 else 1 + Find(es[1..], id)
  }

  /**
   A decrypt keeps the sessions and sets the active priority to the maximum of the old one
   and the one used.
   */
  lemma DecryptTakesMax(d: Device, id: nat, data: seq<bv8>, now: Time)
    requires d.active.Some? && id in Ids(All(d))
    ensures var d' := d.Recorded(IndexOf(d, id), data, now);
      && d'.active.Some? && d'.ActivePriority() == Max(d.ActivePriority(), id) && Ids(All(d')) == Ids(All(d))
  {
    hide Ids;
    var i := IndexOf(d, id);
    IdsCons(d.active.value, d.inactive);
    if i == 0 {
      IdsCons(d.active.value.Used(data, now), d.inactive);
    } else {
      var (e, rest) := (d.inactive[i - 1].Used(data, now), d.inactive[..i - 1] + d.inactive[i..]);
      IdsRemove(d.inactive, i - 1);
      IdsReplace(d.inactive, i - 1, e);
      IdsCons(d.active.value, rest);
      IdsCons(e, [d.active.value] + rest);
      IdsCons(d.active.value, d.inactive[i - 1 := e]);
    }
  }

  /** What a decrypt at time `now` that leaves `data` makes of an entry. */
  predicate Advanced(e: Entry, x: Entry, data: seq<bv8>, now: Time)
  {
    x.data == data && x.lastUsed == now && x.state == Regular && x.createdAt == e.createdAt && x.priority == e.priority
  }

  /**
   A decrypt stores the advanced session data, and the session becomes active exactly if there
   is no active one or it outranks it; the displaced session then heads the archive and the
   others keep their order. An index that is not held changes nothing.
   */
  lemma RecordStores(d: Device, index: nat, data: seq<bv8>, now: Time) returns (x: Entry)
    ensures d.At(index).None? ==> d.Recorded(index, data, now) == d
    ensures d.At(index).Some? ==>
      var (d', e) := (d.Recorded(index, data, now), d.At(index).value);
      && Advanced(e, x, data, now)
      && var up := index > 0 && (d.active.None? || e.priority > d.active.value.priority);
      && (index == 0 ==> d'.active == Some(x) && d'.inactive == d.inactive)
      && (up ==> d'.active == Some(x) &&
                 d'.inactive == (if d.active.Some? then [d.active.value] else []) + d.inactive[..index - 1] + d.inactive[index..])
      && (index > 0 && !up ==> d'.active == d.active && d'.inactive == d.inactive[..index - 1] + [x] + d.inactive[index..])
  {
    x := Entry(data, Regular, 0, now, 0);
    if d.At(index).Some? { x := x.(createdAt := d.At(index).value.createdAt, priority := d.At(index).value.priority); }
  }

  /** A decrypt replaces exactly the entry used by its advanced form and touches no other entry. */
  lemma RecordChangesOne(d: Device, index: nat, data: seq<bv8>, now: Time)
    requires d.At(index).Some?
    ensures var (d', e) := (d.Recorded(index, data, now), d.At(index).value);
      var x := Entry(data, Regular, e.createdAt, now, e.priority);
      && multiset(All(d')) + multiset{e} == multiset(All(d)) + multiset{x}
      && (d'.active == d.active || d'.active == Some(x))
  {
    RecordReplaces(d, index, data, now);
    hide All, Device.Recorded;
  }

  lemma RecordReplaces(d: Device, index: nat, data: seq<bv8>, now: Time)
    requires d.At(index).Some?
    ensures var (d', e) := (d.Recorded(index, data, now), d.At(index).value);
      && multiset(All(d')) + multiset{e} == multiset(All(d)) + multiset{e.Used(data, now)}
      && (d'.active == d.active || d'.active == Some(e.Used(data, now)))
  {
    hide Entry.Used, All, Device.Recorded, Rest, Active;
    RecordedCounts(d, index, data, now);
    AllCounts(d);
    if index == 0 {
      FirstIsActive(d);
    } else {
      var (x, y) := (d.inactive[index - 1], d.inactive[index - 1].Used(data, now));
      Without(d, index);
      With(d.inactive, index - 1, y);
      Regroup(Active(d), x, y, multiset(Rest(d, index)), multiset(d.inactive[index - 1 := y]), multiset(d.inactive));
    }
  }

  /** The inactive sessions other than the one at this index. */
  function Rest(d: Device, index: nat): seq<Entry>
    requires 0 < index <= |d.inactive|
  {
    d.inactive[..index - 1] + d.inactive[index..]
  }

  lemma FirstIsActive(d: Device)
    requires d.active.Some?
    ensures Active(d) == multiset{d.active.value}
  {
  }

  lemma RecordedCounts(d: Device, index: nat, data: seq<bv8>, now: Time)
    requires d.At(index).Some?
    ensures var (d', y) := (d.Recorded(index, data, now), d.At(index).value.Used(data, now));
      && (d'.active == d.active || d'.active == Some(y))
      && multiset(All(d')) == (
           if index == 0 then multiset{y} + multiset(d.inactive)
           else if d'.active == Some(y) && d'.active != d.active then multiset{y} + (Active(d) + multiset(Rest(d, index)))
           else Active(d) + multiset(d.inactive[index - 1 := y]))
  {
  }

  function Active(d: Device): multiset<Entry> { if d.active.Some? then multiset{d.active.value} else multiset{} }

  lemma AllCounts(d: Device)
    ensures multiset(All(d)) == Active(d) + multiset(d.inactive)
  {
  }

  lemma Regroup(a: multiset<Entry>, x: Entry, y: Entry, rest: multiset<Entry>, changed: multiset<Entry>, es: multiset<Entry>)
    requires rest + multiset{x} == es && changed + multiset{x} == es + multiset{y}
    ensures multiset{y} + (a + rest) + multiset{x} == a + es + multiset{y}
    ensures a + changed + multiset{x} == a + es + multiset{y}
    ensures multiset{y} + rest + multiset{x} == es + multiset{y}
  {
    calc {
      multiset{y} + (a + rest) + multiset{x};
      a + (rest + multiset{x}) + multiset{y};
    }
    calc {
      a + changed + multiset{x};
      a + (changed + multiset{x});
    }
  }

  lemma Without(d: Device, index: nat)
    requires 0 < index <= |d.inactive|
    ensures multiset(Rest(d, index)) + multiset{d.inactive[index - 1]} == multiset(d.inactive)
  {
    assert d.inactive == d.inactive[..index - 1] + [d.inactive[index - 1]] + d.inactive[index..];
  }

  lemma With(es: seq<Entry>, i: nat, e: Entry)
    requires i < |es|
    ensures multiset(es[i := e]) + multiset{es[i]} == multiset(es) + multiset{e}
  {
    assert es == es[..i] + [es[i]] + es[i + 1..];
    assert es[i := e] == es[..i] + [e] + es[i + 1..];
  }

  /** An insert puts the new session in front and keeps the most recent MAX_INACTIVE others, in order. */
  lemma InsertShifts(d: Device, e: Entry)
    ensures d.Inserted(e).active == Some(e) && MAX_INACTIVE == 10
    ensures All(d.Inserted(e)) == [e] + if |All(d)| > MAX_INACTIVE then All(d)[..MAX_INACTIVE] else All(d)
  {
  }

  // ---- convergence ----------------------------------------------------------------------------

  /** A message on the session with this id. */
  datatype Note = Note(to: Party, id: nat)

  datatype Peers = Peers(a: Device, b: Device, net: set<Note>) {
    function At(p: Party): Device { if p == Alice then a else b }

    function Put(p: Party, d: Device): Peers { if p == Alice then this.(a := d) else this.(b := d) }

    function Priority(p: Party): nat { At(p).ActivePriority() }
  }

  /**
   Messages go out on the active session, and may be lost, repeated or reordered. Either
   peer may store a new session at any time.
   */
  datatype Step = Send(from: Party) | Deliver(note: Note, data: seq<bv8>, now: Time)
                | Establish(at: Party, session: seq<bv8>, state: SessionState, id: nat, created: Time)

  function Apply(w: Peers, step: Step): Peers
  {
    match step
    case Send(p) => if w.At(p).active.Some? then w.(net := w.net + {Note(p.Peer(), w.Priority(p))}) else w
    case Deliver(m, data, now) =>
      if m in w.net then w.Put(m.to, w.At(m.to).Recorded(IndexOf(w.At(m.to), m.id), data, now)) else w
    case Establish(p, session, state, id, created) => w.Put(p, w.At(p).Inserted(Entry(session, state, created, created, id)))
  }

  /** Steps that store no new session. */
  predicate Settled(steps: seq<Step>) { forall step :: step in steps ==> !step.Establish? }

  function Run(w: Peers, steps: seq<Step>): Peers
  {
    if steps == [] then w else Apply(Run(w, steps[..|steps| - 1]), steps[|steps| - 1])
  }

  /** Both peers hold the same sessions, each with its own priority, and only these are in use. */
  ghost predicate Matched(w: Peers, ids: multiset<nat>)
  {
    && (forall id :: id in ids ==> ids[id] == 1)
    && w.a.active.Some? && w.b.active.Some? && Ids(All(w.a)) == ids && Ids(All(w.b)) == ids
    && (forall m :: m in w.net ==> m.id in ids)
  }

  lemma ActiveIsHeld(d: Device)
    requires d.active.Some?
    ensures d.ActivePriority() in Ids(All(d))
  {
  }

  lemma StepMatched(w: Peers, ids: multiset<nat>, step: Step, p: Party)
    requires Matched(w, ids) && !step.Establish?
    ensures Matched(Apply(w, step), ids)
    ensures var next := Apply(w, step).Priority(p);
      if step.Deliver? && step.note in w.net && step.note.to == p then next == Max(w.Priority(p), step.note.id) else next == w.Priority(p)
  {
    hide IndexOf, Ids, All, Device.Recorded;
    match step
    case Send(q) => ActiveIsHeld(w.At(q));
    case Deliver(m, data, now) =>
      if m in w.net { DecryptTakesMax(w.At(m.to), m.id, data, now); }
  }

  /** Neither an active session nor a message under way outranks `top`. */
  predicate Capped(w: Peers, top: nat)
  {
    w.Priority(Alice) <= top && w.Priority(Bob) <= top && forall m :: m in w.net ==> m.id <= top
  }

  /** Active priorities never fall, and nothing new outranks the present top. */
  lemma {:induction false} RunClimbs(w: Peers, ids: multiset<nat>, steps: seq<Step>, top: nat)
    requires Matched(w, ids) && Settled(steps)
    ensures Matched(Run(w, steps), ids) && w.net <= Run(w, steps).net
    ensures w.Priority(Alice) <= Run(w, steps).Priority(Alice) && w.Priority(Bob) <= Run(w, steps).Priority(Bob)
    ensures Capped(w, top) ==> Capped(Run(w, steps), top)
  {
    hide Matched, Device.Recorded, IndexOf;
    if steps != [] {
      var (init, step) := (steps[..|steps| - 1], steps[|steps| - 1]);
      assert step in steps;
      RunClimbs(w, ids, init, top);
      StepMatched(Run(w, init), ids, step, Alice);
      StepMatched(Run(w, init), ids, step, Bob);
    }
  }

  /** p sends, and the message arrives: with anything else happening between and after. */
  function Half(w: Peers, p: Party, between: seq<Step>, d: seq<bv8>, t: Time, after: seq<Step>): Peers
  {
    Run(Apply(Run(Apply(w, Send(p)), between), Deliver(Note(p.Peer(), w.Priority(p)), d, t)), after)
  }

  lemma HalfClimbs(w: Peers, ids: multiset<nat>, p: Party, between: seq<Step>, d: seq<bv8>, t: Time, after: seq<Step>, top: nat)
    requires Matched(w, ids) && Capped(w, top) && Settled(between) && Settled(after)
    ensures var w' := Half(w, p, between, d, t, after);
      && Matched(w', ids) && Capped(w', top) && w'.Priority(p) >= w.Priority(p)
      && w'.Priority(p.Peer()) >= w.Priority(p) && w'.Priority(p.Peer()) >= w.Priority(p.Peer())
  {
    hide Matched, Run, Apply, Settled, Device.ActivePriority;
    var w1 := SendOn(w, ids, p, top);
    RunClimbs(w1, ids, between, top);
    var w2 := DeliverOn(Run(w1, between), ids, p.Peer(), w.Priority(p), d, t, top);
    RunClimbs(w2, ids, after, top);
  }

  /**
   If nothing under way outranks both active sessions, one message each way - sent in
   sequence, with anything else happening before, between and after - leaves both peers
   active on the higher of their two sessions, for good.
   */
  lemma Converges(w: Peers, ids: multiset<nat>, p: Party, s0: seq<Step>, s1: seq<Step>, s2: seq<Step>, s3: seq<Step>, s4: seq<Step>,
                  d1: seq<bv8>, t1: Time, d2: seq<bv8>, t2: Time)
    requires Matched(w, ids) && Capped(w, Max(w.Priority(Alice), w.Priority(Bob)))
    requires Settled(s0) && Settled(s1) && Settled(s2) && Settled(s3) && Settled(s4)
    ensures var w' := Half(Half(Run(w, s0), p, s1, d1, t1, s2), p.Peer(), s3, d2, t2, s4);
      w'.Priority(Alice) == w'.Priority(Bob) == Max(w.Priority(Alice), w.Priority(Bob))
  {
    hide Matched, Run, Half, Settled, Device.ActivePriority;
    var top := Max(w.Priority(Alice), w.Priority(Bob));
    RunClimbs(w, ids, s0, top);
    HalfClimbs(Run(w, s0), ids, p, s1, d1, t1, s2, top);
    HalfClimbs(Half(Run(w, s0), p, s1, d1, t1, s2), ids, p.Peer(), s3, d2, t2, s4, top);
  }

  lemma SendOn(w: Peers, ids: multiset<nat>, p: Party, top: nat) returns (w': Peers)
    requires Matched(w, ids) && Capped(w, top)
    ensures w' == Apply(w, Send(p)) && Matched(w', ids) && Capped(w', top) && Note(p.Peer(), w.Priority(p)) in w'.net
    ensures w'.Priority(Alice) == w.Priority(Alice) && w'.Priority(Bob) == w.Priority(Bob)
  {
    w' := Apply(w, Send(p));
    StepMatched(w, ids, Send(p), Alice);
    StepMatched(w, ids, Send(p), Bob);
    hide Ids, All;
  }

  lemma DeliverOn(w: Peers, ids: multiset<nat>, p: Party, id: nat, data: seq<bv8>, now: Time, top: nat) returns (w': Peers)
    requires Matched(w, ids) && Capped(w, top) && Note(p, id) in w.net
    ensures w' == Apply(w, Deliver(Note(p, id), data, now)) && Matched(w', ids) && Capped(w', top)
    ensures w'.Priority(p) == Max(w.Priority(p), id) && w'.Priority(p.Peer()) == w.Priority(p.Peer())
  {
    hide Ids, All, Device.Recorded, IndexOf, Matched;
    w' := Apply(w, Deliver(Note(p, id), data, now));
    StepMatched(w, ids, Deliver(Note(p, id), data, now), p);
    StepMatched(w, ids, Deliver(Note(p, id), data, now), p.Peer());
  }

  // ---- how often a peer switches --------------------------------------------------------------

  function Above(ids: multiset<nat>, x: nat): set<nat> { set id | id in ids && id > x }

  /** How many steps of a run change the active session of p. */
  function Switches(w: Peers, steps: seq<Step>, p: Party): nat
  {
    if steps == [] then 0
    else
      var (init, step) := (steps[..|steps| - 1], steps[|steps| - 1]);
      Switches(w, init, p) + if Apply(Run(w, init), step).Priority(p) != Run(w, init).Priority(p) then 1 else 0
  }

  lemma {:induction false} SwitchesBounded(w: Peers, ids: multiset<nat>, steps: seq<Step>, p: Party)
    requires Matched(w, ids) && Settled(steps)
    ensures Switches(w, steps, p) + |Above(ids, Run(w, steps).Priority(p))| <= |Above(ids, w.Priority(p))|
  {
    hide Matched, Apply, Device.ActivePriority, Above;
    if steps != [] {
      var (init, step) := (steps[..|steps| - 1], steps[|steps| - 1]);
      assert step in steps;
      SwitchesBounded(w, ids, init, p);
      RunClimbs(w, ids, init, 0);
      SwitchShrinks(Run(w, init), ids, step, p);
    }
  }

  lemma SwitchShrinks(w: Peers, ids: multiset<nat>, step: Step, p: Party)
    requires Matched(w, ids) && !step.Establish?
    ensures var (x, y) := (w.Priority(p), Apply(w, step).Priority(p));
      |Above(ids, y)| + (if x != y then 1 else 0) <= |Above(ids, x)|
  {
    StepMatched(w, ids, step, p);
    var (x, y) := (w.Priority(p), Apply(w, step).Priority(p));
    assert x != y ==> y > x && y in ids;
    hide Matched, Apply, Device.ActivePriority;
    if x != y {
      assert Above(ids, y) + {y} <= Above(ids, x);
      Subset(Above(ids, y) + {y}, Above(ids, x));
    }
  }

  lemma {:induction false} Subset(x: set<nat>, y: set<nat>)
    requires x <= y
    ensures |x| <= |y|
    decreases |x|
  {
    if x != {} {
      var e :| e in x;
      Subset(x - {e}, y - {e});
    }
  }

  lemma {:induction false} AboveCount(es: seq<Entry>, x: nat)
    ensures |Above(Ids(es), x)| <= |es|
  {
    if es != [] {
      AboveCount(es[1..], x);
      Subset(Above(Ids(es), x), Above(Ids(es[1..]), x) + {es[0].priority});
    }
  }

  /** Over any run a peer switches at most once per session that was inactive at the start. */
  lemma SwitchesAtMostOncePerInactive(w: Peers, ids: multiset<nat>, steps: seq<Step>, p: Party)
    requires Matched(w, ids) && Settled(steps)
    ensures Switches(w, steps, p) <= |w.At(p).inactive|
  {
    SwitchesBounded(w, ids, steps, p);
    var d := w.At(p);
    IdsCons(d.active.value, d.inactive);
    AboveCount(d.inactive, d.ActivePriority());
    assert Above(ids, d.ActivePriority()) == Above(Ids(d.inactive), d.ActivePriority());
    hide Switches, Run, Ids;
  }

  /** One message each way, p's first. */
  function Exchange(w: Peers, p: Party, d: seq<bv8>, t: Time): Peers
  {
    var w1 := Apply(Apply(w, Send(p)), Deliver(Note(p.Peer(), w.Priority(p)), d, t));
    Apply(Apply(w1, Send(p.Peer())), Deliver(Note(p, w1.Priority(p.Peer())), d, t))
  }

  predicate Agree(w: Peers) { w.Priority(Alice) == w.Priority(Bob) }

  lemma ExchangeMeets(w: Peers, ids: multiset<nat>, p: Party, d: seq<bv8>, t: Time, top: nat)
    requires Matched(w, ids) && Capped(w, top)
    ensures var w' := Exchange(w, p, d, t);
      && Matched(w', ids) && Capped(w', top) && w.net <= w'.net
      && w'.Priority(Alice) == w'.Priority(Bob) == Max(w.Priority(Alice), w.Priority(Bob))
  {
    hide Matched, Device.Recorded, IndexOf, Device.ActivePriority;
    var q := p.Peer();
    var w1 := SendOn(w, ids, p, top);
    var w2 := DeliverOn(w1, ids, q, w.Priority(p), d, t, top);
    var w3 := SendOn(w2, ids, q, top);
    var w4 := DeliverOn(w3, ids, p, w2.Priority(q), d, t, top);
  }

  /**
   A message under way that outranks both active sessions splits the peers when it arrives
   after the exchange.
   */
  lemma OutrankedSplits(w: Peers, ids: multiset<nat>, p: Party, m: Note, d: seq<bv8>, t: Time)
    requires Matched(w, ids) && m in w.net && m.id > Max(w.Priority(Alice), w.Priority(Bob))
    ensures var w' := Exchange(w, p, d, t);
      && Agree(w') && w'.Priority(Alice) == Max(w.Priority(Alice), w.Priority(Bob))
      && Apply(w', Deliver(m, d, t)).Priority(m.to) == m.id
      && Apply(w', Deliver(m, d, t)).Priority(m.to.Peer()) == w'.Priority(Alice)
  {
    hide Matched, Device.Recorded, IndexOf, Device.ActivePriority, Exchange;
    var top := HighestId(w);
    ExchangeMeets(w, ids, p, d, t, top);
    var w' := DeliverOn(Exchange(w, p, d, t), ids, m.to, m.id, d, t, top);
  }

  /** An exchange settles two peers for good exactly if nothing under way outranks them both. */
  lemma AgreeForGoodIff(w: Peers, ids: multiset<nat>, p: Party, d: seq<bv8>, t: Time)
    requires Matched(w, ids)
    ensures (forall steps :: Settled(steps) ==> Agree(Run(Exchange(w, p, d, t), steps)))
      <==> forall m :: m in w.net ==> m.id <= Max(w.Priority(Alice), w.Priority(Bob))
  {
    hide Matched, Device.Recorded, IndexOf, Device.ActivePriority, Exchange;
    var top := Max(w.Priority(Alice), w.Priority(Bob));
    var met := Exchange(w, p, d, t);
    if m :| m in w.net && m.id > top {
      OutrankedSplits(w, ids, p, m, d, t);
      var late := [Deliver(m, d, t)];
      assert late[..|late| - 1] == [] && Settled(late);
      assert Run(met, late) == Apply(met, Deliver(m, d, t));
      assert !Agree(Run(met, late));
    } else {
      ExchangeMeets(w, ids, p, d, t, top);
      forall steps | Settled(steps) ensures Agree(Run(met, steps)) { RunClimbs(met, ids, steps, top); }
    }
  }

  /**
   One more exchange heals it: after the message that outranks everything else under way has
   arrived, every exchange leaves both peers on its session, for good.
   */
  lemma NextExchangeHeals(w: Peers, ids: multiset<nat>, m: Note, d: seq<bv8>, t: Time, p: Party,
                          s0: seq<Step>, s1: seq<Step>, s2: seq<Step>, s3: seq<Step>, s4: seq<Step>,
                          d1: seq<bv8>, t1: Time, d2: seq<bv8>, t2: Time)
    requires Matched(w, ids) && m in w.net && Capped(w, m.id)
    requires Settled(s0) && Settled(s1) && Settled(s2) && Settled(s3) && Settled(s4)
    ensures var w' := Half(Half(Run(Apply(w, Deliver(m, d, t)), s0), p, s1, d1, t1, s2), p.Peer(), s3, d2, t2, s4);
      w'.Priority(Alice) == w'.Priority(Bob) == m.id
  {
    hide Matched, Run, Half, Settled, Device.ActivePriority;
    var w' := DeliverOn(w, ids, m.to, m.id, d, t, m.id);
    Converges(w', ids, p, s0, s1, s2, s3, s4, d1, t1, d2, t2);
  }

  /** Both peers store a session, one sends on it, and both store a lower one. */
  function Replaced(hi: nat, lo: nat, data: seq<bv8>, state: SessionState, t: Time): seq<Step>
  {
    [Establish(Alice, data, state, hi, t), Establish(Bob, data, state, hi, t), Send(Alice),
     Establish(Alice, data, state, lo, t), Establish(Bob, data, state, lo, t)]
  }

  const NOBODY := Peers(Device(None, []), Device(None, []), {})

  lemma ReplacedWorld(hi: nat, lo: nat, data: seq<bv8>, state: SessionState, t: Time)
    ensures var (x, y) := (Entry(data, state, t, t, hi), Entry(data, state, t, t, lo));
      Run(NOBODY, Replaced(hi, lo, data, state, t)) == Peers(Device(Some(y), [x]), Device(Some(y), [x]), {Note(Bob, hi)})
  {
    var steps := Replaced(hi, lo, data, state, t);
    var (x, y) := (Entry(data, state, t, t, hi), Entry(data, state, t, t, lo));
    assert steps[..5] == steps && steps[..4][..3] == steps[..3] && steps[..3][..2] == steps[..2] && steps[..2][..1] == steps[..1];
    assert Run(NOBODY, steps[..1]) == Peers(Device(Some(x), []), Device(None, []), {});
    assert Run(NOBODY, steps[..2]) == Peers(Device(Some(x), []), Device(Some(x), []), {});
    assert Run(NOBODY, steps[..3]) == Peers(Device(Some(x), []), Device(Some(x), []), {Note(Bob, hi)});
    assert steps[..4][..|steps[..4]| - 1] == steps[..3];
    assert Run(NOBODY, steps[..4]) == Peers(Device(Some(y), [x]), Device(Some(x), []), {Note(Bob, hi)});
  }

  lemma ReplacedMatched(hi: nat, lo: nat, data: seq<bv8>, state: SessionState, t: Time)
    requires hi > lo
    ensures var w := Run(NOBODY, Replaced(hi, lo, data, state, t));
      Matched(w, multiset{hi, lo}) && w.Priority(Alice) == w.Priority(Bob) == lo && w.net == {Note(Bob, hi)}
  {
    ReplacedWorld(hi, lo, data, state, t);
    hide Run, Replaced;
    var w := Run(NOBODY, Replaced(hi, lo, data, state, t));
    var (x, y) := (w.a.inactive[0], w.a.active.value);
    assert All(w.a) == All(w.b) == [y, x] && [y, x][1..] == [x] && [x][1..] == [];
    assert Ids([x]) == multiset{hi};
    assert Ids([y, x]) == multiset{hi, lo};
  }

  /**
   A run from two empty devices that splits them: the exchange on the new session agrees,
   the message sent on the replaced, higher session arrives after it, and the next exchange
   brings both back to the higher session.
   */
  lemma ReplacedSessionSplits(hi: nat, lo: nat, data: seq<bv8>, state: SessionState, t: Time, p: Party)
    requires hi > lo
    ensures
      var met := Exchange(Run(NOBODY, Replaced(hi, lo, data, state, t)), p, data, t);
      var split := Apply(met, Deliver(Note(Bob, hi), data, t));
      var healed := Exchange(split, p, data, t);
      && met.Priority(Alice) == met.Priority(Bob) == lo
      && split.Priority(Alice) == lo && split.Priority(Bob) == hi
      && healed.Priority(Alice) == healed.Priority(Bob) == hi
  {
    hide Run, Replaced, Matched, Exchange, Device.Recorded, IndexOf, Device.ActivePriority;
    var w := Run(NOBODY, Replaced(hi, lo, data, state, t));
    var ids := multiset{hi, lo};
    ReplacedMatched(hi, lo, data, state, t);
    ExchangeMeets(w, ids, p, data, t, hi);
    var split := DeliverOn(Exchange(w, p, data, t), ids, Bob, hi, data, t, hi);
    ExchangeMeets(split, ids, p, data, t, hi);
  }

  lemma {:induction false} HighestNote(net: set<Note>) returns (h: nat)
    ensures forall m :: m in net ==> m.id <= h
    decreases |net|
  {
    if net == {} { return 0; }
    var m :| m in net;
    var k := HighestNote(net - {m});
    assert net == net - {m} + {m};
    h := Max(m.id, k);
  }

  lemma HighestId(w: Peers) returns (top: nat)
    ensures Capped(w, top)
  {
    var h := HighestNote(w.net);
    top := Max(h, Max(w.Priority(Alice), w.Priority(Bob)));
  }

  // ---- lifetime -------------------------------------------------------------------------------

  lemma {:induction false} FreshConcat(xs: seq<Entry>, ys: seq<Entry>, now: Time)
    ensures Fresh(xs + ys, now) == Fresh(xs, now) + Fresh(ys, now)
  {
    if xs == [] {
      assert xs + ys == ys;
    } else {
      assert (xs + ys)[1..] == xs[1..] + ys;
      FreshConcat(xs[1..], ys, now);
    }
  }

  /**
   Pruning judges each archived session by itself and keeps the order: it stays exactly if it
   was used within the last MAXRECV seconds. The active session stays in any case.
   */
  lemma PrunesExactly(active: Option<Entry>, xs: seq<Entry>, e: Entry, ys: seq<Entry>, now: Time)
    ensures Device(active, []).Pruned(now) == Device(active, []) && MAXRECV == 60 * 86400
    ensures Device(active, xs + [e] + ys).Pruned(now).active == active
    ensures Device(active, xs + [e] + ys).Pruned(now).inactive ==
      Device(None, xs).Pruned(now).inactive + (if now <= e.lastUsed + MAXRECV then [e] else []) + Device(None, ys).Pruned(now).inactive
  {
    FreshConcat(xs + [e], ys, now);
    FreshConcat(xs, [e], now);
  }

  /** A device wants a new session exactly if it has none or its own is older than MAXSEND seconds. */
  lemma ReestablishExactly(d: Device, now: Time)
    ensures d.NeedsReestablish(now) <==> d.active.None? || now > d.active.value.createdAt + MAXSEND
    ensures MAXSEND == 30 * 86400
  {
  }

  /** What a device does, with the time on its clock. */
  datatype Op = Insert(data: seq<bv8>, state: SessionState, id: nat, now: Time)
              | Record(index: nat, data: seq<bv8>, now: Time) | Prune(now: Time)

  function Did(d: Device, op: Op): Device
  {
    match op
    case Insert(data, state, id, now) => d.Inserted(Entry(data, state, now, now, id))
    case Record(index, data, now) => d.Recorded(index, data, now)
    case Prune(now) => d.Pruned(now)
  }

  function After(d: Device, ops: seq<Op>): Device
  {
    if ops == [] then d else Did(After(d, ops[..|ops| - 1]), ops[|ops| - 1])
  }

  /** No insert pushes an archived session over the cap. */
  predicate WithinCap(d: Device, ops: seq<Op>)
  {
    forall i :: 0 <= i < |ops| && ops[i].Insert? ==> |All(After(d, ops[..i]))| <= MAX_INACTIVE
  }

  /** The session is there and has not been touched before its creation. */
  predicate Holds(d: Device, id: nat, created: Time)
  {
    exists e :: e in All(d) && e.priority == id && e.createdAt == created && created <= e.lastUsed
  }

  lemma {:induction false} FreshKeeps(es: seq<Entry>, e: Entry, now: Time)
    requires e in es && !StaleForReceiving(e.lastUsed, now)
    ensures e in Fresh(es, now)
  {
    if es[0] != e { FreshKeeps(es[1..], e, now); }
  }

  lemma OpKeeps(d: Device, op: Op, id: nat, created: Time)
    requires Holds(d, id, created) && created <= op.now <= created + MAXRECV
    requires op.Insert? ==> |All(d)| <= MAX_INACTIVE
    ensures Holds(Did(d, op), id, created)
  {
    var e :| e in All(d) && e.priority == id && e.createdAt == created && created <= e.lastUsed;
    match op
    case Insert(data, state, id', now) => assert e in All(Did(d, op));
    case Prune(now) =>
      if e in d.inactive { FreshKeeps(d.inactive, e, now); }
      assert e in All(Did(d, op));
    case Record(index, data, now) => RecordKeeps(d, index, data, now, e);
  }

  lemma RecordKeeps(d: Device, index: nat, data: seq<bv8>, now: Time, e: Entry)
    requires e in All(d)
    ensures var d' := d.Recorded(index, data, now); e in All(d') || e.Used(data, now) in All(d')
  {
    var d' := d.Recorded(index, data, now);
    if e in d.inactive && 0 < index <= |d.inactive| {
      var i :| 0 <= i < |d.inactive| && d.inactive[i] == e;
      var rest := d.inactive[..index - 1] + d.inactive[index..];
      if i < index - 1 { assert rest[i] == e; } else if i > index - 1 { assert rest[i - 1] == e; }
      assert i != index - 1 ==> d.inactive[index - 1 := d.inactive[index - 1].Used(data, now)][i] == e;
      assert i == index - 1 ==> d.inactive[index - 1 := e.Used(data, now)][i] == e.Used(data, now);
    }
  }

  lemma {:induction false} Survives(d: Device, ops: seq<Op>, id: nat, created: Time)
    requires Holds(d, id, created) && WithinCap(d, ops)
    requires forall op :: op in ops ==> created <= op.now <= created + MAXRECV
    ensures Holds(After(d, ops), id, created)
  {
    if ops != [] {
      var init := ops[..|ops| - 1];
      assert forall i :: 0 <= i < |init| ==> init[..i] == ops[..i];
      Survives(d, init, id, created);
      assert ops[|ops| - 1] in ops;
      hide Holds, All, Did;
      OpKeeps(After(d, init), ops[|ops| - 1], id, created);
    }
  }

  /**
   A message sent on a session that is not stale for sending, and arriving within
   MAXLATENCY, finds the session still held, whatever the receiver has recorded, pruned or
   inserted meanwhile: provided the peers created the session at most MAXLATENCY apart and
   no insert exceeded the cap.
   */
  lemma NeverPrunedInFlight(sender: Device, receiver: Device, ops: seq<Op>, created: Time, sendTime: Time, arrival: Time)
    requires sender.active.Some? && !sender.NeedsReestablish(sendTime) && arrival <= sendTime + MAXLATENCY
    requires Holds(receiver, sender.ActivePriority(), created) && sender.active.value.createdAt <= created + MAXLATENCY
    requires WithinCap(receiver, ops) && forall op :: op in ops ==> created <= op.now <= arrival
    ensures Holds(After(receiver, ops), sender.ActivePriority(), created)
    ensures MAXLATENCY == 2 * 3600 && MAXRECV > MAXSEND + 2 * MAXLATENCY
  {
    hide Holds, WithinCap, After;
    Survives(receiver, ops, sender.ActivePriority(), created);
  }
}
