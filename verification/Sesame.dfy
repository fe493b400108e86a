/**
 Sesame session records (src/protocol/sesame/): which of several competing sessions a device
 sends on, and how long sessions are kept.
 */
module Sesame {
  import opened Common

  type Time = nat

  const MAXLATENCY: nat := 2 * 60 * 60
  const MAXSEND: nat := 30 * 24 * 60 * 60
  const MAXRECV: nat := 60 * 24 * 60 * 60
  const MAX_INACTIVE := 10

  /** u64 saturating subtraction. */
  function Since(then_: Time, now: Time): nat { if now > then_ then now - then_ else 0 }

  predicate StaleForSending(createdAt: Time, now: Time) { Since(createdAt, now) > MAXSEND }

  predicate StaleForReceiving(lastUsed: Time, now: Time) { Since(lastUsed, now) > MAXRECV }

  datatype SessionState = Initiating | Regular

  datatype Entry = Entry(data: seq<bv8>, state: SessionState, createdAt: Time, lastUsed: Time, priority: nat) {
    /** A successful decrypt on this session. */
    function Used(updated: seq<bv8>, now: Time): Entry { Entry(updated, Regular, createdAt, now, priority) }
  }

  datatype Device = Device(active: Option<Entry>, inactive: seq<Entry>) {
    function Inserted(e: Entry): Device
    {
      var rest := if active.Some? then [active.value] + inactive else inactive;
      Device(Some(e), if |rest| > MAX_INACTIVE then rest[..MAX_INACTIVE] else rest)
    }

    function ActivePriority(): nat { if active.Some? then active.value.priority else 0 }

    /** The entry at an index: 0 is the active one. */
    function At(index: nat): Option<Entry>
    {
      if index == 0 then active else if index - 1 < |inactive| then Some(inactive[index - 1]) else None
    }

    function Recorded(index: nat, updated: seq<bv8>, now: Time): Device
    {
      if At(index).None? then this
      else if index == 0 then this.(active := Some(active.value.Used(updated, now)))
      else
        var e := inactive[index - 1].Used(updated, now);
        if active.None? || e.priority > active.value.priority then
          var rest := inactive[..index - 1] + inactive[index..];
          Device(Some(e), if active.Some? then [active.value] + rest else rest)
        else this.(inactive := inactive[index - 1 := e])
    }

    function Pruned(now: Time): Device { this.(inactive := Fresh(inactive, now)) }

    predicate NeedsReestablish(now: Time) { active.None? || StaleForSending(active.value.createdAt, now) }
  }

  function Fresh(entries: seq<Entry>, now: Time): seq<Entry>
  {
    if entries == [] then []
    else if StaleForReceiving(entries[0].lastUsed, now) then Fresh(entries[1..], now)
    else [entries[0]] + Fresh(entries[1..], now)
  }

  lemma {:induction false} FreshSnoc(entries: seq<Entry>, e: Entry, now: Time)
    ensures Fresh(entries + [e], now) == Fresh(entries, now) + if StaleForReceiving(e.lastUsed, now) then [] else [e]
  {
    if entries == [] {
      assert entries + [e] == [e];
    } else {
      assert (entries + [e])[1..] == entries[1..] + [e];
      FreshSnoc(entries[1..], e, now);
    }
  }

  class DeviceRecord {
    var activeSession: Option<Entry>
    var inactiveSessions: seq<Entry>

    ghost function View(): Device
      reads this
    {
      Device(activeSession, inactiveSessions)
    }

    constructor ()
      ensures View() == Device(None, [])
    {
      activeSession := None;
      inactiveSessions := [];
    }

    method InsertSession(session: Entry)
      modifies this
      ensures View() == old(View()).Inserted(session)
    {
      if activeSession.Some? {
        inactiveSessions := [activeSession.value] + inactiveSessions;
      }
      activeSession := Some(session);
      if |inactiveSessions| > MAX_INACTIVE {
        inactiveSessions := inactiveSessions[..MAX_INACTIVE];
      }
    }

    method RecordDecryptSuccess(logicalIndex: nat, updatedData: seq<bv8>, now: Time) returns (data: Option<seq<bv8>>)
      modifies this
      ensures View() == old(View()).Recorded(logicalIndex, updatedData, now)
      ensures data == if activeSession.Some? then Some(activeSession.value.data) else None
      ensures old(View().At(logicalIndex)).None? ==> View() == old(View())
      ensures old(View().At(logicalIndex)).Some? ==>
        var (e, active) := (old(View().At(logicalIndex)).value, old(activeSession));
        var x := Entry(updatedData, Regular, e.createdAt, now, e.priority);
        if logicalIndex == 0 || active.None? || e.priority > active.value.priority
        then activeSession == Some(x) && data == Some(updatedData)
        else activeSession == active && x in inactiveSessions && data == Some(active.value.data)
    {
      if logicalIndex == 0 {
        if activeSession.Some? {
          var active := activeSession.value.(data := updatedData, lastUsed := now);
          if active.state == Initiating {
            active := active.(state := Regular);
          }
          activeSession := Some(active);
        }
      } else {
        var idx := logicalIndex - 1;
        if idx < |inactiveSessions| {
          var entry := inactiveSessions[idx].(data := updatedData, lastUsed := now);
          if entry.state == Initiating {
            entry := entry.(state := Regular);
          }
          inactiveSessions := inactiveSessions[idx := entry];
          var activePriority := if activeSession.Some? then activeSession.value.priority else 0;
          if activeSession.None? || inactiveSessions[idx].priority > activePriority {
            var promoted := inactiveSessions[idx];
            inactiveSessions := inactiveSessions[..idx] + inactiveSessions[idx + 1..];
            if activeSession.Some? {
              inactiveSessions := [activeSession.value] + inactiveSessions;
            }
            activeSession := Some(promoted);
          }
        }
      }
      return if activeSession.Some? then Some(activeSession.value.data) else None;
    }

    method PruneStale(now: Time)
      modifies this
      ensures View() == old(View()).Pruned(now)
    {
      var kept: seq<Entry> := [];
      for i := 0 to |inactiveSessions|
        invariant View() == old(View())
        invariant kept == Fresh(inactiveSessions[..i], now)
      {
        FreshSnoc(inactiveSessions[..i], inactiveSessions[i], now);
        assert inactiveSessions[..i + 1] == inactiveSessions[..i] + [inactiveSessions[i]];
        if !StaleForReceiving(inactiveSessions[i].lastUsed, now) {
          kept := kept + [inactiveSessions[i]];
        }
      }
      assert inactiveSessions[..|inactiveSessions|] == inactiveSessions;
      inactiveSessions := kept;
    }

    method NeedsReestablish(now: Time) returns (r: bool)
      ensures r <==> activeSession.None? || now > activeSession.value.createdAt + MAXSEND
      ensures r == View().NeedsReestablish(now)
    {
      match activeSession
      case None => return true;
      case Some(s) => return StaleForSending(s.createdAt, now);
    }
  }
}
