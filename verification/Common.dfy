/** Result types and errors shared by every layer. */
module Common {

  datatype Option<+T> = None | Some(value: T)

  /** The failures the modelled code can report, one constructor per cause. */
  datatype Error =
    // braid
    | EmptyMessage | CodecUnsupported | CodewordLength | CodewordIndex | MissingCodeword
    | KeyMismatch | BadLength | Poison
    // SPQR
    | NonConsecutiveEpoch | NoSendChain | NoRecvChain | Replay | CounterMismatch
    // ratchets and sender keys
    | MaxSkipExceeded(gap: nat, limit: nat) | InvalidSessionState | DecryptionFailed
    | InvalidSignature | DuplicateMessage | MissingSenderKey

  datatype Result<+T> = Ok(value: T) | Err(error: Error) {
    predicate IsFailure() { Err? }
    function PropagateFailure<U>(): Result<U>
      requires Err?
    {
      Err(error)
    }
    function Extract(): T
      requires Ok?
    {
      value
    }
  }

  datatype Party = Alice | Bob {
    function Peer(): Party { if this == Alice then Bob else Alice }
  }

  /** Largest gap a receive may skip, and the size of the EC skipped-key store. */
  const MAX_SKIP := 2000

  const U32_MAX := 0xFFFF_FFFF

  function Max(x: nat, y: nat): nat { if x > y then x else y }

  /** The numbers from `lo` up to, not including, `hi`. */
  function Range(lo: nat, hi: nat): (s: set<nat>)
    ensures forall i :: i in s <==> lo <= i < hi
    ensures |s| == if lo <= hi then hi - lo else 0
    decreases hi
  {
    if hi <= lo then {} else Range(lo, hi - 1) + {hi - 1}
  }

  /** Message numbers, filed under an epoch or a chain. */
  type Log = map<nat, set<nat>>

  function Got(log: Log, e: nat): set<nat> { if e in log then log[e] else {} }

  function AddAll(log: Log, e: nat, ns: set<nat>): (r: Log)
    ensures forall x :: Got(r, x) == if x == e then Got(log, e) + ns else Got(log, x)
  {
    log[e := Got(log, e) + ns]
  }

  function Add(log: Log, e: nat, n: nat): (r: Log)
    ensures forall x :: Got(r, x) == if x == e then Got(log, e) + {n} else Got(log, x)
  {
    AddAll(log, e, {n})
  }

  /** Each number from start to next is in exactly one of the sets. */
  ghost predicate Covers(stored: set<nat>, accepted: set<nat>, dropped: set<nat>, start: nat, next: nat)
  {
    && stored !! accepted && stored !! dropped && accepted !! dropped
    && (forall i: nat :: start <= i < next <==> i in stored || i in accepted || i in dropped)
  }

  lemma CoversSkip(stored: set<nat>, accepted: set<nat>, dropped: set<nat>, start: nat, next: nat, kept: nat, i: nat)
    requires Covers(stored, accepted, dropped, start, next) && start <= next <= kept <= i
    ensures Covers(stored + Range(next, kept), accepted, dropped + Range(kept, i), start, i)
  {
    hide Range, Covers;
    CoversMore(stored, accepted, dropped, start, next, Range(next, kept), Range(kept, i), kept, i);
  }

  lemma CoversMore(stored: set<nat>, accepted: set<nat>, dropped: set<nat>, start: nat, next: nat,
                   gained: set<nat>, lost: set<nat>, kept: nat, i: nat)
    requires Covers(stored, accepted, dropped, start, next) && start <= next <= kept <= i
    requires forall k: nat :: k in gained <==> next <= k < kept
    requires forall k: nat :: k in lost <==> kept <= k < i
    ensures Covers(stored + gained, accepted, dropped + lost, start, i)
  {
    forall k | k in gained ensures k !in accepted && k !in dropped && k !in lost { }
    forall k | k in lost ensures k !in stored && k !in accepted { }
  }
}
