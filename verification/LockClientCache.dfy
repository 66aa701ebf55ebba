/**
 The lock client (lock_client_cache.cc).  Every stretch of code that runs under
 `threads_mutex` without letting go of it is one function on the record that the
 client keeps per lock id; the class below runs the same stretches in place on
 the client's table of records.
 */
module LockClientCache {
  import opened Options

  type LockId = nat
  type Tid = nat

  datatype ClientState = Absent | Free | Locked | Acquiring | Releasing

  datatype Response = Empty | Revoke | Retry

  /** One `client_cached_lock`.  A queue entry stands for the condition variable
      of the thread that pushed it. */
  datatype ClientLock = ClientLock(state: ClientState, response: Response, queue: seq<Tid>)

  const FreshLock := ClientLock(Absent, Empty, [])

  /** What the running thread does once the mutex is let go. */
  datatype Next =
    | Return           // acquire returns OK: the thread has the lock
    | CallAcquire      // send the acquire RPC
    | SleepForRelease  // wait until the release under way has finished
    | SleepForTurn     // wait until the thread in front is done
    | SleepForRetry    // wait until the server says retry
    | NoEntry          // the NOENT exits

  datatype Region = Region(lk: ClientLock, next: Next)

  /** A stretch that signals at most one condition variable. */
  datatype Signalling = Signalling(lk: ClientLock, signalled: Option<Tid>)

  function Front(queue: seq<Tid>): Option<Tid> {
    if queue == [] then None else Some(queue[0])
  }

  function Behind(queue: seq<Tid>): seq<Tid> {
    if queue == [] then [] else queue[1..]
  }

  /** Entry of `acquire`, up to the first wait, RPC or return. */
  function EnterAcquire(lk: ClientLock, t: Tid): Region {
    var pushed := lk.(queue := lk.queue + [t]);
    if lk.queue == [] then
      match lk.state
      case Absent => Region(pushed.(state := Acquiring), CallAcquire)
      case Free => Region(pushed.(state := Locked), Return)
      case Releasing => Region(pushed, SleepForRelease)
      case _ => Region(pushed, NoEntry)
    else
      Region(pushed, SleepForTurn)
  }

  /** `acquire` after the wait for a release under way. */
  function WokenAfterRelease(lk: ClientLock): Region {
    Region(lk.(state := Acquiring), CallAcquire)
  }

  /** `acquire` after the wait behind another local thread. */
  function WokenForTurn(lk: ClientLock): Region {
    match lk.state
    case Absent => Region(lk.(state := Acquiring), CallAcquire)
    case Free => Region(lk.(state := Locked), Return)
    case Locked => Region(lk, Return)
    case _ => Region(lk, NoEntry)
  }

  /** The end of the loop body of `rpc_acquire` and the next test of its guard. */
  function AskAgain(lk: ClientLock): Region {
    Region(lk.(response := Empty), if lk.state == Acquiring then CallAcquire else NoEntry)
  }

  /** `rpc_acquire` after the acquire RPC has been answered. */
  function Answered(lk: ClientLock, ok: bool): Region {
    if ok then Region(lk.(state := Locked), Return)
    else if lk.response != Retry then Region(lk, SleepForRetry)
    else AskAgain(lk)
  }

  predicate MustGiveBack(lk: ClientLock) {
    lk.response == Revoke && |lk.queue| <= 1
  }

  /** `release` when the lock goes back to the server: before the sync. */
  function StartGivingBack(lk: ClientLock): ClientLock {
    lk.(state := Releasing)
  }

  /** `release` when the lock stays with this client. */
  function ReleaseLocally(lk: ClientLock): Signalling {
    var rest := Behind(lk.queue);
    Signalling(lk.(state := if rest == [] then Free else Locked, queue := rest), Front(rest))
  }

  /** `release` after the release RPC has been answered. */
  function GivenBack(lk: ClientLock): Signalling {
    var rest := Behind(lk.queue);
    Signalling(ClientLock(Absent, Empty, rest), Front(rest))
  }

  predicate FreeToGiveBack(lk: ClientLock) {
    lk.state == Free && |lk.queue| <= 1
  }

  /** `revoke_handler` up to the sync, or all of it when the lock is in use. */
  function Revoked(lk: ClientLock): ClientLock {
    if FreeToGiveBack(lk) then lk.(state := Releasing) else lk.(response := Revoke)
  }

  /** `revoke_handler` after the release RPC has been answered. */
  function RevokedGivenBack(lk: ClientLock): Signalling {
    Signalling(lk.(state := Absent), Front(lk.queue))
  }

  /** `retry_handler`. */
  function Retried(lk: ClientLock): Signalling {
    Signalling(lk.(response := Retry), Front(lk.queue))
  }

  /** The client has the lock, whether a thread uses it or not. */
  predicate HasLock(lk: ClientLock) {
    lk.state == Free || lk.state == Locked
  }

  /** A client with a thread that has the lock is locked, one that asks is acquiring. */
  function StateFor(next: Next, st: ClientState): ClientState {
    if next == Return then Locked else if next == CallAcquire then Acquiring else st
  }

  /** When acquire comes back with the lock, goes to the server, sleeps or gives up, on
      every record; whatever it does, the caller is last in the queue. */
  lemma AcquireAnswers(lk: ClientLock, t: Tid)
    ensures var r := EnterAcquire(lk, t);
            && r.lk.queue == lk.queue + [t] && r.lk.response == lk.response
            && (r.next == SleepForTurn <==> lk.queue != [])
            && (r.next == Return <==> lk.queue == [] && lk.state == Free)
            && (r.next == CallAcquire <==> lk.queue == [] && lk.state == Absent)
            && (r.next == SleepForRelease <==> lk.queue == [] && lk.state == Releasing)
            && (r.next == NoEntry <==> lk.queue == [] && lk.state in {Locked, Acquiring})
            && r.lk.state == StateFor(r.next, lk.state)
  {
  }

  /** The same for a thread that has been woken. */
  lemma WokenAnswers(lk: ClientLock)
    ensures var r := WokenForTurn(lk);
            && r.lk.queue == lk.queue && r.lk.response == lk.response
            && (r.next == Return <==> HasLock(lk)) && (r.next == CallAcquire <==> lk.state == Absent)
            && (r.next == NoEntry <==> lk.state in {Acquiring, Releasing})
            && r.lk.state == StateFor(r.next, lk.state)
    ensures var r := AskAgain(lk);
            && r.lk.queue == lk.queue && r.lk.response == Empty && r.lk.state == lk.state
            && (r.next == CallAcquire <==> lk.state == Acquiring) && (r.next == NoEntry <==> lk.state != Acquiring)
    ensures WokenAfterRelease(lk).next == CallAcquire
  {
  }

  /** A revoke makes the client give the lock back exactly when the lock is free and at
      most one thread is in the queue; otherwise it is recorded and nothing else happens. */
  lemma RevokeAnswers(lk: ClientLock)
    ensures Revoked(lk).queue == lk.queue
    ensures FreeToGiveBack(lk) <==> lk.state == Free && |lk.queue| < 2
    ensures FreeToGiveBack(lk) ==> Revoked(lk).state == Releasing && Revoked(lk).response == lk.response
    ensures !FreeToGiveBack(lk) ==> Revoked(lk).state == lk.state && Revoked(lk).response == Revoke
  {
  }

  /** A release gives the lock back exactly when a revoke is recorded and no other thread
      waits; otherwise the next thread in the queue, if any, is the one signalled. */
  lemma ReleaseAnswers(lk: ClientLock)
    requires lk.queue != []
    ensures MustGiveBack(lk) <==> lk.response == Revoke && |lk.queue| == 1
    ensures var s := ReleaseLocally(lk);
            && [lk.queue[0]] + s.lk.queue == lk.queue && s.lk.response == lk.response
            && HasLock(s.lk) && (s.lk.state == Free <==> s.lk.queue == [])
            && s.signalled == (if |lk.queue| == 1 then None else Some(lk.queue[1]))
    ensures var s := GivenBack(lk);
            && [lk.queue[0]] + s.lk.queue == lk.queue && s.lk.response == Empty && s.lk.state == Absent
            && s.signalled == (if |lk.queue| == 1 then None else Some(lk.queue[1]))
  {
  }

  /** The client object: one record per lock id, changed in place. */
  class Client {
    var locks: map<LockId, ClientLock>

    constructor ()
      ensures locks == map[]
    {
      locks := map[];
    }

    function Entry(lid: LockId): ClientLock
      reads this
    {
      if lid in locks then locks[lid] else FreshLock
    }

    method BeginAcquire(lid: LockId, t: Tid) returns (next: Next)
      modifies this
      ensures locks == old(locks)[lid := EnterAcquire(old(Entry(lid)), t).lk]
      ensures next == EnterAcquire(old(Entry(lid)), t).next
    {
      if lid !in locks {
        locks := locks[lid := FreshLock];
      }
      var lk := locks[lid];
      var wasEmpty := lk.queue == [];
      lk := lk.(queue := lk.queue + [t]);
      if wasEmpty {
        match lk.state {
          case Absent => lk := lk.(state := Acquiring); next := CallAcquire;
          case Free => lk := lk.(state := Locked); next := Return;
          case Releasing => next := SleepForRelease;
          case _ => next := NoEntry;
        }
      } else {
        next := SleepForTurn;
      }
      locks := locks[lid := lk];
    }

    method ResumeAcquire(lid: LockId, behindRelease: bool) returns (next: Next)
      requires lid in locks
      modifies this
      ensures var r := if behindRelease then WokenAfterRelease(old(locks[lid])) else WokenForTurn(old(locks[lid]));
              locks == old(locks)[lid := r.lk] && next == r.next
    {
      var lk := locks[lid];
      if behindRelease || lk.state == Absent {
        lk := lk.(state := Acquiring);
        next := CallAcquire;
      } else if lk.state == Free || lk.state == Locked {
        lk := lk.(state := Locked);
        next := Return;
      } else {
        next := NoEntry;
      }
      locks := locks[lid := lk];
    }

    method AcquireAnswered(lid: LockId, ok: bool) returns (next: Next)
      requires lid in locks
      modifies this
      ensures locks == old(locks)[lid := Answered(old(locks[lid]), ok).lk]
      ensures next == Answered(old(locks[lid]), ok).next
    {
      var lk := locks[lid];
      if ok {
        lk := lk.(state := Locked);
        next := Return;
      } else if lk.response != Retry {
        next := SleepForRetry;
      } else {
        lk := lk.(response := Empty);
        next := if lk.state == Acquiring then CallAcquire else NoEntry;
      }
      locks := locks[lid := lk];
    }

    /** `rpc_acquire` after the wait for the server to say retry. */
    method ResumeAsking(lid: LockId) returns (next: Next)
      requires lid in locks
      modifies this
      ensures locks == old(locks)[lid := AskAgain(old(locks[lid])).lk]
      ensures next == AskAgain(old(locks[lid])).next
    {
      var lk := locks[lid].(response := Empty);
      next := if lk.state == Acquiring then CallAcquire else NoEntry;
      locks := locks[lid := lk];
    }

    /** `release` up to the sync (`keep` false) or up to its end. */
    method BeginRelease(lid: LockId) returns (keep: bool, signalled: Option<Tid>)
      requires lid in locks
      modifies this
      ensures keep == !MustGiveBack(old(locks[lid]))
      ensures !keep ==> locks == old(locks)[lid := StartGivingBack(old(locks[lid]))] && signalled == None
      ensures keep ==> locks == old(locks)[lid := ReleaseLocally(old(locks[lid])).lk]
      ensures keep ==> signalled == ReleaseLocally(old(locks[lid])).signalled
    {
      var lk := locks[lid];
      signalled := None;
      if lk.response == Revoke && |lk.queue| <= 1 {
        keep := false;
        lk := lk.(state := Releasing);
      } else {
        keep := true;
        lk := lk.(state := Free, queue := Behind(lk.queue));
        if lk.queue != [] {
          lk := lk.(state := Locked);
          signalled := Some(lk.queue[0]);
        }
      }
      locks := locks[lid := lk];
    }

    method EndRelease(lid: LockId) returns (signalled: Option<Tid>)
      requires lid in locks
      modifies this
      ensures locks == old(locks)[lid := GivenBack(old(locks[lid])).lk]
      ensures signalled == GivenBack(old(locks[lid])).signalled
    {
      var lk := locks[lid].(state := Absent, response := Empty);
      lk := lk.(queue := Behind(lk.queue));
      signalled := if lk.queue != [] then Some(lk.queue[0]) else None;
      locks := locks[lid := lk];
    }

    /** `revoke_handler` up to the sync (`giveBack`) or up to its end. */
    method BeginRevoke(lid: LockId) returns (giveBack: bool)
      requires lid in locks
      modifies this
      ensures giveBack == FreeToGiveBack(old(locks[lid]))
      ensures locks == old(locks)[lid := Revoked(old(locks[lid]))]
    {
      var lk := locks[lid];
      giveBack := lk.state == Free && |lk.queue| <= 1;
      if giveBack {
        lk := lk.(state := Releasing);
      } else {
        lk := lk.(response := Revoke);
      }
      locks := locks[lid := lk];
    }

    method EndRevoke(lid: LockId) returns (signalled: Option<Tid>)
      requires lid in locks
      modifies this
      ensures locks == old(locks)[lid := RevokedGivenBack(old(locks[lid])).lk]
      ensures signalled == RevokedGivenBack(old(locks[lid])).signalled
    {
      var lk := locks[lid].(state := Absent);
      signalled := if lk.queue != [] then Some(lk.queue[0]) else None;
      locks := locks[lid := lk];
    }

    method HandleRetry(lid: LockId) returns (signalled: Option<Tid>)
      requires lid in locks
      modifies this
      ensures locks == old(locks)[lid := Retried(old(locks[lid])).lk]
      ensures signalled == Retried(old(locks[lid])).signalled
    {
      var lk := locks[lid].(response := Retry);
      signalled := if lk.queue != [] then Some(lk.queue[0]) else None;
      locks := locks[lid := lk];
    }
  }
}
