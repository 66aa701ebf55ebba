/**
 The caching lock server (lock_server_cache.cc): the two RPC handlers as
 functions on the record kept per lock id, and the class that runs them in place.
 */
module LockServerCache {
  import opened Options

  type LockId = nat

  /** Stands for the "host:port" id of a client, in the order of those strings. */
  type ClientId = nat

  datatype ServerState = Unheld | Locked | Revoking | Retrying

  /** One `server_lock`; a cleared id string is `None`. */
  datatype ServerLock = ServerLock(
    state: ServerState,
    holding: Option<ClientId>,
    retrying: Option<ClientId>,
    waiting: set<ClientId>)

  const FreshLock := ServerLock(Unheld, None, None, {})

  /** `granted` is the answer (OK or RETRY); `revoke` is who is sent a revoke. */
  datatype Acquired = Acquired(lk: ServerLock, granted: bool, revoke: Option<ClientId>)

  /** `retry` is who is told to try again. */
  datatype Released = Released(lk: ServerLock, retry: Option<ClientId>)

  predicate IsLeast(m: ClientId, s: set<ClientId>) {
    m in s && forall x :: x in s ==> m <= x
  }

  lemma {:induction false} LeastExists(s: set<ClientId>)
    requires s != {}
    ensures exists m :: IsLeast(m, s)
  {
    var m :| m in s;
    var rest := s - {m};
    assert forall x :: x in s ==> x == m || x in rest;
    if rest == {} {
      assert IsLeast(m, s);
    } else {
      LeastExists(rest);
      var k :| IsLeast(k, rest);
      assert IsLeast(if m <= k then m else k, s);
    }
  }

  /** The first element of the ordered set of waiting clients. */
  function Least(s: set<ClientId>): (m: ClientId)
    requires s != {}
    ensures IsLeast(m, s)
  {
    LeastExists(s);
    var m :| IsLeast(m, s);
    m
  }

  function Acquire(lk: ServerLock, id: ClientId): Acquired {
    match lk.state
    case Unheld => Acquired(lk.(holding := Some(id), state := Locked), true, None)
    case Locked => Acquired(lk.(state := Revoking, waiting := lk.waiting + {id}), false, lk.holding)
    case Revoking => Acquired(lk.(waiting := lk.waiting + {id}), false, None)
    case Retrying =>
      if lk.retrying == Some(id) then
        var taken := lk.(holding := Some(id), retrying := None);
        if lk.waiting != {} then Acquired(taken.(state := Revoking), true, Some(id))
        else Acquired(taken.(state := Locked), true, None)
      else
        Acquired(lk.(waiting := lk.waiting + {id}), false, None)
  }

  function Release(lk: ServerLock): Released {
    if lk.waiting != {} then
      var next := Least(lk.waiting);
      Released(ServerLock(Retrying, None, Some(next), lk.waiting - {next}), Some(next))
    else
      Released(lk.(holding := None, state := Unheld), None)
  }

  /** When an acquire is granted, who waits after it, and who is sent a revoke. */
  lemma AcquireAnswers(lk: ServerLock, id: ClientId)
    ensures var a := Acquire(lk, id);
            && (a.granted <==> lk.state == Unheld || (lk.state == Retrying && lk.retrying == Some(id)))
            && a.lk.holding == (if a.granted then Some(id) else lk.holding)
            && a.lk.waiting == (if a.granted then lk.waiting else lk.waiting + {id})
            && a.lk.retrying == (if a.granted && lk.state == Retrying then None else lk.retrying)
            && (lk.state == Locked ==> a.revoke == lk.holding && a.lk.state == Revoking)
            && (lk.state == Retrying && a.granted ==> a.revoke == if lk.waiting == {} then None else Some(id))
            && (lk.state == Unheld || lk.state == Revoking || (lk.state == Retrying && !a.granted) ==> a.revoke == None)
  {
  }

  /** A release passes over no client: the least of those that wait is told to try
      again and waits no longer; if none waits, the lock is free. */
  lemma ReleaseAnswers(lk: ServerLock, m: ClientId)
    requires IsLeast(m, lk.waiting)
    ensures Release(lk) == Released(ServerLock(Retrying, None, Some(m), lk.waiting - {m}), Some(m))
  {
  }

  lemma ReleaseToNobody(lk: ServerLock)
    requires lk.waiting == {}
    ensures var r := Release(lk);
            r.retry == None && r.lk.state == Unheld && r.lk.holding == None && r.lk.waiting == {}
  {
  }

  class Server {
    var locks: map<LockId, ServerLock>

    constructor ()
      ensures locks == map[]
    {
      locks := map[];
    }

    function Entry(lid: LockId): ServerLock
      reads this
    {
      if lid in locks then locks[lid] else FreshLock
    }

    method HandleAcquire(lid: LockId, id: ClientId) returns (granted: bool, revoke: Option<ClientId>)
      modifies this
      ensures var a := Acquire(old(Entry(lid)), id);
              locks == old(locks)[lid := a.lk] && granted == a.granted && revoke == a.revoke
    {
      if lid !in locks {
        locks := locks[lid := FreshLock];
      }
      var lk := locks[lid];
      granted, revoke := false, None;
      match lk.state {
        case Unheld =>
          lk := lk.(holding := Some(id), state := Locked);
          granted := true;
        case Locked =>
          lk := lk.(state := Revoking, waiting := lk.waiting + {id});
          revoke := lk.holding;
        case Revoking =>
          lk := lk.(waiting := lk.waiting + {id});
        case Retrying =>
          if lk.retrying == Some(id) {
            lk := lk.(holding := Some(id), retrying := None, state := Locked);
            if lk.waiting != {} {
              lk := lk.(state := Revoking);
              revoke := Some(id);
            }
            granted := true;
          } else {
            lk := lk.(waiting := lk.waiting + {id});
          }
      }
      locks := locks[lid := lk];
    }

    method HandleRelease(lid: LockId) returns (retry: Option<ClientId>)
      requires lid in locks
      modifies this
      ensures var r := Release(old(locks[lid])); locks == old(locks)[lid := r.lk] && retry == r.retry
      ensures retry.Some? <==> old(locks[lid]).waiting != {}
      ensures retry.Some? ==> IsLeast(retry.value, old(locks[lid]).waiting)
      ensures retry.Some? ==> locks[lid].waiting == old(locks[lid]).waiting - {retry.value}
    {
      var lk := locks[lid].(holding := None);
      if lk.waiting != {} {
        var next := Least(lk.waiting);
        lk := lk.(waiting := lk.waiting - {next}, retrying := Some(next), state := Retrying);
        retry := Some(next);
      } else {
        lk := lk.(state := Unheld);
        retry := None;
      }
      locks := locks[lid := lk];
    }
  }
}
