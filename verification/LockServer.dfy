/** The simple lock server (lock_server.cc): one flag per lock id. */
module LockServer {
  type LockId = nat

  /** An id that was never locked has no flag yet. */
  type Flags = map<LockId, bool>

  predicate IsLocked(flags: Flags, lid: LockId) {
    lid in flags && flags[lid]
  }

  /** Once granted, `acquire` sets the flag; it waits while the flag is set. */
  function Lock(flags: Flags, lid: LockId): Flags {
    flags[lid := true]
  }

  function Unlock(flags: Flags, lid: LockId): Flags {
    flags[lid := false]
  }

  class Server {
    var locked: Flags

    constructor ()
      ensures locked == map[]
    {
      locked := map[];
    }

    /** One pass under the mutex; `wait` means that the caller sleeps and comes back. */
    method AcquirePass(lid: LockId) returns (wait: bool)
      modifies this
      ensures wait == old(IsLocked(locked, lid))
      ensures locked == if wait then old(locked) else Lock(old(locked), lid)
      ensures IsLocked(locked, lid)
      ensures forall other :: other != lid ==> (IsLocked(locked, other) <==> old(IsLocked(locked, other)))
    {
      if lid !in locked || !locked[lid] {
        locked := locked[lid := true];
        wait := false;
      } else {
        wait := true;
      }
    }

    method Release(lid: LockId)
      modifies this
      ensures locked == Unlock(old(locked), lid)
      ensures !IsLocked(locked, lid)
      ensures forall other :: other != lid ==> (IsLocked(locked, other) <==> old(IsLocked(locked, other)))
    {
      locked := locked[lid := false];
    }
  }
}
