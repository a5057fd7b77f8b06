/** The per-host lock table: a process-wide map of mutexes that is never pruned. */
module Locks {

  class HostLocks {
    var mutexes: map<string, bool>   // host ID to "mutex is locked"

    /** The hosts whose mutex is locked. */
    ghost function Held(): set<string>
      reads this
    {
      set h | h in mutexes && mutexes[h]
    }

    constructor ()
      ensures Held() == {} && mutexes == map[]
    {
      mutexes := map[];
    }

    /** Creates the mutex on first use; succeeds exactly when nobody holds it. Other hosts do not matter. */
    method TryLock(hostID: string) returns (acquired: bool)
      modifies this
      ensures acquired <==> hostID !in old(Held())
      ensures Held() == old(Held()) + {hostID}
      ensures mutexes.Keys == old(mutexes.Keys) + {hostID}
    {
      if hostID !in mutexes {
        mutexes := mutexes[hostID := false];
      }
      acquired := !mutexes[hostID];
      mutexes := mutexes[hostID := true];
    }

    /** Unlocking an unlocked mutex panics, so the caller must hold it; an unknown host is ignored. */
    method Unlock(hostID: string)
      requires hostID in mutexes ==> hostID in Held()
      modifies this
      ensures Held() == old(Held()) - {hostID}
      ensures mutexes.Keys == old(mutexes.Keys)
    {
      if hostID in mutexes {
        mutexes := mutexes[hostID := false];
      }
    }
  }
}
