/** The WORM lock (core/worm_lock): idempotent lock and unlock, each state change audited. */
module Worm {
  import opened EventLog

  /** The lock together with the audit log it writes to. */
  datatype Lock = Lock(locked: bool, lockdowns: nat, log: seq<Kind>)

  function Engage(l: Lock): Lock {
    if l.locked then l else Lock(true, l.lockdowns + 1, l.log + [WormLockEngaged])
  }

  function Lift(l: Lock): Lock {
    if l.locked then Lock(false, l.lockdowns, l.log + [WormLockLifted]) else l
  }

  /** lockdown_count counts the engagements, and they outnumber the lifts by one exactly
      while the lock is engaged. */
  ghost predicate Balanced(l: Lock) {
    && l.lockdowns == Count(l.log, WormLockEngaged)
    && l.lockdowns == Count(l.log, WormLockLifted) + (if l.locked then 1 else 0)
  }

  class WormLock {
    const log: Log
    var locked: bool
    var lockdownCount: nat

    constructor (log: Log)
      ensures this.log == log
      ensures !locked && lockdownCount == 0
    {
      this.log := log;
      locked, lockdownCount := false, 0;
    }

    function Model(): Lock
      reads this, log
    {
      Lock(locked, lockdownCount, log.entries)
    }

    method TriggerLockdown() returns (changed: bool)
      modifies this, log
      ensures Model() == Engage(old(Model()))
      ensures locked && lockdownCount == old(lockdownCount) + (if changed then 1 else 0)
      ensures changed <==> !old(locked)
      ensures log.entries == old(log.entries) + (if changed then [WormLockEngaged] else [])
    {
      if locked {
        return false;
      }
      locked := true;
      lockdownCount := lockdownCount + 1;
      log.Add(WormLockEngaged);
      return true;
    }

    method Unlock() returns (changed: bool)
      modifies this, log
      ensures Model() == Lift(old(Model()))
      ensures !locked && lockdownCount == old(lockdownCount)
      ensures changed <==> old(locked)
      ensures log.entries == old(log.entries) + (if changed then [WormLockLifted] else [])
    {
      if !locked {
        return false;
      }
      locked := false;
      log.Add(WormLockLifted);
      return true;
    }
  }
}
