/** The audit callback every component receives at construction.  Only the kind of each
    entry is kept; the payload text is not.  The hash-linked chain behind the callback is
    modelled separately, in module Audit. */
module EventLog {

  datatype Kind =
    | WormLockEngaged | WormLockLifted
    | ThreatTierTransition
    | Rule01Fired | Rule03Fired | Rule04Belt | Rule05Fired
    | AiTriage
    | TokenGranted | TokenRevoked | TokenDenied
    | WormUnlockVote | WormUnlockVoteRejected | WormUnlockGranted
    | FirewallBlock | FirewallUnblock
    | ChaosWindowClosed
    | SandboxPopulated | SandboxWrite | SandboxEntryLocked | SandboxLockAll | SandboxEntryUnlocked

  function Count(log: seq<Kind>, kind: Kind): nat {
    multiset(log)[kind]
  }

  class Log {
    var entries: seq<Kind>

    constructor ()
      ensures entries == []
    {
      entries := [];
    }

    method Add(kind: Kind)
      modifies this
      ensures entries == old(entries) + [kind]
    {
      entries := entries + [kind];
    }
  }
}
