/** The firewall blocker (core/firewall): an allowlist that is never blocked, and blocks that
    expire.  netsh results, adapter queries and the clock are inputs. */
module Firewall {
  import opened EventLog

  const DEFAULT_TTL_SECONDS := 900

  // ---- Allowlist ---------------------------------------------------------------------

  /** The order std::sort uses on strings. */
  predicate Less(a: string, b: string) {
    if b == "" then false
    else if a == "" then true
    else a[0] < b[0] || (a[0] == b[0] && Less(a[1..], b[1..]))
  }

  /** It is the lexicographic order: a proper prefix comes first, and otherwise the first character
      that differs decides. */
  lemma {:induction false} LessIsLexicographic(a: string, b: string)
    ensures Less(a, b) <==> a < b || exists i :: DiffersAt(a, b, i) && a[i] < b[i]
  {
    if a != "" && b != "" {
      LessIsLexicographic(a[1..], b[1..]);
      if a[0] == b[0] {
        assert a == [a[0]] + a[1..] && b == [b[0]] + b[1..];
        forall i | DiffersAt(a[1..], b[1..], i) ensures DiffersAt(a, b, i + 1) {
          assert a[..i + 1] == [a[0]] + a[1..][..i] && b[..i + 1] == [b[0]] + b[1..][..i];
        }
        forall i | DiffersAt(a, b, i) ensures DiffersAt(a[1..], b[1..], i - 1) {
          assert i != 0;
          assert a[1..][..i - 1] == a[..i][1..] && b[1..][..i - 1] == b[..i][1..];
        }
      } else {
        assert DiffersAt(a, b, 0);
        assert forall i :: DiffersAt(a, b, i) ==> i == 0 || a[..i][0] == b[..i][0];
      }
    }
  }

  /** The strings agree before position i and differ there. */
  ghost predicate DiffersAt(a: string, b: string, i: int) {
    0 <= i < |a| && i < |b| && a[..i] == b[..i] && a[i] != b[i]
  }

  lemma {:induction false} LessTransitive(a: string, b: string, c: string)
    requires Less(a, b) && Less(b, c)
    ensures Less(a, c)
  {
    if a != "" && a[0] == b[0] && b[0] == c[0] {
      LessTransitive(a[1..], b[1..], c[1..]);
    }
  }

  lemma {:induction false} LessTotal(a: string, b: string)
    ensures Less(a, b) || a == b || Less(b, a)
  {
    if a != "" && b != "" && a[0] == b[0] {
      LessTotal(a[1..], b[1..]);
      assert a == [a[0]] + a[1..] && b == [b[0]] + b[1..];
    }
  }

  lemma {:induction false} LessIrreflexive(a: string)
    ensures !Less(a, a)
  {
    if a != "" {
      LessIrreflexive(a[1..]);
    }
  }

  ghost predicate StrictlySorted(list: seq<string>) {
    forall i, j :: 0 <= i < j < |list| ==> Less(list[i], list[j])
  }

  /** Strictly sorted lists have no duplicates and are determined by their members. */
  lemma {:induction false} SortedDetermined(r: seq<string>, s: seq<string>)
    requires StrictlySorted(r) && StrictlySorted(s)
    requires forall ip :: ip in r <==> ip in s
    ensures r == s
  {
    if s != [] {
      assert s[0] in r;
    }
    if r != [] {
      assert r[0] in s;
      FirstIsLeast(r, s[0]);
      FirstIsLeast(s, r[0]);
      LessTransitiveOrEqual(r[0], s[0]);
      TailMembers(r);
      TailMembers(s);
      SortedDetermined(r[1..], s[1..]);
    }
  }

  lemma LessTransitiveOrEqual(a: string, b: string)
    requires (a == b || Less(a, b)) && (a == b || Less(b, a))
    ensures a == b
  {
    if a != b {
      LessTransitive(a, b, a);
      LessIrreflexive(a);
    }
  }

  lemma FirstIsLeast(r: seq<string>, ip: string)
    requires StrictlySorted(r) && ip in r
    ensures ip == r[0] || Less(r[0], ip)
  {
  }

  lemma TailMembers(r: seq<string>)
    requires r != [] && StrictlySorted(r)
    ensures StrictlySorted(r[1..])
    ensures forall ip :: ip in r[1..] <==> ip in r && ip != r[0]
  {
    LessIrreflexive(r[0]);
    forall ip | ip in r && ip != r[0] ensures ip in r[1..] {
      var i :| 0 <= i < |r| && r[i] == ip;
      assert r[1..][i - 1] == ip;
    }
  }

  function Insert(list: seq<string>, ip: string): seq<string> {
    if list == [] then [ip]
    else if ip == list[0] then list
    else if Less(ip, list[0]) then [ip] + list
    else [list[0]] + Insert(list[1..], ip)
  }

  lemma {:induction false} InsertSorted(list: seq<string>, ip: string)
    requires StrictlySorted(list)
    ensures StrictlySorted(Insert(list, ip))
    ensures forall x :: x in Insert(list, ip) <==> x in list || x == ip
  {
    if list != [] && ip != list[0] {
      if Less(ip, list[0]) {
        forall j | 0 <= j < |list| ensures Less(ip, list[j]) {
          if j > 0 {
            LessTransitive(ip, list[0], list[j]);
          }
        }
      } else {
        LessTotal(ip, list[0]);
        InsertSorted(list[1..], ip);
        assert list == [list[0]] + list[1..];
        var tail := Insert(list[1..], ip);
        forall j | 0 <= j < |tail| ensures Less(list[0], tail[j]) {
          assert tail[j] in tail;
        }
      }
    }
  }

  /** std::sort followed by std::unique and erase. */
  method SortUnique(list: seq<string>) returns (r: seq<string>)
    ensures StrictlySorted(r)
    ensures forall ip :: ip in r <==> ip in list
  {
    r := [];
    for i := 0 to |list|
      invariant StrictlySorted(r)
      invariant forall ip :: ip in r <==> ip in list[..i]
    {
      InsertSorted(r, list[i]);
      assert list[..i + 1] == list[..i] + [list[i]];
      r := Insert(r, list[i]);
    }
    assert list[..|list|] == list;
  }

  const STATIC_ALLOWLIST := ["127.0.0.1", "::1", "0.0.0.0"]

  predicate Usable(ip: string) {
    ip != "" && ip != "0.0.0.0"
  }

  /** The gateways and DNS servers the system reports (none if the query failed) and the
      caller's extras. */
  method BuildAllowlist(gateways: seq<string>, dns: seq<string>, extra: seq<string>) returns (allow: seq<string>)
    ensures StrictlySorted(allow)
    ensures forall ip :: ip in allow <==>
                           || ip in {"127.0.0.1", "::1", "0.0.0.0"} || ip in extra
                           || (ip != "" && (ip in gateways || ip in dns))
  {
    allow := STATIC_ALLOWLIST;
    for i := 0 to |gateways|
      invariant forall ip :: ip in allow <==> ip in STATIC_ALLOWLIST || (Usable(ip) && ip in gateways[..i])
    {
      assert gateways[..i + 1] == gateways[..i] + [gateways[i]];
      if Usable(gateways[i]) {
        allow := allow + [gateways[i]];
      }
    }
    assert gateways[..|gateways|] == gateways;
    for i := 0 to |dns|
      invariant forall ip :: ip in allow <==>
                  ip in STATIC_ALLOWLIST || (Usable(ip) && (ip in gateways || ip in dns[..i]))
    {
      assert dns[..i + 1] == dns[..i] + [dns[i]];
      if Usable(dns[i]) {
        allow := allow + [dns[i]];
      }
    }
    assert dns[..|dns|] == dns;
    for i := 0 to |extra|
      invariant forall ip :: ip in allow <==>
                  ip in STATIC_ALLOWLIST || ip in extra[..i] || (Usable(ip) && (ip in gateways || ip in dns))
    {
      assert extra[..i + 1] == extra[..i] + [extra[i]];
      allow := allow + [extra[i]];
    }
    assert extra[..|extra|] == extra;
    allow := SortUnique(allow);
  }

  // ---- Specification of the blocks ---------------------------------------------------

  datatype ActiveBlock = ActiveBlock(blockedAtMs: int, expiresAtMs: int)

  datatype Blocker = Blocker(allow: seq<string>, defaultTtlS: int, blocks: map<string, ActiveBlock>, log: seq<Kind>)

  datatype Outcome = Blocked | Allowlisted | AlreadyBlocked | NetshFailed

  function BlockOutcome(b: Blocker, ip: string, okIn: bool, okOut: bool): Outcome {
    if ip in b.allow then Allowlisted
    else if ip in b.blocks then AlreadyBlocked
    else if !okIn && !okOut then NetshFailed
    else Blocked
  }

  function Expiry(b: Blocker, ttlS: int, nowMs: int): int {
    nowMs + (if ttlS > 0 then ttlS else b.defaultTtlS) * 1000
  }

  function Block(b: Blocker, ip: string, ttlS: int, nowMs: int, okIn: bool, okOut: bool): Blocker {
    if BlockOutcome(b, ip, okIn, okOut) != Blocked then b
    else b.(blocks := b.blocks[ip := ActiveBlock(nowMs, Expiry(b, ttlS, nowMs))], log := b.log + [FirewallBlock])
  }

  function Unblock(b: Blocker, ip: string): Blocker {
    if ip in b.blocks then b.(blocks := b.blocks - {ip}, log := b.log + [FirewallUnblock]) else b
  }

  function Expired(b: Blocker, nowMs: int): set<string> {
    set ip | ip in b.blocks && b.blocks[ip].expiresAtMs <= nowMs
  }

  function Unblocks(n: nat): seq<Kind> {
    if n == 0 then [] else Unblocks(n - 1) + [FirewallUnblock]
  }

  function Sweep(b: Blocker, nowMs: int): Blocker {
    b.(blocks := b.blocks - Expired(b, nowMs), log := b.log + Unblocks(|Expired(b, nowMs)|))
  }

  datatype Step =
    | OnBlock(ip: string, ttlS: int, nowMs: int, okIn: bool, okOut: bool)
    | OnUnblock(ip: string)
    | OnSweep(nowMs: int)

  function Apply(b: Blocker, s: Step): Blocker {
    match s
    case OnBlock(ip, ttlS, nowMs, okIn, okOut) => Block(b, ip, ttlS, nowMs, okIn, okOut)
    case OnUnblock(ip) => Unblock(b, ip)
    case OnSweep(nowMs) => Sweep(b, nowMs)
  }

  function Run(b: Blocker, steps: seq<Step>): Blocker {
    if steps == [] then b else Apply(Run(b, steps[..|steps| - 1]), steps[|steps| - 1])
  }

  // ---- Invariants --------------------------------------------------------------------

  /** No allowlisted address is blocked, and the audit log accounts for the active blocks. */
  ghost predicate Sound(b: Blocker) {
    && (forall ip :: ip in b.allow ==> ip !in b.blocks)
    && Count(b.log, FirewallBlock) == Count(b.log, FirewallUnblock) + |b.blocks|
  }

  lemma {:induction false} UnblocksCount(n: nat)
    ensures Count(Unblocks(n), FirewallUnblock) == n && Count(Unblocks(n), FirewallBlock) == 0
    ensures |Unblocks(n)| == n && forall i :: 0 <= i < n ==> Unblocks(n)[i] == FirewallUnblock
  {
    if n > 0 {
      UnblocksCount(n - 1);
    }
  }

  lemma RemovedCount(blocks: map<string, ActiveBlock>, gone: set<string>)
    requires gone <= blocks.Keys
    ensures |blocks - gone| == |blocks| - |gone|
  {
    assert (blocks - gone).Keys == blocks.Keys - gone;
    assert |blocks - gone| == |(blocks - gone).Keys| && |blocks| == |blocks.Keys|;
  }

  lemma AddedCount(blocks: map<string, ActiveBlock>, ip: string, a: ActiveBlock)
    requires ip !in blocks
    ensures |blocks[ip := a]| == |blocks| + 1
  {
  }

  lemma SoundStep(b: Blocker, s: Step)
    requires Sound(b)
    ensures Sound(Apply(b, s)) && Apply(b, s).allow == b.allow
  {
    match s
    case OnBlock(ip, ttlS, nowMs, okIn, okOut) =>
      if BlockOutcome(b, ip, okIn, okOut) == Blocked {
        AddedCount(b.blocks, ip, ActiveBlock(nowMs, Expiry(b, ttlS, nowMs)));
      }
    case OnUnblock(ip) =>
      if ip in b.blocks {
        RemovedCount(b.blocks, {ip});
      }
    case OnSweep(nowMs) =>
      RemovedCount(b.blocks, Expired(b, nowMs));
      UnblocksCount(|Expired(b, nowMs)|);
  }

  /** Over every run: no allowlisted address is ever a key of blocks_, and the block entries in
      the audit log outnumber the unblock entries by the number of active blocks. */
  lemma {:induction false} SoundAlways(b: Blocker, steps: seq<Step>)
    requires b.blocks == map[] && b.log == []
    ensures Sound(Run(b, steps)) && Run(b, steps).allow == b.allow
  {
    if steps != [] {
      SoundAlways(b, steps[..|steps| - 1]);
      SoundStep(Run(b, steps[..|steps| - 1]), steps[|steps| - 1]);
    }
  }

  /** A sweep leaves exactly the blocks with a later expiry, unchanged, and audits each one it ends. */
  lemma SweepExact(b: Blocker, nowMs: int, ip: string)
    ensures var after := Sweep(b, nowMs);
            && after.allow == b.allow && after.defaultTtlS == b.defaultTtlS
            && b.log <= after.log && |after.log| - |b.log| == |b.blocks| - |after.blocks|
            && forall i :: |b.log| <= i < |after.log| ==> after.log[i] == FirewallUnblock
    ensures ip in Sweep(b, nowMs).blocks <==> ip in b.blocks && b.blocks[ip].expiresAtMs > nowMs
    ensures ip in Sweep(b, nowMs).blocks ==> Sweep(b, nowMs).blocks[ip] == b.blocks[ip]
  {
    RemovedCount(b.blocks, Expired(b, nowMs));
    UnblocksCount(|Expired(b, nowMs)|);
  }

  /** The life of a block: an address blocked at some time for `ttlS` seconds, or for the default if
      that is not positive, is gone after exactly the sweeps that come that much later. */
  lemma BlockLife(b: Blocker, ip: string, ttlS: int, nowMs: int, okIn: bool, okOut: bool, sweptAtMs: int)
    requires ip !in b.allow && ip !in b.blocks && (okIn || okOut)
    ensures var seconds := if ttlS > 0 then ttlS else b.defaultTtlS;
            var after := Apply(Apply(b, OnBlock(ip, ttlS, nowMs, okIn, okOut)), OnSweep(sweptAtMs));
            ip in after.blocks <==> sweptAtMs - nowMs < 1000 * seconds
  {
  }

  /** A request to block succeeds exactly for an address that is neither protected nor blocked, if
      one of the two rules could be added; otherwise it changes nothing. */
  lemma BlockSucceedsIff(b: Blocker, ip: string, ttlS: int, nowMs: int, okIn: bool, okOut: bool)
    ensures var after := Apply(b, OnBlock(ip, ttlS, nowMs, okIn, okOut));
            && (after != b <==> ip !in b.allow && ip !in b.blocks && (okIn || okOut))
            && (after != b <==> BlockOutcome(b, ip, okIn, okOut) == Blocked)
            && (after != b ==> after.blocks.Keys == b.blocks.Keys + {ip} && after.log == b.log + [FirewallBlock])
            && (after != b ==> after.blocks - {ip} == b.blocks && after.blocks[ip].blockedAtMs == nowMs)
            && after.allow == b.allow && after.defaultTtlS == b.defaultTtlS
            && (BlockOutcome(b, ip, okIn, okOut) == Allowlisted <==> ip in b.allow)
            && (BlockOutcome(b, ip, okIn, okOut) == AlreadyBlocked <==> ip !in b.allow && ip in b.blocks)
  {
    var after := Apply(b, OnBlock(ip, ttlS, nowMs, okIn, okOut));
    if BlockOutcome(b, ip, okIn, okOut) == Blocked {
      assert ip in after.blocks && after.blocks - {ip} == b.blocks;
    }
  }

  /** Some sweep of the run came at or after this expiry. */
  ghost predicate SweptAfter(steps: seq<Step>, expiry: int) {
    exists i :: 0 <= i < |steps| && steps[i].OnSweep? && steps[i].nowMs >= expiry
  }

  /** A block lives unchanged, whatever else is blocked, unblocked or swept and however often it
      is asked for again, until the first sweep at or after its expiry. */
  lemma {:induction false} BlockLivesUntilSwept(b: Blocker, steps: seq<Step>, ip: string)
    requires ip in b.blocks && OnUnblock(ip) !in steps
    requires !SweptAfter(steps, b.blocks[ip].expiresAtMs)
    ensures ip in Run(b, steps).blocks && Run(b, steps).blocks[ip] == b.blocks[ip]
  {
    if steps != [] {
      var before, s := steps[..|steps| - 1], steps[|steps| - 1];
      assert forall i :: 0 <= i < |before| ==> before[i] == steps[i];
      BlockLivesUntilSwept(b, before, ip);
      if s.OnSweep? {
        SweepExact(Run(b, before), s.nowMs, ip);
      }
    }
  }

  lemma SweptEarlierOrLast(steps: seq<Step>, expiry: int)
    requires SweptAfter(steps, expiry)
    ensures var before, s := steps[..|steps| - 1], steps[|steps| - 1];
            SweptAfter(before, expiry) || (s.OnSweep? && s.nowMs >= expiry)
  {
    var i :| 0 <= i < |steps| && steps[i].OnSweep? && steps[i].nowMs >= expiry;
    if i < |steps| - 1 {
      assert steps[..|steps| - 1][i] == steps[i];
    }
  }

  /** And that sweep ends it: unless the address is blocked anew, it is free afterwards. */
  lemma {:induction false} BlockEndsWhenSwept(b: Blocker, steps: seq<Step>, ip: string)
    requires ip in b.blocks && SweptAfter(steps, b.blocks[ip].expiresAtMs)
    requires forall i :: 0 <= i < |steps| && steps[i].OnBlock? ==> steps[i].ip != ip
    ensures ip !in Run(b, steps).blocks
  {
    var before, s := steps[..|steps| - 1], steps[|steps| - 1];
    if SweptAfter(before, b.blocks[ip].expiresAtMs) {
      BlockEndsWhenSwept(b, before, ip);
      if s.OnSweep? {
        SweepExact(Run(b, before), s.nowMs, ip);
      }
    } else {
      SweptEarlierOrLast(steps, b.blocks[ip].expiresAtMs);
      KeepsRecordOrGone(b, before, ip);
      SweepExact(Run(b, before), s.nowMs, ip);
    }
  }

  lemma {:induction false} KeepsRecordOrGone(b: Blocker, steps: seq<Step>, ip: string)
    requires ip in b.blocks
    requires forall i :: 0 <= i < |steps| && steps[i].OnBlock? ==> steps[i].ip != ip
    ensures ip in Run(b, steps).blocks ==> Run(b, steps).blocks[ip] == b.blocks[ip]
  {
    if steps != [] {
      KeepsRecordOrGone(b, steps[..|steps| - 1], ip);
    }
  }

  // ---- Implementation ----------------------------------------------------------------

  class FirewallBlocker {
    const log: Log
    const defaultTtlS: int
    const allowlist: seq<string>
    var blocks: map<string, ActiveBlock>

    constructor (log: Log, defaultTtlS: int, gateways: seq<string>, dns: seq<string>, extra: seq<string>)
      ensures this.log == log && blocks == map[]
      ensures StrictlySorted(allowlist)
      ensures forall ip :: ip in allowlist <==>
                             || ip in {"127.0.0.1", "::1", "0.0.0.0"} || ip in extra
                             || (ip != "" && (ip in gateways || ip in dns))
      ensures this.defaultTtlS == (if defaultTtlS > 0 then defaultTtlS else 900)
    {
      this.log := log;
      this.defaultTtlS := if defaultTtlS > 0 then defaultTtlS else DEFAULT_TTL_SECONDS;
      var allow := BuildAllowlist(gateways, dns, extra);
      allowlist := allow;
      blocks := map[];
    }

    function Model(): Blocker
      reads this, log
    {
      Blocker(allowlist, defaultTtlS, blocks, log.entries)
    }

    /** okIn and okOut: whether netsh accepted the inbound and the outbound rule. */
    method BlockIp(ip: string, ttlS: int, nowMs: int, okIn: bool, okOut: bool) returns (r: Outcome)
      modifies this, log
      ensures Model() == Apply(old(Model()), OnBlock(ip, ttlS, nowMs, okIn, okOut))
      ensures r == BlockOutcome(old(Model()), ip, okIn, okOut)
      ensures r == Blocked ==> ip in blocks && (ttlS > 0 || defaultTtlS > 0 ==> blocks[ip].expiresAtMs > nowMs)
    {
      if ip in allowlist {
        return Allowlisted;
      }
      if ip in blocks {
        return AlreadyBlocked;
      }
      if !okIn && !okOut {
        return NetshFailed;
      }
      var effectiveTtl := if ttlS > 0 then ttlS else defaultTtlS;
      log.Add(FirewallBlock);
      blocks := blocks[ip := ActiveBlock(nowMs, nowMs + effectiveTtl * 1000)];
      return Blocked;
    }

    method UnblockIp(ip: string) returns (found: bool)
      modifies this, log
      ensures Model() == Apply(old(Model()), OnUnblock(ip))
      ensures found <==> ip in old(blocks)
      ensures blocks == old(blocks) - {ip}
      ensures log.entries == old(log.entries) + (if found then [FirewallUnblock] else [])
    {
      if ip !in blocks {
        assert blocks - {ip} == blocks;
        return false;
      }
      DoUnblockLocked(ip);
      return true;
    }

    method DoUnblockLocked(ip: string)
      requires ip in blocks
      modifies this, log
      ensures blocks == old(blocks) - {ip}
      ensures log.entries == old(log.entries) + [FirewallUnblock]
    {
      log.Add(FirewallUnblock);
      blocks := blocks - {ip};
    }

    /** One tick of expiry_loop: walk the map, erasing on the way. */
    method ExpirySweep(nowMs: int)
      modifies this, log
      ensures Model() == Apply(old(Model()), OnSweep(nowMs))
    {
      ghost var start := Model();
      var todo := blocks.Keys;
      ghost var gone: set<string> := {};
      while todo != {}
        invariant todo <= start.blocks.Keys
        invariant gone <= start.blocks.Keys && gone !! todo
        invariant forall ip :: ip in gone <==> ip in Expired(start, nowMs) && ip !in todo
        invariant blocks == start.blocks - gone
        invariant log.entries == start.log + Unblocks(|gone|)
        decreases |todo|
      {
        var ip :| ip in todo;
        todo := todo - {ip};
        if blocks[ip].expiresAtMs <= nowMs {
          DoUnblockLocked(ip);
          assert |gone + {ip}| == |gone| + 1;
          gone := gone + {ip};
          assert start.blocks - gone == blocks;
        }
      }
      assert gone == Expired(start, nowMs);
    }

    /** The destructor removes the remaining rules without audit entries. */
    method Shutdown()
      modifies this
      ensures blocks == map[] && log.entries == old(log.entries)
    {
      blocks := map[];
    }
  }
}
