/** The system as the bridge wires it (bridge/astartis_bridge.cpp): the rule engine, the triage
    layer and the threat state machine engage the WORM lock, the unlock protocol's callback is
    the only caller of its unlock, and the sandbox asks it before every write.  All of them
    interleave over one lock, one critical section at a time: rule evaluations on any number of
    threads, votes, tokens, and writes that check the lock before they take the store's mutex. */
module Containment {
  import opened EventLog
  import opened Worm
  import opened Threat
  import opened Rules
  import opened Overlap
  import Ai
  import Crypto
  import Access
  import Unlock
  import Sandbox

  // ---- The composed system -----------------------------------------------------------

  /** A write that has passed the lock check and not yet entered the store. */
  datatype Checked = Checked(rel: string, content: string)

  datatype System = System(
    r: Race,
    p: Unlock.Protocol,
    tokens: Access.Tokens,
    entries: Sandbox.Entries,
    writers: map<nat, Checked>)

  datatype Input =
    | OnMicro(micro: Micro)
    | OnTriage(thread: nat, score: int, fast: Ai.FastReply, heavy: Ai.HeavyReply)
    | OnTriageAudit
    | OnProtocol(event: Unlock.Event)
    | OnCheckWrite(writer: nat, absPath: string, content: string)
    | OnCommitWrite(writer: nat, nowMs: int)
    | OnStore(op: Sandbox.Step)

  /** What the bridge can bring about: nothing else unlocks, and writes go through their check. */
  predicate Wired(i: Input) {
    && i != OnMicro(Elsewhere(OnUnlock))
    && !(i.OnProtocol? && i.event.OnLockActivity?)
    && !(i.OnStore? && i.op.OnWrite?)
  }

  predicate Locked(s: System) {
    s.r.e.m.lock.locked
  }

  function WorldOf(s: System): Unlock.World {
    Unlock.World(s.p, s.tokens, s.r.e.m.lock)
  }

  function WithLock(e: Engine, lock: Lock): Engine {
    e.(m := e.m.(lock := lock))
  }

  function WithWorld(s: System, w: Unlock.World): System {
    s.(r := s.r.(e := WithLock(s.r.e, w.lock)), p := w.p, tokens := w.tokens)
  }

  function CheckWrite(root: string, s: System, writer: nat, absPath: string, content: string): System {
    var rel := Sandbox.ToRel(root, absPath);
    if writer in s.writers || !Sandbox.IsInside(absPath, root) || rel == "" || Locked(s) then s
    else s.(writers := s.writers[writer := Checked(rel, content)])
  }

  function CommitWrite(s: System, writer: nat, nowMs: int): System {
    if writer !in s.writers then s
    else
      var c := s.writers[writer];
      var open := c.rel in s.entries ==> !s.entries[c.rel].locked;
      s.(writers := s.writers - {writer},
         entries := if open then Sandbox.Written(s.entries, c.rel, c.content, nowMs) else s.entries)
  }

  /** Triage hands its score to evaluate_threat_score on its own thread, and audits later. */
  function TriageAct(score: int, fast: Ai.FastReply, heavy: Ai.HeavyReply): Act {
    BeginScore(Ai.EngineScore(score, fast, heavy))
  }

  function Apply(verify: Crypto.Verifier, root: string, s: System, i: Input): System {
    match i
    case OnMicro(micro) => s.(r := MicroApply(s.r, micro))
    case OnTriage(thread, score, fast, heavy) => s.(r := Take(s.r, thread, TriageAct(score, fast, heavy)))
    case OnTriageAudit => s.(r := s.r.(e := Audited(s.r.e, EventLog.AiTriage)))
    case OnProtocol(event) => WithWorld(s, Unlock.Apply(verify, WorldOf(s), event))
    case OnCheckWrite(writer, absPath, content) => CheckWrite(root, s, writer, absPath, content)
    case OnCommitWrite(writer, nowMs) => CommitWrite(s, writer, nowMs)
    case OnStore(op) => s.(entries := Sandbox.Apply(root, s.entries, op))
  }

  /** Each input is a step of the component it concerns, as that component takes it by itself, and
      leaves the others where they are; what they share is the lock and its log. */
  lemma PartsStep(verify: Crypto.Verifier, root: string, s: System, micro: Micro, event: Unlock.Event,
                  op: Sandbox.Step, thread: nat, score: int, fast: Ai.FastReply, heavy: Ai.HeavyReply)
    ensures var s' := Apply(verify, root, s, OnMicro(micro)); s' == s.(r := s'.r) && s'.r == MicroApply(s.r, micro)
    ensures Apply(verify, root, s, OnTriage(thread, score, fast, heavy))
         == Apply(verify, root, s, OnMicro(Of(thread, BeginScore(Ai.EngineScore(score, fast, heavy)))))
    ensures var s' := Apply(verify, root, s, OnTriageAudit);
            && s' == s.(r := s.r.(e := s'.r.e)) && s'.r.e == WithLock(s.r.e, s'.r.e.m.lock)
            && s'.r.e.m.lock == s.r.e.m.lock.(log := s.r.e.m.lock.log + [EventLog.AiTriage])
    ensures var s' := Apply(verify, root, s, OnProtocol(event));
            && WorldOf(s') == Unlock.Apply(verify, WorldOf(s), event)
            && s'.entries == s.entries && s'.writers == s.writers
            && s'.r == s.r.(e := s'.r.e) && s'.r.e == WithLock(s.r.e, s'.r.e.m.lock)
    ensures var s' := Apply(verify, root, s, OnStore(op));
            s' == s.(entries := s'.entries) && s'.entries == Sandbox.Apply(root, s.entries, op)
  {
  }

  /** A run: states[k] is the state before inputs[k]. */
  datatype Trace = Trace(inputs: seq<Input>, states: seq<System>)

  ghost predicate Stepped(verify: Crypto.Verifier, root: string, t: Trace, k: nat)
    requires k + 1 < |t.states| && k < |t.inputs|
  {
    t.states[k + 1] == Apply(verify, root, t.states[k], t.inputs[k])
  }

  /** Any number of threads may evaluate rules. */
  ghost predicate IsRun(verify: Crypto.Verifier, root: string, t: Trace) {
    && |t.states| == |t.inputs| + 1
    && t.states[0].r == RaceStart(|t.states[0].r.pcs|) && Unlock.Start(WorldOf(t.states[0]))
    && forall k :: 0 <= k < |t.inputs| ==> Wired(t.inputs[k]) && Stepped(verify, root, t, k)
  }

  // ---- Rule evaluations in the system ------------------------------------------------

  lemma QuietAudit(e: Engine)
    ensures Quiet(e, Audited(e, EventLog.AiTriage))
  {
  }

  lemma QuietMicro(r: Race, micro: Micro)
    requires micro != Elsewhere(OnUnlock)
    ensures Quiet(r.e, MicroApply(r, micro).e)
  {
    match micro
    case Of(t, a) =>
      if Ready(r, t, a) {
        QuietAct(r.e, r.pcs[t], a);
      }
    case Elsewhere(step) =>
      if SingleSection(step) {
        GentleElsewhere(r.e, step);
      }
  }

  /** Whatever the rules, the triage layer and the sandbox do is quiet. */
  lemma QuietInput(verify: Crypto.Verifier, root: string, s: System, i: Input)
    requires Wired(i) && !i.OnProtocol?
    ensures Quiet(s.r.e, Apply(verify, root, s, i).r.e)
  {
    match i
    case OnMicro(micro) => QuietMicro(s.r, micro);
    case OnTriage(thread, score, fast, heavy) => QuietMicro(s.r, Of(thread, TriageAct(score, fast, heavy)));
    case OnTriageAudit => QuietAudit(s.r.e);
    case _ =>
  }

  /** Triage without interruption is the triage step as a whole. */
  lemma TriageAlone(r: Race, t: nat, score: int, fast: Ai.FastReply, heavy: Ai.HeavyReply)
    returns (steps: seq<Micro>)
    requires t < |r.pcs| && r.pcs[t] == RESTING
    ensures steps == [Of(t, TriageAct(score, fast, heavy))] + BeltSteps(t) + [Of(t, End)]
    ensures var done := MicroRun(r, steps);
            done.(e := Audited(done.e, EventLog.AiTriage)) == r.(e := Ai.Triaged(r.e, score, fast, heavy))
  {
    steps := ScoreAlone(r, t, Ai.EngineScore(score, fast, heavy));
  }

  // ---- The protocol's view of a run --------------------------------------------------

  /** To the protocol, what the other components do is activity on the lock. */
  function EventOf(t: Trace, k: nat): Unlock.Event
    requires k < |t.inputs| && |t.states| == |t.inputs| + 1
  {
    if t.inputs[k].OnProtocol? then t.inputs[k].event
    else Unlock.OnLockActivity(t.states[k + 1].r.e.m.lock)
  }

  function ProtocolView(t: Trace): (v: Unlock.Trace)
    requires |t.states| == |t.inputs| + 1
    ensures |v.events| == |t.inputs| && |v.worlds| == |t.states|
  {
    Unlock.Trace(
      seq(|t.inputs|, k requires 0 <= k < |t.inputs| => EventOf(t, k)),
      seq(|t.states|, k requires 0 <= k < |t.states| => WorldOf(t.states[k])))
  }

  lemma StepInView(verify: Crypto.Verifier, root: string, t: Trace, k: nat)
    requires k < |t.inputs| && |t.states| == |t.inputs| + 1
    requires Wired(t.inputs[k]) && Stepped(verify, root, t, k)
    ensures WorldOf(t.states[k + 1]) == Unlock.Apply(verify, WorldOf(t.states[k]), EventOf(t, k))
  {
    if !t.inputs[k].OnProtocol? {
      QuietInput(verify, root, t.states[k], t.inputs[k]);
    }
  }

  /** Every run of the system is, seen from the protocol, a run of the protocol. */
  lemma ViewIsRun(verify: Crypto.Verifier, root: string, t: Trace)
    requires IsRun(verify, root, t)
    ensures Unlock.IsRun(verify, ProtocolView(t))
  {
    var v := ProtocolView(t);
    forall k | 0 <= k < |v.events| ensures Unlock.Stepped(verify, v, k) {
      assert Wired(t.inputs[k]) && Stepped(verify, root, t, k);
      StepInView(verify, root, t, k);
    }
  }

  // ---- Only a quorum lifts the lock --------------------------------------------------

  /** Whoever lifts the lock in the whole system has a quorum behind it: the event is a vote
      that completes exactly `threshold` valid ballots by different approvers, all cast since
      the open session began. */
  lemma LockLiftedOnlyByQuorum(verify: Crypto.Verifier, root: string, t: Trace, k: nat)
    returns (opening: nat, ballots: map<string, nat>)
    requires IsRun(verify, root, t) && k < |t.inputs|
    requires Locked(t.states[k]) && !Locked(t.states[k + 1])
    ensures t.inputs[k].OnProtocol? && t.inputs[k].event.OnCast?
    ensures Unlock.Quorum(verify, ProtocolView(t), k, opening, ballots)
  {
    ViewIsRun(verify, root, t);
    opening, ballots := Unlock.LiftNeedsQuorum(verify, ProtocolView(t), k);
    assert ProtocolView(t).events[k] == EventOf(t, k);
  }

  // ---- CRITICAL with an open lock ----------------------------------------------------

  /** The inputs that engage the lock at once: a manual lock, and an evaluation that read
      CRITICAL and then an open lock. */
  predicate Relocks(s: System, i: Input) {
    && i.OnMicro?
    && (i.micro == Elsewhere(OnManualLock)
        || (i.micro.Of? && i.micro.act == Trigger && Ready(s.r, i.micro.thread, Trigger)))
  }

  lemma BrokenStep(verify: Crypto.Verifier, root: string, s: System, i: Input)
    requires Wired(i) && Broken(Apply(verify, root, s, i).r.e)
    ensures Broken(s.r.e) || Locked(s)
    ensures !Relocks(s, i)
  {
    if !i.OnProtocol? {
      QuietInput(verify, root, s, i);
    }
  }

  lemma {:induction false} BrokenSince(verify: Crypto.Verifier, root: string, t: Trace, k: nat)
    returns (j: nat)
    requires IsRun(verify, root, t) && k < |t.states| && Broken(t.states[k].r.e)
    ensures j < k && Locked(t.states[j])
    ensures forall n :: j < n <= k ==> Broken(t.states[n].r.e)
    ensures forall n :: j < n < k ==> !Relocks(t.states[n], t.inputs[n])
  {
    assert k > 0;
    assert Wired(t.inputs[k - 1]) && Stepped(verify, root, t, k - 1);
    BrokenStep(verify, root, t.states[k - 1], t.inputs[k - 1]);
    if Broken(t.states[k - 1].r.e) {
      j := BrokenSince(verify, root, t, k - 1);
    } else {
      j := k - 1;
    }
  }

  /** The system is CRITICAL with its lock open only in the aftermath of a quorum: some earlier
      vote lifted the lock, and since then the tier has been CRITICAL without a manual lock and
      without a single evaluation getting past its two reads to the trigger. */
  lemma UnlockedCriticalFollowsQuorum(verify: Crypto.Verifier, root: string, t: Trace, k: nat)
    returns (j: nat, opening: nat, ballots: map<string, nat>)
    requires IsRun(verify, root, t) && k < |t.states| && Broken(t.states[k].r.e)
    ensures j < k && Unlock.Quorum(verify, ProtocolView(t), j, opening, ballots)
    ensures forall n :: j < n <= k ==> Broken(t.states[n].r.e)
    ensures forall n :: j < n < k ==> !Relocks(t.states[n], t.inputs[n])
  {
    j := BrokenSince(verify, root, t, k);
    assert Broken(t.states[j + 1].r.e);
    opening, ballots := LockLiftedOnlyByQuorum(verify, root, t, j);
  }

  /** The input begins the evaluation of a threat score, by RULE-02 or by triage. */
  predicate BeginsScore(s: System, i: Input, thread: nat) {
    || (i.OnMicro? && i.micro.Of? && i.micro.thread == thread && i.micro.act.BeginScore?
        && Ready(s.r, thread, i.micro.act))
    || (i.OnTriage? && i.thread == thread && Ready(s.r, thread, TriageAct(i.score, i.fast, i.heavy)))
  }

  lemma ScoreStep(verify: Crypto.Verifier, root: string, s: System, i: Input, thread: nat)
    requires Broken(Apply(verify, root, s, i).r.e)
    requires (AtStage(s.r, thread, BELT) && Broken(s.r.e)) || BeginsScore(s, i, thread)
    ensures AtStage(Apply(verify, root, s, i).r, thread, BELT)
  {
    if !BeginsScore(s, i, thread) {
      match i
      case OnMicro(micro) => BeltStep(s.r, micro, thread);
      case OnTriage(other, score, fast, heavy) =>
        BeltStep(s.r, Of(other, TriageAct(score, fast, heavy)), thread);
      case _ =>
    }
  }

  lemma {:induction false} ScoresStall(verify: Crypto.Verifier, root: string, t: Trace, n: nat, k: nat, thread: nat)
    requires IsRun(verify, root, t) && n < k < |t.states|
    requires forall m :: n < m <= k ==> Broken(t.states[m].r.e)
    requires BeginsScore(t.states[n], t.inputs[n], thread)
    ensures AtStage(t.states[k].r, thread, BELT)
  {
    assert Stepped(verify, root, t, k - 1);
    if n + 1 < k {
      ScoresStall(verify, root, t, n, k - 1, thread);
    }
    ScoreStep(verify, root, t.states[k - 1], t.inputs[k - 1], thread);
  }

  /** The next threat score restores the lock: as long as the system stays CRITICAL with its lock
      open, no evaluation of a threat score begun after the lift gets out of its belt. */
  lemma NoScoreCompletes(verify: Crypto.Verifier, root: string, t: Trace, k: nat)
    returns (j: nat, opening: nat, ballots: map<string, nat>)
    requires IsRun(verify, root, t) && k < |t.states| && Broken(t.states[k].r.e)
    ensures j < k && Unlock.Quorum(verify, ProtocolView(t), j, opening, ballots)
    ensures forall n, thread :: j < n < k && BeginsScore(t.states[n], t.inputs[n], thread) ==>
                                  AtStage(t.states[k].r, thread, BELT)
  {
    j, opening, ballots := UnlockedCriticalFollowsQuorum(verify, root, t, k);
    forall n, thread | j < n < k && BeginsScore(t.states[n], t.inputs[n], thread)
      ensures AtStage(t.states[k].r, thread, BELT)
    {
      ScoresStall(verify, root, t, n, k, thread);
    }
  }

  // ---- Ledgers -----------------------------------------------------------------------

  /** The invariant of overlapping evaluations, and no more lifts than granted sessions. */
  ghost predicate Books(s: System) {
    RaceInv(s.r) && Lifts(s.r.e) <= Grants(s.r.e)
  }

  lemma GentleAudited(e: Engine, kind: Kind)
    requires kind in {EventLog.AiTriage, TokenDenied, WormUnlockVote, WormUnlockVoteRejected, WormUnlockGranted}
    ensures Gentle(e, Audited(e, kind))
    ensures Grants(Audited(e, kind)) == Grants(e) + (if kind == WormUnlockGranted then 1 else 0)
  {
    LedgersAudited(e, kind);
  }

  /** An entry of the protocol or of triage in the log keeps the books. */
  lemma BooksAudited(s: System, kind: Kind)
    requires Books(s)
    requires kind in {EventLog.AiTriage, TokenDenied, WormUnlockVote, WormUnlockVoteRejected, WormUnlockGranted}
    ensures Books(s.(r := s.r.(e := Audited(s.r.e, kind))))
  {
    GentleAudited(s.r.e, kind);
    RaceInvElsewhere(s.r, Audited(s.r.e, kind));
  }

  lemma BooksGrant(s: System)
    requires Books(s)
    ensures Books(s.(r := s.r.(e := WithLock(s.r.e, Lift(Logged(s.r.e.m.lock, WormUnlockGranted))))))
  {
    var granted := Audited(s.r.e, WormUnlockGranted);
    GentleAudited(s.r.e, WormUnlockGranted);
    RaceInvElsewhere(s.r, granted);
    GentleElsewhere(granted, OnUnlock);
    RaceInvElsewhere(s.r.(e := granted), Rules.Apply(granted, OnUnlock));
  }

  lemma BooksAccept(s: System, name: string)
    requires Books(s)
    ensures Books(WithWorld(s, Unlock.Accept(WorldOf(s), name)))
  {
    var voted := s.(r := s.r.(e := Audited(s.r.e, WormUnlockVote)));
    var done := WithWorld(s, Unlock.Accept(WorldOf(s), name));
    BooksAudited(s, WormUnlockVote);
    if |Unlock.Voted(done.p.votes)| >= done.p.threshold {
      BooksGrant(voted);
      assert done.r == voted.r.(e := WithLock(voted.r.e, Lift(Logged(voted.r.e.m.lock, WormUnlockGranted))));
    } else {
      assert done.r == voted.r;
    }
  }

  lemma BooksReject(s: System, reason: Unlock.Reason)
    requires Books(s)
    ensures Books(WithWorld(s, Unlock.Reject(WorldOf(s), reason)))
  {
    var denied := if reason.ScopeDenied? then s.(r := s.r.(e := Audited(s.r.e, TokenDenied))) else s;
    BooksAudited(s, TokenDenied);
    BooksAudited(denied, WormUnlockVoteRejected);
    var done := WithWorld(s, Unlock.Reject(WorldOf(s), reason));
    assert done.r.e.m.lock.log == Audited(denied.r.e, WormUnlockVoteRejected).m.lock.log;
    assert done.r == denied.r.(e := Audited(denied.r.e, WormUnlockVoteRejected));
  }

  lemma BooksProtocol(verify: Crypto.Verifier, s: System, event: Unlock.Event)
    requires !event.OnLockActivity? && Books(s)
    ensures Books(WithWorld(s, Unlock.Apply(verify, WorldOf(s), event)))
  {
    if event.OnCast? {
      var reason := Unlock.Judge(verify, WorldOf(s), event.name, event.req, event.nowMs);
      if reason == Unlock.Ok {
        BooksAccept(s, event.name);
      } else {
        BooksReject(s, reason);
      }
    } else {
      assert WithWorld(s, Unlock.Apply(verify, WorldOf(s), event)).r == s.r;
    }
  }

  lemma BooksMicro(s: System, micro: Micro)
    requires micro != Elsewhere(OnUnlock) && Books(s)
    ensures Books(s.(r := MicroApply(s.r, micro)))
  {
    RaceInvStep(s.r, micro);
    QuietMicro(s.r, micro);
  }

  lemma BooksStep(verify: Crypto.Verifier, root: string, s: System, i: Input)
    requires Wired(i) && Books(s)
    ensures Books(Apply(verify, root, s, i))
    ensures |Apply(verify, root, s, i).r.pcs| == |s.r.pcs|
  {
    match i
    case OnMicro(micro) =>
      BooksMicro(s, micro);
      RaceInvStep(s.r, micro);
    case OnTriage(thread, score, fast, heavy) => BooksMicro(s, Of(thread, TriageAct(score, fast, heavy)));
    case OnTriageAudit => BooksAudited(s, EventLog.AiTriage);
    case OnProtocol(event) => BooksProtocol(verify, s, event);
    case _ =>
  }

  lemma {:induction false} BooksAlways(verify: Crypto.Verifier, root: string, t: Trace, k: nat)
    requires IsRun(verify, root, t) && k < |t.states|
    ensures Books(t.states[k]) && |t.states[k].r.pcs| == |t.states[0].r.pcs|
  {
    if k > 0 {
      BooksAlways(verify, root, t, k - 1);
      assert Wired(t.inputs[k - 1]) && Stepped(verify, root, t, k - 1);
      BooksStep(verify, root, t.states[k - 1], t.inputs[k - 1]);
    } else {
      RaceInvStart(|t.states[0].r.pcs|);
    }
  }

  /** In every run the lock is engaged at most once more often than sessions were granted, and
      the belts counted are at most the evaluating threads times the sessions granted. */
  lemma EngagementsPerGrant(verify: Crypto.Verifier, root: string, t: Trace, k: nat)
    requires IsRun(verify, root, t) && k < |t.states|
    ensures var e, calls := t.states[k].r.e, Unlock.UnlockCalls(verify, ProtocolView(t), k);
            && e.m.lock.lockdowns <= calls + (if e.m.lock.locked then 1 else 0)
            && e.wormTriggers <= |t.states[0].r.pcs| * calls
  {
    BooksAlways(verify, root, t, k);
    ViewIsRun(verify, root, t);
    Unlock.OneUnlockPerSession(verify, ProtocolView(t), k);
    assert ProtocolView(t).worlds[k] == WorldOf(t.states[k]);
    assert ProtocolView(t).worlds[0] == WorldOf(t.states[0]);
    MoreCalls(|t.states[0].r.pcs|, Lifts(t.states[k].r.e), Unlock.UnlockCalls(verify, ProtocolView(t), k));
  }

  lemma MoreCalls(threads: nat, lifts: nat, calls: nat)
    requires lifts <= calls
    ensures threads * lifts <= threads * calls
  {
  }

  // ---- Frozen content ----------------------------------------------------------------

  /** The writers that have passed the check for this entry. */
  function Admitted(s: System, rel: string): set<nat> {
    set n | n in s.writers && s.writers[n].rel == rel
  }

  /** The entry apart from its own lock flag. */
  predicate SameFile(a: System, b: System, rel: string)
    requires rel in a.entries && rel in b.entries
  {
    b.entries[rel].(locked := false) == a.entries[rel].(locked := false)
  }

  /** From s to s' the file is rewritten at most by the writers it has used up. */
  ghost predicate Frozen(s: System, s': System, rel: string) {
    && rel in s.entries && rel in s'.entries
    && Admitted(s', rel) <= Admitted(s, rel)
    && s'.entries[rel].version + |Admitted(s', rel)| <= s.entries[rel].version + |Admitted(s, rel)|
    && (Admitted(s, rel) == {} ==> SameFile(s, s', rel))
  }

  lemma FrozenCommit(s: System, writer: nat, nowMs: int, rel: string)
    requires rel in s.entries
    ensures Frozen(s, CommitWrite(s, writer, nowMs), rel)
  {
    var s' := CommitWrite(s, writer, nowMs);
    if writer in Admitted(s, rel) {
      assert Admitted(s', rel) == Admitted(s, rel) - {writer};
    } else {
      assert Admitted(s', rel) == Admitted(s, rel);
    }
  }

  lemma FrozenStore(root: string, s: System, op: Sandbox.Step, rel: string)
    requires rel in s.entries && !op.OnWrite?
    ensures Frozen(s, s.(entries := Sandbox.Apply(root, s.entries, op)), rel)
  {
    StoreKeepsFile(root, s.entries, op, rel);
    assert Admitted(s.(entries := Sandbox.Apply(root, s.entries, op)), rel) == Admitted(s, rel);
  }

  lemma FrozenElsewhere(s: System, s': System, rel: string)
    requires rel in s.entries && s'.entries == s.entries && s'.writers == s.writers
    ensures Frozen(s, s', rel)
  {
    assert Admitted(s', rel) == Admitted(s, rel);
  }

  lemma FrozenStep(verify: Crypto.Verifier, root: string, s: System, i: Input, rel: string)
    requires Wired(i) && Locked(s) && rel in s.entries
    ensures Frozen(s, Apply(verify, root, s, i), rel)
  {
    match i
    case OnCommitWrite(writer, nowMs) => FrozenCommit(s, writer, nowMs, rel);
    case OnStore(op) => FrozenStore(root, s, op, rel);
    case _ => FrozenElsewhere(s, Apply(verify, root, s, i), rel);
  }

  lemma StoreKeepsFile(root: string, entries: Sandbox.Entries, op: Sandbox.Step, rel: string)
    requires rel in entries && !op.OnWrite?
    ensures var after := Sandbox.Apply(root, entries, op);
            rel in after && after[rel].(locked := false) == entries[rel].(locked := false)
  {
    if op.OnPopulate? {
      Sandbox.PopulateKeeps(entries, op.files, op.nowMs, rel);
    }
  }

  ghost predicate LockedThroughout(t: Trace, i: nat, k: nat)
    requires i <= k < |t.states|
  {
    forall n :: i <= n < k ==> Locked(t.states[n])
  }

  /** A write is its check and its commit, one right after the other. */
  lemma WriteIsCheckThenCommit(root: string, s: System, writer: nat, absPath: string, content: string, nowMs: int)
    requires writer !in s.writers
    ensures var s' := CommitWrite(CheckWrite(root, s, writer, absPath, content), writer, nowMs);
            && s'.entries == Sandbox.Apply(root, s.entries, Sandbox.OnWrite(absPath, content, Locked(s), nowMs))
            && s'.writers == s.writers
  {
    assert s.writers[writer := Checked(Sandbox.ToRel(root, absPath), content)] - {writer} == s.writers;
  }

  /** If the lock is engaged between the two, the write is still judged by the lock it saw: it lands
      in the locked store exactly when it would have been allowed at its check. */
  lemma CheckedWriteLands(verify: Crypto.Verifier, root: string, s: System, writer: nat,
                          absPath: string, content: string, nowMs: int)
    requires writer !in s.writers
    ensures var s1 := Apply(verify, root, s, OnCheckWrite(writer, absPath, content));
            var s2 := Apply(verify, root, s1, OnMicro(Elsewhere(OnManualLock)));
            var s3 := Apply(verify, root, s2, OnCommitWrite(writer, nowMs));
            && Locked(s2) && Locked(s3)
            && (s3.entries != s.entries <==>
                  Sandbox.WriteOutcome(s.entries, root, absPath, Locked(s)) == Sandbox.Ok)
            && s3.entries == Sandbox.Apply(root, s.entries, Sandbox.OnWrite(absPath, content, Locked(s), nowMs))
  {
    WrittenChanges(s.entries, Sandbox.ToRel(root, absPath), content, nowMs);
  }

  lemma WrittenChanges(entries: Sandbox.Entries, rel: string, content: string, nowMs: int)
    ensures Sandbox.Written(entries, rel, content, nowMs) != entries
  {
    var written := Sandbox.Written(entries, rel, content, nowMs);
    assert rel in written && (rel in entries ==> written[rel].version == entries[rel].version + 1);
  }

  /** While the lock stays engaged a file is rewritten at most once by each write that had passed
      the check before; when there was none it does not change at all. */
  lemma {:induction false} LockFreezesFile(verify: Crypto.Verifier, root: string, t: Trace, i: nat, k: nat, rel: string)
    requires IsRun(verify, root, t) && i <= k < |t.states| && LockedThroughout(t, i, k)
    requires rel in t.states[i].entries
    ensures Frozen(t.states[i], t.states[k], rel)
  {
    if i < k {
      LockFreezesFile(verify, root, t, i, k - 1, rel);
      assert Wired(t.inputs[k - 1]) && Stepped(verify, root, t, k - 1);
      FrozenStep(verify, root, t.states[k - 1], t.inputs[k - 1], rel);
    }
  }

  /** End to end: once the lock is engaged and no checked write to the file is under way, a
      changed file means that a quorum of approvers lifted the lock in between, whatever the
      models replied and whatever was observed, forced, locked or written meanwhile. */
  lemma ChangeNeedsQuorum(verify: Crypto.Verifier, root: string, t: Trace, i: nat, k: nat, rel: string)
    returns (j: nat, opening: nat, ballots: map<string, nat>)
    requires IsRun(verify, root, t) && i <= k < |t.states|
    requires Locked(t.states[i]) && rel in t.states[i].entries && Admitted(t.states[i], rel) == {}
    requires rel in t.states[k].entries ==> !SameFile(t.states[i], t.states[k], rel)
    ensures i <= j < k && Unlock.Quorum(verify, ProtocolView(t), j, opening, ballots)
  {
    if LockedThroughout(t, i, k) {
      LockFreezesFile(verify, root, t, i, k, rel);
      assert false;
    }
    j := FirstLift(t, i, k);
    opening, ballots := LockLiftedOnlyByQuorum(verify, root, t, j);
  }

  lemma {:induction false} FirstLift(t: Trace, i: nat, k: nat) returns (j: nat)
    requires i <= k < |t.states| && Locked(t.states[i]) && !LockedThroughout(t, i, k)
    ensures i <= j && j + 1 < k && Locked(t.states[j]) && !Locked(t.states[j + 1])
    decreases k - i
  {
    if Locked(t.states[i + 1]) {
      j := FirstLift(t, i + 1, k);
    } else {
      j := i;
    }
  }
}
