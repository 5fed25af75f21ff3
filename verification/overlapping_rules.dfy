/** Rule evaluations on several threads at once (core/rule_engine).  An evaluation is not one
    atomic action: the state machine, the lock and the rule engine's counters each have their own
    mutex.  One step here is one critical section of one thread. */
module Overlap {
  import opened EventLog
  import opened Worm
  import opened Threat
  import opened Rules

  /** What an evaluation does once it is past the belt: audit and count, or count if the tier
      changed or the belt acted. */
  datatype Ending = FiresRule01 | FiresRule03 | FiresIf(changed: bool)

  datatype Stage = IDLE | FORCING | READING_TIER | READING_LOCK | TRIGGERING | COUNTING | ENDING

  datatype Pc = Pc(stage: Stage, ending: Ending, hit: bool)

  const RESTING := Pc(IDLE, FiresIf(false), false)

  datatype Race = Race(e: Engine, pcs: seq<Pc>)

  datatype Act =
    | BeginPacket(anomalous: bool, score: int)
    | BeginScore(score: int)
    | BeginAuth(failures: int)
    | ForceCritical
    | ReadTier
    | ReadLock
    | Trigger
    | CountBelt
    | End

  /** A thread's step, or anything that is a single critical section by itself: a score observed
      or a tier forced from elsewhere, a chaos window, a manual lock or an unlock. */
  datatype Micro = Of(thread: nat, act: Act) | Elsewhere(step: Step)

  // ---- Specification -----------------------------------------------------------------

  function StageOf(a: Act): Stage {
    match a
    case BeginPacket(_, _) => IDLE
    case BeginScore(_) => IDLE
    case BeginAuth(_) => IDLE
    case ForceCritical => FORCING
    case ReadTier => READING_TIER
    case ReadLock => READING_LOCK
    case Trigger => TRIGGERING
    case CountBelt => COUNTING
    case End => ENDING
  }

  predicate Ready(r: Race, t: nat, a: Act) {
    t < |r.pcs| && r.pcs[t].stage == StageOf(a)
  }

  /** What the step does to the engine. */
  function EngineAfter(e: Engine, pc: Pc, a: Act): Engine {
    match a
    case BeginPacket(_, score) => e.(m := Observe(e.m, score))
    case BeginScore(score) => e.(m := Observe(e.m, score))
    case BeginAuth(failures) =>
      if failures >= RULE03_CRITICAL_THRESHOLD then e.(m := Force(e.m, CRITICAL))
      else if failures >= RULE03_FAILURE_THRESHOLD then e.(m := Force(e.m, HIGH))
      else e
    case ForceCritical => e.(m := Force(e.m, CRITICAL))
    case ReadTier => e
    case ReadLock => e
    case Trigger => e.(m := e.m.(lock := Engage(e.m.lock)))
    case CountBelt => Audited(e.(wormTriggers := e.wormTriggers + 1), Rule04Belt)
    case End =>
      match pc.ending {
        case FiresRule01 => Fired(Audited(e, Rule01Fired))
        case FiresRule03 => Fired(Audited(e, Rule03Fired))
        case FiresIf(changed) => if changed || pc.hit then Fired(e) else e
      }
  }

  /** Where the thread is afterwards. */
  function PcAfter(e: Engine, pc: Pc, a: Act): Pc {
    match a
    case BeginPacket(anomalous, _) => if anomalous then Pc(FORCING, FiresRule01, false) else RESTING
    case BeginScore(score) => Pc(READING_TIER, FiresIf(NextTier(e.m.tier, score) != e.m.tier), false)
    case BeginAuth(failures) =>
      if failures >= RULE03_CRITICAL_THRESHOLD then Pc(READING_TIER, FiresRule03, false)
      else if failures >= RULE03_FAILURE_THRESHOLD then Pc(ENDING, FiresRule03, false)
      else RESTING
    case ForceCritical => pc.(stage := READING_TIER)
    case ReadTier => pc.(stage := if e.m.tier == CRITICAL then READING_LOCK else ENDING)
    case ReadLock => pc.(stage := if e.m.lock.locked then ENDING else TRIGGERING)
    case Trigger => pc.(stage := COUNTING)
    case CountBelt => pc.(stage := ENDING, hit := true)
    case End => RESTING
  }

  /** A step that is not due leaves everything as it is. */
  function Take(r: Race, t: nat, a: Act): Race {
    if Ready(r, t, a) then Race(EngineAfter(r.e, r.pcs[t], a), r.pcs[t := PcAfter(r.e, r.pcs[t], a)]) else r
  }

  predicate SingleSection(s: Step) {
    s.OnObserve? || s.OnForce? || s.OnChaosWindow? || s.OnManualLock? || s.OnUnlock?
  }

  function MicroApply(r: Race, s: Micro): Race {
    match s
    case Of(t, a) => Take(r, t, a)
    case Elsewhere(step) => if SingleSection(step) then r.(e := Apply(r.e, step)) else r
  }

  function MicroRun(r: Race, steps: seq<Micro>): Race {
    if steps == [] then r else MicroApply(MicroRun(r, steps[..|steps| - 1]), steps[|steps| - 1])
  }

  function RaceStart(threads: nat): Race {
    Race(INITIAL, seq(threads, _ => RESTING))
  }

  // ---- Alone, an evaluation is what it was -------------------------------------------

  lemma Extend(start: Race, steps: seq<Micro>, reached: Race, s: Micro)
    returns (reached': Race, steps': seq<Micro>)
    requires MicroRun(start, steps) == reached
    ensures steps' == steps + [s] && reached' == MicroApply(reached, s)
    ensures MicroRun(start, steps') == reached'
  {
    reached', steps' := MicroApply(reached, s), steps + [s];
    assert steps'[..|steps|] == steps;
  }

  /** Everything else is a step of the engine by itself, if it is one critical section, and a thread's
      step moves that thread alone. */
  lemma ElsewhereIsStep(r: Race, step: Step, t: nat, a: Act, other: nat)
    ensures step.OnObserve? || step.OnForce? || step.OnChaosWindow? || step.OnManualLock? || step.OnUnlock? ==>
              MicroApply(r, Elsewhere(step)) == Race(Apply(r.e, step), r.pcs)
    ensures step.OnPacketWindow? || step.OnThreatScore? || step.OnAuthFailures? ==>
              MicroApply(r, Elsewhere(step)) == r
    ensures |MicroApply(r, Of(t, a)).pcs| == |r.pcs|
    ensures other < |r.pcs| && other != t ==> MicroApply(r, Of(t, a)).pcs[other] == r.pcs[other]
  {
  }

  /** The belt of thread t: read the tier, read the lock, engage it, count and audit. */
  function BeltSteps(t: nat): seq<Micro> {
    [Of(t, ReadTier), Of(t, ReadLock), Of(t, Trigger), Of(t, CountBelt)]
  }

  /** The belt of a thread that nobody interrupts. */
  lemma BeltAlone(start: Race, steps: seq<Micro>, r: Race, t: nat) returns (r': Race, steps': seq<Micro>)
    requires MicroRun(start, steps) == r
    requires t < |r.pcs| && r.pcs[t].stage == READING_TIER && !r.pcs[t].hit
    ensures steps' == steps + BeltSteps(t) && MicroRun(start, steps') == r'
    ensures r'.e == Belt(r.e)
    ensures r'.pcs == r.pcs[t := r.pcs[t].(stage := ENDING, hit := Belt(r.e) != r.e)]
  {
    r', steps' := Extend(start, steps, r, Of(t, ReadTier));
    r', steps' := Extend(start, steps', r', Of(t, ReadLock));
    r', steps' := Extend(start, steps', r', Of(t, Trigger));
    r', steps' := Extend(start, steps', r', Of(t, CountBelt));
  }

  /** Taken without interruption, the steps of an evaluation have exactly the effect of the
      evaluation as a whole; a step that is not due changes nothing. */
  lemma ScoreAlone(r: Race, t: nat, score: int) returns (steps: seq<Micro>)
    requires t < |r.pcs| && r.pcs[t] == RESTING
    ensures steps == [Of(t, BeginScore(score))] + BeltSteps(t) + [Of(t, End)]
    ensures MicroRun(r, steps) == r.(e := ThreatScore(r.e, score))
  {
    var r': Race;
    r', steps := Extend(r, [], r, Of(t, BeginScore(score)));
    r', steps := BeltAlone(r, steps, r', t);
    r', steps := Extend(r, steps, r', Of(t, End));
    assert r'.pcs == r.pcs;
  }

  lemma PacketAlone(r: Race, t: nat, anomalous: bool, score: int) returns (steps: seq<Micro>)
    requires t < |r.pcs| && r.pcs[t] == RESTING
    ensures steps == [Of(t, BeginPacket(anomalous, score))]
                     + if anomalous then [Of(t, ForceCritical)] + BeltSteps(t) + [Of(t, End)] else []
    ensures MicroRun(r, steps) == r.(e := PacketWindow(r.e, anomalous, score))
  {
    var r': Race;
    r', steps := Extend(r, [], r, Of(t, BeginPacket(anomalous, score)));
    if anomalous {
      r', steps := Extend(r, steps, r', Of(t, ForceCritical));
      r', steps := BeltAlone(r, steps, r', t);
      r', steps := Extend(r, steps, r', Of(t, End));
    }
    assert r'.pcs == r.pcs;
  }

  lemma AuthAlone(r: Race, t: nat, failures: int) returns (steps: seq<Micro>)
    requires t < |r.pcs| && r.pcs[t] == RESTING
    ensures steps == [Of(t, BeginAuth(failures))]
                     + (if failures >= 10 then BeltSteps(t) else []) + (if failures >= 5 then [Of(t, End)] else [])
    ensures MicroRun(r, steps) == r.(e := AuthFailures(r.e, failures))
  {
    var r': Race;
    r', steps := Extend(r, [], r, Of(t, BeginAuth(failures)));
    if failures >= RULE03_CRITICAL_THRESHOLD {
      r', steps := BeltAlone(r, steps, r', t);
    }
    if failures >= RULE03_FAILURE_THRESHOLD {
      r', steps := Extend(r, steps, r', Of(t, End));
    }
    assert r'.pcs == r.pcs;
  }

  // ---- At most one belt per thread and unlock ----------------------------------------

  function At(pcs: seq<Pc>, stage: Stage): (n: nat)
    ensures n <= |pcs|
  {
    if pcs == [] then 0
    else At(pcs[..|pcs| - 1], stage) + (if pcs[|pcs| - 1].stage == stage then 1 else 0)
  }

  lemma {:induction false} AtUpdate(pcs: seq<Pc>, t: nat, pc: Pc, stage: Stage)
    requires t < |pcs|
    ensures At(pcs[t := pc], stage)
         == At(pcs, stage) - (if pcs[t].stage == stage then 1 else 0) + (if pc.stage == stage then 1 else 0)
  {
    var n := |pcs| - 1;
    if t == n {
      assert pcs[t := pc][..n] == pcs[..n];
    } else {
      AtUpdate(pcs[..n], t, pc, stage);
      assert pcs[t := pc][..n] == pcs[..n][t := pc];
    }
  }

  lemma {:induction false} NoneAt(pcs: seq<Pc>, stage: Stage)
    requires forall i :: 0 <= i < |pcs| ==> pcs[i].stage != stage
    ensures At(pcs, stage) == 0
  {
    if pcs != [] {
      NoneAt(pcs[..|pcs| - 1], stage);
    }
  }

  /** The lock is open after having been engaged. */
  predicate Reopened(e: Engine) {
    !e.m.lock.locked && e.m.lock.lockdowns > 0
  }

  /** Belt entries counted, on their way to being counted, and open to the other threads. */
  function Passes(r: Race): nat {
    r.e.wormTriggers + At(r.pcs, TRIGGERING) + At(r.pcs, COUNTING)
    + (if Reopened(r.e) then |r.pcs| - At(r.pcs, TRIGGERING) else 0)
  }

  predicate PastTier(pc: Pc) {
    pc.stage == READING_LOCK || pc.stage == TRIGGERING || pc.stage == COUNTING
  }

  ghost predicate RaceInv(r: Race) {
    && Accounts(r.e)
    && Passes(r) <= |r.pcs| * Lifts(r.e)
    && (forall t :: 0 <= t < |r.pcs| && PastTier(r.pcs[t]) ==> r.e.m.lock.lockdowns > 0)
  }

  /** What a step outside the counting does: it opens an engaged lock with one audited lift, or
      lifts nothing; and a lock found open was not engaged by it. */
  ghost predicate Gentle(e: Engine, e': Engine) {
    && (Accounts(e) ==> Accounts(e'))
    && e'.wormTriggers == e.wormTriggers
    && e'.m.lock.lockdowns >= e.m.lock.lockdowns
    && Lifts(e') == Lifts(e) + (if e.m.lock.locked && !e'.m.lock.locked then 1 else 0)
    && (!e'.m.lock.locked ==> e'.m.lock.lockdowns == e.m.lock.lockdowns)
  }

  lemma OneMore(n: nat, u: nat, u': nat)
    ensures u' == u + 1 ==> n * u' == n * u + n
  {
  }

  function Grants(e: Engine): nat {
    Count(e.m.lock.log, WormUnlockGranted)
  }

  /** A step that neither opens the lock nor records a lift or a grant, and does not make the
      tier CRITICAL without locking. */
  ghost predicate Quiet(e: Engine, e': Engine) {
    && (e.m.lock.locked ==> e'.m.lock.locked)
    && Lifts(e') == Lifts(e) && Grants(e') == Grants(e)
    && (Broken(e') ==> Broken(e))
  }

  ghost predicate Calm(e: Engine, e': Engine) {
    Gentle(e, e') && Quiet(e, e')
  }

  lemma CalmSame(e: Engine)
    ensures Calm(e, e)
  {
  }

  lemma CalmForce(e: Engine, t: Tier)
    ensures Calm(e, e.(m := Force(e.m, t)))
  {
    LedgersForce(e, t);
  }

  lemma CalmObserve(e: Engine, score: int)
    ensures Calm(e, e.(m := Observe(e.m, score)))
  {
    LedgersObserve(e, score);
  }

  lemma CalmEngage(e: Engine)
    ensures Calm(e, e.(m := e.m.(lock := Engage(e.m.lock))))
  {
    LedgersLock(e);
  }

  lemma CalmFired(e: Engine, kind: Kind)
    requires kind == Rule01Fired || kind == Rule03Fired || kind == Rule05Fired
    ensures Calm(e, Fired(Audited(e, kind)))
  {
    LedgersFired(e, kind);
  }

  lemma CalmChaos(e: Engine, k: real)
    ensures Calm(e, ChaosWindow(e, k))
  {
    if k > RULE05_K_THRESHOLD && e.chaosHigh + 1 >= RULE05_SUSTAINED_WINDOWS {
      var forced := e.(chaosHigh := e.chaosHigh + 1, m := Force(e.m, MEDIUM));
      CalmForce(e, MEDIUM);
      CalmFired(forced, Rule05Fired);
      assert ChaosWindow(e, k) == Fired(Audited(forced, Rule05Fired));
    }
  }

  lemma GentleElsewhere(e: Engine, s: Step)
    requires SingleSection(s)
    ensures Gentle(e, Apply(e, s))
    ensures !s.OnUnlock? ==> Calm(e, Apply(e, s))
  {
    match s
    case OnObserve(score) => CalmObserve(e, score);
    case OnForce(tier) => CalmForce(e, tier);
    case OnChaosWindow(k) => CalmChaos(e, k);
    case OnManualLock => CalmEngage(e);
    case OnUnlock => LedgersLock(e);
  }

  lemma CalmEnd(e: Engine, pc: Pc)
    ensures Calm(e, EngineAfter(e, pc, End))
  {
    match pc.ending
    case FiresRule01 => CalmFired(e, Rule01Fired);
    case FiresRule03 => CalmFired(e, Rule03Fired);
    case FiresIf(_) => LedgersCounted(e);
  }

  lemma CalmAuth(e: Engine, pc: Pc, failures: int)
    ensures Calm(e, EngineAfter(e, pc, BeginAuth(failures)))
  {
    if failures >= RULE03_CRITICAL_THRESHOLD {
      CalmForce(e, CRITICAL);
    } else if failures >= RULE03_FAILURE_THRESHOLD {
      CalmForce(e, HIGH);
    }
  }

  lemma CalmAct(e: Engine, pc: Pc, a: Act)
    requires !a.CountBelt?
    ensures Calm(e, EngineAfter(e, pc, a))
  {
    match a
    case BeginPacket(_, score) => CalmObserve(e, score);
    case BeginScore(score) => CalmObserve(e, score);
    case BeginAuth(failures) => CalmAuth(e, pc, failures);
    case ForceCritical => CalmForce(e, CRITICAL);
    case ReadTier => CalmSame(e);
    case ReadLock => CalmSame(e);
    case Trigger => CalmEngage(e);
    case End => CalmEnd(e, pc);
  }

  lemma QuietCountBelt(e: Engine)
    ensures var e' := Audited(e.(wormTriggers := e.wormTriggers + 1), Rule04Belt);
            Quiet(e, e') && (Accounts(e) ==> Accounts(e'))
  {
  }

  /** No step of an evaluation opens the lock, records a lift or a grant, or breaks "CRITICAL
      implies locked". */
  lemma QuietAct(e: Engine, pc: Pc, a: Act)
    ensures Quiet(e, EngineAfter(e, pc, a))
  {
    if a.CountBelt? {
      QuietCountBelt(e);
    } else {
      CalmAct(e, pc, a);
    }
  }

  lemma RaceInvElsewhere(r: Race, e': Engine)
    requires RaceInv(r) && Gentle(r.e, e')
    ensures RaceInv(r.(e := e'))
  {
    OneMore(|r.pcs|, Lifts(r.e), Lifts(e'));
    assert Passes(r.(e := e')) <= Passes(r) + (if Lifts(e') == Lifts(r.e) then 0 else |r.pcs|);
  }

  lemma RaceInvTake(r: Race, t: nat, a: Act)
    requires RaceInv(r) && Ready(r, t, a)
    ensures RaceInv(Take(r, t, a))
  {
    var r', pc' := Take(r, t, a), PcAfter(r.e, r.pcs[t], a);
    AtUpdate(r.pcs, t, pc', TRIGGERING);
    AtUpdate(r.pcs, t, pc', COUNTING);
    if a.CountBelt? {
      QuietCountBelt(r.e);
    } else {
      CalmAct(r.e, r.pcs[t], a);
    }
    assert Lifts(r'.e) == Lifts(r.e);
    assert Passes(r') <= Passes(r);
  }

  lemma RaceInvStep(r: Race, s: Micro)
    requires RaceInv(r)
    ensures RaceInv(MicroApply(r, s)) && |MicroApply(r, s).pcs| == |r.pcs|
  {
    match s
    case Of(t, a) =>
      if Ready(r, t, a) {
        RaceInvTake(r, t, a);
      }
    case Elsewhere(step) =>
      if SingleSection(step) {
        GentleElsewhere(r.e, step);
        RaceInvElsewhere(r, Apply(r.e, step));
      }
  }

  lemma RaceInvStart(threads: nat)
    ensures RaceInv(RaceStart(threads))
  {
    NoneAt(RaceStart(threads).pcs, TRIGGERING);
    NoneAt(RaceStart(threads).pcs, COUNTING);
  }

  lemma {:induction false} RaceInvOverRuns(threads: nat, steps: seq<Micro>)
    ensures var r := MicroRun(RaceStart(threads), steps); |r.pcs| == threads && RaceInv(r)
  {
    if steps == [] {
      RaceInvStart(threads);
    } else {
      RaceInvOverRuns(threads, steps[..|steps| - 1]);
      RaceInvStep(MicroRun(RaceStart(threads), steps[..|steps| - 1]), steps[|steps| - 1]);
    }
  }

  /** At most `bound` counted belts for each lift. */
  predicate Within(e: Engine, bound: nat) {
    e.wormTriggers <= bound * Lifts(e)
  }

  /** Over every interleaving of evaluations on any number of threads the counters agree with the
      audit log, and the belts are at most the threads times the lifts. */
  lemma BeltsPerUnlock(threads: nat, steps: seq<Micro>)
    ensures var e := MicroRun(RaceStart(threads), steps).e; Accounts(e) && Within(e, threads)
  {
    RaceInvOverRuns(threads, steps);
  }

  // ---- The bound is reached ----------------------------------------------------------

  /** CRITICAL with every thread at rest, after so many lifts and belts. */
  ghost predicate Round(r: Race, threads: nat, lifts: nat, belts: nat) {
    && |r.pcs| == threads && (forall i :: 0 <= i < threads ==> r.pcs[i] == RESTING)
    && r.e.m.tier == CRITICAL && Lifts(r.e) == lifts && r.e.wormTriggers == belts
  }

  /** The first k threads have passed both tests and not triggered yet. */
  ghost predicate Passed(r: Race, threads: nat, k: nat, lifts: nat, belts: nat) {
    && |r.pcs| == threads && k <= threads
    && (forall i :: 0 <= i < threads ==> if i < k then r.pcs[i].stage == TRIGGERING else r.pcs[i] == RESTING)
    && r.e.m.tier == CRITICAL && !r.e.m.lock.locked
    && Lifts(r.e) == lifts && r.e.wormTriggers == belts
  }

  lemma {:induction false} PassAll(start: Race, steps: seq<Micro>, r: Race,
                                   threads: nat, k: nat, lifts: nat, belts: nat)
    returns (r': Race, steps': seq<Micro>)
    requires MicroRun(start, steps) == r && Passed(r, threads, 0, lifts, belts) && k <= threads
    ensures MicroRun(start, steps') == r' && Passed(r', threads, k, lifts, belts)
  {
    r', steps' := r, steps;
    if k > 0 {
      r', steps' := PassAll(start, steps, r, threads, k - 1, lifts, belts);
      var t := k - 1;
      r', steps' := Extend(start, steps', r', Of(t, BeginScore(100)));
      r', steps' := Extend(start, steps', r', Of(t, ReadTier));
      r', steps' := Extend(start, steps', r', Of(t, ReadLock));
    }
  }

  /** The first k threads have triggered and been counted, the others are about to trigger. */
  ghost predicate Counted(r: Race, threads: nat, k: nat, lifts: nat, belts: nat) {
    && |r.pcs| == threads && k <= threads
    && (forall i :: 0 <= i < threads ==> if i < k then r.pcs[i] == RESTING else r.pcs[i].stage == TRIGGERING)
    && r.e.m.tier == CRITICAL
    && Lifts(r.e) == lifts && r.e.wormTriggers == belts + k
  }

  lemma CountOne(start: Race, steps: seq<Micro>, r: Race, threads: nat, k: nat, lifts: nat, belts: nat)
    returns (r': Race, steps': seq<Micro>)
    requires MicroRun(start, steps) == r && Counted(r, threads, k, lifts, belts) && k < threads
    ensures MicroRun(start, steps') == r' && Counted(r', threads, k + 1, lifts, belts)
  {
    r', steps' := Extend(start, steps, r, Of(k, Trigger));
    r', steps' := Extend(start, steps', r', Of(k, CountBelt));
    r', steps' := Extend(start, steps', r', Of(k, End));
  }

  lemma {:induction false} CountAll(start: Race, steps: seq<Micro>, r: Race,
                                    threads: nat, k: nat, lifts: nat, belts: nat)
    returns (r': Race, steps': seq<Micro>)
    requires MicroRun(start, steps) == r && Counted(r, threads, 0, lifts, belts) && k <= threads
    ensures MicroRun(start, steps') == r' && Counted(r', threads, k, lifts, belts)
  {
    r', steps' := r, steps;
    if k > 0 {
      r', steps' := CountAll(start, steps, r, threads, k - 1, lifts, belts);
      r', steps' := CountOne(start, steps', r', threads, k - 1, lifts, belts);
    }
  }

  lemma Reopen(start: Race, steps: seq<Micro>, r: Race, threads: nat, lifts: nat, belts: nat)
    returns (r': Race, steps': seq<Micro>)
    requires MicroRun(start, steps) == r && Round(r, threads, lifts, belts)
    ensures MicroRun(start, steps') == r' && Passed(r', threads, 0, lifts + 1, belts)
  {
    r', steps' := Extend(start, steps, r, Elsewhere(OnManualLock));
    r', steps' := Extend(start, steps', r', Elsewhere(OnUnlock));
  }

  lemma OneRound(start: Race, steps: seq<Micro>, r: Race, threads: nat, lifts: nat, belts: nat)
    returns (r': Race, steps': seq<Micro>)
    requires MicroRun(start, steps) == r && Round(r, threads, lifts, belts)
    ensures MicroRun(start, steps') == r' && Round(r', threads, lifts + 1, belts + threads)
  {
    r', steps' := Reopen(start, steps, r, threads, lifts, belts);
    r', steps' := PassAll(start, steps', r', threads, threads, lifts + 1, belts);
    r', steps' := CountAll(start, steps', r', threads, threads, lifts + 1, belts);
  }

  lemma {:induction false} RoundsReached(threads: nat, u: nat) returns (r: Race, steps: seq<Micro>)
    ensures MicroRun(RaceStart(threads), steps) == r && Round(r, threads, u, threads * u)
  {
    var start := RaceStart(threads);
    if u == 0 {
      r, steps := Extend(start, [], start, Elsewhere(OnForce(CRITICAL)));
    } else {
      r, steps := RoundsReached(threads, u - 1);
      r, steps := OneRound(start, steps, r, threads, u - 1, threads * (u - 1));
      OneMore(threads, u - 1, u);
    }
  }

  /** The bound is reached for every number of threads and of lifts. */
  lemma BoundReached(threads: nat, u: nat) returns (steps: seq<Micro>)
    ensures var e := MicroRun(RaceStart(threads), steps).e; Lifts(e) == u && e.wormTriggers == threads * u
  {
    var r;
    r, steps := RoundsReached(threads, u);
  }

  /** The belts stay within `bound` per lift in every run exactly when there are no more than
      `bound` threads: "at most one belt per unlock" holds exactly for evaluations on one thread. */
  lemma BeltBoundIff(threads: nat, bound: nat)
    ensures (forall steps :: Within(MicroRun(RaceStart(threads), steps).e, bound)) <==> threads <= bound
  {
    if threads <= bound {
      forall steps ensures Within(MicroRun(RaceStart(threads), steps).e, bound) {
        BeltsPerUnlock(threads, steps);
        Larger(threads, bound, Lifts(MicroRun(RaceStart(threads), steps).e));
      }
    } else {
      var steps := BoundReached(threads, 1);
      assert !Within(MicroRun(RaceStart(threads), steps).e, bound);
    }
  }

  lemma Larger(a: nat, b: nat, u: nat)
    requires a <= b
    ensures a * u <= b * u
  {
  }

  // ---- What an evaluation guarantees -------------------------------------------------

  /** The lock is engaged in some state of the run, the first and the last included. */
  ghost predicate EverLocked(r: Race, steps: seq<Micro>) {
    MicroRun(r, steps).e.m.lock.locked || (steps != [] && EverLocked(r, steps[..|steps| - 1]))
  }

  /** No step of the run lowers the tier. */
  ghost predicate NeverLowered(r: Race, steps: seq<Micro>) {
    steps == [] ||
    (var before := steps[..|steps| - 1];
     && NeverLowered(r, before)
     && Rank(MicroRun(r, before).e.m.tier) <= Rank(MicroRun(r, steps).e.m.tier))
  }

  predicate AtStage(r: Race, t: nat, stages: set<Stage>) {
    t < |r.pcs| && r.pcs[t].stage in stages
  }

  /** Between an evaluation's last change of the tier and the end of its belt. */
  const BELT := {READING_TIER, READING_LOCK, TRIGGERING}

  /** A CRITICAL tier with an open lock was CRITICAL before the step, or the step opened the lock. */
  lemma CriticalBefore(r: Race, s: Micro)
    requires var e := MicroApply(r, s).e; e.m.tier == CRITICAL && !e.m.lock.locked
    ensures r.e.m.tier == CRITICAL
  {
    match s
    case Of(t, a) =>
      if Ready(r, t, a) {
        QuietAct(r.e, r.pcs[t], a);
      }
    case Elsewhere(step) =>
      if SingleSection(step) && !step.OnUnlock? {
        GentleElsewhere(r.e, step);
      }
  }

  /** While the tier is CRITICAL and the lock open, a thread in the belt stays there. */
  lemma BeltStep(r: Race, s: Micro, t: nat)
    requires AtStage(r, t, BELT) && r.e.m.tier == CRITICAL && !r.e.m.lock.locked
    requires !MicroApply(r, s).e.m.lock.locked
    ensures AtStage(MicroApply(r, s), t, BELT)
  {
  }

  /** Under every interleaving: once an evaluation has left the belt, the lock has been engaged since
      it entered it, or the tier is not CRITICAL. */
  lemma {:induction false} BeltLeftLocked(r: Race, t: nat, steps: seq<Micro>)
    requires AtStage(r, t, BELT)
    ensures var q := MicroRun(r, steps);
            EverLocked(r, steps) || q.e.m.tier != CRITICAL || AtStage(q, t, BELT)
  {
    if steps != [] {
      var before, s := steps[..|steps| - 1], steps[|steps| - 1];
      BeltLeftLocked(r, t, before);
      if !EverLocked(r, steps) && MicroRun(r, steps).e.m.tier == CRITICAL {
        CriticalBefore(MicroRun(r, before), s);
        assert !EverLocked(r, before);
        NotLockedNow(r, before);
        BeltStep(MicroRun(r, before), s, t);
      }
    }
  }

  lemma NotLockedNow(r: Race, steps: seq<Micro>)
    requires !EverLocked(r, steps)
    ensures !MicroRun(r, steps).e.m.lock.locked
  {
  }

  lemma {:induction false} TierGrows(r: Race, steps: seq<Micro>)
    requires NeverLowered(r, steps)
    ensures Rank(r.e.m.tier) <= Rank(MicroRun(r, steps).e.m.tier)
  {
    if steps != [] {
      TierGrows(r, steps[..|steps| - 1]);
    }
  }

  /** So an evaluation that has made the tier CRITICAL and come to the belt has the lock engaged by
      the time it leaves the belt, unless another thread lowers the tier meanwhile. */
  lemma EngagesUnlessLowered(r: Race, t: nat, steps: seq<Micro>)
    requires AtStage(r, t, BELT) && r.e.m.tier == CRITICAL && NeverLowered(r, steps)
    ensures EverLocked(r, steps) || AtStage(MicroRun(r, steps), t, BELT)
  {
    BeltLeftLocked(r, t, steps);
    TierGrows(r, steps);
  }

  lemma PastTierStep(r: Race, s: Micro, t: nat)
    requires AtStage(r, t, {READING_LOCK, TRIGGERING}) && !r.e.m.lock.locked
    requires !MicroApply(r, s).e.m.lock.locked
    ensures AtStage(MicroApply(r, s), t, {READING_LOCK, TRIGGERING})
  {
  }

  /** An evaluation that has found the tier CRITICAL gets the lock engaged whatever others do. */
  lemma {:induction false} PastTierEngages(r: Race, t: nat, steps: seq<Micro>)
    requires AtStage(r, t, {READING_LOCK, TRIGGERING})
    ensures EverLocked(r, steps) || AtStage(MicroRun(r, steps), t, {READING_LOCK, TRIGGERING})
  {
    if steps != [] {
      var before, s := steps[..|steps| - 1], steps[|steps| - 1];
      PastTierEngages(r, t, before);
      if !EverLocked(r, steps) {
        assert !EverLocked(r, before);
        NotLockedNow(r, before);
        PastTierStep(MicroRun(r, before), s, t);
      }
    }
  }

  /** In every continuation in which the thread leaves the belt, the lock is engaged in some state
      from its tier read on. */
  ghost predicate Guards(r: Race, t: nat) {
    forall steps :: AtStage(MicroRun(r, steps), t, BELT) || EverLocked(r, steps)
  }

  /** Whether an evaluation protects depends exactly on what its tier read finds: it guarantees an
      engaged lock if and only if it finds CRITICAL, or the lock is engaged at that moment anyway. */
  lemma GuardsIffCriticalFound(r: Race, t: nat)
    requires Ready(r, t, ReadTier)
    ensures Guards(Take(r, t, ReadTier), t) <==> r.e.m.tier == CRITICAL || r.e.m.lock.locked
  {
    var q := Take(r, t, ReadTier);
    if r.e.m.tier == CRITICAL {
      forall steps ensures AtStage(MicroRun(q, steps), t, BELT) || EverLocked(q, steps) {
        PastTierEngages(q, t, steps);
      }
    } else if r.e.m.lock.locked {
      forall steps ensures EverLocked(q, steps) {
        LockedAtStart(q, steps);
      }
    } else {
      assert MicroRun(q, []) == q && !EverLocked(q, []);
    }
  }

  lemma {:induction false} LockedAtStart(r: Race, steps: seq<Micro>)
    requires r.e.m.lock.locked
    ensures EverLocked(r, steps)
  {
    if steps != [] {
      LockedAtStart(r, steps[..|steps| - 1]);
    }
  }

  /** CRITICAL with an open lock, and one thread at rest. */
  lemma UnlockedCritical() returns (r: Race, steps: seq<Micro>)
    ensures MicroRun(RaceStart(1), steps) == r
    ensures r.pcs == [RESTING] && r.e.m.tier == CRITICAL && !r.e.m.lock.locked && r.e.chaosHigh == 0
  {
    r, steps := Extend(RaceStart(1), [], RaceStart(1), Elsewhere(OnForce(CRITICAL)));
    r, steps := Extend(RaceStart(1), steps, r, Elsewhere(OnUnlock));
  }

  /** Two high chaos windows in a row take the tier to MEDIUM under an evaluation in the belt. */
  lemma LoweredInTheBelt(start: Race, before: seq<Micro>, r: Race) returns (q: Race, steps: seq<Micro>)
    requires MicroRun(start, before) == r && AtStage(r, 0, {READING_TIER})
    requires r.e.m.tier == CRITICAL && !r.e.m.lock.locked && r.e.chaosHigh == 0
    ensures MicroRun(start, steps) == q && before <= steps
    ensures q.e.m.tier == MEDIUM && q.pcs == r.pcs && !q.e.m.lock.locked
  {
    q, steps := Extend(start, before, r, Elsewhere(OnChaosWindow(1.0)));
    q, steps := Extend(start, steps, q, Elsewhere(OnChaosWindow(1.0)));
  }

  /** The rest of that evaluation does nothing to tier and lock. */
  lemma EndsWithoutBelt(start: Race, before: seq<Micro>, r: Race) returns (q: Race, steps: seq<Micro>)
    requires MicroRun(start, before) == r && AtStage(r, 0, {READING_TIER}) && r.e.m.tier != CRITICAL
    ensures MicroRun(start, steps) == q && before <= steps
    ensures q.e.m.tier == r.e.m.tier && q.pcs == r.pcs[0 := RESTING]
    ensures q.e.m.lock.locked == r.e.m.lock.locked
  {
    q, steps := Extend(start, before, r, Of(0, ReadTier));
    q, steps := Extend(start, steps, q, Of(0, End));
  }

  /** Such an evaluation: RULE-01 is documented to force CRITICAL and to engage the lock, but an
      anomalous window evaluated next to two chaos windows can end MEDIUM with the lock open. */
  lemma AnomalousEndsOpen() returns (before: seq<Micro>, steps: seq<Micro>)
    ensures var r := MicroRun(RaceStart(1), before); r.pcs == [RESTING] && !r.e.m.lock.locked
    ensures before + [Of(0, BeginPacket(true, 100))] <= steps
    ensures var q := MicroRun(RaceStart(1), steps);
            q.pcs == [RESTING] && q.e.m.tier == MEDIUM && !q.e.m.lock.locked
  {
    var r;
    r, before := UnlockedCritical();
    r, steps := Extend(RaceStart(1), before, r, Of(0, BeginPacket(true, 100)));
    r, steps := Extend(RaceStart(1), steps, r, Of(0, ForceCritical));
    r, steps := LoweredInTheBelt(RaceStart(1), steps, r);
    r, steps := EndsWithoutBelt(RaceStart(1), steps, r);
  }
}
