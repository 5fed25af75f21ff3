/** The deterministic rule engine (core/rule_engine) over the threat state machine and the
    WORM lock, and the invariants of every run of the three together. */
module Rules {
  import opened EventLog
  import opened Worm
  import opened Threat

  const RULE03_FAILURE_THRESHOLD := 5
  const RULE03_CRITICAL_THRESHOLD := 10
  const RULE05_K_THRESHOLD := 0.7
  const RULE05_SUSTAINED_WINDOWS := 2

  // ---- Specification -----------------------------------------------------------------

  datatype Engine = Engine(m: Machine, fires: nat, wormTriggers: nat, chaosHigh: nat)

  function Audited(e: Engine, kind: Kind): Engine {
    e.(m := e.m.(lock := Logged(e.m.lock, kind)))
  }

  ghost predicate Broken(e: Engine) {
    !CriticalIsLocked(e.m)
  }

  function Belt(e: Engine): Engine {
    if e.m.tier == CRITICAL && !e.m.lock.locked then
      Audited(e.(m := e.m.(lock := Engage(e.m.lock)), wormTriggers := e.wormTriggers + 1), Rule04Belt)
    else e
  }

  function Fired(e: Engine): Engine {
    e.(fires := e.fires + 1)
  }

  function PacketWindow(e: Engine, anomalous: bool, score: int): Engine {
    var seen := e.(m := Observe(e.m, score));
    if anomalous then Fired(Audited(Belt(seen.(m := Force(seen.m, CRITICAL))), Rule01Fired)) else seen
  }

  function ThreatScore(e: Engine, score: int): Engine {
    var seen := e.(m := Observe(e.m, score));
    if seen.m.tier != e.m.tier || Belt(seen) != seen then Fired(Belt(seen)) else seen
  }

  function AuthFailures(e: Engine, failures: int): Engine {
    if failures >= RULE03_CRITICAL_THRESHOLD then
      Fired(Audited(Belt(e.(m := Force(e.m, CRITICAL))), Rule03Fired))
    else if failures >= RULE03_FAILURE_THRESHOLD then
      Fired(Audited(e.(m := Force(e.m, HIGH)), Rule03Fired))
    else e
  }

  function ChaosWindow(e: Engine, k: real): Engine {
    if k > RULE05_K_THRESHOLD then
      var high := e.(chaosHigh := e.chaosHigh + 1);
      if high.chaosHigh >= RULE05_SUSTAINED_WINDOWS then
        Audited(Fired(high).(m := Force(e.m, MEDIUM)), Rule05Fired)
      else high
    else e.(chaosHigh := 0)
  }

  /** Everything that may happen to the control loop: the four rule evaluations, direct use
      of the state machine, and lock or unlock from outside. */
  datatype Step =
    | OnPacketWindow(anomalous: bool, score: int)
    | OnThreatScore(score: int)
    | OnAuthFailures(failures: int)
    | OnChaosWindow(k: real)
    | OnObserve(score: int)
    | OnForce(tier: Tier)
    | OnManualLock
    | OnUnlock

  function Apply(e: Engine, s: Step): Engine {
    match s
    case OnPacketWindow(anomalous, score) => PacketWindow(e, anomalous, score)
    case OnThreatScore(score) => ThreatScore(e, score)
    case OnAuthFailures(failures) => AuthFailures(e, failures)
    case OnChaosWindow(k) => ChaosWindow(e, k)
    case OnObserve(score) => e.(m := Observe(e.m, score))
    case OnForce(tier) => e.(m := Force(e.m, tier))
    case OnManualLock => e.(m := e.m.(lock := Engage(e.m.lock)))
    case OnUnlock => e.(m := e.m.(lock := Lift(e.m.lock)))
  }

  function Run(e: Engine, steps: seq<Step>): Engine {
    if steps == [] then e else Apply(Run(e, steps[..|steps| - 1]), steps[|steps| - 1])
  }

  const INITIAL := Engine(Machine(LOW, 0, Lock(false, 0, [])), 0, 0, 0)

  // ---- Safety: CRITICAL implies locked -----------------------------------------------

  /** The steps that end by locking whenever the tier is CRITICAL. */
  predicate Restores(s: Step) {
    || s.OnThreatScore?
    || s.OnManualLock?
    || (s.OnPacketWindow? && s.anomalous)
    || (s.OnAuthFailures? && s.failures >= RULE03_CRITICAL_THRESHOLD)
  }

  /** Exactly when "CRITICAL implies locked" holds after a step.  An unlock breaks it if and
      only if the tier is CRITICAL; no other step breaks it; a threat score, an anomalous
      window, ten authentication failures or a manual lock always restore it; any other
      step restores it only by leaving CRITICAL. */
  lemma CriticalLockStep(e: Engine, s: Step)
    ensures s.OnUnlock? ==> (Broken(Apply(e, s)) <==> e.m.tier == CRITICAL)
    ensures Restores(s) ==> !Broken(Apply(e, s))
    ensures !s.OnUnlock? && !Restores(s) ==>
              (Broken(Apply(e, s)) <==> Broken(e) && Apply(e, s).m.tier == CRITICAL)
    ensures !s.OnUnlock? && e.m.lock.locked ==> Apply(e, s).m.lock.locked
  {
  }

  /** A threat score engages the lock by itself when it is banded CRITICAL, and never
      leaves the engine below its band. */
  lemma ThreatScoreFloor(e: Engine, score: int)
    ensures Rank(ThreatScore(e, score).m.tier) >= Rank(Band(score))
    ensures Band(score) == CRITICAL ==> ThreatScore(e, score).m.lock.locked
  {
  }

  /** What RULE-04 adds to an engine that is CRITICAL with its lock open. */
  ghost predicate BeltApplied(e: Engine, after: Engine) {
    && after.m.tier == e.m.tier && after.m.transitions == e.m.transitions
    && after.m.lock == Lock(true, e.m.lock.lockdowns + 1, e.m.lock.log + [WormLockEngaged, Rule04Belt])
    && after.fires == e.fires && after.wormTriggers == e.wormTriggers + 1 && after.chaosHigh == e.chaosHigh
  }

  lemma BeltIff(e: Engine)
    ensures e.m.tier == CRITICAL && !e.m.lock.locked ==> BeltApplied(e, Belt(e))
    ensures e.m.tier != CRITICAL || e.m.lock.locked ==> Belt(e) == e
  {
    if e.m.tier == CRITICAL && !e.m.lock.locked {
      assert e.m.lock.log + [WormLockEngaged] + [Rule04Belt] == e.m.lock.log + [WormLockEngaged, Rule04Belt];
    }
  }

  /** The tier becomes `t`, the rule is counted and audited, and the lock is engaged if that is
      CRITICAL: by the transition, or by the belt if the engine was CRITICAL already. */
  ghost predicate RuleFired(e: Engine, t: Tier, kind: Kind, after: Engine) {
    var locking := t == CRITICAL && !e.m.lock.locked;
    && after.m.tier == t && after.m.transitions == e.m.transitions + (if t == e.m.tier then 0 else 1)
    && after.m.lock.locked == (e.m.lock.locked || locking)
    && after.m.lock.lockdowns == e.m.lock.lockdowns + (if locking then 1 else 0)
    && after.m.lock.log == e.m.lock.log + (if t == e.m.tier then [] else [ThreatTierTransition])
                                        + (if locking then [WormLockEngaged] else [])
                                        + (if locking && t == e.m.tier then [Rule04Belt] else []) + [kind]
    && after.fires == e.fires + 1
    && after.wormTriggers == e.wormTriggers + (if locking && t == e.m.tier then 1 else 0)
  }

  /** RULE-01: the score is observed, and an anomalous window then forces CRITICAL. */
  lemma PacketWindowEffect(e: Engine, anomalous: bool, score: int)
    ensures var seen := e.(m := Observe(e.m, score));
            var after := PacketWindow(e, anomalous, score);
            && after == Apply(e, OnPacketWindow(anomalous, score))
            && if anomalous then RuleFired(seen, CRITICAL, Rule01Fired, after) && after.chaosHigh == e.chaosHigh
               else after == seen
  {
  }

  /** RULE-02: the score is observed, the belt is applied, and either of the two having done
      something counts as firing. */
  lemma ThreatScoreEffect(e: Engine, score: int)
    ensures var seen := e.(m := Observe(e.m, score));
            var open := seen.m.tier == CRITICAL && !seen.m.lock.locked;
            var fired := if open || seen.m.tier != e.m.tier then 1 else 0;
            var after := ThreatScore(e, score);
            && after == Apply(e, OnThreatScore(score)) && after.fires == e.fires + fired
            && (open ==> BeltApplied(seen.(fires := e.fires + fired), after))
            && (!open ==> after == seen.(fires := e.fires + fired))
  {
    BeltIff(e.(m := Observe(e.m, score)));
  }

  /** RULE-05: a window up to 0.7 resets the count, the first above it is only counted, and each one
      after that forces MEDIUM. */
  lemma ChaosWindowEffect(e: Engine, k: real)
    ensures var after := ChaosWindow(e, k);
            && after == Apply(e, OnChaosWindow(k))
            && (k <= 0.7 ==> after == e.(chaosHigh := 0))
            && (k > 0.7 && e.chaosHigh == 0 ==> after == e.(chaosHigh := 1))
            && (k > 0.7 && e.chaosHigh >= 1 ==>
                  RuleFired(e, MEDIUM, Rule05Fired, after) && after.chaosHigh == e.chaosHigh + 1)
  {
  }

  /** The other steps: use of the state machine and of the lock alone. */
  lemma OtherEffects(e: Engine, score: int, t: Tier)
    ensures var after := Apply(e, OnObserve(score));
            Moved(e.m, NextTier(e.m.tier, score), after.m) && after == e.(m := after.m)
    ensures var after := Apply(e, OnForce(t)); Moved(e.m, t, after.m) && after == e.(m := after.m)
    ensures var after := Apply(e, OnManualLock);
            && after.m.lock.locked && after == e.(m := e.m.(lock := after.m.lock))
            && after.m.lock.log == e.m.lock.log + (if e.m.lock.locked then [] else [WormLockEngaged])
    ensures var after := Apply(e, OnUnlock);
            && !after.m.lock.locked && after == e.(m := e.m.(lock := after.m.lock))
            && after.m.lock.log == e.m.lock.log + (if e.m.lock.locked then [WormLockLifted] else [])
            && after.m.lock.lockdowns == e.m.lock.lockdowns
  {
    MovesByScore(e.m, score, t);
  }

  /** RULE-03 by the number of failures: up to four change nothing, five to nine force HIGH and leave
      the lock alone, ten and more force CRITICAL and engage it. */
  lemma AuthLadder(e: Engine, failures: int)
    ensures var after := AuthFailures(e, failures);
            && after == Apply(e, OnAuthFailures(failures)) && after.chaosHigh == e.chaosHigh
            && (failures <= 4 ==> after == e)
            && (5 <= failures <= 9 ==> RuleFired(e, HIGH, Rule03Fired, after))
            && (failures >= 10 ==> RuleFired(e, CRITICAL, Rule03Fired, after))
  {
  }

  // ---- Ledgers over whole runs -------------------------------------------------------

  function Lifts(e: Engine): nat {
    Count(e.m.lock.log, WormLockLifted)
  }

  /** The counters agree with the audit log, and CRITICAL was never reached without a lockdown. */
  ghost predicate Accounts(e: Engine) {
    && Balanced(e.m.lock)
    && e.m.transitions == Count(e.m.lock.log, ThreatTierTransition)
    && e.wormTriggers == Count(e.m.lock.log, Rule04Belt)
    && Count(e.m.lock.log, Rule01Fired) + Count(e.m.lock.log, Rule03Fired)
       + Count(e.m.lock.log, Rule05Fired) <= e.fires
    && (e.m.tier == CRITICAL ==> e.m.lock.lockdowns >= 1)
  }

  /** And the belt has fired at most once per lift, one firing short while it is due. */
  ghost predicate Ledgers(e: Engine) {
    Accounts(e) && e.wormTriggers + (if Broken(e) then 1 else 0) <= Lifts(e)
  }

  /** A step that keeps the accounts, and the ledgers if they held. */
  ghost predicate Keeps(e: Engine, e': Engine) {
    && (Accounts(e) ==> Accounts(e'))
    && (Ledgers(e) ==> Ledgers(e'))
  }

  lemma LedgersTransition(e: Engine, t: Tier)
    requires e.m.tier != t
    ensures Keeps(e, e.(m := Transition(e.m, t)))
  {
  }

  lemma LedgersForce(e: Engine, t: Tier)
    ensures Keeps(e, e.(m := Force(e.m, t)))
  {
    if t != e.m.tier {
      LedgersTransition(e, t);
    }
  }

  lemma LedgersObserve(e: Engine, score: int)
    ensures Keeps(e, e.(m := Observe(e.m, score)))
  {
    if NextTier(e.m.tier, score) != e.m.tier {
      LedgersTransition(e, NextTier(e.m.tier, score));
    }
  }

  lemma LedgersBelt(e: Engine)
    requires Ledgers(e)
    ensures Ledgers(Belt(e))
  {
  }

  lemma LedgersAudited(e: Engine, kind: Kind)
    requires kind !in {WormLockEngaged, WormLockLifted, ThreatTierTransition, Rule04Belt}
    requires kind !in {Rule01Fired, Rule03Fired, Rule05Fired}
    ensures Keeps(e, Audited(e, kind))
  {
  }

  lemma LedgersCounted(e: Engine)
    ensures Keeps(e, Fired(e))
  {
  }

  lemma LedgersFired(e: Engine, kind: Kind)
    requires kind == Rule01Fired || kind == Rule03Fired || kind == Rule05Fired
    ensures Keeps(e, Fired(Audited(e, kind)))
  {
    var log := e.m.lock.log;
    assert Count(log + [kind], WormLockEngaged) == Count(log, WormLockEngaged);
    assert Count(log + [kind], WormLockLifted) == Count(log, WormLockLifted);
    assert Count(log + [kind], ThreatTierTransition) == Count(log, ThreatTierTransition);
    assert Count(log + [kind], Rule04Belt) == Count(log, Rule04Belt);
  }

  lemma LedgersLock(e: Engine)
    ensures Keeps(e, e.(m := e.m.(lock := Engage(e.m.lock))))
    ensures Keeps(e, e.(m := e.m.(lock := Lift(e.m.lock))))
  {
  }

  lemma LedgersForcedCritical(e: Engine, kind: Kind)
    requires Ledgers(e) && kind in {Rule01Fired, Rule03Fired}
    ensures Ledgers(Fired(Audited(Belt(e.(m := Force(e.m, CRITICAL))), kind)))
  {
    LedgersForce(e, CRITICAL);
    LedgersBelt(e.(m := Force(e.m, CRITICAL)));
    LedgersFired(Belt(e.(m := Force(e.m, CRITICAL))), kind);
  }

  lemma LedgersThreatScore(e: Engine, score: int)
    requires Ledgers(e)
    ensures Ledgers(ThreatScore(e, score))
  {
    var seen := e.(m := Observe(e.m, score));
    LedgersObserve(e, score);
    LedgersBelt(seen);
    LedgersCounted(Belt(seen));
  }

  lemma LedgersForcedMedium(e: Engine)
    ensures Keeps(e, Audited(Fired(e).(m := Force(e.m, MEDIUM)), Rule05Fired))
  {
    var forced := e.(m := Force(e.m, MEDIUM));
    LedgersForce(e, MEDIUM);
    LedgersFired(forced, Rule05Fired);
    assert Audited(Fired(e).(m := Force(e.m, MEDIUM)), Rule05Fired) == Fired(Audited(forced, Rule05Fired));
  }

  lemma LedgersChaosWindow(e: Engine, k: real)
    ensures Keeps(e, ChaosWindow(e, k))
  {
    if k > RULE05_K_THRESHOLD && e.chaosHigh + 1 >= RULE05_SUSTAINED_WINDOWS {
      LedgersForcedMedium(e.(chaosHigh := e.chaosHigh + 1));
    }
  }

  lemma LedgersAuthFailures(e: Engine, failures: int)
    requires Ledgers(e)
    ensures Ledgers(AuthFailures(e, failures))
  {
    if failures >= RULE03_CRITICAL_THRESHOLD {
      LedgersForcedCritical(e, Rule03Fired);
    } else {
      LedgersForce(e, HIGH);
      LedgersFired(e.(m := Force(e.m, HIGH)), Rule03Fired);
    }
  }

  lemma LedgersPacketWindow(e: Engine, anomalous: bool, score: int)
    requires Ledgers(e)
    ensures Ledgers(PacketWindow(e, anomalous, score))
  {
    LedgersObserve(e, score);
    LedgersForcedCritical(e.(m := Observe(e.m, score)), Rule01Fired);
  }

  lemma LedgersStep(e: Engine, s: Step)
    requires Ledgers(e)
    ensures Ledgers(Apply(e, s))
  {
    match s
    case OnPacketWindow(anomalous, score) => LedgersPacketWindow(e, anomalous, score);
    case OnThreatScore(score) => LedgersThreatScore(e, score);
    case OnAuthFailures(failures) => LedgersAuthFailures(e, failures);
    case OnChaosWindow(k) => LedgersChaosWindow(e, k);
    case OnObserve(score) => LedgersObserve(e, score);
    case OnForce(tier) => LedgersForce(e, tier);
    case OnManualLock => LedgersLock(e);
    case OnUnlock => LedgersLock(e);
  }

  /** Over every run of evaluations one after the other from start-up: the lock has been engaged
      once more than it was lifted exactly while it is locked, the belt has fired at most once per
      successful unlock, and every transition and belt trigger has its audit entry. */
  lemma {:induction false} LedgersOverRuns(steps: seq<Step>)
    ensures Ledgers(Run(INITIAL, steps))
  {
    if steps != [] {
      LedgersOverRuns(steps[..|steps| - 1]);
      LedgersStep(Run(INITIAL, steps[..|steps| - 1]), steps[|steps| - 1]);
    }
  }

  /** Without an unlock, a run keeps "CRITICAL implies locked" throughout and the belt is
      never needed. */
  lemma {:induction false} NoUnlockNoBelt(steps: seq<Step>)
    requires OnUnlock !in steps
    ensures !Broken(Run(INITIAL, steps))
    ensures Run(INITIAL, steps).wormTriggers == 0
  {
    if steps != [] {
      NoUnlockNoBelt(steps[..|steps| - 1]);
      CriticalLockStep(Run(INITIAL, steps[..|steps| - 1]), steps[|steps| - 1]);
    }
  }

  /** The chaos counter is the number of consecutive windows above the threshold, so RULE-05
      fires on the second and every later one of them. */
  lemma {:induction false} SustainedChaosForcesMedium(e: Engine, ks: seq<real>)
    requires forall i :: 0 <= i < |ks| ==> ks[i] > RULE05_K_THRESHOLD
    requires e.chaosHigh == 0
    ensures var r := Run(e, seq(|ks|, i requires 0 <= i < |ks| => OnChaosWindow(ks[i])));
            && r.chaosHigh == |ks|
            && r.fires == e.fires + (if |ks| < 2 then 0 else |ks| - 1)
            && r.m.tier == (if |ks| < 2 then e.m.tier else MEDIUM)
            && r.m.lock.locked == e.m.lock.locked
  {
    if ks != [] {
      var n := |ks| - 1;
      SustainedChaosForcesMedium(e, ks[..n]);
      assert seq(|ks|, i requires 0 <= i < |ks| => OnChaosWindow(ks[i]))[..n]
          == seq(n, i requires 0 <= i < n => OnChaosWindow(ks[..n][i]));
    }
  }

  /** RULE-05 is described as an escalation, but it lowers the tier of a HIGH or CRITICAL
      machine: after the second high window the tier is MEDIUM, whatever it was. */
  lemma ChaosWindowTier(e: Engine, k: real)
    ensures Rank(ChaosWindow(e, k).m.tier) < Rank(e.m.tier) <==>
            k > RULE05_K_THRESHOLD && e.chaosHigh >= 1 && e.m.tier in {HIGH, CRITICAL}
    ensures ChaosWindow(e, k).m.lock.locked == e.m.lock.locked
  {
  }

  // ---- Implementation ----------------------------------------------------------------

  datatype RuleResult = RuleResult(fired: bool, wormTriggered: bool)

  class RuleEngine {
    const tsm: ThreatStateMachine
    var totalFires: nat
    var wormTriggerCount: nat
    var chaosHighCount: nat

    constructor (tsm: ThreatStateMachine)
      ensures this.tsm == tsm
      ensures totalFires == 0 && wormTriggerCount == 0 && chaosHighCount == 0
    {
      this.tsm := tsm;
      totalFires, wormTriggerCount, chaosHighCount := 0, 0, 0;
    }

    function Model(): Engine
      reads this, tsm, tsm.worm, tsm.worm.log
    {
      Engine(tsm.Model(), totalFires, wormTriggerCount, chaosHighCount)
    }

    method ApplyRule04Belt() returns (acted: bool)
      modifies this, tsm.worm, tsm.worm.log
      ensures Model() == Belt(old(Model()))
      ensures acted <==> old(Broken(Model()))
      ensures !Broken(Model())
    {
      if tsm.currentTier == CRITICAL && !tsm.worm.locked {
        var _ := tsm.worm.TriggerLockdown();
        wormTriggerCount := wormTriggerCount + 1;
        tsm.worm.log.Add(Rule04Belt);
        return true;
      }
      return false;
    }

    method EvaluatePacketWindow(anomalous: bool, threatScore: int) returns (r: RuleResult)
      modifies this, tsm, tsm.worm, tsm.worm.log
      ensures Model() == PacketWindow(old(Model()), anomalous, threatScore)
      ensures r.fired == anomalous
      ensures anomalous ==> tsm.currentTier == CRITICAL && tsm.worm.locked
      ensures r.wormTriggered <==> wormTriggerCount > old(wormTriggerCount)
    {
      var _ := tsm.ObserveSignal(threatScore);
      var fired, wormHit := false, false;
      if anomalous {
        fired := true;
        var _ := tsm.ForceTier(CRITICAL);
        wormHit := ApplyRule04Belt();
        tsm.worm.log.Add(Rule01Fired);
        totalFires := totalFires + 1;
      }
      return RuleResult(fired, wormHit);
    }

    method EvaluateThreatScore(score: int) returns (r: RuleResult)
      modifies this, tsm, tsm.worm, tsm.worm.log
      ensures Model() == ThreatScore(old(Model()), score)
      ensures !Broken(Model())
      ensures r.wormTriggered <==> wormTriggerCount > old(wormTriggerCount)
      ensures r.fired <==> tsm.currentTier != old(tsm.currentTier) || r.wormTriggered
    {
      var signal := tsm.ObserveSignal(score);
      var wormHit := ApplyRule04Belt();
      var fired := signal.tierChanged || wormHit;
      if fired {
        totalFires := totalFires + 1;
      }
      return RuleResult(fired, wormHit);
    }

    method EvaluateAuthFailures(failures: int) returns (r: RuleResult)
      modifies this, tsm, tsm.worm, tsm.worm.log
      ensures Model() == AuthFailures(old(Model()), failures)
      ensures r.fired <==> failures >= RULE03_FAILURE_THRESHOLD
      ensures failures >= RULE03_CRITICAL_THRESHOLD ==> tsm.currentTier == CRITICAL && tsm.worm.locked
      ensures r.wormTriggered <==> wormTriggerCount > old(wormTriggerCount)
    {
      var fired, wormHit := false, false;
      if failures >= RULE03_CRITICAL_THRESHOLD {
        fired := true;
        var _ := tsm.ForceTier(CRITICAL);
        wormHit := ApplyRule04Belt();
        tsm.worm.log.Add(Rule03Fired);
      } else if failures >= RULE03_FAILURE_THRESHOLD {
        fired := true;
        var _ := tsm.ForceTier(HIGH);
        tsm.worm.log.Add(Rule03Fired);
      }
      if fired {
        totalFires := totalFires + 1;
      }
      return RuleResult(fired, wormHit);
    }

    method EvaluateChaosWindow(k: real) returns (r: RuleResult)
      modifies this, tsm, tsm.worm, tsm.worm.log
      ensures Model() == ChaosWindow(old(Model()), k)
      ensures !r.wormTriggered
      ensures r.fired <==> k > RULE05_K_THRESHOLD && chaosHighCount >= RULE05_SUSTAINED_WINDOWS
    {
      var fired := false;
      if k > RULE05_K_THRESHOLD {
        chaosHighCount := chaosHighCount + 1;
        if chaosHighCount >= RULE05_SUSTAINED_WINDOWS {
          fired := true;
          totalFires := totalFires + 1;
          var _ := tsm.ForceTier(MEDIUM);
          tsm.worm.log.Add(Rule05Fired);
        }
      } else {
        chaosHighCount := 0;
      }
      return RuleResult(fired, false);
    }
  }
}
