/** The four-tier threat state machine (core/threat_level), with its CRITICAL callback
    wired to the WORM lock as in the bridge. */
module Threat {
  import opened EventLog
  import opened Worm

  datatype Tier = LOW | MEDIUM | HIGH | CRITICAL

  function Rank(t: Tier): (r: nat)
    ensures r <= 3
  {
    match t
    case LOW => 0
    case MEDIUM => 1
    case HIGH => 2
    case CRITICAL => 3
  }

  function LowerThreshold(t: Tier): int {
    match t
    case LOW => 0
    case MEDIUM => 25
    case HIGH => 50
    case CRITICAL => 75
  }

  function Clamp(score: int): int {
    if score < 0 then 0 else if score > 100 then 100 else score
  }

  /** The tier whose score band holds the clamped score. */
  function Band(score: int): Tier {
    var s := Clamp(score);
    if s >= 75 then CRITICAL else if s >= 50 then HIGH else if s >= 25 then MEDIUM else LOW
  }

  /** Width of the hysteresis margin below a tier's lower threshold. */
  const MARGIN := 10

  // ---- Specification -----------------------------------------------------------------

  datatype Machine = Machine(tier: Tier, transitions: nat, lock: Lock)

  function Logged(l: Lock, kind: Kind): Lock {
    l.(log := l.log + [kind])
  }

  function Transition(m: Machine, t: Tier): Machine {
    var audited := Logged(m.lock, ThreatTierTransition);
    Machine(t, m.transitions + 1, if t == CRITICAL then Engage(audited) else audited)
  }

  function NextTier(t: Tier, score: int): Tier {
    var target := Band(score);
    if Rank(target) > Rank(t) then target
    else if Rank(target) < Rank(t) && Clamp(score) < LowerThreshold(t) - MARGIN then target
    else t
  }

  function Observe(m: Machine, score: int): Machine {
    if NextTier(m.tier, score) == m.tier then m else Transition(m, NextTier(m.tier, score))
  }

  function Force(m: Machine, t: Tier): Machine {
    if t == m.tier then m else Transition(m, t)
  }

  function ObserveAll(m: Machine, scores: seq<int>): Machine {
    if scores == [] then m
    else Observe(ObserveAll(m, scores[..|scores| - 1]), scores[|scores| - 1])
  }

  // ---- Properties --------------------------------------------------------------------

  /** No call leaves the machine below the band of the score it was given; a tier is left
      exactly when the score is banded above it or lies more than the margin below it. */
  lemma Hysteresis(t: Tier, score: int)
    ensures Rank(NextTier(t, score)) >= Rank(Band(score))
    ensures NextTier(t, score) != t <==>
            Clamp(score) < LowerThreshold(t) - MARGIN || Rank(Band(score)) > Rank(t)
    ensures NextTier(t, score) in {t, Band(score)}
  {
  }

  /** The tier after a score, by the numbers: the bands begin at 25, 50 and 75, and CRITICAL, HIGH and
      MEDIUM are kept down to 65, 40 and 15. */
  lemma TierByScore(t: Tier, score: int)
    ensures var next := NextTier(t, score);
            && (score >= 75 ==> next == CRITICAL)
            && (65 <= score < 75 ==> next == if t == CRITICAL then CRITICAL else HIGH)
            && (50 <= score < 65 ==> next == HIGH)
            && (40 <= score < 50 ==> next == if t == HIGH then HIGH else MEDIUM)
            && (25 <= score < 40 ==> next == MEDIUM)
            && (15 <= score < 25 ==> next == if t == MEDIUM then MEDIUM else LOW)
            && (score < 15 ==> next == LOW)
  {
  }

  /** What a change of tier leaves behind: one transition, its audit entry, and on CRITICAL the lock
      engaged, with an entry of its own if it was open. */
  ghost predicate Moved(m: Machine, t: Tier, after: Machine) {
    && after.tier == t
    && after.transitions == m.transitions + (if t == m.tier then 0 else 1)
    && after.lock.locked == (m.lock.locked || (t == CRITICAL && m.tier != CRITICAL))
    && after.lock.lockdowns == m.lock.lockdowns + (if after.lock.locked && !m.lock.locked then 1 else 0)
    && after.lock.log == m.lock.log + (if t == m.tier then [] else [ThreatTierTransition])
                                    + (if after.lock.locked && !m.lock.locked then [WormLockEngaged] else [])
  }

  lemma MovesByScore(m: Machine, score: int, t: Tier)
    ensures Moved(m, NextTier(m.tier, score), Observe(m, score))
    ensures Moved(m, t, Force(m, t))
  {
  }

  /** The header documents that a tier is left downwards only for scores at least one full band, 25
      points, below its lower bound. */
  function DocumentedTier(t: Tier, score: int): Tier {
    var target := Band(score);
    if Rank(target) > Rank(t) then target
    else if Rank(target) < Rank(t) && Clamp(score) <= LowerThreshold(t) - 25 then target
    else t
  }

  /** Code and header disagree exactly for scores between 25 and 10 points below the bound, where the
      code already leaves the tier: so HIGH drops to MEDIUM at 39. */
  lemma DocumentedIff(t: Tier, score: int)
    ensures NextTier(t, score) != DocumentedTier(t, score) <==>
              LowerThreshold(t) - 25 < Clamp(score) < LowerThreshold(t) - MARGIN
    ensures NextTier(HIGH, 39) == MEDIUM && DocumentedTier(HIGH, 39) == HIGH
  {
  }

  /** From the same tier, a larger score never gives a lower tier. */
  lemma NextTierMonotone(t: Tier, score: int, score': int)
    requires score <= score'
    ensures Rank(NextTier(t, score)) <= Rank(NextTier(t, score'))
  {
  }

  ghost predicate WithinSpan(scores: seq<int>, span: int) {
    forall i, j :: 0 <= i < |scores| && 0 <= j < |scores| ==>
                     Clamp(scores[i]) - Clamp(scores[j]) <= span
  }

  /** How many transitions can still happen while every clamped score stays in [lo, lo + 10]. */
  function Slack(t: Tier, lo: int): nat {
    if t == Band(lo + MARGIN) then 0
    else if t == Band(lo) then 1
    else if Band(lo) == Band(lo + MARGIN) then 1
    else 2
  }

  lemma SlackPaysForTransition(m: Machine, score: int, lo: int)
    requires 0 <= lo <= Clamp(score) <= lo + MARGIN
    ensures Observe(m, score).transitions + Slack(Observe(m, score).tier, lo)
            <= m.transitions + Slack(m.tier, lo)
  {
  }

  lemma {:induction false} ChatterFrom(m: Machine, scores: seq<int>, lo: int)
    requires 0 <= lo
    requires forall i :: 0 <= i < |scores| ==> lo <= Clamp(scores[i]) <= lo + MARGIN
    ensures ObserveAll(m, scores).transitions + Slack(ObserveAll(m, scores).tier, lo)
            <= m.transitions + Slack(m.tier, lo)
  {
    if scores != [] {
      ChatterFrom(m, scores[..|scores| - 1], lo);
      SlackPaysForTransition(ObserveAll(m, scores[..|scores| - 1]), scores[|scores| - 1], lo);
    }
  }

  lemma LeastClamped(scores: seq<int>) returns (k: nat)
    requires scores != []
    ensures k < |scores|
    ensures forall i :: 0 <= i < |scores| ==> Clamp(scores[k]) <= Clamp(scores[i])
  {
    k := 0;
    for n := 1 to |scores|
      invariant k < |scores|
      invariant forall i :: 0 <= i < n ==> Clamp(scores[k]) <= Clamp(scores[i])
    {
      if Clamp(scores[n]) < Clamp(scores[k]) {
        k := n;
      }
    }
  }

  /** Scores within a span of 10 make at most two transitions, however many there are and
      whatever tier the machine starts from. */
  lemma BoundedChatter(m: Machine, scores: seq<int>)
    requires WithinSpan(scores, MARGIN)
    ensures ObserveAll(m, scores).transitions <= m.transitions + 2
  {
    if scores != [] {
      var k := LeastClamped(scores);
      ChatterFrom(m, scores, Clamp(scores[k]));
    }
  }

  /** n scores taken in turn from 50 and 39. */
  function Alternating(n: nat): (scores: seq<int>)
    ensures |scores| == n
  {
    seq(n, i => if i % 2 == 0 then 50 else 39)
  }

  lemma SwingStep(m: Machine, n: nat)
    requires n > 0
    requires m.tier == if n == 1 then LOW else if n % 2 == 0 then HIGH else MEDIUM
    ensures var m' := Observe(m, if n % 2 == 1 then 50 else 39);
            && m'.transitions == m.transitions + 1
            && m'.tier == if n % 2 == 1 then HIGH else MEDIUM
  {
  }

  /** A span of 11 is already unbounded: every one of the n alternating scores moves the
      machine. */
  lemma {:induction false} ElevenIsUnbounded(m: Machine, n: nat)
    requires m.tier == LOW
    ensures WithinSpan(Alternating(n), MARGIN + 1)
    ensures ObserveAll(m, Alternating(n)).transitions == m.transitions + n
    ensures ObserveAll(m, Alternating(n)).tier ==
            if n == 0 then LOW else if n % 2 == 1 then HIGH else MEDIUM
  {
    if n > 0 {
      ElevenIsUnbounded(m, n - 1);
      assert Alternating(n)[..n - 1] == Alternating(n - 1);
      assert Alternating(n)[n - 1] == if n % 2 == 1 then 50 else 39;
      SwingStep(ObserveAll(m, Alternating(n - 1)), n);
    }
  }

  /** A CRITICAL machine has its lock engaged. */
  ghost predicate CriticalIsLocked(m: Machine) {
    m.tier == CRITICAL ==> m.lock.locked
  }

  /** An observation or forced tier leaves "CRITICAL implies locked" true exactly when it was
      true before or the machine is no longer CRITICAL, and keeps the lock's ledger. */
  lemma TransitionsKeepLock(m: Machine, score: int, t: Tier)
    ensures CriticalIsLocked(Observe(m, score)) <==>
            CriticalIsLocked(m) || Observe(m, score).tier != CRITICAL
    ensures CriticalIsLocked(Force(m, t)) <==> CriticalIsLocked(m) || t != CRITICAL
    ensures m.lock.locked ==> Observe(m, score).lock.locked && Force(m, t).lock.locked
    ensures Balanced(m.lock) ==> Balanced(Observe(m, score).lock) && Balanced(Force(m, t).lock)
  {
    TransitionBalanced(m, NextTier(m.tier, score));
    TransitionBalanced(m, t);
  }

  lemma TransitionBalanced(m: Machine, t: Tier)
    ensures Balanced(m.lock) ==> Balanced(Transition(m, t).lock)
  {
  }

  // ---- Implementation ----------------------------------------------------------------

  datatype SignalResult =
    SignalResult(tierChanged: bool, previousTier: Tier, currentTier: Tier, wormTriggered: bool)

  class ThreatStateMachine {
    const worm: WormLock
    var currentTier: Tier
    var transitionCount: nat

    constructor (worm: WormLock)
      ensures this.worm == worm
      ensures currentTier == LOW && transitionCount == 0
    {
      this.worm := worm;
      currentTier, transitionCount := LOW, 0;
    }

    function Model(): Machine
      reads this, worm, worm.log
    {
      Machine(currentTier, transitionCount, worm.Model())
    }

    method DoTransition(newTier: Tier) returns (r: SignalResult)
      modifies this, worm, worm.log
      ensures Model() == Transition(old(Model()), newTier)
      ensures r == SignalResult(true, old(currentTier), newTier, newTier == CRITICAL)
      ensures currentTier == newTier && transitionCount == old(transitionCount) + 1
      ensures worm.locked == (old(worm.locked) || newTier == CRITICAL)
      ensures worm.log.entries == old(worm.log.entries) + [ThreatTierTransition]
                                + (if newTier == CRITICAL && !old(worm.locked) then [WormLockEngaged] else [])
    {
      var previous := currentTier;
      currentTier := newTier;
      transitionCount := transitionCount + 1;
      worm.log.Add(ThreatTierTransition);
      var triggered := false;
      if newTier == CRITICAL {
        var _ := worm.TriggerLockdown();
        triggered := true;
      }
      return SignalResult(true, previous, newTier, triggered);
    }

    method ObserveSignal(rawScore: int) returns (r: SignalResult)
      modifies this, worm, worm.log
      ensures Model() == Observe(old(Model()), rawScore)
      ensures r.previousTier == old(currentTier) && r.currentTier == currentTier
      ensures r.tierChanged <==> currentTier != old(currentTier)
      ensures r.wormTriggered <==> r.tierChanged && currentTier == CRITICAL
      ensures Rank(currentTier) >= Rank(Band(rawScore))
    {
      var score := rawScore;
      if score < 0 { score := 0; }
      if score > 100 { score := 100; }
      var target: Tier;
      if score >= 75 { target := CRITICAL; }
      else if score >= 50 { target := HIGH; }
      else if score >= 25 { target := MEDIUM; }
      else { target := LOW; }
      if Rank(target) > Rank(currentTier) {
        r := DoTransition(target);
        return;
      }
      var currentLower := LowerThreshold(currentTier);
      if Rank(target) < Rank(currentTier) && score < currentLower - 10 {
        r := DoTransition(target);
        return;
      }
      return SignalResult(false, currentTier, currentTier, false);
    }

    method ForceTier(tier: Tier) returns (changed: bool)
      modifies this, worm, worm.log
      ensures Model() == Force(old(Model()), tier)
      ensures changed <==> old(currentTier) != tier
      ensures currentTier == tier
    {
      if tier == currentTier {
        return false;
      }
      var _ := DoTransition(tier);
      return true;
    }
  }
}
