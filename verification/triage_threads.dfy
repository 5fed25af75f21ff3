/** Triage among other threads (core/ai_triage over core/rule_engine).  triage() hands a score to the
    rule engine and reads the tier afterwards, each under mutexes of its own, so other threads may
    change tier and lock before, during and after the evaluation it waits for. */
module TriageThreads {
  import opened Worm
  import opened Threat
  import opened Rules
  import opened Overlap
  import opened Ai

  predicate Begins(a: Act) {
    a.BeginPacket? || a.BeginScore? || a.BeginAuth?
  }

  /** Thread t begins to evaluate the score of a triage. */
  function Begun(r: Race, t: nat, score: int, fast: FastReply, heavy: HeavyReply): Race {
    Take(r, t, BeginScore(EngineScore(score, fast, heavy)))
  }

  /** The steps taken by all threads from there to the moment triage reads the tier: by then the
      evaluation is done, and the thread has begun no other. */
  ghost predicate Triages(r: Race, t: nat, score: int, fast: FastReply, heavy: HeavyReply, steps: seq<Micro>) {
    && t < |r.pcs| && r.pcs[t] == RESTING
    && (forall a :: Begins(a) ==> Of(t, a) !in steps)
    && AtStage(MicroRun(Begun(r, t, score, fast, heavy), steps), t, {IDLE})
  }

  /** The tier that is read. */
  function TierRead(r: Race, t: nat, score: int, fast: FastReply, heavy: HeavyReply, steps: seq<Micro>): Tier {
    MicroRun(Begun(r, t, score, fast, heavy), steps).e.m.tier
  }

  function Verdict(r: Race, t: nat, score: int, fast: FastReply, heavy: HeavyReply, steps: seq<Micro>): Tier {
    Higher(TierRead(r, t, score, fast, heavy, steps), Suggested(fast, heavy))
  }

  /** The lock is engaged in some state between the beginning of the evaluation and the read. */
  ghost predicate EngagedDuring(r: Race, t: nat, score: int, fast: FastReply, heavy: HeavyReply, steps: seq<Micro>) {
    EverLocked(Begun(r, t, score, fast, heavy), steps)
  }

  // ---- What holds in every run -------------------------------------------------------

  /** Under every interleaving: if CRITICAL is read, the lock was engaged during triage. */
  lemma CriticalReadEngaged(r: Race, t: nat, score: int, fast: FastReply, heavy: HeavyReply, steps: seq<Micro>)
    requires Triages(r, t, score, fast, heavy, steps)
    ensures TierRead(r, t, score, fast, heavy, steps) == CRITICAL ==>
              EngagedDuring(r, t, score, fast, heavy, steps)
  {
    BeltLeftLocked(Begun(r, t, score, fast, heavy), t, steps);
  }

  /** The tier as the evaluation begins is at least the band of the raw score and, with a usable
      reply, at least the suggestion. */
  lemma BegunTier(r: Race, t: nat, score: int, fast: FastReply, heavy: HeavyReply)
    requires t < |r.pcs| && r.pcs[t] == RESTING
    ensures var tier := Begun(r, t, score, fast, heavy).e.m.tier;
            && Rank(tier) >= Rank(Band(score))
            && (Usable(fast, heavy) ==> Rank(tier) >= Rank(Suggested(fast, heavy)))
  {
    Hysteresis(r.e.m.tier, EngineScore(score, fast, heavy));
  }

  /** In every run in which nobody lowers the tier between the beginning of the evaluation and the
      read: the verdict is at least the band of the raw score; it is the tier read exactly when a
      reply parsed or the left-over hint is no higher; and it is CRITICAL with the lock open
      throughout exactly when nothing parsed, the fast reply broke off after the hint CRITICAL,
      and neither tier nor lock got there. */
  lemma UnlessLowered(r: Race, t: nat, score: int, fast: FastReply, heavy: HeavyReply, steps: seq<Micro>)
    requires Triages(r, t, score, fast, heavy, steps)
    requires NeverLowered(Begun(r, t, score, fast, heavy), steps)
    ensures var read, verdict, engaged :=
              TierRead(r, t, score, fast, heavy, steps), Verdict(r, t, score, fast, heavy, steps),
              EngagedDuring(r, t, score, fast, heavy, steps);
            && Rank(verdict) >= Rank(Band(score))
            && (verdict == read <==>
                  || Usable(fast, heavy)
                  || Rank(SeverityToTier(ParseFast(fast).severityHint)) <= Rank(read))
            && (verdict == CRITICAL && !engaged <==>
                  && HintOnly(fast, "CRITICAL") && !ParseHeavy(heavy).parseOk
                  && read != CRITICAL && !engaged)
  {
    CriticalReadEngaged(r, t, score, fast, heavy, steps);
    BegunTier(r, t, score, fast, heavy);
    TierGrows(Begun(r, t, score, fast, heavy), steps);
    if !Usable(fast, heavy) {
      UnparsedHint(fast, "CRITICAL");
    }
  }

  // ---- When it holds in all runs -----------------------------------------------------

  lemma ExtendEver(start: Race, steps: seq<Micro>, r: Race, s: Micro) returns (r': Race, steps': seq<Micro>)
    requires MicroRun(start, steps) == r
    ensures steps' == steps + [s] && r' == MicroApply(r, s) && MicroRun(start, steps') == r'
    ensures EverLocked(start, steps') <==> r'.e.m.lock.locked || EverLocked(start, steps)
  {
    r', steps' := Extend(start, steps, r, s);
    assert steps'[..|steps|] == steps;
  }

  /** A thread about to read the tier, another that lowers it to LOW first, and the end. */
  lemma LowerAndEnd(r: Race, t: nat) returns (q: Race, steps: seq<Micro>)
    requires AtStage(r, t, {READING_TIER})
    ensures steps == [Elsewhere(OnObserve(0)), Of(t, ReadTier), Of(t, End)] && MicroRun(r, steps) == q
    ensures q.e.m.tier == LOW && AtStage(q, t, {IDLE})
    ensures EverLocked(r, steps) <==> r.e.m.lock.locked
  {
    assert EverLocked(r, []) <==> r.e.m.lock.locked;
    q, steps := ExtendEver(r, [], r, Elsewhere(OnObserve(0)));
    assert q.e.m.tier == LOW && q.e.m.lock.locked == r.e.m.lock.locked && q.pcs == r.pcs;
    q, steps := ExtendEver(r, steps, q, Of(t, ReadTier));
    q, steps := ExtendEver(r, steps, q, Of(t, End));
  }

  /** From every state another thread can lower the tier to LOW before the belt, without touching the
      lock. */
  lemma LoweredRun(r: Race, t: nat, score: int, fast: FastReply, heavy: HeavyReply) returns (steps: seq<Micro>)
    requires t < |r.pcs| && r.pcs[t] == RESTING
    ensures Triages(r, t, score, fast, heavy, steps)
    ensures TierRead(r, t, score, fast, heavy, steps) == LOW
    ensures EngagedDuring(r, t, score, fast, heavy, steps) <==>
              Begun(r, t, score, fast, heavy).e.m.lock.locked
  {
    var q;
    q, steps := LowerAndEnd(Begun(r, t, score, fast, heavy), t);
  }

  /** The verdict is the tier read in every run if and only if the suggestion is LOW. */
  lemma AlwaysTierReadIff(r: Race, t: nat, score: int, fast: FastReply, heavy: HeavyReply)
    requires t < |r.pcs| && r.pcs[t] == RESTING
    ensures (forall steps :: Triages(r, t, score, fast, heavy, steps) ==>
               Verdict(r, t, score, fast, heavy, steps) == TierRead(r, t, score, fast, heavy, steps))
       <==> Suggested(fast, heavy) == LOW
  {
    if Suggested(fast, heavy) != LOW {
      var steps := LoweredRun(r, t, score, fast, heavy);
      assert Verdict(r, t, score, fast, heavy, steps) != TierRead(r, t, score, fast, heavy, steps);
    }
  }

  /** The verdict is at least the band of the raw score in every run if and only if the suggestion
      is. */
  lemma AlwaysFloorIff(r: Race, t: nat, score: int, fast: FastReply, heavy: HeavyReply)
    requires t < |r.pcs| && r.pcs[t] == RESTING
    ensures (forall steps :: Triages(r, t, score, fast, heavy, steps) ==>
               Rank(Verdict(r, t, score, fast, heavy, steps)) >= Rank(Band(score)))
       <==> Rank(Suggested(fast, heavy)) >= Rank(Band(score))
  {
    if Rank(Suggested(fast, heavy)) < Rank(Band(score)) {
      var steps := LoweredRun(r, t, score, fast, heavy);
      assert Rank(Verdict(r, t, score, fast, heavy, steps)) < Rank(Band(score));
    }
  }

  /** A CRITICAL verdict has the lock engaged during triage in every run if and only if the models do
      not suggest CRITICAL, the lock is engaged already, or the score makes the tier CRITICAL. */
  lemma AlwaysEngagedIff(r: Race, t: nat, score: int, fast: FastReply, heavy: HeavyReply)
    requires t < |r.pcs| && r.pcs[t] == RESTING
    ensures (forall steps :: Triages(r, t, score, fast, heavy, steps) ==>
               Verdict(r, t, score, fast, heavy, steps) == CRITICAL ==>
                 EngagedDuring(r, t, score, fast, heavy, steps))
       <==> || Suggested(fast, heavy) != CRITICAL
            || r.e.m.lock.locked
            || (r.e.m.tier != CRITICAL && NextTier(r.e.m.tier, EngineScore(score, fast, heavy)) == CRITICAL)
  {
    var begun := Begun(r, t, score, fast, heavy);
    if begun.e.m.lock.locked {
      forall steps ensures EngagedDuring(r, t, score, fast, heavy, steps) {
        LockedAtStart(begun, steps);
      }
    } else if Suggested(fast, heavy) == CRITICAL {
      var steps := LoweredRun(r, t, score, fast, heavy);
      assert Verdict(r, t, score, fast, heavy, steps) == CRITICAL;
    } else {
      forall steps | Triages(r, t, score, fast, heavy, steps)
        ensures Verdict(r, t, score, fast, heavy, steps) == CRITICAL ==>
                  EngagedDuring(r, t, score, fast, heavy, steps)
      {
        CriticalReadEngaged(r, t, score, fast, heavy, steps);
      }
    }
  }

  /** A parsed reply, a CRITICAL verdict, the engine at MEDIUM and the lock open: the lock was lifted
      while CRITICAL, and two high chaos windows closed while triage waited for its evaluation. */
  lemma ParsedCriticalUnlocked(score: int) returns (steps: seq<Micro>)
    requires score <= 90
    ensures var fast := FastObject(Present("handle"), Present("CRITICAL"), Present(0.9));
            var q := MicroRun(RaceStart(1), steps);
            && Usable(fast, NoHeavy) && Suggested(fast, NoHeavy) == CRITICAL
            && Of(0, BeginScore(EngineScore(score, fast, NoHeavy))) in steps
            && q.pcs == [RESTING] && q.e.m.tier == MEDIUM && !q.e.m.lock.locked
            && Higher(q.e.m.tier, Suggested(fast, NoHeavy)) == CRITICAL
  {
    var r;
    r, steps := UnlockedCritical();
    r, steps := Extend(RaceStart(1), steps, r, Of(0, BeginScore(90)));
    var begun := steps;
    r, steps := LoweredInTheBelt(RaceStart(1), steps, r);
    r, steps := EndsWithoutBelt(RaceStart(1), steps, r);
    assert begun[|begun| - 1] == steps[|begun| - 1];
  }
}
