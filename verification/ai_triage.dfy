/** AI triage (core/ai_triage): two untrusted model replies become one score for the rule
    engine.  Transport and prompts are abstracted; a reply is any value the JSON parser can
    hand back. */
module Ai {
  import opened EventLog
  import opened Worm
  import opened Threat
  import opened Rules

  const ESCALATE_CONFIDENCE_THRESHOLD := 0.70

  /** A field of a parsed JSON object; reading one of the wrong type throws. */
  datatype Field<T> = Absent | WrongType | Present(value: T)

  datatype FastReply =
    | NoFast                 // timed out, refused, or an empty model response
    | FastText               // text without a parsable JSON object
    | FastObject(route: Field<string>, severityHint: Field<string>, confidence: Field<real>)

  datatype HeavyReply =
    | NoHeavy
    | HeavyText
    | HeavyObject(severity: Field<string>, rationale: Field<string>, mitre: Field<string>)

  datatype FastResult =
    FastResult(route: string, severityHint: string, confidence: real, parseOk: bool)

  datatype HeavyResult = NotRun | HeavyResult(severity: string, parseOk: bool)

  function ValueOr<T>(f: Field<T>, default: T): T {
    if f.Present? then f.value else default
  }

  /** The fields are read in order; the first one that throws leaves the earlier ones set and
      parseOk false. */
  function ParseFast(reply: FastReply): FastResult {
    var none := FastResult("handle", "LOW", 0.0, false);
    match reply
    case NoFast => none
    case FastText => none
    case FastObject(route, hint, confidence) =>
      if route.WrongType? then none
      else
        var r1 := none.(route := ValueOr(route, "handle"));
        if hint.WrongType? then r1
        else
          var r2 := r1.(severityHint := ValueOr(hint, "LOW"));
          if confidence.WrongType? then r2
          else r2.(confidence := ValueOr(confidence, 0.5), parseOk := true)
  }

  function ParseHeavy(reply: HeavyReply): (r: HeavyResult)
    ensures r.HeavyResult?
  {
    match reply
    case NoHeavy => HeavyResult("LOW", false)
    case HeavyText => HeavyResult("LOW", false)
    case HeavyObject(severity, rationale, mitre) =>
      if severity.WrongType? then HeavyResult("LOW", false)
      else HeavyResult(ValueOr(severity, "LOW"), !rationale.WrongType? && !mitre.WrongType?)
  }

  function SeverityToTier(s: string): Tier {
    if s == "CRITICAL" then CRITICAL
    else if s == "HIGH" then HIGH
    else if s == "MEDIUM" then MEDIUM
    else LOW
  }

  function TierToScore(t: Tier): int {
    match t
    case CRITICAL => 90
    case HIGH => 76
    case MEDIUM => 50
    case LOW => 10
  }

  predicate CallsHeavy(fast: FastResult) {
    fast.route == "escalate" || fast.confidence < ESCALATE_CONFIDENCE_THRESHOLD || !fast.parseOk
  }

  function HeavyOf(fast: FastReply, heavy: HeavyReply): HeavyResult {
    if CallsHeavy(ParseFast(fast)) then ParseHeavy(heavy) else NotRun
  }

  predicate HeavyParsed(h: HeavyResult) {
    h.HeavyResult? && h.parseOk
  }

  /** At least one reply parsed completely. */
  predicate Usable(fast: FastReply, heavy: HeavyReply) {
    ParseFast(fast).parseOk || HeavyParsed(HeavyOf(fast, heavy))
  }

  function Suggested(fast: FastReply, heavy: HeavyReply): Tier {
    var h := HeavyOf(fast, heavy);
    SeverityToTier(if HeavyParsed(h) then h.severity else ParseFast(fast).severityHint)
  }

  function EngineScore(score: int, fast: FastReply, heavy: HeavyReply): int {
    var advisory := TierToScore(Suggested(fast, heavy));
    if !Usable(fast, heavy) || score > advisory then score else advisory
  }

  /** The engine after triage. */
  function Triaged(e: Engine, score: int, fast: FastReply, heavy: HeavyReply): Engine {
    Audited(ThreatScore(e, EngineScore(score, fast, heavy)), EventLog.AiTriage)
  }

  function FinalTier(e: Engine, score: int, fast: FastReply, heavy: HeavyReply): Tier {
    var engine := Triaged(e, score, fast, heavy).m.tier;
    if Rank(engine) >= Rank(Suggested(fast, heavy)) then engine else Suggested(fast, heavy)
  }

  // ---- Properties --------------------------------------------------------------------

  /** Whatever the models reply, the verdict is no lower than the model's suggestion and no
      lower than the band of the raw score; with a usable reply it is the engine's own tier,
      and a CRITICAL verdict has the lock engaged. */
  lemma TriageFloor(e: Engine, score: int, fast: FastReply, heavy: HeavyReply)
    ensures Rank(FinalTier(e, score, fast, heavy)) >= Rank(Suggested(fast, heavy))
    ensures Rank(FinalTier(e, score, fast, heavy)) >= Rank(Band(score))
    ensures !Broken(Triaged(e, score, fast, heavy))
    ensures Usable(fast, heavy) ==>
              && FinalTier(e, score, fast, heavy) == Triaged(e, score, fast, heavy).m.tier
              && (FinalTier(e, score, fast, heavy) == CRITICAL ==>
                    Triaged(e, score, fast, heavy).m.lock.locked)
  {
    ThreatScoreFloor(e, EngineScore(score, fast, heavy));
    CriticalLockStep(e, OnThreatScore(EngineScore(score, fast, heavy)));
  }

  /** No pair of replies can leave the engine below the tier the raw score alone would have
      given it, nor unlock it. */
  lemma ModelCannotLower(e: Engine, score: int, fast: FastReply, heavy: HeavyReply)
    ensures Rank(Triaged(e, score, fast, heavy).m.tier) >= Rank(ThreatScore(e, score).m.tier)
    ensures e.m.lock.locked ==> Triaged(e, score, fast, heavy).m.lock.locked
  {
    NextTierMonotone(e.m.tier, score, EngineScore(score, fast, heavy));
  }

  /** The larger of two tiers. */
  function Higher(a: Tier, b: Tier): Tier {
    if Rank(a) >= Rank(b) then a else b
  }

  /** tier_to_score puts MEDIUM and HIGH one band up.  Triage takes the engine above both what
      the raw score gives and what the models suggest exactly when a reply is usable, suggests
      MEDIUM or HIGH, and the raw score alone gives no more than that. */
  lemma OvershootIff(e: Engine, score: int, fast: FastReply, heavy: HeavyReply)
    ensures Rank(Triaged(e, score, fast, heavy).m.tier)
            > Rank(Higher(NextTier(e.m.tier, score), Suggested(fast, heavy)))
       <==> && Usable(fast, heavy)
            && Suggested(fast, heavy) in {MEDIUM, HIGH}
            && Rank(NextTier(e.m.tier, score)) <= Rank(Suggested(fast, heavy))
  {
  }

  /** Then the engine is exactly one tier above the suggestion; otherwise it is where the raw score
      or, for a usable reply, the suggestion puts it. */
  lemma SuggestionOvershoots(e: Engine, score: int, fast: FastReply, heavy: HeavyReply)
    ensures var engine, raw, suggested :=
              Triaged(e, score, fast, heavy).m.tier, NextTier(e.m.tier, score), Suggested(fast, heavy);
            && (!Usable(fast, heavy) ==> engine == raw)
            && (Usable(fast, heavy) && suggested in {LOW, CRITICAL} ==> engine == Higher(raw, suggested))
            && (Usable(fast, heavy) && suggested == MEDIUM ==> engine == Higher(raw, HIGH))
            && (Usable(fast, heavy) && suggested == HIGH ==>
                  engine == CRITICAL && Triaged(e, score, fast, heavy).m.lock.locked)
  {
    ThreatScoreFloor(e, EngineScore(score, fast, heavy));
    CriticalLockStep(e, OnThreatScore(EngineScore(score, fast, heavy)));
  }

  /** What a reply leaves in the fast result: the fields before the first one of a wrong type are
      taken, or their defaults if they are missing, and it counts as parsed if there is no such field. */
  lemma FastFieldsRead(route: Field<string>, hint: Field<string>, confidence: Field<real>)
    ensures var r := ParseFast(FastObject(route, hint, confidence));
            && (r.parseOk <==> !route.WrongType? && !hint.WrongType? && !confidence.WrongType?)
            && r.route == (if route.Present? then route.value else "handle")
            && r.severityHint == (if hint.Present? && !route.WrongType? then hint.value else "LOW")
            && r.confidence == (if !r.parseOk then 0.0 else if confidence.Present? then confidence.value else 0.5)
    ensures ParseFast(NoFast) == ParseFast(FastText) == ParseFast(FastObject(WrongType, hint, confidence))
         == FastResult("handle", "LOW", 0.0, false)
  {
  }

  lemma HeavyFieldsRead(severity: Field<string>, rationale: Field<string>, mitre: Field<string>)
    ensures var r := ParseHeavy(HeavyObject(severity, rationale, mitre));
            && (r.parseOk <==> !severity.WrongType? && !rationale.WrongType? && !mitre.WrongType?)
            && r.severity == if severity.Present? then severity.value else "LOW"
    ensures ParseHeavy(NoHeavy) == ParseHeavy(HeavyText) == HeavyResult("LOW", false)
  {
  }

  /** Triage is the evaluation of one threat score and one audit entry after it; the score is the raw
      one, or 90, 76, 50 or 10 for the suggestion if a reply parsed and that is more. */
  lemma TriageEffect(e: Engine, score: int, fast: FastReply, heavy: HeavyReply)
    ensures var after, scored := Triaged(e, score, fast, heavy), ThreatScore(e, EngineScore(score, fast, heavy));
            && after.m.lock.log == scored.m.lock.log + [EventLog.AiTriage]
            && after == scored.(m := scored.m.(lock := scored.m.lock.(log := after.m.lock.log)))
    ensures !Usable(fast, heavy) ==> EngineScore(score, fast, heavy) == score
    ensures Usable(fast, heavy) ==>
              var s := match Suggested(fast, heavy)
                       case CRITICAL => 90 case HIGH => 76 case MEDIUM => 50 case LOW => 10;
              EngineScore(score, fast, heavy) == if score >= s then score else s
  {
  }

  /** Triage from the text of the severity: the tier suggested, the tier the engine ends in, the tier
      reported, and whether the lock is sure to be engaged. */
  ghost predicate EndsByText(e: Engine, score: int, fast: FastReply, heavy: HeavyReply, text: string) {
    var after := Triaged(e, score, fast, heavy);
    var raw := NextTier(e.m.tier, score);
    && FinalTier(e, score, fast, heavy) == after.m.tier
    && Suggested(fast, heavy) == (if text == "CRITICAL" then CRITICAL
                                  else if text == "HIGH" then HIGH
                                  else if text == "MEDIUM" then MEDIUM
                                  else LOW)
    && (text == "CRITICAL" || text == "HIGH" ==> after.m.tier == CRITICAL && after.m.lock.locked)
    && (text == "MEDIUM" ==> after.m.tier == if raw == CRITICAL then CRITICAL else HIGH)
    && (text != "CRITICAL" && text != "HIGH" && text != "MEDIUM" ==> after.m.tier == raw)
  }

  /** A complete fast reply with a confidence of at least 0.7 that does not escalate decides by the
      text of its severity hint; no hint counts as "LOW". */
  lemma FastByText(e: Engine, score: int, fast: FastReply, heavy: HeavyReply)
    requires fast.FastObject? && fast.confidence.Present? && fast.confidence.value >= 0.7
    requires fast.route == Absent || (fast.route.Present? && fast.route.value != "escalate")
    requires !fast.severityHint.WrongType?
    ensures EndsByText(e, score, fast, heavy,
                       if fast.severityHint.Present? then fast.severityHint.value else "LOW")
  {
    SuggestionOvershoots(e, score, fast, heavy);
  }

  /** In every other case the heavy model is asked: no reply or no JSON, an escalation, a confidence
      that is missing or below 0.7, or a field of the wrong type. */
  lemma HeavyAskedIff(fast: FastReply, heavy: HeavyReply)
    ensures HeavyOf(fast, heavy) == NotRun <==>
              && fast.FastObject? && !fast.severityHint.WrongType?
              && fast.confidence.Present? && fast.confidence.value >= 0.7
              && (fast.route == Absent || (fast.route.Present? && fast.route.value != "escalate"))
  {
  }

  /** And its reply, if all its fields can be read, decides by the text of its severity. */
  lemma HeavyByText(e: Engine, score: int, fast: FastReply, heavy: HeavyReply)
    requires HeavyOf(fast, heavy) != NotRun
    requires heavy.HeavyObject? && !heavy.severity.WrongType?
    requires !heavy.rationale.WrongType? && !heavy.mitre.WrongType?
    ensures EndsByText(e, score, fast, heavy, if heavy.severity.Present? then heavy.severity.value else "LOW")
  {
    SuggestionOvershoots(e, score, fast, heavy);
  }

  /** If the heavy model is asked and its reply cannot be read, a fast reply that could still decides;
      if neither can, the engine ends where the raw score alone takes it. */
  lemma UnreadHeavy(e: Engine, score: int, fast: FastReply, heavy: HeavyReply)
    requires heavy.HeavyObject? ==>
               heavy.severity.WrongType? || heavy.rationale.WrongType? || heavy.mitre.WrongType?
    ensures fast.FastObject? && !fast.route.WrongType? && !fast.severityHint.WrongType?
            && !fast.confidence.WrongType? ==>
              EndsByText(e, score, fast, heavy,
                         if fast.severityHint.Present? then fast.severityHint.value else "LOW")
    ensures !fast.FastObject? || fast.route.WrongType? || fast.severityHint.WrongType?
            || fast.confidence.WrongType? ==>
              && Triaged(e, score, fast, heavy).m.tier == NextTier(e.m.tier, score)
              && FinalTier(e, score, fast, heavy) == Higher(NextTier(e.m.tier, score), Suggested(fast, heavy))
              && (Suggested(fast, heavy) == LOW || HintOnly(fast, "MEDIUM") || HintOnly(fast, "HIGH")
                  || HintOnly(fast, "CRITICAL"))
              && (HintOnly(fast, "MEDIUM") ==> Suggested(fast, heavy) == MEDIUM)
              && (HintOnly(fast, "HIGH") ==> Suggested(fast, heavy) == HIGH)
              && (HintOnly(fast, "CRITICAL") ==> Suggested(fast, heavy) == CRITICAL)
  {
    SuggestionOvershoots(e, score, fast, heavy);
  }

  /** A fast reply that broke off after its severity hint: the confidence field threw. */
  predicate HintOnly(fast: FastReply, hint: string) {
    && fast.FastObject?
    && !fast.route.WrongType?
    && fast.severityHint == Present(hint)
    && fast.confidence.WrongType?
  }

  /** The verdict can be CRITICAL with the lock open.  That happens exactly when no reply
      parsed, the fast reply broke off after the hint "CRITICAL", the lock was open, and the
      raw score alone does not make the engine CRITICAL. */
  lemma CriticalVerdictUnlocked(e: Engine, score: int, fast: FastReply, heavy: HeavyReply)
    ensures FinalTier(e, score, fast, heavy) == CRITICAL && !Triaged(e, score, fast, heavy).m.lock.locked
       <==> && HintOnly(fast, "CRITICAL")
            && !ParseHeavy(heavy).parseOk
            && !e.m.lock.locked
            && NextTier(e.m.tier, score) != CRITICAL
  {
    TriageFloor(e, score, fast, heavy);
    if Usable(fast, heavy) {
    } else {
      assert EngineScore(score, fast, heavy) == score;
      assert Triaged(e, score, fast, heavy).m.tier == NextTier(e.m.tier, score);
      UnparsedHint(fast, "CRITICAL");
    }
  }

  lemma UnparsedHint(fast: FastReply, hint: string)
    requires hint != "LOW" && !ParseFast(fast).parseOk
    ensures ParseFast(fast).severityHint == hint <==> HintOnly(fast, hint)
  {
  }

  /** The verdict is the engine's tier exactly when a reply parsed or the left-over hint does
      not exceed the tier the raw score gives. */
  lemma VerdictIsEngineTier(e: Engine, score: int, fast: FastReply, heavy: HeavyReply)
    ensures FinalTier(e, score, fast, heavy) == Triaged(e, score, fast, heavy).m.tier
       <==> || Usable(fast, heavy)
            || Rank(SeverityToTier(ParseFast(fast).severityHint)) <= Rank(NextTier(e.m.tier, score))
  {
    TriageFloor(e, score, fast, heavy);
  }

  /** Such a verdict at start-up: nothing parsed, the fast reply broke off after its hint, and the
      verdict is CRITICAL while engine and lock are where the raw score leaves them. */
  lemma BrokenOffReply(score: int)
    requires score < 75
    ensures var fast := FastObject(Absent, Present("CRITICAL"), WrongType);
            && FinalTier(INITIAL, score, fast, NoHeavy) == CRITICAL
            && Triaged(INITIAL, score, fast, NoHeavy).m.tier == Band(score)
            && !Triaged(INITIAL, score, fast, NoHeavy).m.lock.locked
  {
    CriticalVerdictUnlocked(INITIAL, score, FastObject(Absent, Present("CRITICAL"), WrongType), NoHeavy);
  }

  /** A confident, complete fast reply that does not escalate settles triage: the heavy model
      has no influence. */
  lemma HeavyIgnored(e: Engine, score: int, fast: FastReply, heavy: HeavyReply, heavy': HeavyReply)
    requires !CallsHeavy(ParseFast(fast))
    ensures Triaged(e, score, fast, heavy) == Triaged(e, score, fast, heavy')
    ensures FinalTier(e, score, fast, heavy) == FinalTier(e, score, fast, heavy')
  {
  }

  // ---- Implementation ----------------------------------------------------------------

  datatype TriageResult =
    TriageResult(fast: FastResult, heavy: HeavyResult, modelSuggestedTier: Tier, finalTier: Tier, overrode: bool)

  class AiTriage {
    const engine: RuleEngine

    constructor (engine: RuleEngine)
      ensures this.engine == engine
    {
      this.engine := engine;
    }

    method Triage(score: int, fastReply: FastReply, heavyReply: HeavyReply) returns (r: TriageResult)
      modifies engine, engine.tsm, engine.tsm.worm, engine.tsm.worm.log
      ensures engine.Model() == Triaged(old(engine.Model()), score, fastReply, heavyReply)
      ensures r.fast == ParseFast(fastReply) && r.heavy == HeavyOf(fastReply, heavyReply)
      ensures r.modelSuggestedTier == Suggested(fastReply, heavyReply)
      ensures r.finalTier == FinalTier(old(engine.Model()), score, fastReply, heavyReply)
      ensures r.overrode <==> r.finalTier != r.modelSuggestedTier
      ensures Rank(r.finalTier) >= Rank(Band(score))
      ensures Usable(fastReply, heavyReply) && r.finalTier == CRITICAL ==> engine.tsm.worm.locked
    {
      ghost var before := engine.Model();
      var fast := ParseFast(fastReply);
      var heavy := NotRun;
      if fast.route == "escalate" || fast.confidence < ESCALATE_CONFIDENCE_THRESHOLD || !fast.parseOk {
        heavy := ParseHeavy(heavyReply);
      }
      var severity := if heavy.HeavyResult? && heavy.parseOk then heavy.severity else fast.severityHint;
      var suggested := SeverityToTier(severity);
      var advisory := TierToScore(suggested);
      var usable := fast.parseOk || (heavy.HeavyResult? && heavy.parseOk);
      var engineScore := if !usable || score > advisory then score else advisory;
      assert suggested == Suggested(fastReply, heavyReply);
      assert engineScore == EngineScore(score, fastReply, heavyReply);
      var _ := engine.EvaluateThreatScore(engineScore);
      var engineTier := engine.tsm.currentTier;
      var finalTier := if Rank(engineTier) >= Rank(suggested) then engineTier else suggested;
      engine.tsm.worm.log.Add(EventLog.AiTriage);
      TriageFloor(before, score, fastReply, heavyReply);
      return TriageResult(fast, heavy, suggested, finalTier, finalTier != suggested);
    }
  }
}
