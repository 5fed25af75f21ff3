# Verified model of the Astartis SOC safety core

A Dafny model of the control logic of the Astartis security operations centre: the threat state
machine and the rule engine that drives it, the AI triage layer, the WORM lock and the multi-party
protocol that lifts it, the tamper-evident audit chain, the sandbox and its path guard, the event bus
and the agent worker pool, the firewall block list, the chaos statistics, and the clamd framing.

Each component is one module. A component that changes its fields is a class with those fields; every
method is tied to a step function on values, and the theorems are about runs of the step functions.

| file | module | models |
|---|---|---|
| `containment.dfy` | `Containment` | the system as the bridge wires it: engine, triage, protocol and sandbox over one lock |
| `unlock_protocol.dfy` | `Unlock` | registration, sessions, challenges, votes, quorum, replay |
| `unlock_quorums.dfy` | `Quorums` | which teams can unlock |
| `rule_engine.dfy` | `Rules` | RULE-01 to RULE-05, ledgers over runs of single evaluations |
| `overlapping_rules.dfy` | `Overlap` | rule evaluations interleaved on any number of threads |
| `threat_level.dfy` | `Threat` | tiers, hysteresis, transitions |
| `ai_triage.dfy` | `Ai` | untrusted replies to a score and a verdict, one triage at a time |
| `triage_threads.dfy` | `TriageThreads` | triage while other threads change tier and lock |
| `worm_lock.dfy`, `event_log.dfy` | `Worm`, `EventLog` | the lock; the audit callback (entry kinds only) |
| `audit_chain.dfy` | `Audit` | the hash chain, verification, tampering |
| `access_token.dfy`, `crypto_identity.dfy`, `big_endian.dfy` | `Access`, `Crypto`, `BigEndian` | tokens, signed messages, byte encodings |
| `sandbox.dfy` | `Sandbox` | path guard, keys, entries |
| `event_bus.dfy` | `Events` | publishers, worker, notifications and destructor interleaved |
| `agent_controller.dfy` | `Agents` | a priority queue, any number of workers and stop() interleaved |
| `firewall_blocker.dfy` | `Firewall` | allowlist, blocks, expiry |
| `chaos_detector.dfy`, `real_algebra.dfy` | `Chaos`, `RealAlgebra` | the 0-1 test over the reals, windows |
| `clamd_scanner.dfy` | `Clamd` | INSTREAM framing over partial sends |

## Main results

1. In every run of the composed system, with arbitrary model replies and any interleaving of signals,
   rule evaluations on any number of threads, votes and writes, the lock is lifted only by a vote completing a quorum of the current session
   (`Containment.LockLiftedOnlyByQuorum`); the system is CRITICAL with the lock open only right after
   that (`UnlockedCriticalFollowsQuorum`); and a sandbox file with no write under way changes after a
   lockdown only if a quorum lifted the lock in between (`ChangeNeedsQuorum`).
2. The audit chain's head hash binds the whole history of hashed texts, and nothing finer; verification finds
   exactly the edits that change a link or a hashed text (`Audit.EditsSeen`), so every edit of one field.
3. Scores within a span of ten cause at most two tier transitions, and a span of eleven is unbounded.
4. The event bus and the agent pool handle each item exactly once under every interleaving. The bus
   loses no wakeup and its destructor can always return; the pool's stop() can miss a worker, and the
   moment in which it does is stated exactly.
5. The path guard contains what it accepts, and what it rejects is characterised exactly for every root.

## Where the code differs from its own description

The model follows the code. Each difference is proved, with the exact condition where the code does meet
the description.

- The unlock is described as a vote across both sides (README.md line 136 of the repository, which also
  says 3 of 5 with RSA; the code has a threshold of 3 by default and ECDSA). No check looks at the side.
  Every granting run spans both sides exactly when each side alone has fewer approvers than the threshold
  (`Quorums.BothSidesIff`; `Quorums.QuorumSpans` for every run, `Quorums.OneSideLifts` for the converse).
- De-escalation is documented to need a score a full tier-band below the tier's lower bound. The code asks
  for more than 10 points; the two disagree exactly between 25 and 10 points below (`Threat.DocumentedIff`).
- `stop()` is documented to drain the queue. It is certain to exactly when no more tasks are queued than
  workers are in the wait (`Agents.AlwaysDrainsIff`) and nothing is submitted after running_ is cleared:
  every later submission leaves one task more (`Agents.StopDrainsIff`), and from every stopped pool one
  can be left behind (`Agents.SubmissionStrands`).
- `stop()` clears running_ without the mutex of the wait, so its join need not return. Short of a spurious
  wakeup or a further submission it can return exactly when no worker is between its test and its sleep
  at the notification (`Agents.StopReturnsIff`, with a run in `Agents.StopCanHang`); if so it does return
  under every schedule (`Agents.StopReturns`). The event bus sets its flag under the mutex and has no such
  case (`Events.NoLostWakeup`, `Events.DestructorReturns`).
- `is_inside` is documented as "if and only if". `Sandbox.GuardExact` states for every root exactly which
  paths it accepts; under the root "/" it rejects nearly all files inside (`Sandbox.RootSlashAccepts`).
- RULE-05 is described as an escalation to MEDIUM; it lowers a HIGH or CRITICAL tier
  (`Rules.ChaosWindowTier`, an if-and-only-if).
- RULE-01, RULE-03 and triage are documented to end CRITICAL with the lock engaged, also when called
  concurrently. Uninterrupted they do. Otherwise an evaluation guarantees an engaged lock if and only if its
  read of the tier finds CRITICAL or the lock is engaged at that moment (`Overlap.GuardsIffCriticalFound`),
  which fails only if another thread lowers the tier first (`Overlap.EngagesUnlessLowered`);
  `Overlap.AnomalousEndsOpen` is an anomalous window that ends MEDIUM with the lock open.
- The rule engine is to have final authority over a verdict. For a triage that nobody interrupts,
  `Ai.VerdictIsEngineTier` and `Ai.CriticalVerdictUnlocked` say exactly when the verdict is above the
  engine's tier, and when it is CRITICAL with the lock open: a fast reply that breaks off after its severity
  hint is not overruled (`Ai.BrokenOffReply`). triage() reads the tier after the evaluation, so other threads
  can lower it in between: without that the same holds of every run (`TriageThreads.UnlessLowered`). With it,
  verdict and tier read agree in every run exactly when the suggestion is LOW (`AlwaysTierReadIff`), the
  raw score's band is a floor in every run exactly when the suggestion reaches it (`AlwaysFloorIff`), and a
  CRITICAL verdict has the lock engaged during triage in every run exactly when the models do not suggest
  CRITICAL, the lock is engaged already, or the score makes the tier CRITICAL (`AlwaysEngagedIff`).
  `TriageThreads.ParsedCriticalUnlocked` is a run with a parsed reply, engine at MEDIUM and lock open.
- MEDIUM and HIGH suggestions are turned into scores that fall in the next band up; `Ai.OvershootIff` says
  exactly when the engine of an uninterrupted triage ends above both the raw score's tier and the suggestion.
- "At most one belt trigger per unlock" holds exactly for evaluations on one thread: a bound of n per
  unlock holds if and only if there are at most n threads (`Overlap.BeltBoundIff`).
- A sandbox write is judged by the lock at its check: if the lock is engaged before it commits it lands
  exactly when the check allowed it (`Containment.CheckedWriteLands`); `LockFreezesFile` bounds how many.
- The agents' counters restart when a persona is loaded again (`Agents.CountersAreExact`).
- The hashed fields of an audit entry have no separators, so text can move between fields without
  changing the hash (`Audit.FieldsAreNotBound`): two histories have the same head exactly when their
  concatenated texts and stored hashes agree (`Audit.HeadBindsHistory`). Likewise name and challenge in a
  signed message (`Crypto.BoundaryIsNotSigned`), which a fixed challenge length rules out
  (`Crypto.MessageInjective`, an if-and-only-if).
- `to_rel` gives the root and the root followed by "/." the same key (`Sandbox.KeyInjective`).

## Assumptions

- SHA-256 is any function to strings of length 64. Collision-freeness is required only of the texts that
  occur: no function into 64 characters is injective on all strings.
- Signature verification is an arbitrary predicate, the random source an input.
- sqrt is any function with `sqrt(v) >= 0` and `sqrt(v)^2 == v` for `v >= 0`; sin and cos are
  arbitrary, except that `Chaos.ConstantSeries` assumes their addition formulas and sin^2 + cos^2 == 1.
- Clocks are inputs and need not be monotone. Counters are unbounded integers.

## Model

| member | source | states |
|---|---|---|
| `Containment.LockLiftedOnlyByQuorum` | bridge/astartis_bridge.cpp:1364-1388 | in every run of the wired system, an input that turns the lock from engaged to open is a vote completing exactly `threshold` valid ballots of different approvers since the session opened |
| `Containment.ViewIsRun` | bridge/astartis_bridge.cpp:1288-1388 | every run of the system, seen from the unlock protocol, is a run of the protocol: everything else neither lifts the lock nor records a grant |
| `Containment.PartsStep` | bridge/astartis_bridge.cpp:1288-1388 | each input of the system is a step of the component it concerns, as that component takes it by itself, and leaves the others alone; they share the lock and its log |
| `Containment.UnlockedCriticalFollowsQuorum` | core/rule_engine/rule_engine.cpp:47-61 | under every interleaving of evaluations CRITICAL with an open lock occurs only after a quorum lifted it, with the tier CRITICAL ever since, no manual lock, and no evaluation past its two reads |
| `Containment.NoScoreCompletes` | core/rule_engine/rule_engine.cpp:120-150 | while the system stays CRITICAL with its lock open, no evaluation of a threat score begun after the lift gets out of its belt |
| `Containment.EngagementsPerGrant` | core/worm_lock/worm_lock.cpp:18-56 | over every system run the lock is engaged at most once more often than worm_unlock_ was called, and the belts counted are at most the evaluating threads times the calls |
| `Containment.LockFreezesFile` | core/sandbox/sandbox.cpp:273-333 | while the lock stays engaged a file is rewritten at most once per write that had already passed the check, and not at all if there was none |
| `Containment.ChangeNeedsQuorum` | core/sandbox/sandbox.cpp:287-318 | a file with no checked write under way when the lock is engaged differs later only if a quorum lifted the lock in between |
| `Containment.WriteIsCheckThenCommit` | core/sandbox/sandbox.cpp:277-318 | check and commit back to back are the atomic write of the store |
| `Containment.CheckedWriteLands` | core/sandbox/sandbox.cpp:287-318 | with the lock engaged between check and commit, the write lands exactly when the lock seen at the check allowed it |
| `Containment.TriageAlone` | core/ai_triage/ai_triage.cpp:373-406 | triage without interruption, step by step, is the triage step as a whole |
| `Quorums.QuorumSuffices` | core/unlock_protocol/unlock_protocol.cpp:63-154 | any able approvers who complete the threshold have a sequence of calls that grants the session and opens the lock, with exactly them as voters |
| `Quorums.OneVote` | core/unlock_protocol/unlock_protocol.cpp:79-154 | one challenge and one signed vote of an able approver add exactly that approver to the voters |
| `Quorums.BothSidesIff` | core/unlock_protocol/unlock_protocol.cpp:134-149 | with able approvers, every run without further registrations that grants the session has voters of both sides if and only if each side has fewer approvers than the threshold |
| `Quorums.QuorumSpans` | core/unlock_protocol/unlock_protocol.cpp:79-154 | in every run a quorum has ballots of both sides if each side has fewer approvers than the threshold |
| `Quorums.OneSideLifts` | core/unlock_protocol/unlock_protocol.cpp:63-154 | a side with enough able approvers has a run that grants the session and opens the lock with its votes alone |
| `Unlock.UnlockNeedsQuorum` | core/unlock_protocol/unlock_protocol.cpp:79-154 | in every run worm_unlock_ is called only with exactly `threshold` different approvers, each with a valid ballot cast since the session was opened |
| `Unlock.AcceptedIffValid` | core/unlock_protocol/unlock_protocol.cpp:96-129 | cast_vote accepts exactly: session open, registered, not voted, token existing, live and of the voting scope, own pending challenge, verifying signature |
| `Unlock.OnlyQuorumLifts` | core/unlock_protocol/unlock_protocol.cpp:129-151 | the call happens exactly on the valid ballot that reaches the threshold, and no other event opens an engaged lock |
| `Unlock.CastIsOneStep` | core/unlock_protocol/unlock_protocol.cpp:112-151 | token and lock activity between a vote's check and its effect can be moved after and before it |
| `Unlock.LiftNeedsQuorum` | core/unlock_protocol/unlock_protocol.cpp:143-149 | an event that finds the lock engaged and leaves it open completes a quorum |
| `Unlock.BallotsOfSession` | core/unlock_protocol/unlock_protocol.cpp:48-57 | while collecting, the standing votes correspond one to one to valid ballots cast since the session opened |
| `Unlock.CountedAlways` | core/unlock_protocol/unlock_protocol.cpp:33-57 | in every run votes_ and approvers_ have the same keys; no votes when IDLE, fewer than threshold when COLLECTING, exactly threshold when GRANTED |
| `Unlock.OneUnlockPerSession` | core/unlock_protocol/unlock_protocol.cpp:143-151 | sessions opened equal unlock calls plus the session still collecting; each call has its audit entry |
| `Unlock.NoReplay` | core/unlock_protocol/unlock_protocol.cpp:117-131 | if challenges never repeat, a challenge accepted once is rejected at every later cast_vote, for any approver and session |
| `Unlock.PendingSince` | core/unlock_protocol/unlock_protocol.cpp:63-73 | a pending challenge was generated for that approver after the last session was opened, and has been pending ever since |
| `Unlock.SessionStartsClean` | core/unlock_protocol/unlock_protocol.cpp:48-57 | a new session has no votes and no challenges: nobody is accepted, or gets past the search for a challenge, before a new one is fetched |
| `Unlock.BallotIsFresh` | core/unlock_protocol/unlock_protocol.cpp:63-131 | every ballot of a quorum answers a challenge generated for its approver after the session was opened |
| `Unlock.EarlierSessionRejected` | core/unlock_protocol/unlock_protocol.cpp:48-131 | if challenges never repeat, a request signed over one from an earlier session is rejected, used or not |
| `Unlock.ReasonIff` | core/unlock_protocol/unlock_protocol.cpp:96-127 | each reason for a rejection, as an if-and-only-if over session, approver, votes, token, challenge and signature |
| `Unlock.RejectionOnlyAudits` | core/unlock_protocol/unlock_protocol.cpp:86-94 | a rejected vote leaves its audit entry, after the token denial if that was the reason, and changes nothing else |
| `Unlock.AcceptedEffect` | core/unlock_protocol/unlock_protocol.cpp:129-153 | an accepted vote adds its voter and consumes its challenge; reaching the threshold grants the session and opens the lock, with the audit entries in their order |
| `Unlock.RegisterEffect` | core/unlock_protocol/unlock_protocol.cpp:33-42 | registration adds one approver without a vote and leaves known names, other votes and challenges alone |
| `Unlock.BeginEffect` | core/unlock_protocol/unlock_protocol.cpp:48-57 | opening withdraws every vote and challenge and keeps the approvers; an open session is left as it was |
| `Unlock.IssueEffect` | core/unlock_protocol/unlock_protocol.cpp:63-73 | exactly a registered approver without a challenge gets the new one; pending ones stay |
| `Unlock.OutsideEffect` | core/unlock_protocol/unlock_protocol.cpp:17-27 | tokens and lock change without the protocol, and the protocol without them |
| `Unlock.RunExists` | core/unlock_protocol/unlock_protocol.cpp:17-27 | every event sequence has a run from every start |
| `Unlock.UnlockProtocol.constructor` | core/unlock_protocol/unlock_protocol.cpp:17-27 | a non-positive threshold becomes the demo threshold; the protocol starts idle and empty |
| `Unlock.UnlockProtocol.RegisterApprover` | core/unlock_protocol/unlock_protocol.cpp:33-42 | performs the registration step; a known name is left as it was |
| `Unlock.UnlockProtocol.BeginSession` | core/unlock_protocol/unlock_protocol.cpp:48-57 | performs the opening step: every vote and challenge is cleared unless a session is already open |
| `Unlock.UnlockProtocol.GetChallenge` | core/unlock_protocol/unlock_protocol.cpp:63-73 | returns the pending challenge, generating one only when none is pending; nothing for unknown names |
| `Unlock.UnlockProtocol.CheckVote` | core/unlock_protocol/unlock_protocol.cpp:96-127 | returns the first failing check in the protocol's order, auditing only a token denial |
| `Unlock.UnlockProtocol.CastVote` | core/unlock_protocol/unlock_protocol.cpp:79-154 | performs the cast step, reports reason, count and unlock, and keeps the vote-count invariant |
| `Unlock.UnlockProtocol.AcceptVote` | core/unlock_protocol/unlock_protocol.cpp:129-153 | the vote is recorded, the challenge consumed, and at the threshold the session granted and the lock opened |
| `Unlock.UnlockProtocol.RejectVote` | core/unlock_protocol/unlock_protocol.cpp:86-94 | a rejection changes nothing but the audit log and reports the standing count |
| `Unlock.UnlockProtocol.VotesCollected` | core/unlock_protocol/unlock_protocol.cpp:185-191 | the loop counts exactly the voters |
| `Rules.CriticalLockStep` | core/rule_engine/rule_engine.cpp:47-61 | one evaluation at a time: exactly which steps break, keep or restore "CRITICAL implies locked"; only an unlock opens the lock |
| `Rules.ThreatScoreFloor` | core/rule_engine/rule_engine.cpp:120-150 | uninterrupted, a threat score never leaves the engine below its band, and a CRITICAL one locks |
| `Rules.AuthLadder` | core/rule_engine/rule_engine.cpp:156-204 | up to four failures change nothing, five to nine force HIGH without touching the lock, ten and more force CRITICAL with it engaged; counters and audit entries in each case |
| `Rules.PacketWindowEffect` | core/rule_engine/rule_engine.cpp:67-114 | tier, lock, counters and audit entries after RULE-01 |
| `Rules.ThreatScoreEffect` | core/rule_engine/rule_engine.cpp:120-150 | tier, lock, counters and audit entries after RULE-02, and when it counts as fired |
| `Rules.ChaosWindowEffect` | core/rule_engine/rule_engine.cpp:210-256 | up to 0.7 the count restarts, the first window above is only counted, every later one forces MEDIUM; counters and audit entries |
| `Rules.BeltIff` | core/rule_engine/rule_engine.cpp:47-61 | the belt acts exactly on CRITICAL with an open lock, engaging and auditing it |
| `Rules.OtherEffects` | core/threat_level/threat_level.cpp:85-170 | signals, forced tiers and lock operations from outside the engine leave its counters alone |
| `Rules.LedgersOverRuns` | core/rule_engine/rule_engine.cpp:67-256 | over every run of evaluations one at a time from start-up: lockdowns minus unlocks is 1 exactly when locked, belts at most the unlocks, every transition and belt audited, rule entries at most total_fires |
| `Rules.NoUnlockNoBelt` | core/rule_engine/rule_engine.cpp:47-61 | in a run without unlock CRITICAL always implies locked and the belt never fires |
| `Rules.SustainedChaosForcesMedium` | core/rule_engine/rule_engine.cpp:210-256 | after n consecutive high windows RULE-05 has fired n - 1 times, the tier is MEDIUM from the second on, the lock untouched |
| `Rules.ChaosWindowTier` | core/rule_engine/rule_engine.cpp:226-230 | RULE-05 lowers the tier exactly on a sustained high window in HIGH or CRITICAL |
| `Rules.RuleEngine.ApplyRule04Belt` | core/rule_engine/rule_engine.cpp:47-61 | acts exactly when CRITICAL is unlocked, and leaves CRITICAL locked |
| `Rules.RuleEngine.EvaluatePacketWindow` | core/rule_engine/rule_engine.cpp:67-114 | performs RULE-01: uninterrupted, an anomalous window ends CRITICAL and locked |
| `Rules.RuleEngine.EvaluateThreatScore` | core/rule_engine/rule_engine.cpp:120-150 | performs RULE-02: uninterrupted, CRITICAL implies locked afterwards; fires exactly on a tier change or a belt |
| `Rules.RuleEngine.EvaluateAuthFailures` | core/rule_engine/rule_engine.cpp:156-204 | performs RULE-03: HIGH from five failures; uninterrupted, CRITICAL and locked from ten |
| `Rules.RuleEngine.EvaluateChaosWindow` | core/rule_engine/rule_engine.cpp:210-256 | performs RULE-05: fires exactly on the second and later consecutive high window, never touching the lock |
| `Overlap.BeltsPerUnlock` | core/rule_engine/rule_engine.cpp:47-204 | over every interleaving on n threads: the counters agree with the audit log, and worm_trigger_count is at most n times the successful unlocks |
| `Overlap.RaceInvStep` | core/rule_engine/rule_engine.cpp:49-55 | each critical section of an evaluation, and any other activity, keeps the accounts and the bound on passes |
| `Overlap.BoundReached` | core/rule_engine/rule_engine.cpp:49-55 | for every n and u a run with exactly u unlocks and n times u counted belts |
| `Overlap.BeltBoundIff` | core/rule_engine/rule_engine.cpp:49-55 | belts stay within c per unlock in every run if and only if there are at most c threads |
| `Overlap.ScoreAlone` | core/rule_engine/rule_engine.cpp:120-150 | begin, read the tier, read the lock, engage, count, end: the steps of RULE-02 without interruption have exactly the effect of the whole evaluation |
| `Overlap.PacketAlone` | core/rule_engine/rule_engine.cpp:67-114 | the same for RULE-01 |
| `Overlap.AuthAlone` | core/rule_engine/rule_engine.cpp:156-204 | the same for RULE-03 |
| `Overlap.ElsewhereIsStep` | core/rule_engine/rule_engine.cpp:47-204 | what other threads do is a step of the engine by itself, and a thread's step moves no other thread |
| `Overlap.QuietAct` | core/rule_engine/rule_engine.cpp:47-204 | no step of an evaluation opens the lock, records a lift or a grant, or breaks CRITICAL-implies-locked |
| `Overlap.BeltLeftLocked` | core/rule_engine/rule_engine.cpp:47-61 | under every interleaving: once an evaluation has left its belt, the lock was engaged since it entered it, or the tier is not CRITICAL |
| `Overlap.EngagesUnlessLowered` | core/rule_engine/rule_engine.cpp:67-204 | an evaluation that made the tier CRITICAL has the lock engaged when it leaves the belt, unless the tier was lowered meanwhile |
| `Overlap.GuardsIffCriticalFound` | core/rule_engine/rule_engine.cpp:49-49 | an evaluation guarantees an engaged lock in every continuation if and only if its tier read finds CRITICAL or the lock is engaged then |
| `Overlap.AnomalousEndsOpen` | core/rule_engine/rule_engine.cpp:67-114 | a run in which an anomalous window is evaluated completely and the system ends MEDIUM with the lock open |
| `Threat.BoundedChatter` | core/threat_level/threat_level.cpp:122-155 | any number of scores within a span of 10 makes at most two transitions from any tier |
| `Threat.ElevenIsUnbounded` | core/threat_level/threat_level.cpp:122-155 | within a span of 11, n scores can make n transitions |
| `Threat.Hysteresis` | core/threat_level/threat_level.cpp:122-155 | never below the band of the score; left exactly upwards or when more than 10 below the threshold |
| `Threat.TierByScore` | core/threat_level/threat_level.cpp:122-155 | the next tier by the numbers: bands from 25, 50 and 75; MEDIUM, HIGH and CRITICAL are kept down to 15, 40 and 65 |
| `Threat.MovesByScore` | core/threat_level/threat_level.cpp:85-116 | a change of tier is counted and audited once, and entering CRITICAL engages the lock, with an entry of its own if it was open |
| `Threat.DocumentedIff` | core/threat_level/threat_level.h:70-73 | code and documented de-escalation disagree exactly for scores between 25 and 10 points below the tier's lower bound, such as 39 in HIGH |
| `Threat.NextTierMonotone` | core/threat_level/threat_level.cpp:122-155 | from one tier, a larger score never gives a lower tier |
| `Threat.TransitionsKeepLock` | core/threat_level/threat_level.cpp:85-116 | a transition never opens the lock and keeps its ledger; CRITICAL-implies-locked holds after exactly when it held before or the tier is no longer CRITICAL |
| `Threat.ThreatStateMachine.DoTransition` | core/threat_level/threat_level.cpp:85-116 | tier, count, audit entry and lock after a transition |
| `Threat.ThreatStateMachine.ObserveSignal` | core/threat_level/threat_level.cpp:122-155 | performs the observation step and never ends below the band of the score |
| `Threat.ThreatStateMachine.ForceTier` | core/threat_level/threat_level.cpp:161-170 | ends in the forced tier, reporting whether it changed |
| `Ai.TriageFloor` | core/ai_triage/ai_triage.cpp:347-384 | for an uninterrupted triage and all replies the verdict is at least the suggestion and at least the band of the raw score; with a parsed reply it is the engine's tier and CRITICAL is locked |
| `Ai.ModelCannotLower` | core/ai_triage/ai_triage.cpp:360-374 | uninterrupted, no replies leave the engine below what the raw score alone would give, or unlock it |
| `Ai.CriticalVerdictUnlocked` | core/ai_triage/ai_triage.cpp:209-216 | for an uninterrupted triage a CRITICAL verdict with an open lock happens exactly when nothing parsed, the fast reply broke off after the hint CRITICAL, the lock was open and the raw score does not reach CRITICAL |
| `Ai.VerdictIsEngineTier` | core/ai_triage/ai_triage.cpp:376-384 | for an uninterrupted triage the verdict is the engine's tier exactly when a reply parsed or the left-over hint is not above it |
| `Ai.OvershootIff` | core/ai_triage/ai_triage.cpp:262-270 | uninterrupted, the engine ends above both the raw score's tier and the suggestion exactly when a usable reply suggests MEDIUM or HIGH and the raw score gives no more than that |
| `Ai.SuggestionOvershoots` | core/ai_triage/ai_triage.cpp:360-374 | the engine's tier after an uninterrupted triage in every case: the raw tier, the higher of raw and suggestion, or one above the suggestion |
| `Ai.BrokenOffReply` | core/ai_triage/ai_triage.cpp:209-216 | a concrete reply for which the verdict is CRITICAL with the lock open |
| `Ai.HeavyIgnored` | core/ai_triage/ai_triage.cpp:331-345 | a confident complete fast reply makes the outcome independent of the heavy model |
| `Ai.FastByText` | core/ai_triage/ai_triage.cpp:314-384 | a complete fast reply of confidence 0.7 or more that does not escalate: suggestion, engine tier, verdict and lock by the text of its severity hint |
| `Ai.HeavyAskedIff` | core/ai_triage/ai_triage.cpp:331-345 | the heavy model is asked exactly when the fast reply is missing, incomplete, escalates, or has a confidence below 0.7 |
| `Ai.HeavyByText` | core/ai_triage/ai_triage.cpp:336-384 | a readable heavy reply: suggestion, engine tier, verdict and lock by the text of its severity |
| `Ai.UnreadHeavy` | core/ai_triage/ai_triage.cpp:347-384 | if the heavy reply cannot be read a readable fast one decides; if neither can, the engine follows the raw score and the verdict a left-over hint |
| `Ai.FastFieldsRead` | core/ai_triage/ai_triage.cpp:190-219 | which fields of a fast reply are kept when a later one has the wrong type, and the defaults of missing ones |
| `Ai.HeavyFieldsRead` | core/ai_triage/ai_triage.cpp:221-248 | the same for a heavy reply |
| `Ai.TriageEffect` | core/ai_triage/ai_triage.cpp:358-409 | an uninterrupted triage is one evaluation and one audit entry after it; the score handed over is the raw one or 90, 76, 50 or 10 for the suggestion, whichever is larger |
| `Ai.AiTriage.Triage` | core/ai_triage/ai_triage.cpp:314-409 | engine state, both parsed replies, suggestion, verdict and override flag after an uninterrupted triage, for every pair of replies |
| `TriageThreads.CriticalReadEngaged` | core/ai_triage/ai_triage.cpp:373-383 | under every interleaving, if triage reads CRITICAL the lock was engaged during it |
| `TriageThreads.UnlessLowered` | core/ai_triage/ai_triage.cpp:373-384 | in every run in which nobody lowers the tier before the read: the floor, when the verdict is the tier read, and when it is CRITICAL with the lock open throughout |
| `TriageThreads.AlwaysTierReadIff` | core/ai_triage/ai_triage.cpp:380-383 | the verdict is the tier read in every run if and only if the suggestion is LOW |
| `TriageThreads.AlwaysFloorIff` | core/ai_triage/ai_triage.cpp:373-383 | the verdict reaches the band of the raw score in every run if and only if the suggestion does |
| `TriageThreads.AlwaysEngagedIff` | core/ai_triage/ai_triage.cpp:373-383 | a CRITICAL verdict has the lock engaged during triage in every run if and only if CRITICAL is not suggested, the lock is engaged, or the score makes the tier CRITICAL |
| `TriageThreads.ParsedCriticalUnlocked` | core/ai_triage/ai_triage.cpp:373-383 | a run with a parsed CRITICAL reply, verdict CRITICAL, engine at MEDIUM and the lock open |
| `Worm.WormLock.TriggerLockdown` | core/worm_lock/worm_lock.cpp:18-36 | ends locked, counting and auditing exactly a change |
| `Worm.WormLock.Unlock` | core/worm_lock/worm_lock.cpp:38-56 | ends open, auditing exactly a change |
| `Audit.HeadBindsHistory` | core/audit_chain/audit_chain.cpp:40-152 | two accepted chains without hash collisions have the same head exactly when they have the same length, stored hashes and hashed texts at every index |
| `Audit.FieldsAreNotBound` | core/audit_chain/audit_chain.cpp:129-138 | two accepted chains with the same head but different event types, under any hash |
| `Audit.AppendAccepted` | core/audit_chain/audit_chain.cpp:15-38 | adding an entry keeps an accepted chain accepted |
| `Audit.HonestAccepted` | core/audit_chain/audit_chain.cpp:15-38 | chains built by add_entry alone are accepted |
| `Audit.OnlyPayloadsDiffer` | core/audit_chain/audit_chain.cpp:164-174 | after any run with overwrites, the chain differs from the honest one in payloads only |
| `Audit.TamperingLocated` | core/audit_chain/audit_chain.cpp:62-91 | after any run in which at most one hashed field of an entry was changed, that entry fails verification exactly when the field is not what it was added with |
| `Audit.LeastTamperedReported` | core/audit_chain/audit_chain.cpp:40-95 | after any run in which at most one hashed field of each entry was changed, the chain is accepted exactly when nothing differs; otherwise the reported index is the first changed entry |
| `Audit.EditsSeen` | core/audit_chain/audit_chain.cpp:62-91 | after any run of additions and edits of any fields, exactly the entries whose link or hashed text is not the original one are bad, and the chain is accepted exactly when there are none |
| `Audit.HashedInOrder` | core/audit_chain/audit_chain.cpp:129-138 | the hashed text is id, decimal timestamp, event type, payload and previous hash, in this order |
| `Audit.DecimalRead` | core/audit_chain/audit_chain.cpp:132-133 | the hashed timestamp reads back as the number, so it is injective |
| `Audit.FieldInPreimage` | core/audit_chain/audit_chain.cpp:129-138 | changing any one hashed field, the others left alone, changes the hashed text |
| `Audit.StoredHashesKept` | core/audit_chain/audit_chain.cpp:164-174 | no run of edits changes a stored hash: they are those of the honest chain |
| `Audit.AcceptedIffSealed` | core/audit_chain/audit_chain.cpp:40-95 | accepted chains are those in which every entry rehashes and carries the stored hash before it, the first 64 zeros |
| `Audit.ReportSays` | core/audit_chain/audit_chain.cpp:52-91 | which fault a report names, and its expected and actual values |
| `Audit.ReportBad` | core/audit_chain/audit_chain.cpp:52-91 | a report names two different hashes exactly for a bad entry |
| `Audit.AuditChain.AddEntry` | core/audit_chain/audit_chain.cpp:15-38 | appends one entry with the given fields, linked to the head and hashed, and keeps acceptance |
| `Audit.AuditChain.VerifyChain` | core/audit_chain/audit_chain.cpp:40-95 | valid exactly for accepted chains; otherwise the least bad index with finding, expected and actual hash |
| `Audit.AuditChain.GetChainHeadHash` | core/audit_chain/audit_chain.cpp:119-127 | the last stored hash, or genesis |
| `Audit.AuditChain.TamperEntryForTesting` | core/audit_chain/audit_chain.cpp:164-174 | replaces one payload and nothing else |
| `Access.AccessIffLiveScope` | core/access_token/access_token.cpp:112-166 | access is granted exactly to live tokens of the required scope |
| `Access.RevocationIsFinal` | core/access_token/access_token.cpp:83-106 | a revoked id is denied ever after, whatever else is granted or revoked |
| `Access.DenialReason` | core/access_token/access_token.cpp:112-166 | each reason for a denial, by the state of the token |
| `Access.TokenLife` | core/access_token/access_token.cpp:49-77 | a granted token gives access to its scope until its time to live is over, and to nothing else |
| `Access.RevokedAnswer` | core/access_token/access_token.cpp:83-106 | a revoked token is denied as revoked until its expiry and as expired afterwards; other tokens are not affected |
| `Access.OthersKeep` | core/access_token/access_token.cpp:49-77 | a grant, valid or not, changes no answer for any other id |
| `Access.TokenStore.GrantToken` | core/access_token/access_token.cpp:49-77 | rejects exactly the invalid arguments; otherwise access holds until the expiry |
| `Access.TokenStore.RevokeToken` | core/access_token/access_token.cpp:83-106 | revokes and audits exactly the first time |
| `Access.TokenStore.Check` | core/access_token/access_token.cpp:112-166 | the first failing check, with an audit entry for every denial |
| `Access.TokenStore.LiveTokenCount` | core/access_token/access_token.cpp:172-184 | the loop counts exactly the live tokens |
| `Crypto.BuildRequestMessage` | core/crypto_identity/crypto_identity.cpp:35-47 | the shift loop writes name, challenge and the timestamp as eight big-endian bytes |
| `Crypto.TimestampRoundTrip` | core/crypto_identity/crypto_identity.cpp:42-45 | every 64-bit timestamp is recovered from its bytes |
| `Crypto.MessageInjective` | core/crypto_identity/crypto_identity.cpp:35-47 | messages are equal exactly when the timestamps agree and name and challenge agree as one string; with equal challenge lengths, all fields agree |
| `Crypto.MessageLayout` | core/crypto_identity/crypto_identity.cpp:35-47 | name, then challenge, then the eight bytes of the timestamp, the most significant first |
| `Crypto.SignatureBinds` | core/crypto_identity/crypto_identity.cpp:200-214 | a signature good for one message is accepted exactly for the expected challenge with the signed name, challenge and timestamp |
| `Crypto.BoundaryIsNotSigned` | core/crypto_identity/crypto_identity.cpp:39-41 | moving a byte from challenge to name keeps the message |
| `BigEndian.DecodeEncode` | core/crypto_identity/crypto_identity.cpp:42-45 | decoding k encoded bytes gives the number modulo 256 to the k |
| `BigEndian.EncodedByte` | core/crypto_identity/crypto_identity.cpp:42-45 | byte i of k is the one worth 256 to the k - 1 - i |
| `Sandbox.HasDotdotIffComponent` | core/sandbox/sandbox.cpp:42-57 | has_dotdot holds exactly when ".." is a component |
| `Sandbox.InsideIffComponents` | core/sandbox/sandbox.cpp:59-80 | is_inside accepts exactly paths without ".." whose components begin with the root's |
| `Sandbox.LexicalContainment` | core/sandbox/sandbox.cpp:59-80 | an accepted path, resolved with a stack, stays below the resolved root |
| `Sandbox.GuardExact` | core/sandbox/sandbox.h:108-121 | for every root, is_inside accepts exactly the paths that resolve to the root or below, have no "..", and have "." or empty components only where the root has them |
| `Sandbox.RootSlashAccepts` | core/sandbox/sandbox.cpp:73-79 | every path resolves below "/", but under that root exactly "/" and paths beginning with two slashes are accepted |
| `Sandbox.Normalise` | core/sandbox/sandbox.cpp:32-40 | the stripping loop computes the normal form, which `Sandbox.NormalForm` describes |
| `Sandbox.NormalisedTwice` | core/sandbox/sandbox.cpp:32-40 | normalising again changes nothing |
| `Sandbox.NormalForm` | core/sandbox/sandbox.cpp:32-40 | the normal form has no backslash and no trailing slash but that of "/", and is the path with each separator written "/" and some trailing ones removed |
| `Sandbox.EitherSeparator` | core/sandbox/sandbox.cpp:32-91 | paths and roots that differ only in which separator they use get the same answers, the same key and the same outcome of a write |
| `Sandbox.RawContainment` | core/sandbox/sandbox.cpp:59-80 | an accepted path, cut at either separator as it was given and resolved with a stack, stays below the resolved root |
| `Sandbox.RawGuardExact` | core/sandbox/sandbox.cpp:59-80 | the exact condition of acceptance over the components of the path and root as they were given |
| `Sandbox.KeyRoundTrip` | core/sandbox/sandbox.cpp:82-91 | the key leads back to the normalised path, and is empty only for "/" under the empty root |
| `Sandbox.KeyInjective` | core/sandbox/sandbox.cpp:82-91 | accepted paths share a key exactly when they normalise alike or are the root and the root followed by "/." |
| `Sandbox.LockedEntryFrozen` | core/sandbox/sandbox.cpp:294-298 | no run changes a locked entry unless its own key is unlocked |
| `Sandbox.WormFreezesContent` | core/sandbox/sandbox.cpp:287-290 | under lockdown no run changes an entry's content |
| `Sandbox.VersionTracksContent` | core/sandbox/sandbox.cpp:302-318 | entries are never removed, versions never fall, an unchanged version means an unchanged file |
| `Sandbox.VersionCountsWrites` | core/sandbox/sandbox.cpp:302-318 | over every run the version of an entry grows by exactly the writes that landed on it |
| `Sandbox.WriteAnswer` | core/sandbox/sandbox.cpp:273-298 | the answer to a write, each by its condition |
| `Sandbox.WriteEffect` | core/sandbox/sandbox.cpp:300-318 | a refused write changes nothing; one that lands changes the entry of its key alone: content, length, time and the next version |
| `Sandbox.LockEffects` | core/sandbox/sandbox.cpp:361-426 | locking and unlocking change the mark of one known entry inside the root, or of all, and nothing else |
| `Sandbox.PopulateCreates` | core/sandbox/sandbox.cpp:232-257 | a key that populate creates holds the first file of that name, unlocked and at version 1 |
| `Sandbox.SandboxStore.Write` | core/sandbox/sandbox.cpp:273-333 | the outcome in the source's order of checks; stores and audits exactly on success |
| `Sandbox.SandboxStore.LockEntry` | core/sandbox/sandbox.cpp:361-382 | locks and audits exactly a known entry inside the root |
| `Sandbox.SandboxStore.UnlockEntry` | core/sandbox/sandbox.cpp:405-426 | unlocks and audits exactly a known entry inside the root |
| `Sandbox.SandboxStore.LockAll` | core/sandbox/sandbox.cpp:384-403 | locks every entry and returns how many were not locked |
| `Sandbox.SandboxStore.Populate` | core/sandbox/sandbox.cpp:225-267 | creates exactly the missing entries, leaves the others, returns the number created |
| `Events.FifoExactlyOnce` | core/event_bus/event_bus.h:105-172 | under every interleaving, dispatched events, then the one in hand, then the queue are the publish sequence |
| `Events.ExitDrains` | core/event_bus/event_bus.h:120-130 | when the worker exits, everything published before has been dispatched and the queue is empty |
| `Events.SubscriberKeepsUp` | core/event_bus/event_bus.h:134-148 | a subscriber from any moment that stays subscribed is called in order, once each, with exactly the events dispatched since, less an event in hand it is not due |
| `Events.SubscribedDuringDispatch` | core/event_bus/event_bus.h:134-143 | subscribed in the middle of a dispatch: the event in hand is heard exactly when the handler is in the snapshot and not yet called |
| `Events.SubscriberHearsAll` | core/event_bus/event_bus.h:85-148 | a subscriber from any moment until destruction hears exactly everything undelivered and published from then on, less an event in hand it is not due |
| `Events.AfterUnsubscribe` | core/event_bus/event_bus.h:134-148 | a handler whose handle was destroyed hears afterwards exactly the event it is still owed by a snapshot, once, or nothing |
| `Events.NoLostWakeup` | core/event_bus/event_bus.h:105-130 | in every run a sleeping worker with something to do has a notification coming |
| `Events.DestructorReturns` | core/event_bus/event_bus.h:120-130 | once stop is set the worker can always come to its exit |
| `Events.IdsAreFresh` | core/event_bus/event_bus.h:85-90 | subscription ids are never reused |
| `Events.CallerEffects` | core/event_bus/event_bus.h:85-130 | what subscribing, unsubscribing, queueing, notifying and stopping change, and that they change nothing else |
| `Events.EventBus.SubscribeHandler` | core/event_bus/event_bus.h:85-90 | adds a handler under the next id |
| `Events.EventBus.UnsubscribeHandler` | core/event_bus/event_bus.h:145-148 | removes exactly that handler |
| `Events.EventBus.Publish` | core/event_bus/event_bus.h:96-98 | every handler of the snapshot is called exactly once before it returns |
| `Events.EventBus.PublishAsync` | core/event_bus/event_bus.h:105-112 | starts the worker if needed and queues the event |
| `Events.EventBus.WorkerTake` | core/event_bus/event_bus.h:158-172 | takes the front event, or exits only when stopped with an empty queue |
| `Events.EventBus.WorkerDispatch` | core/event_bus/event_bus.h:134-143 | each handler still to be called, from the snapshot or from the middle of its loop, hears the event exactly once |
| `Events.EventBus.Destroy` | core/event_bus/event_bus.h:120-130 | entered at any moment before the exit, returns with the event in hand delivered to whom it is owed and everything queued delivered, in order, to every handler |
| `Agents.ExactlyOnce` | agents/controller/agent_controller.cpp:284-317 | under every interleaving of any number of workers each submitted task is in exactly one place, once: queued, held by one worker, or finished |
| `Agents.NumberedAlways` | agents/controller/agent_controller.cpp:253-254 | task ids number the submissions, so they are distinct |
| `Agents.UrgentFirst` | agents/controller/agent_controller.cpp:288-294 | under every interleaving no task leaves the queue while one of higher priority, HIGH before NORMAL before LOW, submitted before is waiting |
| `Agents.CountersAreExact` | agents/controller/agent_controller.cpp:306-317 | per loaded agent the completed and failed counters equal its recorded tasks with that outcome since its last load |
| `Agents.StopDrainsIff` | agents/controller/agent_controller.h:169-170 | from the moment running_ is cleared until all workers have left: without a submission the queue ends empty exactly when at most as many tasks were queued as workers were in the wait; each submission leaves one more |
| `Agents.AlwaysDrainsIff` | agents/controller/agent_controller.cpp:284-294 | every run of stopped and notified workers drains the queue if and only if no more tasks are queued than workers are in the wait |
| `Agents.SubmittedTooLate` | agents/controller/agent_controller.cpp:245-257 | once the last worker has left, the queue grows by exactly what is submitted |
| `Agents.SubmissionStrands` | agents/controller/agent_controller.cpp:245-257 | from every stopped pool some run leaves a late submission queued |
| `Agents.StopReturnsIff` | agents/controller/agent_controller.cpp:267-275 | short of submissions and spurious wakeups, the join can return exactly when no worker is between its test and its sleep at notify_all |
| `Agents.StopReturns` | agents/controller/agent_controller.cpp:267-317 | stopped workers that are awake leave under every schedule: a bounded number of steps, and none due once they are gone |
| `Agents.StopCanHang` | agents/controller/agent_controller.cpp:267-291 | a run after which the only worker sleeps for good and the join never returns |
| `Agents.WorkersLeave` | agents/controller/agent_controller.cpp:284-317 | stopped workers that are awake can all come to their exit |
| `Agents.StopCanStrand` | agents/controller/agent_controller.cpp:286-291 | a complete run in which stop leaves a task queued |
| `Agents.AgentController.constructor` | agents/controller/agent_controller.cpp:125-133 | a worker count that is not positive becomes 1; the pool starts empty |
| `Agents.AgentController.LoadPersona` | agents/controller/agent_controller.cpp:150-155 | the agent's status restarts at zero |
| `Agents.AgentController.SubmitTask` | agents/controller/agent_controller.cpp:245-257 | a new id, queued once, for loaded agents only |
| `Agents.AgentController.StartWorkers` | agents/controller/agent_controller.cpp:259-265 | adds exactly worker_count workers unless already running |
| `Agents.AgentController.StopWorkers` | agents/controller/agent_controller.cpp:267-269 | only running_ changes, and a notification becomes due |
| `Agents.AgentController.NotifyWorkers` | agents/controller/agent_controller.cpp:270-270 | every sleeping worker is woken, nothing else changes |
| `Agents.AgentController.FallAsleep` | agents/controller/agent_controller.cpp:290-290 | a wait whose predicate is false: the test and the sleep, one after the other |
| `Agents.AgentController.CheckRunning` | agents/controller/agent_controller.cpp:286-290 | a worker reaches the wait only while running_ is set, and leaves otherwise |
| `Agents.AgentController.FinishExecution` | agents/controller/agent_controller.cpp:304-304 | execution ends with an arbitrary outcome and moves nothing else |
| `Agents.AgentController.QueueTop` | agents/controller/agent_controller.h:72-75 | some queued task that none exceeds in urgency |
| `Agents.AgentController.WakeUp` | agents/controller/agent_controller.cpp:288-294 | pops a most urgent task, or leaves when stopped with an empty queue |
| `Agents.AgentController.MarkRunning` | agents/controller/agent_controller.cpp:297-302 | marks the agent running if it is known |
| `Agents.AgentController.RecordResult` | agents/controller/agent_controller.cpp:306-317 | the status update after execution |
| `Firewall.SoundAlways` | core/firewall/firewall_blocker.cpp:205-296 | over every run no allowlisted address is blocked, and block entries minus unblock entries are the active blocks |
| `Firewall.SweepExact` | core/firewall/firewall_blocker.cpp:321-344 | a sweep leaves exactly the blocks with a later expiry, unchanged |
| `Firewall.BlockLivesUntilSwept` | core/firewall/firewall_blocker.cpp:219-222 | a block stays unchanged through any run until a sweep at or after its expiry or its own unblock |
| `Firewall.BlockEndsWhenSwept` | core/firewall/firewall_blocker.cpp:328-339 | after a sweep at or past its expiry the address is free unless blocked again |
| `Firewall.BlockLife` | core/firewall/firewall_blocker.cpp:205-344 | a block for some seconds, or the default, is gone exactly after the sweeps at least 1000 times as many milliseconds later |
| `Firewall.BlockSucceedsIff` | core/firewall/firewall_blocker.cpp:205-261 | a block succeeds exactly for an address that is neither allowlisted nor blocked, if one rule could be added, and leaves every other block alone |
| `Firewall.SortedDetermined` | core/firewall/firewall_blocker.cpp:165-168 | the sorted duplicate-free allowlist is determined by its members |
| `Firewall.LessIsLexicographic` | core/firewall/firewall_blocker.cpp:165-168 | the order of the allowlist is the lexicographic one |
| `Firewall.BuildAllowlist` | core/firewall/firewall_blocker.cpp:124-169 | strictly sorted, containing exactly the static entries, the extras and the usable gateways and DNS servers |
| `Firewall.SortUnique` | core/firewall/firewall_blocker.cpp:165-168 | strictly sorted with the same members |
| `Firewall.FirewallBlocker.constructor` | core/firewall/firewall_blocker.cpp:175-185 | a time to live that is not positive becomes the default; the allowlist is built from the system and the extras; nothing is blocked |
| `Firewall.FirewallBlocker.BlockIp` | core/firewall/firewall_blocker.cpp:205-261 | the outcome in the source's order of checks, the recorded expiry, and the audit entry |
| `Firewall.FirewallBlocker.UnblockIp` | core/firewall/firewall_blocker.cpp:267-274 | removes and audits exactly an existing block |
| `Firewall.FirewallBlocker.DoUnblockLocked` | core/firewall/firewall_blocker.cpp:280-296 | removes that block alone, with one audit entry |
| `Firewall.FirewallBlocker.ExpirySweep` | core/firewall/firewall_blocker.cpp:326-339 | the erase-while-iterating loop removes exactly the expired blocks, one audit entry each |
| `Firewall.FirewallBlocker.Shutdown` | core/firewall/firewall_blocker.cpp:187-199 | clears the blocks without audit entries |
| `Chaos.CauchySchwarz` | core/chaos_detector/chaos_detector.cpp:147-154 | the squared covariation is at most the product of the squared spreads |
| `Chaos.CorrelationBounded` | core/chaos_detector/chaos_detector.cpp:138-156 | pearson lies in [-1, 1] for all vectors |
| `Chaos.RisingLineScoresOne` | core/chaos_detector/chaos_detector.cpp:138-156 | a rising line scores exactly 1, or 0 below the cut-off |
| `Chaos.CorrelationIs` | core/chaos_detector/chaos_detector.cpp:138-156 | pearson times the root of the product of the squared spreads is the covariation about the means; 0 below the cut-off 1e-12 |
| `Chaos.Pearson` | core/chaos_detector/chaos_detector.cpp:138-156 | computes the correlation, within [-1, 1]; 0 for short or unequal vectors |
| `Chaos.Moments` | core/chaos_detector/chaos_detector.cpp:147-153 | the accumulating loop computes the covariation and both spreads |
| `Chaos.MsdNonNegative` | core/chaos_detector/chaos_detector.cpp:118-130 | the mean-square displacement is non-negative at every lag |
| `Chaos.OrbitSteps` | core/chaos_detector/chaos_detector.cpp:111-116 | from 0, position j + 1 is position j plus the sample times the function at (j + 1) c |
| `Chaos.MsdIsMean` | core/chaos_detector/chaos_detector.cpp:118-130 | the displacement at a lag is the mean of the squared distances over all pairs that far apart, and 0 from the length on |
| `Chaos.ConstantSeries` | core/chaos_detector/chaos_detector.cpp:105-132 | for cosine and sine and a constant series v the displacement at lag n, times 1 - cos c, is v squared times 1 - cos n c |
| `Chaos.BuildOrbit` | core/chaos_detector/chaos_detector.cpp:111-116 | the loop computes the orbit, whose steps `Chaos.OrbitSteps` describes |
| `Chaos.ComputeMsd` | core/chaos_detector/chaos_detector.cpp:105-132 | the loops compute the displacement at every lag, as `Chaos.MsdIsMean` describes it, each non-negative |
| `Chaos.MedianAbove` | core/chaos_detector/chaos_detector.cpp:162-171 | a median of 2m values above t needs m values above t, and m + 1 suffice |
| `Chaos.OrderStatMonotone` | core/chaos_detector/chaos_detector.cpp:162-171 | order statistics grow with their index, so each is unique |
| `Chaos.Median` | core/chaos_detector/chaos_detector.cpp:162-171 | the middle order statistic or the mean of the two middle ones, 0 when empty |
| `Chaos.NthElement` | core/chaos_detector/chaos_detector.cpp:166-169 | a permutation with the k-th order statistic at index k, nothing larger before it and nothing smaller after |
| `Chaos.PhaseScoresBounded` | core/chaos_detector/chaos_detector.cpp:193-200 | every phase score lies in [-1, 1] |
| `Chaos.PhaseScoreIs` | core/chaos_detector/chaos_detector.cpp:182-200 | the score of a phase correlates 1, 2, 3, ... with the displacements at these lags, up to a tenth of the samples and at least five |
| `Chaos.ChaosScoreUnique` | core/chaos_detector/chaos_detector.cpp:177-207 | the condition that ComputeK and the windows meet determines K |
| `Chaos.ComputeK` | core/chaos_detector/chaos_detector.cpp:177-207 | the mean of the two middle phase scores or 0 if negative, within [0, 1]; 0 below ten samples; the default phases if none are given |
| `Chaos.ChaosVerdict` | core/chaos_detector/chaos_detector.cpp:177-207 | K above 0.7 needs ten of the twenty default phases above 0.7, and eleven suffice |
| `Chaos.SlopeIsLeastSquares` | core/chaos_detector/chaos_detector.cpp:299-309 | Cov over Var has the least squared error of all lines |
| `Chaos.RegressionSlope` | core/chaos_detector/chaos_detector.cpp:299-309 | defined exactly when the variance reaches the cut-off, and then least squares |
| `Chaos.VarianceGuardIsDead` | core/chaos_detector/chaos_detector.cpp:289-308 | for the abscissae the code builds from any counts, two of them suffice for a variance of at least a half, so the guard never fires |
| `Chaos.DivergenceSlope` | core/chaos_detector/chaos_detector.cpp:289-309 | the loop builds the points, and the result is a number exactly when two steps have observations, then least squares |
| `Chaos.PointsAreSteps` | core/chaos_detector/chaos_detector.cpp:289-297 | the points of the fit are exactly the steps with observations, each with its average |
| `Chaos.SamplesConserved` | core/chaos_detector/chaos_detector.cpp:37-78 | over every run each pushed sample is in exactly one window or pending, in order |
| `Chaos.WindowLength` | core/chaos_detector/chaos_detector.cpp:37-50 | with pushes alone every window has exactly the larger of 10 and the window size |
| `Chaos.FlushEmits` | core/chaos_detector/chaos_detector.cpp:46-49 | a flush emits what is pending from ten samples on, by force from one |
| `Chaos.ChaosDetector.FlushWindow` | core/chaos_detector/chaos_detector.cpp:46-78 | when a window is emitted and audited and what its callback is given, K included; an anomalous one has ten phases above 0.7 |
| `Chaos.ChaosDetector.PushSample` | core/chaos_detector/chaos_detector.cpp:37-44 | appends the sample and flushes a full window |
| `Clamd.FrameRoundTrip` | core/clamd/clamd_scanner.cpp:147-167 | decoding a framed buffer gives the buffer back in chunks of 1 to 4096 bytes |
| `Clamd.FrameInBytes` | core/clamd/clamd_scanner.cpp:153-165 | the bytes of the frame: big-endian lengths, chunks of 4096 and a last shorter one, four zeros |
| `Clamd.PrefixIncomplete` | core/clamd/clamd_scanner.cpp:147-167 | no proper prefix of a framed buffer decodes as complete |
| `Clamd.ReceivePrefix` | core/clamd/clamd_scanner.cpp:150-164 | the receiver sees a complete stream exactly when it has every byte, and then it holds the buffer |
| `Clamd.SendAll` | core/clamd/clamd_scanner.cpp:112-123 | under any partial sends a prefix goes out, all of it exactly on success |
| `Clamd.SendChunks` | core/clamd/clamd_scanner.cpp:154-162 | the chunk loop sends a prefix of the frame, everything but the terminator exactly on success |
| `Clamd.DoInstream` | core/clamd/clamd_scanner.cpp:147-165 | command and frame go out as a prefix, complete exactly on success |
| `Clamd.StreamBuffer` | core/clamd/clamd_scanner.cpp:147-165 | end to end, success means exactly that the receiver decoded the whole buffer |

## Left out

- Audit payload texts, reasons and messages: only the kind of each audit entry is kept, except in the audit chain, where the fields are strings.
- The audit entries of the sandbox in the composed system: the store's methods have them, the composed run does not.
- SHA-256, ECDSA, token and entry id generation, and the exception generate_challenge throws when the random source fails.
- 64-bit counter and size overflow; a buffer longer than the int a single send takes.
- JSON text, prompts, transport and timeouts of the models: a reply is any value the parser could hand back.
- netsh, adapter queries, disk writes and the socket connection: each is an input or an abstract result; recv_line and parse_response are not modelled.
- Floating-point rounding: the chaos statistics are over the reals.
- The embedding, neighbour search and logarithms of compute_lyapunov: its points and regression are modelled from the sums and counts on.
- Chaos.NthElement: std::nth_element, like std::sort, std::unique and priority_queue::top, is replaced by a simple algorithm with the library's contract.
- Handlers of the event bus that throw, and publishing on a bus whose destructor has finished.
- The audit entry of a rule or of the belt and the counter beside it are one step; rule results and action texts are not modelled in overlapping evaluations.
- The vector of threads itself: a start() that overlaps the join inside stop() adds its workers, and the unsynchronised access to the vector is not modelled.
- The completion callback and audit entry after a task, persona validation, prompts, dispatch of actions and memory statistics of the agent controller.
- Sandbox.SandboxStore.Populate: the table of synthetic files is an argument, with the size estimate of each file; case-insensitive Windows paths and the file system behind the store are not modelled.
- Unlock.UnlockProtocol.CastVote: the name inside the signed request is not compared with the approver's, as in the code.
- Accessors, status snapshots, the HTTP bridge and dashboard, sensors, quarantine, network access control, decoys and policy tables.
