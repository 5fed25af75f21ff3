/** The multi-party unlock protocol (core/unlock_protocol) over the token store, per-approver
    challenges, signatures and the WORM lock. */
module Unlock {
  import opened EventLog
  import opened Worm
  import opened Crypto
  import Access

  const DEMO_THRESHOLD := 3
  const VOTE_SCOPE := "worm_unlock_vote"

  datatype Side = ASTARTIS | CLIENT
  datatype Approver = Approver(side: Side, publicKey: Bytes, tokenId: string)
  datatype Phase = IDLE | COLLECTING | GRANTED

  // ---- Specification -----------------------------------------------------------------

  datatype Protocol = Protocol(
    threshold: nat,
    phase: Phase,
    approvers: map<string, Approver>,
    challenges: map<string, Bytes>,
    votes: map<string, bool>)

  datatype World = World(p: Protocol, tokens: Access.Tokens, lock: Lock)

  datatype Reason =
    | Ok
    | NotCollecting | AlreadyGranted | UnknownApprover | Duplicate
    | ScopeDenied(denial: Access.Denial) | NoChallengeIssued | BadSignature

  datatype VoteResult = VoteResult(accepted: bool, reason: Reason, votesNow: nat, unlocked: bool)

  function Voted(votes: map<string, bool>): set<string> {
    set name | name in votes && votes[name]
  }

  function Register(p: Protocol, name: string, a: Approver): Protocol {
    if name in p.approvers then p
    else p.(approvers := p.approvers[name := a], votes := p.votes[name := false])
  }

  function Begin(p: Protocol): Protocol {
    if p.phase == COLLECTING then p
    else p.(votes := map name | name in p.votes :: false, challenges := map[], phase := COLLECTING)
  }

  predicate Generates(p: Protocol, name: string) {
    name in p.approvers && name !in p.challenges
  }

  function Issue(p: Protocol, name: string, nonce: Bytes): Protocol {
    if Generates(p, name) then p.(challenges := p.challenges[name := nonce]) else p
  }

  /** The first check that fails, in the order cast_vote makes them. */
  function Judge(verify: Verifier, w: World, name: string, req: SignedRequest, nowMs: int): Reason {
    var p := w.p;
    if p.phase == IDLE then NotCollecting
    else if p.phase == GRANTED then AlreadyGranted
    else if name !in p.approvers then UnknownApprover
    else if name in p.votes && p.votes[name] then Duplicate
    else
      var access := Access.CheckAccess(w.tokens, p.approvers[name].tokenId, VOTE_SCOPE, nowMs);
      if access.Denied? then ScopeDenied(access.reason)
      else if name !in p.challenges then NoChallengeIssued
      else if !VerifySignedRequest(verify, req, p.challenges[name], p.approvers[name].publicKey) then BadSignature
      else Ok
  }

  function Accept(w: World, name: string): World {
    var p := w.p.(votes := w.p.votes[name := true], challenges := w.p.challenges - {name});
    var noted := w.(p := p, lock := w.lock.(log := w.lock.log + [WormUnlockVote]));
    if |Voted(p.votes)| >= p.threshold then
      noted.(p := p.(phase := GRANTED),
             lock := Lift(noted.lock.(log := noted.lock.log + [WormUnlockGranted])))
    else noted
  }

  function Reject(w: World, reason: Reason): World {
    w.(lock := w.lock.(log := w.lock.log + (if reason.ScopeDenied? then [TokenDenied] else [])
                              + [WormUnlockVoteRejected]))
  }

  function Cast(verify: Verifier, w: World, name: string, req: SignedRequest, nowMs: int): World {
    var reason := Judge(verify, w, name, req, nowMs);
    if reason == Ok then Accept(w, name) else Reject(w, reason)
  }

  /** cast_vote as one step: what it checks depends on the tokens and not on the lock, what it changes
      on the lock and not on the tokens.  So a token granted or revoked between its check and its
      effect counts as after the vote, and a lock engaged in between as before it. */
  lemma CastIsOneStep(verify: Verifier, w: World, name: string, req: SignedRequest, nowMs: int,
                      tokens: Access.Tokens, lock: Lock)
    ensures var between := w.(tokens := tokens, lock := lock);
            var reason := Judge(verify, w, name, req, nowMs);
            (if reason == Ok then Accept(between, name) else Reject(between, reason))
            == Cast(verify, w.(lock := lock), name, req, nowMs).(tokens := tokens)
  {
  }

  // ---- Runs --------------------------------------------------------------------------

  datatype Event =
    | OnRegister(name: string, approver: Approver)
    | OnBegin
    | OnIssue(name: string, nonce: Bytes)
    | OnCast(name: string, req: SignedRequest, nowMs: int)
    | OnTokenStep(step: Access.Step)
    | OnLockActivity(lock: Lock)

  /** What the other components may do to the lock and the shared log: engage it and add
      entries, but neither lift it nor record a grant. */
  predicate LiftsNothing(before: Lock, after: Lock) {
    && (before.locked ==> after.locked)
    && Count(after.log, WormUnlockGranted) == Count(before.log, WormUnlockGranted)
  }

  function Apply(verify: Verifier, w: World, e: Event): World {
    match e
    case OnRegister(name, approver) => w.(p := Register(w.p, name, approver))
    case OnBegin => w.(p := Begin(w.p))
    case OnIssue(name, nonce) => w.(p := Issue(w.p, name, nonce))
    case OnCast(name, req, nowMs) => Cast(verify, w, name, req, nowMs)
    case OnTokenStep(step) => w.(tokens := Access.Apply(w.tokens, step))
    case OnLockActivity(lock) => if LiftsNothing(w.lock, lock) then w.(lock := lock) else w
  }

  /** Start-up: no approvers, no session; tokens and lock may be in any state. */
  predicate Start(w: World) {
    w.p == Protocol(w.p.threshold, IDLE, map[], map[], map[]) && w.p.threshold > 0
  }

  /** A run: worlds[k] is the world before events[k]. */
  datatype Trace = Trace(events: seq<Event>, worlds: seq<World>)

  ghost predicate Stepped(verify: Verifier, t: Trace, k: nat)
    requires k + 1 < |t.worlds| && k < |t.events|
  {
    t.worlds[k + 1] == Apply(verify, t.worlds[k], t.events[k])
  }

  ghost predicate IsRun(verify: Verifier, t: Trace) {
    && |t.worlds| == |t.events| + 1
    && Start(t.worlds[0])
    && forall k :: 0 <= k < |t.events| ==> Stepped(verify, t, k)
  }

  /** Every sequence of events has a run from every start. */
  lemma {:induction false} RunExists(verify: Verifier, w: World, es: seq<Event>) returns (t: Trace)
    requires Start(w)
    ensures IsRun(verify, t) && t.events == es && t.worlds[0] == w
  {
    if es == [] {
      t := Trace([], [w]);
    } else {
      var n := |es| - 1;
      var t0 := RunExists(verify, w, es[..n]);
      t := Trace(es, t0.worlds + [Apply(verify, t0.worlds[n], es[n])]);
      forall k | 0 <= k < |es| ensures Stepped(verify, t, k) {
        assert k < n ==> Stepped(verify, t0, k);
      }
    }
  }

  // ---- The vote-count invariant ------------------------------------------------------

  ghost predicate Counted(p: Protocol) {
    && p.threshold > 0
    && p.votes.Keys == p.approvers.Keys
    && p.challenges.Keys <= p.approvers.Keys
    && match p.phase
       case IDLE => Voted(p.votes) == {}
       case COLLECTING => |Voted(p.votes)| < p.threshold
       case GRANTED => |Voted(p.votes)| == p.threshold
  }

  /** An accepted vote adds exactly its own name to the voters. */
  lemma AcceptAddsVoter(p: Protocol, name: string)
    requires name !in Voted(p.votes)
    ensures Voted(p.votes[name := true]) == Voted(p.votes) + {name}
    ensures |Voted(p.votes[name := true])| == |Voted(p.votes)| + 1
  {
    assert Voted(p.votes[name := true]) == Voted(p.votes) + {name};
  }

  lemma CountedAccept(w: World, name: string)
    requires Counted(w.p) && w.p.phase == COLLECTING
    requires name in w.p.approvers && name !in Voted(w.p.votes)
    ensures Counted(Accept(w, name).p)
    ensures Voted(Accept(w, name).p.votes) == Voted(w.p.votes) + {name}
    ensures |Voted(Accept(w, name).p.votes)| == |Voted(w.p.votes)| + 1
  {
    AcceptAddsVoter(w.p, name);
    assert Accept(w, name).p.votes.Keys == w.p.votes.Keys;
  }

  lemma CountedRegister(p: Protocol, name: string, a: Approver)
    requires Counted(p)
    ensures Counted(Register(p, name, a))
    ensures Voted(Register(p, name, a).votes) == Voted(p.votes)
  {
    if name !in p.approvers {
      assert Voted(p.votes[name := false]) == Voted(p.votes);
    }
  }

  lemma CountedBegin(p: Protocol)
    requires Counted(p)
    ensures Counted(Begin(p))
    ensures p.phase != COLLECTING ==> Voted(Begin(p).votes) == {}
  {
    if p.phase != COLLECTING {
      assert Voted(Begin(p).votes) == {};
    }
  }

  lemma CountedCast(verify: Verifier, w: World, name: string, req: SignedRequest, nowMs: int)
    requires Counted(w.p)
    ensures Counted(Cast(verify, w, name, req, nowMs).p)
  {
    if Judge(verify, w, name, req, nowMs) == Ok {
      CountedAccept(w, name);
    }
  }

  lemma CountedStep(verify: Verifier, w: World, e: Event)
    requires Counted(w.p)
    ensures Counted(Apply(verify, w, e).p)
  {
    match e
    case OnRegister(name, a) => CountedRegister(w.p, name, a);
    case OnBegin => CountedBegin(w.p);
    case OnCast(name, req, nowMs) => CountedCast(verify, w, name, req, nowMs);
    case _ =>
  }

  /** In every run: every approver has a vote slot and nobody else has; no votes while idle,
      fewer than the threshold while collecting, exactly the threshold once granted. */
  lemma {:induction false} CountedAlways(verify: Verifier, t: Trace, k: nat)
    requires IsRun(verify, t) && k <= |t.events|
    ensures Counted(t.worlds[k].p)
    ensures t.worlds[k].p.threshold == t.worlds[0].p.threshold
  {
    if k > 0 {
      CountedAlways(verify, t, k - 1);
      assert Stepped(verify, t, k - 1);
      CountedStep(verify, t.worlds[k - 1], t.events[k - 1]);
    } else {
      assert Voted(t.worlds[0].p.votes) == {};
    }
  }

  // ---- Quorum ------------------------------------------------------------------------

  /** The event opens a session. */
  predicate Opens(w: World, e: Event) {
    e.OnBegin? && w.p.phase != COLLECTING
  }

  /** The event is a cast_vote by `name` with everything the protocol promises: a session is
      collecting, the approver is registered and has not voted, its token exists, is
      unexpired, unrevoked and of the voting scope, and the request carries its own pending
      challenge under a signature that verifies with its registered key. */
  predicate ValidBallot(verify: Verifier, w: World, e: Event, name: string) {
    && e.OnCast? && e.name == name
    && w.p.phase == COLLECTING
    && name in w.p.approvers && name !in Voted(w.p.votes)
    && var a := w.p.approvers[name];
    && a.tokenId in w.tokens
    && Access.Live(w.tokens[a.tokenId], e.nowMs)
    && w.tokens[a.tokenId].token.scope == "worm_unlock_vote"
    && name in w.p.challenges && e.req.challenge == w.p.challenges[name]
    && verify(Message(e.req.identityName, e.req.challenge, e.req.timestampMs), e.req.signature, a.publicKey)
  }

  predicate Accepted(verify: Verifier, w: World, e: Event) {
    e.OnCast? && Judge(verify, w, e.name, e.req, e.nowMs) == Ok
  }

  /** cast_vote accepts exactly the valid ballots. */
  lemma AcceptedIffValid(verify: Verifier, w: World, e: Event)
    requires e.OnCast? && Counted(w.p)
    ensures Accepted(verify, w, e) <==> ValidBallot(verify, w, e, e.name)
  {
  }

  /** The reason given is the first of these that applies: no session, a granted one, an unknown name,
      a second vote, a token that is not live and of the voting scope, no pending challenge, and a
      request for another challenge or with a signature that does not verify. */
  lemma ReasonIff(verify: Verifier, w: World, name: string, req: SignedRequest, nowMs: int)
    ensures var r := Judge(verify, w, name, req, nowMs);
            && (r == NotCollecting <==> w.p.phase == IDLE)
            && (r == AlreadyGranted <==> w.p.phase == GRANTED)
            && (r == UnknownApprover <==> w.p.phase == COLLECTING && name !in w.p.approvers)
            && (r == Duplicate <==>
                  w.p.phase == COLLECTING && name in w.p.approvers && name in Voted(w.p.votes))
    ensures var r := Judge(verify, w, name, req, nowMs);
            w.p.phase == COLLECTING && name in w.p.approvers && name !in Voted(w.p.votes) ==>
              var a := w.p.approvers[name];
              var live := && a.tokenId in Access.LiveIds(w.tokens, nowMs)
                          && w.tokens[a.tokenId].token.scope == "worm_unlock_vote";
              && (r.ScopeDenied? <==> !live)
              && (r.ScopeDenied? ==>
                    Access.CheckAccess(w.tokens, a.tokenId, "worm_unlock_vote", nowMs) == Access.Denied(r.denial))
              && (r == NoChallengeIssued <==> live && name !in w.p.challenges)
              && (r == BadSignature <==> live && name in w.p.challenges
                                         && (req.challenge != w.p.challenges[name] || !Signed(verify, req, a)))
  {
  }

  /** The signature verifies with the registered key. */
  predicate Signed(verify: Verifier, req: SignedRequest, a: Approver) {
    verify(Message(req.identityName, req.challenge, req.timestampMs), req.signature, a.publicKey)
  }

  /** A rejected vote only leaves its audit entry, after that of the token store if it was the token. */
  lemma RejectionOnlyAudits(verify: Verifier, w: World, e: Event)
    requires e.OnCast? && !Accepted(verify, w, e)
    ensures var w' := Apply(verify, w, e);
            && w' == w.(lock := w.lock.(log := w'.lock.log))
            && w'.lock.log == w.lock.log + if Judge(verify, w, e.name, e.req, e.nowMs).ScopeDenied?
                                           then [TokenDenied, WormUnlockVoteRejected] else [WormUnlockVoteRejected]
  {
  }

  /** An accepted vote is recorded and its challenge consumed; the one that reaches the threshold ends
      the session and opens the lock. */
  lemma AcceptedEffect(verify: Verifier, w: World, e: Event)
    requires Accepted(verify, w, e) && e.name in w.p.votes
    ensures var w' := Apply(verify, w, e);
            var reached := |Voted(w.p.votes)| + 1 >= w.p.threshold;
            && Voted(w'.p.votes) == Voted(w.p.votes) + {e.name} && w'.p.votes.Keys == w.p.votes.Keys
            && w'.p.challenges == w.p.challenges - {e.name}
            && w'.p.approvers == w.p.approvers && w'.p.threshold == w.p.threshold && w'.tokens == w.tokens
            && w'.p.phase == (if reached then GRANTED else COLLECTING)
            && w'.lock.locked == (w.lock.locked && !reached) && w'.lock.lockdowns == w.lock.lockdowns
            && w'.lock.log == w.lock.log + [WormUnlockVote] + (if reached then [WormUnlockGranted] else [])
                                         + (if reached && w.lock.locked then [WormLockLifted] else [])
  {
    AcceptAddsVoter(w.p, e.name);
    assert Accept(w, e.name).p.votes.Keys == w.p.votes.Keys;
  }

  /** Registration adds an approver that has not voted, and never touches a known one. */
  lemma RegisterEffect(verify: Verifier, w: World, name: string, a: Approver)
    ensures var w' := Apply(verify, w, OnRegister(name, a));
            && w' == w.(p := w.p.(approvers := w'.p.approvers, votes := w'.p.votes))
            && (name in w.p.approvers ==> w' == w)
            && (name !in w.p.approvers ==>
                  && w'.p.approvers.Keys == w.p.approvers.Keys + {name} && w'.p.approvers[name] == a
                  && name in w'.p.votes && name !in Voted(w'.p.votes) && w'.p.votes.Keys == w.p.votes.Keys + {name}
                  && forall other :: other != name ==>
                       && (other in w.p.approvers ==> w'.p.approvers[other] == w.p.approvers[other])
                       && (other in Voted(w'.p.votes) <==> other in Voted(w.p.votes)))
  {
  }

  /** Opening a session withdraws every vote and every challenge; an open one is left alone. */
  lemma BeginEffect(verify: Verifier, w: World)
    ensures var w' := Apply(verify, w, OnBegin);
            && w' == w.(p := w.p.(phase := COLLECTING, votes := w'.p.votes, challenges := w'.p.challenges))
            && w'.p.votes.Keys == w.p.votes.Keys
            && (w.p.phase == COLLECTING ==> w' == w)
            && (w.p.phase != COLLECTING ==> Voted(w'.p.votes) == {} && w'.p.challenges == map[])
  {
  }

  /** A challenge is set for a registered approver without one, and for nobody else. */
  lemma IssueEffect(verify: Verifier, w: World, name: string, nonce: Bytes)
    ensures var w' := Apply(verify, w, OnIssue(name, nonce));
            && w' == w.(p := w.p.(challenges := w'.p.challenges))
            && w'.p.challenges.Keys == w.p.challenges.Keys + (if name in w.p.approvers then {name} else {})
            && (forall other :: other in w.p.challenges ==> w'.p.challenges[other] == w.p.challenges[other])
            && (name in w.p.approvers && name !in w.p.challenges ==> w'.p.challenges[name] == nonce)
  {
  }

  /** The other components change their own part alone. */
  lemma OutsideEffect(verify: Verifier, w: World, step: Access.Step, lock: Lock)
    ensures Apply(verify, w, OnTokenStep(step)) == World(w.p, Access.Apply(w.tokens, step), w.lock)
    ensures (w.lock.locked ==> lock.locked)
            && Count(lock.log, WormUnlockGranted) == Count(w.lock.log, WormUnlockGranted) ==>
              Apply(verify, w, OnLockActivity(lock)) == World(w.p, w.tokens, lock)
  {
  }

  /** The event calls worm_unlock_. */
  predicate CallsUnlock(verify: Verifier, w: World, e: Event) {
    Accepted(verify, w, e) && Apply(verify, w, e).p.phase == GRANTED
  }

  /** Every ballot in the map is valid and was cast after `opening` and before k. */
  ghost predicate Backed(verify: Verifier, t: Trace, opening: nat, k: nat, ballots: map<string, nat>)
    requires k <= |t.events| < |t.worlds|
  {
    forall name :: name in ballots ==>
                     && opening < ballots[name] < k
                     && ValidBallot(verify, t.worlds[ballots[name]], t.events[ballots[name]], name)
  }

  lemma BackedExtends(verify: Verifier, t: Trace, opening: nat, k: nat, ballots: map<string, nat>, name: string)
    requires opening < k < |t.events| < |t.worlds|
    requires Backed(verify, t, opening, k, ballots)
    requires ValidBallot(verify, t.worlds[k], t.events[k], name)
    ensures Backed(verify, t, opening, k + 1, ballots[name := k])
  {
    var extended := ballots[name := k];
    forall n | n in extended
      ensures opening < extended[n] < k + 1
      ensures ValidBallot(verify, t.worlds[extended[n]], t.events[extended[n]], n)
    {
      assert n == name || n in ballots;
    }
  }

  /** Over one event of a collecting session the voters either stay or gain the one name that
      cast a valid ballot. */
  lemma VotersStep(verify: Verifier, w: World, e: Event) returns (cast: bool)
    requires Counted(w.p) && w.p.phase == COLLECTING
    ensures cast <==> Accepted(verify, w, e)
    ensures cast ==> e.OnCast? && ValidBallot(verify, w, e, e.name)
    ensures Voted(Apply(verify, w, e).p.votes) == Voted(w.p.votes) + (if cast then {e.name} else {})
  {
    cast := Accepted(verify, w, e);
    if cast {
      AcceptedIffValid(verify, w, e);
      CountedAccept(w, e.name);
    } else if e.OnRegister? {
      CountedRegister(w.p, e.name, e.approver);
    }
  }

  lemma VotersStepAt(verify: Verifier, t: Trace, k: nat) returns (cast: bool)
    requires IsRun(verify, t) && k < |t.events|
    requires t.worlds[k].p.phase == COLLECTING
    ensures cast ==> t.events[k].OnCast?
    ensures cast ==> ValidBallot(verify, t.worlds[k], t.events[k], t.events[k].name)
    ensures Voted(t.worlds[k + 1].p.votes)
         == Voted(t.worlds[k].p.votes) + (if cast then {t.events[k].name} else {})
  {
    assert Stepped(verify, t, k);
    CountedAlways(verify, t, k);
    cast := VotersStep(verify, t.worlds[k], t.events[k]);
  }

  lemma CollectingBefore(verify: Verifier, w: World, e: Event)
    requires Apply(verify, w, e).p.phase == COLLECTING && !Opens(w, e)
    ensures w.p.phase == COLLECTING
  {
  }

  ghost predicate QuietSince(t: Trace, opening: nat, k: nat)
    requires k <= |t.events| < |t.worlds|
  {
    forall j :: opening < j < k ==> !Opens(t.worlds[j], t.events[j])
  }

  /** The ballots standing before event k of a collecting session, carried over that event. */
  lemma ExtendBallots(verify: Verifier, t: Trace, opening: nat, k: nat, ballots: map<string, nat>, cast: bool)
    returns (extended: map<string, nat>)
    requires opening < k < |t.events| < |t.worlds|
    requires Backed(verify, t, opening, k, ballots)
    requires cast ==> t.events[k].OnCast? && ValidBallot(verify, t.worlds[k], t.events[k], t.events[k].name)
    ensures Backed(verify, t, opening, k + 1, extended)
    ensures extended.Keys == ballots.Keys + (if cast then {t.events[k].name} else {})
  {
    extended := ballots;
    if cast {
      BackedExtends(verify, t, opening, k, ballots, t.events[k].name);
      extended := ballots[t.events[k].name := k];
    }
  }

  lemma QuietExtends(t: Trace, opening: nat, k: nat)
    requires k < |t.events| < |t.worlds|
    requires QuietSince(t, opening, k) && !Opens(t.worlds[k], t.events[k])
    ensures QuietSince(t, opening, k + 1)
  {
    forall j | opening < j < k + 1 ensures !Opens(t.worlds[j], t.events[j]) {
      assert j < k || j == k;
    }
  }

  /** While a session is collecting, every vote standing goes back to a valid ballot cast since
      that session opened. */
  lemma {:induction false} BallotsOfSession(verify: Verifier, t: Trace, k: nat)
    returns (opening: nat, ballots: map<string, nat>)
    requires IsRun(verify, t) && k <= |t.events|
    requires t.worlds[k].p.phase == COLLECTING
    ensures opening < k && Opens(t.worlds[opening], t.events[opening])
    ensures QuietSince(t, opening, k)
    ensures ballots.Keys == Voted(t.worlds[k].p.votes)
    ensures Backed(verify, t, opening, k, ballots)
  {
    assert k > 0;
    var w, e := t.worlds[k - 1], t.events[k - 1];
    CountedAlways(verify, t, k - 1);
    assert Stepped(verify, t, k - 1);
    if Opens(w, e) {
      opening, ballots := k - 1, map[];
      CountedBegin(w.p);
    } else {
      CollectingBefore(verify, w, e);
      opening, ballots := BallotsOfSession(verify, t, k - 1);
      var cast := VotersStepAt(verify, t, k - 1);
      QuietExtends(t, opening, k - 1);
      ballots := ExtendBallots(verify, t, opening, k - 1, ballots, cast);
    }
  }

  /** Event k completes a quorum: the session opened by event `opening` has just been granted on
      exactly `threshold` ballots of different approvers, each valid and cast since then. */
  ghost predicate Quorum(verify: Verifier, t: Trace, k: nat, opening: nat, ballots: map<string, nat>)
    requires k < |t.events| < |t.worlds|
  {
    && opening <= k && Opens(t.worlds[opening], t.events[opening])
    && QuietSince(t, opening, k + 1)
    && |ballots| == t.worlds[0].p.threshold
    && Backed(verify, t, opening, k + 1, ballots)
  }

  lemma QuorumWhenGranted(verify: Verifier, t: Trace, k: nat)
    returns (opening: nat, ballots: map<string, nat>)
    requires IsRun(verify, t) && k < |t.events|
    requires t.worlds[k].p.phase == COLLECTING && t.worlds[k + 1].p.phase == GRANTED
    ensures Quorum(verify, t, k, opening, ballots)
  {
    CountedAlways(verify, t, k + 1);
    opening, ballots := BallotsOfSession(verify, t, k);
    var cast := VotersStepAt(verify, t, k);
    QuietExtends(t, opening, k);
    ballots := ExtendBallots(verify, t, opening, k, ballots, cast);
    assert |ballots| == |ballots.Keys|;
  }

  /** worm_unlock_ is called only after a quorum: exactly `threshold` different approvers, each
      with a valid ballot cast since the current session was opened. */
  lemma UnlockNeedsQuorum(verify: Verifier, t: Trace, k: nat)
    returns (opening: nat, ballots: map<string, nat>)
    requires IsRun(verify, t) && k < |t.events|
    requires CallsUnlock(verify, t.worlds[k], t.events[k])
    ensures Quorum(verify, t, k, opening, ballots)
  {
    assert Stepped(verify, t, k);
    opening, ballots := QuorumWhenGranted(verify, t, k);
  }

  /** Conversely, the ballot that brings a collecting session to its threshold is the call, and
      no event but such a call ever lifts the lock. */
  lemma OnlyQuorumLifts(verify: Verifier, w: World, e: Event)
    requires Counted(w.p)
    ensures CallsUnlock(verify, w, e) <==>
              e.OnCast? && ValidBallot(verify, w, e, e.name) && |Voted(w.p.votes)| + 1 == w.p.threshold
    ensures w.lock.locked ==> (CallsUnlock(verify, w, e) <==> !Apply(verify, w, e).lock.locked)
  {
    if e.OnCast? {
      AcceptedIffValid(verify, w, e);
      if Accepted(verify, w, e) {
        CountedAccept(w, e.name);
      }
    }
  }

  /** The event that finds the lock engaged and leaves it open is a vote completing a quorum. */
  lemma LiftNeedsQuorum(verify: Verifier, t: Trace, k: nat)
    returns (opening: nat, ballots: map<string, nat>)
    requires IsRun(verify, t) && k < |t.events|
    requires t.worlds[k].lock.locked && !t.worlds[k + 1].lock.locked
    ensures t.events[k].OnCast? && Quorum(verify, t, k, opening, ballots)
  {
    assert Stepped(verify, t, k);
    CountedAlways(verify, t, k);
    OnlyQuorumLifts(verify, t.worlds[k], t.events[k]);
    opening, ballots := UnlockNeedsQuorum(verify, t, k);
  }

  // ---- One unlock per session --------------------------------------------------------

  function Sessions(t: Trace, k: nat): nat
    requires k <= |t.events| < |t.worlds|
  {
    if k == 0 then 0
    else Sessions(t, k - 1) + (if Opens(t.worlds[k - 1], t.events[k - 1]) then 1 else 0)
  }

  function UnlockCalls(verify: Verifier, t: Trace, k: nat): nat
    requires k <= |t.events| < |t.worlds|
  {
    if k == 0 then 0
    else UnlockCalls(verify, t, k - 1)
         + (if CallsUnlock(verify, t.worlds[k - 1], t.events[k - 1]) then 1 else 0)
  }

  function Granted(w: World): nat {
    Count(w.lock.log, WormUnlockGranted)
  }

  function Collecting(w: World): nat {
    if w.p.phase == COLLECTING then 1 else 0
  }

  /** In every run worm_unlock_ has been called once for each session that was granted and not
      at all for the one still collecting; every call is audited. */
  lemma {:induction false} OneUnlockPerSession(verify: Verifier, t: Trace, k: nat)
    requires IsRun(verify, t) && k <= |t.events|
    ensures Sessions(t, k) == UnlockCalls(verify, t, k) + Collecting(t.worlds[k])
    ensures Granted(t.worlds[k]) == Granted(t.worlds[0]) + UnlockCalls(verify, t, k)
  {
    if k > 0 {
      OneUnlockPerSession(verify, t, k - 1);
      assert Stepped(verify, t, k - 1);
      SessionStep(verify, t.worlds[k - 1], t.events[k - 1]);
    }
  }

  lemma SessionStep(verify: Verifier, w: World, e: Event)
    ensures Collecting(Apply(verify, w, e)) + (if CallsUnlock(verify, w, e) then 1 else 0)
         == Collecting(w) + (if Opens(w, e) then 1 else 0)
    ensures Granted(Apply(verify, w, e)) == Granted(w) + (if CallsUnlock(verify, w, e) then 1 else 0)
  {
    if e.OnCast? {
      CastLog(verify, w, e.name, e.req, e.nowMs);
    }
  }

  lemma CastLog(verify: Verifier, w: World, name: string, req: SignedRequest, nowMs: int)
    ensures var w' := Cast(verify, w, name, req, nowMs);
            var granted := Judge(verify, w, name, req, nowMs) == Ok && w'.p.phase == GRANTED;
            Granted(w') == Granted(w) + (if granted then 1 else 0)
  {
  }

  // ---- Freshness ---------------------------------------------------------------------

  /** Event k makes the random source produce a new challenge. */
  predicate Generated(w: World, e: Event) {
    e.OnIssue? && Generates(w.p, e.name)
  }

  ghost predicate NeverRepeats(t: Trace)
    requires |t.events| < |t.worlds|
  {
    forall i, j :: 0 <= i < j < |t.events|
                   && Generated(t.worlds[i], t.events[i]) && Generated(t.worlds[j], t.events[j]) ==>
                     t.events[i].nonce != t.events[j].nonce
  }

  /** A pending challenge was generated for that very approver, in the session that is open, and has
      been pending ever since. */
  lemma {:induction false} PendingSince(verify: Verifier, t: Trace, k: nat, name: string)
    returns (g: nat)
    requires IsRun(verify, t) && k <= |t.events|
    requires name in t.worlds[k].p.challenges
    ensures g < k && Generated(t.worlds[g], t.events[g]) && t.events[g].name == name
    ensures t.events[g].nonce == t.worlds[k].p.challenges[name]
    ensures forall j :: g < j <= k ==> name in t.worlds[j].p.challenges
    ensures forall j :: g <= j < k ==> !Opens(t.worlds[j], t.events[j])
  {
    assert k > 0;
    assert Stepped(verify, t, k - 1);
    if Generated(t.worlds[k - 1], t.events[k - 1]) && t.events[k - 1].name == name {
      g := k - 1;
    } else {
      g := PendingSince(verify, t, k - 1, name);
    }
  }

  /** A new session starts without challenges: whatever was pending, nobody's request is accepted, or
      gets past the search for its challenge, before a new one is fetched. */
  lemma SessionStartsClean(verify: Verifier, w: World, name: string, req: SignedRequest, nowMs: int)
    requires w.p.phase != COLLECTING
    ensures var w' := Apply(verify, w, OnBegin);
            && w'.p.challenges == map[] && Voted(w'.p.votes) == {}
            && Judge(verify, w', name, req, nowMs) != Ok
            && Judge(verify, w', name, req, nowMs) != BadSignature
  {
  }

  /** Every ballot of a quorum answers a challenge that was generated for its approver after the
      session was opened. */
  lemma BallotIsFresh(verify: Verifier, t: Trace, k: nat, opening: nat, ballots: map<string, nat>, name: string)
    returns (g: nat)
    requires IsRun(verify, t) && k < |t.events| && Quorum(verify, t, k, opening, ballots)
    requires name in ballots
    ensures opening < g < ballots[name]
    ensures Generated(t.worlds[g], t.events[g]) && t.events[g].name == name
    ensures t.events[ballots[name]].OnCast?
    ensures t.events[g].nonce == t.events[ballots[name]].req.challenge
  {
    assert ValidBallot(verify, t.worlds[ballots[name]], t.events[ballots[name]], name);
    g := PendingSince(verify, t, ballots[name], name);
    assert !(g <= opening);
  }

  lemma SameNonceSameCall(t: Trace, g: nat, h: nat)
    requires |t.events| < |t.worlds| && NeverRepeats(t) && g < |t.events| && h < |t.events|
    requires Generated(t.worlds[g], t.events[g]) && Generated(t.worlds[h], t.events[h])
    ensures t.events[g].nonce == t.events[h].nonce ==> g == h
  {
    if g < h {
      assert t.events[g].nonce != t.events[h].nonce;
    } else if h < g {
      assert t.events[h].nonce != t.events[g].nonce;
    }
  }

  /** If the random source never repeats, a request signed over a challenge from before the current
      session is rejected, whether or not it was used. */
  lemma EarlierSessionRejected(verify: Verifier, t: Trace, g: nat, o: nat, j: nat)
    requires IsRun(verify, t) && NeverRepeats(t) && g < o < j < |t.events|
    requires Generated(t.worlds[g], t.events[g]) && Opens(t.worlds[o], t.events[o])
    requires t.events[j].OnCast? && t.events[j].req.challenge == t.events[g].nonce
    ensures !Accepted(verify, t.worlds[j], t.events[j])
  {
    if Accepted(verify, t.worlds[j], t.events[j]) {
      var h := PendingSince(verify, t, j, t.events[j].name);
      SameNonceSameCall(t, g, h);
    }
  }

  lemma AcceptConsumes(verify: Verifier, w: World, e: Event)
    requires Accepted(verify, w, e)
    ensures e.name !in Apply(verify, w, e).p.challenges
  {
  }

  /** Two accepted requests answer challenges generated by two different calls. */
  lemma AcceptedFromDifferentNonces(verify: Verifier, t: Trace, i: nat, j: nat)
    returns (g: nat, h: nat)
    requires IsRun(verify, t) && i < j < |t.events|
    requires Accepted(verify, t.worlds[i], t.events[i]) && Accepted(verify, t.worlds[j], t.events[j])
    ensures g < i && Generated(t.worlds[g], t.events[g]) && t.events[g].nonce == t.events[i].req.challenge
    ensures h < j && Generated(t.worlds[h], t.events[h]) && t.events[h].nonce == t.events[j].req.challenge
    ensures g != h
  {
    g := PendingSince(verify, t, i, t.events[i].name);
    h := PendingSince(verify, t, j, t.events[j].name);
    if g == h {
      assert Stepped(verify, t, i);
      AcceptConsumes(verify, t.worlds[i], t.events[i]);
    }
  }

  /** If the random source never repeats, a challenge is accepted once in a whole run: a signed
      request that was accepted is rejected ever after, for every approver, in the same session
      and in every later one. */
  lemma NoReplay(verify: Verifier, t: Trace, i: nat, j: nat)
    requires IsRun(verify, t) && NeverRepeats(t)
    requires i < j < |t.events| && t.events[j].OnCast?
    requires Accepted(verify, t.worlds[i], t.events[i])
    ensures t.events[j].req.challenge == t.events[i].req.challenge ==>
              !Accepted(verify, t.worlds[j], t.events[j])
  {
    if Accepted(verify, t.worlds[j], t.events[j]) {
      var g, h := AcceptedFromDifferentNonces(verify, t, i, j);
      SameNonceSameCall(t, g, h);
    }
  }

  // ---- Implementation ----------------------------------------------------------------

  class UnlockProtocol {
    const tokens: Access.TokenStore
    const worm: WormLock
    const verify: Verifier
    const threshold: nat
    var phase: Phase
    var approvers: map<string, Approver>
    var challenges: map<string, Bytes>
    var votes: map<string, bool>

    /** A threshold that is not positive falls back to the demo value. */
    constructor (tokens: Access.TokenStore, worm: WormLock, verify: Verifier, threshold: int)
      requires tokens.log == worm.log
      ensures this.tokens == tokens && this.worm == worm && this.verify == verify
      ensures this.threshold == (if threshold > 0 then threshold else 3)
      ensures Start(Model())
    {
      this.tokens, this.worm, this.verify := tokens, worm, verify;
      this.threshold := if threshold > 0 then threshold else DEMO_THRESHOLD;
      phase, approvers, challenges, votes := IDLE, map[], map[], map[];
    }

    function Model(): World
      reads this, tokens, worm, worm.log
    {
      World(Protocol(threshold, phase, approvers, challenges, votes), tokens.tokens, worm.Model())
    }

    method RegisterApprover(name: string, a: Approver)
      modifies this`approvers, this`votes
      ensures Model() == Apply(verify, old(Model()), OnRegister(name, a))
      ensures name in approvers
    {
      if name in approvers {
        return;
      }
      approvers := approvers[name := a];
      votes := votes[name := false];
    }

    method BeginSession()
      modifies this`votes, this`challenges, this`phase
      ensures Model() == Apply(verify, old(Model()), OnBegin)
      ensures phase == COLLECTING
    {
      if phase == COLLECTING {
        return;
      }
      var todo := votes.Keys;
      while todo != {}
        invariant todo <= votes.Keys == old(votes).Keys
        invariant forall name :: name in votes && name !in todo ==> !votes[name]
        decreases |todo|
      {
        var name :| name in todo;
        votes := votes[name := false];
        todo := todo - {name};
      }
      challenges := map[];
      phase := COLLECTING;
      assert votes == map name | name in old(votes) :: false;
    }

    /** `nonce` is what generate_challenge(32) returns if it is called; an unknown approver gets
        an empty vector. */
    method GetChallenge(name: string, nonce: Bytes) returns (challenge: Bytes)
      modifies this`challenges
      ensures Model() == Apply(verify, old(Model()), OnIssue(name, nonce))
      ensures if name in approvers then name in challenges && challenge == challenges[name] else challenge == []
    {
      if name !in approvers {
        return [];
      }
      if name !in challenges {
        challenges := challenges[name := nonce];
      }
      return challenges[name];
    }

    method VotesCollected() returns (count: nat)
      ensures count == |Voted(votes)|
    {
      count := 0;
      var todo := votes.Keys;
      ghost var counted: set<string> := {};
      while todo != {}
        invariant todo <= votes.Keys
        invariant counted == (set name | name in votes && name !in todo && votes[name])
        invariant count == |counted|
        decreases |todo|
      {
        var name :| name in todo;
        todo := todo - {name};
        if votes[name] {
          count := count + 1;
          counted := counted + {name};
        }
      }
      assert counted == Voted(votes);
    }

    method RejectVote(reason: Reason) returns (r: VoteResult)
      modifies worm.log
      ensures worm.log.entries == old(worm.log.entries) + [WormUnlockVoteRejected]
      ensures r == VoteResult(false, reason, |Voted(votes)|, false)
    {
      worm.log.Add(WormUnlockVoteRejected);
      var collected := VotesCollected();
      return VoteResult(false, reason, collected, false);
    }

    /** Steps 1 to 5 of cast_vote: the checks, in their order. */
    method CheckVote(name: string, req: SignedRequest, nowMs: int) returns (reason: Reason)
      requires tokens.log == worm.log
      requires name in approvers ==> name in votes
      modifies worm.log
      ensures reason == Judge(verify, old(Model()), name, req, nowMs)
      ensures worm.log.entries == old(worm.log.entries) + (if reason.ScopeDenied? then [TokenDenied] else [])
    {
      if phase == IDLE {
        return NotCollecting;
      }
      if phase == GRANTED {
        return AlreadyGranted;
      }
      if name !in approvers {
        return UnknownApprover;
      }
      if votes[name] {
        return Duplicate;
      }
      var access := tokens.Check(approvers[name].tokenId, VOTE_SCOPE, nowMs);
      if access.Denied? {
        return ScopeDenied(access.reason);
      }
      if name !in challenges {
        return NoChallengeIssued;
      }
      if !VerifySignedRequest(verify, req, challenges[name], approvers[name].publicKey) {
        return BadSignature;
      }
      return Ok;
    }

    method CastVote(name: string, req: SignedRequest, nowMs: int) returns (r: VoteResult)
      requires tokens.log == worm.log
      requires Counted(Model().p)
      modifies this, worm, worm.log
      ensures Model() == Apply(verify, old(Model()), OnCast(name, req, nowMs))
      ensures r.reason == Judge(verify, old(Model()), name, req, nowMs)
      ensures r.accepted <==> r.reason == Ok
      ensures r.votesNow == |Voted(votes)|
      ensures r.unlocked <==> r.accepted && r.votesNow >= threshold
      ensures r.unlocked ==> phase == GRANTED && !worm.locked
      ensures Counted(Model().p)
    {
      CountedCast(verify, Model(), name, req, nowMs);
      var reason := CheckVote(name, req, nowMs);
      if reason == Ok {
        r := AcceptVote(name);
      } else {
        r := RejectVote(reason);
      }
    }

    /** Steps 6 and 7 of cast_vote. */
    method AcceptVote(name: string) returns (r: VoteResult)
      requires tokens.log == worm.log
      modifies this, worm, worm.log
      ensures Model() == Accept(old(Model()), name)
      ensures r == VoteResult(true, Ok, |Voted(votes)|, |Voted(votes)| >= threshold)
      ensures r.unlocked ==> phase == GRANTED && !worm.locked
    {
      votes := votes[name := true];
      challenges := challenges - {name};
      var collected := VotesCollected();
      worm.log.Add(WormUnlockVote);
      if collected >= threshold {
        phase := GRANTED;
        worm.log.Add(WormUnlockGranted);
        var _ := worm.Unlock();
        return VoteResult(true, Ok, collected, true);
      }
      return VoteResult(true, Ok, collected, false);
    }
  }
}
