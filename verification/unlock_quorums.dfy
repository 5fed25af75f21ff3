/** Which teams of approvers can unlock (core/unlock_protocol): the counterpart of the quorum
    theorem, and what the two sides of the approvers have to do with it. */
module Quorums {
  import opened Worm
  import opened Crypto
  import opened Unlock
  import Access

  function Run(verify: Verifier, w: World, es: seq<Event>): World {
    if es == [] then w else Apply(verify, Run(verify, w, es[..|es| - 1]), es[|es| - 1])
  }

  lemma {:induction false} RunConcat(verify: Verifier, w: World, a: seq<Event>, b: seq<Event>)
    ensures Run(verify, w, a + b) == Run(verify, Run(verify, w, a), b)
  {
    if b == [] {
      assert a + b == a;
    } else {
      assert (a + b)[..|a + b| - 1] == a + b[..|b| - 1];
      RunConcat(verify, w, a, b[..|b| - 1]);
    }
  }

  predicate NoRegistration(es: seq<Event>) {
    forall i :: 0 <= i < |es| ==> !es[i].OnRegister?
  }

  /** How an approver answers a challenge. */
  type Signer = (string, Bytes) -> SignedRequest

  /** The approver is registered, holds a live voting token at that time, and its answers verify
      under its registered key. */
  ghost predicate Able(verify: Verifier, w: World, sign: Signer, nowMs: int, name: string) {
    && name in w.p.approvers
    && var a := w.p.approvers[name];
    && Access.CheckAccess(w.tokens, a.tokenId, VOTE_SCOPE, nowMs) == Access.Granted
    && forall c :: VerifySignedRequest(verify, sign(name, c), c, a.publicKey)
  }

  /** One approver's turn: fetch the challenge, sign it, vote. */
  lemma OneVote(verify: Verifier, w: World, sign: Signer, nowMs: int, name: string, nonce: Bytes)
    returns (es: seq<Event>)
    requires Counted(w.p) && w.p.phase == COLLECTING
    requires Able(verify, w, sign, nowMs, name) && name !in Voted(w.p.votes)
    ensures NoRegistration(es)
    ensures var w' := Run(verify, w, es);
            && Counted(w'.p) && w'.tokens == w.tokens
            && w'.p.approvers == w.p.approvers && w'.p.threshold == w.p.threshold
            && Voted(w'.p.votes) == Voted(w.p.votes) + {name}
            && |Voted(w'.p.votes)| == |Voted(w.p.votes)| + 1
            && (w'.p.phase == GRANTED ==> !w'.lock.locked)
            && w'.p.phase != IDLE
  {
    var issued := Apply(verify, w, OnIssue(name, nonce));
    var vote := OnCast(name, sign(name, issued.p.challenges[name]), nowMs);
    CountedStep(verify, w, OnIssue(name, nonce));
    assert Judge(verify, issued, name, vote.req, nowMs) == Ok;
    CountedAccept(issued, name);
    es := [OnIssue(name, nonce), vote];
    assert es[..1] == [OnIssue(name, nonce)] && es[..1][..0] == [];
    assert Run(verify, w, es[..1]) == issued;
  }

  /** Any team of approvers, each able to vote, that completes the threshold can lift the lock:
      together with the quorum theorem, the protocol unlocks for these teams and no others. */
  lemma {:induction false} QuorumSuffices(verify: Verifier, w: World, sign: Signer, nowMs: int, team: set<string>)
    returns (es: seq<Event>)
    requires Counted(w.p) && w.p.phase == COLLECTING
    requires forall name :: name in team ==> Able(verify, w, sign, nowMs, name)
    requires team !! Voted(w.p.votes) && |Voted(w.p.votes)| + |team| == w.p.threshold
    ensures NoRegistration(es)
    ensures var w' := Run(verify, w, es);
            && w'.p.phase == GRANTED && !w'.lock.locked
            && Voted(w'.p.votes) == Voted(w.p.votes) + team
    decreases |team|
  {
    var name :| name in team;
    es := OneVote(verify, w, sign, nowMs, name, []);
    var w' := Run(verify, w, es);
    var rest := team - {name};
    if rest == {} {
      assert team == {name};
    } else {
      assert |rest| == |team| - 1;
      forall n | n in rest ensures Able(verify, w', sign, nowMs, n) {
        assert Able(verify, w, sign, nowMs, n);
      }
      var more := QuorumSuffices(verify, w', sign, nowMs, rest);
      RunConcat(verify, w, es, more);
      es := es + more;
      assert Voted(w.p.votes) + {name} + rest == Voted(w.p.votes) + team;
    }
  }

  // ---- Both sides --------------------------------------------------------------------

  function Members(p: Protocol, side: Side): set<string> {
    set name | name in p.approvers && p.approvers[name].side == side
  }

  /** A team that could complete an empty session. */
  predicate Team(p: Protocol, team: set<string>) {
    team <= p.approvers.Keys && |team| == p.threshold
  }

  predicate OneSided(p: Protocol, team: set<string>) {
    exists side :: team <= Members(p, side)
  }

  lemma {:induction false} SubsetOfSize(s: set<string>, n: nat) returns (t: set<string>)
    requires n <= |s|
    ensures t <= s && |t| == n
  {
    if n == |s| {
      t := s;
    } else {
      var name :| name in s;
      assert |s - {name}| == |s| - 1;
      t := SubsetOfSize(s - {name}, n);
    }
  }

  lemma {:induction false} SmallerSubset(t: set<string>, s: set<string>)
    requires t <= s
    ensures |t| <= |s|
  {
    if name :| name in t {
      SmallerSubset(t - {name}, s - {name});
    }
  }

  /** Every team spans both sides exactly when each side alone has fewer approvers than the
      threshold. */
  lemma BothSidesIffEachTooSmall(p: Protocol)
    ensures (forall team :: Team(p, team) ==> !OneSided(p, team))
       <==> |Members(p, ASTARTIS)| < p.threshold && |Members(p, CLIENT)| < p.threshold
  {
    if team :| Team(p, team) && OneSided(p, team) {
      var side :| team <= Members(p, side);
      SmallerSubset(team, Members(p, side));
    }
    forall side | |Members(p, side)| >= p.threshold
      ensures exists team :: Team(p, team) && OneSided(p, team)
    {
      var team := SubsetOfSize(Members(p, side), p.threshold);
      assert Team(p, team) && OneSided(p, team);
    }
  }

  lemma {:induction false} ApproversPersist(verify: Verifier, t: Trace, a: nat, b: nat, name: string)
    requires IsRun(verify, t) && a <= b <= |t.events|
    requires name in t.worlds[a].p.approvers
    ensures name in t.worlds[b].p.approvers
    ensures t.worlds[b].p.approvers[name] == t.worlds[a].p.approvers[name]
  {
    if a < b {
      ApproversPersist(verify, t, a, b - 1, name);
      assert Stepped(verify, t, b - 1);
    }
  }

  /** In every run: a quorum spans both sides if each side has fewer approvers than the threshold when
      the lock is lifted. */
  lemma QuorumSpans(verify: Verifier, t: Trace, k: nat, opening: nat, ballots: map<string, nat>)
    requires IsRun(verify, t) && k < |t.events| && Quorum(verify, t, k, opening, ballots)
    requires forall side :: |Members(t.worlds[k].p, side)| < t.worlds[k].p.threshold
    ensures Team(t.worlds[k].p, ballots.Keys) && !OneSided(t.worlds[k].p, ballots.Keys)
  {
    var p := t.worlds[k].p;
    CountedAlways(verify, t, k);
    forall name | name in ballots ensures name in p.approvers {
      ApproversPersist(verify, t, ballots[name], k, name);
    }
    assert |ballots.Keys| == |ballots|;
    assert Team(p, ballots.Keys);
    BothSidesIffEachTooSmall(p);
  }

  /** One side alone lifts the lock as soon as it has enough approvers who are able to vote. */
  lemma OneSideLifts(verify: Verifier, w: World, sign: Signer, nowMs: int, side: Side) returns (es: seq<Event>)
    requires Counted(w.p) && w.p.phase == COLLECTING && Voted(w.p.votes) == {}
    requires |Members(w.p, side)| >= w.p.threshold
    requires forall name :: name in Members(w.p, side) ==> Able(verify, w, sign, nowMs, name)
    ensures NoRegistration(es)
    ensures var w' := Run(verify, w, es);
            w'.p.phase == GRANTED && !w'.lock.locked && Voted(w'.p.votes) <= Members(w.p, side)
  {
    var team := SubsetOfSize(Members(w.p, side), w.p.threshold);
    es := QuorumSuffices(verify, w, sign, nowMs, team);
  }

  lemma {:induction false} RunKeepsApprovers(verify: Verifier, w: World, es: seq<Event>)
    requires Counted(w.p) && NoRegistration(es)
    ensures var w' := Run(verify, w, es);
            Counted(w'.p) && w'.p.approvers == w.p.approvers && w'.p.threshold == w.p.threshold
  {
    if es != [] {
      RunKeepsApprovers(verify, w, es[..|es| - 1]);
      CountedStep(verify, Run(verify, w, es[..|es| - 1]), es[|es| - 1]);
    }
  }

  /** The run grants the session to voters of one side. */
  ghost predicate GrantsOneSided(verify: Verifier, w: World, es: seq<Event>) {
    var w' := Run(verify, w, es);
    w'.p.phase == GRANTED && OneSided(w.p, Voted(w'.p.votes))
  }

  /** The unlock is described as a vote across both sides.  No check asks for that: with approvers who
      are all able to vote, every run that grants the session, whatever happens in it but further
      registrations, has voters of both sides if and only if each side alone has fewer approvers
      than the threshold. */
  lemma BothSidesIff(verify: Verifier, w: World, sign: Signer, nowMs: int)
    requires Counted(w.p) && w.p.phase == COLLECTING && Voted(w.p.votes) == {}
    requires forall name :: name in w.p.approvers ==> Able(verify, w, sign, nowMs, name)
    ensures (forall es :: NoRegistration(es) ==> !GrantsOneSided(verify, w, es))
       <==> |Members(w.p, ASTARTIS)| < w.p.threshold && |Members(w.p, CLIENT)| < w.p.threshold
  {
    BothSidesIffEachTooSmall(w.p);
    forall es | NoRegistration(es) && Run(verify, w, es).p.phase == GRANTED
      ensures Team(w.p, Voted(Run(verify, w, es).p.votes))
    {
      RunKeepsApprovers(verify, w, es);
    }
    forall side | |Members(w.p, side)| >= w.p.threshold
      ensures exists es :: NoRegistration(es) && GrantsOneSided(verify, w, es)
    {
      var es := OneSideLifts(verify, w, sign, nowMs, side);
      assert GrantsOneSided(verify, w, es);
    }
  }
}
