/** The zero-trust token store (core/access_token).  Token ids and the clock are inputs. */
module Access {
  import opened EventLog

  datatype AccessToken = AccessToken(identity: string, scope: string, grantedAtMs: int, expiresAtMs: int)
  datatype StoredToken = StoredToken(token: AccessToken, revoked: bool)
  datatype Denial = NotFound | Expired | Revoked | ScopeMismatch
  datatype AccessResult = Granted | Denied(reason: Denial)

  type Tokens = map<string, StoredToken>

  // ---- Specification -----------------------------------------------------------------

  function CheckAccess(tokens: Tokens, id: string, scope: string, nowMs: int): AccessResult {
    if id !in tokens then Denied(NotFound)
    else if nowMs >= tokens[id].token.expiresAtMs then Denied(Expired)
    else if tokens[id].revoked then Denied(Revoked)
    else if tokens[id].token.scope != scope then Denied(ScopeMismatch)
    else Granted
  }

  predicate Grantable(identity: string, scope: string, ttlMs: int) {
    identity != "" && scope != "" && ttlMs > 0
  }

  function Grant(tokens: Tokens, id: string, identity: string, scope: string, ttlMs: int, nowMs: int): Tokens {
    if Grantable(identity, scope, ttlMs) then
      tokens[id := StoredToken(AccessToken(identity, scope, nowMs, nowMs + ttlMs), false)]
    else tokens
  }

  function Revoke(tokens: Tokens, id: string): Tokens {
    if id in tokens then tokens[id := tokens[id].(revoked := true)] else tokens
  }

  predicate Live(t: StoredToken, nowMs: int) {
    !t.revoked && nowMs < t.token.expiresAtMs
  }

  function LiveIds(tokens: Tokens, nowMs: int): set<string> {
    set id | id in tokens && Live(tokens[id], nowMs)
  }

  datatype Step =
    | OnGrant(id: string, identity: string, scope: string, ttlMs: int, nowMs: int)
    | OnRevoke(id: string)

  function Apply(tokens: Tokens, s: Step): Tokens {
    match s
    case OnGrant(id, identity, scope, ttlMs, nowMs) => Grant(tokens, id, identity, scope, ttlMs, nowMs)
    case OnRevoke(id) => Revoke(tokens, id)
  }

  function Run(tokens: Tokens, steps: seq<Step>): Tokens {
    if steps == [] then tokens else Apply(Run(tokens, steps[..|steps| - 1]), steps[|steps| - 1])
  }

  // ---- Properties --------------------------------------------------------------------

  /** Access follows from a live token of the required scope and from nothing else. */
  lemma AccessIffLiveScope(tokens: Tokens, id: string, scope: string, nowMs: int)
    ensures CheckAccess(tokens, id, scope, nowMs) == Granted
       <==> id in LiveIds(tokens, nowMs) && tokens[id].token.scope == scope
  {
  }

  /** A denial gives the first of these that applies: no such token, expired, revoked, another
      scope. */
  lemma DenialReason(tokens: Tokens, id: string, scope: string, nowMs: int)
    ensures var r := CheckAccess(tokens, id, scope, nowMs);
            && (r == Denied(NotFound) <==> id !in tokens)
            && (r == Denied(Expired) <==> id in tokens && nowMs >= tokens[id].token.expiresAtMs)
            && (r == Denied(Revoked) <==>
                  id in tokens && nowMs < tokens[id].token.expiresAtMs && tokens[id].revoked)
            && (r == Denied(ScopeMismatch) <==>
                  id in LiveIds(tokens, nowMs) && tokens[id].token.scope != scope)
  {
  }

  /** The life of a token: it gives access to its scope from its grant until `ttlMs` later, and to
      nothing else. */
  lemma TokenLife(tokens: Tokens, id: string, identity: string, scope: string, ttlMs: int, nowMs: int,
                  wanted: string, atMs: int)
    requires identity != "" && scope != "" && ttlMs > 0
    ensures CheckAccess(Grant(tokens, id, identity, scope, ttlMs, nowMs), id, wanted, atMs) == Granted
       <==> wanted == scope && atMs - nowMs < ttlMs
  {
  }

  /** A revoked token is denied as revoked until it expires, and as expired from then on; nothing
      changes for any other id, and granting changes nothing for any other id either. */
  lemma RevokedAnswer(tokens: Tokens, id: string, other: string, scope: string, nowMs: int)
    ensures CheckAccess(Revoke(tokens, id), id, scope, nowMs)
         == Denied(if id !in tokens then NotFound
                   else if nowMs >= tokens[id].token.expiresAtMs then Expired else Revoked)
    ensures other != id ==>
              CheckAccess(Revoke(tokens, id), other, scope, nowMs) == CheckAccess(tokens, other, scope, nowMs)
  {
  }

  lemma OthersKeep(tokens: Tokens, id: string, identity: string, granted: string, ttlMs: int, grantMs: int,
                   other: string, scope: string, nowMs: int)
    requires other != id || identity == "" || granted == "" || ttlMs <= 0
    ensures CheckAccess(Grant(tokens, id, identity, granted, ttlMs, grantMs), other, scope, nowMs)
         == CheckAccess(tokens, other, scope, nowMs)
  {
  }

  /** Revocation is final: whatever is granted or revoked afterwards, a revoked id is denied
      for every scope at every time, as long as the id itself is not issued again. */
  lemma {:induction false} RevocationIsFinal(tokens: Tokens, id: string, steps: seq<Step>, scope: string, nowMs: int)
    requires forall i :: 0 <= i < |steps| && steps[i].OnGrant? ==> steps[i].id != id
    ensures CheckAccess(Run(Revoke(tokens, id), steps), id, scope, nowMs).Denied?
  {
    if steps != [] {
      RevocationIsFinal(tokens, id, steps[..|steps| - 1], scope, nowMs);
      RevokedStays(tokens, id, steps);
    }
  }

  lemma {:induction false} RevokedStays(tokens: Tokens, id: string, steps: seq<Step>)
    requires forall i :: 0 <= i < |steps| && steps[i].OnGrant? ==> steps[i].id != id
    ensures id in tokens ==> id in Run(Revoke(tokens, id), steps) && Run(Revoke(tokens, id), steps)[id].revoked
    ensures id !in tokens ==> id !in Run(Revoke(tokens, id), steps)
  {
    if steps != [] {
      RevokedStays(tokens, id, steps[..|steps| - 1]);
    }
  }

  // ---- Implementation ----------------------------------------------------------------

  class TokenStore {
    const log: Log
    var tokens: Tokens
    var totalGranted: nat

    constructor (log: Log)
      ensures this.log == log && tokens == map[] && totalGranted == 0
    {
      this.log := log;
      tokens, totalGranted := map[], 0;
    }

    /** The three invalid-argument exceptions are the result false. */
    method GrantToken(id: string, identity: string, scope: string, ttlMs: int, nowMs: int) returns (ok: bool)
      modifies this, log
      ensures ok <==> identity != "" && scope != "" && ttlMs > 0
      ensures tokens == Grant(old(tokens), id, identity, scope, ttlMs, nowMs)
      ensures totalGranted == old(totalGranted) + (if ok then 1 else 0)
      ensures log.entries == old(log.entries) + (if ok then [TokenGranted] else [])
      ensures ok ==>
                && tokens - {id} == old(tokens) - {id}
                && id in tokens && tokens[id].token == AccessToken(identity, scope, nowMs, nowMs + ttlMs)
      ensures !ok ==> tokens == old(tokens)
      ensures ok ==> forall t :: CheckAccess(tokens, id, scope, t) == Granted <==> t < nowMs + ttlMs
    {
      if identity == "" || scope == "" || ttlMs <= 0 {
        return false;
      }
      tokens := tokens[id := StoredToken(AccessToken(identity, scope, nowMs, nowMs + ttlMs), false)];
      totalGranted := totalGranted + 1;
      log.Add(TokenGranted);
      return true;
    }

    method RevokeToken(id: string) returns (burned: bool)
      modifies this`tokens, log
      ensures burned <==> id in old(tokens) && !old(tokens)[id].revoked
      ensures tokens == Revoke(old(tokens), id)
      ensures tokens - {id} == old(tokens) - {id} && tokens.Keys == old(tokens).Keys
      ensures id in tokens ==> tokens[id].revoked && tokens[id].token == old(tokens)[id].token
      ensures log.entries == old(log.entries) + (if burned then [TokenRevoked] else [])
    {
      if id !in tokens {
        return false;
      }
      if tokens[id].revoked {
        assert tokens == tokens[id := tokens[id].(revoked := true)];
        return false;
      }
      tokens := tokens[id := tokens[id].(revoked := true)];
      log.Add(TokenRevoked);
      return true;
    }

    method Check(id: string, scope: string, nowMs: int) returns (r: AccessResult)
      modifies log
      ensures r == CheckAccess(tokens, id, scope, nowMs)
      ensures log.entries == old(log.entries) + (if r == Granted then [] else [TokenDenied])
    {
      if id !in tokens {
        log.Add(TokenDenied);
        return Denied(NotFound);
      }
      var st := tokens[id];
      if nowMs >= st.token.expiresAtMs {
        log.Add(TokenDenied);
        return Denied(Expired);
      }
      if st.revoked {
        log.Add(TokenDenied);
        return Denied(Revoked);
      }
      if st.token.scope != scope {
        log.Add(TokenDenied);
        return Denied(ScopeMismatch);
      }
      return Granted;
    }

    method LiveTokenCount(nowMs: int) returns (count: nat)
      ensures count == |LiveIds(tokens, nowMs)|
    {
      count := 0;
      var todo := tokens.Keys;
      ghost var counted: set<string> := {};
      while todo != {}
        invariant todo <= tokens.Keys
        invariant counted == (set id | id in tokens && id !in todo && Live(tokens[id], nowMs))
        invariant count == |counted|
        decreases |todo|
      {
        var id :| id in todo;
        todo := todo - {id};
        if !tokens[id].revoked && nowMs < tokens[id].token.expiresAtMs {
          count := count + 1;
          counted := counted + {id};
        }
      }
      assert counted == LiveIds(tokens, nowMs);
    }
  }
}
