/** The two grant handlers of the token endpoint, driving the stores in place. Each is shown to be
    an uninterrupted run of the step machine, so what holds of every run holds of the handlers. */
module OauthGrants {
  import opened Wrappers
  import opened OauthStore
  import opened OauthToken

  datatype GrantError = InvalidRequest | InvalidClient | InvalidGrant | ServerError

  class TokenEndpoint {
    const pending: AuthCodeStore
    const refreshTokens: RefreshTable
    var users: set<UserId>

    constructor ()
      ensures fresh(pending) && fresh(refreshTokens)
      ensures users == {} && pending.codes == map[] && refreshTokens.rows == map[]
    {
      pending := new AuthCodeStore();
      refreshTokens := new RefreshTable();
      users := {};
    }

    /** The stores hold what the step machine's state `e` holds. */
    ghost predicate Represents(e: Endpoint)
      reads this, pending, refreshTokens
    {
      e.codes == pending.codes && e.rows == refreshTokens.rows && e.users == users
    }

    /** The `authorization_code` grant. `commits` is whether the insert's transaction goes through. */
    method AuthorizationCode(ghost e: Endpoint, code: Option<Code>, clientId: Option<ClientId>, redirectUri: Option<string>,
                             verifierS256: Option<string>, authenticated: bool, hash: TokenHash, familyId: FamilyId,
                             now: nat, commits: bool)
      returns (issued: Result<TokenHash, GrantError>, ghost steps: seq<Step>)
      requires Represents(e) && e.now == now && Numbered(e) && hash == e.nextHash && familyId == e.nextFamily
      modifies pending, refreshTokens
      ensures IsRun(e, steps) && Represents(After(e, steps))
      ensures After(e, steps).exchanges == e.exchanges
      ensures issued.Ok? <==> code.Some? && clientId.Some? && verifierS256.Some? && authenticated && commits
                              && code.value in old(pending.codes) && old(pending.codes)[code.value].expiresAt >= now
                              && var auth := old(pending.codes)[code.value].auth;
                              && clientId.value == auth.grant.clientId && redirectUri == Some(auth.redirectUri)
                              && verifierS256.value == auth.codeChallenge && auth.grant.userId in users
      ensures issued == Err(InvalidClient) <==> code.Some? && clientId.Some? && verifierS256.Some? && !authenticated
      ensures issued == Err(InvalidRequest) <==>
                || code.None? || clientId.None? || verifierS256.None?
                || (authenticated && redirectUri.None? && code.value in old(pending.codes)
                    && old(pending.codes)[code.value].expiresAt >= now
                    && clientId.value == old(pending.codes)[code.value].auth.grant.clientId)
      ensures issued == Err(ServerError) ==> !commits
      ensures issued.Ok? ==>
                var row := RefreshRow(old(pending.codes)[code.value].auth.grant, familyId, false, now + REFRESH_TTL_SECS);
                OutcomeOf(refreshTokens.rows, now, issued.value) == Valid(row)
      ensures issued.Err? ==> refreshTokens.rows == old(refreshTokens.rows)
      ensures code.Some? && clientId.Some? && verifierS256.Some? && authenticated ==> code.value !in pending.codes
    {
      steps := [];
      NumberedIsFree(e);
      hide IsRun, After, Next, Can, Numbered, SameGrant, Presented;
      EmptyRun(e);
      if code.None? || clientId.None? || verifierS256.None? {
        return Err(InvalidRequest), steps;
      }
      if !authenticated {
        return Err(InvalidClient), steps;
      }
      ghost var form := Form(clientId.value, redirectUri, verifierS256.value);
      var taken := pending.TakeCode(now, code.value);
      if taken.None? {
        steps := [PresentCode(code.value, form)];
        CodeRefused(e, code.value, form);
        return Err(InvalidGrant), steps;
      }
      var auth := taken.value;
      steps := [PresentCode(code.value, form), CheckCode(e.nextExchange)];
      CodeChecked(e, code.value, form, auth);
      if auth.grant.clientId != clientId.value {
        return Err(InvalidGrant), steps;
      }
      if redirectUri.None? {
        return Err(InvalidRequest), steps;
      }
      if redirectUri.value != auth.redirectUri {
        return Err(InvalidGrant), steps;
      }
      if verifierS256.value != auth.codeChallenge {
        return Err(InvalidGrant), steps;
      }
      if auth.grant.userId !in users {
        return Err(InvalidGrant), steps;
      }
      if !commits {
        Abandoned(e, steps, After(e, steps), e.nextExchange);
        steps := steps + [Fail(e.nextExchange)];
        return Err(ServerError), steps;
      }
      Issued(e, steps, After(e, steps), e.nextExchange, InsertRoot(e.nextExchange), auth.grant, familyId);
      steps := steps + [InsertRoot(e.nextExchange)];
      var inserted := refreshTokens.Insert(now, hash, auth.grant, familyId, REFRESH_TTL_SECS);
      return Ok(hash), steps;
    }

    /** The `refresh_token` grant. */
    method RefreshToken(ghost e: Endpoint, token: Option<TokenHash>, clientId: Option<ClientId>, authenticated: bool,
                        hash: TokenHash, now: nat, commits: bool)
      returns (issued: Result<TokenHash, GrantError>, ghost steps: seq<Step>)
      requires Represents(e) && e.now == now && Numbered(e) && hash == e.nextHash
      modifies refreshTokens
      ensures IsRun(e, steps) && Represents(After(e, steps))
      ensures After(e, steps).exchanges == e.exchanges
      ensures issued.Ok? <==> token.Some? && clientId.Some? && authenticated && commits
                              && token.value in old(refreshTokens.rows)
                              && var row := old(refreshTokens.rows)[token.value];
                              && !row.consumed && row.expiresAt >= now
                              && clientId.value == row.grant.clientId && row.grant.userId in users
      ensures issued == Err(InvalidRequest) <==> token.None? || clientId.None?
      ensures issued == Err(InvalidClient) <==> token.Some? && clientId.Some? && !authenticated
      ensures issued == Err(ServerError) ==> !commits
      ensures issued.Ok? ==>
                var row := old(refreshTokens.rows)[token.value];
                && OutcomeOf(refreshTokens.rows, now, token.value) == Replayed(row.familyId)
                && OutcomeOf(refreshTokens.rows, now, issued.value) ==
                   Valid(RefreshRow(row.grant, row.familyId, false, now + REFRESH_TTL_SECS))
      ensures token.None? || clientId.None? || !authenticated ==> refreshTokens.rows == old(refreshTokens.rows)
      ensures issued.Err? && token.Some? && clientId.Some? && authenticated ==>
                refreshTokens.rows ==
                if OutcomeOf(old(refreshTokens.rows), now, token.value).Replayed?
                then WithoutFamily(old(refreshTokens.rows), old(refreshTokens.rows)[token.value].familyId)
                else Presented(old(refreshTokens.rows), now, token.value)
    {
      steps := [];
      NumberedIsFree(e);
      hide IsRun, After, Next, Can, Numbered, SameGrant, Presented;
      EmptyRun(e);
      if token.None? || clientId.None? {
        return Err(InvalidRequest), steps;
      }
      if !authenticated {
        return Err(InvalidClient), steps;
      }
      var outcome := refreshTokens.Consume(now, token.value);
      match outcome
      case Missing =>
        steps := [PresentRefresh(token.value, clientId.value)];
        TokenUnknown(e, token.value, clientId.value);
        return Err(InvalidGrant), steps;
      case Replayed(familyId) =>
        steps := [PresentRefresh(token.value, clientId.value), OauthToken.RevokeFamily(e.nextExchange)];
        TokenReplayed(e, token.value, clientId.value);
        refreshTokens.RevokeFamily(familyId);
        return Err(InvalidGrant), steps;
      case Valid(row) =>
        steps := [PresentRefresh(token.value, clientId.value), CheckRotation(e.nextExchange)];
        TokenChecked(e, token.value, clientId.value, row);
        if row.grant.clientId != clientId.value {
          return Err(InvalidGrant), steps;
        }
        if row.grant.userId !in users {
          return Err(InvalidGrant), steps;
        }
        if !commits {
          Abandoned(e, steps, After(e, steps), e.nextExchange);
          steps := steps + [Fail(e.nextExchange)];
          return Err(ServerError), steps;
        }
        Issued(e, steps, After(e, steps), e.nextExchange, InsertNext(e.nextExchange), row.grant, row.familyId);
        steps := steps + [InsertNext(e.nextExchange)];
        var inserted := refreshTokens.Insert(now, hash, row.grant, row.familyId, REFRESH_TTL_SECS);
        return Ok(hash), steps;
    }
  }

  /** `e'` holds these codes and rows, and one exchange `x` more than `e`, or none. */
  predicate Reaches(e: Endpoint, e': Endpoint, codes: map<Code, PendingCode>, rows: Rows, open: Option<Exchange>) {
    && e'.codes == codes && e'.rows == rows
    && e'.users == e.users && e'.now == e.now && e'.nextHash == e.nextHash
    && e'.exchanges == if open.Some? then e.exchanges[e.nextExchange := open.value] else e.exchanges
  }

  predicate Free(e: Endpoint) {
    e.nextExchange !in e.exchanges
  }

  lemma NumberedIsFree(e: Endpoint)
    requires Numbered(e)
    ensures Free(e) && e.nextHash !in e.rows
  {
  }

  lemma CodeRefused(e: Endpoint, code: Code, form: Form)
    requires Redeemable(e.codes, e.now, code).None?
    ensures var steps := [PresentCode(code, form)];
      IsRun(e, steps) && Reaches(e, After(e, steps), e.codes - {code}, e.rows, None)
  {
    OneStep(e, PresentCode(code, form));
  }

  lemma CodeChecked(e: Endpoint, code: Code, form: Form, auth: AuthCode)
    requires Free(e) && Redeemable(e.codes, e.now, code) == Some(auth)
    ensures var steps := [PresentCode(code, form), CheckCode(e.nextExchange)];
      && IsRun(e, steps)
      && Reaches(e, After(e, steps), e.codes - {code}, e.rows,
                 if CodeChecksOut(e, auth, form) then Some(Rooting(code, auth.grant, e.nextFamily)) else None)
  {
    TwoSteps(e, PresentCode(code, form), CheckCode(e.nextExchange));
  }

  lemma TokenUnknown(e: Endpoint, hash: TokenHash, clientId: ClientId)
    requires OutcomeOf(e.rows, e.now, hash).Missing?
    ensures var steps := [PresentRefresh(hash, clientId)];
      IsRun(e, steps) && Reaches(e, After(e, steps), e.codes, Presented(e.rows, e.now, hash), None)
  {
    OneStep(e, PresentRefresh(hash, clientId));
  }

  lemma ReplayStarts(e: Endpoint, hash: TokenHash, clientId: ClientId)
    requires OutcomeOf(e.rows, e.now, hash).Replayed?
    ensures Presented(e.rows, e.now, hash) == e.rows
    ensures Can(e, PresentRefresh(hash, clientId))
    ensures Next(e, PresentRefresh(hash, clientId)) == Start(e, Revoking(e.rows[hash].familyId))
  {
    assert Presented(e.rows, e.now, hash) == e.rows;
  }

  lemma StartedRevokes(e: Endpoint, f: FamilyId)
    requires Free(e)
    ensures var started := Start(e, Revoking(f));
      && Can(started, OauthToken.RevokeFamily(e.nextExchange))
      && Reaches(e, Next(started, OauthToken.RevokeFamily(e.nextExchange)), e.codes, WithoutFamily(e.rows, f), None)
  {
    assert e.exchanges[e.nextExchange := Revoking(f)] - {e.nextExchange} == e.exchanges;
  }

  lemma TokenReplayed(e: Endpoint, hash: TokenHash, clientId: ClientId)
    requires Free(e) && OutcomeOf(e.rows, e.now, hash).Replayed?
    ensures var steps := [PresentRefresh(hash, clientId), OauthToken.RevokeFamily(e.nextExchange)];
      && IsRun(e, steps)
      && Presented(e.rows, e.now, hash) == e.rows
      && Reaches(e, After(e, steps), e.codes, WithoutFamily(e.rows, e.rows[hash].familyId), None)
  {
    hide Next, Can, Presented, WithoutFamily, Start, Reaches;
    ReplayStarts(e, hash, clientId);
    StartedRevokes(e, e.rows[hash].familyId);
    TwoSteps(e, PresentRefresh(hash, clientId), OauthToken.RevokeFamily(e.nextExchange));
  }

  lemma TokenChecked(e: Endpoint, hash: TokenHash, clientId: ClientId, row: RefreshRow)
    requires Free(e) && OutcomeOf(e.rows, e.now, hash) == Valid(row)
    ensures var steps := [PresentRefresh(hash, clientId), CheckRotation(e.nextExchange)];
      && IsRun(e, steps)
      && Reaches(e, After(e, steps), e.codes, Presented(e.rows, e.now, hash),
                 if RotationChecksOut(e, row, clientId) then Some(Reissuing(row.grant, row.familyId)) else None)
  {
    var started := Start(e.(rows := Presented(e.rows, e.now, hash)), Rotating(row, clientId));
    assert Next(e, PresentRefresh(hash, clientId)) == started;
    ChecksStarted(e, started, row, clientId);
    hide Next, Can, Presented, Start, Reaches, RotationChecksOut, OutcomeOf;
    TwoSteps(e, PresentRefresh(hash, clientId), CheckRotation(e.nextExchange));
  }

  lemma ChecksStarted(e: Endpoint, started: Endpoint, row: RefreshRow, clientId: ClientId)
    requires Free(e) && started.codes == e.codes && started.users == e.users && started.now == e.now && started.nextHash == e.nextHash
    requires started.exchanges == e.exchanges[e.nextExchange := Rotating(row, clientId)]
    ensures Can(started, CheckRotation(e.nextExchange))
    ensures Reaches(e, Next(started, CheckRotation(e.nextExchange)), e.codes, started.rows,
                    if RotationChecksOut(e, row, clientId) then Some(Reissuing(row.grant, row.familyId)) else None)
  {
  }

  /** The response is lost or the insert fails: the exchange ends with nothing issued. */
  lemma Abandoned(e: Endpoint, steps: seq<Step>, e': Endpoint, x: ExchangeId)
    requires IsRun(e, steps) && e' == After(e, steps) && x !in e.exchanges
    requires x in e'.exchanges && e'.exchanges - {x} == e.exchanges
    ensures IsRun(e, steps + [Fail(x)])
    ensures After(e, steps + [Fail(x)]) == e'.(exchanges := e.exchanges)
  {
    RunExtends(e, steps, Fail(x));
  }

  lemma Issued(e: Endpoint, steps: seq<Step>, e': Endpoint, x: ExchangeId, s: Step, grant: Grant, familyId: FamilyId)
    requires IsRun(e, steps) && e' == After(e, steps) && x !in e.exchanges
    requires x in e'.exchanges && e'.exchanges - {x} == e.exchanges && grant.userId in e'.users
    requires (s == InsertRoot(x) && e'.exchanges[x].Rooting?) || (s == InsertNext(x) && e'.exchanges[x].Reissuing?)
    requires e'.exchanges[x].grant == grant && e'.exchanges[x].familyId == familyId
    ensures IsRun(e, steps + [s])
    ensures After(e, steps + [s]) == Insert(e', grant, familyId).(exchanges := e.exchanges)
  {
    RunExtends(e, steps, s);
  }

  lemma OneStep(e: Endpoint, s: Step)
    requires Can(e, s)
    ensures IsRun(e, [s]) && After(e, [s]) == Next(e, s)
  {
    hide Next, Can;
    assert [s][1..] == [];
  }

  lemma TwoSteps(e: Endpoint, s: Step, t: Step)
    requires Can(e, s) && Can(Next(e, s), t)
    ensures IsRun(e, [s, t]) && After(e, [s, t]) == Next(Next(e, s), t)
  {
    hide Next, Can;
    OneStep(Next(e, s), t);
    assert [s, t][1..] == [t];
  }
}
