/** How long what the token endpoint hands out lives, and which requests it serves: over every run,
    a token is usable exactly until it is presented, revoked or out of time, a code exactly until it
    is presented, swept or out of time, and an exchange comes to a token exactly if it was entitled
    to one. Everything is said by the fields of the rows, the codes and the requests. */
module OauthLives {
  import opened Wrappers
  import opened OauthStore
  import opened OauthToken
  import opened OauthRuns

  // ------------------------------------------------------------------------------------
  // Tokens
  // ------------------------------------------------------------------------------------

  /** The token would be accepted. */
  predicate Usable(e: Endpoint, h: TokenHash) {
    h in e.rows && !e.rows[h].consumed && e.now <= e.rows[h].expiresAt
  }

  /** What presenting a token comes to, by what its row holds. */
  lemma OutcomeByFields(e: Endpoint, h: TokenHash)
    ensures var outcome := OutcomeOf(e.rows, e.now, h);
      && (outcome.Valid? <==> Usable(e, h))
      && (outcome.Valid? ==> outcome.row == e.rows[h])
      && (outcome.Replayed? <==> h in e.rows && e.rows[h].consumed && e.now <= e.rows[h].expiresAt)
      && (outcome.Replayed? ==> outcome.familyId == e.rows[h].familyId)
  {
  }

  predicate Presents(s: Step, h: TokenHash) {
    s.PresentRefresh? && s.hash == h
  }

  /** The step revokes tokens of this family and grant. */
  predicate Revokes(e: Endpoint, s: Step, row: RefreshRow) {
    match s
    case RevokeFamily(x) => x in e.exchanges && e.exchanges[x].Revoking? && e.exchanges[x].familyId == row.familyId
    case RevokeUserClient(u, c) => row.grant.userId == u && row.grant.clientId == c
    case RevokeUser(u) => row.grant.userId == u
    case DeleteUser(u) => row.grant.userId == u
    case _ => false
  }

  /** A row goes exactly when it is revoked or presented too late, it is consumed exactly by being
      presented in time, and no other step changes anything in it. */
  lemma RowFate(e: Endpoint, s: Step, h: TokenHash)
    requires Numbered(e) && Can(e, s) && h in e.rows
    ensures var e', row := Next(e, s), e.rows[h];
      && (h !in e'.rows <==> Revokes(e, s, row) || (Presents(s, h) && row.expiresAt < e.now))
      && (h in e'.rows ==> e'.rows[h] == row.(consumed := row.consumed || Presents(s, h)))
  {
    hide WithCode, Redeemable, CodeChecksOut, RotationChecksOut;
  }

  /** A row is stored exactly by an insert, under a hash never used before. */
  lemma RowOrigin(e: Endpoint, s: Step, h: TokenHash)
    requires Numbered(e) && Can(e, s) && h !in e.rows
    ensures h in Next(e, s).rows <==> (s.InsertRoot? || s.InsertNext?) && h == e.nextHash
    ensures h in Next(e, s).rows ==>
              var x := e.exchanges[s.exchange];
              Next(e, s).rows[h] == RefreshRow(x.grant, x.familyId, false, e.now + REFRESH_TTL_SECS)
  {
    hide WithCode, Redeemable, CodeChecksOut, RotationChecksOut;
  }

  /** No step of the run presents or revokes the token. */
  predicate LeftAlone(e: Endpoint, steps: seq<Step>, h: TokenHash, row: RefreshRow)
    requires IsRun(e, steps)
    decreases steps
  {
    steps != [] ==>
      && !Presents(steps[0], h) && !Revokes(e, steps[0], row)
      && LeftAlone(Next(e, steps[0]), steps[1..], h, row)
  }

  /** A row that is there, unconsumed. */
  predicate Stands(e: Endpoint, h: TokenHash, row: RefreshRow) {
    h < e.nextHash && h in e.rows && e.rows[h] == row && !row.consumed
  }

  lemma StepOnStanding(e: Endpoint, s: Step, h: TokenHash, row: RefreshRow)
    requires Numbered(e) && Stands(e, h, row) && Can(e, s)
    ensures if Presents(s, h) || Revokes(e, s, row) then Spent(Next(e, s), h, row.familyId) else Stands(Next(e, s), h, row)
  {
    RowFate(e, s, h);
    NumbersGrow(e, s);
    hide Next, Numbered, Can;
  }

  lemma NumbersGrow(e: Endpoint, s: Step)
    requires Can(e, s)
    ensures Next(e, s).nextHash >= e.nextHash && Next(e, s).nextCode >= e.nextCode && Next(e, s).now >= e.now
  {
    hide WithCode, Redeemable, CodeChecksOut, RotationChecksOut, OutcomeOf, Presented;
  }

  lemma {:induction false} StandsWhileLeftAlone(e: Endpoint, steps: seq<Step>, h: TokenHash, row: RefreshRow)
    requires Sound(e) && Stands(e, h, row) && IsRun(e, steps)
    ensures if LeftAlone(e, steps, h, row) then Stands(After(e, steps), h, row) else Spent(After(e, steps), h, row.familyId)
    decreases steps
  {
    hide Numbered, Linear, SameGrant, CodeOnce, Stands, Spent, Presents, Revokes, Next, Can;
    if steps != [] {
      StepKeepsSound(e, steps[0]);
      StepOnStanding(e, steps[0], h, row);
      if Presents(steps[0], h) || Revokes(e, steps[0], row) {
        RunKeepsSpent(Next(e, steps[0]), steps[1..], h, row.familyId);
      } else {
        StandsWhileLeftAlone(Next(e, steps[0]), steps[1..], h, row);
      }
    }
  }

  /** The life of a token: usable in a reachable state, it is usable after any continuation exactly
      if nothing in it presents the token, revokes its family or its client's tokens, disables or
      deletes its user, and its time is not over. Revoking anything else leaves it as it was. */
  lemma TokenLife(now: nat, before: seq<Step>, h: TokenHash, later: seq<Step>)
    requires IsRun(Fresh(now), before) && Usable(After(Fresh(now), before), h)
    requires IsRun(After(Fresh(now), before), later)
    ensures var e := After(Fresh(now), before);
      var e', row := After(e, later), e.rows[h];
      && (Usable(e', h) <==> LeftAlone(e, later, h, row) && e'.now <= row.expiresAt)
      && (Usable(e', h) ==> e'.rows[h] == row)
  {
    RunsAreSound(now, before);
    var e := After(Fresh(now), before);
    hide IsRun, After, Next, Can, LeftAlone, Linear, SameGrant, CodeOnce;
    StandsWhileLeftAlone(e, later, h, e.rows[h]);
  }

  // ------------------------------------------------------------------------------------
  // Codes
  // ------------------------------------------------------------------------------------

  function InTime(codes: map<Code, PendingCode>, now: int): set<Code> {
    set c | c in codes && codes[c].expiresAt > now
  }

  /** Issuing sweeps the codes that are out of time, and stores the new one exactly if fewer than
      the cap are left. */
  lemma IssueOutcome(e: Endpoint, auth: AuthCode, ttl: nat)
    requires Numbered(e)
    ensures var codes := Next(e, IssueCode(auth, ttl)).codes;
      && (e.nextCode in codes <==> |InTime(e.codes, e.now)| < AUTH_CODE_CAP)
      && (e.nextCode in codes ==> codes[e.nextCode] == PendingCode(auth, e.now + ttl))
      && forall c :: c != e.nextCode ==>
           && (c in codes <==> c in InTime(e.codes, e.now))
           && (c in codes ==> codes[c] == e.codes[c])
  {
    assert Unexpired(e.codes, e.now).Keys == InTime(e.codes, e.now);
  }

  predicate PresentsCode(s: Step, code: Code) {
    s.PresentCode? && s.code == code
  }

  /** No step of the run presents the code, nor issues another once this one's time is up. */
  predicate CodeLeftAlone(e: Endpoint, steps: seq<Step>, code: Code, expiresAt: int)
    requires IsRun(e, steps)
    decreases steps
  {
    steps != [] ==>
      && !PresentsCode(steps[0], code) && !(steps[0].IssueCode? && expiresAt <= e.now)
      && CodeLeftAlone(Next(e, steps[0]), steps[1..], code, expiresAt)
  }

  predicate Pending(e: Endpoint, code: Code, pending: PendingCode) {
    code < e.nextCode && code in e.codes && e.codes[code] == pending
  }

  lemma StepOnPending(e: Endpoint, s: Step, code: Code, pending: PendingCode)
    requires Numbered(e) && Pending(e, code, pending) && Can(e, s)
    ensures if PresentsCode(s, code) || (s.IssueCode? && pending.expiresAt <= e.now) then Taken(Next(e, s), code)
            else Pending(Next(e, s), code, pending)
  {
    if s.IssueCode? {
      IssueOutcome(e, s.auth, s.ttl);
      NumbersGrow(e, s);
      hide Next, Numbered;
    } else {
      hide CodeChecksOut, RotationChecksOut, OutcomeOf, Presented, Numbered;
    }
  }

  lemma {:induction false} PendingWhileLeftAlone(e: Endpoint, steps: seq<Step>, code: Code, pending: PendingCode)
    requires Sound(e) && Pending(e, code, pending) && IsRun(e, steps)
    ensures if CodeLeftAlone(e, steps, code, pending.expiresAt) then Pending(After(e, steps), code, pending)
            else Taken(After(e, steps), code)
    decreases steps
  {
    hide Numbered, Linear, SameGrant, CodeOnce, Pending, Taken, PresentsCode, Next, Can;
    if steps != [] {
      StepKeepsSound(e, steps[0]);
      StepOnPending(e, steps[0], code, pending);
      if PresentsCode(steps[0], code) || (steps[0].IssueCode? && pending.expiresAt <= e.now) {
        RunKeepsTaken(Next(e, steps[0]), steps[1..], code);
      } else {
        PendingWhileLeftAlone(Next(e, steps[0]), steps[1..], code, pending);
      }
    }
  }

  /** The life of a code: stored in a reachable state, it can be redeemed after any continuation
      exactly if nothing in it presents the code, its time is not over, and no other code was issued
      in the very second in which its time runs out. It then stands for what was approved. */
  lemma CodeLife(now: nat, before: seq<Step>, code: Code, later: seq<Step>)
    requires IsRun(Fresh(now), before) && code in After(Fresh(now), before).codes
    requires IsRun(After(Fresh(now), before), later)
    ensures var e := After(Fresh(now), before);
      var e', pending := After(e, later), e.codes[code];
      && (Redeemable(e'.codes, e'.now, code).Some? <==>
            CodeLeftAlone(e, later, code, pending.expiresAt) && e'.now <= pending.expiresAt)
      && (Redeemable(e'.codes, e'.now, code).Some? ==> Redeemable(e'.codes, e'.now, code).value == pending.auth)
  {
    RunsAreSound(now, before);
    var e := After(Fresh(now), before);
    hide IsRun, After, Next, Can, CodeLeftAlone, Linear, SameGrant, CodeOnce;
    PendingWhileLeftAlone(e, later, code, e.codes[code]);
  }

  // ------------------------------------------------------------------------------------
  // Which code exchanges come to a token
  // ------------------------------------------------------------------------------------

  /** Some continuation stores a token that descends from the approval of `code`. */
  ghost predicate ComesToToken(e: Endpoint, code: Code) {
    exists later: seq<Step>, h :: IsRun(e, later) && DescendsFrom(After(e, later), h, code)
  }

  /** The code is spent, and every exchange that took it will be refused. */
  ghost predicate Barred(e: Endpoint, code: Code) {
    && Taken(e, code) && (forall f :: f in e.roots ==> e.roots[f].code != code)
    && (forall x :: TakenBy(e, x) && e.exchanges[x].code == code ==> Refused(e, e.exchanges[x].auth, e.exchanges[x].form))
  }

  predicate Refused(e: Endpoint, auth: AuthCode, form: Form) {
    || form.clientId != auth.grant.clientId || form.redirectUri != Some(auth.redirectUri)
    || form.verifierS256 != auth.codeChallenge || auth.grant.userId in e.goneUsers
  }

  /** No exchange takes this code anew. */
  ghost predicate TakesNo(e: Endpoint, e': Endpoint, code: Code) {
    forall x :: TakenBy(e', x) && e'.exchanges[x].code == code ==> TakenBy(e, x) && e'.exchanges[x] == e.exchanges[x]
  }

  lemma StaysBarred(e: Endpoint, e': Endpoint, code: Code)
    requires Barred(e, code) && Taken(e', code) && TakesNo(e, e', code)
    requires forall f :: f in e'.roots && e'.roots[f].code == code ==> f in e.roots && e'.roots[f] == e.roots[f]
    requires e.goneUsers <= e'.goneUsers
    ensures Barred(e', code)
  {
  }

  lemma GoneStayGone(e: Endpoint, s: Step)
    requires Can(e, s)
    ensures e.goneUsers <= Next(e, s).goneUsers
  {
    hide WithCode, OutcomeOf, Presented, Redeemable, CodeChecksOut, RotationChecksOut;
  }

  lemma StepTakesNo(e: Endpoint, s: Step, code: Code)
    requires Taken(e, code) && Can(e, s)
    ensures TakesNo(e, Next(e, s), code)
  {
    hide WithCode, OutcomeOf, Presented, CodeChecksOut, RotationChecksOut;
  }

  lemma StepRootsNo(e: Endpoint, s: Step, code: Code)
    requires Numbered(e) && Barred(e, code) && Can(e, s)
    ensures forall f :: f in Next(e, s).roots && Next(e, s).roots[f].code == code ==> f in e.roots && Next(e, s).roots[f] == e.roots[f]
  {
    hide WithCode, OutcomeOf, Presented, Redeemable, RotationChecksOut;
    if s.CheckCode? {
      assert TakenBy(e, s.exchange);
    }
  }

  lemma StepKeepsBarred(e: Endpoint, s: Step, code: Code)
    requires Numbered(e) && Barred(e, code) && Can(e, s)
    ensures Barred(Next(e, s), code)
  {
    StepKeepsTaken(e, s, code);
    StepTakesNo(e, s, code);
    StepRootsNo(e, s, code);
    GoneStayGone(e, s);
    hide Next, Can, Refused, Numbered;
    StaysBarred(e, Next(e, s), code);
  }

  lemma {:induction false} RunKeepsBarred(e: Endpoint, steps: seq<Step>, code: Code)
    requires Sound(e) && Barred(e, code) && IsRun(e, steps)
    ensures Barred(After(e, steps), code)
    decreases steps
  {
    hide Numbered, Linear, SameGrant, CodeOnce, Barred, Next, Can;
    if steps != [] {
      StepKeepsSound(e, steps[0]);
      StepKeepsBarred(e, steps[0], code);
      RunKeepsBarred(Next(e, steps[0]), steps[1..], code);
    }
  }

  lemma RefusedIsBarred(e: Endpoint, code: Code, form: Form)
    requires Sound(e) && code in e.codes && (e.now > e.codes[code].expiresAt || Refused(e, e.codes[code].auth, form))
    ensures Barred(Next(e, PresentCode(code, form)), code)
  {
    hide Linear, SameGrant;
  }

  lemma BarredNeverComes(e: Endpoint, code: Code)
    requires Sound(e) && Barred(e, code)
    ensures !ComesToToken(e, code)
  {
    forall later: seq<Step>, h | IsRun(e, later)
      ensures !DescendsFrom(After(e, later), h, code)
    {
      hide Barred, IsRun, After, Sound;
      RunKeepsBarred(e, later, code);
      BarredHasNone(After(e, later), h, code);
    }
    hide Barred, IsRun, After, Sound, DescendsFrom;
  }

  lemma BarredHasNone(e: Endpoint, h: TokenHash, code: Code)
    requires Barred(e, code)
    ensures !DescendsFrom(e, h, code)
  {
  }

  /** The exchange is entitled, and its user known or yet to be added. */
  lemma EntitledComes(e: Endpoint, x: ExchangeId, code: Code, auth: AuthCode, form: Form)
    requires x in e.exchanges && e.exchanges[x] == CodeTaken(code, auth, form) && !Refused(e, auth, form)
    ensures ComesToToken(e, code)
  {
    var u := auth.grant.userId;
    hide IsRun, After, DescendsFrom;
    EmptyRun(e);
    if u in e.users {
      KnownComes(e, e, [], x, code, auth, form);
    } else {
      assert Can(e, AddUser(u));
      var e1 := Next(e, AddUser(u));
      assert e1 == e.(users := e.users + {u});
      RunExtends(e, [], AddUser(u));
      KnownComes(e, e1, [] + [AddUser(u)], x, code, auth, form);
    }
  }

  lemma KnownComes(e: Endpoint, e1: Endpoint, steps: seq<Step>, x: ExchangeId, code: Code, auth: AuthCode, form: Form)
    requires IsRun(e, steps) && After(e, steps) == e1
    requires x in e1.exchanges && e1.exchanges[x] == CodeTaken(code, auth, form) && !Refused(e1, auth, form)
    requires auth.grant.userId in e1.users
    ensures ComesToToken(e, code)
  {
    var e2 := Next(e1, CheckCode(x));
    assert Can(e1, CheckCode(x)) && Can(e2, InsertRoot(x));
    assert DescendsFrom(Next(e2, InsertRoot(x)), e2.nextHash, code);
    hide IsRun, After, Next, Can, DescendsFrom;
    RunExtendsTwice(e, steps, CheckCode(x), InsertRoot(x));
  }

  /** Presenting a code comes to a token, in some continuation, exactly if it is in time, by the
      client it was issued to, with that client's redirect URI and the verifier that was committed
      to, and for a user whose account has not been deleted. */
  lemma CodeExchange(now: nat, before: seq<Step>, code: Code, form: Form)
    requires IsRun(Fresh(now), before) && code in After(Fresh(now), before).codes
    ensures var e := After(Fresh(now), before);
      var auth := e.codes[code].auth;
      ComesToToken(Next(e, PresentCode(code, form)), code) <==>
        && e.now <= e.codes[code].expiresAt
        && form.clientId == auth.grant.clientId
        && form.redirectUri == Some(auth.redirectUri)
        && form.verifierS256 == auth.codeChallenge
        && auth.grant.userId !in e.goneUsers
  {
    var e := After(Fresh(now), before);
    var e1 := Next(e, PresentCode(code, form));
    var auth := e.codes[code].auth;
    RunsAreSound(now, before);
    if e.now <= e.codes[code].expiresAt && !Refused(e, auth, form) {
      assert e1.exchanges[e.nextExchange] == CodeTaken(code, auth, form) && e1.goneUsers == e.goneUsers;
      hide Next, Can, IsRun, After, ComesToToken, Sound;
      EntitledComes(e1, e.nextExchange, code, auth, form);
    } else {
      hide Next, IsRun, After, ComesToToken, Sound, Barred;
      StepKeepsSound(e, PresentCode(code, form));
      RefusedIsBarred(e, code, form);
      BarredNeverComes(e1, code);
    }
  }

  // ------------------------------------------------------------------------------------
  // Which rotations come to a token
  // ------------------------------------------------------------------------------------

  /** Some continuation stores an unconsumed token of the family. */
  ghost predicate Continues(e: Endpoint, f: FamilyId) {
    exists later: seq<Step>, h :: IsRun(e, later) && Unconsumed(After(e, later), h, f)
  }

  lemma StepKeepsNoneUsable(e: Endpoint, s: Step, f: FamilyId)
    requires Barren(e, f) && Can(e, s)
    ensures forall h :: !Unconsumed(Next(e, s), h, f)
  {
    if s.InsertRoot? || s.InsertNext? {
      assert !CanIssue(e, e.exchanges[s.exchange], f);
    }
    forall h
      ensures !Unconsumed(Next(e, s), h, f)
    {
      assert !Unconsumed(e, h, f);
    }
    hide WithCode, Redeemable, CodeChecksOut, RotationChecksOut;
  }

  lemma {:induction false} BarrenForever(e: Endpoint, f: FamilyId, later: seq<Step>)
    requires Sound(e) && UsersKnown(e) && Barren(e, f) && IsRun(e, later)
    ensures forall h :: !Unconsumed(After(e, later), h, f)
    decreases later
  {
    hide Sound, UsersKnown, NothingInFlight, Unconsumed, Next, Can;
    if later != [] {
      StepKeepsSound(e, later[0]);
      StepKeepsUsersKnown(e, later[0]);
      StepKeepsNoneUsable(e, later[0], f);
      StepKeepsNothingInFlight(e, later[0], f);
      StepKeepsRoots(e, later[0], f);
      BarrenForever(Next(e, later[0]), f, later[1..]);
    }
  }

  lemma WronglyPresentedIsBarren(e: Endpoint, h: TokenHash, clientId: ClientId)
    requires Sound(e) && Usable(e, h) && (clientId != e.rows[h].grant.clientId || e.rows[h].grant.userId !in e.users)
    ensures Barren(Next(e, PresentRefresh(h, clientId)), e.rows[h].familyId)
  {
    var f, e1 := e.rows[h].familyId, Next(e, PresentRefresh(h, clientId));
    ConsumeMovesToExchange(e, h, clientId);
    assert InFlight(e1, e.nextExchange, f) && e1.roots == e.roots;
    forall x | x in e1.exchanges
      ensures !CanIssue(e1, e1.exchanges[x], f)
    {
      assert InFlight(e1, x, f) ==> x == e.nextExchange;
    }
  }

  lemma RightlyPresentedContinues(e: Endpoint, x: ExchangeId, row: RefreshRow, clientId: ClientId)
    requires x in e.exchanges && e.exchanges[x] == Rotating(row, clientId)
    requires clientId == row.grant.clientId && row.grant.userId in e.users
    ensures Continues(e, row.familyId)
  {
    var e1 := Next(e, CheckRotation(x));
    assert Can(e, CheckRotation(x)) && Can(e1, InsertNext(x));
    assert Unconsumed(Next(e1, InsertNext(x)), e1.nextHash, row.familyId);
    EmptyRun(e);
    hide IsRun, After, Next, Can, Unconsumed;
    RunExtendsTwice(e, [], CheckRotation(x), InsertNext(x));
  }

  /** Presenting a usable token leaves its family a future exactly if it is presented by its own
      client and for a user that is known: presented by another client it is spent, no successor is
      ever issued, and the family has had its last usable token. */
  lemma RotationContinues(now: nat, before: seq<Step>, h: TokenHash, clientId: ClientId)
    requires IsRun(Fresh(now), before) && Usable(After(Fresh(now), before), h)
    ensures var e := After(Fresh(now), before);
      Continues(Next(e, PresentRefresh(h, clientId)), e.rows[h].familyId) <==>
        clientId == e.rows[h].grant.clientId && e.rows[h].grant.userId in e.users
  {
    var e, s := After(Fresh(now), before), PresentRefresh(h, clientId);
    var row, e1 := e.rows[h], Next(e, s);
    RunIsSoundAndKnown(now, before, s);
    if clientId == row.grant.clientId && row.grant.userId in e.users {
      assert e1.exchanges[e.nextExchange] == Rotating(row, clientId) && e1.users == e.users;
      hide Next, Can, IsRun, After, Continues, Sound, UsersKnown;
      RightlyPresentedContinues(e1, e.nextExchange, row, clientId);
    } else {
      hide Next, Can, IsRun, After, Sound, UsersKnown, Barren, Unconsumed;
      WronglyPresentedIsBarren(e, h, clientId);
      forall later: seq<Step>, g | IsRun(e1, later)
        ensures !Unconsumed(After(e1, later), g, row.familyId)
      {
        BarrenForever(e1, row.familyId, later);
      }
    }
  }
}
