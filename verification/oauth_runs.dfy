/** What holds of the token endpoint over whole runs: every interleaving of exchanges, failures,
    revocations and account deletions that starts from an empty store. */
module OauthRuns {
  import opened Wrappers
  import opened OauthStore
  import opened OauthToken

  // ------------------------------------------------------------------------------------
  // One chance per family, one chain per consent
  // ------------------------------------------------------------------------------------

  lemma RunsAreSound(now: nat, steps: seq<Step>)
    requires IsRun(Fresh(now), steps)
    ensures Sound(After(Fresh(now), steps))
  {
    hide Sound, Next, Can, IsRun, After;
    FreshIsSound(now);
    RunKeepsSound(Fresh(now), steps);
  }

  lemma {:induction false} AtMostOne<T>(s: set<T>)
    requires forall a, b :: a in s && b in s ==> a == b
    ensures |s| <= 1
  {
    if a :| a in s {
      assert s == {a};
    }
  }

  /** Linearity: stored usable tokens of a family and its rotations in flight number at most one
      together, and whatever the family holds carries its root's client, user, scope and resource. */
  lemma FamilyLinearity(now: nat, steps: seq<Step>, f: FamilyId)
    requires IsRun(Fresh(now), steps)
    ensures var e := After(Fresh(now), steps);
      && |UnconsumedOf(e, f)| + |InFlightOf(e, f)| <= 1
      && (forall h :: h in e.rows && e.rows[h].familyId == f ==> f in e.roots && e.rows[h].grant == e.roots[f].grant)
      && (forall x :: x in InFlightOf(e, f) ==> f in e.roots && GrantOf(e.exchanges[x], e.roots[f].grant))
  {
    RunsAreSound(now, steps);
    var e := After(Fresh(now), steps);
    hide IsRun, After, Next, Can, Owes;
    AtMostOne(UnconsumedOf(e, f));
    AtMostOne(InFlightOf(e, f));
    if h :| h in UnconsumedOf(e, f) {
      assert Unconsumed(e, h, f);
      assert forall x :: !InFlight(e, x, f);
      assert InFlightOf(e, f) == {};
    } else {
      assert UnconsumedOf(e, f) == {};
    }
  }

  /** The token descends, through any number of rotations, from the approval of `code`. */
  predicate DescendsFrom(e: Endpoint, h: TokenHash, code: Code) {
    h in e.rows && e.rows[h].familyId in e.roots && e.roots[e.rows[h].familyId].code == code
  }

  function UsableFrom(e: Endpoint, code: Code): set<TokenHash> {
    set h | h in e.rows && DescendsFrom(e, h, code) && !e.rows[h].consumed
  }

  /** One consent, one chain: a code roots at most one family, every stored token descends from
      some code, and at most one usable token descends from each. */
  lemma OneConsentOneChain(now: nat, steps: seq<Step>, code: Code)
    requires IsRun(Fresh(now), steps)
    ensures var e := After(Fresh(now), steps);
      && |set f | f in e.roots && e.roots[f].code == code| <= 1
      && (forall h :: h in e.rows ==> e.rows[h].familyId in e.roots && DescendsFrom(e, h, e.roots[e.rows[h].familyId].code))
      && |UsableFrom(e, code)| <= 1
  {
    RunsAreSound(now, steps);
    var e := After(Fresh(now), steps);
    hide IsRun, After, Next, Can;
    AtMostOne(set f | f in e.roots && e.roots[f].code == code);
    forall a, b | a in UsableFrom(e, code) && b in UsableFrom(e, code)
      ensures a == b
    {
      assert Unconsumed(e, a, e.rows[a].familyId) && Unconsumed(e, b, e.rows[b].familyId);
    }
    AtMostOne(UsableFrom(e, code));
  }

  // ------------------------------------------------------------------------------------
  // Single use
  // ------------------------------------------------------------------------------------

  /** The token was accepted before: it was drawn, and what is left of its row is consumed. */
  predicate Spent(e: Endpoint, h: TokenHash, f: FamilyId) {
    h < e.nextHash && (h in e.rows ==> e.rows[h].consumed && e.rows[h].familyId == f)
  }

  lemma StepKeepsSpent(e: Endpoint, s: Step, h: TokenHash, f: FamilyId)
    requires Spent(e, h, f) && Can(e, s)
    ensures Spent(Next(e, s), h, f)
  {
    hide WithCode, CodeChecksOut, RotationChecksOut, Redeemable;
  }

  lemma {:induction false} RunKeepsSpent(e: Endpoint, steps: seq<Step>, h: TokenHash, f: FamilyId)
    requires Spent(e, h, f) && IsRun(e, steps)
    ensures Spent(After(e, steps), h, f)
    decreases steps
  {
    hide Spent, Next, Can;
    if steps != [] {
      StepKeepsSpent(e, steps[0], h, f);
      RunKeepsSpent(Next(e, steps[0]), steps[1..], h, f);
    }
  }

  /** A refresh token accepted once is never accepted again, however the run goes on: presented
      again it is reported as a replay of its family while its row is stored and unexpired, and
      as unknown otherwise. */
  lemma RefreshTokenAcceptedOnce(now: nat, before: seq<Step>, hash: TokenHash, clientId: ClientId, later: seq<Step>)
    requires IsRun(Fresh(now), before)
    requires var e := After(Fresh(now), before); OutcomeOf(e.rows, e.now, hash).Valid?
    requires IsRun(Next(After(Fresh(now), before), PresentRefresh(hash, clientId)), later)
    ensures var e := After(Fresh(now), before);
      var e' := After(Next(e, PresentRefresh(hash, clientId)), later);
      var outcome := OutcomeOf(e'.rows, e'.now, hash);
      && !outcome.Valid?
      && (outcome == Replayed(e.rows[hash].familyId) <==> hash in e'.rows && e'.rows[hash].expiresAt >= e'.now)
  {
    RunsAreSound(now, before);
    var e := After(Fresh(now), before);
    var e1 := Next(e, PresentRefresh(hash, clientId));
    assert Spent(e1, hash, e.rows[hash].familyId);
    hide Next, Can, IsRun, After, Sound;
    RunKeepsSpent(e1, later, hash, e.rows[hash].familyId);
  }

  /** The code was drawn and is no longer pending. */
  predicate Taken(e: Endpoint, code: Code) {
    code < e.nextCode && code !in e.codes
  }

  lemma StepKeepsTaken(e: Endpoint, s: Step, code: Code)
    requires Taken(e, code) && Can(e, s)
    ensures Taken(Next(e, s), code)
  {
    hide Presented, OutcomeOf, CodeChecksOut, RotationChecksOut, Full;
  }

  lemma {:induction false} RunKeepsTaken(e: Endpoint, steps: seq<Step>, code: Code)
    requires Taken(e, code) && IsRun(e, steps)
    ensures Taken(After(e, steps), code)
    decreases steps
  {
    hide Taken, Next, Can;
    if steps != [] {
      StepKeepsTaken(e, steps[0], code);
      RunKeepsTaken(Next(e, steps[0]), steps[1..], code);
    }
  }

  /** A pending code that is presented, expired or not and whatever else the request gets wrong,
      is never redeemable again. */
  lemma CodePresentedOnce(now: nat, before: seq<Step>, code: Code, form: Form, later: seq<Step>)
    requires IsRun(Fresh(now), before)
    requires code in After(Fresh(now), before).codes
    requires IsRun(Next(After(Fresh(now), before), PresentCode(code, form)), later)
    ensures var e' := After(Next(After(Fresh(now), before), PresentCode(code, form)), later);
      Redeemable(e'.codes, e'.now, code) == None
  {
    RunsAreSound(now, before);
    var e1 := Next(After(Fresh(now), before), PresentCode(code, form));
    assert Taken(e1, code);
    hide Next, Can, IsRun, After, Sound;
    RunKeepsTaken(e1, later, code);
  }

  // ------------------------------------------------------------------------------------
  // Revocation
  // ------------------------------------------------------------------------------------

  /** The exchange can still get a token of `f` into the table. */
  predicate CanIssue(e: Endpoint, x: Exchange, f: FamilyId) {
    match x
    case Rooting(_, grant, g) => g == f && grant.userId in e.users
    case Rotating(row, clientId) => row.familyId == f && RotationChecksOut(e, row, clientId)
    case Reissuing(grant, g) => g == f && grant.userId in e.users
    case _ => false
  }

  predicate NoRow(e: Endpoint, f: FamilyId) {
    forall h :: h in e.rows ==> e.rows[h].familyId != f
  }

  predicate NothingInFlight(e: Endpoint, f: FamilyId) {
    forall x :: x in e.exchanges ==> !CanIssue(e, e.exchanges[x], f)
  }

  /** No run from here ever stores a token of the family, so none is issued or accepted. */
  ghost predicate GoneForGood(e: Endpoint, f: FamilyId) {
    forall later: seq<Step> :: IsRun(e, later) ==> NoRow(After(e, later), f)
  }

  /** Deleted accounts stay deleted, and only a known account was ever granted anything. */
  ghost predicate UsersKnown(e: Endpoint) {
    forall f :: f in e.roots ==> e.roots[f].grant.userId in e.users + e.goneUsers
  }

  lemma StepKeepsUsersKnown(e: Endpoint, s: Step)
    requires UsersKnown(e) && Can(e, s)
    ensures UsersKnown(Next(e, s))
  {
    hide WithCode, OutcomeOf, Presented, Redeemable, RotationChecksOut;
  }

  lemma {:induction false} RunKeepsUsersKnown(e: Endpoint, steps: seq<Step>)
    requires UsersKnown(e) && IsRun(e, steps)
    ensures UsersKnown(After(e, steps))
    decreases steps
  {
    hide UsersKnown, Next, Can;
    if steps != [] {
      StepKeepsUsersKnown(e, steps[0]);
      RunKeepsUsersKnown(Next(e, steps[0]), steps[1..]);
    }
  }

  ghost predicate Extinct(e: Endpoint, f: FamilyId) {
    f in e.roots && NoRow(e, f) && NothingInFlight(e, f)
  }

  lemma StepKeepsNoRow(e: Endpoint, s: Step, f: FamilyId)
    requires Extinct(e, f) && Can(e, s)
    ensures NoRow(Next(e, s), f)
  {
    hide WithCode, Redeemable, CodeChecksOut, RotationChecksOut;
    if s.InsertRoot? || s.InsertNext? {
      assert !CanIssue(e, e.exchanges[s.exchange], f);
    }
  }

  /** An exchange that cannot issue for `f` never can: its user does not come back. */
  lemma CannotIssueStays(e: Endpoint, e': Endpoint, x: Exchange, f: FamilyId)
    requires !CanIssue(e, x, f)
    requires Owes(x, f) ==> f in e.roots && GrantOf(x, e.roots[f].grant)
    requires UsersKnown(e) && e.users !! e.goneUsers
    requires forall u :: u in e'.users ==> u in e.users || u !in e.goneUsers
    ensures !CanIssue(e', x, f)
  {
  }

  lemma UsersOnlyLeaveForGood(e: Endpoint, s: Step)
    requires Can(e, s)
    ensures forall u :: u in Next(e, s).users ==> u in e.users || u !in e.goneUsers
  {
    hide WithCode, OutcomeOf, Presented, Redeemable, CodeChecksOut, RotationChecksOut;
  }

  /** An exchange of the next state is an old one, or the outcome of this step. */
  lemma ExchangeOrigin(e: Endpoint, s: Step, y: ExchangeId)
    requires Can(e, s) && y in Next(e, s).exchanges
    ensures var e' := Next(e, s);
      || (y in e.exchanges && e'.exchanges[y] == e.exchanges[y])
      || e'.exchanges[y].CodeTaken?
      || e'.exchanges[y].Revoking?
      || (e'.exchanges[y].Rooting? && e'.exchanges[y].familyId == e.nextFamily)
      || (e'.exchanges[y].Rotating? && exists h :: Unconsumed(e, h, e'.exchanges[y].row.familyId))
      || (y in e.exchanges && e.exchanges[y].Rotating? && RotationChecksOut(e, e.exchanges[y].row, e.exchanges[y].clientId)
          && e'.exchanges[y] == Reissuing(e.exchanges[y].row.grant, e.exchanges[y].row.familyId))
  {
    hide WithCode, Presented, Redeemable, CodeChecksOut, RotationChecksOut;
    if s.PresentRefresh? && OutcomeOf(e.rows, e.now, s.hash).Valid? {
      assert Unconsumed(e, s.hash, e.rows[s.hash].familyId);
    }
  }

  /** Nothing usable is left of the family, and nothing that could make it usable again. */
  ghost predicate Barren(e: Endpoint, f: FamilyId) {
    f in e.roots && (forall h :: !Unconsumed(e, h, f)) && NothingInFlight(e, f)
  }

  lemma StepKeepsNothingInFlight(e: Endpoint, s: Step, f: FamilyId)
    requires Sound(e) && UsersKnown(e) && Barren(e, f) && Can(e, s)
    ensures NothingInFlight(Next(e, s), f)
  {
    var e' := Next(e, s);
    UsersOnlyLeaveForGood(e, s);
    hide Next, Can;
    forall y | y in e'.exchanges
      ensures !CanIssue(e', e'.exchanges[y], f)
    {
      ExchangeOrigin(e, s, y);
      if y in e.exchanges && e'.exchanges[y] == e.exchanges[y] {
        assert !CanIssue(e, e.exchanges[y], f);
        if Owes(e.exchanges[y], f) {
          assert InFlight(e, y, f);
        }
        CannotIssueStays(e, e', e.exchanges[y], f);
      } else if e'.exchanges[y].Reissuing? {
        assert !CanIssue(e, e.exchanges[y], f);
      }
    }
  }

  lemma StepKeepsRoots(e: Endpoint, s: Step, f: FamilyId)
    requires f in e.roots && Can(e, s)
    ensures f in Next(e, s).roots
  {
    hide WithCode, OutcomeOf, Presented, Redeemable, CodeChecksOut, RotationChecksOut;
  }

  lemma {:induction false} ExtinctionIsForever(e: Endpoint, f: FamilyId, later: seq<Step>)
    requires Sound(e) && UsersKnown(e) && Extinct(e, f) && IsRun(e, later)
    ensures NoRow(After(e, later), f)
    decreases later
  {
    hide Sound, UsersKnown, NothingInFlight, Next, Can;
    if later != [] {
      StepKeepsSound(e, later[0]);
      StepKeepsUsersKnown(e, later[0]);
      StepKeepsNoRow(e, later[0], f);
      StepKeepsNothingInFlight(e, later[0], f);
      StepKeepsRoots(e, later[0], f);
      ExtinctionIsForever(Next(e, later[0]), f, later[1..]);
    }
  }

  /** From any exchange that can still issue, a continuation in which it does. */
  lemma InFlightResurfaces(e: Endpoint, x: ExchangeId, f: FamilyId)
    requires x in e.exchanges && CanIssue(e, e.exchanges[x], f)
    ensures !GoneForGood(e, f)
  {
    if e.exchanges[x].Rotating? {
      var e1 := Next(e, CheckRotation(x));
      assert Can(e1, InsertNext(x));
      Resurfaces(e, [CheckRotation(x), InsertNext(x)], f, e.nextHash) by {
        assert [CheckRotation(x), InsertNext(x)][1..] == [InsertNext(x)];
        IssueStores(e1, InsertNext(x), x, f);
      }
    } else {
      var s := if e.exchanges[x].Rooting? then InsertRoot(x) else InsertNext(x);
      IssueStores(e, s, x, f);
      Resurfaces(e, [s], f, e.nextHash);
    }
  }

  lemma IssueStores(e: Endpoint, s: Step, x: ExchangeId, f: FamilyId)
    requires (s == InsertRoot(x) || s == InsertNext(x)) && Can(e, s) && e.exchanges[x].familyId == f
    ensures IsRun(e, [s])
    ensures After(e, [s]) == Next(e, s)
    ensures e.nextHash in Next(e, s).rows && Next(e, s).rows[e.nextHash].familyId == f
  {
  }

  lemma Resurfaces(e: Endpoint, later: seq<Step>, f: FamilyId, h: TokenHash)
    requires IsRun(e, later) && h in After(e, later).rows && After(e, later).rows[h].familyId == f
    ensures !GoneForGood(e, f)
  {
    hide IsRun, After, Next, Can;
    assert !NoRow(After(e, later), f);
  }

  /** A family without rows stays without rows exactly when nothing in flight can issue for it. */
  lemma GoneIffNothingInFlight(e: Endpoint, f: FamilyId)
    requires Sound(e) && UsersKnown(e) && f in e.roots && NoRow(e, f)
    ensures GoneForGood(e, f) <==> NothingInFlight(e, f)
  {
    hide IsRun, After, Next, Can, RotationChecksOut, Sound, UsersKnown, NoRow, CanIssue;
    if NothingInFlight(e, f) {
      forall later: seq<Step> | IsRun(e, later)
        ensures NoRow(After(e, later), f)
      {
        ExtinctionIsForever(e, f, later);
      }
    } else {
      var x :| x in e.exchanges && CanIssue(e, e.exchanges[x], f);
      InFlightResurfaces(e, x, f);
    }
  }

  lemma SameUsersSameChance(e: Endpoint, e': Endpoint, x: Exchange, f: FamilyId)
    requires e.users == e'.users
    ensures CanIssue(e, x, f) == CanIssue(e', x, f)
  {
  }

  lemma SameInFlight(e: Endpoint, e': Endpoint, f: FamilyId)
    requires e.users == e'.users
    requires forall x :: x in e'.exchanges ==> x in e.exchanges && e'.exchanges[x] == e.exchanges[x]
    requires forall x :: x in e.exchanges && x !in e'.exchanges ==> e.exchanges[x].Revoking?
    ensures NothingInFlight(e, f) <==> NothingInFlight(e', f)
  {
    forall x | x in e.exchanges
      ensures CanIssue(e, e.exchanges[x], f) == CanIssue(e', e.exchanges[x], f)
    {
      SameUsersSameChance(e, e', e.exchanges[x], f);
    }
  }

  lemma RunIsSoundAndKnown(now: nat, steps: seq<Step>, s: Step)
    requires IsRun(Fresh(now), steps) && Can(After(Fresh(now), steps), s)
    ensures var e := After(Fresh(now), steps); Sound(e) && Sound(Next(e, s)) && UsersKnown(Next(e, s))
  {
    var e := After(Fresh(now), steps);
    RunsAreSound(now, steps);
    RunKeepsUsersKnown(Fresh(now), steps);
    hide IsRun, After, Next, Can, Sound, UsersKnown;
    StepKeepsSound(e, s);
    StepKeepsUsersKnown(e, s);
  }

  /** Revocation is final exactly when it finds no exchange that can still issue for the family:
      a rotation caught between consuming its token and inserting the successor brings the family
      back, and nothing else does. */
  lemma RevocationIsFinal(now: nat, steps: seq<Step>, x: ExchangeId)
    requires IsRun(Fresh(now), steps)
    requires var e := After(Fresh(now), steps); x in e.exchanges && e.exchanges[x].Revoking?
    ensures var e := After(Fresh(now), steps);
      var f := e.exchanges[x].familyId;
      GoneForGood(Next(e, RevokeFamily(x)), f) <==> NothingInFlight(e, f)
  {
    var e := After(Fresh(now), steps);
    var f := e.exchanges[x].familyId;
    var e' := Next(e, RevokeFamily(x));
    RunIsSoundAndKnown(now, steps, RevokeFamily(x));
    assert e'.users == e.users && e'.exchanges == e.exchanges - {x} && NoRow(e', f) && f in e'.roots;
    hide IsRun, After, Next, Can, NothingInFlight, GoneForGood, Sound, UsersKnown;
    SameInFlight(e, e', f);
    GoneIffNothingInFlight(e', f);
  }

  /** Every token of a family carries its root's user and client, so deleting by those empties it. */
  lemma RowsHaveRootGrant(e: Endpoint, f: FamilyId)
    requires SameGrant(e) && f in e.roots
    ensures forall h :: h in e.rows && e.rows[h].familyId == f ==> e.rows[h].grant == e.roots[f].grant
  {
  }

  /** Disconnecting a client is final for a family it was granted, under the same condition. */
  lemma DisconnectIsFinal(now: nat, steps: seq<Step>, f: FamilyId)
    requires IsRun(Fresh(now), steps) && f in After(Fresh(now), steps).roots
    ensures var e := After(Fresh(now), steps);
      var grant := e.roots[f].grant;
      GoneForGood(Next(e, RevokeUserClient(grant.userId, grant.clientId)), f) <==> NothingInFlight(e, f)
  {
    var e := After(Fresh(now), steps);
    var s := RevokeUserClient(e.roots[f].grant.userId, e.roots[f].grant.clientId);
    var e' := Next(e, s);
    RunIsSoundAndKnown(now, steps, s);
    RowsHaveRootGrant(e, f);
    assert e'.users == e.users && e'.exchanges == e.exchanges && NoRow(e', f) && f in e'.roots;
    hide IsRun, After, Next, Can, NothingInFlight, GoneForGood, Sound, UsersKnown;
    SameInFlight(e, e', f);
    GoneIffNothingInFlight(e', f);
  }

  /** Disabling the account revokes all its tokens, and that is final for a family under the same
      condition: the check on the user does not look at whether the account is disabled. */
  lemma DisablingIsFinal(now: nat, steps: seq<Step>, f: FamilyId)
    requires IsRun(Fresh(now), steps) && f in After(Fresh(now), steps).roots
    ensures var e := After(Fresh(now), steps);
      GoneForGood(Next(e, RevokeUser(e.roots[f].grant.userId)), f) <==> NothingInFlight(e, f)
  {
    var e := After(Fresh(now), steps);
    var s := RevokeUser(e.roots[f].grant.userId);
    var e' := Next(e, s);
    RunIsSoundAndKnown(now, steps, s);
    RowsHaveRootGrant(e, f);
    assert e'.users == e.users && e'.exchanges == e.exchanges && NoRow(e', f) && f in e'.roots;
    hide IsRun, After, Next, Can, NothingInFlight, GoneForGood, Sound, UsersKnown;
    SameInFlight(e, e', f);
    GoneIffNothingInFlight(e', f);
  }

  /** Deleting the account is final for all its families, whatever is in flight. */
  lemma AccountDeletionIsFinal(now: nat, steps: seq<Step>, f: FamilyId)
    requires IsRun(Fresh(now), steps) && f in After(Fresh(now), steps).roots
    ensures var e := After(Fresh(now), steps);
      GoneForGood(Next(e, DeleteUser(e.roots[f].grant.userId)), f)
  {
    var e := After(Fresh(now), steps);
    var s := DeleteUser(e.roots[f].grant.userId);
    var e' := Next(e, s);
    RunIsSoundAndKnown(now, steps, s);
    RowsHaveRootGrant(e, f);
    assert NoRow(e', f) && f in e'.roots && e'.roots[f] == e.roots[f] && e'.roots[f].grant.userId !in e'.users;
    hide IsRun, After, Next, Can, GoneForGood, UsersKnown, Numbered, Linear, CodeOnce;
    forall x | x in e'.exchanges
      ensures !CanIssue(e', e'.exchanges[x], f)
    {
      if Owes(e'.exchanges[x], f) {
        assert InFlight(e', x, f);
      }
    }
    hide Sound, CanIssue;
    GoneIffNothingInFlight(e', f);
  }

  // ------------------------------------------------------------------------------------
  // The race that revocation loses
  // ------------------------------------------------------------------------------------

  /** A token presented twice in a row, first by its client and then by anyone. */
  function PresentedTwice(before: seq<Step>, hash: TokenHash, clientId: ClientId, other: ClientId): seq<Step> {
    before + [PresentRefresh(hash, clientId)] + [PresentRefresh(hash, other)]
  }

  /** The second presentation opens a revocation while the first one's rotation is still in flight. */
  lemma ReplayFindsRotation(now: nat, before: seq<Step>, hash: TokenHash, clientId: ClientId, other: ClientId)
    requires IsRun(Fresh(now), before)
    requires var e := After(Fresh(now), before);
      OutcomeOf(e.rows, e.now, hash).Valid? && RotationChecksOut(e, e.rows[hash], clientId)
    ensures var e := After(Fresh(now), before);
      var steps := PresentedTwice(before, hash, clientId, other);
      && IsRun(Fresh(now), steps)
      && var raced := After(Fresh(now), steps);
      && e.nextExchange + 1 in raced.exchanges
      && raced.exchanges[e.nextExchange + 1] == Revoking(e.rows[hash].familyId)
      && !NothingInFlight(raced, e.rows[hash].familyId)
  {
    var e := After(Fresh(now), before);
    RunsAreSound(now, before);
    TwoPresentations(e, hash, clientId, other);
    hide Next, IsRun, After, Sound, OutcomeOf, RotationChecksOut, NothingInFlight;
    RunExtendsTwice(Fresh(now), before, PresentRefresh(hash, clientId), PresentRefresh(hash, other));
  }

  lemma RunExtendsTwice(e: Endpoint, steps: seq<Step>, s: Step, t: Step)
    requires IsRun(e, steps) && Can(After(e, steps), s) && Can(Next(After(e, steps), s), t)
    ensures IsRun(e, steps + [s] + [t])
    ensures After(e, steps + [s] + [t]) == Next(Next(After(e, steps), s), t)
  {
    hide Next, Can, IsRun, After;
    RunExtends(e, steps, s);
    RunExtends(e, steps + [s], t);
  }

  lemma TwoPresentations(e: Endpoint, hash: TokenHash, clientId: ClientId, other: ClientId)
    requires OutcomeOf(e.rows, e.now, hash).Valid? && RotationChecksOut(e, e.rows[hash], clientId)
    ensures var raced := Next(Next(e, PresentRefresh(hash, clientId)), PresentRefresh(hash, other));
      && e.nextExchange + 1 in raced.exchanges
      && raced.exchanges[e.nextExchange + 1] == Revoking(e.rows[hash].familyId)
      && !NothingInFlight(raced, e.rows[hash].familyId)
  {
    var raced := Next(Next(e, PresentRefresh(hash, clientId)), PresentRefresh(hash, other));
    assert raced.exchanges[e.nextExchange] == Rotating(e.rows[hash], clientId) && raced.users == e.users;
    assert CanIssue(raced, raced.exchanges[e.nextExchange], e.rows[hash].familyId);
  }

  /** Revocation can lose: from every state with a usable token, presenting it twice before the
      first rotation is done leads to a revocation after which the family comes back. */
  lemma RevocationCanLose(now: nat, before: seq<Step>, hash: TokenHash, clientId: ClientId, other: ClientId)
    requires IsRun(Fresh(now), before)
    requires var e := After(Fresh(now), before);
      OutcomeOf(e.rows, e.now, hash).Valid? && RotationChecksOut(e, e.rows[hash], clientId)
    ensures var e := After(Fresh(now), before);
      var x := e.nextExchange + 1;
      && IsRun(Fresh(now), PresentedTwice(before, hash, clientId, other))
      && Can(After(Fresh(now), PresentedTwice(before, hash, clientId, other)), RevokeFamily(x))
      && !GoneForGood(Next(After(Fresh(now), PresentedTwice(before, hash, clientId, other)), RevokeFamily(x)), e.rows[hash].familyId)
  {
    hide IsRun, After, Next, NothingInFlight, GoneForGood, OutcomeOf, RotationChecksOut, PresentedTwice;
    var e := After(Fresh(now), before);
    ReplayFindsRotation(now, before, hash, clientId, other);
    RevocationIsFinal(now, PresentedTwice(before, hash, clientId, other), e.nextExchange + 1);
  }

  /** One user, one approved code. */
  function ApprovedAt(now: nat, auth: AuthCode): Endpoint {
    Fresh(now).(users := {auth.grant.userId}, codes := map[0 := PendingCode(auth, now)], nextCode := 1)
  }

  /** The code taken and checked, its family's first token still to be inserted. */
  function RootingAt(now: nat, grant: Grant): Endpoint {
    Fresh(now).(users := {grant.userId}, nextCode := 1, exchanges := map[0 := Rooting(0, grant, 0)], nextExchange := 1,
                roots := map[0 := Root(0, grant)], nextFamily := 1)
  }

  function Approval(auth: AuthCode): seq<Step> {
    [] + [AddUser(auth.grant.userId)] + [IssueCode(auth, 0)]
  }

  /** The run of one approval and its exchange. */
  function FirstExchange(auth: AuthCode): seq<Step> {
    Approval(auth) + [PresentCode(0, FormFor(auth))] + [CheckCode(0)] + [InsertRoot(0)]
  }

  function FormFor(auth: AuthCode): Form {
    Form(auth.grant.clientId, Some(auth.redirectUri), auth.codeChallenge)
  }

  lemma ApprovalIssuesCode(now: nat, auth: AuthCode)
    ensures IsRun(Fresh(now), Approval(auth)) && After(Fresh(now), Approval(auth)) == ApprovedAt(now, auth)
  {
    assert Unexpired(map[], now) == map[];
    assert Next(Next(Fresh(now), AddUser(auth.grant.userId)), IssueCode(auth, 0)) == ApprovedAt(now, auth);
    EmptyRun(Fresh(now));
    hide Next, IsRun, After;
    RunExtendsTwice(Fresh(now), [], AddUser(auth.grant.userId), IssueCode(auth, 0));
  }

  lemma ExchangeRoots(now: nat, auth: AuthCode)
    ensures var steps := Approval(auth) + [PresentCode(0, FormFor(auth))] + [CheckCode(0)];
      IsRun(Fresh(now), steps) && After(Fresh(now), steps) == RootingAt(now, auth.grant)
  {
    var e, form := ApprovedAt(now, auth), FormFor(auth);
    var taken := Start(e.(codes := map[]), CodeTaken(0, auth, form));
    PresentationTakesCode(e, auth, form);
    assert taken.exchanges == map[0 := CodeTaken(0, auth, form)];
    CheckRoots(taken, auth, form);
    assert Can(e, PresentCode(0, form)) && Can(taken, CheckCode(0));
    ApprovalIssuesCode(now, auth);
    hide Next, Can, IsRun, After, Approval, FormFor;
    RunExtendsTwice(Fresh(now), Approval(auth), PresentCode(0, form), CheckCode(0));
  }

  /** Such states are reached for every grant. */
  lemma FirstExchangeIssues(now: nat, auth: AuthCode)
    ensures var steps := FirstExchange(auth);
      && IsRun(Fresh(now), steps)
      && var e := After(Fresh(now), steps);
      && OutcomeOf(e.rows, e.now, 0) == Valid(RefreshRow(auth.grant, 0, false, now + REFRESH_TTL_SECS))
      && RotationChecksOut(e, e.rows[0], auth.grant.clientId)
  {
    ExchangeRoots(now, auth);
    RootIsUsable(RootingAt(now, auth.grant), auth.grant);
    assert Can(RootingAt(now, auth.grant), InsertRoot(0));
    hide Next, Can, IsRun, After, OutcomeOf, RotationChecksOut, RootingAt, Approval, FormFor;
    RunExtends(Fresh(now), Approval(auth) + [PresentCode(0, FormFor(auth))] + [CheckCode(0)], InsertRoot(0));
  }

  lemma PresentationTakesCode(e: Endpoint, auth: AuthCode, form: Form)
    requires e.codes == map[0 := PendingCode(auth, e.now)]
    ensures Next(e, PresentCode(0, form)) == Start(e.(codes := map[]), CodeTaken(0, auth, form))
  {
    assert e.codes - {0} == map[];
  }

  lemma CheckRoots(e: Endpoint, auth: AuthCode, form: Form)
    requires e.exchanges == map[0 := CodeTaken(0, auth, form)] && CodeChecksOut(e, auth, form)
    requires e.roots == map[] && e.nextFamily == 0
    ensures Next(e, CheckCode(0)) ==
            e.(exchanges := map[0 := Rooting(0, auth.grant, 0)], roots := map[0 := Root(0, auth.grant)], nextFamily := 1)
  {
    assert e.exchanges[0 := Rooting(0, auth.grant, 0)] == map[0 := Rooting(0, auth.grant, 0)];
  }

  lemma RootIsUsable(e: Endpoint, grant: Grant)
    requires e.exchanges == map[0 := Rooting(0, grant, 0)] && grant.userId in e.users && e.nextHash == 0
    ensures var issued := Next(e, InsertRoot(0));
      && OutcomeOf(issued.rows, issued.now, 0) == Valid(RefreshRow(grant, 0, false, e.now + REFRESH_TTL_SECS))
      && RotationChecksOut(issued, issued.rows[0], grant.clientId)
  {
  }
}
