/** The token endpoint as a transition system over the store: taking a code, checking it,
    starting a family, consuming a token, checking it, inserting its successor and revoking a
    family are separate steps, and any number of exchanges interleave, fail, or are cancelled
    between them. */
module OauthToken {
  import opened Wrappers
  import opened OauthStore

  const REFRESH_TTL_SECS: nat := 60 * 60 * 24 * 30

  type ExchangeId = nat

  /** What the client sends along: its id, the redirect URI, and the S256 image of its verifier. */
  datatype Form = Form(clientId: ClientId, redirectUri: Option<string>, verifierS256: string)

  /** An exchange between two of its store transactions. */
  datatype Exchange =
    | CodeTaken(code: Code, auth: AuthCode, form: Form)       // code removed; checks to come
    | Rooting(code: Code, grant: Grant, familyId: FamilyId)   // checked; first token to be inserted
    | Rotating(row: RefreshRow, clientId: ClientId)           // consumed; checks to come
    | Reissuing(grant: Grant, familyId: FamilyId)             // checked; successor to be inserted
    | Revoking(familyId: FamilyId)                            // replay seen; family to be deleted

  /** Where a family comes from. */
  datatype Root = Root(code: Code, grant: Grant)

  datatype Endpoint = Endpoint(
    now: nat,
    users: set<UserId>,
    codes: map<Code, PendingCode>,
    rows: Rows,
    exchanges: map<ExchangeId, Exchange>,
    roots: map<FamilyId, Root>,                // history: every family ever started
    goneUsers: set<UserId>,                    // history: deleted users; ids are never reused
    nextCode: Code,
    nextHash: TokenHash,
    nextFamily: FamilyId,
    nextExchange: ExchangeId)

  function Fresh(now: nat): Endpoint {
    Endpoint(now, {}, map[], map[], map[], map[], {}, 0, 0, 0, 0)
  }

  datatype Step =
    | Tick(elapsed: nat)
    | AddUser(userId: UserId)
    | DeleteUser(userId: UserId)
    | IssueCode(auth: AuthCode, ttl: nat)
    | PresentCode(code: Code, form: Form)
    | CheckCode(exchange: ExchangeId)
    | InsertRoot(exchange: ExchangeId)
    | PresentRefresh(hash: TokenHash, clientId: ClientId)
    | CheckRotation(exchange: ExchangeId)
    | InsertNext(exchange: ExchangeId)
    | RevokeFamily(exchange: ExchangeId)
    | Fail(exchange: ExchangeId)
    | RevokeUserClient(userId: UserId, clientId: ClientId)
    | RevokeUser(userId: UserId)

  /** The checks between taking a code and starting a family. */
  predicate CodeChecksOut(e: Endpoint, auth: AuthCode, form: Form) {
    && auth.grant.clientId == form.clientId
    && form.redirectUri == Some(auth.redirectUri)
    && form.verifierS256 == auth.codeChallenge
    && auth.grant.userId in e.users
  }

  /** The checks between consuming a token and issuing its successor. */
  predicate RotationChecksOut(e: Endpoint, row: RefreshRow, clientId: ClientId) {
    row.grant.clientId == clientId && row.grant.userId in e.users
  }

  predicate In(e: Endpoint, x: ExchangeId) {
    x in e.exchanges
  }

  predicate Can(e: Endpoint, s: Step) {
    match s
    case AddUser(u) => u !in e.users && u !in e.goneUsers
    case CheckCode(x) => In(e, x) && e.exchanges[x].CodeTaken?
    case InsertRoot(x) => In(e, x) && e.exchanges[x].Rooting? && e.exchanges[x].grant.userId in e.users
    case CheckRotation(x) => In(e, x) && e.exchanges[x].Rotating?
    case InsertNext(x) => In(e, x) && e.exchanges[x].Reissuing? && e.exchanges[x].grant.userId in e.users
    case RevokeFamily(x) => In(e, x) && e.exchanges[x].Revoking?
    case Fail(x) => In(e, x)
    case _ => true
  }

  function Start(e: Endpoint, exchange: Exchange): Endpoint {
    e.(exchanges := e.exchanges[e.nextExchange := exchange], nextExchange := e.nextExchange + 1)
  }

  function Finish(e: Endpoint, x: ExchangeId): Endpoint {
    e.(exchanges := e.exchanges - {x})
  }

  /** `insert_refresh` with a fresh random token. */
  function Insert(e: Endpoint, grant: Grant, familyId: FamilyId): Endpoint {
    e.(rows := e.rows[e.nextHash := RefreshRow(grant, familyId, false, e.now + REFRESH_TTL_SECS)],
       nextHash := e.nextHash + 1)
  }

  function Next(e: Endpoint, s: Step): Endpoint
    requires Can(e, s)
  {
    match s
    case Tick(elapsed) => e.(now := e.now + elapsed)
    case AddUser(u) => e.(users := e.users + {u})
    case DeleteUser(u) => e.(users := e.users - {u}, goneUsers := e.goneUsers + {u}, rows := WithoutUser(e.rows, u))
    case IssueCode(auth, ttl) =>
      e.(codes := WithCode(e.codes, e.now, e.nextCode, auth, ttl), nextCode := e.nextCode + 1)
    case PresentCode(code, form) =>
      var taken := e.(codes := e.codes - {code});
      (match Redeemable(e.codes, e.now, code)
       case Some(auth) => Start(taken, CodeTaken(code, auth, form))
       case None => taken)
    case CheckCode(x) =>
      var CodeTaken(code, auth, form) := e.exchanges[x];
      if CodeChecksOut(e, auth, form) then
        e.(exchanges := e.exchanges[x := Rooting(code, auth.grant, e.nextFamily)],
           roots := e.roots[e.nextFamily := Root(code, auth.grant)],
           nextFamily := e.nextFamily + 1)
      else Finish(e, x)
    case InsertRoot(x) => Finish(Insert(e, e.exchanges[x].grant, e.exchanges[x].familyId), x)
    case PresentRefresh(hash, clientId) =>
      var presented := e.(rows := Presented(e.rows, e.now, hash));
      (match OutcomeOf(e.rows, e.now, hash)
       case Valid(row) => Start(presented, Rotating(row, clientId))
       case Replayed(familyId) => Start(presented, Revoking(familyId))
       case Missing => presented)
    case CheckRotation(x) =>
      var Rotating(row, clientId) := e.exchanges[x];
      if RotationChecksOut(e, row, clientId) then
        e.(exchanges := e.exchanges[x := Reissuing(row.grant, row.familyId)])
      else Finish(e, x)
    case InsertNext(x) => Finish(Insert(e, e.exchanges[x].grant, e.exchanges[x].familyId), x)
    case RevokeFamily(x) => Finish(e.(rows := WithoutFamily(e.rows, e.exchanges[x].familyId)), x)
    case Fail(x) => Finish(e, x)
    case RevokeUserClient(u, c) => e.(rows := WithoutUserClient(e.rows, u, c))
    case RevokeUser(u) => e.(rows := WithoutUser(e.rows, u))
  }

  predicate IsRun(e: Endpoint, steps: seq<Step>)
    decreases steps
  {
    steps == [] || (Can(e, steps[0]) && IsRun(Next(e, steps[0]), steps[1..]))
  }

  function After(e: Endpoint, steps: seq<Step>): Endpoint
    requires IsRun(e, steps)
    decreases steps
  {
    if steps == [] then e else After(Next(e, steps[0]), steps[1..])
  }

  lemma EmptyRun(e: Endpoint)
    ensures IsRun(e, []) && After(e, []) == e
  {
  }

  lemma {:induction false} RunExtends(e: Endpoint, steps: seq<Step>, s: Step)
    requires IsRun(e, steps) && Can(After(e, steps), s)
    ensures IsRun(e, steps + [s])
    ensures After(e, steps + [s]) == Next(After(e, steps), s)
    decreases steps
  {
    hide Next, Can;
    if steps == [] {
      assert steps + [s] == [s] && [s][1..] == [];
    } else {
      RunExtends(Next(e, steps[0]), steps[1..], s);
      assert (steps + [s])[1..] == steps[1..] + [s];
    }
  }

  // ------------------------------------------------------------------------------------
  // Families
  // ------------------------------------------------------------------------------------

  /** A stored token of the family that has not been consumed. */
  predicate Unconsumed(e: Endpoint, h: TokenHash, f: FamilyId) {
    h in e.rows && !e.rows[h].consumed && e.rows[h].familyId == f
  }

  /** An exchange that owes the family a token: its root, or the successor of a consumed one. */
  predicate Owes(x: Exchange, f: FamilyId) {
    match x
    case Rooting(_, _, g) => g == f
    case Rotating(row, _) => row.familyId == f
    case Reissuing(_, g) => g == f
    case _ => false
  }

  predicate InFlight(e: Endpoint, x: ExchangeId, f: FamilyId) {
    x in e.exchanges && Owes(e.exchanges[x], f)
  }

  function UnconsumedOf(e: Endpoint, f: FamilyId): set<TokenHash> {
    set h | h in e.rows && Unconsumed(e, h, f)
  }

  function InFlightOf(e: Endpoint, f: FamilyId): set<ExchangeId> {
    set x | x in e.exchanges && InFlight(e, x, f)
  }

  // ------------------------------------------------------------------------------------
  // Invariants
  // ------------------------------------------------------------------------------------

  /** The one chance a family has left is a stored token or an exchange, never two things. */
  ghost predicate Linear(e: Endpoint) {
    && (forall h, h', f :: Unconsumed(e, h, f) && Unconsumed(e, h', f) ==> h == h')
    && (forall x, x', f :: InFlight(e, x, f) && InFlight(e, x', f) ==> x == x')
    && (forall h, x, f :: Unconsumed(e, h, f) && InFlight(e, x, f) ==> false)
  }

  predicate GrantOf(x: Exchange, grant: Grant) {
    match x
    case Rooting(_, g, _) => g == grant
    case Rotating(row, _) => row.grant == grant
    case Reissuing(g, _) => g == grant
    case _ => true
  }

  /** Every token and every exchange of a family carries the grant of its root. */
  ghost predicate SameGrant(e: Endpoint) {
    && (forall h :: h in e.rows ==> e.rows[h].familyId in e.roots && e.rows[h].grant == e.roots[e.rows[h].familyId].grant)
    && (forall x, f :: InFlight(e, x, f) ==> f in e.roots && GrantOf(e.exchanges[x], e.roots[f].grant))
    && (forall x :: x in e.exchanges && e.exchanges[x].Rooting? ==>
          e.roots[e.exchanges[x].familyId].code == e.exchanges[x].code)
  }

  ghost predicate Numbered(e: Endpoint) {
    && (forall c :: c in e.codes ==> c < e.nextCode)
    && (forall h :: h in e.rows ==> h < e.nextHash)
    && (forall f :: f in e.roots ==> f < e.nextFamily && e.roots[f].code < e.nextCode)
    && (forall x :: x in e.exchanges ==> x < e.nextExchange)
    && (forall x :: x in e.exchanges && e.exchanges[x].CodeTaken? ==> e.exchanges[x].code < e.nextCode)
    && (forall x :: x in e.exchanges && e.exchanges[x].Revoking? ==> e.exchanges[x].familyId in e.roots)
    && e.users !! e.goneUsers
  }

  predicate TakenBy(e: Endpoint, x: ExchangeId) {
    x in e.exchanges && e.exchanges[x].CodeTaken?
  }

  /** A code is pending, or in one exchange, or the root of one family. */
  ghost predicate CodeOnce(e: Endpoint) {
    && (forall x, x' :: TakenBy(e, x) && TakenBy(e, x') && e.exchanges[x].code == e.exchanges[x'].code ==> x == x')
    && (forall x :: TakenBy(e, x) ==> e.exchanges[x].code !in e.codes)
    && (forall f :: f in e.roots ==> e.roots[f].code !in e.codes)
    && (forall f, x :: f in e.roots && TakenBy(e, x) ==> e.roots[f].code != e.exchanges[x].code)
    && (forall f, f' :: f in e.roots && f' in e.roots && e.roots[f].code == e.roots[f'].code ==> f == f')
  }

  ghost predicate Sound(e: Endpoint) {
    Numbered(e) && Linear(e) && SameGrant(e) && CodeOnce(e)
  }

  lemma FreshIsSound(now: nat)
    ensures Sound(Fresh(now))
  {
  }

  // ------------------------------------------------------------------------------------
  // Linearity: how a family's one chance moves
  // ------------------------------------------------------------------------------------

  /** Chances only disappear. */
  ghost predicate Shrinks(e: Endpoint, e': Endpoint) {
    && (forall h, f :: Unconsumed(e', h, f) ==> Unconsumed(e, h, f))
    && (forall x, f :: InFlight(e', x, f) ==> InFlight(e, x, f))
  }

  lemma ShrinkingIsLinear(e: Endpoint, e': Endpoint)
    requires Linear(e) && Shrinks(e, e')
    ensures Linear(e')
  {
  }

  predicate Moves(s: Step) {
    s.CheckCode? || s.InsertRoot? || s.PresentRefresh? || s.InsertNext?
  }

  lemma OthersShrink(e: Endpoint, s: Step)
    requires Numbered(e) && Can(e, s) && !Moves(s)
    ensures Shrinks(e, Next(e, s))
  {
    hide Full, Unexpired, WithCode;
  }

  /** A consumed token's chance passes to the exchange that consumed it. */
  lemma ConsumeMovesToExchange(e: Endpoint, hash: TokenHash, clientId: ClientId)
    requires Numbered(e) && Linear(e)
    ensures Linear(Next(e, PresentRefresh(hash, clientId)))
    ensures OutcomeOf(e.rows, e.now, hash).Valid? ==>
              var e', f := Next(e, PresentRefresh(hash, clientId)), e.rows[hash].familyId;
              && Unconsumed(e, hash, f) && !Unconsumed(e', hash, f)
              && !InFlight(e, e.nextExchange, f) && InFlight(e', e.nextExchange, f)
  {
    var e' := Next(e, PresentRefresh(hash, clientId));
    var outcome := OutcomeOf(e.rows, e.now, hash);
    assert forall h, f :: Unconsumed(e', h, f) ==> Unconsumed(e, h, f) && h != hash;
    if outcome.Valid? {
      assert Unconsumed(e, hash, outcome.row.familyId);
      assert e.nextExchange !in e.exchanges;
      assert forall x, f :: InFlight(e', x, f) ==>
        (x == e.nextExchange && f == outcome.row.familyId) || (x != e.nextExchange && InFlight(e, x, f));
    } else {
      assert forall x, f :: InFlight(e', x, f) ==> InFlight(e, x, f);
    }
  }

  /** An inserted token takes the chance over from the exchange that owed it. */
  lemma InsertMovesToToken(e: Endpoint, x: ExchangeId, grant: Grant, f: FamilyId)
    requires Numbered(e) && Linear(e) && InFlight(e, x, f)
    ensures var e' := Finish(Insert(e, grant, f), x);
      && Linear(e')
      && !InFlight(e', x, f)
      && !Unconsumed(e, e.nextHash, f) && Unconsumed(e', e.nextHash, f)
  {
    var e' := Finish(Insert(e, grant, f), x);
    assert forall h, g :: Unconsumed(e', h, g) ==> (h == e.nextHash && g == f) || (h != e.nextHash && Unconsumed(e, h, g));
    assert forall y, g :: InFlight(e', y, g) ==> y != x && InFlight(e, y, g);
  }

  /** A new family starts with exactly one chance: the exchange that will insert its root. */
  lemma RootStartsFamily(e: Endpoint, x: ExchangeId)
    requires Numbered(e) && SameGrant(e) && Linear(e) && Can(e, CheckCode(x))
    ensures Linear(Next(e, CheckCode(x)))
    ensures CodeChecksOut(e, e.exchanges[x].auth, e.exchanges[x].form) ==>
              var e' := Next(e, CheckCode(x));
              UnconsumedOf(e', e.nextFamily) == {} && InFlightOf(e', e.nextFamily) == {x}
  {
    var e' := Next(e, CheckCode(x));
    assert forall h :: !Unconsumed(e, h, e.nextFamily);
    assert forall y :: !InFlight(e, y, e.nextFamily);
    assert forall h, f :: Unconsumed(e', h, f) ==> Unconsumed(e, h, f);
    assert forall y, f :: InFlight(e', y, f) ==> (y == x && f == e.nextFamily) || InFlight(e, y, f);
  }

  lemma StepKeepsLinear(e: Endpoint, s: Step)
    requires Numbered(e) && SameGrant(e) && Linear(e) && Can(e, s)
    ensures Linear(Next(e, s))
  {
    hide Numbered, SameGrant, Linear, Shrinks, WithCode, Presented, OutcomeOf;
    if s.PresentRefresh? {
      ConsumeMovesToExchange(e, s.hash, s.clientId);
    } else if s.CheckCode? {
      RootStartsFamily(e, s.exchange);
    } else if s.InsertRoot? || s.InsertNext? {
      assert InFlight(e, s.exchange, e.exchanges[s.exchange].familyId);
      InsertMovesToToken(e, s.exchange, e.exchanges[s.exchange].grant, e.exchanges[s.exchange].familyId);
    } else {
      OthersShrink(e, s);
      ShrinkingIsLinear(e, Next(e, s));
    }
  }

  // ------------------------------------------------------------------------------------
  // Numbers, grants, codes
  // ------------------------------------------------------------------------------------

  predicate Deletes(s: Step) {
    s.Tick? || s.AddUser? || s.DeleteUser? || s.RevokeFamily? || s.Fail? || s.RevokeUserClient? || s.RevokeUser?
  }

  lemma DeletesKeepNumbered(e: Endpoint, s: Step)
    requires Numbered(e) && Can(e, s) && Deletes(s)
    ensures Numbered(Next(e, s))
  {
  }

  lemma CodesKeepNumbered(e: Endpoint, s: Step)
    requires Numbered(e) && SameGrant(e) && Can(e, s) && (s.IssueCode? || s.PresentCode? || s.CheckCode?)
    ensures Numbered(Next(e, s))
  {
    hide Full;
  }

  lemma TokensKeepNumbered(e: Endpoint, s: Step)
    requires Numbered(e) && Can(e, s) && (s.InsertRoot? || s.CheckRotation? || s.InsertNext?)
    ensures Numbered(Next(e, s))
  {
  }

  lemma PresentKeepsNumbered(e: Endpoint, hash: TokenHash, clientId: ClientId)
    requires Numbered(e) && SameGrant(e)
    ensures Numbered(Next(e, PresentRefresh(hash, clientId)))
  {
  }

  lemma StepKeepsNumbered(e: Endpoint, s: Step)
    requires Numbered(e) && SameGrant(e) && Can(e, s)
    ensures Numbered(Next(e, s))
  {
    hide Numbered, SameGrant, Next, Can;
    if Deletes(s) {
      DeletesKeepNumbered(e, s);
    } else if s.IssueCode? || s.PresentCode? || s.CheckCode? {
      CodesKeepNumbered(e, s);
    } else if s.PresentRefresh? {
      PresentKeepsNumbered(e, s.hash, s.clientId);
    } else {
      TokensKeepNumbered(e, s);
    }
  }

  lemma DeletesKeepGrant(e: Endpoint, s: Step)
    requires SameGrant(e) && Can(e, s) && (Deletes(s) || s.IssueCode?)
    ensures SameGrant(Next(e, s))
  {
    hide WithCode;
  }

  lemma PresentKeepsGrant(e: Endpoint, code: Code, form: Form)
    requires Numbered(e) && SameGrant(e)
    ensures SameGrant(Next(e, PresentCode(code, form)))
  {
    var e' := Next(e, PresentCode(code, form));
    assert forall x :: x in e'.exchanges ==>
      (x in e.exchanges && e'.exchanges[x] == e.exchanges[x]) || e'.exchanges[x].CodeTaken?;
    hide Next, Redeemable;
  }

  lemma CheckKeepsGrant(e: Endpoint, x: ExchangeId)
    requires Numbered(e) && SameGrant(e) && Can(e, CheckCode(x))
    ensures SameGrant(Next(e, CheckCode(x)))
  {
    hide CodeChecksOut;
    assert e.nextFamily !in e.roots;
  }

  lemma RotationKeepsGrant(e: Endpoint, x: ExchangeId)
    requires SameGrant(e) && Can(e, CheckRotation(x))
    ensures SameGrant(Next(e, CheckRotation(x)))
  {
    assert InFlight(e, x, e.exchanges[x].row.familyId);
  }

  lemma InsertKeepsGrant(e: Endpoint, s: Step)
    requires Numbered(e) && SameGrant(e) && Can(e, s) && (s.InsertRoot? || s.InsertNext?)
    ensures SameGrant(Next(e, s))
  {
    assert InFlight(e, s.exchange, e.exchanges[s.exchange].familyId);
  }

  lemma ConsumeKeepsGrant(e: Endpoint, hash: TokenHash, clientId: ClientId)
    requires Numbered(e) && SameGrant(e)
    ensures SameGrant(Next(e, PresentRefresh(hash, clientId)))
  {
  }

  lemma StepKeepsGrant(e: Endpoint, s: Step)
    requires Numbered(e) && SameGrant(e) && Can(e, s)
    ensures SameGrant(Next(e, s))
  {
    hide Numbered, SameGrant, Next, Can;
    if Deletes(s) || s.IssueCode? {
      DeletesKeepGrant(e, s);
    } else if s.PresentCode? {
      PresentKeepsGrant(e, s.code, s.form);
    } else if s.CheckCode? {
      CheckKeepsGrant(e, s.exchange);
    } else if s.CheckRotation? {
      RotationKeepsGrant(e, s.exchange);
    } else if s.PresentRefresh? {
      ConsumeKeepsGrant(e, s.hash, s.clientId);
    } else {
      InsertKeepsGrant(e, s);
    }
  }

  lemma NewCodeKeepsCodeOnce(e: Endpoint, e': Endpoint)
    requires Numbered(e) && CodeOnce(e)
    requires forall c :: c in e'.codes ==> c in e.codes || c == e.nextCode
    requires e'.roots == e.roots
    requires forall x :: TakenBy(e', x) ==> TakenBy(e, x) && e.exchanges[x] == e'.exchanges[x]
    ensures CodeOnce(e')
  {
  }

  lemma OthersKeepCodeOnce(e: Endpoint, s: Step)
    requires Numbered(e) && CodeOnce(e) && Can(e, s) && !s.IssueCode? && !s.PresentCode? && !s.CheckCode?
    ensures CodeOnce(Next(e, s))
  {
    hide Presented, OutcomeOf, CodeOnce, Numbered;
    NewCodeKeepsCodeOnce(e, Next(e, s));
  }

  lemma IssueKeepsCodeOnce(e: Endpoint, auth: AuthCode, ttl: nat)
    requires Numbered(e) && CodeOnce(e)
    ensures CodeOnce(Next(e, IssueCode(auth, ttl)))
  {
    hide Full, CodeOnce, Numbered;
    NewCodeKeepsCodeOnce(e, Next(e, IssueCode(auth, ttl)));
  }

  lemma PresentKeepsCodeOnce(e: Endpoint, code: Code, form: Form)
    requires Numbered(e) && CodeOnce(e)
    ensures CodeOnce(Next(e, PresentCode(code, form)))
  {
    var e' := Next(e, PresentCode(code, form));
    assert e'.codes == e.codes - {code} && e'.roots == e.roots;
    assert forall x :: TakenBy(e', x) ==>
      (TakenBy(e, x) && e.exchanges[x] == e'.exchanges[x] && x != e.nextExchange)
      || (x == e.nextExchange && e'.exchanges[x].code == code && code in e.codes);
    hide Next;
  }

  lemma CheckKeepsCodeOnce(e: Endpoint, x: ExchangeId)
    requires Numbered(e) && CodeOnce(e) && Can(e, CheckCode(x))
    ensures CodeOnce(Next(e, CheckCode(x)))
  {
    hide CodeOnce, Numbered, CodeChecksOut;
    RootKeepsCodeOnce(e, Next(e, CheckCode(x)), x);
  }

  lemma RootKeepsCodeOnce(e: Endpoint, e': Endpoint, x: ExchangeId)
    requires CodeOnce(e) && TakenBy(e, x) && e'.codes == e.codes
    requires forall y :: TakenBy(e', y) ==> y != x && TakenBy(e, y) && e.exchanges[y] == e'.exchanges[y]
    requires forall f :: f in e'.roots ==>
      (f in e.roots && e'.roots[f] == e.roots[f]) || (f == e.nextFamily && e'.roots[f].code == e.exchanges[x].code)
    ensures CodeOnce(e')
  {
  }

  lemma StepKeepsCodeOnce(e: Endpoint, s: Step)
    requires Numbered(e) && CodeOnce(e) && Can(e, s)
    ensures CodeOnce(Next(e, s))
  {
    hide Numbered, CodeOnce, Next, Can;
    match s
    case IssueCode(auth, ttl) => IssueKeepsCodeOnce(e, auth, ttl);
    case PresentCode(code, form) => PresentKeepsCodeOnce(e, code, form);
    case CheckCode(x) => CheckKeepsCodeOnce(e, x);
    case _ => OthersKeepCodeOnce(e, s);
  }

  lemma StepKeepsSound(e: Endpoint, s: Step)
    requires Sound(e) && Can(e, s)
    ensures Sound(Next(e, s))
  {
    hide Numbered, Linear, SameGrant, CodeOnce, Next, Can;
    StepKeepsNumbered(e, s);
    StepKeepsLinear(e, s);
    StepKeepsGrant(e, s);
    StepKeepsCodeOnce(e, s);
  }

  lemma {:induction false} RunKeepsSound(e: Endpoint, steps: seq<Step>)
    requires Sound(e) && IsRun(e, steps)
    ensures Sound(After(e, steps))
    decreases steps
  {
    hide Sound, Next, Can;
    if steps != [] {
      StepKeepsSound(e, steps[0]);
      RunKeepsSound(Next(e, steps[0]), steps[1..]);
    }
  }
}
