/** Why the promise of a restart has exceptions. From every reachable state in which a backend is
    pooled and the bind lock is free there are runs in which its restart is followed by a request
    that is handed that very backend: because the instance list fails, because the sandbox fails,
    or, wherever that is so, because there is no room. After the last two the restart of an open
    backend is lost for good. */
module PoolExcuses {
  import opened Wrappers
  import opened PoolLedger
  import opened PoolEntry
  import opened PoolRestart
  import opened PoolHub
  import opened PoolRuns
  import opened PoolWalks
  import opened PoolLost

  // ------------------------------------------------------------------------------------
  // A request on its way to the instance list
  // ------------------------------------------------------------------------------------

  /** Just arrived at an entry that is not fresh, with the bind lock free. */
  predicate WillList(env: Env, en: Entry, r: RequestId) {
    && en.alive && en.binder.None? && r in en.requests && en.requests[r].stage.Entered? && !en.requests[r].early
    && !Fresh(en.ledger, ViewOf(env))
  }

  function ToListing(r: RequestId): seq<EntryStep> {
    [EntryStep.FastPath(r)] + [TakeBind(r)] + [Recheck(r)]
  }

  function Missed(env: Env, en: Entry, r: RequestId): Entry
    requires r in en.requests
  {
    WithStage(en.(ledger := en.ledger.(lastUsed := env.now)), r, Queued)
  }

  function AtListing(env: Env, en: Entry, r: RequestId): Entry
    requires r in en.requests
  {
    WithStage(WithStage(Missed(env, en, r), r, Bound).(binder := Some(r)), r, Listing)
  }

  lemma MissesFastPath(env: Env, en: Entry, r: RequestId)
    requires WillList(env, en, r)
    ensures Enabled(en, EntryStep.FastPath(r))
    ensures DoLocal(env, en, EntryStep.FastPath(r)) == Missed(env, en, r)
  {
  }

  lemma TakesBind(env: Env, en: Entry, r: RequestId)
    requires en.alive && en.binder.None? && r in en.requests && en.requests[r].stage.Queued?
    ensures Enabled(en, TakeBind(r))
    ensures DoLocal(env, en, TakeBind(r)) == WithStage(en, r, Bound).(binder := Some(r))
  {
  }

  lemma MissesRecheck(env: Env, en: Entry, r: RequestId)
    requires en.alive && !Locked(en) && r in en.requests && en.requests[r].stage.Bound? && !Fresh(en.ledger, ViewOf(env))
    ensures Enabled(en, Recheck(r))
    ensures DoLocal(env, en, Recheck(r)) == WithStage(en, r, Listing)
  {
  }

  lemma StillMisses(l: Ledger, now: Instant, v: View)
    requires !Fresh(l, v)
    ensures !Fresh(l.(lastUsed := now), v)
  {
  }

  lemma ReachesListing(env: Env, en: Entry, r: RequestId)
    requires WillList(env, en, r)
    ensures IsWalk(env, en, ToListing(r)) && Walk(env, en, ToListing(r)) == AtListing(env, en, r)
  {
    var missed := Missed(env, en, r);
    var bound := WithStage(missed, r, Bound).(binder := Some(r));
    MissesFastPath(env, en, r);
    TakesBind(env, missed, r);
    StillMisses(en.ledger, env.now, ViewOf(env));
    MissesRecheck(env, bound, r);
    hide DoLocal, Enabled, Fresh, IsWalk, Walk, Locked, WillList;
    WalkTwo(env, en, EntryStep.FastPath(r), missed, TakeBind(r));
    WalkSnoc(env, en, [EntryStep.FastPath(r)] + [TakeBind(r)], Recheck(r));
  }

  // ------------------------------------------------------------------------------------
  // Ends
  // ------------------------------------------------------------------------------------

  lemma FailsToList(env: Env, en: Entry, r: RequestId)
    requires en.alive && r in en.requests && en.requests[r].stage.Listing?
    ensures Enabled(en, ListFails(r))
    ensures DoLocal(env, en, ListFails(r)) == ReturnEarly(en, r)
  {
  }

  lemma ListsAll(env: Env, en: Entry, r: RequestId, enabled: seq<InstanceId>)
    requires en.alive && r in en.requests && en.requests[r].stage.Listing?
    ensures Enabled(en, ListReturns(r, enabled))
    ensures DoLocal(env, en, ListReturns(r, enabled)) == WithStage(en, r, Listed(enabled))
  {
  }

  lemma StampsAll(env: Env, en: Entry, r: RequestId)
    requires en.alive && !Locked(en) && r in en.requests && en.requests[r].stage.Listed?
    ensures Enabled(en, SandboxFails(r))
    ensures DoLocal(env, en, SandboxFails(r)) == DoSandboxFails(env, en, r)
  {
  }

  /** The request returned with the pooled vector of the moment. */
  predicate Gave(en: Entry, en': Entry, r: RequestId, early: bool) {
    && en'.ledger == en.ledger && en'.past.born == en.past.born
    && r in en'.past.served
    && en'.past.served[r].snapshot == en.ledger.backends
    && en'.past.served[r].early == early
  }

  lemma TakesSnapshot(env: Env, en: Entry, r: RequestId)
    requires en.alive && !Locked(en) && r in en.requests && en.requests[r].stage.Reconciled?
    ensures Enabled(en, TakeSnapshot(r))
    ensures Gave(en, DoLocal(env, en, TakeSnapshot(r)), r, en.requests[r].early)
  {
  }

  function FailedListing(r: RequestId): seq<EntryStep> {
    ToListing(r) + ([ListFails(r)] + [TakeSnapshot(r)])
  }

  /** With the bind lock free, a request that misses the fast path and cannot list the instances
      is handed the pooled vector as it is. */
  lemma FailedListingServesThePool(env: Env, en: Entry, r: RequestId)
    requires WillList(env, en, r)
    ensures IsWalk(env, en, FailedListing(r))
    ensures var end := Walk(env, en, FailedListing(r));
      && r in end.past.served
      && end.past.served[r].early
      && end.past.served[r].snapshot == en.ledger.backends
  {
    var listing := AtListing(env, en, r);
    ReachesListing(env, en, r);
    FailsToList(env, listing, r);
    TakesSnapshot(env, ReturnEarly(listing, r), r);
    hide DoLocal, Enabled, IsWalk, Walk, Fresh, ToListing;
    WalkTwo(env, listing, ListFails(r), ReturnEarly(listing, r), TakeSnapshot(r));
    WalkConcat(env, en, ToListing(r), [ListFails(r)] + [TakeSnapshot(r)]);
  }

  function ToListed(r: RequestId, enabled: seq<InstanceId>): seq<EntryStep> {
    ToListing(r) + [ListReturns(r, enabled)]
  }

  function AtListed(env: Env, en: Entry, r: RequestId, enabled: seq<InstanceId>): Entry
    requires r in en.requests
  {
    WithStage(AtListing(env, en, r), r, Listed(enabled))
  }

  lemma ReachesListed(env: Env, en: Entry, r: RequestId, enabled: seq<InstanceId>)
    requires WillList(env, en, r)
    ensures IsWalk(env, en, ToListed(r, enabled)) && Walk(env, en, ToListed(r, enabled)) == AtListed(env, en, r, enabled)
  {
    ReachesListing(env, en, r);
    ListsAll(env, AtListing(env, en, r), r, enabled);
    hide DoLocal, Enabled, IsWalk, Walk, Fresh, ToListing;
    WalkSnoc(env, en, ToListing(r), ListReturns(r, enabled));
  }

  function FailedSandbox(r: RequestId, enabled: seq<InstanceId>): seq<EntryStep> {
    ToListed(r, enabled) + ([SandboxFails(r)] + [TakeSnapshot(r)])
  }

  /** Likewise when the sandbox fails, and every listed instance is then recorded as current. */
  lemma FailedSandboxServesThePool(env: Env, en: Entry, r: RequestId, enabled: seq<InstanceId>)
    requires WillList(env, en, r)
    ensures IsWalk(env, en, FailedSandbox(r, enabled))
    ensures var end := Walk(env, en, FailedSandbox(r, enabled));
      && r in end.past.served
      && end.past.served[r].early
      && end.past.served[r].snapshot == en.ledger.backends == end.ledger.backends
      && end.past.born == en.past.born
      && forall id :: id in enabled ==> EpochOk(end.ledger, ViewOf(env), id)
  {
    var listed := AtListed(env, en, r, enabled);
    var stamped := DoSandboxFails(env, listed, r);
    ReachesListed(env, en, r, enabled);
    StampsAll(env, listed, r);
    StampAllEffect(listed.ledger.(dirty := false, initialized := true), enabled, ViewOf(env));
    TakesSnapshot(env, stamped, r);
    assert stamped.requests[r].early;
    hide DoLocal, Enabled, IsWalk, Walk, Fresh, ToListed, SandboxStamp, StampAll;
    WalkTwo(env, listed, SandboxFails(r), stamped, TakeSnapshot(r));
    WalkConcat(env, en, ToListed(r, enabled), [SandboxFails(r)] + [TakeSnapshot(r)]);
  }

  // ------------------------------------------------------------------------------------
  // From every reachable state
  // ------------------------------------------------------------------------------------

  lemma BumpSpoilsFresh(h: Hub, e: EntryId, b: Backend)
    requires HubInv(h) && e < |h.entries| && b in h.entries[e].ledger.backends
    ensures var env := Next(h, BumpReload(b.instanceId)).env;
      && !Fresh(h.entries[e].ledger, ViewOf(env))
      && !EpochOk(h.entries[e].ledger, ViewOf(env), b.instanceId)
      && Outdated(env, h.entries[e], b)
  {
    assert EntryInv(h.env, h.entries[e]);
    assert Trailing(h.env.epochs, h.entries[e]);
  }

  /** Request `r` returned, early or not, with `b` in hand. */
  predicate HandedOut(h: Hub, e: EntryId, r: RequestId, b: Backend, early: bool) {
    && e < |h.entries| && r in h.entries[e].past.served
    && h.entries[e].past.served[r].early == early
    && b in h.entries[e].past.served[r].snapshot
  }

  /** The state in which the user's next request has just arrived after the bump. */
  function ArrivedAfterBump(h: Hub, id: InstanceId, user: UserId): Hub
    requires user in h.users && Live(h, h.users[user])
  {
    var bumped := Next(h, BumpReload(id));
    var e := h.users[user];
    bumped.(entries := bumped.entries[e := DoEnter(bumped.env, bumped.entries[e])])
  }

  lemma ArrivesAfterBump(h: Hub, id: InstanceId, user: UserId)
    requires user in h.users && Live(h, h.users[user])
    ensures Can(h, BumpReload(id)) && Can(Next(h, BumpReload(id)), Arrive(user))
    ensures Next(Next(h, BumpReload(id)), Arrive(user)) == ArrivedAfterBump(h, id, user)
  {
    hide DoEnter;
    assert h.users[user := h.users[user]] == h.users;
  }

  /** A request has arrived that will look for a replacement of `b`. */
  predicate ReadyToMiss(h: Hub, e: EntryId, r: RequestId, b: Backend) {
    && e < |h.entries| && WillList(h.env, h.entries[e], r)
    && b in h.entries[e].ledger.backends
    && !EpochOk(h.entries[e].ledger, ViewOf(h.env), b.instanceId)
    && Outdated(h.env, h.entries[e], b)
  }

  lemma ReadyAfterBump(h: Hub, user: UserId, b: Backend)
    requires Reachable(h) && user in h.users && Live(h, h.users[user])
    requires h.entries[h.users[user]].binder.None? && b in h.entries[h.users[user]].ledger.backends
    ensures ReadyToMiss(ArrivedAfterBump(h, b.instanceId, user), h.users[user], h.entries[h.users[user]].nextRequest, b)
  {
    hide Fresh, HubInv, Reachable;
    ReachableHubInv(h);
    BumpSpoilsFresh(h, h.users[user], b);
  }

  lemma ListingFailsThen(h: Hub, e: EntryId, r: RequestId, b: Backend)
    requires ReadyToMiss(h, e, r, b)
    ensures IsRun(h, AllIn(e, FailedListing(r)))
    ensures HandedOut(After(h, AllIn(e, FailedListing(r))), e, r, b, true)
  {
    hide Fresh, IsRun, After, Next, Can, IsWalk, Walk, FailedListing, WillList;
    FailedListingServesThePool(h.env, h.entries[e], r);
    WalkInHub(h, e, FailedListing(r));
  }

  lemma SandboxFailsThen(h: Hub, e: EntryId, r: RequestId, b: Backend, enabled: seq<InstanceId>)
    requires ReadyToMiss(h, e, r, b) && b.incarnation !in h.env.closed && b.instanceId in enabled
    ensures var steps := AllIn(e, FailedSandbox(r, enabled));
      && IsRun(h, steps)
      && HandedOut(After(h, steps), e, r, b, true)
      && LostAt(After(h, steps), e, b)
  {
    hide Fresh, IsRun, After, Next, Can, IsWalk, Walk, FailedSandbox, WillList;
    FailedSandboxServesThePool(h.env, h.entries[e], r, enabled);
    WalkInHub(h, e, FailedSandbox(r, enabled));
  }

  /** A run from the bump on: the user's request arrives, and `rest` follows. */
  lemma FromTheBump(h: Hub, id: InstanceId, user: UserId, rest: seq<Step>)
    requires user in h.users && Live(h, h.users[user])
    requires IsRun(ArrivedAfterBump(h, id, user), rest)
    ensures Can(h, BumpReload(id))
    ensures var bumped := Next(h, BumpReload(id));
      && IsRun(bumped, [Arrive(user)] + rest)
      && After(bumped, [Arrive(user)] + rest) == After(ArrivedAfterBump(h, id, user), rest)
  {
    hide IsRun, After, ArrivedAfterBump, Next, Can;
    ArrivesAfterBump(h, id, user);
    RunCons(Next(h, BumpReload(id)), Arrive(user), rest);
  }

  /** A pooled backend outlives its restart when the instance list fails: whenever a user's entry
      pools a backend and its bind lock is free, bumping the instance's reload epoch and letting
      the user's next request run into a failed listing hands that very backend out. */
  lemma RestartMissedWhenListingFails(h: Hub, user: UserId, b: Backend)
    requires Reachable(h) && user in h.users && Live(h, h.users[user])
    requires h.entries[h.users[user]].binder.None? && b in h.entries[h.users[user]].ledger.backends
    ensures
      var e := h.users[user];
      var bumped := Next(h, BumpReload(b.instanceId));
      exists rest ::
        && IsRun(bumped, [Arrive(user)] + rest)
        && HandedOut(After(bumped, [Arrive(user)] + rest), e, h.entries[e].nextRequest, b, true)
  {
    hide Fresh, IsRun, After, Reachable, HandedOut, AllIn, Next, ArrivedAfterBump, ReadyToMiss, FailedListing;
    var e := h.users[user];
    var r := h.entries[e].nextRequest;
    ReadyAfterBump(h, user, b);
    ListingFailsThen(ArrivedAfterBump(h, b.instanceId, user), e, r, b);
    FromTheBump(h, b.instanceId, user, AllIn(e, FailedListing(r)));
  }

  lemma OpenAfterBump(h: Hub, id: InstanceId, user: UserId)
    requires user in h.users && Live(h, h.users[user])
    ensures ArrivedAfterBump(h, id, user).env.closed == h.env.closed
  {
  }

  /** When the sandbox fails, the request is handed the outdated backend and the restart is lost. */
  lemma RestartLostWhenSandboxFails(h: Hub, user: UserId, b: Backend, enabled: seq<InstanceId>)
    requires Reachable(h) && user in h.users && Live(h, h.users[user])
    requires h.entries[h.users[user]].binder.None? && b in h.entries[h.users[user]].ledger.backends
    requires b.incarnation !in h.env.closed && b.instanceId in enabled
    ensures
      var e := h.users[user];
      var bumped := Next(h, BumpReload(b.instanceId));
      exists rest ::
        && IsRun(bumped, [Arrive(user)] + rest)
        && HandedOut(After(bumped, [Arrive(user)] + rest), e, h.entries[e].nextRequest, b, true)
        && LostAt(After(bumped, [Arrive(user)] + rest), e, b)
  {
    hide Fresh, IsRun, After, Reachable, HandedOut, AllIn, Next, ArrivedAfterBump, ReadyToMiss, FailedSandbox, LostAt;
    var e := h.users[user];
    var r := h.entries[e].nextRequest;
    ReadyAfterBump(h, user, b);
    OpenAfterBump(h, b.instanceId, user);
    SandboxFailsThen(ArrivedAfterBump(h, b.instanceId, user), e, r, b, enabled);
    FromTheBump(h, b.instanceId, user, AllIn(e, FailedSandbox(r, enabled)));
  }

  // ------------------------------------------------------------------------------------
  // No room
  // ------------------------------------------------------------------------------------

  /** After pruning to these instances the user's pool is at its cap, or no slot is free. */
  predicate Tight(env: Env, en: Entry, enabled: seq<InstanceId>) {
    || |Retain(en.ledger.backends, Elements(enabled))| + |en.ledger.connecting| >= env.limits.perUser
    || env.free + RetainFrees(en.ledger.backends, Elements(enabled), Pinned(en)) == 0
  }

  /** Request `r` holds the decision block and will not return early. */
  predicate InBlock(en: Entry, r: RequestId) {
    && en.alive && en.binder == Some(r) && r in en.requests
    && en.requests[r].stage.Deciding? && !en.requests[r].early
  }

  function Finishing(r: RequestId): seq<EntryStep> {
    ([EndDecide(r)] + [BudgetExpires(r)]) + ([MarkInitialized(r)] + [TakeSnapshot(r)])
  }

  function AfterWait(en: Entry, r: RequestId): Entry
    requires r in en.requests
  {
    WithStage(WithStage(en, r, Waiting), r, Waited).(late := en.late + {r})
  }

  lemma EndsBlock(env: Env, en: Entry, r: RequestId)
    requires InBlock(en, r) && en.requests[r].stage.next >= |en.requests[r].stage.enabled|
    ensures Enabled(en, EndDecide(r)) && DoLocal(env, en, EndDecide(r)) == WithStage(en, r, Waiting)
    ensures var waiting := WithStage(en, r, Waiting);
      Enabled(waiting, BudgetExpires(r)) && DoLocal(env, waiting, BudgetExpires(r)) == AfterWait(en, r)
  {
  }

  lemma Initializes(env: Env, en: Entry, r: RequestId)
    requires en.alive && !Locked(en) && r in en.requests && en.requests[r].stage.Waited?
    ensures Enabled(en, MarkInitialized(r))
    ensures DoLocal(env, en, MarkInitialized(r)) == WithStage(en, r, Reconciled).(ledger := en.ledger.(initialized := true))
  {
  }

  lemma FinishingServesThePool(env: Env, en: Entry, r: RequestId)
    requires InBlock(en, r) && en.requests[r].stage.next >= |en.requests[r].stage.enabled|
    ensures IsWalk(env, en, Finishing(r))
    ensures var end := Walk(env, en, Finishing(r));
      && end.ledger == en.ledger.(initialized := true) && end.past.born == en.past.born
      && r in end.past.served
      && end.past.served[r].snapshot == en.ledger.backends
      && !end.past.served[r].early
  {
    var waited := AfterWait(en, r);
    var reconciled := WithStage(waited, r, Reconciled).(ledger := en.ledger.(initialized := true));
    EndsBlock(env, en, r);
    Initializes(env, waited, r);
    TakesSnapshot(env, reconciled, r);
    assert !reconciled.requests[r].early;
    hide DoLocal, Enabled, IsWalk, Walk, Locked;
    WalkTwo(env, en, EndDecide(r), WithStage(en, r, Waiting), BudgetExpires(r));
    WalkTwo(env, waited, MarkInitialized(r), reconciled, TakeSnapshot(r));
    WalkConcat(env, en, [EndDecide(r)] + [BudgetExpires(r)], [MarkInitialized(r)] + [TakeSnapshot(r)]);
  }

  lemma FinishingThen(h: Hub, e: EntryId, r: RequestId, b: Backend)
    requires LostAt(h, e, b) && InBlock(h.entries[e], r)
    requires h.entries[e].requests[r].stage.next >= |h.entries[e].requests[r].stage.enabled|
    ensures var steps := AllIn(e, Finishing(r));
      && IsRun(h, steps)
      && HandedOut(After(h, steps), e, r, b, false)
      && LostAt(After(h, steps), e, b)
  {
    hide IsRun, After, Next, Can, IsWalk, Walk, Finishing, InBlock;
    FinishingServesThePool(h.env, h.entries[e], r);
    WalkInHub(h, e, Finishing(r));
  }

  lemma NextTurn(h: Hub, e: EntryId, r: RequestId)
    requires e < |h.entries| && InBlock(h.entries[e], r)
    requires h.entries[e].requests[r].stage.next < |h.entries[e].requests[r].stage.enabled|
    ensures Can(h, In(e, DecideNext(r)))
    ensures var en, en' := h.entries[e], Next(h, In(e, DecideNext(r))).entries[e];
      && InBlock(en', r)
      && en'.requests[r].stage.enabled == en.requests[r].stage.enabled
      && en'.requests[r].stage.next == en.requests[r].stage.next + 1
  {
    TurnStage(h.env, h.entries[e], r);
    TurnKeepsBinder(h.env, h.entries[e], r);
    hide DoDecideNext;
  }

  lemma TurnKeepsBinder(env: Env, en: Entry, r: RequestId)
    requires InTurn(en, r)
    ensures var en' := DoDecideNext(env, en, r).entry; en'.alive == en.alive && en'.binder == en.binder
  {
    hide DecideOne, Judge, Pinned, PastOfTurn;
  }

  /** From inside the block there is a run in which the request takes the remaining turns, waits its
      budget out and returns with the backend in hand. */
  lemma {:induction false} BlockRunsOut(h: Hub, e: EntryId, r: RequestId, b: Backend) returns (steps: seq<Step>)
    requires HubInv(h) && LostAt(h, e, b) && InBlock(h.entries[e], r)
    ensures IsRun(h, steps)
    ensures HandedOut(After(h, steps), e, r, b, false)
    ensures LostAt(After(h, steps), e, b)
    decreases |h.entries[e].requests[r].stage.enabled| - h.entries[e].requests[r].stage.next
  {
    hide HubInv, Lost, IsRun, After, HandedOut, Next, Can;
    if h.entries[e].requests[r].stage.next < |h.entries[e].requests[r].stage.enabled| {
      var turn := In(e, DecideNext(r));
      NextTurn(h, e, r);
      TurnDisturbsNothing(h, e, r, b);
      StepKeepsLost(h, turn, e, b);
      StepKeepsInv(h, turn);
      var rest := BlockRunsOut(Next(h, turn), e, r, b);
      RunCons(h, turn, rest);
      steps := [turn] + rest;
    } else {
      FinishingThen(h, e, r, b);
      steps := AllIn(e, Finishing(r));
    }
  }

  lemma TurnDisturbsNothing(h: Hub, e: EntryId, r: RequestId, b: Backend)
    requires Can(h, In(e, DecideNext(r)))
    ensures !Disturbs(h, In(e, DecideNext(r)), e, b)
  {
  }

  /** Its instances listed, the first of them awaiting a restart for which there is no room. */
  predicate AtTheBlock(h: Hub, e: EntryId, r: RequestId, b: Backend) {
    && e < |h.entries| && AwaitsRestart(h.env, h.entries[e], b)
    && var en := h.entries[e];
    && en.alive && en.binder == Some(r) && r in en.requests && en.requests[r].stage.Listed? && !en.requests[r].early
    && en.requests[r].stage.enabled != [] && en.requests[r].stage.enabled[0] == b.instanceId
    && Tight(h.env, en, en.requests[r].stage.enabled)
  }

  lemma Begins(h: Hub, e: EntryId, r: RequestId, b: Backend)
    requires AtTheBlock(h, e, r, b)
    ensures Can(h, In(e, BeginDecide(r)))
    ensures var begun := Next(h, In(e, BeginDecide(r))); var en := begun.entries[e];
      && |begun.entries| == |h.entries|
      && InBlock(en, r) && InTurn(en, r) && TurnOf(en, r) == b.instanceId
      && AwaitsRestart(begun.env, en, b) && !Room(begun.env, en, r)
  {
    hide Pinned, RetainFrees, Held;
  }

  /** The block opens on a pending restart without room, and its first turn loses it. */
  lemma FirstTurnLoses(h: Hub, e: EntryId, r: RequestId, b: Backend)
    requires HubInv(h) && AtTheBlock(h, e, r, b)
    ensures Can(h, In(e, BeginDecide(r)))
    ensures var begun := Next(h, In(e, BeginDecide(r)));
      && Can(begun, In(e, DecideNext(r)))
      && var decided := Next(begun, In(e, DecideNext(r)));
      && HubInv(decided) && LostAt(decided, e, b) && InBlock(decided.entries[e], r)
  {
    Begins(h, e, r, b);
    hide HubInv, Next, Can, Room, AwaitsRestart, AtTheBlock, TurnOf, LostAt;
    var begun := Next(h, In(e, BeginDecide(r)));
    NextTurn(begun, e, r);
    StepKeepsInv(h, In(e, BeginDecide(r)));
    TurnWithoutRoom(begun, e, r, b);
    StepKeepsInv(begun, In(e, DecideNext(r)));
    assert LostAt(Next(begun, In(e, DecideNext(r))), e, b);
  }

  lemma {:induction false} NoRoomThen(h: Hub, e: EntryId, r: RequestId, b: Backend, enabled: seq<InstanceId>) returns (steps: seq<Step>)
    requires HubInv(h) && ReadyToMiss(h, e, r, b) && b.incarnation !in h.env.closed
    requires enabled != [] && enabled[0] == b.instanceId && Tight(h.env, h.entries[e], enabled)
    ensures IsRun(h, steps)
    ensures HandedOut(After(h, steps), e, r, b, false)
    ensures LostAt(After(h, steps), e, b)
  {
    hide HubInv, IsRun, After, Next, Can, HandedOut, LostAt, Fresh, EpochOk, Outdated, Tight, IsWalk, Walk, ToListed, InBlock, AtTheBlock;
    var listed := h.(entries := h.entries[e := AtListed(h.env, h.entries[e], r, enabled)]);
    ReachesListed(h.env, h.entries[e], r, enabled);
    WalkInHub(h, e, ToListed(r, enabled));
    RunKeepsInv(h, AllIn(e, ToListed(r, enabled)));
    ListedIsReady(h, e, r, b, enabled);
    FirstTurnLoses(listed, e, r, b);
    var begun := Next(listed, In(e, BeginDecide(r)));
    var decided := Next(begun, In(e, DecideNext(r)));
    var rest := BlockRunsOut(decided, e, r, b);
    RunCons(begun, In(e, DecideNext(r)), rest);
    RunCons(listed, In(e, BeginDecide(r)), [In(e, DecideNext(r))] + rest);
    steps := AllIn(e, ToListed(r, enabled)) + ([In(e, BeginDecide(r))] + ([In(e, DecideNext(r))] + rest));
    RunConcat(h, AllIn(e, ToListed(r, enabled)), [In(e, BeginDecide(r))] + ([In(e, DecideNext(r))] + rest));
  }

  lemma ListedIsReady(h: Hub, e: EntryId, r: RequestId, b: Backend, enabled: seq<InstanceId>)
    requires ReadyToMiss(h, e, r, b) && b.incarnation !in h.env.closed
    requires enabled != [] && enabled[0] == b.instanceId && Tight(h.env, h.entries[e], enabled)
    ensures AtTheBlock(h.(entries := h.entries[e := AtListed(h.env, h.entries[e], r, enabled)]), e, r, b)
  {
    hide Fresh, RetainFrees, Retain;
  }

  /** When there is no room, the request returns in order, is handed the outdated backend, and the
      restart is lost. */
  lemma RestartLostWithoutRoom(h: Hub, user: UserId, b: Backend, enabled: seq<InstanceId>)
    requires Reachable(h) && user in h.users && Live(h, h.users[user])
    requires h.entries[h.users[user]].binder.None? && b in h.entries[h.users[user]].ledger.backends
    requires b.incarnation !in h.env.closed && enabled != [] && enabled[0] == b.instanceId
    requires Tight(h.env, h.entries[h.users[user]], enabled)
    ensures
      var e := h.users[user];
      var bumped := Next(h, BumpReload(b.instanceId));
      exists rest ::
        && IsRun(bumped, [Arrive(user)] + rest)
        && HandedOut(After(bumped, [Arrive(user)] + rest), e, h.entries[e].nextRequest, b, false)
        && LostAt(After(bumped, [Arrive(user)] + rest), e, b)
  {
    hide Fresh, IsRun, After, Reachable, HandedOut, Next, Can, ArrivedAfterBump, ReadyToMiss, LostAt, HubInv, Tight;
    var e := h.users[user];
    var r := h.entries[e].nextRequest;
    var arrived := ArrivedAfterBump(h, b.instanceId, user);
    ReadyAfterBump(h, user, b);
    OpenAfterBump(h, b.instanceId, user);
    ArrivedIsSound(h, b.instanceId, user);
    StillTight(h, b.instanceId, user, enabled);
    var rest := NoRoomThen(arrived, e, r, b, enabled);
    FromTheBump(h, b.instanceId, user, rest);
  }

  lemma ArrivedIsSound(h: Hub, id: InstanceId, user: UserId)
    requires Reachable(h) && user in h.users && Live(h, h.users[user])
    ensures HubInv(ArrivedAfterBump(h, id, user))
  {
    hide HubInv, Reachable, Next, Can, ArrivedAfterBump;
    ReachableHubInv(h);
    ArrivesAfterBump(h, id, user);
    StepKeepsInv(h, BumpReload(id));
    StepKeepsInv(Next(h, BumpReload(id)), Arrive(user));
  }

  lemma StillTight(h: Hub, id: InstanceId, user: UserId, enabled: seq<InstanceId>)
    requires user in h.users && Live(h, h.users[user]) && Tight(h.env, h.entries[h.users[user]], enabled)
    ensures var arrived := ArrivedAfterBump(h, id, user); Tight(arrived.env, arrived.entries[h.users[user]], enabled)
  {
    hide Retain, RetainFrees;
  }
}
