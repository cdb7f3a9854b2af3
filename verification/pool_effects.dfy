/** What the steps of the pool achieve, as against what they keep: a backend that is down is claimed
    again, a failed sandbox backs off, a request puts the reaper off, a dirty pool is reconciled
    before it answers again, and whoever was answered in order left an initialized pool behind. */
module PoolEffects {
  import opened Wrappers
  import opened PoolLedger
  import opened PoolHeartbeat
  import opened PoolEntry
  import opened PoolShape
  import opened PoolRestart
  import opened PoolLate
  import opened PoolHub
  import opened PoolRuns
  import opened PoolLost

  // ------------------------------------------------------------------------------------
  // Spawning
  // ------------------------------------------------------------------------------------

  lemma TurnIsDecideOne(env: Env, en: Entry, r: RequestId)
    requires InTurn(en, r)
    ensures var o := DoDecideNext(env, en, r);
      var d := DecideOne(DecisionOf(env, en, r), TurnOf(en, r), ViewOf(env), env.limits.perUser, Pinned(en));
      && o.entry.ledger == d.ledger && o.free == d.free
      && r in o.entry.requests && o.entry.requests[r].stage.Deciding? && o.entry.requests[r].stage.toSpawn == d.toSpawn
  {
    hide DecideOne, Judge, Pinned, PastOfTurn;
  }

  lemma ClaimingTurn(env: Env, en: Entry, r: RequestId)
    requires InTurn(en, r) && UniqueIds(en.ledger.backends) && NeedsSpawn(en.ledger, ViewOf(env), TurnOf(en, r))
    ensures VerdictOf(env, en, r).Claim? <==> Room(env, en, r)
  {
    NeedyIsUnsettled(en.ledger, ViewOf(env), TurnOf(en, r));
    hide Settled, NeedsSpawn;
  }

  /** A down instance is respawned: in every reachable state, a turn of the block on an instance that
      needs a spawn - never tried at its epoch, or without an open backend and past its backoff -
      claims it exactly if there is room. Then its spawn task starts and no old backend stays. */
  lemma DownIsRespawned(h: Hub, e: EntryId, r: RequestId)
    requires Reachable(h) && Can(h, In(e, DecideNext(r)))
    requires NeedsSpawn(h.entries[e].ledger, ViewOf(h.env), TurnOf(h.entries[e], r))
    ensures var en, id := h.entries[e], TurnOf(h.entries[e], r);
      var en' := Next(h, In(e, DecideNext(r))).entries[e];
      && (id in en'.ledger.connecting <==> Room(h.env, en, r))
      && en'.ledger.lastAttempt == en.ledger.lastAttempt[id := h.env.now]
      && if Room(h.env, en, r) then
           && en'.tasks == en.tasks[h.env.nextIncarnation := Task(id, r, Spawning)]
           && en'.requests[r].stage.toSpawn == en.requests[r].stage.toSpawn + [id]
           && forall b :: b in en'.ledger.backends <==> b in en.ledger.backends && b.instanceId != id
         else
           && en'.tasks == en.tasks && en'.ledger.backends == en.ledger.backends
           && en'.requests[r].stage.toSpawn == en.requests[r].stage.toSpawn
  {
    var en := h.entries[e];
    ReachableHubInv(h);
    EpochsOf(h, e);
    TurnEffect(h.env, en, r);
    TurnIsDecideOne(h.env, en, r);
    ClaimingTurn(h.env, en, r);
    TurnOutcome(DecisionOf(h.env, en, r), TurnOf(en, r), ViewOf(h.env), h.env.limits.perUser, Pinned(en));
    hide HubInv, Reachable, DoDecideNext, DecideOne, VerdictOf, TurnOf, TasksOk, BornOk, RequestsOk, EpochsOk, Pinned;
  }

  // ------------------------------------------------------------------------------------
  // The sandbox
  // ------------------------------------------------------------------------------------

  /** Connecting, or pooled with its transport open. */
  predicate Up(l: Ledger, closed: set<Incarnation>, id: InstanceId) {
    id in l.connecting || Healthy(l, closed, id)
  }

  /** A failed sandbox leaves the pool as it is, and is retried at the pace of the backoff: with
      nothing disabled tracked, and until an epoch moves, requests are answered by the fast path for
      exactly as long as every listed instance is up or the backoff has not run out. */
  lemma SandboxBacksOff(l: Ledger, enabled: seq<InstanceId>, v: View, later: View)
    requires (forall id :: id in l.appliedEpochs ==> id in enabled) && later.epochs == v.epochs
    ensures var after := SandboxStamp(l, enabled, v);
      && after.backends == l.backends && after.connecting == l.connecting
      && after.heartbeatFailures == l.heartbeatFailures && after.lastUsed == l.lastUsed
      && (Fresh(after, later) <==>
            later.now < v.now + RESPAWN_BACKOFF || forall id :: id in enabled ==> Up(after, later.closed, id))
  {
    StampAllEffect(l.(dirty := false, initialized := true), enabled, v);
    hide StampAll, Healthy;
  }

  // ------------------------------------------------------------------------------------
  // The reaper
  // ------------------------------------------------------------------------------------

  lemma LocalTouches(env: Env, en: Entry, s: EntryStep)
    requires Enabled(en, s) && Local(s)
    ensures DoLocal(env, en, s).ledger.lastUsed == if s.FastPath? then env.now else en.ledger.lastUsed
  {
    if s.SandboxFails? {
      SandboxSameUse(env, en, s.request);
      hide DoSandboxFails;
    } else if s.BeginPass? || s.FinishPass? {
      PassSameUse(env, en, s);
      hide DoLocal, Enabled;
    } else {
      hide DoSandboxFails, Fresh, DoBeginPass, DoFinishPass;
    }
  }

  lemma SandboxSameUse(env: Env, en: Entry, r: RequestId)
    requires r in en.requests && en.requests[r].stage.Listed?
    ensures DoSandboxFails(env, en, r).ledger.lastUsed == en.ledger.lastUsed
  {
    StampAllEffect(en.ledger.(dirty := false, initialized := true), en.requests[r].stage.enabled, ViewOf(env));
    hide StampAll;
  }

  lemma PassSameUse(env: Env, en: Entry, s: EntryStep)
    requires Enabled(en, s) && (s.BeginPass? || s.FinishPass?)
    ensures DoLocal(env, en, s).ledger.lastUsed == en.ledger.lastUsed
    ensures DoLocal(env, en, s).ledger.initialized == en.ledger.initialized
    ensures DoLocal(env, en, s).ledger.dirty == en.ledger.dirty
  {
    if s.FinishPass? {
      PassRemovesOnlyItsOwn(en.ledger, en.borrows[ByPass(s.pass)], s.passed);
    }
    hide BeatAll, BeatLog, Incarnations;
  }

  /** Only an arrival at the fast path slides the time of last use. */
  lemma StepTouches(env: Env, en: Entry, s: EntryStep)
    requires Enabled(en, s)
    ensures Do(env, en, s).entry.ledger.lastUsed == if s.FastPath? then env.now else en.ledger.lastUsed
  {
    if Local(s) {
      LocalTouches(env, en, s);
      hide DoLocal, Enabled;
    } else if s.DecideNext? {
      TurnEffect(env, en, s.request);
      hide DoDecideNext, VerdictOf, WithoutFirst, DoLocal;
    } else if s.Land? {
      LandEffect(env, en, s.incarnation);
      hide DoLand, DoLocal;
    } else {
      hide DoLand, DoDecideNext, DoLocal, Held, KeepArcs, Pinned, RetainFrees;
    }
  }

  predicate UsedSince(h: Hub, e: EntryId, since: Instant) {
    e < |h.entries| && h.entries[e].ledger.lastUsed >= since && h.env.now >= since
  }

  lemma StepKeepsUse(h: Hub, s: Step, e: EntryId, since: Instant)
    requires UsedSince(h, e, since) && Can(h, s)
    ensures UsedSince(Next(h, s), e, since)
  {
    EntryAfterStep(h, s, e);
    ClockAdvances(h, s);
    var on := StepOn(h, s, e);
    hide Next, Can, Do, Enabled;
    if on.Some? {
      StepTouches(h.env, h.entries[e], on.value);
    }
  }

  lemma {:induction false} RunKeepsUse(h: Hub, steps: seq<Step>, e: EntryId, since: Instant)
    requires UsedSince(h, e, since) && IsRun(h, steps)
    ensures UsedSince(After(h, steps), e, since)
    decreases steps
  {
    hide UsedSince, Can, Next;
    if steps != [] {
      StepKeepsUse(h, steps[0], e, since);
      RunKeepsUse(Next(h, steps[0]), steps[1..], e, since);
    }
  }

  lemma ArrivalIsUse(h: Hub, e: EntryId, r: RequestId)
    requires Can(h, In(e, EntryStep.FastPath(r)))
    ensures UsedSince(Next(h, In(e, EntryStep.FastPath(r))), e, h.env.now)
  {
    StepTouches(h.env, h.entries[e], EntryStep.FastPath(r));
    ClockAdvances(h, In(e, EntryStep.FastPath(r)));
    hide DoLocal, Enabled;
  }

  /** A request puts the reaper off: whatever happens after its arrival at the fast path, its user's
      entry is not reaped before the idle time has passed since. A reaped user starts from scratch. */
  lemma RequestDefersReaping(h: Hub, e: EntryId, r: RequestId, between: seq<Step>, user: UserId, idle: nat)
    requires Can(h, In(e, EntryStep.FastPath(r))) && IsRun(Next(h, In(e, EntryStep.FastPath(r))), between)
    requires var reaping := After(Next(h, In(e, EntryStep.FastPath(r))), between);
      Can(reaping, Reap(user, idle)) && reaping.users[user] == e
    ensures var reaping := After(Next(h, In(e, EntryStep.FastPath(r))), between);
      && reaping.env.now >= h.env.now + idle
      && EntryOrNew(Next(reaping, Reap(user, idle)), EntryFor(Next(reaping, Reap(user, idle)), user)) == NewEntry(reaping.env.now)
  {
    ArrivalIsUse(h, e, r);
    RunKeepsUse(Next(h, In(e, EntryStep.FastPath(r))), between, e, h.env.now);
    hide IsRun, After;
  }

  predicate UsedLast(h: Hub, e: EntryId, at: Instant) {
    e < |h.entries| && h.entries[e].ledger.lastUsed == at
  }

  predicate ArrivesAt(s: Step, e: EntryId) {
    s.In? && s.entry == e && s.step.FastPath?
  }

  lemma StepKeepsLastUse(h: Hub, s: Step, e: EntryId, at: Instant)
    requires UsedLast(h, e, at) && Can(h, s) && !ArrivesAt(s, e)
    ensures UsedLast(Next(h, s), e, at)
  {
    EntryAfterStep(h, s, e);
    var on := StepOn(h, s, e);
    hide Next, Can, Do, Enabled;
    if on.Some? {
      StepTouches(h.env, h.entries[e], on.value);
    }
  }

  lemma {:induction false} RunKeepsLastUse(h: Hub, steps: seq<Step>, e: EntryId, at: Instant)
    requires UsedLast(h, e, at) && IsRun(h, steps) && forall s :: s in steps ==> !ArrivesAt(s, e)
    ensures UsedLast(After(h, steps), e, at)
    decreases steps
  {
    hide UsedLast, Can, Next;
    if steps != [] {
      assert steps[0] in steps && forall s :: s in steps[1..] ==> s in steps;
      StepKeepsLastUse(h, steps[0], e, at);
      RunKeepsLastUse(Next(h, steps[0]), steps[1..], e, at);
    }
  }

  /** And nothing else does: once no request has come by for the idle time, the entry is reaped
      unless its lock is held just then. */
  lemma IdleIsReaped(h: Hub, e: EntryId, r: RequestId, between: seq<Step>, user: UserId, idle: nat)
    requires Reachable(h) && Can(h, In(e, EntryStep.FastPath(r)))
    requires IsRun(Next(h, In(e, EntryStep.FastPath(r))), between) && forall s :: s in between ==> !ArrivesAt(s, e)
    requires var end := After(Next(h, In(e, EntryStep.FastPath(r))), between); user in end.users && end.users[user] == e
    ensures var end := After(Next(h, In(e, EntryStep.FastPath(r))), between);
      && e < |end.entries|
      && (Can(end, Reap(user, idle)) <==> !Locked(end.entries[e]) && end.env.now >= h.env.now + idle)
  {
    hide IsRun, After, Reachable, HubInv, Next, Can, UsedLast;
    var begun := Next(h, In(e, EntryStep.FastPath(r)));
    ReachableHubInv(h);
    StepKeepsInv(h, In(e, EntryStep.FastPath(r)));
    RunKeepsInv(begun, between);
    ArrivalIsLastUse(h, e, r);
    RunKeepsLastUse(begun, between, e, h.env.now);
    ReapableIff(After(begun, between), e, user, idle, h.env.now);
  }

  lemma ArrivalIsLastUse(h: Hub, e: EntryId, r: RequestId)
    requires Can(h, In(e, EntryStep.FastPath(r)))
    ensures UsedLast(Next(h, In(e, EntryStep.FastPath(r))), e, h.env.now)
  {
    StepTouches(h.env, h.entries[e], EntryStep.FastPath(r));
    hide DoLocal, Enabled;
  }

  lemma ReapableIff(h: Hub, e: EntryId, user: UserId, idle: nat, at: Instant)
    requires HubInv(h) && UsedLast(h, e, at) && user in h.users && h.users[user] == e
    ensures Can(h, Reap(user, idle)) <==> !Locked(h.entries[e]) && h.env.now >= at + idle
    ensures e < |h.entries|
  {
    hide EntryInv, Enabled;
  }

  // ------------------------------------------------------------------------------------
  // Answers without a reconcile
  // ------------------------------------------------------------------------------------

  /** At its epoch, and on its way, up, or within its backoff. */
  predicate Quiet(l: Ledger, v: View, id: InstanceId) {
    && id in l.appliedEpochs && l.appliedEpochs[id] == ReloadEpoch(v.epochs, id)
    && (|| id in l.connecting
        || (exists b :: b in l.backends && b.instanceId == id && b.incarnation !in v.closed)
        || (id in l.lastAttempt && v.now < l.lastAttempt[id] + RESPAWN_BACKOFF))
  }

  ghost predicate AllQuiet(l: Ledger, v: View) {
    l.initialized && !l.dirty && forall id :: id in l.appliedEpochs ==> Quiet(l, v, id)
  }

  lemma QuietIsFresh(l: Ledger, v: View)
    ensures Fresh(l, v) <==> AllQuiet(l, v)
  {
  }

  /** A request is answered at once, with the pool as it stands, exactly if the pool is initialized
      and clean and all is quiet; otherwise it queues for the bind lock, and having got it, looks once
      more: if all is quiet by then it is answered and gives the lock back, and if not it goes on to
      reconcile. Nothing else changes but the time of last use. */
  lemma QuietIsServed(env: Env, en: Entry, s: EntryStep)
    requires Enabled(en, s) && (s.FastPath? || s.Recheck?)
    ensures var en', r, quiet := Do(env, en, s).entry, s.request, AllQuiet(en.ledger, ViewOf(env));
      && en'.ledger == en.ledger.(lastUsed := if s.FastPath? then env.now else en.ledger.lastUsed)
      && en'.tasks == en.tasks && en'.late == en.late
      && if quiet then
           && r in en'.past.served && en'.past.served[r].snapshot == en.ledger.backends
           && en'.requests == en.requests - {r} && en'.binder == (if s.Recheck? then None else en.binder)
           && en'.borrows == en.borrows[ByRequest(r) := en.ledger.backends]
         else
           && en'.requests == en.requests[r := en.requests[r].(stage := if s.FastPath? then Queued else Listing)]
           && en'.binder == en.binder && en'.borrows == en.borrows && en'.past == en.past
  {
    QuietIsFresh(en.ledger, ViewOf(env));
    QuietIsFresh(en.ledger.(lastUsed := env.now), ViewOf(env));
    TouchedIsQuiet(en.ledger, ViewOf(env), env.now);
    hide Fresh, AllQuiet;
  }

  lemma TouchedIsQuiet(l: Ledger, v: View, now: Instant)
    ensures AllQuiet(l.(lastUsed := now), v) <==> AllQuiet(l, v)
  {
  }

  // ------------------------------------------------------------------------------------
  // Dirty pools
  // ------------------------------------------------------------------------------------

  /** A reconcile has come to decide, or has given up on the sandbox. */
  predicate Reconciles(s: EntryStep) {
    s.BeginDecide? || s.SandboxFails?
  }

  predicate BeforeBlock(s: Stage) {
    s.Entered? || s.Queued? || s.Bound? || s.Listing? || s.Listed?
  }

  /** Marked dirty when `first` was the next request, and not reconciled since: no request from then
      on has got past the instance list, other than by its failing. */
  ghost predicate DirtySince(en: Entry, first: RequestId) {
    && en.ledger.dirty && first <= en.nextRequest
    && (forall r :: r in en.requests && r >= first ==>
          BeforeBlock(en.requests[r].stage) || (en.requests[r].stage.Reconciled? && en.requests[r].early))
    && (forall r :: r in en.past.served && r >= first ==> en.past.served[r].early)
  }

  lemma DirtyIsNotFresh(env: Env, en: Entry, s: EntryStep)
    requires en.ledger.dirty && Enabled(en, s) && (s.FastPath? || s.Recheck?)
    ensures var en' := DoLocal(env, en, s);
      en' == if s.FastPath? then WithStage(en.(ledger := en.ledger.(lastUsed := env.now)), s.request, Queued)
             else WithStage(en, s.request, Listing)
  {
  }

  lemma LocalKeepsDirty(env: Env, en: Entry, s: EntryStep, first: RequestId)
    requires DirtySince(en, first) && Enabled(en, s) && Local(s) && !Reconciles(s)
    ensures DirtySince(DoLocal(env, en, s), first)
  {
    if s.FastPath? || s.Recheck? {
      DirtyIsNotFresh(env, en, s);
      hide DoLocal;
    } else if s.BeginPass? || s.FinishPass? {
      PassEffect(env, en, s);
      PassSameUse(env, en, s);
      hide DoLocal, Enabled;
    } else {
      hide DoFastPath, DoRecheck, DoSandboxFails, DoBeginPass, DoFinishPass;
    }
  }

  lemma OthersKeepDirty(env: Env, en: Entry, s: EntryStep, first: RequestId)
    requires DirtySince(en, first) && Enabled(en, s) && !Local(s) && !Reconciles(s)
    ensures DirtySince(Do(env, en, s).entry, first)
  {
    if s.DecideNext? {
      TurnEffect(env, en, s.request);
      TurnStage(env, en, s.request);
      OthersSameServedAtTurn(env, en, s.request);
      hide DoDecideNext, VerdictOf, WithoutFirst, DoLocal;
    } else if s.Land? {
      LandKeepsDirty(env, en, s.incarnation, first);
      hide DoLand, DoLocal;
    } else {
      hide DoLand, DoDecideNext, DoBeginDecide, DoLocal, Held, KeepArcs;
    }
  }

  lemma LandKeepsDirty(env: Env, en: Entry, i: Incarnation, first: RequestId)
    requires DirtySince(en, first) && CanLand(en, i)
    ensures DirtySince(DoLand(env, en, i).entry, first)
  {
  }

  lemma LocalFlags(env: Env, en: Entry, s: EntryStep)
    requires Enabled(en, s) && Local(s)
    ensures var l, l' := en.ledger, DoLocal(env, en, s).ledger;
      && (l'.dirty <==> s.MarkDirty? || (l.dirty && !s.SandboxFails?))
      && (l'.initialized <==> l.initialized || s.MarkInitialized? || s.SandboxFails?)
  {
    if s.SandboxFails? {
      SandboxInitializes(env, en, s.request);
      hide DoSandboxFails;
    } else if s.BeginPass? || s.FinishPass? {
      PassSameUse(env, en, s);
      hide DoLocal, Enabled;
    } else {
      hide DoSandboxFails, Fresh, DoBeginPass, DoFinishPass;
    }
  }

  lemma OthersFlags(env: Env, en: Entry, s: EntryStep)
    requires Enabled(en, s) && !Local(s)
    ensures var l, l' := en.ledger, Do(env, en, s).entry.ledger;
      && (l'.dirty <==> l.dirty && !s.BeginDecide?)
      && l'.initialized == l.initialized
  {
    if s.DecideNext? {
      TurnEffect(env, en, s.request);
      hide DoDecideNext, VerdictOf, WithoutFirst, DoLocal;
    } else if s.Land? {
      LandPast(env, en, s.incarnation);
      hide DoLand, DoLocal;
    } else {
      hide DoLand, DoDecideNext, DoLocal, Held, KeepArcs, Pinned, RetainFrees;
    }
  }

  /** A pool becomes dirty by being marked and in no other way, and clean by a reconcile that comes to
      decide or gives up on the sandbox; it becomes initialized when a reconcile is through with
      waiting or has given up on the sandbox, and stays so. */
  lemma StepFlags(env: Env, en: Entry, s: EntryStep)
    requires Enabled(en, s)
    ensures var l, l' := en.ledger, Do(env, en, s).entry.ledger;
      && (l'.dirty <==> s.MarkDirty? || (l.dirty && !Reconciles(s)))
      && (l'.initialized <==> l.initialized || s.MarkInitialized? || s.SandboxFails?)
  {
    hide DoLocal, Enabled, Do;
    if Local(s) {
      LocalFlags(env, en, s);
      LocalIsDo(env, en, s);
    } else {
      OthersFlags(env, en, s);
    }
  }

  predicate ReconcilesAt(s: Step, e: EntryId) {
    s.In? && s.entry == e && Reconciles(s.step)
  }

  predicate NeverReconciles(steps: seq<Step>, e: EntryId) {
    forall s :: s in steps ==> !ReconcilesAt(s, e)
  }

  lemma StepKeepsDirty(h: Hub, s: Step, e: EntryId, first: RequestId)
    requires e < |h.entries| && DirtySince(h.entries[e], first) && Can(h, s) && !ReconcilesAt(s, e)
    ensures e < |Next(h, s).entries| && DirtySince(Next(h, s).entries[e], first)
  {
    EntryAfterStep(h, s, e);
    var on := StepOn(h, s, e);
    hide Next, Can, Do, Enabled, DirtySince;
    if on.Some? {
      if Local(on.value) {
        LocalKeepsDirty(h.env, h.entries[e], on.value, first);
        LocalIsDo(h.env, h.entries[e], on.value);
      } else {
        OthersKeepDirty(h.env, h.entries[e], on.value, first);
      }
    }
  }

  lemma LocalIsDo(env: Env, en: Entry, s: EntryStep)
    requires Enabled(en, s) && Local(s)
    ensures Do(env, en, s).entry == DoLocal(env, en, s)
  {
  }

  lemma {:induction false} RunKeepsDirty(h: Hub, steps: seq<Step>, e: EntryId, first: RequestId)
    requires e < |h.entries| && DirtySince(h.entries[e], first) && IsRun(h, steps) && NeverReconciles(steps, e)
    ensures e < |After(h, steps).entries| && DirtySince(After(h, steps).entries[e], first)
    decreases steps
  {
    hide DirtySince, Can, Next;
    if steps != [] {
      assert steps[0] in steps && forall s :: s in steps[1..] ==> s in steps;
      StepKeepsDirty(h, steps[0], e, first);
      RunKeepsDirty(Next(h, steps[0]), steps[1..], e, first);
    }
  }

  lemma MarkingIsDirty(env: Env, en: Entry)
    requires RequestsOk(en) && Enabled(en, MarkDirty)
    ensures DirtySince(DoLocal(env, en, MarkDirty), en.nextRequest)
  {
  }

  /** After `mark_dirty` no later request is answered in order until a reconcile has come to decide
      or has given up on the sandbox: it may only return early, its instance list having failed. */
  lemma DirtyIsReconciled(h: Hub, e: EntryId, between: seq<Step>, r: RequestId)
    requires Reachable(h) && Can(h, In(e, MarkDirty)) && r >= h.entries[e].nextRequest
    requires IsRun(Next(h, In(e, MarkDirty)), between) && NeverReconciles(between, e)
    ensures var end := After(Next(h, In(e, MarkDirty)), between);
      e < |end.entries| && (r in end.entries[e].past.served ==> end.entries[e].past.served[r].early)
  {
    ReachableHubInv(h);
    ShapeOf(h, e);
    MarkingIsDirty(h.env, h.entries[e]);
    LocalIsDo(h.env, h.entries[e], MarkDirty);
    hide IsRun, After, Reachable, HubInv, Shape, DirtySince, Do, DoLocal;
    RunKeepsDirty(Next(h, In(e, MarkDirty)), between, e, h.entries[e].nextRequest);
  }

  // ------------------------------------------------------------------------------------
  // First binds
  // ------------------------------------------------------------------------------------

  ghost predicate InitializedOnReturn(en: Entry) {
    && (forall r :: r in en.past.served && !en.past.served[r].early ==> en.ledger.initialized)
    && (forall r :: r in en.requests && en.requests[r].stage.Reconciled? && !en.requests[r].early ==> en.ledger.initialized)
  }

  lemma LocalKeepsInitialized(env: Env, en: Entry, s: EntryStep)
    requires InitializedOnReturn(en) && Enabled(en, s) && Local(s)
    ensures InitializedOnReturn(DoLocal(env, en, s))
    ensures en.ledger.initialized ==> DoLocal(env, en, s).ledger.initialized
  {
    if s.SandboxFails? {
      SandboxInitializes(env, en, s.request);
      hide DoSandboxFails;
    } else if s.BeginPass? || s.FinishPass? {
      PassEffect(env, en, s);
      PassSameUse(env, en, s);
      hide DoLocal, Enabled;
    } else {
      hide DoSandboxFails, DoBeginPass, DoFinishPass;
      if Gives(s) {
        GivesKeepInitialized(env, en, s);
        hide DoLocal, Enabled;
      } else {
        hide DoFastPath, DoRecheck, Give;
      }
    }
  }

  lemma GivesKeepInitialized(env: Env, en: Entry, s: EntryStep)
    requires InitializedOnReturn(en) && Enabled(en, s) && Gives(s)
    ensures InitializedOnReturn(DoLocal(env, en, s))
    ensures DoLocal(env, en, s).ledger.initialized == en.ledger.initialized
  {
    FreshIsInitialized(en.ledger, ViewOf(env));
    FreshIsInitialized(en.ledger.(lastUsed := env.now), ViewOf(env));
    hide Fresh;
  }

  lemma FreshIsInitialized(l: Ledger, v: View)
    ensures Fresh(l, v) ==> l.initialized
  {
  }

  lemma SandboxInitializes(env: Env, en: Entry, r: RequestId)
    requires r in en.requests && en.requests[r].stage.Listed?
    ensures DoSandboxFails(env, en, r).ledger.initialized && !DoSandboxFails(env, en, r).ledger.dirty
  {
    StampAllEffect(en.ledger.(dirty := false, initialized := true), en.requests[r].stage.enabled, ViewOf(env));
    hide StampAll;
  }

  /** Nobody has come to return, and nobody has returned. */
  ghost predicate SameReturns(en: Entry, en': Entry) {
    && en'.ledger.initialized == en.ledger.initialized && en'.past.served == en.past.served
    && forall r :: r in en'.requests && en'.requests[r].stage.Reconciled? ==>
         r in en.requests && en.requests[r] == en'.requests[r]
  }

  lemma OthersReturnTheSame(env: Env, en: Entry, s: EntryStep)
    requires Enabled(en, s) && !Local(s)
    ensures SameReturns(en, Do(env, en, s).entry)
  {
    if s.DecideNext? {
      TurnReturnsTheSame(env, en, s.request);
      hide DoDecideNext, DoLocal, SameReturns;
    } else if s.Land? {
      LandReturnsTheSame(env, en, s.incarnation);
      hide DoLand, DoLocal, SameReturns;
    } else if s.BeginDecide? {
      BlockReturnsTheSame(env, en, s.request);
      hide DoBeginDecide, DoLocal, SameReturns;
    } else {
      DropsReturnTheSame(env, en, s);
      hide Do, Enabled, SameReturns;
    }
  }

  lemma DropsReturnTheSame(env: Env, en: Entry, s: EntryStep)
    requires Enabled(en, s) && (s.SpawnFails? || s.Release? || s.FreePool?)
    ensures SameReturns(en, Do(env, en, s).entry)
  {
    hide DoLand, DoDecideNext, DoBeginDecide, DoLocal, Held, KeepArcs, CanLand, CanFinish, At;
  }

  lemma TurnReturnsTheSame(env: Env, en: Entry, r: RequestId)
    requires InTurn(en, r)
    ensures SameReturns(en, DoDecideNext(env, en, r).entry)
  {
    TurnEffect(env, en, r);
    TurnStage(env, en, r);
    OthersSameServedAtTurn(env, en, r);
    hide DoDecideNext, VerdictOf, WithoutFirst;
  }

  lemma BlockReturnsTheSame(env: Env, en: Entry, r: RequestId)
    requires r in en.requests && en.requests[r].stage.Listed?
    ensures SameReturns(en, DoBeginDecide(env, en, r).entry)
  {
    hide Pinned, RetainFrees, Retain;
  }

  lemma LandReturnsTheSame(env: Env, en: Entry, i: Incarnation)
    requires CanLand(en, i)
    ensures SameReturns(en, DoLand(env, en, i).entry)
  {
    UnclaimReturnsTheSame(en, i);
    LandingOnlyAnnounces(env, en, i);
    hide DoLand, Unclaim;
  }

  lemma UnclaimReturnsTheSame(en: Entry, i: Incarnation)
    requires CanLand(en, i)
    ensures SameReturns(en, Unclaim(en, i))
  {
  }

  lemma LandingOnlyAnnounces(env: Env, en: Entry, i: Incarnation)
    requires CanLand(en, i)
    ensures var en' := DoLand(env, en, i).entry;
      var unclaimed := Unclaim(en, i);
      && en'.ledger == unclaimed.ledger && en'.requests == unclaimed.requests
      && en'.past.served == unclaimed.past.served
  {
    hide Unclaim;
  }

  lemma SameReturnsKeepInitialized(en: Entry, en': Entry)
    requires InitializedOnReturn(en) && SameReturns(en, en')
    ensures InitializedOnReturn(en')
  {
  }

  ghost predicate AllInitialized(h: Hub) {
    forall e :: 0 <= e < |h.entries| ==> InitializedOnReturn(h.entries[e])
  }

  lemma EntryKeepsInitialized(env: Env, en: Entry, s: EntryStep)
    requires InitializedOnReturn(en) && Enabled(en, s)
    ensures InitializedOnReturn(Do(env, en, s).entry)
  {
    hide Do, Enabled, InitializedOnReturn;
    if Local(s) {
      LocalKeepsInitialized(env, en, s);
      LocalIsDo(env, en, s);
    } else {
      OthersReturnTheSame(env, en, s);
      SameReturnsKeepInitialized(en, Do(env, en, s).entry);
    }
  }

  lemma StepKeepsInitialized(h: Hub, s: Step)
    requires AllInitialized(h) && Can(h, s)
    ensures AllInitialized(Next(h, s))
  {
    forall e | 0 <= e < |Next(h, s).entries|
      ensures InitializedOnReturn(Next(h, s).entries[e])
    {
      if e < |h.entries| {
        EntryAfterStep(h, s, e);
        hide Next, Can, Do, Enabled, InitializedOnReturn;
        var on := StepOn(h, s, e);
        if on.Some? {
          EntryKeepsInitialized(h.env, h.entries[e], on.value);
        }
      } else {
        NewcomersAreFresh(h, s);
        hide Next, Can, Do, Enabled;
      }
    }
  }

  lemma NewcomersAreFresh(h: Hub, s: Step)
    requires Can(h, s)
    ensures forall e :: |h.entries| <= e < |Next(h, s).entries| ==>
              Next(h, s).entries[e] == DoEnter(h.env, NewEntry(h.env.now))
  {
    hide Do, Enabled, DoEnter;
  }

  lemma {:induction false} RunKeepsInitialized(h: Hub, steps: seq<Step>)
    requires AllInitialized(h) && IsRun(h, steps)
    ensures AllInitialized(After(h, steps))
    decreases steps
  {
    hide AllInitialized, Can, Next;
    if steps != [] {
      StepKeepsInitialized(h, steps[0]);
      RunKeepsInitialized(Next(h, steps[0]), steps[1..]);
    }
  }

  /** In every reachable state, an entry that ever answered a request in order is initialized. */
  lemma AnsweredIsInitialized(h: Hub, e: EntryId, r: RequestId)
    requires Reachable(h) && e < |h.entries|
    ensures var en := h.entries[e]; r in en.past.served && !en.past.served[r].early ==> en.ledger.initialized
  {
    hide Can, Next, IsRun, After;
    var limits, now, steps :| IsRun(Start(limits, now), steps) && h == After(Start(limits, now), steps);
    RunKeepsInitialized(Start(limits, now), steps);
  }
}
