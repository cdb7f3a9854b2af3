/** Lost restarts. A pooled backend whose restart was recorded without being carried out looks
    current to every later scan and every later turn of the block: it is kept and handed out until
    another bump, the end of its transport, a heartbeat drop, a disable or the end of the pool. */
module PoolLost {
  import opened Wrappers
  import opened PoolLedger
  import opened PoolHeartbeat
  import opened PoolEntry
  import opened PoolShape
  import opened PoolRestart
  import opened PoolHub
  import opened PoolRuns

  /** Pooled, tracked at the instance's current epoch, and its transport open. */
  predicate Passing(env: Env, en: Entry, b: Backend) {
    && b in en.ledger.backends && b.incarnation !in env.closed
    && EpochOk(en.ledger, ViewOf(env), b.instanceId)
  }

  /** Claimed before the last bump of its instance. */
  predicate Outdated(env: Env, en: Entry, b: Backend) {
    b.incarnation in en.past.born && en.past.born[b.incarnation].epoch < ReloadEpoch(env.epochs, b.instanceId)
  }

  predicate Lost(env: Env, en: Entry, b: Backend) {
    Passing(env, en, b) && Outdated(env, en, b)
  }

  /** A pooled, open backend whose restart no turn has seen yet. */
  predicate AwaitsRestart(env: Env, en: Entry, b: Backend) {
    && b in en.ledger.backends && b.incarnation !in env.closed
    && Outdated(env, en, b) && !EpochOk(en.ledger, ViewOf(env), b.instanceId)
  }

  // ------------------------------------------------------------------------------------
  // The turn that decides
  // ------------------------------------------------------------------------------------

  /** What the block asks of capacity before it claims. */
  predicate Room(env: Env, en: Entry, r: RequestId)
    requires InTurn(en, r)
  {
    && |en.ledger.backends| + |en.ledger.connecting| + |en.requests[r].stage.toSpawn| < env.limits.perUser
    && env.free > 0
  }

  /** A pending restart is carried out by its turn of the block exactly when there is room for one
      more backend, the one to be replaced still counting; otherwise it is recorded and lost. */
  lemma RestartTurn(env: Env, en: Entry, r: RequestId, b: Backend)
    requires Shape(en, env.limits.perUser, env.nextIncarnation) && EpochsOk(env.epochs, en)
    requires InTurn(en, r) && TurnOf(en, r) == b.instanceId && AwaitsRestart(env, en, b)
    ensures var en' := DoDecideNext(env, en, r).entry;
      if Room(env, en, r) then b !in en'.ledger.backends && b.instanceId in en'.ledger.connecting
      else Lost(env, en', b) && b.instanceId in en'.past.stale
  {
    VerdictOnRestart(env, en, r, b);
    TurnEffect(env, en, r);
    TurnPast(env, en, r);
    WithoutFirstLeavesNone(en.ledger.backends, b.instanceId);
    hide DoDecideNext, VerdictOf, WithoutFirst, TurnOf, RequestsOk, TasksOk, EpochsOk;
  }

  lemma VerdictOnRestart(env: Env, en: Entry, r: RequestId, b: Backend)
    requires InTurn(en, r) && TurnOf(en, r) == b.instanceId && b.instanceId !in en.ledger.connecting
    requires !EpochOk(en.ledger, ViewOf(env), b.instanceId)
    ensures if Room(env, en, r) then VerdictOf(env, en, r).Claim? else VerdictOf(env, en, r).Skip?
  {
  }

  lemma EpochsOf(h: Hub, e: EntryId)
    requires HubInv(h) && e < |h.entries|
    ensures Shape(h.entries[e], h.env.limits.perUser, h.env.nextIncarnation) && EpochsOk(h.env.epochs, h.entries[e])
  {
    assert EntryInv(h.env, h.entries[e]);
  }

  lemma TurnWithoutRoom(h: Hub, e: EntryId, r: RequestId, b: Backend)
    requires HubInv(h) && Can(h, In(e, DecideNext(r))) && TurnOf(h.entries[e], r) == b.instanceId
    requires AwaitsRestart(h.env, h.entries[e], b) && !Room(h.env, h.entries[e], r)
    ensures LostAt(Next(h, In(e, DecideNext(r))), e, b)
  {
    hide HubInv, DoDecideNext, Lost, AwaitsRestart, Shape, EpochsOk, Room, TurnOf;
    EpochsOf(h, e);
    RestartTurn(h.env, h.entries[e], r, b);
    LostFrame(h.env, DoDecideNext(h.env, h.entries[e], r), b);
  }

  /** So a user whose pool is at its cap cannot restart anything: every turn on a pending restart,
      in every reachable state, loses it. */
  lemma FullPoolLosesRestarts(h: Hub, e: EntryId, r: RequestId, b: Backend)
    requires Reachable(h) && Can(h, In(e, DecideNext(r))) && TurnOf(h.entries[e], r) == b.instanceId
    requires AwaitsRestart(h.env, h.entries[e], b)
    requires |h.entries[e].ledger.backends| + |h.entries[e].ledger.connecting| == h.env.limits.perUser
    ensures LostAt(Next(h, In(e, DecideNext(r))), e, b)
  {
    hide HubInv, Reachable, Next, AwaitsRestart, TurnOf, LostAt;
    ReachableHubInv(h);
    TurnWithoutRoom(h, e, r, b);
  }

  lemma LostFrame(env: Env, o: Outcome, b: Backend)
    requires Lost(env, o.entry, b)
    ensures Lost(env.(free := o.free, nextIncarnation := o.nextIncarnation), o.entry, b)
  {
  }

  // ------------------------------------------------------------------------------------
  // What a step does to a passing backend
  // ------------------------------------------------------------------------------------

  /** This step takes the backend out of the pool. */
  predicate Unpools(en: Entry, s: EntryStep, b: Backend)
    requires Enabled(en, s)
  {
    || s.FreePool?
    || (s.BeginDecide? && b.instanceId !in en.requests[s.request].stage.enabled)
    || (s.FinishPass? && b !in DoFinishPass(en, s.pass, s.passed).ledger.backends)
  }

  /** Still pooled, still recorded at the same epoch. */
  predicate Stays(en: Entry, en': Entry, b: Backend) {
    && b in en'.ledger.backends
    && b.instanceId in en'.ledger.appliedEpochs && b.instanceId in en.ledger.appliedEpochs
    && en'.ledger.appliedEpochs[b.instanceId] == en.ledger.appliedEpochs[b.instanceId]
  }

  lemma LocalKeepsPassing(env: Env, en: Entry, s: EntryStep, b: Backend)
    requires Passing(env, en, b) && Enabled(en, s) && Local(s) && !Unpools(en, s, b)
    ensures Stays(en, DoLocal(env, en, s), b)
  {
    if s.SandboxFails? {
      StampAllEffect(en.ledger.(dirty := false, initialized := true), en.requests[s.request].stage.enabled, ViewOf(env));
      hide SandboxStamp, StampAll;
      assert Stays(en, DoSandboxFails(env, en, s.request), b) by {
        SandboxStays(env, en, s.request, b);
      }
    } else if s.FinishPass? {
      PassRemovesOnlyItsOwn(en.ledger, en.borrows[ByPass(s.pass)], s.passed);
    } else {
      QuietSamePool(env, en, s);
      QuietSameEpochs(env, en, s);
      hide DoLocal, Enabled;
    }
  }

  lemma SandboxStays(env: Env, en: Entry, r: RequestId, b: Backend)
    requires Passing(env, en, b) && r in en.requests && en.requests[r].stage.Listed?
    ensures Stays(en, DoSandboxFails(env, en, r), b)
  {
    StampAllEffect(en.ledger.(dirty := false, initialized := true), en.requests[r].stage.enabled, ViewOf(env));
  }

  lemma BlockKeepsPassing(env: Env, en: Entry, r: RequestId, b: Backend)
    requires Passing(env, en, b) && r in en.requests && en.requests[r].stage.Listed?
    requires b.instanceId in en.requests[r].stage.enabled
    ensures Stays(en, DoBeginDecide(env, en, r).entry, b)
  {
    hide Pinned, RetainFrees;
  }

  lemma TurnKeepsPassing(env: Env, en: Entry, r: RequestId, b: Backend)
    requires Passing(env, en, b) && InTurn(en, r) && LedgerOk(en.ledger, env.limits.perUser)
    ensures Stays(en, DoDecideNext(env, en, r).entry, b)
  {
    TurnEffect(env, en, r);
    if TurnOf(en, r) == b.instanceId {
      PassingIsKept(env, en, r, b);
      hide DoDecideNext, VerdictOf;
    } else {
      OthersStay(en.ledger.backends, TurnOf(en, r), b);
      hide DoDecideNext, VerdictOf, WithoutFirst, TurnOf;
    }
  }

  lemma PassingIsKept(env: Env, en: Entry, r: RequestId, b: Backend)
    requires Passing(env, en, b) && InTurn(en, r) && TurnOf(en, r) == b.instanceId && LedgerOk(en.ledger, env.limits.perUser)
    ensures VerdictOf(env, en, r).Keep?
  {
    HealthyIsFirst(en.ledger, env.closed, b.instanceId);
    assert Healthy(en.ledger, env.closed, b.instanceId);
    JudgeKeeps(DecisionOf(env, en, r), b.instanceId, ViewOf(env), env.limits.perUser);
    hide Judge, FirstHealthy, Healthy;
  }

  lemma OthersStay(bs: seq<Backend>, id: InstanceId, b: Backend)
    requires b in bs && b.instanceId != id
    ensures b in WithoutFirst(bs, id)
  {
    var p := Position(bs, id);
    if p.Some? {
      RemoveAtElements(bs, p.value);
    }
  }

  lemma LandKeepsPassing(env: Env, en: Entry, i: Incarnation, b: Backend)
    requires Passing(env, en, b) && CanLand(en, i)
    ensures Stays(en, DoLand(env, en, i).entry, b)
  {
    LandEffect(env, en, i);
  }

  lemma StepKeepsPassing(env: Env, en: Entry, s: EntryStep, b: Backend)
    requires Passing(env, en, b) && Enabled(en, s) && LedgerOk(en.ledger, env.limits.perUser) && !Unpools(en, s, b)
    ensures Stays(en, Do(env, en, s).entry, b)
  {
    hide DoLocal, DoDecideNext, DoLand, DoBeginDecide, LedgerOk, Held, KeepArcs;
    if Local(s) {
      LocalKeepsPassing(env, en, s, b);
      hide Stays, Unpools;
    } else if s.BeginDecide? {
      BlockKeepsPassing(env, en, s.request, b);
    } else if s.DecideNext? {
      TurnKeepsPassing(env, en, s.request, b);
    } else if s.Land? {
      LandKeepsPassing(env, en, s.incarnation, b);
    }
  }

  lemma UnpoolingUnpools(env: Env, en: Entry, s: EntryStep, b: Backend)
    requires Enabled(en, s) && Unpools(en, s, b)
    ensures b !in Do(env, en, s).entry.ledger.backends
  {
    hide Held, Pinned, RetainFrees, BeatAll, BeatLog;
  }

  // ------------------------------------------------------------------------------------
  // Lost for good
  // ------------------------------------------------------------------------------------

  /** What brings a lost restart to an end. */
  predicate Disturbs(h: Hub, s: Step, e: EntryId, b: Backend) {
    || s == BumpReload(b.instanceId)
    || s == CloseTransport(b.incarnation)
    || (s.In? && s.entry == e && Can(h, s) && Unpools(h.entries[e], s.step, b))
  }

  predicate Undisturbed(h: Hub, steps: seq<Step>, e: EntryId, b: Backend)
    requires IsRun(h, steps)
    decreases steps
  {
    steps == [] || (!Disturbs(h, steps[0], e, b) && Undisturbed(Next(h, steps[0]), steps[1..], e, b))
  }

  ghost predicate LostAt(h: Hub, e: EntryId, b: Backend) {
    e < |h.entries| && Lost(h.env, h.entries[e], b)
  }

  /** What was returned before stands, and whatever was returned since has the backend in it. */
  ghost predicate Returned(en: Entry, en': Entry, b: Backend) {
    && (forall r :: r in en.past.served ==> r in en'.past.served && en'.past.served[r] == en.past.served[r])
    && (forall r :: r in en'.past.served && r !in en.past.served ==> b in en'.past.served[r].snapshot)
  }

  lemma GivesReturn(env: Env, en: Entry, s: EntryStep, b: Backend)
    requires RequestsOk(en) && Enabled(en, s) && (s.FastPath? || s.Recheck? || s.TakeSnapshot?) && b in en.ledger.backends
    ensures Returned(en, DoLocal(env, en, s), b)
  {
    hide Fresh;
  }

  lemma StepReturns(env: Env, en: Entry, s: EntryStep, b: Backend)
    requires RequestsOk(en) && BornOk(en, env.nextIncarnation) && Enabled(en, s) && b in en.ledger.backends
    ensures Returned(en, Do(env, en, s).entry, b)
  {
    hide RequestsOk, BornOk, DoLocal, Enabled;
    if s.FastPath? || s.Recheck? || s.TakeSnapshot? {
      GivesReturn(env, en, s, b);
      hide Returned;
    } else if Local(s) {
      LocalSameServed(env, en, s);
    } else {
      OthersSameServed(env, en, s);
      hide Do;
    }
  }

  lemma NothingReturned(en: Entry, b: Backend)
    ensures Returned(en, en, b)
  {
  }

  lemma OwnStepKeepsLost(env: Env, en: Entry, s: EntryStep, b: Backend)
    requires Shape(en, env.limits.perUser, env.nextIncarnation) && Lost(env, en, b) && Enabled(en, s)
    ensures Lost(env, Do(env, en, s).entry, b) <==> !Unpools(en, s, b)
    ensures Returned(en, Do(env, en, s).entry, b)
  {
    hide Do, Enabled, LedgerOk, BornOk, RequestsOk, TasksOk, Unpools, Returned;
    StepReturns(env, en, s, b);
    if Unpools(en, s, b) {
      UnpoolingUnpools(env, en, s, b);
    } else {
      StepKeepsPassing(env, en, s, b);
      StepRemembers(env, en, s);
    }
  }

  /** Only its epoch and its transport count, and only these two steps move them. */
  lemma EnvAfterStep(h: Hub, s: Step, b: Backend)
    requires Can(h, s)
    ensures var env := Next(h, s).env;
      && EpochOf(Next(h, s), b.instanceId) == EpochOf(h, b.instanceId) + (if s == BumpReload(b.instanceId) then 1 else 0)
      && (b.incarnation in env.closed <==> b.incarnation in h.env.closed || s == CloseTransport(b.incarnation))
  {
    hide Do, Enabled, DoEnter;
  }

  lemma LostDependsOn(env: Env, env': Env, en: Entry, b: Backend)
    requires ReloadEpoch(env'.epochs, b.instanceId) == ReloadEpoch(env.epochs, b.instanceId)
    requires b.incarnation in env'.closed <==> b.incarnation in env.closed
    ensures Lost(env', en, b) <==> Lost(env, en, b)
  {
  }

  lemma BumpFindsIt(env: Env, env': Env, en: Entry, b: Backend)
    requires Lost(env, en, b) && ReloadEpoch(env'.epochs, b.instanceId) == ReloadEpoch(env.epochs, b.instanceId) + 1
    ensures !Lost(env', en, b)
  {
  }

  /** In one step of the hub a restart stays lost exactly if the step is none of the disturbances. */
  lemma StepKeepsLost(h: Hub, s: Step, e: EntryId, b: Backend)
    requires HubInv(h) && LostAt(h, e, b) && Can(h, s)
    ensures e < |Next(h, s).entries|
    ensures LostAt(Next(h, s), e, b) <==> !Disturbs(h, s, e, b)
    ensures Returned(h.entries[e], Next(h, s).entries[e], b)
  {
    var en := h.entries[e];
    assert EntryInv(h.env, en);
    EntryAfterStep(h, s, e);
    EnvAfterStep(h, s, b);
    NothingReturned(en, b);
    var h', on := Next(h, s), StepOn(h, s, e);
    hide Next, Can, Do, Enabled, EntryInv, HubInv, Shape, Returned, Lost, EntryFor;
    if s == BumpReload(b.instanceId) {
      BumpFindsIt(h.env, h'.env, en, b);
    } else if s == CloseTransport(b.incarnation) {
      ClosedIsNotLost(h'.env, en, b);
    } else {
      LostDependsOn(h.env, h'.env, h'.entries[e], b);
      if on.Some? {
        ShapeOf(h, e);
        OwnStepKeepsLost(h.env, en, on.value, b);
      }
    }
  }

  lemma ShapeOf(h: Hub, e: EntryId)
    requires HubInv(h) && e < |h.entries|
    ensures Shape(h.entries[e], h.env.limits.perUser, h.env.nextIncarnation)
  {
    assert EntryInv(h.env, h.entries[e]);
  }

  lemma ClosedIsNotLost(env: Env, en: Entry, b: Backend)
    requires b.incarnation in env.closed
    ensures !Lost(env, en, b)
  {
  }

  lemma ReturnedInTurn(en: Entry, en': Entry, en'': Entry, b: Backend)
    requires Returned(en, en', b) && Returned(en', en'', b)
    ensures Returned(en, en'', b)
  {
    forall r | r in en''.past.served && r !in en.past.served
      ensures b in en''.past.served[r].snapshot
    {
      if r in en'.past.served {
        assert en''.past.served[r] == en'.past.served[r];
      }
    }
  }

  lemma {:induction false} LostStays(h: Hub, e: EntryId, b: Backend, later: seq<Step>)
    requires HubInv(h) && LostAt(h, e, b) && IsRun(h, later) && Undisturbed(h, later, e, b)
    ensures LostAt(After(h, later), e, b)
    ensures Returned(h.entries[e], After(h, later).entries[e], b)
    decreases later
  {
    hide HubInv, Can, Next, Disturbs, Lost, Returned;
    if later == [] {
      NothingReturned(h.entries[e], b);
    } else {
      var h' := Next(h, later[0]);
      StepKeepsLost(h, later[0], e, b);
      StepKeepsInv(h, later[0]);
      LostStays(h', e, b, later[1..]);
      ReturnedInTurn(h.entries[e], h'.entries[e], After(h, later).entries[e], b);
    }
  }

  /** A lost restart is lost for good: in every continuation without one of the disturbances the
      outdated backend stays pooled and recorded as current, and every request that returns, by the
      fast path or after a reconcile, is handed it. */
  lemma LostForGood(h: Hub, e: EntryId, b: Backend, later: seq<Step>)
    requires Reachable(h) && LostAt(h, e, b) && IsRun(h, later) && Undisturbed(h, later, e, b)
    ensures LostAt(After(h, later), e, b)
    ensures Returned(h.entries[e], After(h, later).entries[e], b)
  {
    hide HubInv, IsRun, After, LostAt, Undisturbed, Reachable;
    ReachableHubInv(h);
    LostStays(h, e, b, later);
  }
}
