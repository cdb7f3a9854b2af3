/** The promises of the backend pool over whole runs, read off the invariants: runs are given as
    the stretch before, between and after the steps a promise is about. */
module PoolRuns {
  import opened Wrappers
  import opened PoolLedger
  import opened PoolHeartbeat
  import opened PoolEntry
  import opened PoolShape
  import opened PoolSlots
  import opened PoolRestart
  import opened PoolLate
  import opened PoolStrikes
  import opened PoolHub

  ghost predicate Reachable(h: Hub) {
    exists limits, now, steps :: IsRun(Start(limits, now), steps) && h == After(Start(limits, now), steps)
  }

  lemma ReachableHubInv(h: Hub)
    requires Reachable(h)
    ensures HubInv(h)
  {
    hide HubInv, Can, Next, IsRun, After, Start;
    var limits, now, steps :| IsRun(Start(limits, now), steps) && h == After(Start(limits, now), steps);
    StartInv(limits, now);
    RunKeepsInv(Start(limits, now), steps);
  }

  // ------------------------------------------------------------------------------------
  // What a hub step does to one entry
  // ------------------------------------------------------------------------------------

  function StepOn(h: Hub, s: Step, e: EntryId): Option<EntryStep> {
    if s.In? && s.entry == e then Some(s.step)
    else if s.Arrive? && EntryFor(h, s.user) == e then Some(EntryStep.Enter)
    else None
  }

  lemma EntryAfterStep(h: Hub, s: Step, e: EntryId)
    requires Can(h, s) && e < |h.entries|
    ensures e < |Next(h, s).entries|
    ensures var on := StepOn(h, s, e);
      if on.Some? then
        Enabled(h.entries[e], on.value) && Next(h, s).entries[e] == Do(h.env, h.entries[e], on.value).entry
      else Next(h, s).entries[e] == h.entries[e]
  {
    hide DoEnter, DoSandboxFails, DoBeginDecide, DoDecideNext, DoLand, DoFinishPass, DoFastPath, DoRecheck, Give, Held;
  }

  // ------------------------------------------------------------------------------------
  // Shape
  // ------------------------------------------------------------------------------------

  /** In every reachable state, in every entry: at most one pooled backend per instance, pooled
      and connecting instances disjoint, exactly one task behind each connecting instance,
      pooled instances tracked, and the per-user cap. */
  lemma EveryEntryInShape(h: Hub, e: EntryId)
    requires Reachable(h) && e < |h.entries|
    ensures var en := h.entries[e]; var l := en.ledger;
      && UniqueIds(l.backends)
      && (forall b :: b in l.backends ==> b.instanceId !in l.connecting && b.instanceId in l.appliedEpochs)
      && (forall id :: id in l.connecting <==> exists i :: i in en.tasks && en.tasks[i].id == id)
      && (forall i, j :: i in en.tasks && j in en.tasks && en.tasks[i].id == en.tasks[j].id ==> i == j)
      && |l.backends| + |l.connecting| <= h.env.limits.perUser
  {
    ReachableHubInv(h);
    var en := h.entries[e];
    assert EntryInv(h.env, en);
    hide EntryInv, HubInv, RestartInv, LateInv, StrikesInv, BornOk, RequestsOk;
    forall id | id in en.ledger.connecting
      ensures exists i :: i in en.tasks && en.tasks[i].id == id
    {
      assert en.past.claimOf[id] in en.tasks;
    }
  }

  // ------------------------------------------------------------------------------------
  // Restart takes effect
  // ------------------------------------------------------------------------------------

  /** From its arrival on, a request keeps what it saw, up to and into its return. */
  ghost predicate Carries(en: Entry, r: RequestId, seen: map<InstanceId, nat>, spawning: set<Incarnation>) {
    && r < en.nextRequest
    && (r in en.requests ==> en.requests[r].seen == seen && en.requests[r].spawningThen == spawning)
    && (r in en.past.served ==> en.past.served[r].seen == seen && en.past.served[r].spawningThen == spawning)
  }

  lemma LocalCarries(env: Env, en: Entry, s: EntryStep, r: RequestId, seen: map<InstanceId, nat>, spawning: set<Incarnation>)
    requires Carries(en, r, seen, spawning) && Enabled(en, s) && Local(s)
    ensures Carries(DoLocal(env, en, s), r, seen, spawning)
  {
    if s.BeginPass? || s.FinishPass? {
      PassEffect(env, en, s);
      hide DoLocal, Enabled;
    } else if Gives(s) {
      GivesCarry(env, en, s, r, seen, spawning);
      hide DoLocal, Enabled, Carries;
    } else {
      PlainEffect(env, en, s);
      PlainKeepsSeen(env, en, s, r);
      hide DoLocal, Enabled;
    }
  }

  lemma GivesCarry(env: Env, en: Entry, s: EntryStep, r: RequestId, seen: map<InstanceId, nat>, spawning: set<Incarnation>)
    requires Carries(en, r, seen, spawning) && Enabled(en, s) && Gives(s)
    ensures Carries(DoLocal(env, en, s), r, seen, spawning)
  {
    hide Fresh;
  }

  lemma PlainKeepsSeen(env: Env, en: Entry, s: EntryStep, r: RequestId)
    requires Enabled(en, s) && Local(s) && !Gives(s) && !s.BeginPass? && !s.FinishPass? && r < en.nextRequest
    ensures var en' := DoLocal(env, en, s);
      && r < en'.nextRequest
      && (r in en'.requests ==>
            && r in en.requests && en'.requests[r].seen == en.requests[r].seen
            && en'.requests[r].spawningThen == en.requests[r].spawningThen)
  {
    hide SandboxStamp, DoFastPath, DoRecheck, Give, DoBeginPass, DoFinishPass;
  }

  lemma StepCarries(env: Env, en: Entry, s: EntryStep, r: RequestId, seen: map<InstanceId, nat>, spawning: set<Incarnation>)
    requires Carries(en, r, seen, spawning) && Enabled(en, s)
    ensures Carries(Do(env, en, s).entry, r, seen, spawning)
  {
    hide DoLocal, DecideOne, Judge, PastOfTurn, BeginDecision, Pinned, LandLedger, Held, KeepArcs;
    if Local(s) {
      LocalCarries(env, en, s, r, seen, spawning);
    } else if s.DecideNext? {
      TurnStage(env, en, s.request);
      OthersSameServedAtTurn(env, en, s.request);
    }
  }

  lemma OthersSameServedAtTurn(env: Env, en: Entry, r: RequestId)
    requires InTurn(en, r)
    ensures var en' := DoDecideNext(env, en, r).entry;
      en'.past.served == en.past.served && en'.nextRequest == en.nextRequest
  {
    hide DecideOne, Judge, Pinned;
  }

  /** Claims are never rewritten. */
  ghost predicate Remembers(en: Entry, en': Entry) {
    forall i :: i in en.past.born ==> i in en'.past.born && en'.past.born[i] == en.past.born[i]
  }

  lemma StepRemembers(env: Env, en: Entry, s: EntryStep)
    requires BornOk(en, env.nextIncarnation) && Enabled(en, s)
    ensures Remembers(en, Do(env, en, s).entry)
  {
    if Local(s) {
      LocalRemembers(env, en, s);
    } else {
      OthersSameServed(env, en, s);
    }
  }

  lemma LocalRemembers(env: Env, en: Entry, s: EntryStep)
    requires Enabled(en, s) && Local(s)
    ensures DoLocal(env, en, s).past.born == en.past.born
  {
    hide BeatAll, BeatLog, Incarnations, SandboxStamp, Fresh;
  }

  lemma {:induction false} RunRemembers(h: Hub, steps: seq<Step>, e: EntryId)
    requires HubInv(h) && IsRun(h, steps) && e < |h.entries|
    ensures e < |After(h, steps).entries| && Remembers(h.entries[e], After(h, steps).entries[e])
    decreases steps
  {
    if steps != [] {
      EntryAfterStep(h, steps[0], e);
      StepKeepsInv(h, steps[0]);
      var on := StepOn(h, steps[0], e);
      assert EntryInv(h.env, h.entries[e]);
      hide HubInv, Can, Next, Do, Enabled, BornOk, LedgerOk, TasksOk, RequestsOk, RestartInv, LateInv, StrikesInv;
      if on.Some? {
        StepRemembers(h.env, h.entries[e], on.value);
      }
      RunRemembers(Next(h, steps[0]), steps[1..], e);
    }
  }

  lemma {:induction false} RunCarries(h: Hub, steps: seq<Step>, e: EntryId, r: RequestId,
                                      seen: map<InstanceId, nat>, spawning: set<Incarnation>)
    requires IsRun(h, steps) && e < |h.entries| && Carries(h.entries[e], r, seen, spawning)
    ensures e < |After(h, steps).entries| && Carries(After(h, steps).entries[e], r, seen, spawning)
    decreases steps
  {
    hide Can, Next, Do, Enabled, Carries;
    if steps != [] {
      EntryAfterStep(h, steps[0], e);
      var on := StepOn(h, steps[0], e);
      if on.Some? {
        StepCarries(h.env, h.entries[e], on.value, r, seen, spawning);
      }
      RunCarries(Next(h, steps[0]), steps[1..], e, r, seen, spawning);
    }
  }

  lemma StepRaisesEpochs(h: Hub, s: Step)
    requires Can(h, s)
    ensures forall id :: EpochOf(h, id) <= EpochOf(Next(h, s), id)
  {
    hide Do, Enabled, DoEnter;
  }

  lemma {:induction false} RunRaisesEpochs(h: Hub, steps: seq<Step>)
    requires IsRun(h, steps)
    ensures forall id :: EpochOf(h, id) <= EpochOf(After(h, steps), id)
    decreases steps
  {
    hide Can, Next, EpochOf;
    if steps != [] {
      StepRaisesEpochs(h, steps[0]);
      RunRaisesEpochs(Next(h, steps[0]), steps[1..]);
    }
  }

  /** An arrival records the epochs and the spawns of that moment. */
  lemma ArrivalCarries(h: Hub, user: UserId)
    requires Can(h, Arrive(user))
    ensures var e := EntryFor(h, user); var en := EntryOrNew(h, e);
      && e < |Next(h, Arrive(user)).entries|
      && (en.nextRequest in en.past.served
          || Carries(Next(h, Arrive(user)).entries[e], en.nextRequest, h.env.epochs, en.tasks.Keys))
  {
  }

  /** Restart takes effect. `before` --Bump--> ..between.. `arriving` --Arrive--> ..after..:
      a request that arrives after the bump and has returned was handed no incarnation of the
      bumped instance that had been claimed when the bump happened, unless it was still
      spawning when the request arrived, or the instance was passed over after the bump (a
      capacity skip or a sandbox stamp at a newer epoch than the bump found, and no claim
      since), or its own reconcile returned early (the instance list or the sandbox failed). */
  lemma RestartTakesEffect(before: Hub, id: InstanceId, between: seq<Step>, user: UserId, after: seq<Step>)
    requires Reachable(before)
    requires IsRun(Next(before, BumpReload(id)), between)
    requires Can(After(Next(before, BumpReload(id)), between), Arrive(user))
    requires IsRun(Next(After(Next(before, BumpReload(id)), between), Arrive(user)), after)
    ensures
      var arriving := After(Next(before, BumpReload(id)), between);
      var end := After(Next(arriving, Arrive(user)), after);
      var e := EntryFor(arriving, user);
      var r := EntryOrNew(arriving, e).nextRequest;
      && e < |end.entries|
      && (r in end.entries[e].past.served && !end.entries[e].past.served[r].early ==>
            forall b :: b in end.entries[e].past.served[r].snapshot && b.instanceId == id
                && e < |before.entries| && b.incarnation in before.entries[e].past.born
              ==> b.incarnation in EntryOrNew(arriving, e).tasks
                  || PassedOver(end.entries[e].past.served[r].stale, end.entries[e].past.served[r].applied, id, EpochOf(before, id) + 1))
  {
    hide Can, Next, IsRun, After, HubInv, EntryInv, Carries, Remembers, EpochOf, Reachable, EntryFor, EntryOrNew;
    BumpCan(before, id);
    var bumped := Next(before, BumpReload(id));
    var arriving := After(bumped, between);
    var arrived := Next(arriving, Arrive(user));
    var end := After(arrived, after);
    var e := EntryFor(arriving, user);
    var en := EntryOrNew(arriving, e);
    ReachableHubInv(before);
    StepKeepsInv(before, BumpReload(id));
    RunKeepsInv(bumped, between);
    StepKeepsInv(arriving, Arrive(user));
    RunKeepsInv(arrived, after);
    FreshRequest(arriving, user);
    ArrivalCarries(arriving, user);
    RunCarries(arrived, after, e, en.nextRequest, arriving.env.epochs, en.tasks.Keys);
    RunRaisesEpochs(bumped, between);
    if e < |before.entries| {
      BumpedRemembers(before, id, between, user, after, e);
    }
    ServedAfterBump(before, id, arriving, end, e, en.nextRequest, en.tasks.Keys);
  }

  lemma BumpCan(h: Hub, id: InstanceId)
    ensures Can(h, BumpReload(id))
    ensures EpochOf(Next(h, BumpReload(id)), id) == EpochOf(h, id) + 1
    ensures Next(h, BumpReload(id)).entries == h.entries
  {
  }

  lemma FreshRequest(h: Hub, user: UserId)
    requires HubInv(h) && Can(h, Arrive(user))
    ensures var en := EntryOrNew(h, EntryFor(h, user)); en.nextRequest !in en.past.served
  {
    if user in h.users {
      assert EntryInv(h.env, h.entries[h.users[user]]);
    }
  }

  lemma BumpedRemembers(before: Hub, id: InstanceId, between: seq<Step>, user: UserId, after: seq<Step>, e: EntryId)
    requires HubInv(before) && e < |before.entries|
    requires IsRun(Next(before, BumpReload(id)), between)
    requires Can(After(Next(before, BumpReload(id)), between), Arrive(user))
    requires IsRun(Next(After(Next(before, BumpReload(id)), between), Arrive(user)), after)
    ensures var end := After(Next(After(Next(before, BumpReload(id)), between), Arrive(user)), after);
      e < |end.entries| && Remembers(before.entries[e], end.entries[e])
  {
    hide Can, Next, IsRun, After, HubInv;
    BumpCan(before, id);
    var bumped := Next(before, BumpReload(id));
    var arriving := After(bumped, between);
    StepKeepsInv(before, BumpReload(id));
    RunRemembers(bumped, between, e);
    RunKeepsInv(bumped, between);
    assert IsRun(arriving, [Arrive(user)]) && After(arriving, [Arrive(user)]) == Next(arriving, Arrive(user)) by {
      OneStepRun(arriving, Arrive(user));
    }
    RunRemembers(arriving, [Arrive(user)], e);
    StepKeepsInv(arriving, Arrive(user));
    RunRemembers(Next(arriving, Arrive(user)), after, e);
  }

  lemma OneStepRun(h: Hub, s: Step)
    requires Can(h, s)
    ensures IsRun(h, [s]) && After(h, [s]) == Next(h, s)
  {
    hide Can, Next;
    assert [s][1..] == [];
  }

  /** Numbers: claimed no later than the bump, handed out against what was seen after it. */
  lemma ServedAfterBump(before: Hub, id: InstanceId, arriving: Hub, end: Hub, e: EntryId, r: RequestId, spawning: set<Incarnation>)
    requires HubInv(before) && HubInv(end) && e < |end.entries|
    requires EpochOf(before, id) < EpochOf(arriving, id)
    requires Carries(end.entries[e], r, arriving.env.epochs, spawning)
    requires e < |before.entries| ==> Remembers(before.entries[e], end.entries[e])
    ensures r in end.entries[e].past.served && !end.entries[e].past.served[r].early ==>
      forall b :: b in end.entries[e].past.served[r].snapshot && b.instanceId == id
          && e < |before.entries| && b.incarnation in before.entries[e].past.born
        ==> b.incarnation in spawning
            || PassedOver(end.entries[e].past.served[r].stale, end.entries[e].past.served[r].applied, id, EpochOf(before, id) + 1)
  {
    assert EntryInv(end.env, end.entries[e]);
    assert ServedCurrent(end.entries[e]);
    if e < |before.entries| {
      assert EntryInv(before.env, before.entries[e]);
      assert Trailing(before.env.epochs, before.entries[e]);
    }
    hide HubInv, EntryInv, ServedCurrent;
    forall b | r in end.entries[e].past.served && !end.entries[e].past.served[r].early
      && b in end.entries[e].past.served[r].snapshot && b.instanceId == id
      && e < |before.entries| && b.incarnation in before.entries[e].past.born
      ensures b.incarnation in spawning
              || PassedOver(end.entries[e].past.served[r].stale, end.entries[e].past.served[r].applied, id, EpochOf(before, id) + 1)
    {
      assert ReturnCurrent(end.entries[e].past.born, end.entries[e].past.served[r], b) by {
        ServedIsCurrent(end.entries[e], end.env, r, b);
      }
      assert before.entries[e].past.born[b.incarnation].id == id;
    }
  }

  lemma ServedIsCurrent(en: Entry, env: Env, r: RequestId, b: Backend)
    requires EntryInv(env, en) && r in en.past.served && !en.past.served[r].early && b in en.past.served[r].snapshot
    ensures ReturnCurrent(en.past.born, en.past.served[r], b)
  {
  }

  // ------------------------------------------------------------------------------------
  // No silent late arrival
  // ------------------------------------------------------------------------------------

  /** In every reachable state, whatever a reconcile's batch ever pooled is in the snapshot its
      caller returned with, or announced itself with tools/list_changed, or was dropped by a
      heartbeat pass. */
  lemma NoSilentLateArrival(h: Hub, e: EntryId, r: RequestId, i: Incarnation)
    requires Reachable(h) && e < |h.entries|
    ensures var past := h.entries[e].past;
      (r in past.served && i in past.everPooled && i in past.born && past.born[i].batch == r) ==>
        (exists b :: b in past.served[r].snapshot && b.incarnation == i) || i in past.announced || i in past.dropped
  {
    ReachableHubInv(h);
    var en := h.entries[e];
    assert EntryInv(h.env, en);
    hide EntryInv, HubInv, LateInv, RequestsOk, RestartInv, StrikesInv, LedgerOk, TasksOk, BornOk;
    if r in en.past.served && i in en.past.everPooled && i in en.past.born && en.past.born[i].batch == r {
      NothingSilent(en, r, i);
    }
  }

  // ------------------------------------------------------------------------------------
  // Heartbeats
  // ------------------------------------------------------------------------------------

  /** In every reachable state, stored strikes are 1 or 2 and every instance's strikes are its
      failed heartbeats since its last pass, claim, drop or prune. */
  lemma StrikesAccounted(h: Hub, e: EntryId, id: InstanceId)
    requires Reachable(h) && e < |h.entries|
    ensures var en := h.entries[e];
      && StrikesOf(en.ledger, id) == FailuresSinceReset(en.past.log, id)
      && StrikesOf(en.ledger, id) <= 2
      && (id in en.ledger.heartbeatFailures <==> StrikesOf(en.ledger, id) > 0)
  {
    ReachableHubInv(h);
    assert EntryInv(h.env, h.entries[e]);
    assert StrikesMatch(h.entries[e].ledger, h.entries[e].past.log);
  }

  /** While a pass is listing, its snapshot stays what it was. */
  lemma LocalKeepsPass(env: Env, en: Entry, s: EntryStep, p: PassId)
    requires KeysOk(en) && RequestsOk(en) && Enabled(en, s) && Local(s) && p < en.nextPass && ByPass(p) in en.borrows
    ensures var en' := DoLocal(env, en, s);
      && p < en'.nextPass && ByPass(p) in en'.borrows && en'.borrows[ByPass(p)] == en.borrows[ByPass(p)]
      && (p in en'.passes ==> p in en.passes)
  {
    if Gives(s) {
      GivesEffect(env, en, s);
    } else if s.BeginPass? || s.FinishPass? {
      PassEffect(env, en, s);
    } else {
      PlainEffect(env, en, s);
    }
    hide DoLocal, Enabled;
  }

  lemma StepKeepsPass(env: Env, en: Entry, s: EntryStep, p: PassId)
    requires KeysOk(en) && RequestsOk(en) && Enabled(en, s) && p < en.nextPass && ByPass(p) in en.borrows
    ensures var en' := Do(env, en, s).entry;
      && p < en'.nextPass && ByPass(p) in en'.borrows
      && (p in en'.passes ==> p in en.passes && en'.borrows[ByPass(p)] == en.borrows[ByPass(p)])
  {
    hide DoLocal, DecideOne, Judge, PastOfTurn, BeginDecision, Pinned, LandLedger, Held, KeepArcs, KeysOk, RequestsOk;
    if Local(s) {
      LocalKeepsPass(env, en, s, p);
    }
  }

  lemma {:induction false} RunKeepsPass(h: Hub, steps: seq<Step>, e: EntryId, p: PassId)
    requires HubInv(h) && IsRun(h, steps) && e < |h.entries|
    requires p < h.entries[e].nextPass && ByPass(p) in h.entries[e].borrows
    ensures var end := After(h, steps);
      && e < |end.entries| && ByPass(p) in end.entries[e].borrows
      && (p in end.entries[e].passes ==>
            p in h.entries[e].passes && end.entries[e].borrows[ByPass(p)] == h.entries[e].borrows[ByPass(p)])
    decreases steps
  {
    if steps != [] {
      EntryAfterStep(h, steps[0], e);
      StepKeepsInv(h, steps[0]);
      var on := StepOn(h, steps[0], e);
      assert EntryInv(h.env, h.entries[e]);
      hide HubInv, Can, Next, Do, Enabled, BornOk, LedgerOk, TasksOk, RequestsOk, KeysOk, RestartInv, LateInv, StrikesInv;
      if on.Some? {
        StepKeepsPass(h.env, h.entries[e], on.value, p);
      }
      RunKeepsPass(Next(h, steps[0]), steps[1..], e, p);
    }
  }

  /** A pass never removes a later respawn: whatever it removes was pooled when it began. */
  lemma PassSparesRespawns(before: Hub, e: EntryId, between: seq<Step>, passed: seq<bool>)
    requires Reachable(before) && Can(before, In(e, BeginPass))
    requires IsRun(Next(before, In(e, BeginPass)), between)
    ensures
      var finishing := After(Next(before, In(e, BeginPass)), between);
      var p := before.entries[e].nextPass;
      && e < |finishing.entries|
      && (CanFinish(finishing.entries[e], p, passed) ==>
            forall b :: b in finishing.entries[e].ledger.backends
                && b !in DoFinishPass(finishing.entries[e], p, passed).ledger.backends
              ==> exists b' :: b' in before.entries[e].ledger.backends && b'.incarnation == b.incarnation)
  {
    var begun := Next(before, In(e, BeginPass));
    var p := before.entries[e].nextPass;
    PassBegins(before, e);
    hide HubInv, Can, Next, IsRun, After, Reachable, DoFinishPass, CanFinish;
    ReachableHubInv(before);
    StepKeepsInv(before, In(e, BeginPass));
    RunKeepsPass(begun, between, e, p);
    var en := After(begun, between).entries[e];
    if CanFinish(en, p, passed) {
      PassRemovesFrom(en, p, passed);
    }
  }

  lemma PassBegins(h: Hub, e: EntryId)
    requires Can(h, In(e, BeginPass))
    ensures var en := Next(h, In(e, BeginPass)).entries[e];
      var p := h.entries[e].nextPass;
      p < en.nextPass && ByPass(p) in en.borrows && en.borrows[ByPass(p)] == h.entries[e].ledger.backends
  {
  }

  lemma PassRemovesFrom(en: Entry, p: PassId, passed: seq<bool>)
    requires CanFinish(en, p, passed)
    ensures p in en.passes
    ensures forall b :: b in en.ledger.backends && b !in DoFinishPass(en, p, passed).ledger.backends ==>
              exists b' :: b' in en.borrows[ByPass(p)] && b'.incarnation == b.incarnation
  {
    var snapshot := en.borrows[ByPass(p)];
    PassRemovesOnlyItsOwn(en.ledger, snapshot, passed);
    forall b | b in en.ledger.backends && b !in DoFinishPass(en, p, passed).ledger.backends
      ensures exists b' :: b' in en.borrows[ByPass(p)] && b'.incarnation == b.incarnation
    {
      var i :| 0 <= i < |snapshot| && snapshot[i].incarnation == b.incarnation && !passed[i];
      assert snapshot[i] in snapshot;
    }
  }

  /** And it drops every wedged backend: of what is pooled when it ends, a pass drops exactly what was
      pooled when it began, failed in it, and had already failed twice since the last reset. */
  lemma WedgedIsDropped(before: Hub, e: EntryId, between: seq<Step>, passed: seq<bool>)
    requires Reachable(before) && Can(before, In(e, BeginPass))
    requires IsRun(Next(before, In(e, BeginPass)), between)
    ensures
      var finishing := After(Next(before, In(e, BeginPass)), between);
      var p, snapshot := before.entries[e].nextPass, before.entries[e].ledger.backends;
      && e < |finishing.entries|
      && (CanFinish(finishing.entries[e], p, passed) ==>
            && |passed| == |snapshot|
            && forall b :: b in finishing.entries[e].ledger.backends ==>
                 (b !in DoFinishPass(finishing.entries[e], p, passed).ledger.backends <==>
                    exists i :: FailsThirdTime(finishing.entries[e], snapshot, passed, i, b)))
  {
    var begun := Next(before, In(e, BeginPass));
    var finishing := After(begun, between);
    PassBegins(before, e);
    hide HubInv, Can, Next, IsRun, After, Reachable, DoFinishPass, CanFinish, FailsThirdTime;
    ReachableHubInv(before);
    StepKeepsInv(before, In(e, BeginPass));
    RunKeepsPass(begun, between, e, before.entries[e].nextPass);
    RunRemembers(begun, between, e);
    RunKeepsInv(begun, between);
    SnapshotIsKnown(before, e);
    var en := finishing.entries[e];
    if CanFinish(en, before.entries[e].nextPass, passed) {
      PassSnapshot(en, before.entries[e].nextPass, passed);
      forall b | b in en.ledger.backends
        ensures b !in DoFinishPass(en, before.entries[e].nextPass, passed).ledger.backends <==>
                exists i :: FailsThirdTime(en, before.entries[e].ledger.backends, passed, i, b)
      {
        DropsIff(finishing, e, before.entries[e].nextPass, passed, before.entries[e].ledger.backends, begun.entries[e].past.born, b);
      }
    }
  }

  /** The `i`-th result of the pass is a failure of `b`, and two failures are on record already. */
  predicate FailsThirdTime(en: Entry, snapshot: seq<Backend>, passed: seq<bool>, i: nat, b: Backend)
    requires |snapshot| == |passed|
  {
    i < |snapshot| && snapshot[i] == b && !passed[i] && FailuresSinceReset(en.past.log, b.instanceId) >= 2
  }

  lemma PassSnapshot(en: Entry, p: PassId, passed: seq<bool>)
    requires CanFinish(en, p, passed)
    ensures p in en.passes && ByPass(p) in en.borrows && |en.borrows[ByPass(p)]| == |passed|
    ensures DoFinishPass(en, p, passed).ledger == BeatAll(en.ledger, en.borrows[ByPass(p)], passed)
  {
    hide BeatAll, BeatLog, Incarnations;
  }

  lemma SnapshotIsKnown(h: Hub, e: EntryId)
    requires HubInv(h) && Can(h, In(e, BeginPass))
    ensures var en := h.entries[e]; var born := Next(h, In(e, BeginPass)).entries[e].past.born;
      && UniqueIds(en.ledger.backends)
      && forall b :: b in en.ledger.backends ==> b.incarnation in born && born[b.incarnation].id == b.instanceId
  {
    PoolIsKnown(h, e);
    PassBegunBorn(h, e);
    assert EntryInv(h.env, h.entries[e]);
    hide Next, Can, KeysOk, TasksOk, BornOk, RequestsOk, RestartInv, LateInv, StrikesInv, DistinctArcs, StrikesOf;
  }

  lemma PassBegunBorn(h: Hub, e: EntryId)
    requires Can(h, In(e, BeginPass))
    ensures e < |h.entries| && Next(h, In(e, BeginPass)).entries[e].past.born == h.entries[e].past.born
  {
  }

  lemma DropsIff(h: Hub, e: EntryId, p: PassId, passed: seq<bool>, snapshot: seq<Backend>, born: map<Incarnation, Birth>, b: Backend)
    requires HubInv(h) && e < |h.entries| && CanFinish(h.entries[e], p, passed) && b in h.entries[e].ledger.backends
    requires ByPass(p) in h.entries[e].borrows && h.entries[e].borrows[ByPass(p)] == snapshot && |snapshot| == |passed|
    requires UniqueIds(snapshot) && forall c :: c in snapshot ==> c.incarnation in born && born[c.incarnation].id == c.instanceId
    requires forall i :: i in born ==> i in h.entries[e].past.born && h.entries[e].past.born[i] == born[i]
    ensures b !in DoFinishPass(h.entries[e], p, passed).ledger.backends <==>
            exists i :: FailsThirdTime(h.entries[e], snapshot, passed, i, b)
  {
    var en := h.entries[e];
    PassSnapshot(en, p, passed);
    PoolIsKnown(h, e);
    hide DoFinishPass, CanFinish, HubInv, StrikesOf, FailuresSinceReset;
    PassDropsIff(en.ledger, snapshot, passed, b);
    forall i: nat | i < |snapshot|
      ensures ThirdStrike(en.ledger, snapshot, passed, i, b) <==> FailsThirdTime(en, snapshot, passed, i, b)
    {
      assert snapshot[i] in snapshot;
    }
    assert forall i: nat :: ThirdStrike(en.ledger, snapshot, passed, i, b) <==> FailsThirdTime(en, snapshot, passed, i, b);
    hide ThirdStrike, FailsThirdTime;
  }

  lemma PoolIsKnown(h: Hub, e: EntryId)
    requires HubInv(h) && e < |h.entries|
    ensures var en := h.entries[e];
      && DistinctArcs(en.ledger.backends)
      && (forall b :: b in en.ledger.backends ==> b.incarnation in en.past.born && en.past.born[b.incarnation].id == b.instanceId)
      && forall id :: StrikesOf(en.ledger, id) == FailuresSinceReset(en.past.log, id)
  {
    assert EntryInv(h.env, h.entries[e]);
    PooledArcsDistinct(h.entries[e], h.env.limits.perUser, h.env.nextIncarnation);
    assert StrikesMatch(h.entries[e].ledger, h.entries[e].past.log);
  }

  // ------------------------------------------------------------------------------------
  // Backoff
  // ------------------------------------------------------------------------------------

  /** This step claims `id` in entry `e`. */
  predicate Claims(h: Hub, s: Step, e: EntryId, id: InstanceId) {
    && s.In? && s.entry == e && s.step.DecideNext? && Can(h, s)
    && TurnOf(h.entries[e], s.step.request) == id
    && VerdictOf(h.env, h.entries[e], s.step.request).Claim?
  }

  /** This step drops the tracking of `id` in entry `e`: it is no longer enabled. */
  predicate Untracks(h: Hub, s: Step, e: EntryId, id: InstanceId) {
    && s.In? && s.entry == e && s.step.BeginDecide? && Can(h, s)
    && id !in h.entries[e].requests[s.step.request].stage.enabled
  }

  predicate NeverUntracks(h: Hub, steps: seq<Step>, e: EntryId, id: InstanceId)
    requires IsRun(h, steps)
    decreases steps
  {
    steps == [] || (!Untracks(h, steps[0], e, id) && NeverUntracks(Next(h, steps[0]), steps[1..], e, id))
  }

  /** Tried at `since` or later, and tracked at `epoch` or later. */
  ghost predicate TriedSince(l: Ledger, id: InstanceId, since: Instant, epoch: nat) {
    && id in l.lastAttempt && l.lastAttempt[id] >= since
    && id in l.appliedEpochs && l.appliedEpochs[id] >= epoch
  }

  lemma LocalKeepsTried(env: Env, en: Entry, s: EntryStep, id: InstanceId, since: Instant, epoch: nat)
    requires TriedSince(en.ledger, id, since, epoch) && Enabled(en, s) && Local(s) && !s.SandboxFails? && !s.FinishPass?
    ensures TriedSince(DoLocal(env, en, s).ledger, id, since, epoch)
  {
  }

  lemma StampsKeepTried(env: Env, en: Entry, s: EntryStep, id: InstanceId, since: Instant, epoch: nat)
    requires TriedSince(en.ledger, id, since, epoch) && Enabled(en, s)
    requires env.now >= since && ReloadEpoch(env.epochs, id) >= epoch
    requires s.SandboxFails? || s.FinishPass? || s.DecideNext?
    ensures TriedSince(Do(env, en, s).entry.ledger, id, since, epoch)
  {
    if s.SandboxFails? {
      StampAllEffect(en.ledger.(dirty := false, initialized := true), en.requests[s.request].stage.enabled, ViewOf(env));
    } else if s.FinishPass? {
      PassRemovesOnlyItsOwn(en.ledger, en.borrows[ByPass(s.pass)], s.passed);
    } else {
      TurnEffect(env, en, s.request);
      hide DoDecideNext, VerdictOf, WithoutFirst;
    }
  }

  lemma OthersKeepTried(env: Env, en: Entry, s: EntryStep, id: InstanceId, since: Instant, epoch: nat)
    requires TriedSince(en.ledger, id, since, epoch) && Enabled(en, s)
    requires s.BeginDecide? ==> id in en.requests[s.request].stage.enabled
    requires !Local(s) && !s.DecideNext?
    ensures TriedSince(Do(env, en, s).entry.ledger, id, since, epoch)
  {
    hide Held, KeepArcs, Pinned, RetainFrees, DoLocal, Retain;
    if s.BeginDecide? {
      BlockKeepsTried(env, en, s.request, id, since, epoch);
    } else if s.Land? {
      LandKeepsTried(env, en, s.incarnation, id, since, epoch);
    } else {
      hide TriedSince, DoBeginDecide, DoLand;
    }
  }

  lemma BlockKeepsTried(env: Env, en: Entry, r: RequestId, id: InstanceId, since: Instant, epoch: nat)
    requires TriedSince(en.ledger, id, since, epoch) && At(en, BeginDecide(r), r)
    requires id in en.requests[r].stage.enabled
    ensures TriedSince(DoBeginDecide(env, en, r).entry.ledger, id, since, epoch)
  {
    hide Held, Pinned, RetainFrees, Retain;
  }

  lemma LandKeepsTried(env: Env, en: Entry, i: Incarnation, id: InstanceId, since: Instant, epoch: nat)
    requires TriedSince(en.ledger, id, since, epoch) && CanLand(en, i)
    ensures TriedSince(DoLand(env, en, i).entry.ledger, id, since, epoch)
  {
  }

  lemma StepKeepsTried(env: Env, en: Entry, s: EntryStep, id: InstanceId, since: Instant, epoch: nat)
    requires TriedSince(en.ledger, id, since, epoch) && Enabled(en, s)
    requires env.now >= since && ReloadEpoch(env.epochs, id) >= epoch
    requires s.BeginDecide? ==> id in en.requests[s.request].stage.enabled
    ensures TriedSince(Do(env, en, s).entry.ledger, id, since, epoch)
  {
    hide TriedSince, DoLocal, DoDecideNext, DoBeginDecide, DoLand, DropTo;
    if s.SandboxFails? || s.FinishPass? || s.DecideNext? {
      StampsKeepTried(env, en, s, id, since, epoch);
    } else if Local(s) {
      LocalKeepsTried(env, en, s, id, since, epoch);
    } else {
      OthersKeepTried(env, en, s, id, since, epoch);
    }
  }

  ghost predicate HubTried(h: Hub, e: EntryId, id: InstanceId, since: Instant, epoch: nat) {
    && e < |h.entries| && TriedSince(h.entries[e].ledger, id, since, epoch)
    && h.env.now >= since && EpochOf(h, id) >= epoch
  }

  lemma ClockAdvances(h: Hub, s: Step)
    requires Can(h, s)
    ensures Next(h, s).env.now >= h.env.now
  {
    hide Do, Enabled, DoEnter;
  }

  lemma HubStepKeepsTried(h: Hub, s: Step, e: EntryId, id: InstanceId, since: Instant, epoch: nat)
    requires HubTried(h, e, id, since, epoch) && Can(h, s) && !Untracks(h, s, e, id)
    ensures HubTried(Next(h, s), e, id, since, epoch)
  {
    EntryAfterStep(h, s, e);
    StepRaisesEpochs(h, s);
    ClockAdvances(h, s);
    var on := StepOn(h, s, e);
    if on.Some? && on.value.BeginDecide? {
      assert s == In(e, on.value);
    }
    hide Next, Do, Enabled, TriedSince;
    if on.Some? {
      StepKeepsTried(h.env, h.entries[e], on.value, id, since, epoch);
    }
  }

  lemma {:induction false} RunKeepsTried(h: Hub, steps: seq<Step>, e: EntryId, id: InstanceId, since: Instant, epoch: nat)
    requires HubTried(h, e, id, since, epoch) && IsRun(h, steps) && NeverUntracks(h, steps, e, id)
    ensures HubTried(After(h, steps), e, id, since, epoch)
    decreases steps
  {
    hide HubTried, Can, Next, Untracks;
    if steps != [] {
      HubStepKeepsTried(h, steps[0], e, id, since, epoch);
      RunKeepsTried(Next(h, steps[0]), steps[1..], e, id, since, epoch);
    }
  }

  lemma ClaimIsTried(h: Hub, s: Step, e: EntryId, id: InstanceId)
    requires Claims(h, s, e, id)
    ensures HubTried(Next(h, s), e, id, h.env.now, EpochOf(h, id))
  {
    EntryAfterStep(h, s, e);
    StepRaisesEpochs(h, s);
    ClockAdvances(h, s);
    ClaimStamps(h.env, h.entries[e], s.step.request);
    hide DoDecideNext, VerdictOf, Next, TurnOf;
  }

  lemma ClaimStamps(env: Env, en: Entry, r: RequestId)
    requires InTurn(en, r) && VerdictOf(env, en, r).Claim?
    ensures TriedSince(DoDecideNext(env, en, r).entry.ledger, TurnOf(en, r), env.now, ReloadEpoch(env.epochs, TurnOf(en, r)))
  {
    TurnEffect(env, en, r);
    hide DoDecideNext, VerdictOf, WithoutFirst, TurnOf;
  }

  /** Backoff: two claims of one instance in one entry, with no disable dropping its tracking in
      between, are at least `RESPAWN_BACKOFF` apart, unless its reload epoch has advanced. */
  lemma BackoffRespected(before: Hub, first: Step, between: seq<Step>, second: Step, e: EntryId, id: InstanceId)
    requires Reachable(before) && Claims(before, first, e, id)
    requires IsRun(Next(before, first), between)
    requires NeverUntracks(Next(before, first), between, e, id)
    requires Claims(After(Next(before, first), between), second, e, id)
    ensures var later := After(Next(before, first), between);
      later.env.now >= before.env.now + RESPAWN_BACKOFF || EpochOf(later, id) > EpochOf(before, id)
  {
    ReachableHubInv(before);
    ClaimIsTried(before, first, e, id);
    assert Can(before, first);
    var claimed := Next(before, first);
    var later := After(claimed, between);
    hide HubInv, HubTried, Can, Next, IsRun, After, Claims, Reachable, NeverUntracks;
    StepKeepsInv(before, first);
    RunKeepsInv(claimed, between);
    RunKeepsTried(claimed, between, e, id, before.env.now, EpochOf(before, id));
    SecondClaim(later, second, e, id, before.env.now, EpochOf(before, id));
  }

  /** A claim needs the backoff to have run out or the epoch to have moved. */
  lemma SecondClaim(h: Hub, s: Step, e: EntryId, id: InstanceId, since: Instant, epoch: nat)
    requires HubInv(h) && HubTried(h, e, id, since, epoch) && Claims(h, s, e, id)
    ensures h.env.now >= since + RESPAWN_BACKOFF || EpochOf(h, id) > epoch
  {
    var en := h.entries[e];
    assert !Settled(en.ledger, ViewOf(h.env), id);
    assert EntryInv(h.env, en);
    hide HubInv, Claims, Shape, KeysOk, LateInv, StrikesInv, RequestsCurrent, ServedCurrent, Matching;
    assert Trailing(h.env.epochs, en);
  }
}
