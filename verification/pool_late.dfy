/** No silent late arrival. Every backend that a reconcile's batch ever pools is in the snapshot
    that reconcile's caller returned with, or announced itself, or was dropped by a heartbeat
    pass in between. */
module PoolLate {
  import opened PoolLedger
  import opened PoolHeartbeat
  import opened PoolEntry
  import opened PoolShape
  import opened PoolRestart

  /** Only a request that has begun to decide, and has not left its bound section, has claimed. */
  ghost predicate ClaimsDecided(en: Entry) {
    && (forall r :: r in en.requests && en.requests[r].early ==> en.requests[r].stage.Reconciled?)
    && (forall i :: i in en.past.born && en.past.born[i].batch in en.requests ==>
          Decided(en.requests[en.past.born[i].batch].stage) && !en.requests[en.past.born[i].batch].early)
  }

  /** A task outlives its reconcile's wait only if the batch is flagged late. */
  ghost predicate TasksLate(en: Entry) {
    forall i :: i in en.tasks ==> TaskLate(en, en.tasks[i].batch)
  }

  ghost predicate TaskLate(en: Entry, r: RequestId) {
    && (r in en.requests && (en.requests[r].stage.Waited? || en.requests[r].stage.Reconciled?) ==> r in en.late)
    && (r in en.past.served ==> r in en.late)
  }

  /** Still pooled for a caller that has not returned yet. */
  ghost predicate AwaitsReturn(en: Entry, i: Incarnation, r: RequestId) {
    r in en.requests && !en.requests[r].stage.Deciding? && i in Incarnations(en.ledger.backends)
  }

  ghost predicate Delivered(en: Entry, i: Incarnation, r: RequestId) {
    r in en.past.served && i in Incarnations(en.past.served[r].snapshot)
  }

  ghost predicate CallerGone(en: Entry, r: RequestId) {
    r !in en.requests && r !in en.past.served
  }

  ghost predicate Accounted(en: Entry, i: Incarnation) {
    i in en.past.born &&
    var r := en.past.born[i].batch;
    i in en.past.announced || i in en.past.dropped || AwaitsReturn(en, i, r) || Delivered(en, i, r) || CallerGone(en, r)
  }

  ghost predicate PooledAccounted(en: Entry) {
    && (forall i :: i in en.past.everPooled ==> Accounted(en, i))
    && (forall i :: i in en.past.everPooled && i in en.past.born && en.past.born[i].batch in en.requests ==>
          !en.requests[en.past.born[i].batch].stage.Deciding?)
  }

  ghost predicate LateInv(en: Entry) {
    ClaimsDecided(en) && TasksLate(en) && PooledAccounted(en)
  }

  // ------------------------------------------------------------------------------------
  // Moves: requests change stage, nothing is pooled, unpooled or returned
  // ------------------------------------------------------------------------------------

  /** A stage change that keeps a decided request decided, and out of the block once out of it. */
  ghost predicate Moves(q: Request, q': Request) {
    && (Decided(q.stage) && !q.early ==> Decided(q'.stage) && !q'.early)
    && (q'.early ==> q'.stage.Reconciled?)
    && (q'.stage.Deciding? ==> q.stage.Deciding? || q.stage.Listed?)
  }

  ghost predicate SamePast(en: Entry, en': Entry) {
    && en'.past.born == en.past.born && en'.past.everPooled == en.past.everPooled
    && en'.past.announced == en.past.announced && en'.past.dropped == en.past.dropped
    && en'.past.served == en.past.served
    && en'.requests.Keys == en.requests.Keys
    && (forall r :: r in en.requests ==> Moves(en.requests[r], en'.requests[r]))
  }

  lemma MoveKeepsClaims(en: Entry, en': Entry)
    requires ClaimsDecided(en) && SamePast(en, en')
    ensures ClaimsDecided(en')
  {
    forall i | i in en'.past.born && en'.past.born[i].batch in en'.requests
      ensures Decided(en'.requests[en'.past.born[i].batch].stage) && !en'.requests[en'.past.born[i].batch].early
    {
      var r := en.past.born[i].batch;
      assert Moves(en.requests[r], en'.requests[r]);
    }
    forall r | r in en'.requests && en'.requests[r].early
      ensures en'.requests[r].stage.Reconciled?
    {
      assert Moves(en.requests[r], en'.requests[r]);
    }
  }

  lemma MoveKeepsAccounts(en: Entry, en': Entry)
    requires ClaimsDecided(en) && PooledAccounted(en) && SamePast(en, en')
    requires en'.ledger.backends == en.ledger.backends
    ensures PooledAccounted(en')
  {
    forall i | i in en'.past.everPooled
      ensures Accounted(en', i)
      ensures en'.past.born[i].batch in en'.requests ==> !en'.requests[en'.past.born[i].batch].stage.Deciding?
    {
      assert Accounted(en, i);
      var r := en.past.born[i].batch;
      if r in en.requests {
        assert Moves(en.requests[r], en'.requests[r]);
      }
    }
  }

  predicate IsMove(s: EntryStep) {
    Local(s) && !s.Enter? && !s.FastPath? && !s.Recheck? && !s.TakeSnapshot? && !s.Abandon? && !s.FinishPass?
  }

  lemma MovesArePast(env: Env, en: Entry, s: EntryStep)
    requires ClaimsDecided(en) && Enabled(en, s) && IsMove(s)
    ensures SamePast(en, DoLocal(env, en, s))
  {
    hide SandboxStamp, DoFastPath, DoRecheck, Give, DoFinishPass, DoAbandon, DoEnter;
    if s.BeginPass? {
      PassEffect(env, en, s);
      hide DoBeginPass, DoSandboxFails, ReturnEarly;
      PassBeginsQuietly(env, en);
      hide DoLocal, Enabled;
    }
  }

  lemma PassBeginsQuietly(env: Env, en: Entry)
    requires ClaimsDecided(en) && Enabled(en, BeginPass)
    ensures SamePast(en, DoLocal(env, en, BeginPass))
  {
  }

  lemma MovesKeepTasksLate(env: Env, en: Entry, s: EntryStep)
    requires TasksLate(en) && Enabled(en, s) && IsMove(s)
    requires s.ListFails? || s.SandboxFails? ==> forall i :: i in en.tasks ==> en.tasks[i].batch != s.request
    ensures TasksLate(DoLocal(env, en, s))
  {
    hide SandboxStamp;
    var en' := DoLocal(env, en, s);
    forall i | i in en'.tasks
      ensures TaskLate(en', en'.tasks[i].batch)
    {
      assert i in en.tasks && en'.tasks[i].batch == en.tasks[i].batch && TaskLate(en, en.tasks[i].batch);
    }
  }

  /** A request that has not decided yet has no tasks. */
  lemma UndecidedHasNoTasks(en: Entry, next: Incarnation, r: RequestId)
    requires BornOk(en, next) && ClaimsDecided(en)
    requires r in en.requests && !Decided(en.requests[r].stage)
    ensures forall i :: i in en.tasks ==> en.tasks[i].batch != r
  {
  }

  lemma MovesSameBackends(env: Env, en: Entry, s: EntryStep)
    requires Enabled(en, s) && IsMove(s)
    ensures DoLocal(env, en, s).ledger.backends == en.ledger.backends
  {
    if s.SandboxFails? {
      StampAllEffect(en.ledger.(dirty := false, initialized := true), en.requests[s.request].stage.enabled, ViewOf(env));
    }
  }

  lemma MovesKeepLate(env: Env, en: Entry, s: EntryStep)
    requires BornOk(en, env.nextIncarnation) && LateInv(en) && Enabled(en, s) && IsMove(s)
    ensures LateInv(DoLocal(env, en, s))
  {
    MovesArePast(env, en, s);
    MovesSameBackends(env, en, s);
    if s.ListFails? || s.SandboxFails? {
      UndecidedHasNoTasks(en, env.nextIncarnation, s.request);
    }
    MovesKeepTasksLate(env, en, s);
    hide DoLocal, Enabled, BornOk, ClaimsDecided, TasksLate, PooledAccounted, SamePast;
    MoveKeepsClaims(en, DoLocal(env, en, s));
    MoveKeepsAccounts(en, DoLocal(env, en, s));
  }

  // ------------------------------------------------------------------------------------
  // Arrivals, returns, cancellations
  // ------------------------------------------------------------------------------------

  lemma EnterKeepsLate(env: Env, en: Entry)
    requires BornOk(en, env.nextIncarnation) && RequestsOk(en) && LateInv(en)
    ensures LateInv(DoEnter(env, en))
  {
    var en' := DoEnter(env, en);
    forall i | i in en'.past.everPooled
      ensures Accounted(en', i)
    {
      assert Accounted(en, i);
    }
    forall i | i in en'.tasks
      ensures TaskLate(en', en'.tasks[i].batch)
    {
      assert TaskLate(en, en.tasks[i].batch);
    }
  }

  /** A caller returns: whatever of its batch is pooled is in the snapshot it takes. */
  lemma GiveKeepsLate(en: Entry, en': Entry, r: RequestId)
    requires RequestsOk(en) && LateInv(en) && r in en.requests
    requires forall i :: i in en.tasks && en.tasks[i].batch == r ==> r in en.late
    requires en'.ledger.backends == en.ledger.backends && en'.tasks == en.tasks && en'.late == en.late
    requires en'.requests == en.requests - {r} && en'.past == Give(en, r).past
    ensures LateInv(en')
  {
    assert en'.past.served[r].snapshot == en.ledger.backends;
    forall i | i in en'.past.everPooled
      ensures Accounted(en', i)
    {
      assert Accounted(en, i);
    }
    forall i | i in en'.tasks
      ensures TaskLate(en', en'.tasks[i].batch)
    {
      assert TaskLate(en, en.tasks[i].batch);
    }
  }

  lemma AbandonKeepsLate(en: Entry, r: RequestId)
    requires RequestsOk(en) && LateInv(en) && r in en.requests
    ensures LateInv(DoAbandon(en, r))
  {
    var en' := DoAbandon(en, r);
    forall i | i in en'.past.everPooled
      ensures Accounted(en', i)
    {
      assert Accounted(en, i);
    }
    forall i | i in en'.tasks
      ensures TaskLate(en', en'.tasks[i].batch)
    {
      assert TaskLate(en, en.tasks[i].batch);
    }
  }

  lemma ReturnsKeepLate(env: Env, en: Entry, s: EntryStep)
    requires BornOk(en, env.nextIncarnation) && RequestsOk(en) && LateInv(en)
    requires Enabled(en, s) && (s.FastPath? || s.Recheck? || s.TakeSnapshot?)
    ensures LateInv(DoLocal(env, en, s))
  {
    var r := s.request;
    var en' := DoLocal(env, en, s);
    if s.TakeSnapshot? {
      forall i | i in en.tasks && en.tasks[i].batch == r
        ensures r in en.late
      {
        assert TaskLate(en, r);
      }
    } else {
      UndecidedHasNoTasks(en, env.nextIncarnation, r);
    }
    if r in en'.requests {
      MissKeepsLate(env, en, s);
    } else {
      assert en'.past == Give(en, r).past && en'.requests == en.requests - {r};
      assert en'.ledger.backends == en.ledger.backends && en'.tasks == en.tasks && en'.late == en.late;
      hide DoLocal, Enabled, BornOk, RequestsOk, LateInv;
      GiveKeepsLate(en, en', r);
    }
  }

  /** The fast path or the re-check misses. */
  lemma MissKeepsLate(env: Env, en: Entry, s: EntryStep)
    requires LateInv(en) && Enabled(en, s) && (s.FastPath? || s.Recheck?) && s.request in DoLocal(env, en, s).requests
    ensures LateInv(DoLocal(env, en, s))
  {
    var en' := DoLocal(env, en, s);
    assert en'.tasks == en.tasks && en'.late == en.late && en'.ledger.backends == en.ledger.backends;
    assert SamePast(en, en');
    forall i | i in en'.tasks
      ensures TaskLate(en', en'.tasks[i].batch)
    {
      assert TaskLate(en, en.tasks[i].batch);
    }
    hide DoLocal, Enabled, SamePast;
    MoveKeepsClaims(en, en');
    MoveKeepsAccounts(en, en');
  }

  // ------------------------------------------------------------------------------------
  // Heartbeats, the block, landings
  // ------------------------------------------------------------------------------------

  lemma FinishPassKeepsLate(en: Entry, p: PassId, passed: seq<bool>)
    requires LateInv(en) && CanFinish(en, p, passed)
    ensures LateInv(DoFinishPass(en, p, passed))
  {
    var en' := DoFinishPass(en, p, passed);
    hide BeatAll, BeatLog;
    forall i | i in en'.past.everPooled
      ensures Accounted(en', i)
    {
      assert Accounted(en, i);
    }
    forall i | i in en'.tasks
      ensures TaskLate(en', en'.tasks[i].batch)
    {
      assert TaskLate(en, en.tasks[i].batch);
    }
  }

  /** While a request decides it holds the bind lock, so no other caller awaits its return. */
  lemma NobodyAwaits(en: Entry, r: RequestId, i: Incarnation)
    requires RequestsOk(en) && LateInv(en)
    requires r in en.requests && (en.requests[r].stage.Listed? || en.requests[r].stage.Deciding?)
    requires i in en.past.everPooled && i in en.past.born
    ensures !AwaitsReturn(en, i, en.past.born[i].batch) && en.past.born[i].batch !in en.requests
  {
  }

  lemma BeginDecideKeepsLate(env: Env, en: Entry, r: RequestId)
    requires RequestsOk(en) && LateInv(en) && Enabled(en, BeginDecide(r))
    ensures LateInv(DoBeginDecide(env, en, r).entry)
  {
    var en' := DoBeginDecide(env, en, r).entry;
    hide BeginDecision, Pinned;
    forall i | i in en'.past.everPooled
      ensures Accounted(en', i)
      ensures en'.past.born[i].batch !in en'.requests
    {
      assert Accounted(en, i);
      NobodyAwaits(en, r, i);
    }
    forall i | i in en'.tasks
      ensures TaskLate(en', en'.tasks[i].batch)
    {
      assert TaskLate(en, en.tasks[i].batch);
    }
  }

  lemma TurnSameAccounts(env: Env, en: Entry, r: RequestId)
    requires InTurn(en, r)
    ensures var en' := DoDecideNext(env, en, r).entry;
      && en'.past.everPooled == en.past.everPooled && en'.past.announced == en.past.announced
      && en'.past.dropped == en.past.dropped && en'.past.served == en.past.served && en'.late == en.late
      && (en'.past.born == en.past.born || exists b: Birth :: b.batch == r && en'.past.born == en.past.born[env.nextIncarnation := b])
  {
    hide DecideOne, Judge, Pinned;
  }

  lemma TurnKeepsAccounts(env: Env, en: Entry, r: RequestId)
    requires BornOk(en, env.nextIncarnation) && RequestsOk(en) && LateInv(en) && InTurn(en, r)
    ensures PooledAccounted(DoDecideNext(env, en, r).entry)
  {
    var en' := DoDecideNext(env, en, r).entry;
    TurnStage(env, en, r);
    TurnSameAccounts(env, en, r);
    assert forall i :: i in en.past.born ==> i < env.nextIncarnation;
    hide DoDecideNext, BornOk, RequestsOk, ClaimsDecided, TasksLate, Accounted;
    forall i | i in en'.past.everPooled
      ensures Accounted(en', i)
      ensures en'.past.born[i].batch !in en'.requests
    {
      assert Accounted(en, i);
      NobodyAwaits(en, r, i);
      AccountSettled(en, en', i);
    }
  }

  /** An account that does not rest on the caller's return outlives the block. */
  lemma AccountSettled(en: Entry, en': Entry, i: Incarnation)
    requires Accounted(en, i) && en.past.born[i].batch !in en.requests
    requires i in en'.past.born && en'.past.born[i] == en.past.born[i] && en'.requests.Keys == en.requests.Keys
    requires en'.past.announced == en.past.announced && en'.past.dropped == en.past.dropped && en'.past.served == en.past.served
    ensures Accounted(en', i)
  {
  }

  lemma TurnKeepsClaims(env: Env, en: Entry, r: RequestId)
    requires ClaimsDecided(en) && InTurn(en, r)
    ensures ClaimsDecided(DoDecideNext(env, en, r).entry)
  {
    TurnStage(env, en, r);
    TurnSameAccounts(env, en, r);
    hide DoDecideNext;
  }

  lemma TurnKeepsTasksLate(env: Env, en: Entry, r: RequestId)
    requires TasksLate(en) && InTurn(en, r) && r !in en.past.served
    ensures TasksLate(DoDecideNext(env, en, r).entry)
  {
    var en' := DoDecideNext(env, en, r).entry;
    TurnEffect(env, en, r);
    TurnStage(env, en, r);
    TurnSameAccounts(env, en, r);
    hide DoDecideNext, VerdictOf, ClaimLedger, Stamp;
    forall i | i in en'.tasks
      ensures TaskLate(en', en'.tasks[i].batch)
    {
      if i in en.tasks {
        assert TaskLate(en, en.tasks[i].batch);
      }
    }
  }

  lemma TurnKeepsLate(env: Env, en: Entry, r: RequestId)
    requires BornOk(en, env.nextIncarnation) && RequestsOk(en) && LateInv(en) && InTurn(en, r)
    ensures LateInv(DoDecideNext(env, en, r).entry)
  {
    hide ClaimsDecided, TasksLate, PooledAccounted, BornOk, DoDecideNext;
    TurnKeepsClaims(env, en, r);
    TurnKeepsTasksLate(env, en, r);
    TurnKeepsAccounts(env, en, r);
  }

  lemma LandPast(env: Env, en: Entry, i: Incarnation)
    requires CanLand(en, i)
    ensures var en' := DoLand(env, en, i).entry;
      && en'.past.dropped == en.past.dropped && en'.past.served == en.past.served
      && en'.late == en.late && en'.requests == en.requests && en'.past.born == en.past.born
      && en'.ledger == en.ledger.(connecting := en.ledger.connecting - {en.tasks[i].id}, backends := en'.ledger.backends)
      && (en'.ledger.backends == en.ledger.backends || en'.ledger.backends == en.ledger.backends + [Backend(en.tasks[i].id, i)])
      && if en.tasks[i].state.Spawned? && en.tasks[i].id in en.ledger.appliedEpochs then
           && en'.past.everPooled == en.past.everPooled + {i}
           && en'.ledger.backends == en.ledger.backends + [Backend(en.tasks[i].id, i)]
           && en'.past.announced == en.past.announced + if en.tasks[i].batch in en.late then {i} else {}
         else
           && en'.past.everPooled == en.past.everPooled && en'.past.announced == en.past.announced
  {
  }

  /** The arriving backend makes the snapshot its caller is still to take, or finds the flag. */
  lemma ArrivalAccounted(env: Env, en: Entry, i: Incarnation)
    requires BornOk(en, env.nextIncarnation) && RequestsOk(en) && LateInv(en) && CanLand(en, i)
    requires en.tasks[i].state.Spawned? && en.tasks[i].id in en.ledger.appliedEpochs
    ensures Accounted(DoLand(env, en, i).entry, i)
    ensures en.tasks[i].batch in en.requests ==> !en.requests[en.tasks[i].batch].stage.Deciding?
  {
    var r := en.tasks[i].batch;
    LandPast(env, en, i);
    assert TaskLate(en, r);
    assert en.past.born[i].batch == r;
    if r in en.requests {
      assert HoldsBind(en.requests[r].stage);
    }
    hide DoLand, BornOk, RequestsOk, LateInv;
    assert Backend(en.tasks[i].id, i) in DoLand(env, en, i).entry.ledger.backends;
  }

  lemma AccountStands(en: Entry, en': Entry, i: Incarnation)
    requires Accounted(en, i) && en'.requests == en.requests && en'.past.served == en.past.served && en'.past.born == en.past.born
    requires en.past.announced <= en'.past.announced && en.past.dropped <= en'.past.dropped
    requires forall b :: b in en.ledger.backends ==> b in en'.ledger.backends
    ensures Accounted(en', i)
  {
  }

  lemma LandKeepsLate(env: Env, en: Entry, i: Incarnation)
    requires BornOk(en, env.nextIncarnation) && RequestsOk(en) && LateInv(en) && CanLand(en, i)
    ensures LateInv(DoLand(env, en, i).entry)
  {
    hide DoLand, RequestsOk, Unclaim, Accounted;
    var en' := DoLand(env, en, i).entry;
    LandPast(env, en, i);
    LandEffect(env, en, i);
    if en.tasks[i].state.Spawned? && en.tasks[i].id in en.ledger.appliedEpochs {
      ArrivalAccounted(env, en, i);
    }
    assert en.past.born[i].batch == en.tasks[i].batch;
    assert forall b :: b in en.ledger.backends ==> b in en'.ledger.backends;
    hide BornOk;
    forall j | j in en'.past.everPooled
      ensures Accounted(en', j)
    {
      if j in en.past.everPooled {
        assert Accounted(en, j);
        AccountStands(en, en', j);
      }
    }
    forall j | j in en'.tasks
      ensures TaskLate(en', en'.tasks[j].batch)
    {
      assert TaskLate(en, en.tasks[j].batch);
    }
  }

  lemma DropsSamePast(env: Env, en: Entry, s: EntryStep)
    requires Enabled(en, s) && (s.SpawnFails? || s.Release? || s.FreePool?)
    ensures var en' := Do(env, en, s).entry;
      && en'.past == en.past && en'.requests == en.requests && en'.late == en.late
      && (en'.ledger == en.ledger || en.requests == map[])
      && (forall i :: i in en'.tasks ==> i in en.tasks && en'.tasks[i].batch == en.tasks[i].batch)
  {
    hide Held, KeepArcs;
  }

  lemma DropsKeepLate(env: Env, en: Entry, s: EntryStep)
    requires LateInv(en) && Enabled(en, s) && (s.SpawnFails? || s.Release? || s.FreePool?)
    ensures LateInv(Do(env, en, s).entry)
  {
    DropsSamePast(env, en, s);
    hide Do, Enabled, LateInv;
    DropFrame(en, Do(env, en, s).entry);
  }

  lemma DropFrame(en: Entry, en': Entry)
    requires LateInv(en)
    requires en'.past == en.past && en'.requests == en.requests && en'.late == en.late
    requires en'.ledger == en.ledger || en.requests == map[]
    requires forall i :: i in en'.tasks ==> i in en.tasks && en'.tasks[i].batch == en.tasks[i].batch
    ensures LateInv(en')
  {
    forall i | i in en'.past.everPooled
      ensures Accounted(en', i)
    {
      assert Accounted(en, i);
    }
    forall i | i in en'.tasks
      ensures TaskLate(en', en'.tasks[i].batch)
    {
      assert TaskLate(en, en.tasks[i].batch);
    }
    hide Accounted, TaskLate;
  }

  lemma NewEntryLate(now: Instant)
    ensures LateInv(NewEntry(now))
  {
  }

  /** Every step keeps the accounts. */
  lemma StepKeepsLate(env: Env, en: Entry, s: EntryStep)
    requires BornOk(en, env.nextIncarnation) && RequestsOk(en) && LateInv(en) && Enabled(en, s)
    ensures LateInv(Do(env, en, s).entry)
  {
    hide LateInv, BornOk, RequestsOk, DoLocal, DoDecideNext, DoLand, DoBeginDecide, DropTo;
    match s
    case BeginDecide(r) => BeginDecideKeepsLate(env, en, r);
    case DecideNext(r) => TurnKeepsLate(env, en, r);
    case Land(i) => LandKeepsLate(env, en, i);
    case _ =>
      if Local(s) {
        LocalKeepsLate(env, en, s);
      } else {
        DropsKeepLate(env, en, s);
      }
  }

  lemma LocalKeepsLate(env: Env, en: Entry, s: EntryStep)
    requires BornOk(en, env.nextIncarnation) && RequestsOk(en) && LateInv(en) && Enabled(en, s) && Local(s)
    ensures LateInv(DoLocal(env, en, s))
  {
    hide LateInv, BornOk, RequestsOk, DoFastPath, DoRecheck, Give, DoSandboxFails, DoFinishPass, DoAbandon, DoEnter;
    if s.Enter? {
      EnterKeepsLate(env, en);
    } else if s.Abandon? {
      AbandonKeepsLate(en, s.request);
    } else if s.FinishPass? {
      FinishPassKeepsLate(en, s.pass, s.passed);
    } else if IsMove(s) {
      MovesKeepLate(env, en, s);
    } else {
      ReturnsKeepLate(env, en, s);
    }
  }

  /** The reader's form: once a caller has returned, nothing its batch pooled went unnoticed. */
  lemma NothingSilent(en: Entry, r: RequestId, i: Incarnation)
    requires LateInv(en) && RequestsOk(en)
    requires r in en.past.served && i in en.past.everPooled && i in en.past.born && en.past.born[i].batch == r
    ensures i in Incarnations(en.past.served[r].snapshot) || i in en.past.announced || i in en.past.dropped
  {
    assert Accounted(en, i);
  }
}
