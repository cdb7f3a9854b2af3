/** Restart takes effect. A request that arrives after an instance's reload epoch was bumped is
    never handed an incarnation claimed before the bump, unless the instance's spawn was already
    under way when the request arrived, or the instance was skipped for capacity or stamped
    without a sandbox since it was last claimed, or the request's own reconcile returned before
    it decided anything. */
module PoolRestart {
  import opened PoolLedger
  import opened PoolHeartbeat
  import opened PoolEntry
  import opened PoolShape

  /** Applied epochs and claim epochs trail the reload epochs, and agree with each other on
      every instance that is not stale. */
  ghost predicate EpochsOk(epochs: map<InstanceId, nat>, en: Entry) {
    Trailing(epochs, en) && Matching(en)
  }

  ghost predicate Trailing(epochs: map<InstanceId, nat>, en: Entry) {
    && (forall id :: id in en.ledger.appliedEpochs ==> en.ledger.appliedEpochs[id] <= ReloadEpoch(epochs, id))
    && (forall i :: i in en.past.born ==> en.past.born[i].epoch <= ReloadEpoch(epochs, en.past.born[i].id))
  }

  ghost predicate Matching(en: Entry) {
    && (forall b :: b in en.ledger.backends ==> ClaimedAtApplied(en, b.incarnation, b.instanceId))
    && (forall i :: i in en.tasks ==> ClaimedAtApplied(en, i, en.tasks[i].id))
  }

  ghost predicate ClaimedAtApplied(en: Entry, i: Incarnation, id: InstanceId) {
    (i in en.past.born && id in en.ledger.appliedEpochs && id !in en.past.stale)
    ==> en.past.born[i].epoch == en.ledger.appliedEpochs[id]
  }

  /** The instance was skipped or stamped at epoch `since` or later, and not claimed again. */
  predicate PassedOver(stale: set<InstanceId>, applied: map<InstanceId, nat>, id: InstanceId, since: nat) {
    id in stale && id in applied && applied[id] >= since
  }

  /** Claimed at or after the epochs seen, or excused: still spawning on arrival, or passed over
      at an epoch no older than the one seen. */
  ghost predicate Current(born: map<Incarnation, Birth>, seen: map<InstanceId, nat>, spawningThen: set<Incarnation>,
                          stale: set<InstanceId>, applied: map<InstanceId, nat>, b: Backend) {
    && b.incarnation in born && born[b.incarnation].id == b.instanceId
    && (|| born[b.incarnation].epoch >= ReloadEpoch(seen, b.instanceId)
        || b.incarnation in spawningThen
        || PassedOver(stale, applied, b.instanceId, ReloadEpoch(seen, b.instanceId)))
  }

  /** The decision block of this stage has yet to reach `id`. */
  ghost predicate Pending(stage: Stage, id: InstanceId) {
    stage.Deciding? && exists k :: stage.next <= k < |stage.enabled| && stage.enabled[k] == id
  }

  predicate Decided(stage: Stage) {
    stage.Deciding? || stage.Waiting? || stage.Waited? || stage.Reconciled?
  }

  ghost predicate SeenOk(epochs: map<InstanceId, nat>, q: Request) {
    forall id :: ReloadEpoch(q.seen, id) <= ReloadEpoch(epochs, id)
  }

  ghost predicate TaskCurrent(en: Entry, q: Request, i: Incarnation, id: InstanceId) {
    && i in en.past.born && en.past.born[i].id == id
    && (i in q.spawningThen || en.past.born[i].epoch >= ReloadEpoch(q.seen, id))
  }

  ghost predicate PooledCurrent(en: Entry, q: Request, b: Backend) {
    Pending(q.stage, b.instanceId) || Current(en.past.born, q.seen, q.spawningThen, en.past.stale, en.ledger.appliedEpochs, b)
  }

  /** Every outstanding spawn was claimed at or after what the request saw, or was under way when
      it arrived; once its reconcile has decided an instance, so is whatever is pooled for it. */
  ghost predicate RequestCurrent(epochs: map<InstanceId, nat>, en: Entry, q: Request) {
    && SeenOk(epochs, q)
    && (forall i :: i in en.tasks ==> TaskCurrent(en, q, i, en.tasks[i].id))
    && (Decided(q.stage) && !q.early ==> forall b :: b in en.ledger.backends ==> PooledCurrent(en, q, b))
  }

  ghost predicate RequestsCurrent(epochs: map<InstanceId, nat>, en: Entry) {
    forall r :: r in en.requests ==> RequestCurrent(epochs, en, en.requests[r])
  }

  ghost predicate ReturnCurrent(born: map<Incarnation, Birth>, ret: Return, b: Backend) {
    Current(born, ret.seen, ret.spawningThen, ret.stale, ret.applied, b)
  }

  /** What was handed out, judged by the history at that moment. */
  ghost predicate ServedCurrent(en: Entry) {
    forall r, b :: r in en.past.served && !en.past.served[r].early && b in en.past.served[r].snapshot ==>
      ReturnCurrent(en.past.born, en.past.served[r], b)
  }

  // ------------------------------------------------------------------------------------
  // Epochs
  // ------------------------------------------------------------------------------------

  lemma EpochsFrame(epochs: map<InstanceId, nat>, en: Entry, en': Entry)
    requires EpochsOk(epochs, en)
    requires en'.ledger.appliedEpochs == en.ledger.appliedEpochs && en.past.stale <= en'.past.stale
    requires en'.past.born == en.past.born
    requires forall b :: b in en'.ledger.backends ==> b in en.ledger.backends
    requires forall i :: i in en'.tasks ==> i in en.tasks && en'.tasks[i].id == en.tasks[i].id
    ensures EpochsOk(epochs, en')
  {
    forall b | b in en'.ledger.backends
      ensures ClaimedAtApplied(en', b.incarnation, b.instanceId)
    {
      assert ClaimedAtApplied(en, b.incarnation, b.instanceId);
    }
    forall i | i in en'.tasks
      ensures ClaimedAtApplied(en', i, en'.tasks[i].id)
    {
      assert ClaimedAtApplied(en, i, en.tasks[i].id);
    }
  }

  lemma QuietSameEpochs(env: Env, en: Entry, s: EntryStep)
    requires Enabled(en, s) && Quiet(s)
    ensures var en' := DoLocal(env, en, s);
      en'.ledger.appliedEpochs == en.ledger.appliedEpochs && en'.past.stale == en.past.stale
  {
    if Gives(s) {
      hide Fresh;
    } else if s.BeginPass? {
      PassEffect(env, en, s);
      hide DoLocal, Enabled;
    } else {
      PlainSameLedger(env, en, s);
      hide DoLocal, Enabled;
    }
  }

  lemma QuietKeepsEpochs(env: Env, en: Entry, s: EntryStep)
    requires EpochsOk(env.epochs, en) && Enabled(en, s) && Quiet(s)
    ensures EpochsOk(env.epochs, DoLocal(env, en, s))
  {
    hide EpochsOk, Matching, Trailing, DoLocal, Enabled;
    QuietSamePool(env, en, s);
    QuietSameEpochs(env, en, s);
    EpochsFrame(env.epochs, en, DoLocal(env, en, s));
  }

  lemma SandboxKeepsEpochs(env: Env, en: Entry, r: RequestId)
    requires EpochsOk(env.epochs, en) && r in en.requests && en.requests[r].stage.Listed?
    ensures EpochsOk(env.epochs, DoSandboxFails(env, en, r))
  {
    var en' := DoSandboxFails(env, en, r);
    StampAllEffect(en.ledger.(dirty := false, initialized := true), en.requests[r].stage.enabled, ViewOf(env));
    forall b | b in en'.ledger.backends
      ensures ClaimedAtApplied(en', b.incarnation, b.instanceId)
    {
      assert ClaimedAtApplied(en, b.incarnation, b.instanceId);
    }
    forall i | i in en'.tasks
      ensures ClaimedAtApplied(en', i, en'.tasks[i].id)
    {
      assert ClaimedAtApplied(en, i, en.tasks[i].id);
    }
  }

  lemma FinishPassKeepsEpochs(env: Env, en: Entry, p: PassId, passed: seq<bool>)
    requires EpochsOk(env.epochs, en) && CanFinish(en, p, passed)
    ensures EpochsOk(env.epochs, DoFinishPass(en, p, passed))
  {
    hide EpochsOk, Matching, Trailing;
    PassRemovesOnlyItsOwn(en.ledger, en.borrows[ByPass(p)], passed);
    EpochsFrame(env.epochs, en, DoFinishPass(en, p, passed));
  }

  lemma BeginDecideKeepsEpochs(env: Env, en: Entry, r: RequestId)
    requires EpochsOk(env.epochs, en) && r in en.requests && en.requests[r].stage.Listed?
    ensures EpochsOk(env.epochs, DoBeginDecide(env, en, r).entry)
  {
    hide Pinned, RetainFrees;
    var en' := DoBeginDecide(env, en, r).entry;
    forall b | b in en'.ledger.backends
      ensures ClaimedAtApplied(en', b.incarnation, b.instanceId)
    {
      assert ClaimedAtApplied(en, b.incarnation, b.instanceId);
    }
    forall i | i in en'.tasks
      ensures ClaimedAtApplied(en', i, en'.tasks[i].id)
    {
      assert ClaimedAtApplied(en, i, en.tasks[i].id);
    }
  }

  /** The history one turn of the block leaves. */
  lemma TurnPast(env: Env, en: Entry, r: RequestId)
    requires InTurn(en, r)
    ensures var en' := DoDecideNext(env, en, r).entry;
      var id, n := TurnOf(en, r), env.nextIncarnation;
      match VerdictOf(env, en, r)
      case Keep => en'.past == en.past
      case Skip(_) => en'.past.stale == en.past.stale + {id} && en'.past.born == en.past.born
      case Claim =>
        && en'.past.stale == en.past.stale - {id}
        && en'.past.born == en.past.born[n := Birth(id, ReloadEpoch(env.epochs, id), r)]
  {
    hide DecideOne, Judge, Pinned;
  }

  /** A turn of the block on the instances it is not about. */
  lemma TurnKeepsOthersApplied(env: Env, en: Entry, en': Entry, r: RequestId, i: Incarnation, id: InstanceId)
    requires InTurn(en, r) && en' == DoDecideNext(env, en, r).entry
    requires ClaimedAtApplied(en, i, id) && id != TurnOf(en, r) && i < env.nextIncarnation
    ensures ClaimedAtApplied(en', i, id)
  {
    TurnEffect(env, en, r);
    TurnPast(env, en, r);
    hide DoDecideNext, VerdictOf, WithoutFirst;
  }

  lemma TurnPooledApplied(env: Env, en: Entry, r: RequestId, b: Backend)
    requires LedgerOk(en.ledger, env.limits.perUser) && BornOk(en, env.nextIncarnation) && EpochsOk(env.epochs, en) && InTurn(en, r)
    requires b in DoDecideNext(env, en, r).entry.ledger.backends
    ensures ClaimedAtApplied(DoDecideNext(env, en, r).entry, b.incarnation, b.instanceId)
  {
    var en' := DoDecideNext(env, en, r).entry;
    TurnEffect(env, en, r);
    TurnPast(env, en, r);
    if VerdictOf(env, en, r).Claim? {
      ClaimLedgerOk(en.ledger, ViewOf(env), TurnOf(en, r), env.limits.perUser);
    }
    assert b in en.ledger.backends && b.incarnation < env.nextIncarnation;
    assert ClaimedAtApplied(en, b.incarnation, b.instanceId);
    hide DoDecideNext, VerdictOf, WithoutFirst, LedgerOk, BornOk, EpochsOk, Matching, TurnOf;
    if b.instanceId != TurnOf(en, r) {
      TurnKeepsOthersApplied(env, en, en', r, b.incarnation, b.instanceId);
    }
  }

  lemma TurnTaskApplied(env: Env, en: Entry, r: RequestId, i: Incarnation)
    requires TasksOk(en) && BornOk(en, env.nextIncarnation) && EpochsOk(env.epochs, en) && InTurn(en, r)
    requires i in en.tasks
    ensures ClaimedAtApplied(DoDecideNext(env, en, r).entry, i, en.tasks[i].id)
  {
    var en' := DoDecideNext(env, en, r).entry;
    TurnEffect(env, en, r);
    TurnPast(env, en, r);
    assert i < env.nextIncarnation && en.tasks[i].id in en.ledger.connecting;
    assert ClaimedAtApplied(en, i, en.tasks[i].id);
    hide DoDecideNext, VerdictOf, WithoutFirst, TasksOk, BornOk, EpochsOk, Matching, TurnOf;
    if en.tasks[i].id != TurnOf(en, r) {
      TurnKeepsOthersApplied(env, en, en', r, i, en.tasks[i].id);
    }
  }

  lemma TurnKeepsTrailing(env: Env, en: Entry, r: RequestId)
    requires Trailing(env.epochs, en) && InTurn(en, r)
    ensures Trailing(env.epochs, DoDecideNext(env, en, r).entry)
  {
    TurnEffect(env, en, r);
    TurnPast(env, en, r);
    hide DoDecideNext, VerdictOf, WithoutFirst, TurnOf;
  }

  lemma TurnKeepsMatching(env: Env, en: Entry, r: RequestId)
    requires Shape(en, env.limits.perUser, env.nextIncarnation) && EpochsOk(env.epochs, en) && InTurn(en, r)
    ensures Matching(DoDecideNext(env, en, r).entry)
  {
    var en' := DoDecideNext(env, en, r).entry;
    TurnEffect(env, en, r);
    TurnPast(env, en, r);
    hide DoDecideNext, VerdictOf, WithoutFirst, RequestsOk, LedgerOk, TasksOk, BornOk, TurnOf, EpochsOk, Settled;
    forall b | b in en'.ledger.backends
      ensures ClaimedAtApplied(en', b.incarnation, b.instanceId)
    {
      TurnPooledApplied(env, en, r, b);
    }
    forall i | i in en'.tasks
      ensures ClaimedAtApplied(en', i, en'.tasks[i].id)
    {
      if i in en.tasks && en'.tasks[i] == en.tasks[i] {
        TurnTaskApplied(env, en, r, i);
      }
    }
  }

  lemma TurnKeepsEpochs(env: Env, en: Entry, r: RequestId)
    requires Shape(en, env.limits.perUser, env.nextIncarnation) && EpochsOk(env.epochs, en) && InTurn(en, r)
    ensures EpochsOk(env.epochs, DoDecideNext(env, en, r).entry)
  {
    hide Shape, Trailing, Matching, DoDecideNext, InTurn;
    TurnKeepsTrailing(env, en, r);
    TurnKeepsMatching(env, en, r);
  }

  lemma LandKeepsEpochs(env: Env, en: Entry, i: Incarnation)
    requires EpochsOk(env.epochs, en) && CanLand(en, i)
    ensures EpochsOk(env.epochs, DoLand(env, en, i).entry)
  {
    var en' := DoLand(env, en, i).entry;
    LandEffect(env, en, i);
    LandCases(env, en, i);
    assert en'.past.stale == en.past.stale;
    assert en'.ledger.appliedEpochs == en.ledger.appliedEpochs;
    hide DoLand, Unclaim;
    assert ClaimedAtApplied(en, i, en.tasks[i].id);
    forall b | b in en'.ledger.backends
      ensures ClaimedAtApplied(en', b.incarnation, b.instanceId)
    {
      assert b in en.ledger.backends ==> ClaimedAtApplied(en, b.incarnation, b.instanceId);
    }
    forall j | j in en'.tasks
      ensures ClaimedAtApplied(en', j, en'.tasks[j].id)
    {
      assert ClaimedAtApplied(en, j, en.tasks[j].id);
    }
  }

  // ------------------------------------------------------------------------------------
  // Requests
  // ------------------------------------------------------------------------------------

  /** A request whose excuses and obligations carry over. */
  ghost predicate Follows(q: Request, q': Request) {
    && q'.seen == q.seen && q'.spawningThen == q.spawningThen
    && (Decided(q'.stage) && !q'.early ==>
          && Decided(q.stage) && !q.early
          && forall id :: Pending(q.stage, id) ==> Pending(q'.stage, id))
  }

  /** A recorded epoch that is still recorded has not gone back. */
  ghost predicate NotBack(applied: map<InstanceId, nat>, applied': map<InstanceId, nat>, id: InstanceId) {
    id in applied ==> id in applied' && applied'[id] >= applied[id]
  }

  /** Nothing new is pooled or spawned, and no excuse is lost. */
  ghost predicate NothingNew(en: Entry, en': Entry) {
    && (forall b :: b in en'.ledger.backends ==> NotBack(en.ledger.appliedEpochs, en'.ledger.appliedEpochs, b.instanceId))
    && en'.past.born == en.past.born && en.past.stale <= en'.past.stale
    && (forall b :: b in en'.ledger.backends ==> b in en.ledger.backends)
    && (forall i :: i in en'.tasks ==> i in en.tasks && en'.tasks[i].id == en.tasks[i].id)
  }

  lemma RequestFrame(epochs: map<InstanceId, nat>, en: Entry, en': Entry, q: Request, q': Request)
    requires RequestCurrent(epochs, en, q) && NothingNew(en, en') && Follows(q, q')
    ensures RequestCurrent(epochs, en', q')
  {
    forall i | i in en'.tasks
      ensures TaskCurrent(en', q', i, en'.tasks[i].id)
    {
      assert TaskCurrent(en, q, i, en.tasks[i].id);
    }
    forall b | b in en'.ledger.backends && Decided(q'.stage) && !q'.early
      ensures PooledCurrent(en', q', b)
    {
      assert PooledCurrent(en, q, b);
    }
  }

  lemma RequestsFrame(epochs: map<InstanceId, nat>, en: Entry, en': Entry)
    requires RequestsCurrent(epochs, en) && NothingNew(en, en')
    requires forall r :: r in en'.requests ==> r in en.requests && Follows(en.requests[r], en'.requests[r])
    ensures RequestsCurrent(epochs, en')
  {
    hide RequestCurrent, NothingNew, Follows;
    forall r | r in en'.requests
      ensures RequestCurrent(epochs, en', en'.requests[r])
    {
      RequestFrame(epochs, en, en', en.requests[r], en'.requests[r]);
    }
  }

  lemma QuietFollows(env: Env, en: Entry, s: EntryStep)
    requires Enabled(en, s) && Quiet(s) && !s.Enter?
    ensures var en' := DoLocal(env, en, s);
      forall r :: r in en'.requests ==> r in en.requests && Follows(en.requests[r], en'.requests[r])
  {
    hide Fresh;
    if Gives(s) {
      hide DoAbandon, ReturnEarly, DoBeginPass;
    } else {
      hide Give, DoFastPath, DoRecheck;
    }
  }

  lemma QuietKeepsRequests(env: Env, en: Entry, s: EntryStep)
    requires RequestsCurrent(env.epochs, en) && Enabled(en, s) && Quiet(s) && !s.Enter?
    ensures RequestsCurrent(env.epochs, DoLocal(env, en, s))
  {
    hide RequestsCurrent, DoLocal, Enabled, Follows;
    QuietSamePool(env, en, s);
    QuietSameEpochs(env, en, s);
    QuietFollows(env, en, s);
    RequestsFrame(env.epochs, en, DoLocal(env, en, s));
  }

  lemma EnterKeepsRequests(env: Env, en: Entry)
    requires RequestsCurrent(env.epochs, en) && BornOk(en, env.nextIncarnation)
    ensures RequestsCurrent(env.epochs, DoEnter(env, en))
  {
    var en' := DoEnter(env, en);
    forall r | r in en'.requests
      ensures RequestCurrent(env.epochs, en', en'.requests[r])
    {
      if r != en.nextRequest {
        RequestFrame(env.epochs, en, en', en.requests[r], en'.requests[r]);
      }
    }
  }

  lemma SandboxKeepsRequests(env: Env, en: Entry, r: RequestId)
    requires RequestsCurrent(env.epochs, en) && Trailing(env.epochs, en)
    requires r in en.requests && en.requests[r].stage.Listed?
    ensures RequestsCurrent(env.epochs, DoSandboxFails(env, en, r))
  {
    hide RequestsCurrent;
    StampAllEffect(en.ledger.(dirty := false, initialized := true), en.requests[r].stage.enabled, ViewOf(env));
    RequestsFrame(env.epochs, en, DoSandboxFails(env, en, r));
  }

  lemma FinishPassKeepsRequests(epochs: map<InstanceId, nat>, en: Entry, p: PassId, passed: seq<bool>)
    requires RequestsCurrent(epochs, en) && CanFinish(en, p, passed)
    ensures RequestsCurrent(epochs, DoFinishPass(en, p, passed))
  {
    hide RequestsCurrent;
    PassRemovesOnlyItsOwn(en.ledger, en.borrows[ByPass(p)], passed);
    RequestsFrame(epochs, en, DoFinishPass(en, p, passed));
  }

  lemma BeginDecideKeepsRequests(env: Env, en: Entry, r: RequestId)
    requires RequestsCurrent(env.epochs, en) && r in en.requests && en.requests[r].stage.Listed?
    ensures RequestsCurrent(env.epochs, DoBeginDecide(env, en, r).entry)
  {
    var en' := DoBeginDecide(env, en, r).entry;
    hide Pinned, RetainFrees, RequestCurrent;
    forall q | q in en'.requests
      ensures RequestCurrent(env.epochs, en', en'.requests[q])
    {
      if q != r {
        RequestFrame(env.epochs, en, en', en.requests[q], en'.requests[q]);
      } else {
        BegunIsPending(env, en, r);
      }
    }
  }

  lemma BegunIsPending(env: Env, en: Entry, r: RequestId)
    requires r in en.requests && en.requests[r].stage.Listed? && RequestCurrent(env.epochs, en, en.requests[r])
    ensures var en' := DoBeginDecide(env, en, r).entry; RequestCurrent(env.epochs, en', en'.requests[r])
  {
    hide Pinned, RetainFrees;
    var en' := DoBeginDecide(env, en, r).entry;
    var q, q' := en.requests[r], en'.requests[r];
    forall i | i in en'.tasks
      ensures TaskCurrent(en', q', i, en'.tasks[i].id)
    {
      assert TaskCurrent(en, q, i, en.tasks[i].id);
    }
    forall b | b in en'.ledger.backends
      ensures Pending(q'.stage, b.instanceId)
    {
      var k :| 0 <= k < |q.stage.enabled| && q.stage.enabled[k] == b.instanceId;
      assert q'.stage.enabled[k] == b.instanceId;
    }
  }

  // ------------------------------------------------------------------------------------
  // One turn of the block, for the request whose block it is
  // ------------------------------------------------------------------------------------

  /** Whatever is pooled for the instance just decided is current: a kept backend was claimed at
      the epoch the turn read, a skipped one is marked stale, and a claim leaves none. */
  lemma DecidedIsCurrent(env: Env, en: Entry, r: RequestId, b: Backend)
    requires Shape(en, env.limits.perUser, env.nextIncarnation) && EpochsOk(env.epochs, en) && InTurn(en, r)
    requires SeenOk(env.epochs, en.requests[r])
    requires b in DoDecideNext(env, en, r).entry.ledger.backends && b.instanceId == TurnOf(en, r)
    ensures var en' := DoDecideNext(env, en, r).entry; PooledCurrent(en', en'.requests[r], b)
  {
    DecidedWasPooled(env, en, r, b);
    TurnPast(env, en, r);
    TurnCarries(env, en, r);
    assert ClaimedAtApplied(en, b.incarnation, b.instanceId);
    hide DoDecideNext, Shape, EpochsOk, VerdictOf, TurnOf;
    if VerdictOf(env, en, r).Keep? {
      KeptIsAtEpoch(env, en, r);
    }
  }

  /** A claim leaves nothing pooled for its instance, so what is pooled was so before. */
  lemma DecidedWasPooled(env: Env, en: Entry, r: RequestId, b: Backend)
    requires Shape(en, env.limits.perUser, env.nextIncarnation) && InTurn(en, r)
    requires b in DoDecideNext(env, en, r).entry.ledger.backends && b.instanceId == TurnOf(en, r)
    ensures !VerdictOf(env, en, r).Claim?
    ensures b in en.ledger.backends && b.instanceId !in en.ledger.connecting
    ensures b.incarnation in en.past.born && en.past.born[b.incarnation].id == b.instanceId
  {
    TurnEffect(env, en, r);
    WithoutFirstLeavesNone(en.ledger.backends, TurnOf(en, r));
    hide DoDecideNext, WithoutFirst, VerdictOf, UniqueIds, RequestsOk, TasksOk;
  }

  /** The block keeps what is pooled only at the epoch it reads. */
  lemma KeptIsAtEpoch(env: Env, en: Entry, r: RequestId)
    requires InTurn(en, r) && VerdictOf(env, en, r).Keep? && TurnOf(en, r) !in en.ledger.connecting
    ensures EpochOk(en.ledger, ViewOf(env), TurnOf(en, r))
  {
  }

  lemma TurnCarries(env: Env, en: Entry, r: RequestId)
    requires InTurn(en, r)
    ensures var en' := DoDecideNext(env, en, r).entry;
      && r in en'.requests
      && en'.requests[r].seen == en.requests[r].seen && en'.requests[r].spawningThen == en.requests[r].spawningThen
  {
    hide DecideOne, Judge, Pinned, PastOfTurn;
  }

  lemma TurnStage(env: Env, en: Entry, r: RequestId)
    requires InTurn(en, r)
    ensures var en' := DoDecideNext(env, en, r).entry;
      && en'.requests.Keys == en.requests.Keys
      && (forall q :: q in en.requests && q != r ==> en'.requests[q] == en.requests[q])
      && en'.requests[r].seen == en.requests[r].seen && en'.requests[r].spawningThen == en.requests[r].spawningThen
      && en'.requests[r].early == en.requests[r].early
      && en'.requests[r].stage.Deciding? && en'.requests[r].stage.enabled == en.requests[r].stage.enabled
      && en'.requests[r].stage.next == en.requests[r].stage.next + 1
  {
    hide DecideOne, Judge, Pinned;
  }

  lemma OtherStaysCurrent(env: Env, en: Entry, r: RequestId, b: Backend)
    requires BornOk(en, env.nextIncarnation) && InTurn(en, r)
    requires b in en.ledger.backends && b.instanceId != TurnOf(en, r) && PooledCurrent(en, en.requests[r], b)
    ensures var en' := DoDecideNext(env, en, r).entry; PooledCurrent(en', en'.requests[r], b)
  {
    assert b.incarnation < env.nextIncarnation;
    hide DoDecideNext, BornOk, TurnOf;
    TurnStage(env, en, r);
    TurnLeavesOthers(env, en, r, b.instanceId, b.incarnation);
    OtherFrame(en, DoDecideNext(env, en, r).entry, r, b);
  }

  lemma OtherFrame(en: Entry, en': Entry, r: RequestId, b: Backend)
    requires InTurn(en, r) && r in en'.requests && PooledCurrent(en, en.requests[r], b)
    requires en'.requests[r].seen == en.requests[r].seen && en'.requests[r].spawningThen == en.requests[r].spawningThen
    requires var stage, stage' := en.requests[r].stage, en'.requests[r].stage;
      && stage'.Deciding? && stage'.enabled == stage.enabled && stage'.next == stage.next + 1
      && stage.enabled[stage.next] != b.instanceId
    requires SameFor(en, en', b.instanceId, b.incarnation)
    ensures PooledCurrent(en', en'.requests[r], b)
  {
    var stage := en.requests[r].stage;
    if Pending(stage, b.instanceId) {
      var k :| stage.next <= k < |stage.enabled| && stage.enabled[k] == b.instanceId;
      assert en'.requests[r].stage.next <= k && en'.requests[r].stage.enabled[k] == b.instanceId;
    }
  }

  /** Nothing that `Current` asks about this instance and this incarnation is different. */
  ghost predicate SameFor(en: Entry, en': Entry, id: InstanceId, i: Incarnation) {
    && (i in en.past.born ==> i in en'.past.born && en'.past.born[i] == en.past.born[i])
    && (id in en'.past.stale <==> id in en.past.stale)
    && (id in en'.ledger.appliedEpochs <==> id in en.ledger.appliedEpochs)
    && (id in en.ledger.appliedEpochs ==> en'.ledger.appliedEpochs[id] == en.ledger.appliedEpochs[id])
  }

  lemma TurnLeavesOthers(env: Env, en: Entry, r: RequestId, id: InstanceId, i: Incarnation)
    requires InTurn(en, r) && id != TurnOf(en, r) && i < env.nextIncarnation
    ensures SameFor(en, DoDecideNext(env, en, r).entry, id, i)
  {
    TurnPast(env, en, r);
    TurnEffect(env, en, r);
    hide DoDecideNext, VerdictOf, TurnOf, WithoutFirst;
  }

  lemma TurnTasksCurrent(env: Env, en: Entry, r: RequestId, q: Request)
    requires BornOk(en, env.nextIncarnation) && InTurn(en, r) && RequestCurrent(env.epochs, en, q)
    ensures var en' := DoDecideNext(env, en, r).entry;
      forall i :: i in en'.tasks ==> TaskCurrent(en', q, i, en'.tasks[i].id)
  {
    var en' := DoDecideNext(env, en, r).entry;
    TurnEffect(env, en, r);
    TurnPast(env, en, r);
    hide DoDecideNext, VerdictOf, TurnOf, WithoutFirst;
    forall i | i in en'.tasks
      ensures TaskCurrent(en', q, i, en'.tasks[i].id)
    {
      if i in en.tasks {
        assert TaskCurrent(en, q, i, en.tasks[i].id);
      }
    }
  }

  lemma TurnKeepsDecider(env: Env, en: Entry, r: RequestId)
    requires Shape(en, env.limits.perUser, env.nextIncarnation) && EpochsOk(env.epochs, en) && InTurn(en, r)
    requires RequestCurrent(env.epochs, en, en.requests[r])
    ensures var en' := DoDecideNext(env, en, r).entry; RequestCurrent(env.epochs, en', en'.requests[r])
  {
    var en' := DoDecideNext(env, en, r).entry;
    TurnStage(env, en, r);
    TurnTasksCurrent(env, en, r, en.requests[r]);
    forall i | i in en'.tasks
      ensures TaskCurrent(en', en'.requests[r], i, en'.tasks[i].id)
    {
      assert TaskCurrent(en', en.requests[r], i, en'.tasks[i].id);
    }
    DecideOneLedgerOk(DecisionOf(env, en, r), TurnOf(en, r), ViewOf(env), env.limits.perUser, Pinned(en));
    forall b | b in en'.ledger.backends && !en'.requests[r].early
      ensures PooledCurrent(en', en'.requests[r], b)
    {
      hide DoDecideNext, LedgerOk, BornOk, TasksOk, RequestsOk, EpochsOk, PooledCurrent, TurnOf;
      if b.instanceId == TurnOf(en, r) {
        DecidedIsCurrent(env, en, r, b);
      } else {
        assert PooledCurrent(en, en.requests[r], b);
        OtherStaysCurrent(env, en, r, b);
      }
    }
  }

  lemma OnlyBinderDecides(en: Entry, r: RequestId)
    requires RequestsOk(en) && InTurn(en, r)
    ensures forall q :: q in en.requests && q != r ==> !Decided(en.requests[q].stage)
  {
  }

  lemma BystanderStaysCurrent(env: Env, en: Entry, r: RequestId, q: Request)
    requires BornOk(en, env.nextIncarnation) && InTurn(en, r) && RequestCurrent(env.epochs, en, q) && !Decided(q.stage)
    ensures RequestCurrent(env.epochs, DoDecideNext(env, en, r).entry, q)
  {
    hide DoDecideNext, InTurn;
    TurnTasksCurrent(env, en, r, q);
  }

  lemma DecideNextKeepsRequests(env: Env, en: Entry, r: RequestId)
    requires Shape(en, env.limits.perUser, env.nextIncarnation) && EpochsOk(env.epochs, en)
    requires RequestsCurrent(env.epochs, en) && InTurn(en, r)
    ensures RequestsCurrent(env.epochs, DoDecideNext(env, en, r).entry)
  {
    hide LedgerOk, TasksOk, BornOk, RequestsOk, EpochsOk, InTurn, DoDecideNext, RequestCurrent;
    var en' := DoDecideNext(env, en, r).entry;
    TurnStage(env, en, r);
    OnlyBinderDecides(en, r);
    forall q | q in en'.requests
      ensures RequestCurrent(env.epochs, en', en'.requests[q])
    {
      if q == r {
        TurnKeepsDecider(env, en, r);
      } else {
        BystanderStaysCurrent(env, en, r, en.requests[q]);
      }
    }
  }

  lemma LandKeepsRequest(env: Env, en: Entry, i: Incarnation, q: Request)
    requires RequestCurrent(env.epochs, en, q) && CanLand(en, i)
    ensures RequestCurrent(env.epochs, DoLand(env, en, i).entry, q)
  {
    var en' := DoLand(env, en, i).entry;
    LandEffect(env, en, i);
    assert en'.past.stale == en.past.stale;
    assert TaskCurrent(en, q, i, en.tasks[i].id);
    hide DoLand, Unclaim;
    forall j | j in en'.tasks
      ensures TaskCurrent(en', q, j, en'.tasks[j].id)
    {
      assert TaskCurrent(en, q, j, en.tasks[j].id);
    }
    forall b | b in en'.ledger.backends && Decided(q.stage) && !q.early
      ensures PooledCurrent(en', q, b)
    {
      assert b in en.ledger.backends ==> PooledCurrent(en, q, b);
    }
  }

  lemma LandKeepsRequests(env: Env, en: Entry, i: Incarnation)
    requires RequestsCurrent(env.epochs, en) && CanLand(en, i)
    ensures RequestsCurrent(env.epochs, DoLand(env, en, i).entry)
  {
    hide RequestCurrent, LandLedger;
    assert DoLand(env, en, i).entry.requests == en.requests;
    forall r | r in en.requests
      ensures RequestCurrent(env.epochs, DoLand(env, en, i).entry, en.requests[r])
    {
      LandKeepsRequest(env, en, i, en.requests[r]);
    }
  }

  lemma DropsKeepRequests(env: Env, en: Entry, s: EntryStep)
    requires RequestsCurrent(env.epochs, en) && Enabled(en, s) && (s.SpawnFails? || s.Release? || s.FreePool?)
    ensures RequestsCurrent(env.epochs, Do(env, en, s).entry)
  {
    hide RequestsCurrent, Held, KeepArcs;
    RequestsFrame(env.epochs, en, Do(env, en, s).entry);
  }

  lemma DropsKeepEpochs(env: Env, en: Entry, s: EntryStep)
    requires EpochsOk(env.epochs, en) && Enabled(en, s) && (s.SpawnFails? || s.Release? || s.FreePool?)
    ensures EpochsOk(env.epochs, Do(env, en, s).entry)
  {
    hide EpochsOk, Held, KeepArcs;
    EpochsFrame(env.epochs, en, Do(env, en, s).entry);
  }

  // ------------------------------------------------------------------------------------
  // What is handed out
  // ------------------------------------------------------------------------------------

  /** A fresh ledger hands out only current backends. */
  lemma FreshIsCurrent(env: Env, en: Entry, l: Ledger, q: Request, b: Backend)
    requires LedgerOk(en.ledger, env.limits.perUser) && BornOk(en, env.nextIncarnation)
    requires EpochsOk(env.epochs, en) && SeenOk(env.epochs, q)
    requires l.backends == en.ledger.backends && l.appliedEpochs == en.ledger.appliedEpochs
    requires Fresh(l, ViewOf(env)) && b in en.ledger.backends
    ensures Current(en.past.born, q.seen, q.spawningThen, en.past.stale, l.appliedEpochs, b)
  {
    assert b.instanceId in l.appliedEpochs;
    assert ClaimedAtApplied(en, b.incarnation, b.instanceId);
  }

  lemma GiveKeepsServed(en: Entry, r: RequestId)
    requires ServedCurrent(en) && r in en.requests
    requires !en.requests[r].early ==> forall b :: b in en.ledger.backends ==>
               Current(en.past.born, en.requests[r].seen, en.requests[r].spawningThen, en.past.stale, en.ledger.appliedEpochs, b)
    ensures ServedCurrent(Give(en, r))
  {
    hide Current;
  }

  lemma GivesKeepServed(env: Env, en: Entry, s: EntryStep)
    requires Shape(en, env.limits.perUser, env.nextIncarnation) && EpochsOk(env.epochs, en)
    requires RequestsCurrent(env.epochs, en) && ServedCurrent(en)
    requires Enabled(en, s) && (s.FastPath? || s.Recheck? || s.TakeSnapshot?)
    ensures ServedCurrent(DoLocal(env, en, s))
  {
    var q := en.requests[s.request];
    var l := if s.FastPath? then en.ledger.(lastUsed := env.now) else en.ledger;
    assert RequestCurrent(env.epochs, en, q);
    if s.TakeSnapshot? || Fresh(l, ViewOf(env)) {
      forall b | b in en.ledger.backends && !q.early
        ensures Current(en.past.born, q.seen, q.spawningThen, en.past.stale, l.appliedEpochs, b)
      {
        if s.TakeSnapshot? {
          assert PooledCurrent(en, q, b);
        } else {
          FreshIsCurrent(env, en, l, q, b);
        }
      }
      GiveKeepsServed(en.(ledger := l), s.request);
      hide RequestCurrent, RequestsCurrent, EpochsOk, Shape, Fresh, Current;
    }
  }

  lemma ServedFrame(en: Entry, en': Entry)
    requires ServedCurrent(en) && en'.past.served == en.past.served
    requires forall i :: i in en.past.born ==> i in en'.past.born && en'.past.born[i] == en.past.born[i]
    ensures ServedCurrent(en')
  {
    forall r, b | r in en'.past.served && !en'.past.served[r].early && b in en'.past.served[r].snapshot
      ensures ReturnCurrent(en'.past.born, en'.past.served[r], b)
    {
      assert ReturnCurrent(en.past.born, en.past.served[r], b);
    }
  }

  lemma LocalSameServed(env: Env, en: Entry, s: EntryStep)
    requires Enabled(en, s) && Local(s) && !s.FastPath? && !s.Recheck? && !s.TakeSnapshot?
    ensures DoLocal(env, en, s).past.served == en.past.served
    ensures DoLocal(env, en, s).past.born == en.past.born
  {
    hide BeatAll, BeatLog, Incarnations, SandboxStamp;
  }

  lemma OthersSameServed(env: Env, en: Entry, s: EntryStep)
    requires BornOk(en, env.nextIncarnation) && Enabled(en, s) && !Local(s)
    ensures var en' := Do(env, en, s).entry;
      && en'.past.served == en.past.served
      && forall i :: i in en.past.born ==> i in en'.past.born && en'.past.born[i] == en.past.born[i]
  {
    hide DecideOne, Judge, Pinned, BeginDecision, LandLedger, Held, KeepArcs, DoLocal;
    if s.DecideNext? {
      TurnSameServed(env, en, s.request);
      hide *;
    } else {
      hide DoDecideNext, PastOfTurn;
    }
  }

  lemma TurnSameServed(env: Env, en: Entry, r: RequestId)
    requires BornOk(en, env.nextIncarnation) && Enabled(en, DecideNext(r))
    ensures var en' := Do(env, en, DecideNext(r)).entry;
      && en'.past.served == en.past.served
      && forall i :: i in en.past.born ==> i in en'.past.born && en'.past.born[i] == en.past.born[i]
  {
  }

  lemma StepKeepsServed(env: Env, en: Entry, s: EntryStep)
    requires Shape(en, env.limits.perUser, env.nextIncarnation) && EpochsOk(env.epochs, en)
    requires RequestsCurrent(env.epochs, en) && ServedCurrent(en) && Enabled(en, s)
    ensures ServedCurrent(Do(env, en, s).entry)
  {
    hide EpochsOk, RequestsCurrent, ServedCurrent, LedgerOk, TasksOk, BornOk, RequestsOk;
    hide DoLocal, DoDecideNext, DoLand, DoBeginDecide, DropTo, DoRelease, DoFreePool;
    if s.FastPath? || s.Recheck? || s.TakeSnapshot? {
      GivesKeepServed(env, en, s);
    } else if Local(s) {
      LocalSameServed(env, en, s);
      ServedFrame(en, DoLocal(env, en, s));
    } else {
      OthersSameServed(env, en, s);
      ServedFrame(en, Do(env, en, s).entry);
    }
  }

  // ------------------------------------------------------------------------------------
  // All steps, and the epochs moving on
  // ------------------------------------------------------------------------------------

  ghost predicate RestartInv(epochs: map<InstanceId, nat>, en: Entry) {
    EpochsOk(epochs, en) && RequestsCurrent(epochs, en) && ServedCurrent(en)
  }

  lemma NewEntryRestart(epochs: map<InstanceId, nat>, now: Instant)
    ensures RestartInv(epochs, NewEntry(now))
  {
  }

  lemma LaterRestart(epochs: map<InstanceId, nat>, later: map<InstanceId, nat>, en: Entry)
    requires RestartInv(epochs, en) && forall id :: ReloadEpoch(epochs, id) <= ReloadEpoch(later, id)
    ensures RestartInv(later, en)
  {
    forall r | r in en.requests
      ensures RequestCurrent(later, en, en.requests[r])
    {
      assert RequestCurrent(epochs, en, en.requests[r]);
    }
  }

  lemma StepKeepsEpochs(env: Env, en: Entry, s: EntryStep)
    requires Shape(en, env.limits.perUser, env.nextIncarnation) && EpochsOk(env.epochs, en) && Enabled(en, s)
    ensures EpochsOk(env.epochs, Do(env, en, s).entry)
  {
    hide EpochsOk, Shape, DoLocal, DoDecideNext, DoLand, DoBeginDecide, DropTo;
    match s
    case BeginDecide(r) => BeginDecideKeepsEpochs(env, en, r);
    case DecideNext(r) => TurnKeepsEpochs(env, en, r);
    case Land(i) => LandKeepsEpochs(env, en, i);
    case _ =>
      if Local(s) {
        LocalKeepsEpochs(env, en, s);
      } else {
        DropsKeepEpochs(env, en, s);
      }
  }

  lemma LocalKeepsEpochs(env: Env, en: Entry, s: EntryStep)
    requires EpochsOk(env.epochs, en) && Enabled(en, s) && Local(s)
    ensures EpochsOk(env.epochs, DoLocal(env, en, s))
  {
    hide EpochsOk, DoSandboxFails, DoFinishPass;
    if s.SandboxFails? {
      SandboxKeepsEpochs(env, en, s.request);
    } else if s.FinishPass? {
      FinishPassKeepsEpochs(env, en, s.pass, s.passed);
    } else {
      QuietKeepsEpochs(env, en, s);
    }
  }

  lemma StepKeepsRequests(env: Env, en: Entry, s: EntryStep)
    requires Shape(en, env.limits.perUser, env.nextIncarnation) && EpochsOk(env.epochs, en)
    requires RequestsCurrent(env.epochs, en) && Enabled(en, s)
    ensures RequestsCurrent(env.epochs, Do(env, en, s).entry)
  {
    hide EpochsOk, RequestsCurrent, LedgerOk, TasksOk, BornOk, RequestsOk;
    hide DoLocal, DoDecideNext, DoLand, DoBeginDecide, DropTo;
    match s
    case BeginDecide(r) => BeginDecideKeepsRequests(env, en, r);
    case DecideNext(r) => DecideNextKeepsRequests(env, en, r);
    case Land(i) => LandKeepsRequests(env, en, i);
    case _ =>
      if Local(s) {
        LocalKeepsRequests(env, en, s);
      } else {
        DropsKeepRequests(env, en, s);
      }
  }

  lemma LocalKeepsRequests(env: Env, en: Entry, s: EntryStep)
    requires BornOk(en, env.nextIncarnation) && EpochsOk(env.epochs, en)
    requires RequestsCurrent(env.epochs, en) && Enabled(en, s) && Local(s)
    ensures RequestsCurrent(env.epochs, DoLocal(env, en, s))
  {
    hide RequestsCurrent, BornOk, DoSandboxFails, DoFinishPass, Trailing, Matching;
    if s.SandboxFails? {
      SandboxKeepsRequests(env, en, s.request);
    } else if s.FinishPass? {
      FinishPassKeepsRequests(env.epochs, en, s.pass, s.passed);
    } else if s.Enter? {
      EnterKeepsRequests(env, en);
    } else {
      QuietKeepsRequests(env, en, s);
    }
  }

  /** Every step keeps the restart invariants. */
  lemma StepKeepsRestart(env: Env, en: Entry, s: EntryStep)
    requires Shape(en, env.limits.perUser, env.nextIncarnation) && RestartInv(env.epochs, en) && Enabled(en, s)
    ensures RestartInv(env.epochs, Do(env, en, s).entry)
  {
    hide Shape, EpochsOk, RequestsCurrent, ServedCurrent, Do, Enabled;
    StepKeepsEpochs(env, en, s);
    StepKeepsRequests(env, en, s);
    StepKeepsServed(env, en, s);
  }
}
