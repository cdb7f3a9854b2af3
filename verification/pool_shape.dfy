/** What every step of an entry keeps: at most one pooled backend per instance, pooled and
    connecting instances disjoint, exactly one spawn task behind each connecting instance,
    pooled instances tracked, the per-user cap, and one holder of the bind lock. */
module PoolShape {
  import opened Wrappers
  import opened PoolLedger
  import opened PoolHeartbeat
  import opened PoolEntry

  /** Pooled backends and connecting instances of one ledger. */
  ghost predicate LedgerOk(l: Ledger, cap: nat) {
    && UniqueIds(l.backends)
    && (forall b :: b in l.backends ==> b.instanceId !in l.connecting)
    && TrackedPool(l)
    && |l.backends| + |l.connecting| <= cap
  }

  /** Each connecting instance has exactly one outstanding task. */
  ghost predicate TasksOk(en: Entry) {
    && en.past.claimOf.Keys == en.ledger.connecting
    && (forall id :: id in en.past.claimOf ==>
          en.past.claimOf[id] in en.tasks && en.tasks[en.past.claimOf[id]].id == id)
    && (forall i :: i in en.tasks ==>
          en.tasks[i].id in en.past.claimOf && en.past.claimOf[en.tasks[i].id] == i)
  }

  /** Every incarnation in sight was claimed, for the instance it is used for. */
  ghost predicate BornOk(en: Entry, next: Incarnation) {
    && (forall i :: i in en.past.born ==> i < next && en.past.born[i].batch < en.nextRequest)
    && (forall i :: i in en.tasks ==>
          && i in en.past.born
          && en.past.born[i].id == en.tasks[i].id && en.past.born[i].batch == en.tasks[i].batch)
    && (forall b :: b in en.ledger.backends ==>
          && b.incarnation in en.past.born && b.incarnation !in en.tasks
          && en.past.born[b.incarnation].id == b.instanceId)
    && (forall k, b :: k in en.borrows && b in en.borrows[k] ==>
          b.incarnation in en.past.born && b.incarnation !in en.tasks)
  }

  /** The bind lock is held by the one request inside its bound section. */
  ghost predicate RequestsOk(en: Entry) {
    && (forall r :: r in en.requests ==>
          && r < en.nextRequest && r !in en.past.served
          && (HoldsBind(en.requests[r].stage) <==> en.binder == Some(r)))
    && (en.binder.Some? ==> en.binder.value in en.requests)
    && (forall r :: r in en.past.served || r in en.late ==> r < en.nextRequest)
    && (forall p :: p in en.passes ==> p < en.nextPass && ByPass(p) in en.borrows)
  }

  ghost predicate Shape(en: Entry, cap: nat, next: Incarnation) {
    LedgerOk(en.ledger, cap) && TasksOk(en) && BornOk(en, next) && RequestsOk(en)
  }

  // ------------------------------------------------------------------------------------
  // Ledgers
  // ------------------------------------------------------------------------------------

  /** With one backend per instance, dropping the first drops the only one. */
  lemma WithoutFirstLeavesNone(bs: seq<Backend>, id: InstanceId)
    requires UniqueIds(bs)
    ensures forall b :: b in WithoutFirst(bs, id) ==> b in bs && b.instanceId != id
  {
    ReplacesTheOnlyOne(bs, id, {});
  }

  lemma ClaimLedgerOk(l: Ledger, v: View, id: InstanceId, cap: nat)
    requires LedgerOk(l, cap) && id !in l.connecting && |l.backends| + |l.connecting| < cap
    ensures LedgerOk(ClaimLedger(l, v, id), cap)
    ensures forall b :: b in ClaimLedger(l, v, id).backends ==> b in l.backends && b.instanceId != id
  {
    WithoutFirstLeavesNone(l.backends, id);
  }

  lemma PruneLedgerOk(l: Ledger, enabled: set<InstanceId>, cap: nat)
    requires LedgerOk(l, cap)
    ensures LedgerOk(Prune(l, enabled), cap)
  {
    RetainKeepsUnique(l.backends, enabled);
  }

  lemma DecideOneLedgerOk(d: Decision, id: InstanceId, v: View, cap: nat, pinned: set<Incarnation>)
    requires LedgerOk(d.ledger, cap)
    ensures var r := DecideOne(d, id, v, cap, pinned).ledger;
      && LedgerOk(r, cap)
      && forall b :: b in r.backends ==> b in d.ledger.backends
  {
    if Judge(d, id, v, cap).Claim? {
      ClaimLedgerOk(d.ledger, v, id, cap);
    }
  }

  lemma {:induction false} DecideAllLedgerOk(d: Decision, ids: seq<InstanceId>, v: View, cap: nat, pinned: set<Incarnation>)
    requires LedgerOk(d.ledger, cap)
    ensures LedgerOk(DecideAll(d, ids, v, cap, pinned).ledger, cap)
  {
    if ids != [] {
      DecideAllLedgerOk(d, ids[..|ids| - 1], v, cap, pinned);
      DecideOneLedgerOk(DecideAll(d, ids[..|ids| - 1], v, cap, pinned), ids[|ids| - 1], v, cap, pinned);
    }
  }

  /** The whole block keeps a ledger in shape: in particular under the per-user cap, which its
      guard checks with each new claim counted twice. */
  lemma BlockKeepsLedgerOk(l: Ledger, free: nat, enabled: seq<InstanceId>, v: View, cap: nat, pinned: set<Incarnation>)
    requires LedgerOk(l, cap)
    ensures LedgerOk(DecisionBlock(l, free, enabled, v, cap, pinned).ledger, cap)
  {
    PruneLedgerOk(l, Elements(enabled), cap);
    DecideAllLedgerOk(BeginDecision(l, free, enabled, pinned), enabled, v, cap, pinned);
  }

  // ------------------------------------------------------------------------------------
  // Steps
  // ------------------------------------------------------------------------------------

  lemma NewEntryShape(now: Instant, cap: nat, next: Incarnation)
    ensures Shape(NewEntry(now), cap, next)
  {
  }

  lemma LaterShape(en: Entry, cap: nat, next: Incarnation, next': Incarnation)
    requires Shape(en, cap, next) && next <= next'
    ensures Shape(en, cap, next')
  {
  }

  /** Steps on which `backends_for` may return. */
  predicate Gives(s: EntryStep) {
    s.FastPath? || s.Recheck? || s.TakeSnapshot?
  }

  /** What none of these two kinds of step touches. */
  ghost predicate SameTasks(en: Entry, en': Entry) {
    && en'.tasks == en.tasks && en'.passes == en.passes && en'.nextPass == en.nextPass
    && en'.past.everPooled == en.past.everPooled && en'.past.born == en.past.born && en'.past.claimOf == en.past.claimOf
  }

  /** Nobody returned, or the one request did, with a clone of the pooled vector. */
  ghost predicate MayGive(en: Entry, en': Entry, r: RequestId) {
    || (en'.borrows == en.borrows && en'.past.served == en.past.served)
    || (&& en'.borrows == en.borrows[ByRequest(r) := en.ledger.backends]
        && r in en'.past.served && en'.past.served.Keys == en.past.served.Keys + {r})
  }

  lemma GivesEffect(env: Env, en: Entry, s: EntryStep)
    requires Enabled(en, s) && Gives(s)
    ensures s.request in en.requests
    ensures var en' := DoLocal(env, en, s); SameTasks(en, en') && MayGive(en, en', s.request)
    ensures DoLocal(env, en, s).ledger.(lastUsed := 0) == en.ledger.(lastUsed := 0)
  {
    hide Fresh;
  }

  /** The other local steps but the two of a heartbeat pass: nothing is borrowed or returned. */
  lemma PlainEffect(env: Env, en: Entry, s: EntryStep)
    requires Enabled(en, s) && Local(s) && !Gives(s) && !s.BeginPass? && !s.FinishPass?
    ensures var en' := DoLocal(env, en, s);
      && en'.borrows == en.borrows && en'.past.served == en.past.served
      && en'.passes == en.passes && en'.nextPass == en.nextPass
      && en'.past.everPooled == en.past.everPooled && en'.past.born == en.past.born && en'.past.claimOf == en.past.claimOf
      && en'.tasks.Keys == en.tasks.Keys
      && forall i :: i in en.tasks ==>
           && en'.tasks[i].id == en.tasks[i].id && en'.tasks[i].batch == en.tasks[i].batch
           && en'.tasks[i].state.SpawnFailed? == en.tasks[i].state.SpawnFailed?
  {
    hide SandboxStamp, DoFinishPass, DoBeginPass, DoFastPath, DoRecheck, Give;
  }

  lemma PassEffect(env: Env, en: Entry, s: EntryStep)
    requires Enabled(en, s) && (s.BeginPass? || s.FinishPass?)
    ensures var en' := DoLocal(env, en, s);
      && en'.tasks == en.tasks && en'.requests == en.requests && en'.binder == en.binder && en'.late == en.late
      && en'.nextRequest == en.nextRequest
      && en'.past.everPooled == en.past.everPooled && en'.past.born == en.past.born && en'.past.claimOf == en.past.claimOf
      && en'.past.served == en.past.served && en'.past.announced == en.past.announced && en'.past.stale == en.past.stale
      && (if s.BeginPass? then
            && en'.borrows == en.borrows[ByPass(en.nextPass) := en.ledger.backends]
            && en'.nextPass == en.nextPass + 1 && en'.passes == en.passes + {en.nextPass} && en'.ledger == en.ledger
          else
            en'.borrows == en.borrows && en'.nextPass == en.nextPass && en'.passes == en.passes - {s.pass})
  {
    hide BeatAll, BeatLog, Incarnations;
  }

  /** Nothing is pooled, claimed or spawned anew: borrows only clone what is pooled or borrowed. */
  ghost predicate SamePool(en: Entry, en': Entry) {
    && en'.ledger.backends == en.ledger.backends
    && en'.ledger.connecting == en.ledger.connecting
    && en.ledger.appliedEpochs.Keys <= en'.ledger.appliedEpochs.Keys
    && en'.past.claimOf == en.past.claimOf && en'.past.born == en.past.born
    && en'.tasks.Keys == en.tasks.Keys
    && (forall i :: i in en.tasks ==> en'.tasks[i].id == en.tasks[i].id && en'.tasks[i].batch == en.tasks[i].batch)
    && (forall k, b :: k in en'.borrows && b in en'.borrows[k] ==> b in en.ledger.backends || (k in en.borrows && b in en.borrows[k]))
    && en.nextRequest <= en'.nextRequest
  }

  lemma TasksFrame(en: Entry, en': Entry)
    requires TasksOk(en) && SamePool(en, en')
    ensures TasksOk(en')
  {
  }

  lemma BornFrame(en: Entry, en': Entry, next: Incarnation)
    requires BornOk(en, next) && SamePool(en, en')
    ensures BornOk(en', next)
  {
  }

  lemma PoolFrame(en: Entry, en': Entry, cap: nat, next: Incarnation)
    requires Shape(en, cap, next) && SamePool(en, en')
    ensures LedgerOk(en'.ledger, cap) && TasksOk(en') && BornOk(en', next)
  {
    hide RequestsOk, TasksOk, BornOk;
    TasksFrame(en, en');
    BornFrame(en, en', next);
  }

  /** Local steps that neither stamp nor unpool. */
  predicate Quiet(s: EntryStep) {
    Local(s) && !s.SandboxFails? && !s.FinishPass?
  }

  lemma QuietSamePool(env: Env, en: Entry, s: EntryStep)
    requires Enabled(en, s) && Quiet(s)
    ensures SamePool(en, DoLocal(env, en, s))
  {
    if Gives(s) {
      GivesEffect(env, en, s);
      GivesAdvance(env, en, s);
      hide DoLocal, Enabled;
    } else if s.BeginPass? {
      PassEffect(env, en, s);
      hide DoLocal, Enabled;
    } else {
      PlainEffect(env, en, s);
      PlainSameLedger(env, en, s);
      hide DoLocal, Enabled;
    }
  }

  lemma GivesAdvance(env: Env, en: Entry, s: EntryStep)
    requires Enabled(en, s) && Gives(s)
    ensures DoLocal(env, en, s).nextRequest == en.nextRequest
  {
    hide Fresh;
  }

  lemma PlainSameLedger(env: Env, en: Entry, s: EntryStep)
    requires Enabled(en, s) && Quiet(s) && !Gives(s) && !s.BeginPass?
    ensures var en' := DoLocal(env, en, s);
      && en'.ledger.backends == en.ledger.backends && en'.ledger.connecting == en.ledger.connecting
      && en'.ledger.appliedEpochs == en.ledger.appliedEpochs && en'.past.stale == en.past.stale
      && en.nextRequest <= en'.nextRequest
  {
    hide DoFastPath, DoRecheck, Give, DoBeginPass, DoFinishPass, DoSandboxFails;
  }

  lemma MovesKeepRequests(env: Env, en: Entry, s: EntryStep)
    requires RequestsOk(en) && Enabled(en, s) && Local(s)
    requires !s.FastPath? && !s.Recheck? && !s.TakeSnapshot? && !s.BeginPass? && !s.FinishPass?
    ensures RequestsOk(DoLocal(env, en, s))
  {
    hide SandboxStamp, Give, DoFinishPass, DoBeginPass, DoFastPath, DoRecheck;
    if s.Enter? || s.TakeBind? || s.Abandon? {
      LocksKeepRequests(env, en, s);
    } else {
      PlainEffect(env, en, s);
      StaysInPlace(env, en, s);
      hide DoLocal, Enabled;
    }
  }

  /** The other plain steps move at most one request on, inside or outside its bound section. */
  lemma StaysInPlace(env: Env, en: Entry, s: EntryStep)
    requires Enabled(en, s) && Local(s) && !Gives(s) && !s.BeginPass? && !s.FinishPass?
    requires !s.Enter? && !s.TakeBind? && !s.Abandon?
    ensures var en' := DoLocal(env, en, s);
      && en'.requests.Keys == en.requests.Keys && en'.binder == en.binder && en'.nextRequest == en.nextRequest
      && (forall r :: r in en.requests ==> HoldsBind(en'.requests[r].stage) == HoldsBind(en.requests[r].stage))
      && en'.late <= en.late + en.requests.Keys
  {
    hide SandboxStamp, Give, DoFinishPass, DoBeginPass, DoFastPath, DoRecheck, DoEnter, DoAbandon;
  }

  lemma LocksKeepRequests(env: Env, en: Entry, s: EntryStep)
    requires RequestsOk(en) && Enabled(en, s) && (s.Enter? || s.TakeBind? || s.Abandon?)
    ensures RequestsOk(DoLocal(env, en, s))
  {
  }

  lemma GivesKeepRequests(env: Env, en: Entry, s: EntryStep)
    requires RequestsOk(en) && Enabled(en, s) && Local(s)
    requires s.FastPath? || s.Recheck? || s.TakeSnapshot? || s.BeginPass? || s.FinishPass?
    ensures RequestsOk(DoLocal(env, en, s))
  {
    if s.BeginPass? || s.FinishPass? {
      PassesKeepRequests(env, en, s);
    } else {
      GivesEffect(env, en, s);
      GivesMove(env, en, s);
      hide DoLocal, Enabled;
      var en' := DoLocal(env, en, s);
      if s.request in en'.past.served {
        hide RequestsOk;
        GoneKeepsRequests(en, en', s.request, s.FastPath?);
      } else {
        hide RequestsOk;
        StayedKeepsRequests(en, en', s.request);
      }
    }
  }

  lemma GoneKeepsRequests(en: Entry, en': Entry, r: RequestId, unbound: bool)
    requires RequestsOk(en) && r in en.requests && SameTasks(en, en') && MayGive(en, en', r)
    requires en'.late == en.late && en'.nextRequest == en.nextRequest
    requires en'.requests == en.requests - {r} && en'.binder == if unbound then en.binder else None
    requires unbound <==> !HoldsBind(en.requests[r].stage)
    ensures RequestsOk(en')
  {
  }

  lemma StayedKeepsRequests(en: Entry, en': Entry, r: RequestId)
    requires RequestsOk(en) && r in en.requests && SameTasks(en, en') && MayGive(en, en', r) && r !in en'.past.served
    requires en'.late == en.late && en'.nextRequest == en.nextRequest
    requires en'.requests.Keys == en.requests.Keys && en'.binder == en.binder
    requires HoldsBind(en'.requests[r].stage) == HoldsBind(en.requests[r].stage)
    requires forall q :: q in en.requests && q != r ==> en'.requests[q] == en.requests[q]
    ensures RequestsOk(en')
  {
  }

  /** The request is gone and has let go of the bind lock, or is one stage on and holds on to it. */
  lemma GivesMove(env: Env, en: Entry, s: EntryStep)
    requires RequestsOk(en) && Enabled(en, s) && Gives(s)
    ensures var en', r := DoLocal(env, en, s), s.request;
      && en'.late == en.late && en'.nextRequest == en.nextRequest
      && (if r in en'.past.served then
            && en'.requests == en.requests - {r}
            && (s.FastPath? <==> !HoldsBind(en.requests[r].stage))
            && en'.binder == if s.FastPath? then en.binder else None
          else
            && en'.requests.Keys == en.requests.Keys && en'.binder == en.binder
            && HoldsBind(en'.requests[r].stage) == HoldsBind(en.requests[r].stage)
            && forall q :: q in en.requests && q != r ==> en'.requests[q] == en.requests[q])
  {
    hide Fresh;
  }

  lemma PassesKeepRequests(env: Env, en: Entry, s: EntryStep)
    requires RequestsOk(en) && Enabled(en, s) && (s.BeginPass? || s.FinishPass?)
    ensures RequestsOk(DoLocal(env, en, s))
  {
    PassEffect(env, en, s);
    hide DoLocal, Enabled;
  }

  lemma LocalKeepsRequests(env: Env, en: Entry, s: EntryStep)
    requires RequestsOk(en) && Enabled(en, s) && Local(s)
    ensures RequestsOk(DoLocal(env, en, s))
  {
    hide RequestsOk, DoLocal, Enabled;
    if s.FastPath? || s.Recheck? || s.TakeSnapshot? || s.BeginPass? || s.FinishPass? {
      GivesKeepRequests(env, en, s);
    } else {
      MovesKeepRequests(env, en, s);
    }
  }

  lemma QuietKeepsShape(env: Env, en: Entry, s: EntryStep, cap: nat, next: Incarnation)
    requires Shape(en, cap, next) && Enabled(en, s) && Quiet(s)
    ensures Shape(DoLocal(env, en, s), cap, next)
  {
    hide DoLocal, Enabled, TasksOk, BornOk, RequestsOk, LedgerOk, SamePool;
    QuietSamePool(env, en, s);
    PoolFrame(en, DoLocal(env, en, s), cap, next);
    LocalKeepsRequests(env, en, s);
  }

  lemma SandboxFailsKeepsShape(env: Env, en: Entry, r: RequestId, cap: nat, next: Incarnation)
    requires Shape(en, cap, next) && Enabled(en, SandboxFails(r))
    ensures Shape(DoSandboxFails(env, en, r), cap, next)
  {
    hide TasksOk, BornOk, RequestsOk, LedgerOk;
    StampAllEffect(en.ledger.(dirty := false, initialized := true), en.requests[r].stage.enabled, ViewOf(env));
    PoolFrame(en, DoSandboxFails(env, en, r), cap, next);
    LocalKeepsRequests(env, en, SandboxFails(r));
  }

  lemma FinishPassKeepsShape(en: Entry, p: PassId, passed: seq<bool>, cap: nat, next: Incarnation)
    requires Shape(en, cap, next) && CanFinish(en, p, passed)
    ensures Shape(DoFinishPass(en, p, passed), cap, next)
  {
    PassRemovesOnlyItsOwn(en.ledger, en.borrows[ByPass(p)], passed);
    PassKeepsUnique(en.ledger, en.borrows[ByPass(p)], passed);
  }

  lemma LocalKeepsShape(env: Env, en: Entry, s: EntryStep, cap: nat, next: Incarnation)
    requires Shape(en, cap, next) && Enabled(en, s) && Local(s)
    ensures Shape(DoLocal(env, en, s), cap, next)
  {
    hide Shape, DoSandboxFails, DoFinishPass;
    if s.SandboxFails? {
      SandboxFailsKeepsShape(env, en, s.request, cap, next);
    } else if s.FinishPass? {
      FinishPassKeepsShape(en, s.pass, s.passed, cap, next);
    } else {
      QuietKeepsShape(env, en, s, cap, next);
    }
  }

  lemma BeginDecideKeepsShape(env: Env, en: Entry, r: RequestId, next: Incarnation)
    requires Shape(en, env.limits.perUser, next) && r in en.requests && en.requests[r].stage.Listed?
    ensures Shape(DoBeginDecide(env, en, r).entry, env.limits.perUser, next)
    ensures DoBeginDecide(env, en, r).nextIncarnation == env.nextIncarnation
  {
    PruneLedgerOk(en.ledger, Elements(en.requests[r].stage.enabled), env.limits.perUser);
  }

  /** What one turn of the block does to the claims of the entry. */
  lemma TurnEffect(env: Env, en: Entry, r: RequestId)
    requires InTurn(en, r)
    ensures var en' := DoDecideNext(env, en, r).entry;
      var id, n := TurnOf(en, r), env.nextIncarnation;
      if VerdictOf(env, en, r).Claim? then
        && id !in en.ledger.connecting
        && en'.ledger == ClaimLedger(en.ledger, ViewOf(env), id)
        && en'.past.claimOf == en.past.claimOf[id := n]
        && en'.tasks == en.tasks[n := Task(id, r, Spawning)]
      else
        && en'.ledger == (if VerdictOf(env, en, r).Keep? then en.ledger else Stamp(en.ledger, ViewOf(env), id))
        && en'.past.claimOf == en.past.claimOf && en'.tasks == en.tasks
  {
    hide Pinned, ReplaceFrees, WithoutFirst;
  }

  lemma TurnKeepsTasks(env: Env, en: Entry, r: RequestId)
    requires TasksOk(en) && InTurn(en, r)
    requires forall i :: i in en.tasks ==> i < env.nextIncarnation
    ensures TasksOk(DoDecideNext(env, en, r).entry)
  {
    hide DoDecideNext, WithoutFirst, VerdictOf;
    TurnEffect(env, en, r);
  }

  lemma TurnKeepsBorn(env: Env, en: Entry, r: RequestId)
    requires BornOk(en, env.nextIncarnation) && r < en.nextRequest && InTurn(en, r)
    requires forall b :: b in DoDecideNext(env, en, r).entry.ledger.backends ==> b in en.ledger.backends
    ensures var o := DoDecideNext(env, en, r); BornOk(o.entry, o.nextIncarnation)
  {
    hide DecideOne, Judge, Pinned;
  }

  lemma TurnKeepsRequests(env: Env, en: Entry, r: RequestId)
    requires RequestsOk(en) && InTurn(en, r)
    ensures RequestsOk(DoDecideNext(env, en, r).entry)
  {
    hide DecideOne, Judge, Pinned;
  }

  lemma DecideNextKeepsShape(env: Env, en: Entry, r: RequestId)
    requires Shape(en, env.limits.perUser, env.nextIncarnation) && InTurn(en, r)
    ensures var o := DoDecideNext(env, en, r); Shape(o.entry, env.limits.perUser, o.nextIncarnation)
  {
    assert r < en.nextRequest;
    assert forall i :: i in en.tasks ==> i < env.nextIncarnation;
    hide TasksOk, BornOk, RequestsOk, LedgerOk, DecideOne, Judge, Pinned;
    DecideOneLedgerOk(DecisionOf(env, en, r), TurnOf(en, r), ViewOf(env), env.limits.perUser, Pinned(en));
    TurnKeepsTasks(env, en, r);
    TurnKeepsBorn(env, en, r);
    TurnKeepsRequests(env, en, r);
  }

  lemma LandKeepsLedger(en: Entry, i: Incarnation, cap: nat)
    requires LedgerOk(en.ledger, cap) && CanLand(en, i) && en.tasks[i].id in en.ledger.connecting
    ensures LedgerOk(Unclaim(en, i).ledger, cap)
  {
    assert |en.ledger.connecting - {en.tasks[i].id}| == |en.ledger.connecting| - 1;
  }

  lemma LandKeepsTasks(en: Entry, i: Incarnation)
    requires TasksOk(en) && CanLand(en, i)
    ensures TasksOk(Unclaim(en, i))
  {
  }

  /** A landing makes at most the arriving backend visible, in the pool and in its capture. */
  lemma LandEffect(env: Env, en: Entry, i: Incarnation)
    requires CanLand(en, i)
    ensures var o := DoLand(env, en, i);
      var arc := Backend(en.tasks[i].id, i);
      && o.entry.ledger == Unclaim(en, i).ledger && o.entry.tasks == en.tasks - {i}
      && o.entry.past.claimOf == Unclaim(en, i).past.claimOf && o.entry.past.born == en.past.born
      && o.entry.nextRequest == en.nextRequest && o.nextIncarnation == env.nextIncarnation
      && (o.entry.ledger.backends == en.ledger.backends || o.entry.ledger.backends == en.ledger.backends + [arc])
      && (o.entry.borrows == en.borrows || o.entry.borrows == en.borrows[ByCapture(i) := [arc]])
  {
  }

  /** Who ends up with the arriving backend's permit. */
  lemma LandCases(env: Env, en: Entry, i: Incarnation)
    requires CanLand(en, i)
    ensures var o := DoLand(env, en, i); var task := en.tasks[i];
      if task.state.Spawned? && task.id in en.ledger.appliedEpochs then
        && o.free == env.free
        && o.entry.ledger.backends == en.ledger.backends + [Backend(task.id, i)]
        && o.entry.borrows == en.borrows[ByCapture(i) := [Backend(task.id, i)]]
      else
        && o.free == (if task.state.Spawned? then env.free + 1 else env.free)
        && o.entry.ledger.backends == en.ledger.backends && o.entry.borrows == en.borrows
  {
  }

  lemma LandKeepsBorn(env: Env, en: Entry, i: Incarnation, next: Incarnation)
    requires BornOk(en, next) && CanLand(en, i)
    ensures BornOk(DoLand(env, en, i).entry, next)
  {
    hide DoLand, Unclaim;
    LandEffect(env, en, i);
  }

  lemma LandKeepsRequests(env: Env, en: Entry, i: Incarnation)
    requires RequestsOk(en) && CanLand(en, i)
    ensures RequestsOk(DoLand(env, en, i).entry)
  {
    hide LandLedger;
  }

  lemma LandKeepsShape(env: Env, en: Entry, i: Incarnation, cap: nat, next: Incarnation)
    requires Shape(en, cap, next) && CanLand(en, i)
    ensures Shape(DoLand(env, en, i).entry, cap, next)
    ensures DoLand(env, en, i).nextIncarnation == env.nextIncarnation
  {
    hide BornOk, RequestsOk, LedgerOk, DoLand;
    LandEffect(env, en, i);
    LandKeepsLedger(en, i, cap);
    LandKeepsTasks(en, i);
    LandKeepsBorn(env, en, i, next);
    LandKeepsRequests(env, en, i);
  }

  lemma ReleaseKeepsShape(en: Entry, k: Borrower, keep: set<Incarnation>, cap: nat, next: Incarnation)
    requires Shape(en, cap, next) && k in en.borrows
    ensures Shape(DoRelease(en, k, keep), cap, next)
  {
    hide TasksOk, BornOk, LedgerOk;
    PoolFrame(en, DoRelease(en, k, keep), cap, next);
  }

  lemma SpawnFailsKeepsShape(env: Env, en: Entry, i: Incarnation, cap: nat, next: Incarnation)
    requires Shape(en, cap, next) && Enabled(en, SpawnFails(i))
    ensures Shape(en.(tasks := en.tasks[i := en.tasks[i].(state := SpawnFailed)]), cap, next)
  {
    hide TasksOk, BornOk, LedgerOk;
    PoolFrame(en, en.(tasks := en.tasks[i := en.tasks[i].(state := SpawnFailed)]), cap, next);
  }

  lemma FreePoolKeepsShape(en: Entry, cap: nat, next: Incarnation)
    requires Shape(en, cap, next)
    ensures Shape(DoFreePool(en), cap, next)
  {
  }

  /** Every step keeps the shape. */
  lemma StepKeepsShape(env: Env, en: Entry, s: EntryStep)
    requires Shape(en, env.limits.perUser, env.nextIncarnation) && Enabled(en, s)
    ensures var o := Do(env, en, s); Shape(o.entry, env.limits.perUser, o.nextIncarnation)
  {
    hide Shape, DoLocal, DoDecideNext, DoLand, DoBeginDecide, DoRelease, DoFreePool, Held;
    match s
    case BeginDecide(r) => BeginDecideKeepsShape(env, en, r, env.nextIncarnation);
    case DecideNext(r) => DecideNextKeepsShape(env, en, r);
    case Land(i) => LandKeepsShape(env, en, i, env.limits.perUser, env.nextIncarnation);
    case SpawnFails(i) => SpawnFailsKeepsShape(env, en, i, env.limits.perUser, env.nextIncarnation);
    case Release(k, keep) => ReleaseKeepsShape(en, k, keep, env.limits.perUser, env.nextIncarnation);
    case FreePool => FreePoolKeepsShape(en, env.limits.perUser, env.nextIncarnation);
    case _ => LocalKeepsShape(env, en, s, env.limits.perUser, env.nextIncarnation);
  }
}
