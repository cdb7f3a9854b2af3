/** One user's `UserBackends` as a transition system. Every hold of its `inner` mutex is one
    step, except the decision block, which is one step per loop turn: the mutex stays held, but
    the clock, the reload epochs, the semaphore and the transports move in between. What
    happens between two holds (awaits, spawn tasks, heartbeats in flight, borrows) is left to
    the interleaving.

    The fields of `Past`, and `seen`, `spawningThen` and `early` of a request, are history: no
    guard and no other field depends on them. */
module PoolEntry {
  import opened Wrappers
  import opened PoolLedger
  import opened PoolHeartbeat

  type RequestId = nat
  type PassId = nat

  /** What the entry shares with the rest of the hub. */
  datatype Env = Env(
    limits: Limits,
    now: Instant,
    epochs: map<InstanceId, nat>,
    closed: set<Incarnation>,
    free: nat,
    nextIncarnation: Incarnation)

  /** For which instance an incarnation was claimed, at which reload epoch, in whose reconcile. */
  datatype Birth = Birth(id: InstanceId, epoch: nat, batch: RequestId)

  /** A detached spawn task for one instance, started by one reconcile: `spawn_one` is running,
      returned a backend, or returned nothing. */
  datatype Task = Task(id: InstanceId, batch: RequestId, state: TaskState)
  datatype TaskState = Spawning | Spawned | SpawnFailed

  /** Where a call of `backends_for` is. */
  datatype Stage =
    | Entered                                  // holds the entry; before the fast-path check
    | Queued                                   // awaiting the bind lock
    | Bound                                    // holds the bind lock; before the re-check
    | Listing                                  // awaiting the instance list
    | Listed(enabled: seq<InstanceId>)         // awaiting the sandbox
    | Deciding(enabled: seq<InstanceId>, next: nat, toSpawn: seq<InstanceId>) // inside the decision block
    | Waiting                                  // awaiting the spawn tasks, up to the budget
    | Waited                                   // before `initialized` is set
    | Reconciled                               // before the final snapshot

  datatype Request = Request(
    stage: Stage,
    seen: map<InstanceId, nat>,                // reload epochs when the request arrived
    spawningThen: set<Incarnation>,            // spawn tasks outstanding then
    early: bool)                               // its reconcile returned before deciding

  /** Whoever holds `Arc<Backend>` clones outside the pooled vector. */
  datatype Borrower = ByRequest(request: RequestId) | ByPass(pass: PassId) | ByCapture(incarnation: Incarnation)

  /** What a call of `backends_for` returned. */
  datatype Return = Return(
    snapshot: seq<Backend>,
    seen: map<InstanceId, nat>,
    spawningThen: set<Incarnation>,
    early: bool,
    stale: set<InstanceId>,                    // as of the return
    applied: map<InstanceId, nat>)             // the epochs recorded then

  datatype Past = Past(
    born: map<Incarnation, Birth>,
    claimOf: map<InstanceId, Incarnation>,     // the task behind each connecting instance
    stale: set<InstanceId>,                    // skipped, or stamped without a sandbox, since last claimed
    log: seq<HeartbeatEvent>,
    served: map<RequestId, Return>,
    everPooled: set<Incarnation>,
    announced: set<Incarnation>,
    dropped: set<Incarnation>)                 // by a heartbeat pass

  datatype Entry = Entry(
    ledger: Ledger,
    alive: bool,
    binder: Option<RequestId>,                 // who holds the bind lock
    requests: map<RequestId, Request>,
    tasks: map<Incarnation, Task>,
    borrows: map<Borrower, seq<Backend>>,
    passes: set<PassId>,
    late: set<RequestId>,
    nextRequest: RequestId,
    nextPass: PassId,
    past: Past)

  function NewEntry(now: Instant): Entry {
    Entry(EmptyLedger(now), true, None, map[], map[], map[], {}, {}, 0, 0, Past(map[], map[], {}, [], map[], {}, {}, {}))
  }

  function ViewOf(env: Env): View {
    View(env.epochs, env.closed, env.now)
  }

  predicate HoldsBind(s: Stage) {
    !s.Entered? && !s.Queued?
  }

  /** Stages whose code is suspended at an await, where a cancelled request is dropped. */
  predicate Awaits(s: Stage) {
    s.Queued? || s.Listing? || s.Listed? || s.Waiting?
  }

  /** The `inner` mutex is held across steps: the binder is inside the decision block. */
  predicate Locked(en: Entry) {
    en.binder.Some? && en.binder.value in en.requests && en.requests[en.binder.value].stage.Deciding?
  }

  // ------------------------------------------------------------------------------------
  // Who holds slot permits
  // ------------------------------------------------------------------------------------

  function Incarnations(bs: seq<Backend>): set<Incarnation> {
    set b | b in bs :: b.incarnation
  }

  /** Permits inside spawn tasks: a failed spawn has already dropped its permit. */
  function TaskHeld(en: Entry): set<Incarnation> {
    set i | i in en.tasks && !en.tasks[i].state.SpawnFailed?
  }

  function BorrowHeld(en: Entry): set<Incarnation> {
    set k, b | k in en.borrows && b in en.borrows[k] :: b.incarnation
  }

  /** What keeps a permit out even if the pooled vector drops the backend. */
  function Pinned(en: Entry): set<Incarnation> {
    TaskHeld(en) + BorrowHeld(en)
  }

  /** Every incarnation whose permit is out: in a spawn task, or in a backend with a live reference. */
  function Held(en: Entry): set<Incarnation> {
    Pinned(en) + Incarnations(en.ledger.backends)
  }

  // ------------------------------------------------------------------------------------
  // Steps of a request
  // ------------------------------------------------------------------------------------

  /** An entry after a step, with the semaphore and the incarnation counter. */
  datatype Outcome = Outcome(entry: Entry, free: nat, nextIncarnation: Incarnation)

  function WithStage(en: Entry, r: RequestId, stage: Stage): Entry
    requires r in en.requests
  {
    en.(requests := en.requests[r := en.requests[r].(stage := stage)])
  }

  function DoEnter(env: Env, en: Entry): Entry {
    en.(requests := en.requests[en.nextRequest := Request(Entered, env.epochs, en.tasks.Keys, false)],
        nextRequest := en.nextRequest + 1)
  }

  /** `backends_for` returns: the caller borrows a clone of the pooled vector. */
  function Give(en: Entry, r: RequestId): Entry
    requires r in en.requests
  {
    var q := en.requests[r];
    en.(requests := en.requests - {r},
        borrows := en.borrows[ByRequest(r) := en.ledger.backends],
        past := en.past.(served := en.past.served[
          r := Return(en.ledger.backends, q.seen, q.spawningThen, q.early, en.past.stale, en.ledger.appliedEpochs)]))
  }

  function DoFastPath(env: Env, en: Entry, r: RequestId): Entry
    requires r in en.requests
  {
    var touched := en.(ledger := en.ledger.(lastUsed := env.now));
    if Fresh(touched.ledger, ViewOf(env)) then Give(touched, r) else WithStage(touched, r, Queued)
  }

  function DoRecheck(env: Env, en: Entry, r: RequestId): Entry
    requires r in en.requests
  {
    if Fresh(en.ledger, ViewOf(env)) then Give(en, r).(binder := None) else WithStage(en, r, Listing)
  }

  function ReturnEarly(en: Entry, r: RequestId): Entry
    requires r in en.requests
  {
    en.(requests := en.requests[r := en.requests[r].(stage := Reconciled, early := true)])
  }

  function DoSandboxFails(env: Env, en: Entry, r: RequestId): Entry
    requires r in en.requests && en.requests[r].stage.Listed?
  {
    var enabled := en.requests[r].stage.enabled;
    ReturnEarly(en, r).(ledger := SandboxStamp(en.ledger, enabled, ViewOf(env)),
                        past := en.past.(stale := en.past.stale + Elements(enabled)))
  }

  function DoBeginDecide(env: Env, en: Entry, r: RequestId): Outcome
    requires r in en.requests && en.requests[r].stage.Listed?
  {
    var enabled := en.requests[r].stage.enabled;
    var d := BeginDecision(en.ledger, env.free, enabled, Pinned(en));
    Outcome(WithStage(en, r, Deciding(enabled, 0, [])).(
              ledger := d.ledger,
              past := en.past.(log := en.past.log + [Pruned(Elements(enabled))])),
            d.free, env.nextIncarnation)
  }

  predicate InTurn(en: Entry, r: RequestId) {
    && r in en.requests && en.requests[r].stage.Deciding?
    && en.requests[r].stage.next < |en.requests[r].stage.enabled|
  }

  function TurnOf(en: Entry, r: RequestId): InstanceId
    requires InTurn(en, r)
  {
    en.requests[r].stage.enabled[en.requests[r].stage.next]
  }

  /** The loop state of the block that request `r` is in. */
  function DecisionOf(env: Env, en: Entry, r: RequestId): Decision
    requires InTurn(en, r)
  {
    Decision(en.ledger, env.free, en.requests[r].stage.toSpawn, [])
  }

  function VerdictOf(env: Env, en: Entry, r: RequestId): Verdict
    requires InTurn(en, r)
  {
    Judge(DecisionOf(env, en, r), TurnOf(en, r), ViewOf(env), env.limits.perUser)
  }

  /** The history of one turn of the block. */
  function PastOfTurn(env: Env, en: Entry, r: RequestId): Past
    requires InTurn(en, r)
  {
    var id := TurnOf(en, r);
    match VerdictOf(env, en, r)
    case Keep => en.past
    case Skip(_) => en.past.(stale := en.past.stale + {id})
    case Claim => en.past.(
      born := en.past.born[env.nextIncarnation := Birth(id, ReloadEpoch(env.epochs, id), r)],
      claimOf := en.past.claimOf[id := env.nextIncarnation],
      stale := en.past.stale - {id},
      log := en.past.log + [Claimed(id)])
  }

  function DoDecideNext(env: Env, en: Entry, r: RequestId): Outcome
    requires InTurn(en, r)
  {
    var stage := en.requests[r].stage;
    var d := DecideOne(DecisionOf(env, en, r), TurnOf(en, r), ViewOf(env), env.limits.perUser, Pinned(en));
    var claims := VerdictOf(env, en, r).Claim?;
    Outcome(WithStage(en, r, Deciding(stage.enabled, stage.next + 1, d.toSpawn)).(
              ledger := d.ledger,
              tasks := if claims then en.tasks[env.nextIncarnation := Task(TurnOf(en, r), r, Spawning)] else en.tasks,
              past := PastOfTurn(env, en, r)),
            d.free,
            if claims then env.nextIncarnation + 1 else env.nextIncarnation)
  }

  function DoAbandon(en: Entry, r: RequestId): Entry
    requires r in en.requests
  {
    en.(requests := en.requests - {r},
        binder := if HoldsBind(en.requests[r].stage) then None else en.binder)
  }

  // ------------------------------------------------------------------------------------
  // Steps of spawn tasks, heartbeat passes and borrowers
  // ------------------------------------------------------------------------------------

  predicate CanLand(en: Entry, i: Incarnation) {
    i in en.tasks && !en.tasks[i].state.Spawning? && !Locked(en)
  }

  function Unclaim(en: Entry, i: Incarnation): Entry
    requires CanLand(en, i)
  {
    var task := en.tasks[i];
    en.(ledger := LandLedger(en.ledger, task.id, if task.state.Spawned? then Some(i) else None),
        tasks := en.tasks - {i},
        past := en.past.(claimOf := en.past.claimOf - {task.id}))
  }

  /** A spawn task reports back. A pooled backend's capabilities capture holds a clone, and it
      announces itself if its batch is late; an untracked one is dropped with its permit. */
  function DoLand(env: Env, en: Entry, i: Incarnation): Outcome
    requires CanLand(en, i)
  {
    var task := en.tasks[i];
    var landed := Unclaim(en, i);
    if task.state.SpawnFailed? then Outcome(landed, env.free, env.nextIncarnation)
    else if task.id in en.ledger.appliedEpochs then
      Outcome(landed.(borrows := en.borrows[ByCapture(i) := [Backend(task.id, i)]],
                      past := landed.past.(
                        everPooled := en.past.everPooled + {i},
                        announced := if task.batch in en.late then en.past.announced + {i} else en.past.announced)),
              env.free, env.nextIncarnation)
    else Outcome(landed, env.free + 1, env.nextIncarnation)
  }

  function DoBeginPass(en: Entry): Entry {
    en.(passes := en.passes + {en.nextPass},
        borrows := en.borrows[ByPass(en.nextPass) := en.ledger.backends],
        nextPass := en.nextPass + 1)
  }

  predicate CanFinish(en: Entry, p: PassId, passed: seq<bool>) {
    p in en.passes && ByPass(p) in en.borrows && |en.borrows[ByPass(p)]| == |passed| && !Locked(en)
  }

  function DoFinishPass(en: Entry, p: PassId, passed: seq<bool>): Entry
    requires CanFinish(en, p, passed)
  {
    var snapshot := en.borrows[ByPass(p)];
    var l := BeatAll(en.ledger, snapshot, passed);
    en.(ledger := l,
        passes := en.passes - {p},
        past := en.past.(
          log := en.past.log + BeatLog(en.ledger, snapshot, passed),
          dropped := en.past.dropped + (Incarnations(en.ledger.backends) - Incarnations(l.backends))))
  }

  function KeepArcs(bs: seq<Backend>, keep: set<Incarnation>): (r: seq<Backend>)
    ensures forall b :: b in r <==> b in bs && b.incarnation in keep
  {
    if bs == [] then []
    else (if bs[0].incarnation in keep then [bs[0]] else []) + KeepArcs(bs[1..], keep)
  }

  /** A borrower drops its clones, all of them or all but `keep`. */
  function DoRelease(en: Entry, k: Borrower, keep: set<Incarnation>): Entry
    requires k in en.borrows
  {
    en.(borrows := en.borrows[k := KeepArcs(en.borrows[k], keep)])
  }

  /** Nobody holds the `Arc<UserBackends>` any more, apart from the pool's own map. */
  predicate Unreferenced(en: Entry) {
    en.requests == map[] && en.tasks == map[] && en.passes == {}
  }

  function DoFreePool(en: Entry): Entry {
    en.(alive := false, ledger := en.ledger.(backends := []))
  }

  /** Dropping references: the drop of the last reference to a backend returns its permit. */
  function DropTo(env: Env, en: Entry, en': Entry): Outcome {
    Outcome(en', env.free + |Held(en) - Held(en')|, env.nextIncarnation)
  }

  // ------------------------------------------------------------------------------------
  // All steps
  // ------------------------------------------------------------------------------------

  datatype EntryStep =
    | Enter
    | MarkDirty
    | FastPath(request: RequestId)
    | TakeBind(request: RequestId)
    | Recheck(request: RequestId)
    | ListFails(request: RequestId)
    | ListReturns(request: RequestId, enabled: seq<InstanceId>)
    | SandboxFails(request: RequestId)
    | BeginDecide(request: RequestId)
    | DecideNext(request: RequestId)
    | EndDecide(request: RequestId)
    | WaitDone(request: RequestId)
    | BudgetExpires(request: RequestId)
    | MarkInitialized(request: RequestId)
    | TakeSnapshot(request: RequestId)
    | Abandon(request: RequestId)
    | SpawnSucceeds(incarnation: Incarnation)
    | SpawnFails(incarnation: Incarnation)
    | Land(incarnation: Incarnation)
    | BeginPass
    | FinishPass(pass: PassId, passed: seq<bool>)
    | Release(borrower: Borrower, keep: set<Incarnation>)
    | FreePool

  predicate At(en: Entry, s: EntryStep, r: RequestId) {
    r in en.requests &&
    var stage := en.requests[r].stage;
    match s
    case FastPath(_) => stage.Entered? && !Locked(en)
    case TakeBind(_) => stage.Queued? && en.binder.None?
    case Recheck(_) => stage.Bound? && !Locked(en)
    case ListFails(_) => stage.Listing?
    case ListReturns(_, _) => stage.Listing?
    case SandboxFails(_) => stage.Listed? && !Locked(en)
    case BeginDecide(_) => stage.Listed? && !Locked(en)
    case DecideNext(_) => stage.Deciding? && stage.next < |stage.enabled|
    case EndDecide(_) => stage.Deciding? && stage.next >= |stage.enabled|
    case WaitDone(_) => stage.Waiting? && forall i | i in en.tasks :: en.tasks[i].batch != r
    case BudgetExpires(_) => stage.Waiting?
    case MarkInitialized(_) => stage.Waited? && !Locked(en)
    case TakeSnapshot(_) => stage.Reconciled? && !Locked(en)
    case Abandon(_) => Awaits(stage)
    case _ => false
  }

  predicate Enabled(en: Entry, s: EntryStep) {
    && (en.alive || s.Release?)
    && match s
       case Enter => true
       case MarkDirty => !Locked(en)
       case SpawnSucceeds(i) => i in en.tasks && en.tasks[i].state.Spawning?
       case SpawnFails(i) => i in en.tasks && en.tasks[i].state.Spawning?
       case Land(i) => CanLand(en, i)
       case BeginPass => !Locked(en)
       case FinishPass(p, passed) => CanFinish(en, p, passed)
       case Release(k, _) => k in en.borrows && (k.ByPass? ==> k.pass !in en.passes)
       case FreePool => Unreferenced(en)
       case _ => At(en, s, s.request)
  }

  /** Steps that touch neither the semaphore nor the incarnation counter. */
  predicate Local(s: EntryStep) {
    !s.BeginDecide? && !s.DecideNext? && !s.SpawnFails? && !s.Land? && !s.Release? && !s.FreePool?
  }

  function DoLocal(env: Env, en: Entry, s: EntryStep): Entry
    requires Enabled(en, s) && Local(s)
  {
    match s
    case Enter => DoEnter(env, en)
    case MarkDirty => en.(ledger := en.ledger.(dirty := true))
    case FastPath(r) => DoFastPath(env, en, r)
    case TakeBind(r) => WithStage(en, r, Bound).(binder := Some(r))
    case Recheck(r) => DoRecheck(env, en, r)
    case ListFails(r) => ReturnEarly(en, r)
    case ListReturns(r, enabled) => WithStage(en, r, Listed(enabled))
    case SandboxFails(r) => DoSandboxFails(env, en, r)
    case EndDecide(r) => WithStage(en, r, Waiting)
    case WaitDone(r) => WithStage(en, r, Waited)
    case BudgetExpires(r) => WithStage(en, r, Waited).(late := en.late + {r})
    case MarkInitialized(r) => WithStage(en, r, Reconciled).(ledger := en.ledger.(initialized := true))
    case TakeSnapshot(r) => Give(en, r).(binder := None)
    case Abandon(r) => DoAbandon(en, r)
    case SpawnSucceeds(i) => en.(tasks := en.tasks[i := en.tasks[i].(state := Spawned)])
    case BeginPass => DoBeginPass(en)
    case FinishPass(p, passed) => DoFinishPass(en, p, passed)
  }

  function Do(env: Env, en: Entry, s: EntryStep): Outcome
    requires Enabled(en, s)
  {
    if Local(s) then Outcome(DoLocal(env, en, s), env.free, env.nextIncarnation)
    else match s
      case BeginDecide(r) => DoBeginDecide(env, en, r)
      case DecideNext(r) => DoDecideNext(env, en, r)
      case SpawnFails(i) => Outcome(en.(tasks := en.tasks[i := en.tasks[i].(state := SpawnFailed)]), env.free + 1, env.nextIncarnation)
      case Land(i) => DoLand(env, en, i)
      case Release(k, keep) => DropTo(env, en, DoRelease(en, k, keep))
      case FreePool => DropTo(env, en, DoFreePool(en))
  }
}
