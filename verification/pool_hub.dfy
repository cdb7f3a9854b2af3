/** The whole pool: every user's entry, the reload epochs, the clock and the semaphore, and the
    invariants of `PoolShape`, `PoolSlots`, `PoolRestart`, `PoolLate` and `PoolStrikes` in every
    state of every run. An entry is never forgotten: one that was reaped or replaced goes on in
    the sequence for as long as its tasks and borrowers do. */
module PoolHub {
  import opened PoolLedger
  import opened PoolHeartbeat
  import opened PoolEntry
  import opened PoolShape
  import opened PoolSlots
  import opened PoolRestart
  import opened PoolLate
  import opened PoolStrikes

  type UserId = string
  type EntryId = nat

  datatype Hub = Hub(env: Env, users: map<UserId, EntryId>, entries: seq<Entry>)

  function Start(limits: Limits, now: Instant): Hub {
    Hub(Env(limits, now, map[], {}, limits.global, 0), map[], [])
  }

  datatype Step =
    | Tick(elapsed: nat)
    | BumpReload(id: InstanceId)
    | CloseTransport(incarnation: Incarnation)
    | Arrive(user: UserId)
    | Reap(user: UserId, idle: nat)
    | In(entry: EntryId, step: EntryStep)

  function EpochOf(h: Hub, id: InstanceId): nat {
    ReloadEpoch(h.env.epochs, id)
  }

  /** `bump_reload`: the Restart button, config edits and rebuilds. */
  function Bumped(epochs: map<InstanceId, nat>, id: InstanceId): map<InstanceId, nat> {
    epochs[id := ReloadEpoch(epochs, id) + 1]
  }

  predicate Live(h: Hub, e: EntryId) {
    e < |h.entries| && h.entries[e].alive
  }

  predicate Can(h: Hub, s: Step) {
    match s
    case Tick(_) => true
    case BumpReload(_) => true
    case CloseTransport(i) => i < h.env.nextIncarnation
    case Arrive(u) => u in h.users ==> Live(h, h.users[u])
    case Reap(u, idle) =>
      && u in h.users && Live(h, h.users[u]) && !Locked(h.entries[h.users[u]])
      && h.env.now >= h.entries[h.users[u]].ledger.lastUsed + idle
    case In(e, step) =>
      && e < |h.entries| && Enabled(h.entries[e], step) && !step.Enter?
      && (step.MarkDirty? ==> e in h.users.Values)
      && (step.FreePool? ==> e !in h.users.Values)
  }

  /** The entry a user's request lands in, created on demand. */
  function EntryFor(h: Hub, u: UserId): EntryId {
    if u in h.users then h.users[u] else |h.entries|
  }

  function EntryOrNew(h: Hub, e: EntryId): Entry {
    if e < |h.entries| then h.entries[e] else NewEntry(h.env.now)
  }

  function WithOutcome(h: Hub, e: EntryId, o: Outcome): Hub
    requires e < |h.entries|
  {
    h.(entries := h.entries[e := o.entry], env := h.env.(free := o.free, nextIncarnation := o.nextIncarnation))
  }

  function ArriveAt(h: Hub, u: UserId): Hub
    requires Can(h, Arrive(u))
  {
    var e := EntryFor(h, u);
    var entered := DoEnter(h.env, EntryOrNew(h, e));
    h.(users := h.users[u := e],
       entries := if e < |h.entries| then h.entries[e := entered] else h.entries + [entered])
  }

  function Next(h: Hub, s: Step): Hub
    requires Can(h, s)
  {
    match s
    case Tick(elapsed) => h.(env := h.env.(now := h.env.now + elapsed))
    case BumpReload(id) => h.(env := h.env.(epochs := Bumped(h.env.epochs, id)))
    case CloseTransport(i) => h.(env := h.env.(closed := h.env.closed + {i}))
    case Arrive(u) => ArriveAt(h, u)
    case Reap(u, _) => h.(users := h.users - {u})
    case In(e, step) => WithOutcome(h, e, Do(h.env, h.entries[e], step))
  }

  // ------------------------------------------------------------------------------------
  // Runs
  // ------------------------------------------------------------------------------------

  /** `steps` can be taken one after the other from `h`. */
  predicate IsRun(h: Hub, steps: seq<Step>)
    decreases steps
  {
    steps == [] || (Can(h, steps[0]) && IsRun(Next(h, steps[0]), steps[1..]))
  }

  function After(h: Hub, steps: seq<Step>): Hub
    requires IsRun(h, steps)
    decreases steps
  {
    if steps == [] then h else After(Next(h, steps[0]), steps[1..])
  }

  // ------------------------------------------------------------------------------------
  // Invariants of one entry, and of all
  // ------------------------------------------------------------------------------------

  ghost predicate EntryInv(env: Env, en: Entry) {
    && Shape(en, env.limits.perUser, env.nextIncarnation)
    && KeysOk(en)
    && RestartInv(env.epochs, en)
    && LateInv(en)
    && StrikesInv(en)
  }

  /** The environment moving on: epochs and the incarnation counter only grow. */
  ghost predicate Later(env: Env, env': Env) {
    && env'.limits == env.limits
    && env.nextIncarnation <= env'.nextIncarnation
    && forall id :: ReloadEpoch(env.epochs, id) <= ReloadEpoch(env'.epochs, id)
  }

  lemma LaterEntryInv(env: Env, env': Env, en: Entry)
    requires EntryInv(env, en) && Later(env, env')
    ensures EntryInv(env', en)
  {
    hide Shape, RestartInv, LateInv, StrikesInv, KeysOk;
    LaterShape(en, env.limits.perUser, env.nextIncarnation, env'.nextIncarnation);
    LaterRestart(env.epochs, env'.epochs, en);
  }

  lemma StepKeepsEntryInv(env: Env, en: Entry, s: EntryStep)
    requires EntryInv(env, en) && Enabled(en, s)
    ensures var o := Do(env, en, s);
      EntryInv(env.(free := o.free, nextIncarnation := o.nextIncarnation), o.entry)
  {
    hide LedgerOk, TasksOk, BornOk, RequestsOk, RestartInv, LateInv, StrikesInv, KeysOk, Do, Enabled;
    StepKeepsShape(env, en, s);
    StepKeepsKeys(env, en, s);
    StepKeepsRestart(env, en, s);
    StepKeepsLate(env, en, s);
    StepKeepsStrikes(env, en, s);
  }

  lemma NewEntryInv(env: Env)
    ensures EntryInv(env, NewEntry(env.now))
  {
    hide Shape, RestartInv, LateInv, StrikesInv;
    NewEntryShape(env.now, env.limits.perUser, env.nextIncarnation);
    NewEntryRestart(env.epochs, env.now);
    NewEntryLate(env.now);
    NewEntryStrikes(env.now);
  }

  /** The counter never runs backwards. */
  lemma StepCounts(env: Env, en: Entry, s: EntryStep)
    requires Enabled(en, s)
    ensures env.nextIncarnation <= Do(env, en, s).nextIncarnation
  {
    hide DoLocal, DecideOne, Judge, PastOfTurn, BeginDecision, Pinned, LandLedger, Held, KeepArcs;
  }

  ghost predicate HubInv(h: Hub) {
    && (forall u :: u in h.users ==> Live(h, h.users[u]))
    && (forall e :: 0 <= e < |h.entries| ==> EntryInv(h.env, h.entries[e]))
  }

  lemma StartInv(limits: Limits, now: Instant)
    ensures HubInv(Start(limits, now))
  {
  }

  lemma EnvKeepsInv(h: Hub, env: Env)
    requires HubInv(h) && Later(h.env, env)
    ensures HubInv(h.(env := env))
  {
    hide EntryInv;
    forall e | 0 <= e < |h.entries|
      ensures EntryInv(env, h.entries[e])
    {
      LaterEntryInv(h.env, env, h.entries[e]);
    }
  }

  lemma StaysAlive(env: Env, en: Entry, s: EntryStep)
    requires Enabled(en, s) && !s.FreePool?
    ensures Do(env, en, s).entry.alive == en.alive
  {
    hide DecideOne, Judge, PastOfTurn, BeginDecision, Pinned, LandLedger, Held, KeepArcs, BeatAll, BeatLog, SandboxStamp;
  }

  lemma InKeepsInv(h: Hub, e: EntryId, s: EntryStep)
    requires HubInv(h) && Can(h, In(e, s))
    ensures HubInv(Next(h, In(e, s)))
  {
    hide EntryInv, Enabled, Do;
    var o := Do(h.env, h.entries[e], s);
    var env := h.env.(free := o.free, nextIncarnation := o.nextIncarnation);
    StepKeepsEntryInv(h.env, h.entries[e], s);
    StepCounts(h.env, h.entries[e], s);
    if !s.FreePool? {
      StaysAlive(h.env, h.entries[e], s);
    }
    forall e' | 0 <= e' < |h.entries| && e' != e
      ensures EntryInv(env, h.entries[e'])
    {
      LaterEntryInv(h.env, env, h.entries[e']);
    }
  }

  lemma ArriveKeepsInv(h: Hub, u: UserId)
    requires HubInv(h) && Can(h, Arrive(u))
    ensures HubInv(Next(h, Arrive(u)))
  {
    hide EntryInv;
    var en := EntryOrNew(h, EntryFor(h, u));
    if u !in h.users {
      NewEntryInv(h.env);
    }
    assert EntryInv(h.env, en) && en.alive;
    StepKeepsEntryInv(h.env, en, EntryStep.Enter);
    assert Do(h.env, en, EntryStep.Enter) == Outcome(DoEnter(h.env, en), h.env.free, h.env.nextIncarnation);
    assert h.env.(free := h.env.free, nextIncarnation := h.env.nextIncarnation) == h.env;
  }

  lemma StepKeepsInv(h: Hub, s: Step)
    requires HubInv(h) && Can(h, s)
    ensures HubInv(Next(h, s))
  {
    hide EntryInv, Do, Enabled;
    match s
    case Tick(elapsed) => EnvKeepsInv(h, h.env.(now := h.env.now + elapsed));
    case BumpReload(id) => EnvKeepsInv(h, h.env.(epochs := Bumped(h.env.epochs, id)));
    case CloseTransport(i) => EnvKeepsInv(h, h.env.(closed := h.env.closed + {i}));
    case Arrive(u) => ArriveKeepsInv(h, u);
    case Reap(_, _) =>
    case In(e, step) => InKeepsInv(h, e, step);
  }

  lemma {:induction false} RunKeepsInv(h: Hub, steps: seq<Step>)
    requires HubInv(h) && IsRun(h, steps)
    ensures HubInv(After(h, steps))
    decreases steps
  {
    hide HubInv, Can, Next;
    if steps != [] {
      StepKeepsInv(h, steps[0]);
      RunKeepsInv(Next(h, steps[0]), steps[1..]);
    }
  }

  /** In every state of every run the invariants hold of every entry. */
  lemma ReachableInv(limits: Limits, now: Instant, steps: seq<Step>, e: EntryId)
    requires IsRun(Start(limits, now), steps)
    requires e < |After(Start(limits, now), steps).entries|
    ensures var h := After(Start(limits, now), steps); EntryInv(h.env, h.entries[e])
  {
    hide EntryInv, IsRun, After;
    StartInv(limits, now);
    RunKeepsInv(Start(limits, now), steps);
  }

  // ------------------------------------------------------------------------------------
  // Slot permits
  // ------------------------------------------------------------------------------------

  /** Permits out, over all entries. */
  function PermitsOut(entries: seq<Entry>): nat {
    if entries == [] then 0 else |Held(entries[0])| + PermitsOut(entries[1..])
  }

  lemma {:induction false} PermitsOutUpdate(entries: seq<Entry>, e: nat, en: Entry)
    requires e < |entries|
    ensures PermitsOut(entries[e := en]) + |Held(entries[e])| == PermitsOut(entries) + |Held(en)|
  {
    hide Held;
    if e == 0 {
      assert entries[0 := en][1..] == entries[1..];
    } else {
      PermitsOutUpdate(entries[1..], e - 1, en);
      assert entries[e := en][1..] == entries[1..][e - 1 := en];
    }
  }

  lemma {:induction false} PermitsOutAppend(entries: seq<Entry>, en: Entry)
    ensures PermitsOut(entries + [en]) == PermitsOut(entries) + |Held(en)|
  {
    hide Held;
    if entries == [] {
      assert [en][1..] == [];
    } else {
      PermitsOutAppend(entries[1..], en);
      assert (entries + [en])[1..] == entries[1..] + [en];
    }
  }

  ghost predicate Conserved(h: Hub) {
    h.env.free + PermitsOut(h.entries) == h.env.limits.global
  }

  lemma EnterHoldsSame(env: Env, en: Entry)
    ensures Held(DoEnter(env, en)) == Held(en)
    ensures Held(NewEntry(env.now)) == {}
  {
  }

  lemma StepConservesSlots(h: Hub, s: Step)
    requires HubInv(h) && Conserved(h) && Can(h, s)
    ensures Conserved(Next(h, s))
  {
    hide Held, Do, Enabled, Shape, KeysOk, RestartInv, LateInv, StrikesInv, DoEnter, NewEntry;
    if s.Arrive? {
      var e := EntryFor(h, s.user);
      var en := EntryOrNew(h, e);
      EnterHoldsSame(h.env, en);
      if e < |h.entries| {
        PermitsOutUpdate(h.entries, e, DoEnter(h.env, en));
      } else {
        PermitsOutAppend(h.entries, DoEnter(h.env, en));
      }
    } else if s.In? {
      assert EntryInv(h.env, h.entries[s.entry]);
      StepConserves(h.env, h.entries[s.entry], s.step);
      PermitsOutUpdate(h.entries, s.entry, Do(h.env, h.entries[s.entry], s.step).entry);
    }
  }

  lemma LimitsFixed(h: Hub, s: Step)
    requires Can(h, s)
    ensures Next(h, s).env.limits == h.env.limits
  {
    hide Do, Enabled, DoEnter;
  }

  lemma {:induction false} RunConservesSlots(h: Hub, steps: seq<Step>)
    requires HubInv(h) && Conserved(h) && IsRun(h, steps)
    ensures Conserved(After(h, steps)) && After(h, steps).env.limits == h.env.limits
    decreases steps
  {
    hide HubInv, Conserved, Can, Next;
    if steps != [] {
      StepConservesSlots(h, steps[0]);
      StepKeepsInv(h, steps[0]);
      LimitsFixed(h, steps[0]);
      RunConservesSlots(Next(h, steps[0]), steps[1..]);
    }
  }

  /** Free permits plus the permits of spawn tasks and of backends with any live reference are
      the configured maximum, in every state of every run. */
  lemma SlotConservation(limits: Limits, now: Instant, steps: seq<Step>)
    requires IsRun(Start(limits, now), steps)
    ensures var h := After(Start(limits, now), steps);
      h.env.free + PermitsOut(h.entries) == limits.global
  {
    hide IsRun, After, HubInv;
    StartInv(limits, now);
    RunConservesSlots(Start(limits, now), steps);
  }
}
