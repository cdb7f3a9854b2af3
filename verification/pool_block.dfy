/** The decision block of the protocol, one step per turn, against the decision block as one function:
    with nothing moving in between, the turns come to exactly what the block computes. So what holds
    of the block - and of `PoolInner.Inner.Decide`, which computes it in place - holds of the
    protocol's turns. */
module PoolBlock {
  import opened PoolLedger
  import opened PoolEntry
  import opened PoolShape
  import opened PoolHub
  import opened PoolRuns
  import opened PoolLost
  import opened PoolWalks

  /** The first `k` turns of a block, its opening included. */
  function Turns(e: EntryId, r: RequestId, k: nat): seq<Step> {
    if k == 0 then [In(e, BeginDecide(r))] else Turns(e, r, k - 1) + [In(e, DecideNext(r))]
  }

  predicate AtBlock(h: Hub, e: EntryId, r: RequestId) {
    e < |h.entries| && r in h.entries[e].requests && h.entries[e].requests[r].stage.Listed?
  }

  function ListOf(h: Hub, e: EntryId, r: RequestId): seq<InstanceId>
    requires AtBlock(h, e, r)
  {
    h.entries[e].requests[r].stage.enabled
  }

  /** The block as a function, from what the entry holds, over the first `k` instances. */
  function BlockTo(h: Hub, e: EntryId, r: RequestId, k: nat): Decision
    requires AtBlock(h, e, r) && k <= |ListOf(h, e, r)|
  {
    var en := h.entries[e];
    DecideAll(BeginDecision(en.ledger, h.env.free, ListOf(h, e, r), Pinned(en)),
              ListOf(h, e, r)[..k], ViewOf(h.env), h.env.limits.perUser, Pinned(en))
  }

  /** What the turns have changed outside the ledger: new tasks, under new incarnations. */
  predicate OnlyNewTasks(en: Entry, en': Entry, from: Incarnation) {
    && en'.borrows == en.borrows && en'.alive
    && (forall i :: i in en'.tasks && i < from ==> i in en.tasks && en'.tasks[i] == en.tasks[i])
    && (forall i :: i in en.tasks ==> i in en'.tasks && en'.tasks[i] == en.tasks[i])
  }

  predicate OldArcs(l: Ledger, from: Incarnation) {
    forall b :: b in l.backends ==> b.incarnation < from
  }

  /** After `k` turns of a block that began in `en`, the entry holds what the block has made of it. */
  predicate HasDecided(env: Env, en: Entry, env': Env, en': Entry, r: RequestId, list: seq<InstanceId>, k: nat, d: Decision) {
    && r in en'.requests && en'.requests[r].stage == Deciding(list, k, d.toSpawn)
    && en'.ledger == d.ledger && env'.free == d.free
    && env' == env.(free := env'.free, nextIncarnation := env'.nextIncarnation)
    && env'.nextIncarnation >= env.nextIncarnation
    && OldArcs(d.ledger, env.nextIncarnation) && OnlyNewTasks(en, en', env.nextIncarnation)
  }

  predicate Agrees(h: Hub, h': Hub, e: EntryId, r: RequestId, k: nat)
    requires AtBlock(h, e, r) && k <= |ListOf(h, e, r)|
  {
    && e < |h'.entries|
    && HasDecided(h.env, h.entries[e], h'.env, h'.entries[e], r, ListOf(h, e, r), k, BlockTo(h, e, r, k))
  }

  // ------------------------------------------------------------------------------------
  // One turn
  // ------------------------------------------------------------------------------------

  lemma PinnedBefore(en: Entry, en': Entry, from: Incarnation)
    requires OnlyNewTasks(en, en', from)
    ensures forall i :: i < from ==> (i in Pinned(en') <==> i in Pinned(en))
  {
    assert BorrowHeld(en') == BorrowHeld(en);
    hide BorrowHeld;
  }

  /** A turn does not look at what was skipped before it, nor at pins of other incarnations. */
  lemma SameDecision(d: Decision, d2: Decision, id: InstanceId, v: View, cap: nat, pinned: set<Incarnation>, pinned2: set<Incarnation>)
    requires d2 == d.(skipped := d2.skipped)
    requires forall b :: b in d.ledger.backends ==> (b.incarnation in pinned <==> b.incarnation in pinned2)
    ensures var a, b := DecideOne(d, id, v, cap, pinned), DecideOne(d2, id, v, cap, pinned2);
      a.ledger == b.ledger && a.free == b.free && a.toSpawn == b.toSpawn
  {
    hide Settled, ClaimLedger, Stamp;
    SameVerdict(d, d2, id, v, cap);
    assert ReplaceFrees(d.ledger.backends, id, pinned) == ReplaceFrees(d.ledger.backends, id, pinned2);
    hide ReplaceFrees, Judge;
  }

  lemma SameVerdict(d: Decision, d2: Decision, id: InstanceId, v: View, cap: nat)
    requires d2 == d.(skipped := d2.skipped)
    ensures Judge(d, id, v, cap) == Judge(d2, id, v, cap)
  {
    hide Settled;
  }

  lemma TurnComesTo(env: Env, en: Entry, r: RequestId, d: Decision, pinned: set<Incarnation>)
    requires InTurn(en, r) && en.ledger == d.ledger && env.free == d.free && en.requests[r].stage.toSpawn == d.toSpawn
    requires forall b :: b in en.ledger.backends ==> (b.incarnation in pinned <==> b.incarnation in Pinned(en))
    ensures var o := DoDecideNext(env, en, r);
      var d' := DecideOne(d, TurnOf(en, r), ViewOf(env), env.limits.perUser, pinned);
      var stage := en.requests[r].stage;
      && o.entry.ledger == d'.ledger && o.free == d'.free
      && r in o.entry.requests && o.entry.requests[r].stage == Deciding(stage.enabled, stage.next + 1, d'.toSpawn)
  {
    SameDecision(d, DecisionOf(env, en, r), TurnOf(en, r), ViewOf(env), env.limits.perUser, pinned, Pinned(en));
    hide DecideOne, Pinned, PastOfTurn;
  }

  lemma TurnAddsTask(env: Env, en: Entry, r: RequestId)
    requires InTurn(en, r)
    ensures var o := DoDecideNext(env, en, r);
      && o.entry.borrows == en.borrows && o.entry.alive == en.alive
      && o.nextIncarnation >= env.nextIncarnation
      && (forall i :: i != env.nextIncarnation ==> (i in o.entry.tasks <==> i in en.tasks))
      && (forall i :: i != env.nextIncarnation && i in en.tasks ==> o.entry.tasks[i] == en.tasks[i])
  {
    hide DecideOne, Pinned, PastOfTurn, VerdictOf;
  }

  lemma TurnKeepsOld(env: Env, en: Entry, r: RequestId, from: Incarnation)
    requires InTurn(en, r) && OldArcs(en.ledger, from)
    ensures OldArcs(DoDecideNext(env, en, r).entry.ledger, from)
  {
    DecideOneStays(DecisionOf(env, en, r), TurnOf(en, r), ViewOf(env), env.limits.perUser, Pinned(en));
    hide DecideOne, Pinned, PastOfTurn;
  }

  // ------------------------------------------------------------------------------------
  // All turns
  // ------------------------------------------------------------------------------------

  lemma BlockOpens(h: Hub, e: EntryId, r: RequestId)
    requires HubInv(h) && AtBlock(h, e, r) && Can(h, In(e, BeginDecide(r)))
    ensures Agrees(h, Next(h, In(e, BeginDecide(r))), e, r, 0)
  {
    var en := h.entries[e];
    ArcsAreOld(h, e);
    Opens(h.env, en, r);
    assert ListOf(h, e, r)[..0] == [];
    DecideNone(BeginDecision(en.ledger, h.env.free, ListOf(h, e, r), Pinned(en)), ViewOf(h.env), h.env.limits.perUser, Pinned(en));
    hide HubInv, DecideAll, Pinned, BeginDecision, DoBeginDecide, HasDecided, OldArcs;
  }

  lemma Opens(env: Env, en: Entry, r: RequestId)
    requires r in en.requests && en.requests[r].stage.Listed? && en.alive && OldArcs(en.ledger, env.nextIncarnation)
    ensures var list, o := en.requests[r].stage.enabled, DoBeginDecide(env, en, r);
      HasDecided(env, en, env.(free := o.free, nextIncarnation := o.nextIncarnation), o.entry, r, list, 0,
                 BeginDecision(en.ledger, env.free, list, Pinned(en)))
  {
    hide Pinned, RetainFrees;
  }

  lemma ArcsAreOld(h: Hub, e: EntryId)
    requires HubInv(h) && e < |h.entries|
    ensures OldArcs(h.entries[e].ledger, h.env.nextIncarnation)
  {
    ShapeOf(h, e);
    hide HubInv, LedgerOk, RequestsOk, TasksOk;
  }

  lemma TurnDecides(env: Env, en: Entry, env': Env, en': Entry, r: RequestId, list: seq<InstanceId>, k: nat, d: Decision)
    requires HasDecided(env, en, env', en', r, list, k, d) && k < |list| && env'.nextIncarnation !in en'.tasks
    ensures InTurn(en', r)
    ensures var o := DoDecideNext(env', en', r);
      HasDecided(env, en, env'.(free := o.free, nextIncarnation := o.nextIncarnation), o.entry, r, list, k + 1,
                 DecideOne(d, list[k], ViewOf(env), env.limits.perUser, Pinned(en)))
  {
    PinnedBefore(en, en', env.nextIncarnation);
    TurnComesTo(env', en', r, d, Pinned(en));
    TurnAddsTask(env', en', r);
    TurnKeepsOld(env', en', r, env.nextIncarnation);
    hide DecideOne, Pinned, DoDecideNext;
  }

  lemma NextTurnAgrees(h: Hub, h': Hub, e: EntryId, r: RequestId, k: nat)
    requires HubInv(h') && AtBlock(h, e, r) && k < |ListOf(h, e, r)| && Agrees(h, h', e, r, k)
    ensures Can(h', In(e, DecideNext(r)))
    ensures Agrees(h, Next(h', In(e, DecideNext(r))), e, r, k + 1)
  {
    var en := h.entries[e];
    TasksAreOld(h', e);
    TurnDecides(h.env, en, h'.env, h'.entries[e], r, ListOf(h, e, r), k, BlockTo(h, e, r, k));
    DecideAllStep(BeginDecision(en.ledger, h.env.free, ListOf(h, e, r), Pinned(en)), ListOf(h, e, r), k,
                  ViewOf(h.env), h.env.limits.perUser, Pinned(en));
    CanTurn(h', e, r);
    hide HubInv, DecideAll, DecideOne, Pinned, BeginDecision, DoDecideNext, HasDecided, Can;
  }

  lemma CanTurn(h: Hub, e: EntryId, r: RequestId)
    requires e < |h.entries| && h.entries[e].alive && InTurn(h.entries[e], r)
    ensures Can(h, In(e, DecideNext(r)))
    ensures var o := DoDecideNext(h.env, h.entries[e], r);
      Next(h, In(e, DecideNext(r))) ==
      h.(entries := h.entries[e := o.entry], env := h.env.(free := o.free, nextIncarnation := o.nextIncarnation))
  {
    hide DoDecideNext;
  }

  lemma TasksAreOld(h: Hub, e: EntryId)
    requires HubInv(h) && e < |h.entries|
    ensures h.env.nextIncarnation !in h.entries[e].tasks
  {
    ShapeOf(h, e);
    hide HubInv, LedgerOk, RequestsOk;
  }

  lemma {:induction false} TurnsAgree(h: Hub, e: EntryId, r: RequestId, k: nat)
    requires HubInv(h) && AtBlock(h, e, r) && Can(h, In(e, BeginDecide(r))) && k <= |ListOf(h, e, r)|
    ensures IsRun(h, Turns(e, r, k)) && Agrees(h, After(h, Turns(e, r, k)), e, r, k)
  {
    hide HubInv, Can, Next, Agrees, AtBlock;
    if k == 0 {
      BlockOpens(h, e, r);
      OneStep(h, In(e, BeginDecide(r)));
    } else {
      var before := Turns(e, r, k - 1);
      TurnsAgree(h, e, r, k - 1);
      RunKeepsInv(h, before);
      NextTurnAgrees(h, After(h, before), e, r, k - 1);
      OneStep(After(h, before), In(e, DecideNext(r)));
      RunConcat(h, before, [In(e, DecideNext(r))]);
    }
  }

  lemma OneStep(h: Hub, s: Step)
    requires Can(h, s)
    ensures IsRun(h, [s]) && After(h, [s]) == Next(h, s)
  {
    hide Can, Next;
    assert [s][1..] == [];
  }

  /** The turns of a reconcile, with nothing moving in between, are the block: from every reachable
      state in which a reconcile may decide, they can be taken one after the other over the whole
      list, and then the ledger, the free permits and the instances to spawn are what
      `DecisionBlock` makes of the state the block began in. */
  lemma BlockInTurns(h: Hub, e: EntryId, r: RequestId)
    requires Reachable(h) && AtBlock(h, e, r) && Can(h, In(e, BeginDecide(r)))
    ensures var steps, en := Turns(e, r, |ListOf(h, e, r)|), h.entries[e];
      && IsRun(h, steps)
      && e < |After(h, steps).entries| && r in After(h, steps).entries[e].requests
      && var h' := After(h, steps); var en' := h'.entries[e];
      && var d := DecisionBlock(en.ledger, h.env.free, ListOf(h, e, r), ViewOf(h.env), h.env.limits.perUser, Pinned(en));
      && en'.ledger == d.ledger && h'.env.free == d.free
      && en'.requests[r].stage == Deciding(ListOf(h, e, r), |ListOf(h, e, r)|, d.toSpawn)
      && OnlyNewTasks(en, en', h.env.nextIncarnation)
  {
    ReachableHubInv(h);
    TurnsAgree(h, e, r, |ListOf(h, e, r)|);
    assert ListOf(h, e, r)[..|ListOf(h, e, r)|] == ListOf(h, e, r);
    hide Reachable, HubInv, IsRun, After, Can, Turns, DecideAll, Pinned, BeginDecision, OnlyNewTasks;
  }
}
