/** Conservation of slot permits: what a step takes from the semaphore it adds to the permits
    that are out, and what it gives back it removes from them, including backends dropped while
    still borrowed, spawns that fail, and spawns that finish untracked. */
module PoolSlots {
  import opened Wrappers
  import opened PoolLedger
  import opened PoolHeartbeat
  import opened PoolEntry
  import opened PoolShape

  /** Borrower keys are used once, so a new borrow never overwrites an old one. */
  ghost predicate KeysOk(en: Entry) {
    && (forall k :: k in en.borrows ==>
          match k
          case ByRequest(r) => r in en.past.served
          case ByPass(p) => p < en.nextPass
          case ByCapture(i) => i in en.past.everPooled)
    && (forall i :: i in en.past.everPooled ==> i in en.past.born && i !in en.tasks)
  }

  // ------------------------------------------------------------------------------------
  // Counting
  // ------------------------------------------------------------------------------------

  lemma SubsetCard(small: set<Incarnation>, big: set<Incarnation>)
    requires small <= big
    ensures |big - small| == |big| - |small| && |small| <= |big|
  {
    assert big == small + (big - small);
  }

  /** The incarnations whose permits a retain returns. */
  function Dropping(bs: seq<Backend>, keep: set<InstanceId>, pinned: set<Incarnation>): set<Incarnation> {
    set b | b in bs && b.instanceId !in keep && b.incarnation !in pinned :: b.incarnation
  }

  lemma {:induction false} RetainFreesCount(bs: seq<Backend>, keep: set<InstanceId>, pinned: set<Incarnation>)
    requires DistinctArcs(bs)
    ensures RetainFrees(bs, keep, pinned) == |Dropping(bs, keep, pinned)|
  {
    if bs != [] {
      RetainFreesCount(bs[1..], keep, pinned);
      DroppingUnfolds(bs, keep, pinned);
      hide Dropping, DistinctArcs;
    }
  }

  lemma DroppingUnfolds(bs: seq<Backend>, keep: set<InstanceId>, pinned: set<Incarnation>)
    requires bs != [] && DistinctArcs(bs)
    ensures bs[0].incarnation !in Dropping(bs[1..], keep, pinned)
    ensures Dropping(bs, keep, pinned) == Dropping(bs[1..], keep, pinned)
              + if bs[0].instanceId !in keep && bs[0].incarnation !in pinned then {bs[0].incarnation} else {}
  {
    assert forall b :: b in bs <==> b == bs[0] || b in bs[1..];
    assert forall b :: b in bs[1..] ==> b.incarnation != bs[0].incarnation;
  }

  lemma RetainPermits(bs: seq<Backend>, keep: set<InstanceId>, pinned: set<Incarnation>)
    requires DistinctArcs(bs)
    ensures |pinned + Incarnations(bs)| == |pinned + Incarnations(Retain(bs, keep))| + RetainFrees(bs, keep, pinned)
  {
    RetainFreesCount(bs, keep, pinned);
    var before, after, gone := pinned + Incarnations(bs), pinned + Incarnations(Retain(bs, keep)), Dropping(bs, keep, pinned);
    forall i
      ensures i in after <==> i in before && i !in gone
    {
      if i in before && i !in pinned {
        var b :| b in bs && b.incarnation == i;
        assert forall c :: c in bs && c.incarnation == i ==> c == b;
      }
    }
    SubsetCard(after, before);
    assert gone == before - after;
  }

  lemma ReplacePermits(bs: seq<Backend>, id: InstanceId, pinned: set<Incarnation>)
    requires DistinctArcs(bs)
    ensures |pinned + Incarnations(bs)| == |pinned + Incarnations(WithoutFirst(bs, id))| + ReplaceFrees(bs, id, pinned)
    ensures Incarnations(WithoutFirst(bs, id)) <= Incarnations(bs)
  {
    var p := Position(bs, id);
    if p.Some? {
      var rest := WithoutFirst(bs, id);
      RemoveAtElements(bs, p.value);
      var gone := bs[p.value].incarnation;
      forall b | b in rest
        ensures b.incarnation != gone
      {
        var i :| 0 <= i < |rest| && rest[i] == b;
        assert b == bs[if i < p.value then i else i + 1];
      }
      assert Incarnations(bs) == Incarnations(rest) + {gone};
      if gone in pinned {
        assert pinned + Incarnations(bs) == pinned + Incarnations(rest);
      } else {
        assert pinned + Incarnations(bs) == (pinned + Incarnations(rest)) + {gone};
      }
    }
  }

  lemma PooledArcsDistinct(en: Entry, cap: nat, next: Incarnation)
    requires LedgerOk(en.ledger, cap) && BornOk(en, next)
    ensures DistinctArcs(en.ledger.backends)
    ensures forall i :: i in Held(en) ==> i < next
  {
    var bs := en.ledger.backends;
    forall i, j | 0 <= i < j < |bs|
      ensures bs[i].incarnation != bs[j].incarnation
    {
      assert bs[i] in bs && bs[j] in bs;
    }
  }

  // ------------------------------------------------------------------------------------
  // Steps
  // ------------------------------------------------------------------------------------

  /** Borrows are only ever added by the local steps, and tasks keep or lose nothing. */
  lemma LocalBorrowsGrow(env: Env, en: Entry, s: EntryStep)
    requires KeysOk(en) && RequestsOk(en) && Enabled(en, s) && Local(s)
    ensures var en' := DoLocal(env, en, s);
      forall k :: k in en.borrows ==> k in en'.borrows && en'.borrows[k] == en.borrows[k]
  {
    if Gives(s) {
      GivesEffect(env, en, s);
    } else if s.BeginPass? || s.FinishPass? {
      PassEffect(env, en, s);
    } else {
      PlainEffect(env, en, s);
    }
    hide DoLocal, Enabled;
  }

  lemma LocalTasksHeldSame(env: Env, en: Entry, s: EntryStep)
    requires Enabled(en, s) && Local(s)
    ensures TaskHeld(DoLocal(env, en, s)) == TaskHeld(en)
  {
    if Gives(s) {
      GivesEffect(env, en, s);
    } else if s.BeginPass? || s.FinishPass? {
      PassEffect(env, en, s);
    } else {
      PlainEffect(env, en, s);
    }
    hide DoLocal, Enabled;
  }

  /** Requests and passes only clone what is pooled or already borrowed. */
  lemma LocalHoldsSame(env: Env, en: Entry, s: EntryStep)
    requires KeysOk(en) && RequestsOk(en) && Enabled(en, s) && Quiet(s)
    ensures Held(DoLocal(env, en, s)) == Held(en)
  {
    hide DoLocal, Enabled, KeysOk, RequestsOk, TaskHeld;
    QuietSamePool(env, en, s);
    LocalTasksHeldSame(env, en, s);
    LocalBorrowsGrow(env, en, s);
    ClonesHoldNothing(en, DoLocal(env, en, s));
  }

  lemma ClonesHoldNothing(en: Entry, en': Entry)
    requires TaskHeld(en') == TaskHeld(en) && en'.ledger.backends == en.ledger.backends
    requires forall k :: k in en.borrows ==> k in en'.borrows && en'.borrows[k] == en.borrows[k]
    requires forall k, b :: k in en'.borrows && b in en'.borrows[k] ==> b in en.ledger.backends || (k in en.borrows && b in en.borrows[k])
    ensures Held(en') == Held(en)
  {
    hide TaskHeld;
    assert BorrowHeld(en) <= BorrowHeld(en');
    assert BorrowHeld(en') <= BorrowHeld(en) + Incarnations(en.ledger.backends);
    hide BorrowHeld, Incarnations;
  }

  lemma SandboxHoldsSame(env: Env, en: Entry, r: RequestId)
    requires r in en.requests && en.requests[r].stage.Listed?
    ensures Held(DoSandboxFails(env, en, r)) == Held(en)
  {
    StampAllEffect(en.ledger.(dirty := false, initialized := true), en.requests[r].stage.enabled, ViewOf(env));
  }

  lemma FinishHoldsSame(en: Entry, p: PassId, passed: seq<bool>)
    requires CanFinish(en, p, passed)
    ensures Held(DoFinishPass(en, p, passed)) == Held(en)
  {
    var en' := DoFinishPass(en, p, passed);
    var snapshot := en.borrows[ByPass(p)];
    PassRemovesOnlyItsOwn(en.ledger, snapshot, passed);
    assert Pinned(en') == Pinned(en);
    forall b | b in en.ledger.backends && b !in en'.ledger.backends
      ensures b.incarnation in Pinned(en)
    {
      var i :| 0 <= i < |snapshot| && snapshot[i].incarnation == b.incarnation && !passed[i];
      assert snapshot[i] in en.borrows[ByPass(p)];
    }
    hide DoFinishPass;
  }

  lemma BeginDecideConserves(env: Env, en: Entry, r: RequestId)
    requires LedgerOk(en.ledger, env.limits.perUser) && BornOk(en, env.nextIncarnation)
    requires r in en.requests && en.requests[r].stage.Listed?
    ensures var o := DoBeginDecide(env, en, r); o.free + |Held(o.entry)| == env.free + |Held(en)|
  {
    PooledArcsDistinct(en, env.limits.perUser, env.nextIncarnation);
    RetainPermits(en.ledger.backends, Elements(en.requests[r].stage.enabled), Pinned(en));
    assert Pinned(DoBeginDecide(env, en, r).entry) == Pinned(en);
  }

  /** The semaphore across one turn: a claim takes a permit before it drops what it replaces. */
  lemma TurnFree(env: Env, en: Entry, r: RequestId)
    requires InTurn(en, r)
    ensures var o := DoDecideNext(env, en, r);
      && o.entry.borrows == en.borrows
      && o.free == if VerdictOf(env, en, r).Claim?
                   then env.free - 1 + ReplaceFrees(en.ledger.backends, TurnOf(en, r), Pinned(en))
                   else env.free
  {
    hide ReplaceFrees, Pinned, Settled;
  }

  lemma ClaimHoldsTask(en: Entry, en': Entry, n: Incarnation, task: Task)
    requires !task.state.SpawnFailed? && n !in en.tasks && en'.tasks == en.tasks[n := task] && en'.borrows == en.borrows
    ensures TaskHeld(en') == TaskHeld(en) + {n}
    ensures BorrowHeld(en') == BorrowHeld(en)
  {
  }

  lemma ClaimHolds(en: Entry, en': Entry, n: Incarnation, task: Task)
    requires !task.state.SpawnFailed? && n !in Held(en)
    requires en'.tasks == en.tasks[n := task] && n !in en.tasks && en'.borrows == en.borrows
    requires Incarnations(en'.ledger.backends) <= Incarnations(en.ledger.backends)
    ensures |Held(en')| == |Pinned(en) + Incarnations(en'.ledger.backends)| + 1
  {
    ClaimHoldsTask(en, en', n, task);
    hide TaskHeld, BorrowHeld, Incarnations;
    OneMoreHeld(TaskHeld(en), BorrowHeld(en), Incarnations(en'.ledger.backends), Incarnations(en.ledger.backends), n);
  }

  lemma OneMoreHeld(tasks: set<Incarnation>, borrows: set<Incarnation>, pooled: set<Incarnation>, before: set<Incarnation>, n: Incarnation)
    requires n !in tasks + borrows + before && pooled <= before
    ensures |(tasks + {n}) + borrows + pooled| == |tasks + borrows + pooled| + 1
  {
    assert (tasks + {n}) + borrows + pooled == (tasks + borrows + pooled) + {n};
  }

  lemma DecideNextConserves(env: Env, en: Entry, r: RequestId)
    requires LedgerOk(en.ledger, env.limits.perUser) && BornOk(en, env.nextIncarnation) && InTurn(en, r)
    ensures var o := DoDecideNext(env, en, r); o.free + |Held(o.entry)| == env.free + |Held(en)|
  {
    var en' := DoDecideNext(env, en, r).entry;
    var n, id := env.nextIncarnation, TurnOf(en, r);
    PooledArcsDistinct(en, env.limits.perUser, n);
    assert n !in en.tasks;
    TurnEffect(env, en, r);
    TurnFree(env, en, r);
    ReplacePermits(en.ledger.backends, id, Pinned(en));
    hide DoDecideNext, VerdictOf, LedgerOk, BornOk, ReplaceFrees, WithoutFirst, Pinned, Incarnations, DistinctArcs, TurnOf;
    if VerdictOf(env, en, r).Claim? {
      assert en'.ledger.backends == WithoutFirst(en.ledger.backends, id);
      ClaimHolds(en, en', n, Task(id, r, Spawning));
    } else {
      assert en'.ledger.backends == en.ledger.backends;
      assert Held(en') == Held(en) by { SamePartsHeldSame(en, en'); }
    }
  }

  lemma SamePartsHeldSame(en: Entry, en': Entry)
    requires en'.tasks == en.tasks && en'.borrows == en.borrows && en'.ledger.backends == en.ledger.backends
    ensures Held(en') == Held(en)
  {
  }

  lemma FailedTaskHeld(en: Entry, en': Entry, i: Incarnation, broken: Task)
    requires i in en.tasks && !en.tasks[i].state.SpawnFailed? && broken.state.SpawnFailed?
    requires en'.tasks == en.tasks[i := broken]
    ensures TaskHeld(en') == TaskHeld(en) - {i} && i in TaskHeld(en)
  {
  }

  lemma FailedTaskHolds(en: Entry, en': Entry, i: Incarnation, broken: Task)
    requires i in en.tasks && !en.tasks[i].state.SpawnFailed? && broken.state.SpawnFailed?
    requires en'.tasks == en.tasks[i := broken] && en'.borrows == en.borrows && en'.ledger == en.ledger
    requires i !in BorrowHeld(en) && i !in Incarnations(en.ledger.backends)
    ensures |Held(en)| == |Held(en')| + 1
  {
    FailedTaskHeld(en, en', i, broken);
    assert BorrowHeld(en') == BorrowHeld(en);
    hide TaskHeld, BorrowHeld;
    assert Held(en') == Held(en) - {i};
  }

  lemma SpawnFailsConserves(env: Env, en: Entry, i: Incarnation)
    requires BornOk(en, env.nextIncarnation) && Enabled(en, SpawnFails(i))
    ensures var o := Do(env, en, SpawnFails(i)); o.free + |Held(o.entry)| == env.free + |Held(en)|
  {
    TaskIsNotHeldElsewhere(en, i, env.nextIncarnation);
    hide Held, TaskHeld, BorrowHeld, BornOk;
    FailedTaskHolds(en, Do(env, en, SpawnFails(i)).entry, i, en.tasks[i].(state := SpawnFailed));
  }

  /** A task's permit is in the task alone. */
  lemma TaskIsNotHeldElsewhere(en: Entry, i: Incarnation, next: Incarnation)
    requires BornOk(en, next) && i in en.tasks
    ensures i !in BorrowHeld(en) && i !in Incarnations(en.ledger.backends)
  {
  }

  lemma LandPooledHoldsSame(en: Entry, en': Entry, i: Incarnation)
    requires i in en.tasks && !en.tasks[i].state.SpawnFailed? && en'.tasks == en.tasks - {i}
    requires ByCapture(i) !in en.borrows && en'.borrows == en.borrows[ByCapture(i) := [Backend(en.tasks[i].id, i)]]
    requires en'.ledger.backends == en.ledger.backends + [Backend(en.tasks[i].id, i)]
    ensures Held(en') == Held(en)
  {
    var arc := Backend(en.tasks[i].id, i);
    assert TaskHeld(en') == TaskHeld(en) - {i};
    assert Incarnations(en'.ledger.backends) == Incarnations(en.ledger.backends) + {i} by {
      assert arc in en'.ledger.backends;
    }
    assert BorrowHeld(en') == BorrowHeld(en) + {i} by {
      forall k, b | k in en.borrows && b in en.borrows[k]
        ensures b.incarnation in BorrowHeld(en')
      {
        assert k in en'.borrows && b in en'.borrows[k];
      }
      assert ByCapture(i) in en'.borrows && arc in en'.borrows[ByCapture(i)];
    }
  }

  lemma LandUnpooledHolds(en: Entry, en': Entry, i: Incarnation)
    requires i in en.tasks && en'.tasks == en.tasks - {i}
    requires i !in BorrowHeld(en) && i !in Incarnations(en.ledger.backends)
    requires en'.borrows == en.borrows && en'.ledger.backends == en.ledger.backends
    ensures Held(en') == Held(en) - {i}
  {
    assert TaskHeld(en') == TaskHeld(en) - {i};
    assert BorrowHeld(en') == BorrowHeld(en);
  }

  lemma LandConserves(env: Env, en: Entry, i: Incarnation)
    requires BornOk(en, env.nextIncarnation) && KeysOk(en) && CanLand(en, i)
    ensures var o := DoLand(env, en, i); o.free + |Held(o.entry)| == env.free + |Held(en)|
  {
    var en' := DoLand(env, en, i).entry;
    var task := en.tasks[i];
    LandEffect(env, en, i);
    LandCases(env, en, i);
    assert ByCapture(i) !in en.borrows;
    TaskIsNotHeldElsewhere(en, i, env.nextIncarnation);
    assert task.state.SpawnFailed? ==> i !in TaskHeld(en);
    assert !task.state.SpawnFailed? ==> i in TaskHeld(en);
    hide DoLand, BornOk, KeysOk, Unclaim, TaskHeld, BorrowHeld;
    if task.state.Spawned? && task.id in en.ledger.appliedEpochs {
      LandPooledHoldsSame(en, en', i);
    } else {
      LandUnpooledHolds(en, en', i);
    }
  }

  lemma DropsConserve(env: Env, en: Entry, s: EntryStep)
    requires Enabled(en, s) && (s.Release? || s.FreePool?)
    ensures var o := Do(env, en, s); o.free + |Held(o.entry)| == env.free + |Held(en)|
  {
    var en' := if s.Release? then DoRelease(en, s.borrower, s.keep) else DoFreePool(en);
    assert TaskHeld(en') == TaskHeld(en);
    forall k, b | k in en'.borrows && b in en'.borrows[k]
      ensures b.incarnation in BorrowHeld(en)
    {
      assert k in en.borrows && b in en.borrows[k];
    }
    SubsetCard(Held(en'), Held(en));
  }

  /** Free permits plus permits out are the same before and after every step of an entry. */
  lemma StepConserves(env: Env, en: Entry, s: EntryStep)
    requires Shape(en, env.limits.perUser, env.nextIncarnation) && KeysOk(en) && Enabled(en, s)
    ensures var o := Do(env, en, s); o.free + |Held(o.entry)| == env.free + |Held(en)|
  {
    hide KeysOk, LedgerOk, BornOk, RequestsOk, DoLocal, DoDecideNext, DoLand, DoBeginDecide, Held, DropTo;
    match s
    case BeginDecide(r) => BeginDecideConserves(env, en, r);
    case DecideNext(r) => DecideNextConserves(env, en, r);
    case Land(i) => LandConserves(env, en, i);
    case SpawnFails(i) => SpawnFailsConserves(env, en, i);
    case Release(_, _) => DropsConserve(env, en, s);
    case FreePool => DropsConserve(env, en, s);
    case _ => LocalConserves(env, en, s);
  }

  lemma LocalConserves(env: Env, en: Entry, s: EntryStep)
    requires KeysOk(en) && RequestsOk(en) && Enabled(en, s) && Local(s)
    ensures Held(DoLocal(env, en, s)) == Held(en)
  {
    hide KeysOk, RequestsOk, Held;
    if s.FinishPass? {
      FinishHoldsSame(en, s.pass, s.passed);
    } else if s.SandboxFails? {
      SandboxHoldsSame(env, en, s.request);
    } else {
      LocalHoldsSame(env, en, s);
    }
  }

  // ------------------------------------------------------------------------------------
  // Keys
  // ------------------------------------------------------------------------------------

  lemma LocalKeepsKeys(env: Env, en: Entry, s: EntryStep)
    requires KeysOk(en) && Enabled(en, s) && Local(s)
    ensures KeysOk(DoLocal(env, en, s))
  {
    if Gives(s) {
      GivesEffect(env, en, s);
      hide DoLocal, Enabled;
    } else if s.BeginPass? || s.FinishPass? {
      PassEffect(env, en, s);
      hide DoLocal, Enabled;
    } else {
      PlainEffect(env, en, s);
      hide DoLocal, Enabled;
    }
  }

  lemma TurnKeepsKeys(env: Env, en: Entry, r: RequestId)
    requires KeysOk(en) && BornOk(en, env.nextIncarnation) && InTurn(en, r)
    ensures KeysOk(DoDecideNext(env, en, r).entry)
  {
    hide DecideOne, Judge, Pinned;
  }

  lemma LandKeepsKeys(env: Env, en: Entry, i: Incarnation)
    requires KeysOk(en) && BornOk(en, env.nextIncarnation) && CanLand(en, i)
    ensures KeysOk(DoLand(env, en, i).entry)
  {
    hide LandLedger;
  }

  lemma OthersKeepKeys(env: Env, en: Entry, s: EntryStep)
    requires KeysOk(en) && Enabled(en, s) && (s.BeginDecide? || s.SpawnFails? || s.Release? || s.FreePool?)
    ensures KeysOk(Do(env, en, s).entry)
  {
    hide BeginDecision, Held, KeepArcs, Pinned;
  }

  lemma StepKeepsKeys(env: Env, en: Entry, s: EntryStep)
    requires KeysOk(en) && BornOk(en, env.nextIncarnation) && Enabled(en, s)
    ensures KeysOk(Do(env, en, s).entry)
  {
    hide KeysOk, BornOk, DoLocal, DoDecideNext, DoLand, DoBeginDecide, DropTo;
    match s
    case DecideNext(r) => TurnKeepsKeys(env, en, r);
    case Land(i) => LandKeepsKeys(env, en, i);
    case _ =>
      if Local(s) {
        LocalKeepsKeys(env, en, s);
      } else {
        OthersKeepKeys(env, en, s);
      }
  }
}
