/** `Inner`, updated in place under its mutex, and the hub-wide slot semaphore. Every method is
    one critical section of the pool and is proved against the functions of `PoolLedger` and
    `PoolHeartbeat`. */
module PoolInner {
  import opened Wrappers
  import opened PoolLedger
  import opened PoolHeartbeat

  /** The semaphore of global backend slots. */
  class Semaphore {
    var available: nat

    constructor (permits: nat)
      ensures available == permits
    {
      available := permits;
    }

    method TryAcquire() returns (acquired: bool)
      modifies this
      ensures acquired == (old(available) > 0)
      ensures available == if acquired then old(available) - 1 else old(available)
    {
      acquired := available > 0;
      if acquired { available := available - 1; }
    }

    method Release()
      modifies this
      ensures available == old(available) + 1
    {
      available := available + 1;
    }
  }

  class Inner {
    var initialized: bool
    var dirty: bool
    var backends: seq<Backend>
    var appliedEpochs: map<InstanceId, nat>
    var connecting: set<InstanceId>
    var lastAttempt: map<InstanceId, Instant>
    var heartbeatFailures: map<InstanceId, nat>
    var lastUsed: Instant

    ghost function State(): Ledger
      reads this
    {
      Ledger(initialized, dirty, backends, appliedEpochs, connecting, lastAttempt, heartbeatFailures, lastUsed)
    }

    constructor (now: Instant)
      ensures State() == EmptyLedger(now)
    {
      initialized, dirty, backends, appliedEpochs := false, false, [], map[];
      connecting, lastAttempt, heartbeatFailures, lastUsed := {}, map[], map[], now;
    }

    /** The per-request hot path: a scan over the tracked instances. */
    method IsFresh(v: View) returns (isFresh: bool)
      ensures isFresh == Fresh(State(), v)
    {
      if !initialized || dirty {
        return false;
      }
      var todo := appliedEpochs.Keys;
      while todo != {}
        invariant todo <= appliedEpochs.Keys
        invariant forall id :: id in appliedEpochs && id !in todo ==>
          && ReloadEpoch(v.epochs, id) == appliedEpochs[id]
          && (id in connecting || Healthy(State(), v.closed, id) || !RetryDue(State(), v.now, id))
      {
        var id :| id in todo;
        todo := todo - {id};
        if ReloadEpoch(v.epochs, id) != appliedEpochs[id] {
          return false;
        }
        if id in connecting {
          continue;
        }
        var healthy := exists b | b in backends :: b.instanceId == id && b.incarnation !in v.closed;
        if !healthy && (id !in lastAttempt || v.now >= lastAttempt[id] + RESPAWN_BACKOFF) {
          return false;
        }
      }
      return true;
    }

    method MarkDirty()
      modifies this
      ensures State() == old(State()).(dirty := true)
    {
      dirty := true;
    }

    method Touch(now: Instant)
      modifies this
      ensures State() == old(State()).(lastUsed := now)
    {
      lastUsed := now;
    }

    /** Drop every backend whose instance is not in `keep`, freeing the permits nobody else holds. */
    method RetainBackends(keep: set<InstanceId>, slots: Semaphore, pinned: set<Incarnation>)
      modifies this`backends, slots
      ensures backends == Retain(old(backends), keep)
      ensures slots.available == old(slots.available) + RetainFrees(old(backends), keep, pinned)
    {
      hide Retain, RetainFrees;
      var kept: seq<Backend> := [];
      var i := 0;
      while i < |backends|
        invariant 0 <= i <= |backends| && backends == old(backends)
        invariant kept + Retain(backends[i..], keep) == Retain(backends, keep)
        invariant slots.available + RetainFrees(backends[i..], keep, pinned)
               == old(slots.available) + RetainFrees(backends, keep, pinned)
      {
        var b := backends[i];
        RetainFrom(backends, i, keep, pinned);
        if b.instanceId in keep {
          kept := kept + [b];
        } else if b.incarnation !in pinned {
          slots.Release();
        }
        i := i + 1;
      }
      RetainNothing(keep, pinned);
      assert backends[i..] == [];
      backends := kept;
    }

    /** The first lines of the decision block. */
    method DropDisabled(enabledIds: set<InstanceId>, slots: Semaphore, pinned: set<Incarnation>)
      modifies this, slots
      ensures State() == Prune(old(State()), enabledIds)
      ensures slots.available == old(slots.available) + RetainFrees(old(backends), enabledIds, pinned)
    {
      hide Retain, RetainFrees;
      dirty := false;
      RetainBackends(enabledIds, slots, pinned);
      appliedEpochs := map id | id in appliedEpochs && id in enabledIds :: appliedEpochs[id];
      heartbeatFailures := map id | id in heartbeatFailures && id in enabledIds :: heartbeatFailures[id];
    }

    /** The decision block of a reconcile: keep healthy current backends, drop the rest, and
        claim what to spawn. `pinned` are the incarnations somebody else still references. */
    method Decide(enabled: seq<InstanceId>, v: View, cap: nat, slots: Semaphore, pinned: set<Incarnation>)
      returns (toSpawn: seq<InstanceId>, skipped: seq<(InstanceId, SkipReason)>)
      modifies this, slots
      ensures Decision(State(), slots.available, toSpawn, skipped)
           == DecisionBlock(old(State()), old(slots.available), enabled, v, cap, pinned)
    {
      hide Prune, RetainFrees, DecideOne, DecideAll;
      ghost var begun := BeginDecision(State(), slots.available, enabled, pinned);
      var enabledIds := Elements(enabled);
      toSpawn, skipped := [], [];
      DropDisabled(enabledIds, slots, pinned);
      assert Decision(State(), slots.available, [], []) == begun;
      hide BeginDecision;
      DecideNone(begun, v, cap, pinned);
      assert enabled[..0] == [];
      var k := 0;
      while k < |enabled|
        invariant 0 <= k <= |enabled|
        invariant Decision(State(), slots.available, toSpawn, skipped) == DecideAll(begun, enabled[..k], v, cap, pinned)
      {
        DecideAllStep(begun, enabled, k, v, cap, pinned);
        toSpawn, skipped := DecideInstance(enabled[k], v, cap, slots, pinned, toSpawn, skipped);
        k := k + 1;
      }
      assert enabled[..k] == enabled;
    }

    /** Record an instance as tried now, at the epoch read. */
    method StampInstance(id: InstanceId, v: View)
      modifies this
      ensures State() == Stamp(old(State()), v, id)
    {
      appliedEpochs := appliedEpochs[id := ReloadEpoch(v.epochs, id)];
      lastAttempt := lastAttempt[id := v.now];
    }

    /** With a permit in hand: drop the backend being replaced, and claim the instance. */
    method ClaimInstance(id: InstanceId, v: View, slots: Semaphore, pinned: set<Incarnation>)
      modifies this, slots
      ensures State() == ClaimLedger(old(State()), v, id)
      ensures slots.available == old(slots.available) + ReplaceFrees(old(backends), id, pinned)
    {
      var pos := Position(backends, id);
      if pos.Some? {
        if backends[pos.value].incarnation !in pinned {
          slots.Release();
        }
        backends := RemoveAt(backends, pos.value); // stale or dead
      }
      StampInstance(id, v);
      heartbeatFailures := heartbeatFailures - {id};
      connecting := connecting + {id};
    }

    /** One turn of the block's loop. */
    method DecideInstance(id: InstanceId, v: View, cap: nat, slots: Semaphore, pinned: set<Incarnation>,
                          spawnSoFar: seq<InstanceId>, skippedSoFar: seq<(InstanceId, SkipReason)>)
      returns (toSpawn: seq<InstanceId>, skipped: seq<(InstanceId, SkipReason)>)
      modifies this, slots
      ensures Decision(State(), slots.available, toSpawn, skipped)
           == DecideOne(Decision(old(State()), old(slots.available), spawnSoFar, skippedSoFar), id, v, cap, pinned)
    {
      toSpawn, skipped := spawnSoFar, skippedSoFar;
      if id in connecting {
        return;
      }
      var epochOk := id in appliedEpochs && appliedEpochs[id] == ReloadEpoch(v.epochs, id);
      var pos := Position(backends, id);
      if epochOk && pos.Some? && backends[pos.value].incarnation !in v.closed {
        return; // healthy and current
      }
      if epochOk && !(id !in lastAttempt || v.now >= lastAttempt[id] + RESPAWN_BACKOFF) {
        return; // crashed or failed recently
      }
      if |backends| + |connecting| + |toSpawn| >= cap {
        StampInstance(id, v);
        skipped := skipped + [(id, UserCap)];
        return;
      }
      var acquired := slots.TryAcquire();
      if !acquired {
        StampInstance(id, v);
        skipped := skipped + [(id, GlobalCap)];
        return;
      }
      ClaimInstance(id, v, slots, pinned);
      toSpawn := toSpawn + [id];
    }

    /** The sandbox was configured but unavailable: spawn nothing, but stamp every enabled instance. */
    method SandboxUnavailable(enabled: seq<InstanceId>, v: View)
      modifies this
      ensures State() == SandboxStamp(old(State()), enabled, v)
    {
      dirty := false;
      initialized := true;
      ghost var begun := State();
      var k := 0;
      while k < |enabled|
        invariant 0 <= k <= |enabled|
        invariant State() == StampAll(begun, enabled[..k], v)
      {
        assert enabled[..k + 1][..k] == enabled[..k];
        appliedEpochs := appliedEpochs[enabled[k] := ReloadEpoch(v.epochs, enabled[k])];
        lastAttempt := lastAttempt[enabled[k] := v.now];
        k := k + 1;
      }
      assert enabled[..k] == enabled;
    }

    /** A spawn task reports back. The backend is pooled only if its instance is still tracked. */
    method Land(id: InstanceId, arrived: Option<Incarnation>) returns (pooled: bool)
      modifies this
      ensures State() == LandLedger(old(State()), id, arrived)
      ensures pooled == (arrived.Some? && id in old(appliedEpochs))
    {
      connecting := connecting - {id};
      pooled := arrived.Some? && id in appliedEpochs;
      if pooled {
        backends := backends + [Backend(id, arrived.value)];
      }
    }

    /** Drop exactly this backend, if it is still pooled. */
    method DropIncarnation(incarnation: Incarnation)
      modifies this`backends
      ensures backends == DropArc(old(backends), incarnation)
    {
      var p := IndexOf(backends, incarnation);
      if p.Some? {
        backends := RemoveAt(backends, p.value);
      }
    }

    /** The second critical section of a heartbeat pass. */
    method ApplyHeartbeats(snapshot: seq<Backend>, passed: seq<bool>) returns (ok: nat, failed: nat)
      requires |snapshot| == |passed|
      modifies this
      ensures State() == BeatAll(old(State()), snapshot, passed)
      ensures ok == Count(passed, true) && failed == Count(passed, false)
    {
      hide Count, BeatAll, DropArc;
      CountNone();
      BeatNothing(State());
      ok, failed := 0, 0;
      ghost var begun := State();
      var k := 0;
      assert snapshot[..0] == [] && passed[..0] == [];
      while k < |snapshot|
        invariant 0 <= k <= |snapshot|
        invariant ok == Count(passed[..k], true) && failed == Count(passed[..k], false)
        invariant State() == BeatAll(begun, snapshot[..k], passed[..k])
      {
        BeatAllStep(begun, snapshot, passed, k);
        CountStep(passed, k);
        var b := snapshot[k];
        if passed[k] {
          ok := ok + 1;
          heartbeatFailures := heartbeatFailures - {b.instanceId};
        } else {
          failed := failed + 1;
          var strikes := (if b.instanceId in heartbeatFailures then heartbeatFailures[b.instanceId] else 0) + 1;
          if strikes >= HEARTBEAT_MAX_STRIKES {
            heartbeatFailures := heartbeatFailures - {b.instanceId};
            DropIncarnation(b.incarnation);
          } else {
            heartbeatFailures := heartbeatFailures[b.instanceId := strikes];
          }
        }
        k := k + 1;
      }
      assert snapshot[..k] == snapshot && passed[..k] == passed;
    }
  }

  lemma BeatNothing(l: Ledger)
    ensures BeatAll(l, [], []) == l
  {
  }

  /** How many of a pass's results are `result`. */
  function Count(results: seq<bool>, result: bool): nat {
    multiset(results)[result]
  }

  lemma CountNone()
    ensures Count([], true) == 0 && Count([], false) == 0
  {
  }

  lemma CountStep(results: seq<bool>, k: nat)
    requires k < |results|
    ensures forall r :: Count(results[..k + 1], r) == Count(results[..k], r) + if results[k] == r then 1 else 0
  {
    assert results[..k + 1] == results[..k] + [results[k]];
  }
}
