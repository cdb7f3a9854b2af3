/** One heartbeat pass over a user's pooled backends, and what its strike counters mean. */
module PoolHeartbeat {
  import opened Wrappers
  import opened PoolLedger

  const HEARTBEAT_MAX_STRIKES: nat := 3

  function StrikesOf(l: Ledger, id: InstanceId): nat {
    if id in l.heartbeatFailures then l.heartbeatFailures[id] else 0
  }

  /** The first pooled backend that is this very `Arc`. */
  function IndexOf(bs: seq<Backend>, incarnation: Incarnation): (p: Option<nat>)
    ensures p.Some? ==> p.value < |bs| && bs[p.value].incarnation == incarnation
    ensures p.None? ==> forall b :: b in bs ==> b.incarnation != incarnation
  {
    if bs == [] then None
    else if bs[0].incarnation == incarnation then Some(0)
    else
      var rest := IndexOf(bs[1..], incarnation);
      if rest.Some? then Some(1 + rest.value)
      else
        assert forall b :: b in bs ==> b == bs[0] || b in bs[1..];
        None
  }

  function DropArc(bs: seq<Backend>, incarnation: Incarnation): seq<Backend> {
    var p := IndexOf(bs, incarnation);
    if p.Some? then RemoveAt(bs, p.value) else bs
  }

  /** The effect of one heartbeat result on the ledger. */
  function BeatOne(l: Ledger, b: Backend, passed: bool): Ledger {
    var id := b.instanceId;
    if passed then
      l.(heartbeatFailures := l.heartbeatFailures - {id})
    else
      var strikes := StrikesOf(l, id) + 1;
      if strikes >= HEARTBEAT_MAX_STRIKES then
        l.(heartbeatFailures := l.heartbeatFailures - {id},
           backends := DropArc(l.backends, b.incarnation))
      else
        l.(heartbeatFailures := l.heartbeatFailures[id := strikes])
  }

  function BeatAll(l: Ledger, snapshot: seq<Backend>, passed: seq<bool>): Ledger
    requires |snapshot| == |passed|
  {
    if snapshot == [] then l
    else
      var k := |snapshot| - 1;
      BeatOne(BeatAll(l, snapshot[..k], passed[..k]), snapshot[k], passed[k])
  }

  lemma BeatAllStep(l: Ledger, snapshot: seq<Backend>, passed: seq<bool>, k: nat)
    requires |snapshot| == |passed| && k < |snapshot|
    ensures BeatAll(l, snapshot[..k + 1], passed[..k + 1])
         == BeatOne(BeatAll(l, snapshot[..k], passed[..k]), snapshot[k], passed[k])
  {
    assert snapshot[..k + 1][..k] == snapshot[..k];
    assert passed[..k + 1][..k] == passed[..k];
  }

  // ------------------------------------------------------------------------------------
  // What a pass may remove
  // ------------------------------------------------------------------------------------

  lemma BeatRemovesItsOwn(l: Ledger, b: Backend, passed: bool)
    ensures var r := BeatOne(l, b, passed);
      && |r.backends| <= |l.backends|
      && (forall c :: c in r.backends ==> c in l.backends)
      && (forall c :: c in l.backends && c !in r.backends ==> c.incarnation == b.incarnation && !passed)
      && r == l.(backends := r.backends, heartbeatFailures := r.heartbeatFailures)
  {
    var p := IndexOf(l.backends, b.incarnation);
    if p.Some? {
      RemoveAtElements(l.backends, p.value);
    }
  }

  /** A pass only removes backends, and only ones it heartbeated itself and found failing:
      a respawn that raced in while the pass was listing stays. */
  lemma {:induction false} PassRemovesOnlyItsOwn(l: Ledger, snapshot: seq<Backend>, passed: seq<bool>)
    requires |snapshot| == |passed|
    ensures var r := BeatAll(l, snapshot, passed);
      && |r.backends| <= |l.backends|
      && (forall b :: b in r.backends ==> b in l.backends)
      && (forall b :: b in l.backends && b !in r.backends
            ==> exists i :: 0 <= i < |snapshot| && snapshot[i].incarnation == b.incarnation && !passed[i])
      && r == l.(backends := r.backends, heartbeatFailures := r.heartbeatFailures)
  {
    if snapshot != [] {
      var k := |snapshot| - 1;
      PassRemovesOnlyItsOwn(l, snapshot[..k], passed[..k]);
      var before := BeatAll(l, snapshot[..k], passed[..k]);
      BeatRemovesItsOwn(before, snapshot[k], passed[k]);
      hide BeatOne;
      forall b | b in l.backends && b !in BeatAll(l, snapshot, passed).backends
        ensures exists i :: 0 <= i < |snapshot| && snapshot[i].incarnation == b.incarnation && !passed[i]
      {
        if b !in before.backends {
          var i :| 0 <= i < k && snapshot[..k][i].incarnation == b.incarnation && !passed[..k][i];
          assert snapshot[i].incarnation == b.incarnation && !passed[i];
        } else {
          assert snapshot[k].incarnation == b.incarnation && !passed[k];
        }
      }
    }
  }

  /** One result drops a pooled backend exactly if it is that backend's own failure and finds two
      strikes already stored. */
  lemma BeatDropsIff(l: Ledger, b: Backend, passed: bool)
    requires DistinctArcs(l.backends)
    ensures forall c :: c in l.backends ==>
              (c !in BeatOne(l, b, passed).backends <==>
                 c.incarnation == b.incarnation && !passed && StrikesOf(l, b.instanceId) >= HEARTBEAT_MAX_STRIKES - 1)
    ensures DistinctArcs(BeatOne(l, b, passed).backends)
    ensures forall id :: id != b.instanceId ==> StrikesOf(BeatOne(l, b, passed), id) == StrikesOf(l, id)
  {
    DropArcDropsIt(l.backends, b.incarnation);
    hide DropArc, DistinctArcs;
  }

  lemma DropArcDropsIt(bs: seq<Backend>, incarnation: Incarnation)
    requires DistinctArcs(bs)
    ensures forall c :: c in DropArc(bs, incarnation) <==> c in bs && c.incarnation != incarnation
    ensures DistinctArcs(DropArc(bs, incarnation))
  {
    var p := IndexOf(bs, incarnation);
    if p.Some? {
      RemoveAtElements(bs, p.value);
      var rest := RemoveAt(bs, p.value);
      forall c | c in rest
        ensures c.incarnation != incarnation
      {
        var i :| 0 <= i < |rest| && rest[i] == c;
        assert c == bs[if i < p.value then i else i + 1];
      }
    }
  }

  /** The pass fails the backend on a strike that is the third. */
  predicate ThirdStrike(l: Ledger, snapshot: seq<Backend>, passed: seq<bool>, i: nat, b: Backend)
    requires |snapshot| == |passed|
  {
    && i < |snapshot| && snapshot[i].incarnation == b.incarnation && !passed[i]
    && StrikesOf(l, snapshot[i].instanceId) >= HEARTBEAT_MAX_STRIKES - 1
  }

  lemma {:induction false} PassStrikesItsOwn(l: Ledger, snapshot: seq<Backend>, passed: seq<bool>, id: InstanceId)
    requires |snapshot| == |passed| && DistinctArcs(l.backends)
    ensures var r := BeatAll(l, snapshot, passed);
      && DistinctArcs(r.backends)
      && ((forall b :: b in snapshot ==> b.instanceId != id) ==> StrikesOf(r, id) == StrikesOf(l, id))
  {
    if snapshot != [] {
      var k := |snapshot| - 1;
      PassStrikesItsOwn(l, snapshot[..k], passed[..k], id);
      BeatDropsIff(BeatAll(l, snapshot[..k], passed[..k]), snapshot[k], passed[k]);
      BeatAllSnoc(l, snapshot, passed);
      assert snapshot[k] in snapshot;
      hide BeatOne, BeatAll, StrikesOf, DistinctArcs;
    }
  }

  /** A pass drops exactly the backends it fails on their third strike: with one backend per instance
      in its snapshot, a pooled backend is gone afterwards if and only if its own result is a failure
      that finds two strikes stored before the pass. */
  lemma {:induction false} PassDropsIff(l: Ledger, snapshot: seq<Backend>, passed: seq<bool>, b: Backend)
    requires |snapshot| == |passed| && DistinctArcs(l.backends) && UniqueIds(snapshot) && b in l.backends
    ensures b !in BeatAll(l, snapshot, passed).backends <==> exists i :: ThirdStrike(l, snapshot, passed, i, b)
  {
    if snapshot != [] {
      var k := |snapshot| - 1;
      var init, results := snapshot[..k], passed[..k];
      var before := BeatAll(l, init, results);
      PassDropsIff(l, init, results, b);
      PassStrikesItsOwn(l, init, results, snapshot[k].instanceId);
      assert StrikesOf(before, snapshot[k].instanceId) == StrikesOf(l, snapshot[k].instanceId);
      BeatAllSnoc(l, snapshot, passed);
      hide BeatOne, StrikesOf, DistinctArcs, UniqueIds, BeatAll;
      BeatDropsIff(before, snapshot[k], passed[k]);
      StrikesSnoc(l, snapshot, passed, b);
      BeatAddsNone(before, snapshot[k], passed[k], b);
    }
  }

  lemma BeatAddsNone(l: Ledger, b: Backend, passed: bool, c: Backend)
    ensures c in BeatOne(l, b, passed).backends ==> c in l.backends
  {
    BeatRemovesItsOwn(l, b, passed);
  }

  lemma BeatAllSnoc(l: Ledger, snapshot: seq<Backend>, passed: seq<bool>)
    requires |snapshot| == |passed| && snapshot != []
    ensures var k := |snapshot| - 1;
      BeatAll(l, snapshot, passed) == BeatOne(BeatAll(l, snapshot[..k], passed[..k]), snapshot[k], passed[k])
  {
  }

  lemma StrikesSnoc(l: Ledger, snapshot: seq<Backend>, passed: seq<bool>, b: Backend)
    requires |snapshot| == |passed| && snapshot != []
    ensures var k := |snapshot| - 1;
      (exists i :: ThirdStrike(l, snapshot, passed, i, b)) <==>
      (exists i :: ThirdStrike(l, snapshot[..k], passed[..k], i, b)) || ThirdStrike(l, snapshot, passed, k, b)
  {
    hide StrikesOf;
    var k := |snapshot| - 1;
    assert forall i: nat :: i < k ==> (ThirdStrike(l, snapshot[..k], passed[..k], i, b) <==> ThirdStrike(l, snapshot, passed, i, b));
  }

  lemma {:induction false} PassKeepsUnique(l: Ledger, snapshot: seq<Backend>, passed: seq<bool>)
    requires |snapshot| == |passed|
    requires UniqueIds(l.backends)
    ensures UniqueIds(BeatAll(l, snapshot, passed).backends)
  {
    if snapshot != [] {
      var k := |snapshot| - 1;
      PassKeepsUnique(l, snapshot[..k], passed[..k]);
    }
  }

  // ------------------------------------------------------------------------------------
  // Strikes against the history of events
  // ------------------------------------------------------------------------------------

  /** Everything that bears on a strike counter, in order. `Pruned` carries the enabled set. */
  datatype HeartbeatEvent =
    | Passed(id: InstanceId)
    | Failed(id: InstanceId)
    | Claimed(id: InstanceId)
    | Dropped(id: InstanceId)
    | Pruned(enabled: set<InstanceId>)

  predicate Resets(e: HeartbeatEvent, id: InstanceId) {
    match e
    case Failed(_) => false
    case Pruned(enabled) => id !in enabled
    case _ => e.id == id
  }

  /** Failed heartbeats of `id` since its last pass, claim, drop or prune. */
  function FailuresSinceReset(log: seq<HeartbeatEvent>, id: InstanceId): nat {
    if log == [] then 0
    else
      var last := log[|log| - 1];
      if Resets(last, id) then 0
      else (if last == Failed(id) then 1 else 0) + FailuresSinceReset(log[..|log| - 1], id)
  }

  /** Stored strikes are 1 or 2, and equal the failures since the last reset. */
  ghost predicate StrikesMatch(l: Ledger, log: seq<HeartbeatEvent>) {
    && (forall id :: id in l.heartbeatFailures ==> 1 <= l.heartbeatFailures[id] < HEARTBEAT_MAX_STRIKES)
    && (forall id :: StrikesOf(l, id) == FailuresSinceReset(log, id))
  }

  /** What one heartbeat result adds to the history. */
  function BeatEvents(l: Ledger, b: Backend, passed: bool): seq<HeartbeatEvent> {
    if passed then [Passed(b.instanceId)]
    else if StrikesOf(l, b.instanceId) + 1 >= HEARTBEAT_MAX_STRIKES then
      [Failed(b.instanceId), Dropped(b.instanceId)]
    else [Failed(b.instanceId)]
  }

  function BeatLog(l: Ledger, snapshot: seq<Backend>, passed: seq<bool>): seq<HeartbeatEvent>
    requires |snapshot| == |passed|
  {
    if snapshot == [] then []
    else
      var k := |snapshot| - 1;
      BeatLog(l, snapshot[..k], passed[..k])
      + BeatEvents(BeatAll(l, snapshot[..k], passed[..k]), snapshot[k], passed[k])
  }

  lemma AppendEvent(log: seq<HeartbeatEvent>, e: HeartbeatEvent, id: InstanceId)
    ensures FailuresSinceReset(log + [e], id)
         == if Resets(e, id) then 0 else (if e == Failed(id) then 1 else 0) + FailuresSinceReset(log, id)
  {
    assert (log + [e])[..|log|] == log;
  }

  lemma BeatOneKeepsStrikes(l: Ledger, log: seq<HeartbeatEvent>, b: Backend, passed: bool)
    requires StrikesMatch(l, log)
    ensures StrikesMatch(BeatOne(l, b, passed), log + BeatEvents(l, b, passed))
  {
    forall id
      ensures StrikesOf(BeatOne(l, b, passed), id) == FailuresSinceReset(log + BeatEvents(l, b, passed), id)
    {
      var es := BeatEvents(l, b, passed);
      AppendEvent(log, es[0], id);
      if |es| == 2 {
        assert log + es == (log + [es[0]]) + [es[1]];
        AppendEvent(log + [es[0]], es[1], id);
      }
    }
  }

  lemma {:induction false} PassKeepsStrikes(l: Ledger, log: seq<HeartbeatEvent>, snapshot: seq<Backend>, passed: seq<bool>)
    requires |snapshot| == |passed|
    requires StrikesMatch(l, log)
    ensures StrikesMatch(BeatAll(l, snapshot, passed), log + BeatLog(l, snapshot, passed))
  {
    if snapshot == [] {
      assert log + [] == log;
    } else {
      var k := |snapshot| - 1;
      PassKeepsStrikes(l, log, snapshot[..k], passed[..k]);
      var before := BeatAll(l, snapshot[..k], passed[..k]);
      var es := BeatEvents(before, snapshot[k], passed[k]);
      BeatOneKeepsStrikes(before, log + BeatLog(l, snapshot[..k], passed[..k]), snapshot[k], passed[k]);
      assert log + BeatLog(l, snapshot, passed) == (log + BeatLog(l, snapshot[..k], passed[..k])) + es;
    }
  }

  lemma PruneKeepsStrikes(l: Ledger, log: seq<HeartbeatEvent>, enabled: set<InstanceId>)
    requires StrikesMatch(l, log)
    ensures StrikesMatch(Prune(l, enabled), log + [Pruned(enabled)])
  {
    forall id
      ensures StrikesOf(Prune(l, enabled), id) == FailuresSinceReset(log + [Pruned(enabled)], id)
    {
      AppendEvent(log, Pruned(enabled), id);
    }
  }

  lemma ClaimKeepsStrikes(l: Ledger, log: seq<HeartbeatEvent>, v: View, id: InstanceId)
    requires StrikesMatch(l, log)
    ensures StrikesMatch(ClaimLedger(l, v, id), log + [Claimed(id)])
  {
    forall other
      ensures StrikesOf(ClaimLedger(l, v, id), other) == FailuresSinceReset(log + [Claimed(id)], other)
    {
      AppendEvent(log, Claimed(id), other);
    }
  }
}
