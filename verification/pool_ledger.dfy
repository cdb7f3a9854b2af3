/** The bookkeeping behind one user's pooled backends and the decision block of a reconcile,
    as values. The class `PoolInner.Inner` updates the same fields in place and is proved
    against these functions; the hub-wide protocol in `PoolHub` takes its steps with them.

    A backend is the pair of its instance id and the incarnation it was claimed as: one
    incarnation per slot permit, so two `Arc`s point to the same backend exactly when their
    incarnations are equal. */
module PoolLedger {
  import opened Wrappers

  type InstanceId = string
  type Incarnation = nat
  /** Nanoseconds of the monotonic clock. */
  type Instant = nat

  const RESPAWN_BACKOFF: Instant := 30_000_000_000

  datatype Backend = Backend(instanceId: InstanceId, incarnation: Incarnation)

  datatype Ledger = Ledger(
    initialized: bool,
    dirty: bool,
    backends: seq<Backend>,
    appliedEpochs: map<InstanceId, nat>,
    connecting: set<InstanceId>,
    lastAttempt: map<InstanceId, Instant>,
    heartbeatFailures: map<InstanceId, nat>,
    lastUsed: Instant)

  /** What a critical section reads from outside the ledger. */
  datatype View = View(epochs: map<InstanceId, nat>, closed: set<Incarnation>, now: Instant)

  function EmptyLedger(now: Instant): Ledger {
    Ledger(false, false, [], map[], {}, map[], map[], now)
  }

  function ReloadEpoch(epochs: map<InstanceId, nat>, id: InstanceId): nat {
    if id in epochs then epochs[id] else 0
  }

  predicate RetryDue(l: Ledger, now: Instant, id: InstanceId) {
    id !in l.lastAttempt || now >= l.lastAttempt[id] + RESPAWN_BACKOFF
  }

  predicate Healthy(l: Ledger, closed: set<Incarnation>, id: InstanceId) {
    exists b | b in l.backends :: b.instanceId == id && b.incarnation !in closed
  }

  /** Whether the pooled set can be served as it is. */
  predicate Fresh(l: Ledger, v: View) {
    && l.initialized
    && !l.dirty
    && forall id | id in l.appliedEpochs ::
         && ReloadEpoch(v.epochs, id) == l.appliedEpochs[id]
         && (id in l.connecting || Healthy(l, v.closed, id) || !RetryDue(l, v.now, id))
  }

  /** The first pooled backend of an instance, by index. */
  function Position(bs: seq<Backend>, id: InstanceId): (p: Option<nat>)
    ensures p.Some? ==> p.value < |bs| && bs[p.value].instanceId == id
    ensures p.Some? ==> forall i :: 0 <= i < p.value ==> bs[i].instanceId != id
    ensures p.None? ==> forall b :: b in bs ==> b.instanceId != id
  {
    if bs == [] then None
    else if bs[0].instanceId == id then Some(0)
    else
      var rest := Position(bs[1..], id);
      if rest.Some? then
        assert forall i :: 1 <= i < 1 + rest.value ==> bs[i] == bs[1..][i - 1];
        Some(1 + rest.value)
      else
        assert forall b :: b in bs ==> b == bs[0] || b in bs[1..];
        None
  }

  /** `Vec::retain` by instance id. */
  function Retain(bs: seq<Backend>, keep: set<InstanceId>): (r: seq<Backend>)
    ensures forall b :: b in r <==> b in bs && b.instanceId in keep
    ensures |r| <= |bs|
  {
    if bs == [] then []
    else (if bs[0].instanceId in keep then [bs[0]] else []) + Retain(bs[1..], keep)
  }

  /** How many permits dropping the backends outside `keep` frees: one for each backend that
      nobody else (`pinned`) still holds. */
  function RetainFrees(bs: seq<Backend>, keep: set<InstanceId>, pinned: set<Incarnation>): nat {
    if bs == [] then 0
    else
      (if bs[0].instanceId !in keep && bs[0].incarnation !in pinned then 1 else 0)
      + RetainFrees(bs[1..], keep, pinned)
  }

  /** At most one pooled backend per instance. */
  predicate UniqueIds(bs: seq<Backend>) {
    forall i, j :: 0 <= i < j < |bs| ==> bs[i].instanceId != bs[j].instanceId
  }

  /** No incarnation is pooled twice. */
  ghost predicate DistinctArcs(bs: seq<Backend>) {
    forall i, j :: 0 <= i < j < |bs| ==> bs[i].incarnation != bs[j].incarnation
  }

  lemma {:induction false} RetainKeepsUnique(bs: seq<Backend>, keep: set<InstanceId>)
    requires UniqueIds(bs)
    ensures UniqueIds(Retain(bs, keep))
  {
    if bs != [] {
      RetainKeepsUnique(bs[1..], keep);
      var rest := Retain(bs[1..], keep);
      forall j | 0 <= j < |rest|
        ensures rest[j].instanceId != bs[0].instanceId
      {
        assert rest[j] in bs[1..];
      }
    }
  }

  lemma {:induction false} RetainAll(bs: seq<Backend>, keep: set<InstanceId>)
    requires forall b :: b in bs ==> b.instanceId in keep
    ensures Retain(bs, keep) == bs
    ensures forall pinned :: RetainFrees(bs, keep, pinned) == 0
  {
    if bs != [] {
      assert forall b :: b in bs[1..] ==> b in bs;
      RetainAll(bs[1..], keep);
    }
  }

  // ------------------------------------------------------------------------------------
  // The decision block
  // ------------------------------------------------------------------------------------

  datatype SkipReason = UserCap | GlobalCap

  /** A decision block in progress: the ledger, the free permits of the hub-wide semaphore,
      and the two vectors it fills. */
  datatype Decision = Decision(
    ledger: Ledger,
    free: nat,
    toSpawn: seq<InstanceId>,
    skipped: seq<(InstanceId, SkipReason)>)

  datatype Limits = Limits(perUser: nat, global: nat)

  /** What the block does with one enabled instance. */
  datatype Verdict = Keep | Skip(reason: SkipReason) | Claim

  predicate EpochOk(l: Ledger, v: View, id: InstanceId) {
    id in l.appliedEpochs && l.appliedEpochs[id] == ReloadEpoch(v.epochs, id)
  }

  predicate FirstHealthy(bs: seq<Backend>, closed: set<Incarnation>, id: InstanceId) {
    var p := Position(bs, id);
    p.Some? && bs[p.value].incarnation !in closed
  }

  /** An instance the block would leave alone. */
  predicate Settled(l: Ledger, v: View, id: InstanceId) {
    || id in l.connecting
    || (EpochOk(l, v, id) && (FirstHealthy(l.backends, v.closed, id) || !RetryDue(l, v.now, id)))
  }

  function Judge(d: Decision, id: InstanceId, v: View, cap: nat): Verdict {
    if Settled(d.ledger, v, id) then Keep
    else if |d.ledger.backends| + |d.ledger.connecting| + |d.toSpawn| >= cap then Skip(UserCap)
    else if d.free == 0 then Skip(GlobalCap)
    else Claim
  }

  /** Permits freed when the claim of `id` drops the backend it replaces. */
  function ReplaceFrees(bs: seq<Backend>, id: InstanceId, pinned: set<Incarnation>): nat {
    var p := Position(bs, id);
    if p.Some? && bs[p.value].incarnation !in pinned then 1 else 0
  }

  function WithoutFirst(bs: seq<Backend>, id: InstanceId): seq<Backend> {
    var p := Position(bs, id);
    if p.Some? then RemoveAt(bs, p.value) else bs
  }

  function Stamp(l: Ledger, v: View, id: InstanceId): Ledger {
    l.(appliedEpochs := l.appliedEpochs[id := ReloadEpoch(v.epochs, id)],
       lastAttempt := l.lastAttempt[id := v.now])
  }

  function ClaimLedger(l: Ledger, v: View, id: InstanceId): Ledger {
    Stamp(l, v, id).(backends := WithoutFirst(l.backends, id),
                     heartbeatFailures := l.heartbeatFailures - {id},
                     connecting := l.connecting + {id})
  }

  function DecideOne(d: Decision, id: InstanceId, v: View, cap: nat, pinned: set<Incarnation>): Decision {
    match Judge(d, id, v, cap)
    case Keep => d
    case Skip(reason) => d.(ledger := Stamp(d.ledger, v, id), skipped := d.skipped + [(id, reason)])
    case Claim =>
      Decision(ClaimLedger(d.ledger, v, id),
               d.free - 1 + ReplaceFrees(d.ledger.backends, id, pinned),
               d.toSpawn + [id],
               d.skipped)
  }

  /** Drop what is no longer enabled; the first lines of the block. */
  function Prune(l: Ledger, enabled: set<InstanceId>): Ledger {
    l.(dirty := false,
       backends := Retain(l.backends, enabled),
       appliedEpochs := map id | id in l.appliedEpochs && id in enabled :: l.appliedEpochs[id],
       heartbeatFailures := map id | id in l.heartbeatFailures && id in enabled :: l.heartbeatFailures[id])
  }

  /** One backend at a time. */
  lemma RetainFrom(bs: seq<Backend>, i: nat, keep: set<InstanceId>, pinned: set<Incarnation>)
    requires i < |bs|
    ensures Retain(bs[i..], keep) == (if bs[i].instanceId in keep then [bs[i]] else []) + Retain(bs[i + 1..], keep)
    ensures RetainFrees(bs[i..], keep, pinned)
         == (if bs[i].instanceId !in keep && bs[i].incarnation !in pinned then 1 else 0) + RetainFrees(bs[i + 1..], keep, pinned)
  {
    assert bs[i..][1..] == bs[i + 1..];
  }

  lemma RetainNothing(keep: set<InstanceId>, pinned: set<Incarnation>)
    ensures Retain([], keep) == [] && RetainFrees([], keep, pinned) == 0
  {
  }

  function BeginDecision(l: Ledger, free: nat, enabled: seq<InstanceId>, pinned: set<Incarnation>): Decision {
    Decision(Prune(l, Elements(enabled)), free + RetainFrees(l.backends, Elements(enabled), pinned), [], [])
  }

  /** The loop over the enabled instances, in list order. */
  function DecideAll(d: Decision, ids: seq<InstanceId>, v: View, cap: nat, pinned: set<Incarnation>): Decision {
    if ids == [] then d
    else DecideOne(DecideAll(d, ids[..|ids| - 1], v, cap, pinned), ids[|ids| - 1], v, cap, pinned)
  }

  function DecisionBlock(l: Ledger, free: nat, enabled: seq<InstanceId>, v: View, cap: nat, pinned: set<Incarnation>): Decision {
    DecideAll(BeginDecision(l, free, enabled, pinned), enabled, v, cap, pinned)
  }

  lemma DecideNone(d: Decision, v: View, cap: nat, pinned: set<Incarnation>)
    ensures DecideAll(d, [], v, cap, pinned) == d
  {
  }

  lemma DecideAllStep(d: Decision, ids: seq<InstanceId>, k: nat, v: View, cap: nat, pinned: set<Incarnation>)
    requires k < |ids|
    ensures DecideAll(d, ids[..k + 1], v, cap, pinned)
         == DecideOne(DecideAll(d, ids[..k], v, cap, pinned), ids[k], v, cap, pinned)
  {
    assert ids[..k + 1][..k] == ids[..k];
  }

  // ------------------------------------------------------------------------------------
  // The other critical sections
  // ------------------------------------------------------------------------------------

  function StampAll(l: Ledger, ids: seq<InstanceId>, v: View): Ledger {
    if ids == [] then l else Stamp(StampAll(l, ids[..|ids| - 1], v), v, ids[|ids| - 1])
  }

  /** The sandbox branch: every enabled instance is recorded at its epoch, nothing is spawned. */
  function SandboxStamp(l: Ledger, enabled: seq<InstanceId>, v: View): Ledger {
    StampAll(l.(dirty := false, initialized := true), enabled, v)
  }

  /** A spawn task reports back with its backend, or with nothing. */
  function LandLedger(l: Ledger, id: InstanceId, arrived: Option<Incarnation>): Ledger {
    var l' := l.(connecting := l.connecting - {id});
    if arrived.Some? && id in l.appliedEpochs then
      l'.(backends := l.backends + [Backend(id, arrived.value)])
    else l'
  }

  lemma {:induction false} StampAllEffect(l: Ledger, ids: seq<InstanceId>, v: View)
    ensures var r := StampAll(l, ids, v);
      && r == l.(appliedEpochs := r.appliedEpochs, lastAttempt := r.lastAttempt)
      && (forall id :: id in r.appliedEpochs <==> id in l.appliedEpochs || id in ids)
      && (forall id :: id in r.appliedEpochs
            ==> r.appliedEpochs[id] == if id in ids then ReloadEpoch(v.epochs, id) else l.appliedEpochs[id])
      && (forall id :: id in r.lastAttempt <==> id in l.lastAttempt || id in ids)
      && (forall id :: id in r.lastAttempt
            ==> r.lastAttempt[id] == if id in ids then v.now else l.lastAttempt[id])
  {
    if ids != [] {
      var k := |ids| - 1;
      StampAllEffect(l, ids[..k], v);
      assert forall id :: id in ids <==> id in ids[..k] || id == ids[k];
    }
  }

  // ------------------------------------------------------------------------------------
  // Effects of one instance on another
  // ------------------------------------------------------------------------------------

  lemma {:induction false} FirstAfterRemoval(bs: seq<Backend>, p: nat, closed: set<Incarnation>, other: InstanceId)
    requires p < |bs| && bs[p].instanceId != other
    ensures FirstHealthy(RemoveAt(bs, p), closed, other) == FirstHealthy(bs, closed, other)
  {
    if p == 0 {
      assert RemoveAt(bs, 0) == bs[1..];
    } else {
      FirstAfterRemoval(bs[1..], p - 1, closed, other);
      var r := RemoveAt(bs, p);
      assert r[0] == bs[0];
      assert r[1..] == RemoveAt(bs[1..], p - 1);
    }
  }

  /** Deciding one instance settles it and leaves every other instance's verdict basis alone. */
  lemma DecideOneSettles(d: Decision, id: InstanceId, v: View, cap: nat, pinned: set<Incarnation>)
    ensures Settled(DecideOne(d, id, v, cap, pinned).ledger, v, id)
    ensures forall other :: Settled(d.ledger, v, other) ==> Settled(DecideOne(d, id, v, cap, pinned).ledger, v, other)
  {
    StampSettles(d.ledger, id, v);
    ClaimSettles(d.ledger, id, v);
    hide Settled, Stamp, ClaimLedger;
    assert Judge(d, id, v, cap).Keep? ==> Settled(d.ledger, v, id) by { JudgeKeeps(d, id, v, cap); }
  }

  lemma JudgeKeeps(d: Decision, id: InstanceId, v: View, cap: nat)
    ensures Judge(d, id, v, cap).Keep? <==> Settled(d.ledger, v, id)
  {
  }

  lemma StampSettles(l: Ledger, id: InstanceId, v: View)
    ensures Settled(Stamp(l, v, id), v, id)
    ensures forall other :: Settled(l, v, other) ==> Settled(Stamp(l, v, id), v, other)
  {
  }

  lemma ClaimSettles(l: Ledger, id: InstanceId, v: View)
    ensures Settled(ClaimLedger(l, v, id), v, id)
    ensures forall other :: Settled(l, v, other) ==> Settled(ClaimLedger(l, v, id), v, other)
  {
    forall other | other != id && Settled(l, v, other)
      ensures Settled(ClaimLedger(l, v, id), v, other)
    {
      var p := Position(l.backends, id);
      if p.Some? {
        FirstAfterRemoval(l.backends, p.value, v.closed, other);
      }
      hide FirstHealthy;
    }
  }

  lemma {:induction false} DecideAllSettles(d: Decision, ids: seq<InstanceId>, v: View, cap: nat, pinned: set<Incarnation>)
    ensures forall id :: id in ids || Settled(d.ledger, v, id) ==> Settled(DecideAll(d, ids, v, cap, pinned).ledger, v, id)
  {
    if ids != [] {
      var k := |ids| - 1;
      DecideAllSettles(d, ids[..k], v, cap, pinned);
      DecideOneSettles(DecideAll(d, ids[..k], v, cap, pinned), ids[k], v, cap, pinned);
      assert forall id :: id in ids ==> id in ids[..k] || id == ids[k];
    }
  }

  lemma {:induction false} SettledIsFixed(d: Decision, ids: seq<InstanceId>, v: View, cap: nat, pinned: set<Incarnation>)
    requires forall id :: id in ids ==> Settled(d.ledger, v, id)
    ensures DecideAll(d, ids, v, cap, pinned) == d
  {
    if ids != [] {
      SettledIsFixed(d, ids[..|ids| - 1], v, cap, pinned);
    }
  }

  /** How many instances the block has claimed or skipped so far. */
  function Touched(d: Decision): nat {
    |d.toSpawn| + |d.skipped|
  }

  lemma DecideOneTouches(d: Decision, id: InstanceId, v: View, cap: nat, pinned: set<Incarnation>)
    ensures Touched(DecideOne(d, id, v, cap, pinned)) == Touched(d) + if Settled(d.ledger, v, id) then 0 else 1
  {
    hide Settled;
    JudgeKeeps(d, id, v, cap);
  }

  /** The two vectors only grow, so a verdict once given stays visible. */
  lemma {:induction false} DecideAllGrows(d: Decision, ids: seq<InstanceId>, v: View, cap: nat, pinned: set<Incarnation>)
    ensures Touched(d) <= Touched(DecideAll(d, ids, v, cap, pinned))
  {
    hide DecideOne, Settled, Touched;
    if ids != [] {
      DecideAllGrows(d, ids[..|ids| - 1], v, cap, pinned);
      DecideOneTouches(DecideAll(d, ids[..|ids| - 1], v, cap, pinned), ids[|ids| - 1], v, cap, pinned);
    }
  }

  lemma {:induction false} UnsettledIsTouched(d: Decision, ids: seq<InstanceId>, id: InstanceId, v: View, cap: nat, pinned: set<Incarnation>)
    requires id in ids && !Settled(d.ledger, v, id)
    ensures Touched(d) < Touched(DecideAll(d, ids, v, cap, pinned))
  {
    hide DecideOne, Settled, Touched;
    var k := |ids| - 1;
    DecideOneTouches(DecideAll(d, ids[..k], v, cap, pinned), ids[k], v, cap, pinned);
    if id in ids[..k] {
      UnsettledIsTouched(d, ids[..k], id, v, cap, pinned);
    } else {
      assert ids[k] == id;
      DecideAllGrows(d, ids[..k], v, cap, pinned);
      if forall other :: other in ids[..k] ==> Settled(d.ledger, v, other) {
        SettledIsFixed(d, ids[..k], v, cap, pinned);
      } else {
        var other :| other in ids[..k] && !Settled(d.ledger, v, other);
        UnsettledIsTouched(d, ids[..k], other, v, cap, pinned);
      }
    }
  }

  // ------------------------------------------------------------------------------------
  // What a turn achieves, read off the fields
  // ------------------------------------------------------------------------------------

  /** Not on its way, and either never seen at its epoch, or down with its backoff over. */
  predicate NeedsSpawn(l: Ledger, v: View, id: InstanceId) {
    && id !in l.connecting
    && (|| id !in l.appliedEpochs
        || l.appliedEpochs[id] != ReloadEpoch(v.epochs, id)
        || (&& (forall b :: b in l.backends && b.instanceId == id ==> b.incarnation in v.closed)
            && (id in l.lastAttempt ==> v.now >= l.lastAttempt[id] + RESPAWN_BACKOFF)))
  }

  predicate HasRoom(d: Decision, cap: nat) {
    |d.ledger.backends| + |d.ledger.connecting| + |d.toSpawn| < cap && d.free > 0
  }

  lemma OpenIsFirstHealthy(bs: seq<Backend>, closed: set<Incarnation>, id: InstanceId)
    requires UniqueIds(bs)
    ensures FirstHealthy(bs, closed, id) <==> exists b :: b in bs && b.instanceId == id && b.incarnation !in closed
  {
    if b :| b in bs && b.instanceId == id && b.incarnation !in closed {
      var p := Position(bs, id);
      var i :| 0 <= i < |bs| && bs[i] == b;
      assert p.Some? && !(i < p.value) && !(p.value < i);
    }
  }

  lemma NeedyIsUnsettled(l: Ledger, v: View, id: InstanceId)
    requires UniqueIds(l.backends)
    ensures NeedsSpawn(l, v, id) <==> !Settled(l, v, id)
  {
    OpenIsFirstHealthy(l.backends, v.closed, id);
    hide FirstHealthy;
  }

  /** An instance that needs no spawn is left alone. One that does is recorded at its epoch and
      stamped, and then, exactly if there is room, claimed: it starts connecting, its old backend
      goes, its strikes are forgotten and a permit is taken. Otherwise it is skipped, with the
      reason, and nothing else changes. */
  lemma TurnOutcome(d: Decision, id: InstanceId, v: View, cap: nat, pinned: set<Incarnation>)
    requires UniqueIds(d.ledger.backends)
    ensures var d' := DecideOne(d, id, v, cap, pinned); var l, l' := d.ledger, d'.ledger;
      if !NeedsSpawn(l, v, id) then d' == d
      else
        && l'.appliedEpochs == l.appliedEpochs[id := ReloadEpoch(v.epochs, id)]
        && l'.lastAttempt == l.lastAttempt[id := v.now]
        && l'.initialized == l.initialized && l'.dirty == l.dirty && l'.lastUsed == l.lastUsed
        && if HasRoom(d, cap) then
             && d'.toSpawn == d.toSpawn + [id] && d'.skipped == d.skipped
             && l'.connecting == l.connecting + {id}
             && (forall b :: b in l'.backends <==> b in l.backends && b.instanceId != id)
             && l'.heartbeatFailures == l.heartbeatFailures - {id}
             && d'.free == d.free - 1
                  + (if exists b :: b in l.backends && b.instanceId == id && b.incarnation !in pinned then 1 else 0)
           else
             && d'.toSpawn == d.toSpawn && d'.free == d.free
             && d'.skipped == d.skipped + [(id, if |l.backends| + |l.connecting| + |d.toSpawn| >= cap then UserCap else GlobalCap)]
             && l'.connecting == l.connecting && l'.backends == l.backends && l'.heartbeatFailures == l.heartbeatFailures
  {
    NeedyIsUnsettled(d.ledger, v, id);
    ReplacesTheOnlyOne(d.ledger.backends, id, pinned);
    hide Settled, NeedsSpawn, WithoutFirst, ReplaceFrees;
  }

  lemma ReplacesTheOnlyOne(bs: seq<Backend>, id: InstanceId, pinned: set<Incarnation>)
    requires UniqueIds(bs)
    ensures forall b :: b in WithoutFirst(bs, id) <==> b in bs && b.instanceId != id
    ensures ReplaceFrees(bs, id, pinned) == if exists b :: b in bs && b.instanceId == id && b.incarnation !in pinned then 1 else 0
  {
    var p := Position(bs, id);
    if p.Some? {
      RemoveAtElements(bs, p.value);
      forall b | b in bs && b.instanceId == id
        ensures b == bs[p.value]
      {
        var i :| 0 <= i < |bs| && bs[i] == b;
        assert !(i < p.value) && !(p.value < i);
      }
      forall b | b in WithoutFirst(bs, id)
        ensures b.instanceId != id
      {
        var i :| 0 <= i < |WithoutFirst(bs, id)| && WithoutFirst(bs, id)[i] == b;
        assert b == bs[if i < p.value then i else i + 1];
      }
    }
  }

  /** The instances of the list that need a spawn, in list order. */
  function Needy(l: Ledger, v: View, ids: seq<InstanceId>): seq<InstanceId> {
    if ids == [] then []
    else
      var last := ids[|ids| - 1];
      Needy(l, v, ids[..|ids| - 1]) + if NeedsSpawn(l, v, last) then [last] else []
  }

  /** One turn does not change what the other instances need. */
  lemma OthersNeedTheSame(d: Decision, id: InstanceId, v: View, cap: nat, pinned: set<Incarnation>, other: InstanceId)
    requires UniqueIds(d.ledger.backends) && other != id
    ensures NeedsSpawn(DecideOne(d, id, v, cap, pinned).ledger, v, other) <==> NeedsSpawn(d.ledger, v, other)
  {
    TurnOutcome(d, id, v, cap, pinned);
    hide DecideOne, HasRoom;
  }

  lemma TurnKeepsUnique(d: Decision, id: InstanceId, v: View, cap: nat, pinned: set<Incarnation>)
    requires UniqueIds(d.ledger.backends)
    ensures UniqueIds(DecideOne(d, id, v, cap, pinned).ledger.backends)
  {
  }

  /** With room for all, the block claims every instance that needs a spawn, in list order, and
      skips none. */
  lemma {:induction false} RoomForAll(d: Decision, ids: seq<InstanceId>, v: View, cap: nat, pinned: set<Incarnation>)
    requires UniqueIds(d.ledger.backends) && d.toSpawn == [] && d.skipped == []
    requires forall i, j :: 0 <= i < j < |ids| ==> ids[i] != ids[j]
    requires |d.ledger.backends| + |d.ledger.connecting| + 2 * |ids| <= cap && |ids| <= d.free
    ensures var d' := DecideAll(d, ids, v, cap, pinned);
      && d'.toSpawn == Needy(d.ledger, v, ids) && d'.skipped == []
      && UniqueIds(d'.ledger.backends)
      && |d'.ledger.backends| + |d'.ledger.connecting| <= |d.ledger.backends| + |d.ledger.connecting| + |ids|
      && |d'.toSpawn| <= |ids| && d'.free + |ids| >= d.free
      && forall id :: id !in ids ==> (NeedsSpawn(d'.ledger, v, id) <==> NeedsSpawn(d.ledger, v, id))
  {
    if ids != [] {
      var k := |ids| - 1;
      var before := DecideAll(d, ids[..k], v, cap, pinned);
      RoomForAll(d, ids[..k], v, cap, pinned);
      assert ids[k] !in ids[..k];
      assert forall id :: id in ids <==> id in ids[..k] || id == ids[k];
      TurnOutcome(before, ids[k], v, cap, pinned);
      TurnKeepsUnique(before, ids[k], v, cap, pinned);
      TurnCounts(before, ids[k], v, cap, pinned);
      forall id | id !in ids
        ensures NeedsSpawn(DecideOne(before, ids[k], v, cap, pinned).ledger, v, id) <==> NeedsSpawn(d.ledger, v, id)
      {
        OthersNeedTheSame(before, ids[k], v, cap, pinned, id);
      }
      hide DecideOne, NeedsSpawn, UniqueIds;
    }
  }

  /** So does the whole block of a reconcile: whatever needed a spawn before it is claimed. */
  lemma BlockClaimsTheNeedy(l: Ledger, free: nat, enabled: seq<InstanceId>, v: View, cap: nat, pinned: set<Incarnation>)
    requires UniqueIds(l.backends)
    requires forall i, j :: 0 <= i < j < |enabled| ==> enabled[i] != enabled[j]
    requires |l.backends| + |l.connecting| + 2 * |enabled| <= cap && |enabled| <= free
    ensures var d := DecisionBlock(l, free, enabled, v, cap, pinned);
      d.toSpawn == Needy(l, v, enabled) && d.skipped == []
  {
    var begun := BeginDecision(l, free, enabled, pinned);
    RetainKeepsUnique(l.backends, Elements(enabled));
    RoomForAll(begun, enabled, v, cap, pinned);
    NeedySurvivesPruning(l, enabled, v, enabled);
  }

  lemma {:induction false} NeedySurvivesPruning(l: Ledger, enabled: seq<InstanceId>, v: View, ids: seq<InstanceId>)
    requires forall id :: id in ids ==> id in enabled
    ensures Needy(Prune(l, Elements(enabled)), v, ids) == Needy(l, v, ids)
  {
    if ids != [] {
      NeedySurvivesPruning(l, enabled, v, ids[..|ids| - 1]);
      NeedsSurvivePruning(l, enabled, v, ids[|ids| - 1]);
      hide NeedsSpawn, Prune;
    }
  }

  lemma NeedsSurvivePruning(l: Ledger, enabled: seq<InstanceId>, v: View, id: InstanceId)
    requires id in enabled
    ensures NeedsSpawn(Prune(l, Elements(enabled)), v, id) <==> NeedsSpawn(l, v, id)
  {
  }

  lemma TurnCounts(d: Decision, id: InstanceId, v: View, cap: nat, pinned: set<Incarnation>)
    ensures var d' := DecideOne(d, id, v, cap, pinned);
      && |d'.ledger.backends| <= |d.ledger.backends| && |d'.ledger.connecting| <= |d.ledger.connecting| + 1
      && |d'.toSpawn| <= |d.toSpawn| + 1 && d'.free + 1 >= d.free
  {
    hide Settled;
  }

  // ------------------------------------------------------------------------------------
  // Convergence, idempotence, and the cache in front of the block
  // ------------------------------------------------------------------------------------

  /** Every pooled backend's instance is tracked. */
  predicate TrackedPool(l: Ledger) {
    forall b :: b in l.backends ==> b.instanceId in l.appliedEpochs
  }

  lemma {:induction false} DecideAllStaysEnabled(d: Decision, ids: seq<InstanceId>, enabled: set<InstanceId>, v: View, cap: nat, pinned: set<Incarnation>)
    requires forall id :: id in ids ==> id in enabled
    requires forall b :: b in d.ledger.backends ==> b.instanceId in enabled
    requires d.ledger.appliedEpochs.Keys <= enabled && d.ledger.heartbeatFailures.Keys <= enabled
    ensures var r := DecideAll(d, ids, v, cap, pinned).ledger;
      && (forall b :: b in r.backends ==> b.instanceId in enabled)
      && r.appliedEpochs.Keys <= enabled && r.heartbeatFailures.Keys <= enabled
      && r.dirty == d.ledger.dirty && r.initialized == d.ledger.initialized
      && d.ledger.connecting <= r.connecting <= d.ledger.connecting + enabled
  {
    if ids != [] {
      DecideAllStaysEnabled(d, ids[..|ids| - 1], enabled, v, cap, pinned);
      DecideOneStays(DecideAll(d, ids[..|ids| - 1], v, cap, pinned), ids[|ids| - 1], v, cap, pinned);
      hide DecideOne;
    }
  }

  lemma DecideOneStays(d: Decision, id: InstanceId, v: View, cap: nat, pinned: set<Incarnation>)
    ensures var r := DecideOne(d, id, v, cap, pinned).ledger;
      && (forall b :: b in r.backends ==> b in d.ledger.backends)
      && r.appliedEpochs.Keys <= d.ledger.appliedEpochs.Keys + {id}
      && r.heartbeatFailures.Keys <= d.ledger.heartbeatFailures.Keys
      && r.dirty == d.ledger.dirty && r.initialized == d.ledger.initialized
      && d.ledger.connecting <= r.connecting <= d.ledger.connecting + {id}
  {
    var p := Position(d.ledger.backends, id);
    if p.Some? {
      RemoveAtElements(d.ledger.backends, p.value);
    }
    hide FirstHealthy, RetryDue, ReplaceFrees, Position;
  }

  lemma {:induction false} DecideAllTracks(d: Decision, ids: seq<InstanceId>, v: View, cap: nat, pinned: set<Incarnation>)
    ensures var r := DecideAll(d, ids, v, cap, pinned).ledger;
      && (forall id :: (id in ids && id !in d.ledger.connecting) || EpochOk(d.ledger, v, id) ==> EpochOk(r, v, id))
      && (forall id :: id in r.connecting && id !in d.ledger.connecting ==> EpochOk(r, v, id))
  {
    if ids != [] {
      var k := |ids| - 1;
      DecideAllTracks(d, ids[..k], v, cap, pinned);
      DecideOneTracks(DecideAll(d, ids[..k], v, cap, pinned), ids[k], v, cap, pinned);
      assert forall id :: id in ids ==> id in ids[..k] || id == ids[k];
      hide DecideOne, EpochOk;
    }
  }

  lemma DecideOneTracks(d: Decision, id: InstanceId, v: View, cap: nat, pinned: set<Incarnation>)
    ensures var r := DecideOne(d, id, v, cap, pinned).ledger;
      && (id !in d.ledger.connecting ==> EpochOk(r, v, id))
      && (forall other :: EpochOk(d.ledger, v, other) ==> EpochOk(r, v, other))
      && d.ledger.connecting <= r.connecting
      && (forall other :: other in r.connecting && other !in d.ledger.connecting ==> EpochOk(r, v, other))
  {
    StampTracks(d.ledger, id, v);
    hide FirstHealthy, RetryDue, WithoutFirst, ReplaceFrees, Stamp, EpochOk;
    ClaimTracks(d.ledger, id, v);
    if id !in d.ledger.connecting && Settled(d.ledger, v, id) {
      SettledTracks(d.ledger, id, v);
    }
  }

  lemma StampTracks(l: Ledger, id: InstanceId, v: View)
    ensures EpochOk(Stamp(l, v, id), v, id) && Stamp(l, v, id).connecting == l.connecting
    ensures forall other :: EpochOk(l, v, other) ==> EpochOk(Stamp(l, v, id), v, other)
  {
  }

  lemma ClaimTracks(l: Ledger, id: InstanceId, v: View)
    ensures forall other :: EpochOk(ClaimLedger(l, v, id), v, other) == EpochOk(Stamp(l, v, id), v, other)
    ensures ClaimLedger(l, v, id).connecting == l.connecting + {id}
  {
  }

  lemma SettledTracks(l: Ledger, id: InstanceId, v: View)
    requires Settled(l, v, id) && id !in l.connecting
    ensures EpochOk(l, v, id)
  {
  }

  /** After the block every pooled, tracked or struck id is enabled, and every enabled
      instance that was not already connecting is tracked at the epoch the block read. */
  lemma Convergence(l: Ledger, free: nat, enabled: seq<InstanceId>, v: View, cap: nat, pinned: set<Incarnation>)
    ensures var r := DecisionBlock(l, free, enabled, v, cap, pinned).ledger;
      && !r.dirty
      && (forall b :: b in r.backends ==> b.instanceId in enabled)
      && (forall id :: id in r.appliedEpochs || id in r.heartbeatFailures ==> id in enabled)
      && (forall id :: id in enabled && id !in l.connecting
            ==> id in r.appliedEpochs && r.appliedEpochs[id] == ReloadEpoch(v.epochs, id))
  {
    var d := BeginDecision(l, free, enabled, pinned);
    DecideAllStaysEnabled(d, enabled, Elements(enabled), v, cap, pinned);
    DecideAllTracks(d, enabled, v, cap, pinned);
  }

  /** Running the block again at the same instant with the same inputs claims nothing, skips
      nothing, frees nothing and leaves the whole ledger as it is, whatever is pinned by then. */
  lemma Idempotence(l: Ledger, free: nat, enabled: seq<InstanceId>, v: View, cap: nat,
                    pinned: set<Incarnation>, pinnedThen: set<Incarnation>)
    ensures var first := DecisionBlock(l, free, enabled, v, cap, pinned);
      DecisionBlock(first.ledger, first.free, enabled, v, cap, pinnedThen)
      == Decision(first.ledger, first.free, [], [])
  {
    var d := BeginDecision(l, free, enabled, pinned);
    var first := DecisionBlock(l, free, enabled, v, cap, pinned);
    DecideAllStaysEnabled(d, enabled, Elements(enabled), v, cap, pinned);
    DecideAllSettles(d, enabled, v, cap, pinned);
    RetainAll(first.ledger.backends, Elements(enabled));
    var again := BeginDecision(first.ledger, first.free, enabled, pinnedThen);
    assert again.ledger.appliedEpochs == first.ledger.appliedEpochs;
    assert again.ledger.heartbeatFailures == first.ledger.heartbeatFailures;
    assert again == Decision(first.ledger, first.free, [], []);
    SettledIsFixed(again, enabled, v, cap, pinnedThen);
  }

  /** Nothing claimed, nothing skipped, and no change to who is pooled, connecting, tracked or stamped. */
  predicate LeavesAlone(l: Ledger, d: Decision) {
    && d.toSpawn == [] && d.skipped == []
    && d.ledger.backends == l.backends
    && d.ledger.connecting == l.connecting
    && d.ledger.appliedEpochs == l.appliedEpochs
    && d.ledger.lastAttempt == l.lastAttempt
  }

  lemma PruneKeepsVerdicts(l: Ledger, enabled: set<InstanceId>, v: View)
    requires TrackedPool(l) && l.appliedEpochs.Keys <= enabled
    ensures var p := Prune(l, enabled);
      && p.backends == l.backends && p.appliedEpochs == l.appliedEpochs
      && forall id :: Settled(p, v, id) == Settled(l, v, id)
  {
    RetainAll(l.backends, enabled);
  }

  /** Exactly when the block is a no-op: nothing tracked is disabled and every enabled
      instance is settled. */
  lemma BlockIsNoOpIff(l: Ledger, free: nat, enabled: seq<InstanceId>, v: View, cap: nat, pinned: set<Incarnation>)
    requires TrackedPool(l)
    ensures LeavesAlone(l, DecisionBlock(l, free, enabled, v, cap, pinned))
        <==> ((forall id :: id in l.appliedEpochs ==> id in enabled)
              && (forall id :: id in enabled ==> Settled(l, v, id)))
  {
    var d := BeginDecision(l, free, enabled, pinned);
    var r := DecisionBlock(l, free, enabled, v, cap, pinned);
    if forall id :: id in l.appliedEpochs ==> id in enabled {
      PruneKeepsVerdicts(l, Elements(enabled), v);
      if forall id :: id in enabled ==> Settled(l, v, id) {
        SettledIsFixed(d, enabled, v, cap, pinned);
      } else {
        var id :| id in enabled && !Settled(l, v, id);
        UnsettledIsTouched(d, enabled, id, v, cap, pinned);
      }
    } else {
      DecideAllStaysEnabled(d, enabled, Elements(enabled), v, cap, pinned);
    }
  }

  lemma HealthyIsFirst(l: Ledger, closed: set<Incarnation>, id: InstanceId)
    requires UniqueIds(l.backends)
    ensures Healthy(l, closed, id) == FirstHealthy(l.backends, closed, id)
  {
    OpenIsFirstHealthy(l.backends, closed, id);
    hide FirstHealthy;
  }

  /** The fast path refines the slow path: a fresh ledger whose tracked instances are all
      enabled, and whose enabled untracked instances are all connecting, is one the block
      would have left alone. */
  lemma FastPathRefinesBlock(l: Ledger, free: nat, enabled: seq<InstanceId>, v: View, cap: nat, pinned: set<Incarnation>)
    requires UniqueIds(l.backends) && TrackedPool(l)
    requires Fresh(l, v)
    requires forall id :: id in l.appliedEpochs ==> id in enabled
    requires forall id :: id in enabled && id !in l.appliedEpochs ==> id in l.connecting
    ensures LeavesAlone(l, DecisionBlock(l, free, enabled, v, cap, pinned))
  {
    forall id | id in enabled
      ensures Settled(l, v, id)
    {
      HealthyIsFirst(l, v.closed, id);
    }
    BlockIsNoOpIff(l, free, enabled, v, cap, pinned);
  }

  /** And back: where the block would do nothing, the fast path is taken exactly when the
      ledger is initialized and clean and no connecting instance has a Restart pending. */
  lemma NoOpIsFreshIff(l: Ledger, free: nat, enabled: seq<InstanceId>, v: View, cap: nat, pinned: set<Incarnation>)
    requires UniqueIds(l.backends) && TrackedPool(l)
    requires LeavesAlone(l, DecisionBlock(l, free, enabled, v, cap, pinned))
    ensures Fresh(l, v)
        <==> (l.initialized && !l.dirty
              && forall id :: id in l.connecting && id in l.appliedEpochs ==> EpochOk(l, v, id))
  {
    BlockIsNoOpIff(l, free, enabled, v, cap, pinned);
    forall id | id in l.appliedEpochs && EpochOk(l, v, id)
      ensures id in l.connecting || Healthy(l, v.closed, id) || !RetryDue(l, v.now, id)
    {
      HealthyIsFirst(l, v.closed, id);
      assert Settled(l, v, id);
    }
  }
}
