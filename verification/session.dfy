/** Browser sessions: the sliding idle deadline, written back at most once a minute, under an
    absolute cap. Times are whole seconds. */
module Session {
  import opened Wrappers

  type SessionId = string
  type UserId = string

  const TOUCH_THROTTLE_SECS: int := 60

  datatype Timeouts = Timeouts(idle: int, absolute: int)

  datatype Row = Row(userId: UserId, createdAt: int, expiresAt: int)

  type Rows = map<SessionId, Row>

  // ------------------------------------------------------------------------------------
  // One session
  // ------------------------------------------------------------------------------------

  function Cap(row: Row, t: Timeouts): int {
    row.createdAt + t.absolute
  }

  function Target(row: Row, now: int, t: Timeouts): int {
    if now + t.idle <= Cap(row, t) then now + t.idle else Cap(row, t)
  }

  /** The row after a request at `now`: gone if the request is rejected. */
  function Touched(row: Row, now: int, t: Timeouts): Option<Row> {
    if row.expiresAt <= now || Cap(row, t) <= now then None
    else if row.expiresAt > Target(row, now, t) || Target(row, now, t) - row.expiresAt > TOUCH_THROTTLE_SECS then
      Some(row.(expiresAt := Target(row, now, t)))
    else Some(row)
  }

  function RowAt(rows: Rows, id: SessionId): Option<Row> {
    if id in rows then Some(rows[id]) else None
  }

  function WithRow(rows: Rows, id: SessionId, row: Option<Row>): Rows {
    if row.Some? then rows[id := row.value] else rows - {id}
  }

  // ------------------------------------------------------------------------------------
  // The table
  // ------------------------------------------------------------------------------------

  /** The `web_sessions` table, one statement or one request per method. */
  class Sessions {
    var rows: Rows

    constructor ()
      ensures rows == map[]
    {
      rows := map[];
    }

    /** `id` is a fresh UUID. */
    method Create(id: SessionId, userId: UserId, now: int, t: Timeouts)
      requires id !in rows
      modifies this
      ensures rows == old(rows)[id := Row(userId, now, now + t.idle)]
    {
      rows := rows[id := Row(userId, now, now + t.idle)];
    }

    method LoadAndTouch(id: SessionId, now: int, t: Timeouts) returns (userId: Option<UserId>)
      modifies this
      ensures var row := RowAt(old(rows), id);
        var row' := if row.Some? then Touched(row.value, now, t) else None;
        && rows == WithRow(old(rows), id, row')
        && userId == if row'.Some? then Some(row.value.userId) else None
      ensures userId.Some? <==> id in old(rows) && old(rows)[id].expiresAt > now && old(rows)[id].createdAt + t.absolute > now
      ensures id in rows <==> userId.Some?
      ensures forall other :: other != id ==> RowAt(rows, other) == RowAt(old(rows), other)
    {
      if id !in rows {
        assert rows == rows - {id};
        return None;
      }
      var row := rows[id];
      var absoluteDeadline := row.createdAt + t.absolute;
      if row.expiresAt <= now || absoluteDeadline <= now {
        rows := rows - {id};
        return None;
      }
      var target := if now + t.idle <= absoluteDeadline then now + t.idle else absoluteDeadline;
      if row.expiresAt > target || target - row.expiresAt > TOUCH_THROTTLE_SECS {
        rows := rows[id := row.(expiresAt := target)];
      } else {
        assert rows == rows[id := row];
      }
      return Some(row.userId);
    }

    /** The sweeper. */
    method DeleteExpired(now: int) returns (removed: nat)
      modifies this
      ensures forall id :: RowAt(rows, id) == Swept(RowAt(old(rows), id), now)
      ensures forall id :: id in rows <==> id in old(rows) && old(rows)[id].expiresAt >= now
      ensures forall id :: id in rows ==> rows[id] == old(rows)[id]
      ensures removed == |old(rows).Keys - rows.Keys|
    {
      var kept := map id | id in rows && rows[id].expiresAt >= now :: rows[id];
      removed := |rows.Keys - kept.Keys|;
      rows := kept;
    }

    method Delete(id: SessionId)
      modifies this
      ensures rows == old(rows) - {id}
    {
      rows := rows - {id};
    }

    /** Sign out a user's other devices. */
    method DeleteOthers(userId: UserId, keep: SessionId) returns (removed: nat)
      modifies this
      ensures rows == map id | id in old(rows) && !(old(rows)[id].userId == userId && id != keep) :: old(rows)[id]
      ensures removed == |old(rows).Keys - rows.Keys|
    {
      var kept := map id | id in rows && !(rows[id].userId == userId && id != keep) :: rows[id];
      removed := |rows.Keys - kept.Keys|;
      rows := kept;
    }
  }

  // ------------------------------------------------------------------------------------
  // Request sequences
  // ------------------------------------------------------------------------------------

  function Serve(row: Option<Row>, now: int, t: Timeouts): Option<Row> {
    if row.Some? then Touched(row.value, now, t) else None
  }

  function After(row: Option<Row>, times: seq<int>, t: Timeouts): Option<Row> {
    if times == [] then row else Serve(After(row, times[..|times| - 1], t), times[|times| - 1], t)
  }

  /** The `k`-th request is accepted. */
  predicate Accepted(row: Row, times: seq<int>, t: Timeouts, k: nat)
    requires k < |times|
  {
    After(Some(row), times[..k + 1], t).Some?
  }

  /** The row between two requests: the creation time stands, and the deadline is no further than
      the last accepted request allows. */
  predicate Bounded(row: Row, row': Row, last: int, t: Timeouts) {
    && row'.userId == row.userId && row'.createdAt == row.createdAt
    && row'.expiresAt <= last + t.idle && row'.expiresAt <= Cap(row, t)
  }

  lemma AfterSnoc(row: Row, times: seq<int>, t: Timeouts, k: nat)
    requires k < |times|
    ensures After(Some(row), times[..k + 1], t) == Serve(After(Some(row), times[..k], t), times[k], t)
  {
    assert times[..k + 1][..k] == times[..k];
  }

  lemma {:induction false} AcceptedIsBounded(row: Row, times: seq<int>, t: Timeouts, k: nat)
    requires k < |times| && Accepted(row, times, t, k)
    ensures Bounded(row, After(Some(row), times[..k + 1], t).value, times[k], t)
  {
    AfterSnoc(row, times, t, k);
    if k > 0 {
      AcceptedIsBounded(row, times, t, k - 1);
    } else {
      assert times[..0] == [];
    }
  }

  /** The window is never longer than promised, whatever deadline the row started with: an
      accepted request comes before the absolute cap, less than the idle time after the previous
      request, and that one was accepted too. */
  lemma SessionWindow(row: Row, times: seq<int>, t: Timeouts, k: nat)
    requires k < |times| && Accepted(row, times, t, k)
    ensures times[k] < row.createdAt + t.absolute
    ensures After(Some(row), times[..k + 1], t).value.userId == row.userId
    ensures k == 0 ==> times[k] < row.expiresAt
    ensures k > 0 ==> Accepted(row, times, t, k - 1) && times[k] < times[k - 1] + t.idle
  {
    AfterSnoc(row, times, t, k);
    if k > 0 {
      AcceptedIsBounded(row, times, t, k - 1);
    } else {
      assert times[..0] == [];
    }
  }

  /** The deadline lags its target by no more than the throttle. */
  predicate Caught(row: Row, row': Row, last: int, t: Timeouts) {
    row'.createdAt == row.createdAt && row'.expiresAt >= Target(row, last, t) - TOUCH_THROTTLE_SECS
  }

  function Gap(start: int, times: seq<int>, i: nat): int
    requires i < |times|
  {
    times[i] - if i == 0 then start else times[i - 1]
  }

  /** Every gap up to the `k`-th request, the first since `start`, leaves a minute to spare. */
  predicate Lively(start: int, times: seq<int>, t: Timeouts, k: nat)
    requires k < |times|
  {
    forall i :: 0 <= i <= k ==> Gap(start, times, i) < t.idle - TOUCH_THROTTLE_SECS
  }

  lemma {:induction false} LivelyIsAccepted(row: Row, times: seq<int>, t: Timeouts, k: nat)
    requires k < |times| && Lively(row.createdAt, times, t, k)
    requires row.expiresAt == row.createdAt + t.idle && t.absolute >= t.idle
    requires forall i :: 0 <= i < k ==> times[i] <= times[i + 1]
    requires times[k] < Cap(row, t) - TOUCH_THROTTLE_SECS
    ensures Accepted(row, times, t, k)
    ensures Caught(row, After(Some(row), times[..k + 1], t).value, times[k], t)
  {
    AfterSnoc(row, times, t, k);
    assert Gap(row.createdAt, times, k) < t.idle - TOUCH_THROTTLE_SECS;
    if k > 0 {
      LivelyIsAccepted(row, times, t, k - 1);
    } else {
      assert times[..k] == [];
    }
  }

  /** Use keeps a session alive: with every gap shorter than the idle time less a minute, every
      request up to a minute before the absolute cap is accepted. */
  lemma UseKeepsAlive(userId: UserId, created: int, times: seq<int>, t: Timeouts, k: nat)
    requires k < |times| && t.absolute >= t.idle && Lively(created, times, t, k)
    requires forall i :: 0 <= i < k ==> times[i] <= times[i + 1]
    requires times[k] < created + t.absolute - TOUCH_THROTTLE_SECS
    ensures Accepted(Row(userId, created, created + t.idle), times, t, k)
  {
    LivelyIsAccepted(Row(userId, created, created + t.idle), times, t, k);
  }

  /** The spare minute is needed: for all timeouts there is a session whose last gap is exactly the
      idle time less a minute, well before the cap, and which is rejected. */
  lemma ThrottleCostsAMinute(userId: UserId, created: int, t: Timeouts)
    requires t.idle > TOUCH_THROTTLE_SECS && t.absolute > t.idle + TOUCH_THROTTLE_SECS
    ensures var times := [created + TOUCH_THROTTLE_SECS, created + t.idle];
      var row := Row(userId, created, created + t.idle);
      && times[1] - times[0] == t.idle - TOUCH_THROTTLE_SECS
      && times[1] < Cap(row, t) - TOUCH_THROTTLE_SECS
      && Accepted(row, times, t, 0)
      && !Accepted(row, times, t, 1)
  {
    var times := [created + TOUCH_THROTTLE_SECS, created + t.idle];
    var row := Row(userId, created, created + t.idle);
    AfterSnoc(row, times, t, 0);
    AfterSnoc(row, times, t, 1);
    assert times[..0] == [];
  }

  // ------------------------------------------------------------------------------------
  // The sweeper
  // ------------------------------------------------------------------------------------

  function Swept(row: Option<Row>, now: int): Option<Row> {
    if row.Some? && row.value.expiresAt < now then None else row
  }

  datatype Event = Request(now: int) | Sweep(now: int)

  predicate InOrder(events: seq<Event>, from: int) {
    && (forall i :: 0 <= i < |events| ==> from <= events[i].now)
    && (forall i, j :: 0 <= i < j < |events| ==> events[i].now <= events[j].now)
  }

  function Requests(events: seq<Event>): seq<Event> {
    if events == [] then []
    else (if events[0].Request? then [events[0]] else []) + Requests(events[1..])
  }

  /** Which requests are accepted, in order. */
  function Verdicts(row: Option<Row>, events: seq<Event>, t: Timeouts): seq<bool>
    decreases events
  {
    if events == [] then []
    else match events[0]
      case Request(now) => [Serve(row, now, t).Some?] + Verdicts(Serve(row, now, t), events[1..], t)
      case Sweep(now) => Verdicts(Swept(row, now), events[1..], t)
  }

  /** The same row, or one that sweeping removed and that no request from `from` on can use. */
  predicate Alike(row: Option<Row>, kept: Option<Row>, from: int) {
    row == kept || (row.None? && kept.Some? && kept.value.expiresAt < from)
  }

  lemma {:induction false} SweptOrDead(row: Option<Row>, kept: Option<Row>, events: seq<Event>, t: Timeouts, from: int)
    requires Alike(row, kept, from) && InOrder(events, from)
    ensures Verdicts(row, events, t) == Verdicts(kept, Requests(events), t)
    decreases events
  {
    if events != [] {
      var now, rest := events[0].now, events[1..];
      assert InOrder(rest, now);
      if events[0].Request? {
        assert Requests(events)[1..] == Requests(rest);
        SweptOrDead(Serve(row, now, t), Serve(kept, now, t), rest, t, now);
      } else {
        assert Requests(events) == Requests(rest);
        SweptOrDead(Swept(row, now), kept, rest, t, now);
      }
    }
  }

  /** Sweeping is invisible: interleaved anywhere, any number of times, it changes no verdict. */
  lemma SweeperIsInvisible(row: Option<Row>, events: seq<Event>, t: Timeouts, from: int)
    requires InOrder(events, from)
    ensures Verdicts(row, events, t) == Verdicts(row, Requests(events), t)
  {
    SweptOrDead(row, row, events, t, from);
  }

  /** The times of the requests among the events. */
  function Times(events: seq<Event>): seq<int> {
    if events == [] then []
    else (if events[0].Request? then [events[0].now] else []) + Times(events[1..])
  }

  lemma {:induction false} AfterCons(row: Option<Row>, now: int, rest: seq<int>, t: Timeouts)
    ensures After(row, [now] + rest, t) == After(Serve(row, now, t), rest, t)
    decreases |rest|
  {
    if rest == [] {
      assert [now] + rest == [now] && [now][..0] == [];
    } else {
      var n := |rest| - 1;
      AfterCons(row, now, rest[..n], t);
      assert ([now] + rest)[..n + 1] == [now] + rest[..n];
    }
  }

  function AsRequests(times: seq<int>): seq<Event> {
    if times == [] then [] else [Request(times[0])] + AsRequests(times[1..])
  }

  lemma {:induction false} RequestsAreTimes(events: seq<Event>)
    ensures Requests(events) == AsRequests(Times(events))
  {
    if events != [] {
      RequestsAreTimes(events[1..]);
      var rest := Times(events[1..]);
      assert events[0].Request? ==> ([events[0].now] + rest)[1..] == rest;
      assert !events[0].Request? ==> Times(events) == rest;
    }
  }

  /** Verdict by verdict, the head-first reading agrees with the acceptance of each request. */
  lemma {:induction false} VerdictIsAcceptance(row: Option<Row>, times: seq<int>, t: Timeouts, k: nat)
    requires k < |times|
    ensures |Verdicts(row, AsRequests(times), t)| == |times|
    ensures Verdicts(row, AsRequests(times), t)[k] == After(row, times[..k + 1], t).Some?
    decreases |times|
  {
    var now, rest := times[0], times[1..];
    var row' := Serve(row, now, t);
    assert AsRequests(times)[1..] == AsRequests(rest);
    assert Verdicts(row, AsRequests(times), t) == [row'.Some?] + Verdicts(row', AsRequests(rest), t);
    assert times[..k + 1] == [now] + rest[..k];
    AfterCons(row, now, rest[..k], t);
    if rest != [] {
      VerdictIsAcceptance(row', rest, t, if k > 0 then k - 1 else 0);
    } else {
      assert AsRequests(rest) == [];
    }
  }

  /** So the window theorems hold with the sweeper running: with sweeps anywhere among the requests,
      the `k`-th request is accepted exactly when it is accepted without them. */
  lemma AcceptedDespiteSweeps(row: Row, events: seq<Event>, t: Timeouts, from: int, k: nat)
    requires InOrder(events, from) && k < |Times(events)|
    ensures |Verdicts(Some(row), events, t)| == |Times(events)|
    ensures Verdicts(Some(row), events, t)[k] <==> Accepted(row, Times(events), t, k)
  {
    SweeperIsInvisible(Some(row), events, t, from);
    RequestsAreTimes(events);
    VerdictIsAcceptance(Some(row), Times(events), t, k);
  }

  /** The table does not accumulate dead rows: a sweep removes every session whose last accepted
      request is longer ago than the idle time, or which is past its cap. */
  lemma AbandonedIsSwept(row: Row, times: seq<int>, t: Timeouts, k: nat, now: int)
    requires k < |times| && Accepted(row, times, t, k)
    requires now > times[k] + t.idle || now > row.createdAt + t.absolute
    ensures Swept(After(Some(row), times[..k + 1], t), now) == None
  {
    AcceptedIsBounded(row, times, t, k);
    hide After;
  }

  /** What a sweep keeps may still serve: a row within its cap stays exactly if a request in the
      second before would have been accepted. */
  lemma SweptIffDead(row: Row, t: Timeouts, now: int)
    requires now <= row.createdAt + t.absolute
    ensures Swept(Some(row), now) == None <==> Touched(row, now - 1, t) == None
    ensures Swept(Some(row), now) == None || Swept(Some(row), now) == Some(row)
  {
  }

  // ------------------------------------------------------------------------------------
  // Writing back
  // ------------------------------------------------------------------------------------

  /** The `k`-th request is accepted and rewrites the row. */
  predicate Writes(row: Row, times: seq<int>, t: Timeouts, k: nat)
    requires k < |times|
  {
    Accepted(row, times, t, k) && After(Some(row), times[..k + 1], t) != After(Some(row), times[..k], t)
  }

  /** From a write on, the deadline is never behind what was written, nor ahead of its target. */
  lemma {:induction false} WrittenStays(row: Row, times: seq<int>, t: Timeouts, i: nat, k: nat)
    requires i <= k < |times| && Writes(row, times, t, i) && Accepted(row, times, t, k)
    requires forall m :: i <= m < k ==> times[m] <= times[m + 1]
    ensures var row' := After(Some(row), times[..k + 1], t).value;
      row'.createdAt == row.createdAt && Target(row, times[i], t) <= row'.expiresAt <= Target(row, times[k], t)
  {
    AcceptedIsBounded(row, times, t, k);
    AfterSnoc(row, times, t, k);
    if i < k {
      SessionWindow(row, times, t, k);
      WrittenStays(row, times, t, i, k - 1);
    } else if k > 0 {
      SessionWindow(row, times, t, k);
      AcceptedIsBounded(row, times, t, k - 1);
    } else {
      assert times[..0] == [];
    }
  }

  /** Sliding the deadline costs at most one write a minute: whatever deadline the row started with,
      two requests that rewrite it are more than the throttle apart. */
  lemma WritesAreAMinuteApart(row: Row, times: seq<int>, t: Timeouts, i: nat, j: nat)
    requires i < j < |times| && Writes(row, times, t, i) && Writes(row, times, t, j)
    requires forall m :: i <= m < j ==> times[m] <= times[m + 1]
    ensures times[j] - times[i] > TOUCH_THROTTLE_SECS
  {
    AfterSnoc(row, times, t, j);
    SessionWindow(row, times, t, j);
    WrittenStays(row, times, t, i, j - 1);
    assert times[j - 1] <= times[j];
  }

  // ------------------------------------------------------------------------------------
  // Comparing secrets
  // ------------------------------------------------------------------------------------

  /** The comparison of CSRF tokens looks at every byte and still decides equality. */
  method ConstantTimeEq(a: seq<bv8>, b: seq<bv8>) returns (same: bool)
    ensures same <==> a == b
  {
    if |a| != |b| {
      return false;
    }
    var diff: bv8 := 0;
    var i := 0;
    while i < |a|
      invariant 0 <= i <= |a|
      invariant diff == 0 <==> a[..i] == b[..i]
    {
      DiffersHere(diff, a[i], b[i]);
      assert a[..i + 1] == a[..i] + [a[i]] && b[..i + 1] == b[..i] + [b[i]];
      diff := diff | (a[i] ^ b[i]);
      i := i + 1;
    }
    assert a[..i] == a && b[..i] == b;
    same := diff == 0;
  }

  lemma DiffersHere(diff: bv8, x: bv8, y: bv8)
    ensures diff | (x ^ y) == 0 <==> diff == 0 && x == y
  {
    assert x ^ y == 0 <==> x == y;
  }
}
