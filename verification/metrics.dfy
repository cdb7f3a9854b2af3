/** The bounded registry of tool-call counters, and the label sets it is exported under. */
module Metrics {
  import opened Wrappers

  const MAX_SERIES: nat := 10_000
  const MICROS_WRAP: nat := 0x1_0000_0000_0000_0000

  datatype ErrorKind = Timeout | Error | ToolError

  datatype CallKey = CallKey(user: string, server: string, tool: string)

  const OTHER: CallKey := CallKey("_other", "_other", "_other")

  /** `durationMicros` is a 64-bit counter and wraps; the counts are taken to be unbounded. */
  datatype CallStats = CallStats(calls: nat, errors: map<ErrorKind, nat>, durationMicros: nat)

  const NO_CALLS: CallStats := CallStats(0, map[], 0)

  type Series = map<CallKey, CallStats>

  /** One tool call, as it is recorded. */
  datatype Call = Call(key: CallKey, micros: nat, error: Option<ErrorKind>)

  // ------------------------------------------------------------------------------------
  // Recording
  // ------------------------------------------------------------------------------------

  function ErrorsOf(s: CallStats, kind: ErrorKind): nat {
    if kind in s.errors then s.errors[kind] else 0
  }

  function Counted(s: CallStats, c: Call): CallStats {
    CallStats(s.calls + 1,
              if c.error.Some? then s.errors[c.error.value := ErrorsOf(s, c.error.value) + 1] else s.errors,
              (s.durationMicros + c.micros % MICROS_WRAP) % MICROS_WRAP)
  }

  /** The series a call is counted under. */
  function SeriesFor(m: Series, key: CallKey): CallKey {
    if key in m || |m| < MAX_SERIES then key else OTHER
  }

  function StatsAt(m: Series, key: CallKey): CallStats {
    if key in m then m[key] else NO_CALLS
  }

  function Recorded(m: Series, c: Call): Series {
    var key := SeriesFor(m, c.key);
    m[key := Counted(StatsAt(m, key), c)]
  }

  class Registry {
    var calls: Series

    constructor ()
      ensures calls == map[]
    {
      calls := map[];
    }

    method RecordCall(user: string, server: string, tool: string, micros: nat, error: Option<ErrorKind>)
      modifies this
      ensures calls == Recorded(old(calls), Call(CallKey(user, server, tool), micros, error))
    {
      var key := CallKey(user, server, tool);
      if !(key in calls || |calls| < MAX_SERIES) {
        key := OTHER;
      }
      if key !in calls {
        calls := calls[key := NO_CALLS];
      }
      var stats := calls[key];
      stats := stats.(calls := stats.calls + 1, durationMicros := (stats.durationMicros + micros % MICROS_WRAP) % MICROS_WRAP);
      if error.Some? {
        var n := if error.value in stats.errors then stats.errors[error.value] else 0;
        stats := stats.(errors := stats.errors[error.value := n + 1]);
      }
      calls := calls[key := stats];
      assert calls == Recorded(old(calls), Call(CallKey(user, server, tool), micros, error));
    }
  }

  /** The registry after a whole log of calls. */
  function After(log: seq<Call>): Series {
    if log == [] then map[] else Recorded(After(log[..|log| - 1]), log[|log| - 1])
  }

  // ------------------------------------------------------------------------------------
  // Conservation
  // ------------------------------------------------------------------------------------

  /** What is summed over the series. */
  datatype Counter = Calls | Errors(kind: ErrorKind) | Micros

  function Reading(s: CallStats, n: Counter): nat {
    match n
    case Calls => s.calls
    case Errors(kind) => ErrorsOf(s, kind)
    case Micros => s.durationMicros
  }

  function Worth(c: Call, n: Counter): nat {
    match n
    case Calls => 1
    case Errors(kind) => if c.error == Some(kind) then 1 else 0
    case Micros => c.micros
  }

  ghost function Total(m: Series, n: Counter): nat
    decreases |m|
  {
    if m == map[] then 0
    else
      var k :| k in m;
      Reading(m[k], n) + Total(m - {k}, n)
  }

  function Spent(log: seq<Call>, n: Counter): nat {
    if log == [] then 0 else Spent(log[..|log| - 1], n) + Worth(log[|log| - 1], n)
  }

  /** The total does not depend on the order of summation. */
  lemma {:induction false} TotalWithout(m: Series, n: Counter, k: CallKey)
    requires k in m
    ensures Total(m, n) == Reading(m[k], n) + Total(m - {k}, n)
    decreases |m|
  {
    var j :| j in m && Total(m, n) == Reading(m[j], n) + Total(m - {j}, n);
    if j != k {
      TotalWithout(m - {j}, n, k);
      TotalWithout(m - {k}, n, j);
      assert (m - {j}) - {k} == (m - {k}) - {j};
    }
  }

  lemma TotalUpdated(m: Series, n: Counter, k: CallKey, s: CallStats)
    ensures Total(m[k := s], n) == Total(m, n) - Reading(StatsAt(m, k), n) + Reading(s, n)
  {
    TotalWithout(m[k := s], n, k);
    assert m[k := s] - {k} == m - {k};
    if k in m {
      TotalWithout(m, n, k);
    } else {
      assert m - {k} == m;
    }
  }

  /** Equal, for a counter that does not wrap; equal up to the wrap, for the one that does. */
  predicate Agree(n: Counter, a: int, b: int) {
    if n.Micros? then a % MICROS_WRAP == b % MICROS_WRAP else a == b
  }

  lemma AgreeAdds(n: Counter, a: int, b: int, c: int, d: int)
    requires Agree(n, a, b) && Agree(n, c, d)
    ensures Agree(n, a + c, b + d)
  {
    if n.Micros? {
      SameRemainder(a + c, a / MICROS_WRAP - b / MICROS_WRAP + (c / MICROS_WRAP - d / MICROS_WRAP));
    }
  }

  lemma AgreeGrows(n: Counter, a: int, a': int, b: int, w: int)
    requires Agree(n, a, b) && Agree(n, a' - a, w)
    ensures Agree(n, a', b + w)
  {
    AgreeAdds(n, a, b, a' - a, w);
    assert a + (a' - a) == a';
  }

  lemma SameRemainder(x: int, q: int)
    ensures (x - q * MICROS_WRAP) % MICROS_WRAP == x % MICROS_WRAP
  {
    var d := x / MICROS_WRAP;
    assert x - q * MICROS_WRAP == (d - q) * MICROS_WRAP + x % MICROS_WRAP;
  }

  lemma WrapAgrees(x: int)
    ensures Agree(Micros, x % MICROS_WRAP, x)
  {
  }

  lemma CountedAddsItsWorth(s: CallStats, c: Call, n: Counter)
    ensures Agree(n, Reading(Counted(s, c), n) - Reading(s, n), Worth(c, n))
  {
    if n.Micros? {
      hide Agree;
      var d: int := s.durationMicros;
      var sum := d + c.micros % MICROS_WRAP;
      WrapAgrees(sum);
      WrapAgrees(c.micros);
      AgreeItself(d);
      AgreeItself(-d);
      AgreeAdds(n, d, d, c.micros % MICROS_WRAP, c.micros);
      AgreesOn(sum % MICROS_WRAP, sum, d + c.micros);
      AgreeAdds(n, sum % MICROS_WRAP, d + c.micros, -d, -d);
    }
  }

  lemma AgreeItself(x: int)
    ensures Agree(Micros, x, x)
  {
  }

  lemma AgreesOn(a: int, b: int, c: int)
    requires Agree(Micros, a, b) && Agree(Micros, b, c)
    ensures Agree(Micros, a, c)
  {
  }

  lemma RecordAddsItsWorth(m: Series, c: Call, n: Counter)
    ensures Agree(n, Total(Recorded(m, c), n) - Total(m, n), Worth(c, n))
  {
    hide Agree, Counted, Total, Reading, Worth;
    var key := SeriesFor(m, c.key);
    TotalUpdated(m, n, key, Counted(StatsAt(m, key), c));
    CountedAddsItsWorth(StatsAt(m, key), c, n);
  }

  /** Nothing is lost to the cap: over any log, the calls of all series sum to the calls recorded,
      the errors of each kind likewise, and the durations likewise up to the counter's wrap. */
  lemma {:induction false} Conservation(log: seq<Call>, n: Counter)
    ensures Agree(n, Total(After(log), n), Spent(log, n))
    ensures Total(After(log), Calls) == Spent(log, Calls) == |log|
  {
    if log != [] {
      var init, c := log[..|log| - 1], log[|log| - 1];
      Conservation(init, n);
      RecordAddsItsWorth(After(init), c, Calls);
      assert After(log) == Recorded(After(init), c) && Spent(log, n) == Spent(init, n) + Worth(c, n);
      hide Agree, After, Recorded, Spent, Worth, Total;
      RecordAddsItsWorth(After(init), c, n);
      AgreeGrows(n, Total(After(init), n), Total(After(log), n), Spent(init, n), Worth(c, n));
    }
  }

  // ------------------------------------------------------------------------------------
  // Exact or folded
  // ------------------------------------------------------------------------------------

  /** The keys of the log, each once, in order of first occurrence. */
  function FirstSeen(log: seq<Call>): seq<CallKey> {
    if log == [] then []
    else
      var seen, key := FirstSeen(log[..|log| - 1]), log[|log| - 1].key;
      if key in seen then seen else seen + [key]
  }

  /** The keys that get a series of their own: the first `MAX_SERIES`. */
  function Admitted(log: seq<Call>): seq<CallKey> {
    var seen := FirstSeen(log);
    if |seen| <= MAX_SERIES then seen else seen[..MAX_SERIES]
  }

  function Of(log: seq<Call>, key: CallKey): seq<Call> {
    if log == [] then []
    else
      var last := log[|log| - 1];
      Of(log[..|log| - 1], key) + if last.key == key then [last] else []
  }

  predicate Distinct(keys: seq<CallKey>) {
    forall i, j :: 0 <= i < j < |keys| ==> keys[i] != keys[j]
  }

  lemma {:induction false} FirstSeenIsDistinct(log: seq<Call>)
    ensures Distinct(FirstSeen(log))
    ensures forall k :: k in FirstSeen(log) <==> exists i :: 0 <= i < |log| && log[i].key == k
  {
    if log != [] {
      var init := log[..|log| - 1];
      FirstSeenIsDistinct(init);
      forall k | k in FirstSeen(log)
        ensures exists i :: 0 <= i < |log| && log[i].key == k
      {
        if k in FirstSeen(init) {
          var i :| 0 <= i < |init| && init[i].key == k;
          assert log[i].key == k;
        } else {
          assert log[|log| - 1].key == k;
        }
      }
      forall i | 0 <= i < |log|
        ensures log[i].key in FirstSeen(log)
      {
        if i < |init| {
          assert init[i].key == log[i].key;
        }
      }
    }
  }

  lemma {:induction false} DistinctCount(keys: seq<CallKey>)
    requires Distinct(keys)
    ensures |Elements(keys)| == |keys|
  {
    if keys == [] {
      assert Elements(keys) == {};
    } else {
      var n := |keys| - 1;
      DistinctCount(keys[..n]);
      assert Elements(keys) == Elements(keys[..n]) + {keys[n]};
    }
  }

  /** The registry's keys: the admitted ones, and the sentinel once anyone was turned away. */
  function KeysOf(log: seq<Call>): set<CallKey> {
    Elements(Admitted(log)) + if |FirstSeen(log)| > MAX_SERIES then {OTHER} else {}
  }

  lemma RoomIff(log: seq<Call>)
    ensures |FirstSeen(log)| < MAX_SERIES <==> |KeysOf(log)| < MAX_SERIES
    ensures |KeysOf(log)| <= MAX_SERIES + 1
  {
    FirstSeenIsDistinct(log);
    DistinctCount(Admitted(log));
    assert |Elements(Admitted(log))| == |Admitted(log)|;
    if |FirstSeen(log)| > MAX_SERIES {
      assert KeysOf(log) == Elements(Admitted(log)) + {OTHER};
      hide Elements, Admitted;
      OneMoreAtMost(Elements(Admitted(log)), OTHER);
    } else {
      assert KeysOf(log) == Elements(Admitted(log));
    }
  }

  lemma OneMoreAtMost(s: set<CallKey>, k: CallKey)
    ensures |s| <= |s + {k}| <= |s| + 1
  {
    if k in s {
      assert s + {k} == s;
    }
  }

  lemma {:induction false} RegistryKeys(log: seq<Call>)
    ensures After(log).Keys == KeysOf(log)
  {
    if log != [] {
      var init, key := log[..|log| - 1], log[|log| - 1].key;
      RegistryKeys(init);
      RoomIff(init);
      assert |After(init)| == |After(init).Keys|;
      KeysGrow(log);
      assert After(log).Keys == After(init).Keys + {SeriesFor(After(init), key)};
    }
  }

  /** A call brings in its own key while there is room, and the sentinel at most afterwards. */
  lemma KeysGrow(log: seq<Call>)
    requires log != []
    ensures var init, key := log[..|log| - 1], log[|log| - 1].key;
      KeysOf(log) == KeysOf(init) + {if key in KeysOf(init) || |FirstSeen(init)| < MAX_SERIES then key else OTHER}
  {
    var init, key := log[..|log| - 1], log[|log| - 1].key;
    var seen := FirstSeen(init);
    if key in seen {
      assert FirstSeen(log) == seen;
      if key !in Admitted(init) {
        assert |seen| > MAX_SERIES;
      }
    } else if |seen| < MAX_SERIES {
      assert Elements(seen + [key]) == Elements(seen) + {key};
    } else {
      assert (seen + [key])[..MAX_SERIES] == seen[..MAX_SERIES];
      assert Admitted(log) == Admitted(init);
    }
  }

  /** A key has a series exactly when it is among the admitted ones. */
  lemma SeriesIffAdmitted(log: seq<Call>, key: CallKey)
    requires key != OTHER
    ensures key in After(log) <==> key in Admitted(log)
  {
    RegistryKeys(log);
  }

  /** What the registry has counted so far under a key other than the sentinel, series or not. */
  ghost predicate Exact(log: seq<Call>, key: CallKey, n: Counter) {
    Agree(n, Reading(StatsAt(After(log), key), n), Spent(Of(log, key), n))
  }

  lemma OwnSeries(log: seq<Call>)
    requires log != [] && log[|log| - 1].key != OTHER && log[|log| - 1].key in After(log)
    ensures var init, c := log[..|log| - 1], log[|log| - 1];
      StatsAt(After(log), c.key) == Counted(StatsAt(After(init), c.key), c)
  {
    NewcomersAreNew(log);
    hide Counted, FirstSeen;
  }

  lemma OwnCallIsCounted(init: seq<Call>, c: Call, n: Counter)
    requires c.key != OTHER && c.key in After(init + [c]) && Exact(init, c.key, n)
    ensures Exact(init + [c], c.key, n)
  {
    var log := init + [c];
    assert log[..|log| - 1] == init;
    var s := StatsAt(After(init), c.key);
    OwnSeries(log);
    hide After, StatsAt, Agree, Counted, Reading, Worth, Spent, Of;
    OfSnoc(log, c.key, n);
    CountedAddsItsWorth(s, c, n);
    AgreeGrows(n, Reading(s, n), Reading(Counted(s, c), n), Spent(Of(init, c.key), n), Worth(c, n));
  }

  lemma OtherCallsDoNotCount(log: seq<Call>, key: CallKey, n: Counter)
    requires log != [] && log[|log| - 1].key != key && key != OTHER
    ensures StatsAt(After(log), key) == StatsAt(After(log[..|log| - 1]), key)
    ensures Of(log, key) == Of(log[..|log| - 1], key)
  {
    hide Counted;
  }

  /** Exact or wholly folded: the series of an admitted key other than the sentinel holds, for
      every counter, exactly the key's own calls; any other key has none, so its calls are folded. */
  lemma {:induction false} ExactOrFolded(log: seq<Call>, key: CallKey, n: Counter)
    requires key != OTHER
    ensures if key in Admitted(log) then key in After(log) && Exact(log, key, n) else key !in After(log)
  {
    SeriesIffAdmitted(log, key);
    if log != [] && key in After(log) {
      var init, c := log[..|log| - 1], log[|log| - 1];
      ExactOrFolded(init, key, n);
      SeriesIffAdmitted(init, key);
      if c.key == key {
        NewcomersAreNew(log);
        hide Exact, Admitted, FirstSeen;
        if key !in After(init) {
          NothingYet(init, key, n);
        }
        assert log == init + [c];
        OwnCallIsCounted(init, c, n);
      } else {
        OtherCallsDoNotCount(log, key, n);
        hide Agree, Of, Spent, Reading, Admitted;
      }
    }
  }

  lemma NothingYet(log: seq<Call>, key: CallKey, n: Counter)
    requires key !in FirstSeen(log)
    requires key !in After(log)
    ensures Exact(log, key, n)
  {
    UnseenHasNone(log, key);
  }

  lemma {:induction false} UnseenHasNone(log: seq<Call>, key: CallKey)
    requires key !in FirstSeen(log)
    ensures Of(log, key) == []
  {
    if log != [] {
      UnseenHasNone(log[..|log| - 1], key);
    }
  }

  lemma OfSnoc(log: seq<Call>, key: CallKey, n: Counter)
    requires log != [] && log[|log| - 1].key == key
    ensures Spent(Of(log, key), n) == Spent(Of(log[..|log| - 1], key), n) + Worth(log[|log| - 1], n)
  {
    var before := Of(log[..|log| - 1], key);
    assert Of(log, key) == before + [log[|log| - 1]];
    assert Of(log, key)[..|before|] == before;
  }

  /** A key that gets a series of its own was not called before without one. */
  lemma NewcomersAreNew(log: seq<Call>)
    requires log != [] && log[|log| - 1].key != OTHER && log[|log| - 1].key in After(log)
    ensures var init, key := log[..|log| - 1], log[|log| - 1].key;
      SeriesFor(After(init), key) == key && (key !in After(init) ==> key !in FirstSeen(init))
  {
    var init, key := log[..|log| - 1], log[|log| - 1].key;
    RegistryKeys(log);
    RegistryKeys(init);
    RoomIff(init);
    assert |After(init)| == |After(init).Keys|;
    if key !in After(init) {
      assert key !in Admitted(init);
      assert |FirstSeen(init)| < MAX_SERIES;
    }
  }

  predicate IsFolded(key: CallKey, admitted: seq<CallKey>) {
    key == OTHER || key !in admitted
  }

  /** The calls under the sentinel's own key, or under a key that is not among those admitted. */
  function Folded(log: seq<Call>, admitted: seq<CallKey>): seq<Call> {
    if log == [] then []
    else
      var last := log[|log| - 1];
      Folded(log[..|log| - 1], admitted) + if IsFolded(last.key, admitted) then [last] else []
  }

  lemma {:induction false} FoldedDependsOn(log: seq<Call>, admitted: seq<CallKey>, admitted': seq<CallKey>)
    requires forall i :: 0 <= i < |log| ==> (IsFolded(log[i].key, admitted) <==> IsFolded(log[i].key, admitted'))
    ensures Folded(log, admitted) == Folded(log, admitted')
  {
    hide IsFolded;
    if log != [] {
      FoldedDependsOn(log[..|log| - 1], admitted, admitted');
    }
  }

  /** Who was admitted stays so, and nobody else seen before is admitted later. */
  lemma AdmissionStands(log: seq<Call>)
    requires log != []
    ensures forall k :: k in FirstSeen(log[..|log| - 1]) ==> (k in Admitted(log[..|log| - 1]) <==> k in Admitted(log))
  {
    var init, key := log[..|log| - 1], log[|log| - 1].key;
    var seen := FirstSeen(init);
    if key !in seen && |seen| >= MAX_SERIES {
      assert (seen + [key])[..MAX_SERIES] == seen[..MAX_SERIES];
    }
  }

  lemma FoldedSnoc(log: seq<Call>)
    requires log != []
    ensures var init, c := log[..|log| - 1], log[|log| - 1];
      Folded(log, Admitted(log)) == Folded(init, Admitted(init)) + if IsFolded(c.key, Admitted(log)) then [c] else []
  {
    var init := log[..|log| - 1];
    FirstSeenIsDistinct(init);
    AdmissionStands(log);
    hide Admitted, FirstSeen;
    FoldedDependsOn(init, Admitted(log), Admitted(init));
  }

  /** The series a call lands in: the sentinel's exactly for a folded key. */
  lemma WhereItLands(log: seq<Call>)
    requires log != []
    ensures var init, c := log[..|log| - 1], log[|log| - 1];
      SeriesFor(After(init), c.key) == if IsFolded(c.key, Admitted(log)) then OTHER else c.key
  {
    var init, c := log[..|log| - 1], log[|log| - 1];
    if c.key != OTHER {
      SeriesIffAdmitted(log, c.key);
      SeriesIffAdmitted(init, c.key);
      hide Admitted, Counted;
      if c.key in After(log) {
        NewcomersAreNew(log);
      }
    }
  }

  lemma SpentSnoc(log: seq<Call>, c: Call, n: Counter)
    ensures Spent(log + [c], n) == Spent(log, n) + Worth(c, n)
  {
    assert (log + [c])[..|log|] == log;
  }

  lemma SentinelGrows(before: seq<Call>, s: CallStats, c: Call, n: Counter)
    requires Agree(n, Reading(s, n), Spent(before, n))
    ensures Agree(n, Reading(Counted(s, c), n), Spent(before + [c], n))
  {
    hide Agree, Counted, Reading, Worth, Spent;
    CountedAddsItsWorth(s, c, n);
    SpentSnoc(before, c, n);
    AgreeGrows(n, Reading(s, n), Reading(Counted(s, c), n), Spent(before, n), Worth(c, n));
  }

  lemma SentinelStats(log: seq<Call>)
    requires log != []
    ensures var init, c := log[..|log| - 1], log[|log| - 1];
      var s := StatsAt(After(init), OTHER);
      StatsAt(After(log), OTHER) == if IsFolded(c.key, Admitted(log)) then Counted(s, c) else s
  {
    WhereItLands(log);
    hide Admitted, Counted;
  }

  /** The sentinel holds the rest: for every counter, exactly the calls that were folded. */
  lemma {:induction false} SentinelHoldsTheRest(log: seq<Call>, n: Counter)
    ensures Agree(n, Reading(StatsAt(After(log), OTHER), n), Spent(Folded(log, Admitted(log)), n))
  {
    if log == [] {
      assert Folded([], Admitted([])) == [];
    } else {
      var init, c := log[..|log| - 1], log[|log| - 1];
      hide Agree, After, Reading, Spent, Folded, Admitted, Counted, IsFolded, StatsAt;
      SentinelHoldsTheRest(init, n);
      FoldedSnoc(log);
      SentinelStats(log);
      var before := Folded(init, Admitted(init));
      if IsFolded(c.key, Admitted(log)) {
        SentinelGrows(before, StatsAt(After(init), OTHER), c, n);
      } else {
        assert before + [] == before;
      }
    }
  }

  /** The registry never holds more than its cap and the sentinel. */
  lemma SeriesAreBounded(log: seq<Call>)
    ensures |After(log)| <= MAX_SERIES + 1
  {
    RegistryKeys(log);
    RoomIff(log);
    assert |After(log)| == |After(log).Keys|;
  }

  // ------------------------------------------------------------------------------------
  // Labels
  // ------------------------------------------------------------------------------------

  function EscapedChar(c: char): string {
    if c == '\\' then "\\\\" else if c == '"' then "\\\"" else if c == '\n' then "\\n" else [c]
  }

  function Escaped(v: string): string {
    if v == "" then "" else EscapedChar(v[0]) + Escaped(v[1..])
  }

  lemma EscapedCons(v: string, after: string)
    requires v != ""
    ensures Escaped(v) + after == EscapedChar(v[0]) + (Escaped(v[1..]) + after)
  {
  }

  method EscapeLabel(v: string) returns (out: string)
    ensures out == Escaped(v)
  {
    hide Escaped;
    out := "";
    var i := 0;
    while i < |v|
      invariant 0 <= i <= |v|
      invariant out + Escaped(v[i..]) == Escaped(v)
    {
      ghost var was := out;
      var c := v[i];
      if c == '\\' {
        out := out + "\\\\";
      } else if c == '"' {
        out := out + "\\\"";
      } else if c == '\n' {
        out := out + "\\n";
      } else {
        out := out + [c];
      }
      assert out == was + EscapedChar(c);
      EscapedStep(v, i, was);
      i := i + 1;
    }
    EscapedNothing();
    assert v[i..] == "";
  }

  lemma EscapedNothing()
    ensures Escaped("") == ""
  {
  }

  lemma EscapedStep(v: string, i: nat, out: string)
    requires i < |v|
    ensures out + Escaped(v[i..]) == out + EscapedChar(v[i]) + Escaped(v[i + 1..])
  {
    assert v[i..][1..] == v[i + 1..];
  }

  lemma {:induction false} EscapedConcat(a: string, b: string)
    ensures Escaped(a + b) == Escaped(a) + Escaped(b)
  {
    if a == "" {
      EscapedNothing();
      assert a + b == b;
    } else {
      EscapedConcat(a[1..], b);
      ConcatTail(a, b);
      EscapedHead(a);
      EscapedHead(a + b);
      hide *;
      Regroup(EscapedChar(a[0]), Escaped(a[1..]), Escaped(b));
    }
  }

  lemma ConcatTail(a: string, b: string)
    requires a != ""
    ensures a + b != "" && (a + b)[0] == a[0] && (a + b)[1..] == a[1..] + b
  {
  }

  lemma Regroup(a: string, b: string, c: string)
    ensures a + (b + c) == a + b + c
  {
  }

  lemma EscapedHead(v: string)
    requires v != ""
    ensures Escaped(v) == EscapedChar(v[0]) + Escaped(v[1..])
  {
  }

  lemma {:induction false} OrdinaryIsKept(v: string)
    requires '\\' !in v && '"' !in v && '\n' !in v
    ensures Escaped(v) == v
  {
    if v != "" {
      OrdinaryIsKept(v[1..]);
    }
  }

  /** Escaping touches backslashes, quotes and newlines and nothing else: between them, a stretch of
      other characters stands as it was. */
  lemma EscapesOnlySpecials(before: string, ordinary: string, c: char, after: string)
    requires '\\' !in ordinary && '"' !in ordinary && '\n' !in ordinary && (c == '\\' || c == '"' || c == '\n')
    ensures Escaped(ordinary) == ordinary
    ensures Escaped(before + (ordinary + ([c] + after))) ==
            Escaped(before) + (ordinary + (['\\', if c == '\n' then 'n' else c] + Escaped(after)))
  {
    OrdinaryIsKept(ordinary);
    EscapedConcat(before, ordinary + ([c] + after));
    EscapedConcat(ordinary, [c] + after);
    assert ([c] + after)[1..] == after;
  }

  /** How a reader of the exposition format reads a label value: up to the first bare quote. */
  function Unescaped(s: string): string {
    if s == "" || s[0] == '"' then ""
    else if s[0] == '\\' && |s| >= 2 then [if s[1] == 'n' then '\n' else s[1]] + Unescaped(s[2..])
    else [s[0]] + Unescaped(s[1..])
  }

  lemma ReadsOne(c: char, tail: string)
    ensures Unescaped(EscapedChar(c) + tail) == [c] + Unescaped(tail)
    ensures '\n' !in EscapedChar(c)
  {
    var e := EscapedChar(c);
    assert (e + tail)[0] == e[0] && (e + tail)[|e|..] == tail && (|e| == 2 ==> (e + tail)[1] == e[1]);
  }

  /** A reader finds the value that was written, whatever follows its closing quote. */
  lemma {:induction false} ReadsBack(v: string, rest: string)
    ensures Unescaped(Escaped(v) + ("\"" + rest)) == v
    ensures '\n' !in Escaped(v)
    decreases |v|
  {
    if v == "" {
      assert (Escaped(v) + ("\"" + rest))[0] == '"';
    } else {
      ReadsBack(v[1..], rest);
      EscapedCons(v, "\"" + rest);
      EscapedHead(v);
      hide Escaped, Unescaped, EscapedChar;
      ReadsOne(v[0], Escaped(v[1..]) + ("\"" + rest));
      assert v == [v[0]] + v[1..];
    }
  }

  function Labels(k: CallKey): string {
    "{user=\"" + (Escaped(k.user) + ("\",server=\"" + (Escaped(k.server) + ("\",tool=\"" + (Escaped(k.tool) + "\"}")))))
  }

  /** An escaped value ends at the first quote, whatever follows it. */
  lemma {:induction false} ValueEndsAtQuote(a: string, b: string, x: string, y: string)
    requires Escaped(a) + ("\"" + x) == Escaped(b) + ("\"" + y)
    ensures a == b && x == y
    decreases |a|
  {
    hide Escaped;
    QuoteStays(a, x);
    QuoteStays(b, y);
    if a == "" {
      assert x == ("\"" + x)[1..] && y == ("\"" + y)[1..];
    } else {
      HeadsAgree(a, x);
      HeadsAgree(b, y);
      ValueEndsAtQuote(a[1..], b[1..], x, y);
      assert a == [a[0]] + a[1..] && b == [b[0]] + b[1..];
    }
  }

  lemma QuoteStays(a: string, x: string)
    ensures (Escaped(a) + ("\"" + x))[0] == '"' <==> a == ""
    ensures a == "" ==> Escaped(a) + ("\"" + x) == "\"" + x
  {
  }

  /** The first character of a value can be read off its escaped form. */
  lemma HeadsAgree(a: string, x: string)
    requires a != ""
    ensures var s := Escaped(a) + ("\"" + x);
      && |s| >= 2
      && a[0] == (if s[0] != '\\' then s[0] else if s[1] == 'n' then '\n' else s[1])
      && |EscapedChar(a[0])| <= |s|
      && s[|EscapedChar(a[0])|..] == Escaped(a[1..]) + ("\"" + x)
  {
    EscapedCons(a, "\"" + x);
    hide Escaped;
    HeadReadsBack(a[0], Escaped(a[1..]) + ("\"" + x));
  }

  lemma HeadReadsBack(c: char, rest: string)
    requires rest != ""
    ensures var s := EscapedChar(c) + rest;
      && |s| >= 2
      && c == (if s[0] != '\\' then s[0] else if s[1] == 'n' then '\n' else s[1])
      && s[|EscapedChar(c)|..] == rest
  {
    var e := EscapedChar(c);
    assert (e + rest)[0] == e[0] && (|e| == 2 ==> (e + rest)[1] == e[1]);
  }

  /** A value followed by a quote and a fixed text comes apart before the quote. */
  lemma ValueEndsAt(next: string, a: string, b: string, x: string, y: string)
    requires Escaped(a) + ("\"" + next + x) == Escaped(b) + ("\"" + next + y)
    ensures a == b && x == y
  {
    hide Escaped;
    assert "\"" + next + x == "\"" + (next + x) && "\"" + next + y == "\"" + (next + y);
    ValueEndsAtQuote(a, b, next + x, next + y);
    Peel(next, x, y);
  }

  /** Distinct series are exported under distinct label sets, whatever their names contain. */
  lemma LabelsAreInjective(k: CallKey, k': CallKey)
    requires Labels(k) == Labels(k')
    ensures k == k'
  {
    hide Escaped;
    var tail, tail' := Escaped(k.tool) + "\"}", Escaped(k'.tool) + "\"}";
    var mid, mid' := Escaped(k.server) + ("\",tool=\"" + tail), Escaped(k'.server) + ("\",tool=\"" + tail');
    Peel("{user=\"", Escaped(k.user) + ("\",server=\"" + mid), Escaped(k'.user) + ("\",server=\"" + mid'));
    assert "\",server=\"" == "\"" + ",server=\"" && "\",tool=\"" == "\"" + ",tool=\"" && "\"}" == "\"" + "}" + "";
    ValueEndsAt(",server=\"", k.user, k'.user, mid, mid');
    ValueEndsAt(",tool=\"", k.server, k'.server, tail, tail');
    ValueEndsAt("}", k.tool, k'.tool, "", "");
  }

  lemma Peel(prefix: string, a: string, b: string)
    requires prefix + a == prefix + b
    ensures a == b
  {
    assert (prefix + a)[|prefix|..] == a && (prefix + b)[|prefix|..] == b;
  }
}
