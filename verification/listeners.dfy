/**
 * The observers that ship with the library — a metrics listener counting
 * validations and a logging listener choosing a log level — and the dispatch
 * of one event to one attached listener.
 */
module Listeners {
  import opened Outcomes
  import opened Events

  // ---------------------------------------------------------------------
  // MetricsListener
  // ---------------------------------------------------------------------

  /** One per-schema entry of the metrics: its "total", "success" and "failure" counters. */
  datatype Counts = Counts(total: nat, success: nat, failure: nat)

  /** The entry a schema gets on its first event, before that event is counted. */
  const NoCounts: Counts := Counts(0, 0, 0)

  /** An entry after one more event with the given outcome. */
  function Bump(c: Counts, success: bool): Counts {
    if success then c.(total := c.total + 1, success := c.success + 1)
    else c.(total := c.total + 1, failure := c.failure + 1)
  }

  /**
   * The state of one MetricsListener, shaped like the dictionary its
   * `get_stats` returns: global counters and the per-schema breakdown.
   */
  datatype Stats = Stats(total: nat, successful: nat, failed: nat, schemas: map<string, Counts>)

  /** The entry for `name`, or the zero entry when none exists yet. */
  function CountsFor(s: Stats, name: string): Counts {
    if name in s.schemas then s.schemas[name] else NoCounts
  }

  /** Which counter of a per-schema entry a sum is taken over. */
  datatype Column = TotalColumn | SuccessColumn | FailureColumn

  function Cell(c: Counts, col: Column): nat {
    match col
    case TotalColumn => c.total
    case SuccessColumn => c.success
    case FailureColumn => c.failure
  }

  /** The sum of one column of the per-schema entries whose names are in `keys`. */
  ghost function ColumnSum(m: map<string, Counts>, keys: set<string>, col: Column): nat
    requires keys <= m.Keys
    decreases keys
  {
    if keys == {} then 0
    else
      var k :| k in keys;
      Cell(m[k], col) + ColumnSum(m, keys - {k}, col)
  }

  /**
   * The invariant of a MetricsListener: every event is either a success or a
   * failure, globally and per schema, and the per-schema entries add up to
   * the global counters.
   */
  ghost predicate Consistent(s: Stats) {
    && s.total == s.successful + s.failed
    && (forall n :: n in s.schemas ==> s.schemas[n].total == s.schemas[n].success + s.schemas[n].failure)
    && ColumnSum(s.schemas, s.schemas.Keys, TotalColumn) == s.total
    && ColumnSum(s.schemas, s.schemas.Keys, SuccessColumn) == s.successful
    && ColumnSum(s.schemas, s.schemas.Keys, FailureColumn) == s.failed
  }

  /** A freshly constructed MetricsListener. */
  function NewMetrics(): (s: Stats)
    ensures s.total == 0 && s.successful == 0 && s.failed == 0
    ensures s.schemas.Keys == {}
  {
    Stats(0, 0, 0, map[])
  }

  /** A fresh MetricsListener satisfies the invariant. */
  lemma NewMetricsConsistent()
    ensures Consistent(NewMetrics())
  {
    assert NewMetrics().schemas.Keys == {};
  }

  /**
   * `MetricsListener.on_event`: a schema validation event is counted once
   * globally and once for its schema, as a success or as a failure; any
   * other event is ignored.
   */
  function MetricsOnEvent(s: Stats, e: Event): (r: Stats)
    ensures e.eventType != SchemaValidationType ==> r == s
    ensures e.eventType == SchemaValidationType ==>
      && r.total == s.total + 1
      && (e.success ==> r.successful == s.successful + 1 && r.failed == s.failed)
      && (!e.success ==> r.failed == s.failed + 1 && r.successful == s.successful)
      && r.schemas.Keys == s.schemas.Keys + {e.schemaName}
      && r.schemas[e.schemaName].total == CountsFor(s, e.schemaName).total + 1
      && (e.success ==> r.schemas[e.schemaName].success == CountsFor(s, e.schemaName).success + 1)
      && (e.success ==> r.schemas[e.schemaName].failure == CountsFor(s, e.schemaName).failure)
      && (!e.success ==> r.schemas[e.schemaName].failure == CountsFor(s, e.schemaName).failure + 1)
      && (!e.success ==> r.schemas[e.schemaName].success == CountsFor(s, e.schemaName).success)
      && (forall n :: n in s.schemas && n != e.schemaName ==> r.schemas[n] == s.schemas[n])
  {
    if e.eventType != SchemaValidationType then s
    else
      Stats(
        s.total + 1,
        if e.success then s.successful + 1 else s.successful,
        if e.success then s.failed else s.failed + 1,
        s.schemas[e.schemaName := Bump(CountsFor(s, e.schemaName), e.success)])
  }

  /** `k` is one of the summands of a column sum. */
  lemma {:induction false} ColumnSumPick(m: map<string, Counts>, keys: set<string>, k: string, col: Column)
    requires keys <= m.Keys && k in keys
    ensures ColumnSum(m, keys, col) == Cell(m[k], col) + ColumnSum(m, keys - {k}, col)
    decreases keys
  {
    var j :| j in keys && ColumnSum(m, keys, col) == Cell(m[j], col) + ColumnSum(m, keys - {j}, col);
    if j != k {
      ColumnSumPick(m, keys - {j}, k, col);
      ColumnSumPick(m, keys - {k}, j, col);
      assert keys - {j} - {k} == keys - {k} - {j};
    }
  }

  /** A column sum depends only on the entries it adds up. */
  lemma {:induction false} ColumnSumFrame(m1: map<string, Counts>, m2: map<string, Counts>, keys: set<string>, col: Column)
    requires keys <= m1.Keys && keys <= m2.Keys
    requires forall k :: k in keys ==> m1[k] == m2[k]
    ensures ColumnSum(m1, keys, col) == ColumnSum(m2, keys, col)
    decreases keys
  {
    if keys != {} {
      var k :| k in keys;
      ColumnSumPick(m1, keys, k, col);
      ColumnSumPick(m2, keys, k, col);
      ColumnSumFrame(m1, m2, keys - {k}, col);
    }
  }

  /** Replacing (or adding) one entry changes a column sum by the difference of that entry. */
  lemma ColumnSumUpdate(m: map<string, Counts>, k: string, c: Counts, col: Column)
    ensures ColumnSum(m[k := c], m[k := c].Keys, col) + Cell(if k in m then m[k] else NoCounts, col)
         == ColumnSum(m, m.Keys, col) + Cell(c, col)
  {
    var m' := m[k := c];
    ColumnSumPick(m', m'.Keys, k, col);
    assert m'.Keys - {k} == m.Keys - {k};
    ColumnSumFrame(m', m, m.Keys - {k}, col);
    if k in m {
      ColumnSumPick(m, m.Keys, k, col);
    } else {
      assert m.Keys - {k} == m.Keys;
    }
  }

  /** Every event keeps the counters consistent. */
  lemma MetricsOnEventConsistent(s: Stats, e: Event)
    requires Consistent(s)
    ensures Consistent(MetricsOnEvent(s, e))
  {
    if e.eventType == SchemaValidationType {
      var c := Bump(CountsFor(s, e.schemaName), e.success);
      ColumnSumUpdate(s.schemas, e.schemaName, c, TotalColumn);
      ColumnSumUpdate(s.schemas, e.schemaName, c, SuccessColumn);
      ColumnSumUpdate(s.schemas, e.schemaName, c, FailureColumn);
    }
  }

  /** The same event delivered `times` times to one MetricsListener. */
  function Repeat(s: Stats, e: Event, times: nat): Stats
    decreases times
  {
    if times == 0 then s else Repeat(MetricsOnEvent(s, e), e, times - 1)
  }

  /** A listener that receives a schema validation event k times counts it k times. */
  lemma {:induction false} RepeatCounts(s: Stats, e: Event, times: nat)
    requires e.eventType == SchemaValidationType
    ensures Repeat(s, e, times).total == s.total + times
    ensures Repeat(s, e, times).successful == s.successful + (if e.success then times else 0)
    ensures Repeat(s, e, times).failed == s.failed + (if e.success then 0 else times)
    ensures CountsFor(Repeat(s, e, times), e.schemaName).total == CountsFor(s, e.schemaName).total + times
    decreases times
  {
    if times > 0 {
      RepeatCounts(MetricsOnEvent(s, e), e, times - 1);
    }
  }

  /** The state after a MetricsListener has received `events` in order. */
  function Replay(s: Stats, events: seq<Event>): Stats
    decreases |events|
  {
    if events == [] then s
    else MetricsOnEvent(Replay(s, events[..|events| - 1]), events[|events| - 1])
  }

  /** The number of schema validation events in `events` with the given outcome. */
  function CountWith(events: seq<Event>, success: bool): nat
    decreases |events|
  {
    if events == [] then 0
    else
      var last := events[|events| - 1];
      CountWith(events[..|events| - 1], success)
        + (if last.eventType == SchemaValidationType && last.success == success then 1 else 0)
  }

  /** The schema validation events of `events` that concern `name`, in order. */
  function ForSchema(events: seq<Event>, name: string): seq<Event>
    decreases |events|
  {
    if events == [] then []
    else
      var last := events[|events| - 1];
      ForSchema(events[..|events| - 1], name)
        + (if last.eventType == SchemaValidationType && last.schemaName == name then [last] else [])
  }

  /** Successes, failures and their sum among `events`, as a per-schema entry. */
  function Tally(events: seq<Event>): Counts
    decreases |events|
  {
    if events == [] then NoCounts
    else Bump(Tally(events[..|events| - 1]), events[|events| - 1].success)
  }

  /** Counting one more event bumps the tally by its outcome. */
  lemma TallySnoc(events: seq<Event>, last: Event)
    ensures Tally(events + [last]) == Bump(Tally(events), last.success)
  {
    assert (events + [last])[..|events|] == events;
  }

  /** Replaying events from a consistent state keeps it consistent. */
  lemma {:induction false} ReplayConsistent(s: Stats, events: seq<Event>)
    requires Consistent(s)
    ensures Consistent(Replay(s, events))
    decreases |events|
  {
    if events != [] {
      ReplayConsistent(s, events[..|events| - 1]);
      MetricsOnEventConsistent(Replay(s, events[..|events| - 1]), events[|events| - 1]);
    }
  }

  /** A fresh MetricsListener stays consistent whatever events it receives. */
  lemma FreshMetricsStayConsistent(events: seq<Event>)
    ensures Consistent(Replay(NewMetrics(), events))
  {
    var start := NewMetrics();
    NewMetricsConsistent();
    ReplayConsistent(start, events);
  }

  /** The global counters of a fresh MetricsListener count exactly the events it received. */
  lemma {:induction false} ReplayCounters(events: seq<Event>)
    ensures Replay(NewMetrics(), events).successful == CountWith(events, true)
    ensures Replay(NewMetrics(), events).failed == CountWith(events, false)
    ensures Replay(NewMetrics(), events).total == CountWith(events, true) + CountWith(events, false)
    decreases |events|
  {
    if events != [] {
      ReplayCounters(events[..|events| - 1]);
    }
  }

  /** The per-schema entries of a fresh MetricsListener tally exactly each schema's events. */
  lemma {:induction false} ReplaySchemas(events: seq<Event>)
    ensures forall n :: n in Replay(NewMetrics(), events).schemas ==>
      Replay(NewMetrics(), events).schemas[n] == Tally(ForSchema(events, n))
    ensures forall n :: n !in Replay(NewMetrics(), events).schemas ==> ForSchema(events, n) == []
    ensures forall n :: n in Replay(NewMetrics(), events).schemas ==> ForSchema(events, n) != []
    decreases |events|
  {
    if events != [] {
      var prefix := events[..|events| - 1];
      var last := events[|events| - 1];
      ReplaySchemas(prefix);
      var p := Replay(NewMetrics(), prefix);
      var r := Replay(NewMetrics(), events);
      assert r == MetricsOnEvent(p, last);
      forall n | n in r.schemas
        ensures r.schemas[n] == Tally(ForSchema(events, n))
        ensures ForSchema(events, n) != []
      {
        if last.eventType == SchemaValidationType && last.schemaName == n {
          TallySnoc(ForSchema(prefix, n), last);
          assert ForSchema(events, n) == ForSchema(prefix, n) + [last];
        } else {
          assert ForSchema(events, n) == ForSchema(prefix, n) + [] == ForSchema(prefix, n);
        }
      }
      forall n | n !in r.schemas
        ensures ForSchema(events, n) == []
      {
        assert ForSchema(events, n) == ForSchema(prefix, n) + [];
      }
    }
  }

  /**
   * A MetricsListener's statistics reflect every event it has received:
   * after N successful and M failed validations in any interleaving it
   * reports N + M, N and M, its counters stay consistent, it has an entry
   * for exactly the schemas seen, and each entry counts exactly that
   * schema's events.
   */
  lemma MetricsAccuracy(events: seq<Event>)
    ensures var r := Replay(NewMetrics(), events);
      && Consistent(r)
      && r.successful == CountWith(events, true)
      && r.failed == CountWith(events, false)
      && r.total == CountWith(events, true) + CountWith(events, false)
      && (forall n :: n in r.schemas ==> r.schemas[n] == Tally(ForSchema(events, n)))
      && (forall n :: n !in r.schemas ==> ForSchema(events, n) == [])
      && (forall n :: n in r.schemas ==> ForSchema(events, n) != [])
  {
    FreshMetricsStayConsistent(events);
    ReplayCounters(events);
    ReplaySchemas(events);
  }

  // ---------------------------------------------------------------------
  // LoggingListener
  // ---------------------------------------------------------------------

  datatype Level = InfoLevel | ErrorLevel

  /** One log line: its level and its text (the time of day is not modelled). */
  datatype LogRecord = LogRecord(level: Level, message: string)

  /** Python's `sep.join(parts)`. */
  function Join(parts: seq<string>, sep: string): string
    decreases |parts|
  {
    if |parts| == 0 then ""
    else if |parts| == 1 then parts[0]
    else parts[0] + sep + Join(parts[1..], sep)
  }

  /** Joining one more part appends the separator and that part. */
  lemma {:induction false} JoinAppend(parts: seq<string>, sep: string, last: string)
    requires |parts| > 0
    ensures Join(parts + [last], sep) == Join(parts, sep) + sep + last
    decreases |parts|
  {
    if |parts| == 1 {
      assert (parts + [last])[1..] == [last];
    } else {
      assert (parts + [last])[1..] == parts[1..] + [last];
      JoinAppend(parts[1..], sep, last);
    }
  }

  const SchemaPrefix: string := "Schema '"

  function SuccessMessage(name: string): string {
    SchemaPrefix + name + "' validated successfully"
  }

  function FailureMessage(name: string, errors: seq<string>): string {
    SchemaPrefix + name + "' validation failed with errors: " + Join(errors, ", ")
  }

  /** A failure message with one more error ends with ", " and that error after the shorter message. */
  lemma FailureMessageAppend(name: string, errors: seq<string>, last: string)
    requires |errors| > 0
    ensures FailureMessage(name, errors + [last]) == FailureMessage(name, errors) + ", " + last
  {
    JoinAppend(errors, ", ", last);
  }

  /**
   * `LoggingListener.on_event`: a schema validation event yields one record,
   * at info level exactly when the validation succeeded; a failure record
   * ends with the error messages joined by ", ". Other events yield nothing.
   */
  function LoggingOnEvent(e: Event): (r: Option<LogRecord>)
    ensures r.Some? <==> e.eventType == SchemaValidationType
    ensures r.Some? ==> (r.value.level == InfoLevel <==> e.success)
    ensures r.Some? ==> SchemaPrefix + e.schemaName + "'" <= r.value.message
    ensures r.Some? && !e.success ==>
      var joined := Join(e.errors, ", ");
      |joined| <= |r.value.message| && r.value.message[|r.value.message| - |joined|..] == joined
  {
    if e.eventType != SchemaValidationType then None
    else if e.success then Some(LogRecord(InfoLevel, SuccessMessage(e.schemaName)))
    else Some(LogRecord(ErrorLevel, FailureMessage(e.schemaName, e.errors)))
  }

  /** The records of an optional log line, as a sequence. */
  function Lines(r: Option<LogRecord>): seq<LogRecord> {
    match r
    case Some(rec) => [rec]
    case None => []
  }

  // ---------------------------------------------------------------------
  // Attached listeners
  // ---------------------------------------------------------------------

  /** Identity of a MetricsListener object; the same id twice is the same object. */
  type ListenerId = nat

  /**
   * A listener attached to a context: a MetricsListener (by identity), a
   * LoggingListener (stateless), or an observer whose `on_event` always
   * raises with the given reason.
   */
  datatype Listener = Metrics(id: ListenerId) | Logging | Raising(reason: string)

  /** The state of every MetricsListener object, by identity. */
  type Heap = map<ListenerId, Stats>

  /** Every MetricsListener in `listeners` refers to an existing object. */
  predicate Live(listeners: seq<Listener>, heap: Heap) {
    forall i :: 0 <= i < |listeners| && listeners[i].Metrics? ==> listeners[i].id in heap
  }

  /** Constructs a MetricsListener object under the unused identity `id`. */
  function AllocMetrics(heap: Heap, id: ListenerId): (h: Heap)
    requires id !in heap
    ensures h.Keys == heap.Keys + {id}
    ensures h[id] == NewMetrics()
    ensures forall other :: other in heap ==> h[other] == heap[other]
  {
    heap[id := NewMetrics()]
  }

  /** How many times the MetricsListener `id` is attached in `listeners`. */
  function Occurrences(listeners: seq<Listener>, id: ListenerId): nat
    decreases |listeners|
  {
    if listeners == [] then 0
    else (if listeners[0] == Metrics(id) then 1 else 0) + Occurrences(listeners[1..], id)
  }

  /** Attachments of `id` in a concatenation add up. */
  lemma {:induction false} OccurrencesAppend(a: seq<Listener>, b: seq<Listener>, id: ListenerId)
    ensures Occurrences(a + b, id) == Occurrences(a, id) + Occurrences(b, id)
    decreases |a|
  {
    if a != [] {
      assert (a + b)[1..] == a[1..] + b;
      OccurrencesAppend(a[1..], b, id);
    } else {
      assert a + b == b;
    }
  }

  /** What delivering one event to one listener did: new state and log lines, or an exception. */
  datatype Reaction = Handled(heap: Heap, log: seq<LogRecord>) | Raised(reason: string)

  /**
   * One listener's `on_event`. Only a raising observer raises; a
   * MetricsListener updates its own object and nothing else; a
   * LoggingListener changes no state and emits its log line.
   */
  function OnEvent(l: Listener, heap: Heap, e: Event): (r: Reaction)
    requires l.Metrics? ==> l.id in heap
    ensures r.Raised? <==> l.Raising?
    ensures l.Raising? ==> r.reason == l.reason
    ensures r.Handled? ==> r.heap.Keys == heap.Keys
    ensures r.Handled? ==> forall id :: id in heap && l != Metrics(id) ==> r.heap[id] == heap[id]
    ensures l.Metrics? ==> r.heap[l.id] == MetricsOnEvent(heap[l.id], e) && r.log == []
    ensures l.Logging? ==> r.log == Lines(LoggingOnEvent(e))
  {
    match l
    case Metrics(id) => Handled(heap[id := MetricsOnEvent(heap[id], e)], [])
    case Logging => Handled(heap, Lines(LoggingOnEvent(e)))
    case Raising(reason) => Raised(reason)
  }
}
